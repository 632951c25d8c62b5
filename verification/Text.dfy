/** Text primitives of the host language that the modelled code leans on:
    decimal rendering, zero padding, whitespace and `strip`. */
module Text {

  datatype Option<+T> = None | Some(value: T) {
    predicate IsFailure() { None? }
    function PropagateFailure<U>(): Option<U> requires None? { None }
    function Extract(): T requires Some? { value }
  }

  // ---------------------------------------------------------------- decimal rendering

  function DigitChar(d: nat): char
    requires d < 10
  {
    "0123456789"[d]
  }

  predicate IsDigit(c: char) { '0' <= c <= '9' }

  /** `str(n)` for a non-negative integer. */
  function Digits(n: nat): (s: string)
    ensures s != [] && forall i :: 0 <= i < |s| ==> IsDigit(s[i])
  {
    if n < 10 then [DigitChar(n)] else Digits(n / 10) + [DigitChar(n % 10)]
  }

  function Zeros(k: nat): (s: string)
    ensures |s| == k && forall i :: 0 <= i < k ==> s[i] == '0'
  {
    seq(k, i => '0')
  }

  /** The format `{n:04d}`. */
  function Pad4(n: nat): (s: string)
    ensures s != [] && forall i :: 0 <= i < |s| ==> IsDigit(s[i])
  {
    var d := Digits(n);
    if |d| < 4 then Zeros(4 - |d|) + d else d
  }

  /** Reads a string of digits back; the partner of the two renderings. */
  function Value(s: string): nat
    requires forall i :: 0 <= i < |s| ==> IsDigit(s[i])
  {
    if s == [] then 0
    else
      var c := s[|s| - 1];
      assert IsDigit(c);
      Value(s[..|s| - 1]) * 10 + (c as int - '0' as int)
  }

  lemma {:induction false} ValueOfDigits(n: nat)
    ensures Value(Digits(n)) == n
  {
    if n >= 10 {
      ValueOfDigits(n / 10);
      var d := Digits(n);
      assert d[..|d| - 1] == Digits(n / 10);
    }
  }

  lemma {:induction false} ValueIgnoresLeadingZeros(k: nat, s: string)
    requires forall i :: 0 <= i < |s| ==> IsDigit(s[i])
    ensures Value(Zeros(k) + s) == Value(s)
    decreases k + |s|
  {
    var z := Zeros(k) + s;
    if s != [] {
      assert z[..|z| - 1] == Zeros(k) + s[..|s| - 1];
      ValueIgnoresLeadingZeros(k, s[..|s| - 1]);
    } else if k > 0 {
      assert z[..|z| - 1] == Zeros(k - 1) + s;
      ValueIgnoresLeadingZeros(k - 1, s);
    }
  }

  lemma PaddingKeepsValue(n: nat)
    ensures Value(Pad4(n)) == n
  {
    ValueOfDigits(n);
    if |Digits(n)| < 4 { ValueIgnoresLeadingZeros(4 - |Digits(n)|, Digits(n)); }
  }

  /** Padding never makes two numbers collide, however many digits they have. */
  lemma Pad4Injective(m: nat, n: nat)
    requires Pad4(m) == Pad4(n)
    ensures m == n
  {
    PaddingKeepsValue(m);
    PaddingKeepsValue(n);
  }

  lemma {:induction false} NoLeadingZero(n: nat)
    ensures if n == 0 then Digits(n) == "0" else Digits(n)[0] != '0'
  {
    if n >= 10 { NoLeadingZero(n / 10); }
  }

  /** What a padded number looks like: the number in decimal, four digits at least, and more only if needed. */
  lemma Pad4Is(n: nat)
    ensures Value(Pad4(n)) == n && |Pad4(n)| >= 4
    ensures |Pad4(n)| > 4 ==> Pad4(n)[0] != '0'
  {
    hide Value, Digits;
    PaddingKeepsValue(n);
    NoLeadingZero(n);
  }

  lemma DigitsInjective(m: nat, n: nat)
    requires Digits(m) == Digits(n)
    ensures m == n
  {
    ValueOfDigits(m);
    ValueOfDigits(n);
  }

  /** A separator absent from both tails splits a concatenation in one way only. */
  lemma {:induction false} SplitAtLast(a: string, x: string, b: string, y: string, sep: char)
    requires a + [sep] + x == b + [sep] + y
    requires sep !in x && sep !in y
    ensures a == b && x == y
  {
    var l, r := a + [sep] + x, b + [sep] + y;
    assert l[|a|] == sep && r[|b|] == sep;
    assert forall k :: |a| < k < |l| ==> l[k] == x[k - |a| - 1];
    assert forall k :: |b| < k < |r| ==> r[k] == y[k - |b| - 1];
    assert |a| == |b|;
    assert l[..|a|] == a && r[..|b|] == b;
    assert l[|a| + 1..] == x && r[|b| + 1..] == y;
  }

  // ---------------------------------------------------------------- whitespace

  /** `str.isspace` on one code point; also the class `\s` of a text pattern. */
  predicate IsSpace(c: char) {
    var n := c as int;
    9 <= n <= 13 || 28 <= n <= 32 || n == 0x85 || n == 0xA0 || n == 0x1680
    || 0x2000 <= n <= 0x200A || n == 0x2028 || n == 0x2029 || n == 0x202F || n == 0x205F || n == 0x3000
  }

  /** `s.strip()`. */
  function Strip(s: string): string {
    if s == "" then ""
    else if IsSpace(s[0]) then Strip(s[1..])
    else if IsSpace(s[|s| - 1]) then Strip(s[..|s| - 1])
    else s
  }

  /** Stripping cuts a window out of the text, and only whitespace outside it. */
  lemma {:induction false} StripIsWindow(s: string) returns (lo: nat, hi: nat)
    ensures lo <= hi <= |s| && Strip(s) == s[lo..hi]
    ensures forall k :: 0 <= k < |s| && !(lo <= k < hi) ==> IsSpace(s[k])
    ensures lo < hi ==> !IsSpace(s[lo]) && !IsSpace(s[hi - 1])
  {
    if s == "" {
      lo, hi := 0, 0;
    } else if IsSpace(s[0]) {
      lo, hi := StripIsWindow(s[1..]);
      lo, hi := lo + 1, hi + 1;
    } else if IsSpace(s[|s| - 1]) {
      lo, hi := StripIsWindow(s[..|s| - 1]);
    } else {
      lo, hi := 0, |s|;
    }
  }
}
