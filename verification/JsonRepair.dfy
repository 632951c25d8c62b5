/** The repair of almost-JSON model output: trailing commas, then unclosed brackets. */
module JsonRepair {
  import opened Text
  import opened TaskBoard

  predicate Opener(c: char) { c == '{' || c == '[' }

  predicate Closer(c: char) { c == '}' || c == ']' }

  function CloserOf(c: char): char { if c == '{' then '}' else ']' }

  // ---------------------------------------------------------------- trailing commas

  /** Where the whitespace from `i` on ends. */
  function SkipSpace(s: string, i: nat): (j: nat)
    requires i <= |s|
    ensures i <= j <= |s| && (forall k :: i <= k < j ==> IsSpace(s[k])) && (j < |s| ==> !IsSpace(s[j]))
    decreases |s| - i
  {
    if i < |s| && IsSpace(s[i]) then SkipSpace(s, i + 1) else i
  }

  /** A comma, whitespace and a closer start at `i`. */
  predicate CommaBefore(s: string, i: nat) {
    i < |s| && s[i] == ',' && SkipSpace(s, i + 1) < |s| && Closer(s[SkipSpace(s, i + 1)])
  }

  /** Drop every comma that only whitespace separates from a closer, and that whitespace, from position `i`. */
  function Uncomma(s: string, i: nat): string
    requires i <= |s|
    decreases |s| - i
  {
    if i == |s| then []
    else if CommaBefore(s, i) then
      var j := SkipSpace(s, i + 1);
      [s[j]] + Uncomma(s, j + 1)
    else [s[i]] + Uncomma(s, i + 1)
  }

  /** `t` is `s` with nothing but commas and whitespace taken out. */
  predicate Thinned(s: string, t: string) {
    if s == [] then t == []
    else (t != [] && s[0] == t[0] && Thinned(s[1..], t[1..])) || ((s[0] == ',' || IsSpace(s[0])) && Thinned(s[1..], t))
  }

  lemma {:induction false} ThinSpace(s: string, i: nat, j: nat, t: string)
    requires i <= j <= |s| && (forall k :: i <= k < j ==> IsSpace(s[k])) && Thinned(s[j..], t)
    ensures Thinned(s[i..], t)
    decreases j - i
  {
    if i < j {
      ThinSpace(s, i + 1, j, t);
      assert s[i..][1..] == s[i + 1..];
    }
  }

  /** Keeping one character, or dropping one that may go. */
  lemma ThinStep(s: string, i: nat, t: string)
    requires i < |s|
    ensures Thinned(s[i + 1..], t) ==> Thinned(s[i..], [s[i]] + t)
    ensures Thinned(s[i + 1..], t) && s[i] == ',' ==> Thinned(s[i..], t)
  {
    assert s[i..][1..] == s[i + 1..] && ([s[i]] + t)[1..] == t;
  }

  /** Dropping a comma and the whitespace after it. */
  lemma ThinCut(s: string, i: nat, j: nat, t: string)
    requires i < j < |s| && s[i] == ',' && (forall k :: i < k < j ==> IsSpace(s[k])) && Thinned(s[j + 1..], t)
    ensures Thinned(s[i..], [s[j]] + t)
  {
    hide Thinned, IsSpace;
    ThinStep(s, j, t);
    ThinSpace(s, i + 1, j, [s[j]] + t);
    ThinStep(s, i, [s[j]] + t);
  }

  lemma UncommaParts(s: string, i: nat)
    requires i < |s|
    ensures CommaBefore(s, i) ==> var j := SkipSpace(s, i + 1); Uncomma(s, i) == [s[j]] + Uncomma(s, j + 1)
    ensures !CommaBefore(s, i) ==> Uncomma(s, i) == [s[i]] + Uncomma(s, i + 1)
  {
  }

  /** The comma phase deletes nothing but commas and whitespace. */
  lemma {:induction false} UncommaOnlyThins(s: string, i: nat)
    requires i <= |s|
    ensures Thinned(s[i..], Uncomma(s, i))
    decreases |s| - i
  {
    hide Thinned, IsSpace, Uncomma;
    if i == |s| {
      ThinNothing(s);
      UncommaEnd(s);
    } else {
      UncommaParts(s, i);
      if CommaBefore(s, i) {
        var j := SkipSpace(s, i + 1);
        UncommaOnlyThins(s, j + 1);
        ThinCut(s, i, j, Uncomma(s, j + 1));
      } else {
        UncommaOnlyThins(s, i + 1);
        ThinStep(s, i, Uncomma(s, i + 1));
      }
    }
  }

  lemma ThinNothing(s: string)
    ensures Thinned(s[|s|..], [])
  {
  }

  lemma {:induction false} UncommaLength(s: string, i: nat)
    requires i <= |s|
    ensures |Uncomma(s, i)| <= |s| - i
    ensures |Uncomma(s, i)| == |s| - i <==> forall k :: i <= k < |s| ==> !CommaBefore(s, k)
    decreases |s| - i
  {
    hide Uncomma, IsSpace, Closer;
    if i == |s| {
      UncommaEnd(s);
    } else {
      UncommaParts(s, i);
      if CommaBefore(s, i) {
        UncommaLength(s, SkipSpace(s, i + 1) + 1);
      } else {
        UncommaLength(s, i + 1);
      }
    }
  }

  /** It leaves a text alone exactly when no comma stands before a closer, inside strings or out. */
  lemma UncommaKeepsIff(s: string)
    ensures Uncomma(s, 0) == s <==> forall k :: 0 <= k < |s| ==> !CommaBefore(s, k)
  {
    UncommaLength(s, 0);
    if forall k :: 0 <= k < |s| ==> !CommaBefore(s, k) { UncommaIdle(s, 0); }
  }

  lemma {:induction false} UncommaIdle(s: string, i: nat)
    requires i <= |s| && forall k :: i <= k < |s| ==> !CommaBefore(s, k)
    ensures Uncomma(s, i) == s[i..]
    decreases |s| - i
  {
    if i < |s| { UncommaIdle(s, i + 1); }
  }

  // ---------------------------------------------------------------- the scanner

  datatype Scan = Scan(stack: string, inString: bool, escaped: bool) {
    function Next(c: char): Scan {
      if escaped then this.(escaped := false)
      else if c == '\\' then this.(escaped := true)
      else if c == '"' then this.(inString := !inString)
      else if inString then this
      else if Opener(c) then this.(stack := stack + [c])
      else if Closer(c) && stack != [] && CloserOf(stack[|stack| - 1]) == c then this.(stack := stack[..|stack| - 1])
      else this
    }

    /** Outside strings and not after a backslash. */
    predicate Open() { !inString && !escaped }

    /** This character counts as a bracket here. */
    predicate Sees(c: char) { Open() && (Opener(c) || Closer(c)) }

    /** A closer that closes nothing. */
    predicate Stray(c: char) { Open() && Closer(c) && (stack == [] || CloserOf(stack[|stack| - 1]) != c) }
  }

  const START := Scan([], false, false)

  function Scanned(s: string): (r: Scan)
    ensures forall i :: 0 <= i < |r.stack| ==> Opener(r.stack[i])
  {
    if s == [] then START else Scanned(s[..|s| - 1]).Next(s[|s| - 1])
  }

  /** The closers of a stack, innermost first. */
  function Closers(stack: string): (r: string)
    ensures |r| == |stack|
  {
    if stack == [] then [] else [CloserOf(stack[|stack| - 1])] + Closers(stack[..|stack| - 1])
  }

  function Balanced(s: string): string { s + Closers(Scanned(s).stack) }

  /** `_repair`. */
  function Repaired(s: string): string { Balanced(Uncomma(s, 0)) }

  /** `_repair` as it runs: one pass with a stack and two flags. */
  method Repair(candidate: string) returns (out: string)
    ensures out == Repaired(candidate)
  {
    var fixed := DropCommas(candidate);
    var stack: string := [];
    var inString, escaped := false, false;
    for i := 0 to |fixed|
      invariant Scan(stack, inString, escaped) == Scanned(fixed[..i])
    {
      assert fixed[..i + 1][..i] == fixed[..i];
      var ch := fixed[i];
      if escaped {
        escaped := false;
      } else if ch == '\\' {
        escaped := true;
      } else if ch == '"' {
        inString := !inString;
      } else if !inString {
        if ch == '{' || ch == '[' {
          stack := stack + [ch];
        } else if ch == '}' && stack != [] && stack[|stack| - 1] == '{' {
          stack := stack[..|stack| - 1];
        } else if ch == ']' && stack != [] && stack[|stack| - 1] == '[' {
          stack := stack[..|stack| - 1];
        }
      }
    }
    assert fixed[..|fixed|] == fixed;
    out := fixed;
    ghost var open := stack;
    while stack != []
      invariant stack <= open && out + Closers(stack) == fixed + Closers(open)
    {
      var item := stack[|stack| - 1];
      assert out + ([CloserOf(item)] + Closers(stack[..|stack| - 1])) == out + [CloserOf(item)] + Closers(stack[..|stack| - 1]);
      out := out + [if item == '{' then '}' else ']'];
      stack := stack[..|stack| - 1];
    }
  }

  lemma UncommaStep(out: string, s: string, i: nat)
    requires i < |s|
    ensures CommaBefore(s, i) ==> var j := SkipSpace(s, i + 1); out + Uncomma(s, i) == out + [s[j]] + Uncomma(s, j + 1)
    ensures !CommaBefore(s, i) ==> out + Uncomma(s, i) == out + [s[i]] + Uncomma(s, i + 1)
  {
  }

  method DropCommas(s: string) returns (out: string)
    ensures out == Uncomma(s, 0)
  {
    hide Uncomma;
    out := [];
    var i := 0;
    assert out + Uncomma(s, i) == Uncomma(s, 0);
    while i < |s|
      invariant i <= |s| && out + Uncomma(s, i) == Uncomma(s, 0)
    {
      UncommaStep(out, s, i);
      if CommaBefore(s, i) {
        var j := SkipSpace(s, i + 1);
        out, i := out + [s[j]], j + 1;
      } else {
        out, i := out + [s[i]], i + 1;
      }
    }
    UncommaEnd(s);
    assert out + [] == out;
  }

  lemma UncommaEnd(s: string)
    ensures Uncomma(s, |s|) == []
  {
  }

  // ---------------------------------------------------------------- what balancing achieves

  /** Scanning on from a state. */
  /** How many backslashes the text ends with. */
  function Backslashes(s: string): (n: nat)
    ensures n <= |s|
  {
    if s != [] && s[|s| - 1] == '\\' then Backslashes(s[..|s| - 1]) + 1 else 0
  }

  /** How many quotes there are that no backslash escapes. */
  function Quotes(s: string): nat {
    if s == [] then 0
    else Quotes(s[..|s| - 1]) + if s[|s| - 1] == '"' && Backslashes(s[..|s| - 1]) % 2 == 0 then 1 else 0
  }

  /** Where the scanner takes itself to be: after an escape when an odd number of backslashes has just passed, in a
      string when an odd number of quotes has that is not escaped. */
  lemma {:induction false} ScannerIsWhere(s: string)
    ensures Scanned(s).escaped <==> Backslashes(s) % 2 == 1
    ensures Scanned(s).inString <==> Quotes(s) % 2 == 1
  {
    if s != [] { ScannerIsWhere(s[..|s| - 1]); }
  }

  /** `c` closes the bracket on top of the stack. */
  predicate Shuts(stack: string, c: char) {
    stack != [] && ((c == '}' && stack[|stack| - 1] == '{') || (c == ']' && stack[|stack| - 1] == '['))
  }

  /** What a character does to the stack: outside strings and escapes an opener goes on top, and a closer takes the
      top one off if that is its opener; nothing else matters. */
  lemma StackMoves(s: string, c: char)
    ensures var before, after, seen := Scanned(s).stack, Scanned(s + [c]).stack, Quotes(s) % 2 == 0 && Backslashes(s) % 2 == 0;
      after == if seen && (c == '{' || c == '[') then before + [c] else if seen && Shuts(before, c) then before[..|before| - 1] else before
  {
    hide Scanned, Quotes, Backslashes;
    ScannerIsWhere(s);
    ScannedNext(s, c);
    assert forall i :: 0 <= i < |Scanned(s).stack| ==> Opener(Scanned(s).stack[i]);
  }

  lemma ScannedNext(s: string, c: char)
    ensures Scanned(s + [c]) == Scanned(s).Next(c)
  {
    assert (s + [c])[..|s|] == s;
  }

  function ScanFrom(st: Scan, s: string): Scan {
    if s == [] then st else ScanFrom(st, s[..|s| - 1]).Next(s[|s| - 1])
  }

  lemma {:induction false} ScannedConcat(s: string, t: string)
    ensures Scanned(s + t) == ScanFrom(Scanned(s), t)
  {
    if t == [] {
      assert s + t == s;
    } else {
      assert (s + t)[..|s + t| - 1] == s + t[..|t| - 1];
      ScannedConcat(s, t[..|t| - 1]);
    }
  }

  lemma {:induction false} ScanFromFront(st: Scan, c: char, t: string)
    ensures ScanFrom(st, [c] + t) == ScanFrom(st.Next(c), t)
  {
    if t == [] {
      assert [c] + t == [c] && [c][..0] == [];
      assert ScanFrom(st, [c]) == ScanFrom(st, []).Next(c);
    } else {
      assert ([c] + t)[..|t|] == [c] + t[..|t| - 1];
      ScanFromFront(st, c, t[..|t| - 1]);
    }
  }

  /** An open state is emptied by its closers. */
  lemma {:induction false} ClosersEmpty(st: Scan)
    requires st.Open() && forall i :: 0 <= i < |st.stack| ==> Opener(st.stack[i])
    ensures ScanFrom(st, Closers(st.stack)) == START
    decreases |st.stack|
  {
    if st.stack != [] {
      var top := st.stack[|st.stack| - 1];
      var less := st.stack[..|st.stack| - 1];
      ScanFromFront(st, CloserOf(top), Closers(less));
      ClosersEmpty(st.(stack := less));
    }
  }

  /** Inside a string closers are text. */
  lemma {:induction false} ClosersAreText(st: Scan, stack: string)
    requires st.inString && !st.escaped
    ensures ScanFrom(st, Closers(stack)) == st
    decreases |stack|
  {
    if stack != [] {
      ScanFromFront(st, CloserOf(stack[|stack| - 1]), Closers(stack[..|stack| - 1]));
      ClosersAreText(st, stack[..|stack| - 1]);
    }
  }

  lemma {:induction false} ScanShrinksSlowly(st: Scan, t: string)
    ensures |ScanFrom(st, t).stack| >= |st.stack| - |t|
  {
    if t != [] { ScanShrinksSlowly(st, t[..|t| - 1]); }
  }

  /** Scanning the balanced text again ends with an empty stack exactly when nothing was open, or the text
      ended outside a string and not after a backslash. */
  lemma BalancedIff(s: string)
    ensures Scanned(Balanced(s)).stack == [] <==> Scanned(s).stack == [] || Scanned(s).Open()
  {
    var st := Scanned(s);
    ScannedConcat(s, Closers(st.stack));
    if st.Open() {
      ClosersEmpty(st);
    } else if st.stack == [] {
      assert s + [] == s;
    } else if st.escaped {
      var rest := Closers(st.stack[..|st.stack| - 1]);
      ScanFromFront(st, CloserOf(st.stack[|st.stack| - 1]), rest);
      ScanShrinksSlowly(st.(escaped := false), rest);
    } else {
      ClosersAreText(st, st.stack);
    }
  }

  /** Balancing a second time adds nothing exactly in the same cases; what is added is one closer per open
      bracket. */
  lemma BalancingTwiceIff(s: string)
    ensures Balanced(Balanced(s)) == Balanced(s) <==> Scanned(s).stack == [] || Scanned(s).Open()
    ensures |Balanced(s)| == |s| + |Scanned(s).stack| && s <= Balanced(s)
  {
    BalancedIff(s);
    var stack := Scanned(Balanced(s)).stack;
    assert |Balanced(Balanced(s))| == |Balanced(s)| + |stack|;
    if stack == [] { assert Balanced(s) + [] == Balanced(s); }
  }

  /** Text that needs no repair is not changed by it. */
  lemma SoundTextIsKept(s: string)
    requires (forall k :: 0 <= k < |s| ==> !CommaBefore(s, k)) && Scanned(s).stack == []
    ensures Repaired(s) == s
  {
    UncommaKeepsIff(s);
    assert s + [] == s;
  }

  // ---------------------------------------------------------------- well-nested brackets

  /** The brackets the scanner sees: outside strings and not escaped. */
  function Brackets(s: string): (b: string)
    ensures forall i :: 0 <= i < |b| ==> Opener(b[i]) || Closer(b[i])
  {
    if s == [] then []
    else
      var c := s[|s| - 1];
      Brackets(s[..|s| - 1]) + if Scanned(s[..|s| - 1]).Sees(c) then [c] else []
  }

  /** No closer the scanner sees is stray. */
  predicate NoStray(s: string) { s == [] || (NoStray(s[..|s| - 1]) && !Scanned(s[..|s| - 1]).Stray(s[|s| - 1])) }

  /** Well-nested: nothing, or a bracketed well-nested word followed by a well-nested word. */
  ghost predicate Nested(b: string)
    decreases |b|
  {
    b == [] || exists k: nat :: NestedAt(b, k)
  }

  /** `b` opens with a bracket that is closed at `k`. */
  ghost predicate NestedAt(b: string, k: nat)
    decreases |b|, 0
  {
    0 < k < |b| && Opener(b[0]) && b[k] == CloserOf(b[0]) && Nested(b[1..k]) && Nested(b[k + 1..])
  }

  /** `b` closes everything on the stack, innermost first, with well-nested words in between. */
  ghost predicate Closes(stack: string, b: string)
    decreases |stack|
  {
    if stack == [] then Nested(b) else exists k: nat :: ClosesAt(stack, b, k)
  }

  ghost predicate ClosesAt(stack: string, b: string, k: nat)
    requires stack != []
    decreases |stack|, 0
  {
    k < |b| && Nested(b[..k]) && b[k] == CloserOf(stack[|stack| - 1]) && Closes(stack[..|stack| - 1], b[k + 1..])
  }

  lemma OpenerBefore(stack: string, c: char, b: string, k: nat)
    requires Opener(c) && ClosesAt(stack + [c], b, k)
    ensures Closes(stack, [c] + b)
  {
    assert (stack + [c])[..|stack + [c]| - 1] == stack;
    var rest := b[k + 1..];
    assert Closes(stack, rest);
    var w := [c] + b[..k] + [b[k]];
    assert [c] + b == w + rest;
    if stack == [] {
      assert ([c] + b)[1..k + 1] == b[..k] && ([c] + b)[k + 2..] == rest;
      assert NestedAt([c] + b, k + 1);
    } else {
      var m: nat :| ClosesAt(stack, rest, m);
      var x := w + rest[..m];
      assert x[1..k + 1] == b[..k] && x[k + 2..] == rest[..m];
      assert NestedAt(x, k + 1);
      var at := |w| + m;
      assert ([c] + b)[..at] == x && ([c] + b)[at + 1..] == rest[m + 1..] && ([c] + b)[at] == rest[m];
      assert ClosesAt(stack, [c] + b, at);
    }
  }

  /** Reading brackets from a stack, as the scanner does; None at a stray closer. */
  function Read(stack: string, b: string): Option<string>
    decreases |b|
  {
    if b == [] then Some(stack)
    else if Opener(b[0]) then Read(stack + [b[0]], b[1..])
    else if stack != [] && CloserOf(stack[|stack| - 1]) == b[0] then Read(stack[..|stack| - 1], b[1..])
    else None
  }

  lemma {:induction false} ReadCloses(stack: string, b: string)
    requires Read(stack, b) == Some([])
    ensures Closes(stack, b)
    decreases |b|
  {
    if b == [] {
    } else if Opener(b[0]) {
      ReadCloses(stack + [b[0]], b[1..]);
      var k: nat :| ClosesAt(stack + [b[0]], b[1..], k);
      OpenerBefore(stack, b[0], b[1..], k);
      assert [b[0]] + b[1..] == b;
    } else {
      ReadCloses(stack[..|stack| - 1], b[1..]);
      assert b[..0] == [];
      assert ClosesAt(stack, b, 0);
    }
  }

  lemma {:induction false} ReadPush(stack: string, b: string, c: char)
    ensures Read(stack, b + [c]) == (var r := Read(stack, b); if r.None? then None else Read(r.value, [c]))
    decreases |b|
  {
    if b == [] {
      assert b + [c] == [c];
    } else {
      assert (b + [c])[1..] == b[1..] + [c];
      if Opener(b[0]) {
        ReadPush(stack + [b[0]], b[1..], c);
      } else if stack != [] && CloserOf(stack[|stack| - 1]) == b[0] {
        ReadPush(stack[..|stack| - 1], b[1..], c);
      }
    }
  }

  /** Without stray closers the scanner's stack is what reading the brackets leaves. */
  lemma {:induction false} ScanReads(s: string)
    requires NoStray(s)
    ensures Read([], Brackets(s)) == Some(Scanned(s).stack)
  {
    if s != [] {
      var front, c := s[..|s| - 1], s[|s| - 1];
      ScanReads(front);
      var stack := Scanned(front).stack;
      if Scanned(front).Sees(c) {
        ReadPush([], Brackets(front), c);
        assert [c][1..] == [] && Brackets(s) == Brackets(front) + [c];
        assert Read(stack, [c]) == if Opener(c) then Some(stack + [c]) else Some(stack[..|stack| - 1]);
      } else {
        assert Brackets(s) == Brackets(front) + [] == Brackets(front);
      }
    }
  }

  lemma CloserPops(s: string, less: string, top: char)
    requires NoStray(s) && Opener(top) && Scanned(s) == Scan(less + [top], false, false)
    ensures NoStray(s + [CloserOf(top)]) && Scanned(s + [CloserOf(top)]) == Scan(less, false, false)
  {
    var s1 := s + [CloserOf(top)];
    assert s1[..|s1| - 1] == s && (less + [top])[..|less|] == less;
  }

  lemma {:induction false} ClosersNotStray(s: string, stack: string)
    requires NoStray(s) && Scanned(s).Open() && Scanned(s).stack == stack
    ensures NoStray(s + Closers(stack))
    decreases |stack|
  {
    hide NoStray, Scan.Next;
    if stack == [] {
      assert s + [] == s;
    } else {
      var less, top := stack[..|stack| - 1], stack[|stack| - 1];
      assert stack == less + [top];
      CloserPops(s, less, top);
      ClosersNotStray(s + [CloserOf(top)], less);
      assert s + ([CloserOf(top)] + Closers(less)) == s + [CloserOf(top)] + Closers(less);
    }
  }

  /** Repairing a text with no stray closer that does not end inside a string or after a backslash gives
      brackets that are well nested. */
  lemma BalancedIsNested(s: string)
    requires NoStray(s) && Scanned(s).Open()
    ensures Nested(Brackets(Balanced(s)))
  {
    BalancedIff(s);
    ClosersNotStray(s, Scanned(s).stack);
    ScanReads(Balanced(s));
    ReadCloses([], Brackets(Balanced(s)));
  }

  lemma {:induction false} NestedReads(stack: string, b: string, more: string)
    requires Nested(b)
    ensures Read(stack, b + more) == Read(stack, more)
    decreases |b|
  {
    if b == [] {
      assert b + more == more;
    } else {
      var k: nat :| NestedAt(b, k);
      var c := b[0];
      assert b + more == [c] + (b[1..k] + ([b[k]] + (b[k + 1..] + more)));
      NestedReads(stack + [c], b[1..k], [b[k]] + (b[k + 1..] + more));
      assert ([b[k]] + (b[k + 1..] + more))[1..] == b[k + 1..] + more;
      assert (stack + [c])[..|stack|] == stack;
      NestedReads(stack, b[k + 1..], more);
    }
  }

  /** With no stray closer, the scanner's stack is empty exactly when the brackets it saw are well nested. */
  lemma EmptyStackIffNested(s: string)
    requires NoStray(s)
    ensures Scanned(s).stack == [] <==> Nested(Brackets(s))
  {
    ScanReads(s);
    if Scanned(s).stack == [] { ReadCloses([], Brackets(s)); }
    if Nested(Brackets(s)) {
      NestedReads([], Brackets(s), []);
      assert Brackets(s) + [] == Brackets(s);
    }
  }

  // ---------------------------------------------------------------- what repair does not achieve

  /** The comma phase sees one comma of a run, so a second repair can still change the text. */
  lemma RepairIsNotIdempotent()
    ensures Repaired(",,}") == ",}" && Repaired(",}") == "}"
  {
    var s, t := ",,}", ",}";
    assert Uncomma(s, 3) == [] && Uncomma(s, 1) == "}" && Uncomma(s, 0) == ",}";
    assert Uncomma(t, 2) == [] && Uncomma(t, 0) == "}";
    assert Scanned("") == START;
    assert t[..1] == "," && "}"[..0] == "" && ","[..0] == "";
    assert Scanned(",") == START && Scanned(",}") == START && Scanned("}") == START;
  }

  /** It does not know strings either: a comma and a brace inside a string value lose the comma. */
  lemma CommaPhaseReachesIntoStrings()
    ensures Uncomma("\",}\"", 0) == "\"}\""
  {
    var s := "\",}\"";
    assert Uncomma(s, 4) == [] && Uncomma(s, 3) == "\"" && Uncomma(s, 1) == "}\"";
  }

  lemma {:induction false} UncommaMovesCloser(s: string, i: nat, k: nat)
    requires i <= k < |s| && CommaBefore(s, k) && forall m :: i <= m < k ==> !CommaBefore(s, m)
    ensures |Uncomma(s, i)| > k - i && Closer(Uncomma(s, i)[k - i])
    decreases k - i
  {
    if i < k { UncommaMovesCloser(s, i + 1, k); }
  }

  /** Repairing twice is repairing once exactly when the first repair left no comma before a closer and its
      balancing worked. */
  lemma TwiceByResult(s: string)
    ensures var r := Repaired(s); Repaired(r) == r <==>
      (forall k :: 0 <= k < |r| ==> !CommaBefore(r, k)) && (Scanned(Uncomma(s, 0)).stack == [] || Scanned(Uncomma(s, 0)).Open())
  {
    hide Uncomma, CommaBefore, Closer, Scanned;
    var r := Repaired(s);
    BalancedIff(Uncomma(s, 0));
    BalancingTwiceIff(Uncomma(s, 0));
    if forall k :: 0 <= k < |r| ==> !CommaBefore(r, k) {
      UncommaKeepsIff(r);
    } else {
      FirstComma(r);
      var k: nat :| k < |r| && CommaBefore(r, k) && forall m: nat :: m < k ==> !CommaBefore(r, m);
      UncommaMovesCloser(r, 0, k);
      CommaIsNoCloser(r, k);
      BalancingTwiceIff(Uncomma(r, 0));
      assert Repaired(r)[k] == Uncomma(r, 0)[k];
    }
  }

  lemma CommaIsNoCloser(r: string, k: nat)
    requires CommaBefore(r, k)
    ensures !Closer(r[k])
  {
  }

  lemma FirstComma(r: string)
    requires exists k :: 0 <= k < |r| && CommaBefore(r, k)
    ensures exists k: nat :: k < |r| && CommaBefore(r, k) && forall m: nat :: m < k ==> !CommaBefore(r, m)
  {
    var k: nat :| k < |r| && CommaBefore(r, k);
    while exists m: nat :: m < k && CommaBefore(r, m)
      invariant k < |r| && CommaBefore(r, k)
      decreases k
    {
      var m: nat :| m < k && CommaBefore(r, m);
      k := m;
    }
  }

  /** A comma that the comma phase leaves before a closer: the next thing after it is a comma that goes. */
  predicate RunBefore(s: string, i: nat) { i < |s| && s[i] == ',' && CommaBefore(s, SkipSpace(s, i + 1)) }

  /** From `i` on, nothing but whitespace follows some comma. */
  predicate TrailingComma(s: string, i: nat) { exists k :: i <= k < |s| && s[k] == ',' && SkipSpace(s, k + 1) == |s| }

  ghost predicate SomeComma(t: string) { exists k: nat :: CommaBefore(t, k) }

  lemma {:induction false} SkipShift(c: char, t: string, k: nat)
    requires k <= |t|
    ensures SkipSpace([c] + t, k + 1) == SkipSpace(t, k) + 1
    decreases |t| - k
  {
    if k < |t| && IsSpace(t[k]) { SkipShift(c, t, k + 1); }
  }

  lemma {:induction false} SkipOver(w: string, t: string, k: nat)
    requires k <= |w| && (forall m :: 0 <= m < |w| ==> IsSpace(w[m])) && (t != [] ==> !IsSpace(t[0]))
    ensures SkipSpace(w + t, k) == |w|
    decreases |w| - k
  {
    if k < |w| { SkipOver(w, t, k + 1); }
  }

  lemma {:induction false} SpaceIsKept(s: string, i: nat, j: nat)
    requires i <= j <= |s| && forall k :: i <= k < j ==> IsSpace(s[k])
    ensures Uncomma(s, i) == s[i..j] + Uncomma(s, j)
    decreases j - i
  {
    if i < j { SpaceIsKept(s, i + 1, j); }
  }

  /** Where the comma phase has a comma at hand, it leaves the same whitespace behind it, and then either
      nothing, or a closer it moved up, or the next character. */
  lemma AfterComma(s: string, i: nat)
    requires i < |s|
    ensures var j := SkipSpace(s, i + 1); var u := Uncomma(s, i + 1);
      && SkipSpace(u, 0) == j - i - 1 && (j == |s| <==> SkipSpace(u, 0) == |u|)
      && (j < |s| ==> u[j - i - 1] == if CommaBefore(s, j) then s[SkipSpace(s, j + 1)] else s[j])
  {
    var j := SkipSpace(s, i + 1);
    SpaceIsKept(s, i + 1, j);
    SkipOver(s[i + 1..j], Uncomma(s, j), 0);
  }

  lemma CommaShift(c: char, t: string, k: nat)
    ensures CommaBefore([c] + t, k + 1) <==> CommaBefore(t, k)
  {
    if k < |t| { SkipShift(c, t, k + 1); }
  }

  lemma CommaHead(c: char, t: string)
    ensures CommaBefore([c] + t, 0) <==> c == ',' && SkipSpace(t, 0) < |t| && Closer(t[SkipSpace(t, 0)])
  {
    SkipShift(c, t, 0);
  }

  lemma SomeCommaCons(c: char, t: string)
    ensures SomeComma([c] + t) <==> SomeComma(t) || CommaBefore([c] + t, 0)
  {
    hide CommaBefore;
    if SomeComma(t) {
      var k: nat :| CommaBefore(t, k);
      CommaShift(c, t, k);
    }
    if SomeComma([c] + t) {
      var k: nat :| CommaBefore([c] + t, k);
      if k > 0 { CommaShift(c, t, k - 1); }
    }
  }

  /** The comma phase leaves a comma before a closer exactly where a run of commas stood before one. */
  lemma {:induction false} RunsLeaveCommas(s: string, i: nat)
    requires i <= |s|
    ensures SomeComma(Uncomma(s, i)) <==> exists k: nat :: i <= k && RunBefore(s, k)
    decreases |s| - i
  {
    hide Uncomma, CommaBefore, SomeComma;
    if i == |s| {
      UncommaEnd(s);
      NoComma();
    } else {
      UncommaParts(s, i);
      CommaParts(s, i);
      if CommaBefore(s, i) {
        var j := SkipSpace(s, i + 1);
        RunsLeaveCommas(s, j + 1);
        SomeCommaCons(s[j], Uncomma(s, j + 1));
        CommaHead(s[j], Uncomma(s, j + 1));
        NoRunWithin(s, i);
      } else {
        RunsLeaveCommas(s, i + 1);
        SomeCommaCons(s[i], Uncomma(s, i + 1));
        CommaHead(s[i], Uncomma(s, i + 1));
        RunHere(s, i);
      }
    }
  }

  lemma NoComma()
    ensures !SomeComma([])
  {
  }

  lemma CommaParts(s: string, i: nat)
    ensures CommaBefore(s, i) <==> i < |s| && s[i] == ',' && SkipSpace(s, i + 1) < |s| && Closer(s[SkipSpace(s, i + 1)])
    ensures CommaBefore(s, i) ==> s[i] == ',' && s[SkipSpace(s, i + 1)] != ','
  {
  }

  lemma NoRunWithin(s: string, i: nat)
    requires CommaBefore(s, i)
    ensures forall k: nat :: i <= k <= SkipSpace(s, i + 1) ==> !RunBefore(s, k)
  {
  }

  /** At a comma that stays: what it is left before is a closer exactly when it headed a run. */
  lemma RunHere(s: string, i: nat)
    requires i < |s| && !CommaBefore(s, i)
    ensures RunBefore(s, i) <==> s[i] == ',' && var u := Uncomma(s, i + 1); SkipSpace(u, 0) < |u| && Closer(u[SkipSpace(u, 0)])
  {
    hide Uncomma, SkipSpace;
    AfterComma(s, i);
    CommaParts(s, SkipSpace(s, i + 1));
  }

  ghost predicate TrailingAt(s: string, k: nat) { k < |s| && s[k] == ',' && SkipSpace(s, k + 1) == |s| }

  lemma TrailingShift(c: char, t: string, k: nat)
    ensures TrailingAt([c] + t, k + 1) <==> TrailingAt(t, k)
  {
    if k < |t| { SkipShift(c, t, k + 1); }
  }

  lemma TrailingCons(c: char, t: string)
    ensures TrailingComma([c] + t, 0) <==> TrailingComma(t, 0) || (c == ',' && SkipSpace(t, 0) == |t|)
  {
    hide TrailingAt, TrailingComma, SkipSpace;
    var u := [c] + t;
    TrailingIff(u, 0);
    TrailingIff(t, 0);
    TrailingFirst(c, t);
    if k: nat :| TrailingAt(t, k) { TrailingShift(c, t, k); }
    if k: nat :| TrailingAt(u, k) {
      if k > 0 { TrailingShift(c, t, k - 1); }
    }
  }

  lemma TrailingFirst(c: char, t: string)
    ensures TrailingAt([c] + t, 0) <==> c == ',' && SkipSpace(t, 0) == |t|
  {
    SkipShift(c, t, 0);
    TrailingHere([c] + t, 0);
  }

  lemma TrailingHere(s: string, k: nat)
    ensures TrailingAt(s, k) <==> k < |s| && s[k] == ',' && SkipSpace(s, k + 1) == |s|
  {
  }

  lemma TrailingIff(s: string, i: nat)
    ensures TrailingComma(s, i) <==> exists k: nat :: i <= k && TrailingAt(s, k)
  {
    hide SkipSpace;
    if TrailingComma(s, i) {
      var k :| i <= k < |s| && s[k] == ',' && SkipSpace(s, k + 1) == |s|;
      assert TrailingAt(s, k);
    }
  }

  /** It leaves the end of the text as it was. */
  lemma {:induction false} TrailingIsKept(s: string, i: nat)
    requires i <= |s|
    ensures TrailingComma(Uncomma(s, i), 0) <==> TrailingComma(s, i)
    decreases |s| - i
  {
    hide Uncomma, CommaBefore;
    if i == |s| {
      UncommaEnd(s);
    } else {
      UncommaParts(s, i);
      CommaParts(s, i);
      if CommaBefore(s, i) {
        var j := SkipSpace(s, i + 1);
        TrailingIsKept(s, j + 1);
        TrailingCons(s[j], Uncomma(s, j + 1));
      } else {
        TrailingIsKept(s, i + 1);
        TrailingCons(s[i], Uncomma(s, i + 1));
        AfterComma(s, i);
      }
    }
  }

  lemma CommaBeforeClosers(u: string, closers: string, k: nat)
    requires closers != [] && forall m :: 0 <= m < |closers| ==> Closer(closers[m])
    ensures CommaBefore(u + closers, k) <==> CommaBefore(u, k) || TrailingAt(u, k)
  {
    hide IsSpace;
    if k < |u| { SkipBeforeCloser(u, closers, k + 1); }
  }

  /** Closers appended to a text put a comma before a closer only where the text ends in one. */
  lemma CommasAfterClosers(u: string, closers: string)
    requires closers != [] && forall k :: 0 <= k < |closers| ==> Closer(closers[k])
    ensures SomeComma(u + closers) <==> SomeComma(u) || TrailingComma(u, 0)
  {
    hide CommaBefore, TrailingAt, TrailingComma;
    TrailingIff(u, 0);
    forall k: nat ensures CommaBefore(u + closers, k) <==> CommaBefore(u, k) || TrailingAt(u, k) {
      CommaBeforeClosers(u, closers, k);
    }
  }

  lemma {:induction false} SkipBeforeCloser(u: string, closers: string, k: nat)
    requires k <= |u| && closers != [] && Closer(closers[0])
    ensures SkipSpace(u + closers, k) == SkipSpace(u, k)
    decreases |u| - k
  {
    if k < |u| && IsSpace(u[k]) { SkipBeforeCloser(u, closers, k + 1); }
  }

  lemma {:induction false} ClosersClose(stack: string)
    ensures forall k :: 0 <= k < |Closers(stack)| ==> Closer(Closers(stack)[k])
  {
    if stack != [] { ClosersClose(stack[..|stack| - 1]); }
  }

  /** When repairing twice is repairing once, by the text alone: no run of commas stands before a closer, and the
      scan leaves nothing open, or ends outside strings on a text whose last thing is no comma. */
  lemma RepairingTwiceIff(s: string)
    ensures var scan := Scanned(Uncomma(s, 0));
      Repaired(Repaired(s)) == Repaired(s) <==>
        (forall k: nat :: !RunBefore(s, k)) && (scan.stack == [] || (scan.Open() && !TrailingComma(s, 0)))
  {
    hide Uncomma, Repaired, CommaBefore, RunBefore, Scanned, TrailingComma;
    var u := Uncomma(s, 0);
    var closers := Closers(Scanned(u).stack);
    RepairedParts(s);
    TwiceByResult(s);
    RunsLeaveCommas(s, 0);
    TrailingIsKept(s, 0);
    ClosersClose(Scanned(u).stack);
    if closers == [] {
      assert u + closers == u;
    } else {
      CommasAfterClosers(u, closers);
    }
    SomeCommaIff(Repaired(s));
  }

  lemma RepairedParts(s: string)
    ensures Repaired(s) == Uncomma(s, 0) + Closers(Scanned(Uncomma(s, 0)).stack)
  {
  }

  lemma SomeCommaIff(t: string)
    ensures SomeComma(t) <==> exists k :: 0 <= k < |t| && CommaBefore(t, k)
  {
  }

  lemma OneOpen()
    ensures Scanned("{,") == Scan("{", false, false) && Scanned("{}") == START && Closers("{") == "}"
  {
    assert "{,"[..1] == "{" && "{"[..0] == "" && "{}"[..1] == "{";
    assert Scanned("") == START;
    assert Scanned("{") == Scan("{", false, false);
  }

  /** A text that breaks off after a comma shows the second kind of failure: the closer that is added makes the
      comma a trailing one. */
  lemma TruncatedTextIsRepairedTwice()
    ensures Repaired("{,") == "{,}" && Repaired("{,}") == "{}"
  {
    hide Scanned, Closers;
    var s, t := "{,", "{,}";
    assert Uncomma(s, 2) == [] && Uncomma(s, 1) == "," && Uncomma(s, 0) == s;
    assert Uncomma(t, 3) == [] && Uncomma(t, 1) == "}" && Uncomma(t, 0) == "{}";
    OneOpen();
    NothingOpen();
  }

  lemma NothingOpen()
    ensures Closers([]) == []
  {
  }

  // ---------------------------------------------------------------- parsing

  const FENCE := "```"

  predicate WordChar(c: char) { 'a' <= c <= 'z' || 'A' <= c <= 'Z' || '0' <= c <= '9' }

  /** Without the letters and digits it begins with. */
  function DropWord(s: string): string { if s != [] && WordChar(s[0]) then DropWord(s[1..]) else s }

  /** `_strip_fences`. */
  function StripFences(text: string): string {
    var t := Strip(text);
    if !(FENCE <= t) then t
    else
      var body := Strip(DropWord(t[3..]));
      if |body| >= 3 && body[|body| - 3..] == FENCE then Strip(body[..|body| - 3]) else body
  }

  lemma {:induction false} WordIsDropped(word: string, rest: string)
    requires (forall i :: 0 <= i < |word| ==> WordChar(word[i])) && (rest != [] ==> !WordChar(rest[0]))
    ensures DropWord(word + rest) == rest
  {
    if word == [] {
      assert word + rest == rest;
    } else {
      assert (word + rest)[1..] == word[1..] + rest;
      WordIsDropped(word[1..], rest);
    }
  }

  lemma NothingToStrip(s: string)
    requires s != "" && !IsSpace(s[0]) && !IsSpace(s[|s| - 1])
    ensures Strip(s) == s
  {
  }

  lemma StripBefore(c: char, s: string)
    requires IsSpace(c)
    ensures Strip([c] + s) == Strip(s)
  {
    assert ([c] + s)[1..] == s;
  }

  lemma StripAfter(s: string, c: char)
    requires IsSpace(c) && Strip(s) == s
    ensures Strip(s + [c]) == s
  {
    if s == "" {
      assert s + [c] == [c] + "" && Strip("") == "";
      StripBefore(c, "");
    } else {
      var lo, hi := StripIsWindow(s);
      assert (s + [c])[..|s|] == s;
    }
  }

  /** What stands between the fences, once the language is off. */
  lemma BetweenFences(body: string)
    requires Strip(body) == body
    ensures var inner := Strip(['\n'] + body + ['\n'] + FENCE);
      && |inner| >= 3 && inner[|inner| - 3..] == FENCE && Strip(inner[..|inner| - 3]) == body
  {
    hide Strip;
    var tail := body + ['\n'] + FENCE;
    assert ['\n'] + body + ['\n'] + FENCE == ['\n'] + tail;
    StripBefore('\n', tail);
    StripAfter(body, '\n');
    if body == "" {
      assert tail == ['\n'] + FENCE;
      StripBefore('\n', FENCE);
      NothingToStrip(FENCE);
      assert FENCE[..0] == body;
    } else {
      var lo, hi := StripIsWindow(body);
      NothingToStrip(tail);
      assert tail[..|tail| - 3] == body + ['\n'];
    }
  }

  /** What a model puts between fences, with or without a language, is what is parsed. */
  lemma FencedText(language: string, body: string)
    requires forall i :: 0 <= i < |language| ==> 'a' <= language[i] <= 'z' || 'A' <= language[i] <= 'Z' || '0' <= language[i] <= '9'
    requires Strip(body) == body
    ensures StripFences(FENCE + language + "\n" + body + "\n" + FENCE) == body
  {
    hide Strip, DropWord;
    var inner := ['\n'] + body + ['\n'] + FENCE;
    var text := FENCE + language + "\n" + body + "\n" + FENCE;
    assert text == FENCE + (language + inner) && text[3..] == language + inner;
    NothingToStrip(text);
    WordIsDropped(language, inner);
    BetweenFences(body);
  }

  /** The JSON library: a whole text, or a value at the start of one. */
  datatype Library = Library(loads: string -> Option<Json>, rawDecode: string -> Option<Json>)

  function AsObject(j: Option<Json>): Option<Payload> { if j.Some? && j.value.JObj? then Some(j.value.fields) else None }

  /** The first of two readings that is an object. */
  function Either(a: Option<Payload>, b: Option<Payload>): Option<Payload> { if a.Some? then a else b }

  /** `_load_object`: as is, else repaired. */
  function LoadObject(lib: Library, text: string): Option<Payload> {
    Either(AsObject(lib.loads(text)), AsObject(lib.loads(Repaired(text))))
  }

  function DecodeAt(lib: Library, raw: string, i: nat): Option<Payload>
    requires i < |raw|
  {
    if raw[i] != '{' then None
    else Either(AsObject(lib.rawDecode(raw[i..])), AsObject(lib.rawDecode(Repaired(raw[i..]))))
  }

  /** What a text is read as: the object the library reads, or else the object it reads after repair; from a position
      on, likewise, if a brace opens there. */
  lemma ReadingIs(lib: Library, text: string, i: nat)
    requires i < |text|
    ensures forall obj :: lib.loads(text) == Some(JObj(obj)) ==> LoadObject(lib, text) == Some(obj)
    ensures (forall obj :: lib.loads(text) != Some(JObj(obj))) ==> LoadObject(lib, text) == AsObject(lib.loads(Repaired(text)))
    ensures text[i] != '{' ==> DecodeAt(lib, text, i) == None
    ensures text[i] == '{' ==> forall obj :: lib.rawDecode(text[i..]) == Some(JObj(obj)) ==> DecodeAt(lib, text, i) == Some(obj)
    ensures text[i] == '{' && (forall obj :: lib.rawDecode(text[i..]) != Some(JObj(obj))) ==>
      DecodeAt(lib, text, i) == AsObject(lib.rawDecode(Repaired(text[i..])))
  {
    hide Repaired;
    ObjectIs(lib.loads(text));
    ObjectIs(lib.rawDecode(text[i..]));
  }

  lemma ObjectIs(j: Option<Json>)
    ensures AsObject(j).None? <==> forall obj :: j != Some(JObj(obj))
    ensures forall obj :: j == Some(JObj(obj)) ==> AsObject(j) == Some(obj)
  {
    if AsObject(j).Some? { assert j == Some(JObj(AsObject(j).value)); }
  }

  /** `parse_json_object`: fences off, then the whole text, else the first embedded object. */
  method ParseJsonObject(lib: Library, text: string) returns (obj: Option<Payload>)
    ensures var raw := StripFences(text);
      && (LoadObject(lib, raw).Some? ==> obj == LoadObject(lib, raw))
      && (LoadObject(lib, raw).None? && obj.Some? ==>
            exists i :: 0 <= i < |raw| && DecodeAt(lib, raw, i) == obj && forall k :: 0 <= k < i ==> DecodeAt(lib, raw, k).None?)
      && (obj.None? ==> LoadObject(lib, raw).None? && forall i :: 0 <= i < |raw| ==> DecodeAt(lib, raw, i).None?)
  {
    hide StripFences, Repaired;
    var raw := StripFences(text);
    obj := AsObject(lib.loads(raw));
    if obj.None? {
      var repaired := Repair(raw);
      obj := AsObject(lib.loads(repaired));
    }
    var i := 0;
    while obj.None? && i < |raw|
      invariant i <= |raw|
      invariant LoadObject(lib, raw).Some? ==> obj == LoadObject(lib, raw)
      invariant LoadObject(lib, raw).None? && obj.Some? ==>
        i > 0 && DecodeAt(lib, raw, i - 1) == obj && forall k :: 0 <= k < i - 1 ==> DecodeAt(lib, raw, k).None?
      invariant obj.None? ==> LoadObject(lib, raw).None? && forall k :: 0 <= k < i ==> DecodeAt(lib, raw, k).None?
    {
      if raw[i] == '{' {
        obj := AsObject(lib.rawDecode(raw[i..]));
        if obj.None? {
          var repaired := Repair(raw[i..]);
          obj := AsObject(lib.rawDecode(repaired));
        }
      }
      i := i + 1;
    }
  }
}
