/** Sorting by a key order, and the code-point order on strings. */
module Ordering {

  ghost predicate Total<T(!new)>(leq: (T, T) -> bool) {
    (forall x, y :: leq(x, y) || leq(y, x))
    && (forall x, y, z :: leq(x, y) && leq(y, z) ==> leq(x, z))
  }

  ghost predicate Antisymmetric<T(!new)>(leq: (T, T) -> bool) {
    forall x, y :: leq(x, y) && leq(y, x) ==> x == y
  }

  ghost predicate SortedBy<T(!new)>(s: seq<T>, leq: (T, T) -> bool) {
    forall i, j :: 0 <= i < j < |s| ==> leq(s[i], s[j])
  }

  /** Inserts before the first strictly larger element, so equal keys keep their order. */
  function Insert<T(!new)>(x: T, s: seq<T>, leq: (T, T) -> bool): (r: seq<T>)
    ensures multiset(r) == multiset(s) + multiset{x}
    ensures |r| == |s| + 1
  {
    if s == [] then [x]
    else if leq(s[|s| - 1], x) then s + [x]
    else
      assert s == s[..|s| - 1] + [s[|s| - 1]];
      Insert(x, s[..|s| - 1], leq) + [s[|s| - 1]]
  }

  /** `sorted(s, key=...)`, a stable sort. */
  function Sort<T(!new)>(s: seq<T>, leq: (T, T) -> bool): (r: seq<T>)
    ensures multiset(r) == multiset(s)
    ensures |r| == |s|
  {
    if s == [] then []
    else
      assert s == s[..|s| - 1] + [s[|s| - 1]];
      Insert(s[|s| - 1], Sort(s[..|s| - 1], leq), leq)
  }

  lemma {:induction false} InsertSorted<T(!new)>(x: T, s: seq<T>, leq: (T, T) -> bool)
    requires Total(leq) && SortedBy(s, leq)
    ensures SortedBy(Insert(x, s, leq), leq)
  {
    if s != [] && !leq(s[|s| - 1], x) {
      var p := s[..|s| - 1];
      InsertSorted(x, p, leq);
      var q := Insert(x, p, leq);
      forall i | 0 <= i < |q| ensures leq(q[i], s[|s| - 1]) {
        assert q[i] in multiset(q);
        assert q[i] in multiset(p) || q[i] == x;
      }
    }
  }

  lemma {:induction false} SortSorts<T(!new)>(s: seq<T>, leq: (T, T) -> bool)
    requires Total(leq)
    ensures SortedBy(Sort(s, leq), leq)
  {
    if s != [] {
      SortSorts(s[..|s| - 1], leq);
      InsertSorted(s[|s| - 1], Sort(s[..|s| - 1], leq), leq);
    }
  }

  /** The last element of a sorted arrangement is fixed by its multiset. */
  lemma SortedLast<T(!new)>(s: seq<T>, t: seq<T>, leq: (T, T) -> bool)
    requires Total(leq) && SortedBy(s, leq) && SortedBy(t, leq)
    requires s != [] && t != [] && multiset(s) == multiset(t)
    ensures leq(s[|s| - 1], t[|t| - 1])
  {
    assert s[|s| - 1] in multiset(s);
    var i :| 0 <= i < |t| && t[i] == s[|s| - 1];
  }

  /** Equal multisets with equal last elements leave equal multisets in front. */
  lemma DropLast<T>(s: seq<T>, t: seq<T>)
    requires s != [] && t != [] && multiset(s) == multiset(t)
    requires s[|s| - 1] == t[|t| - 1]
    ensures multiset(s[..|s| - 1]) == multiset(t[..|t| - 1])
  {
    assert s == s[..|s| - 1] + [s[|s| - 1]];
    assert t == t[..|t| - 1] + [t[|t| - 1]];
    var a := multiset{s[|s| - 1]};
    assert multiset(s[..|s| - 1]) == multiset(s) - a;
    assert multiset(t[..|t| - 1]) == multiset(t) - a;
  }

  /** A sorted arrangement of a multiset is unique. */
  lemma {:induction false} SortedUnique<T(!new)>(s: seq<T>, t: seq<T>, leq: (T, T) -> bool)
    requires Total(leq) && Antisymmetric(leq)
    requires SortedBy(s, leq) && SortedBy(t, leq) && multiset(s) == multiset(t)
    ensures s == t
  {
    if s == [] || t == [] {
      assert |multiset(s)| == |s| && |multiset(t)| == |t|;
    } else {
      var p, q := s[..|s| - 1], t[..|t| - 1];
      SortedLast(s, t, leq);
      SortedLast(t, s, leq);
      DropLast(s, t);
      SortedUnique(p, q, leq);
      assert s == p + [s[|s| - 1]] && t == q + [t[|t| - 1]];
    }
  }

  /** Sorting forgets the order its input came in. */
  lemma SortOfPermutation<T(!new)>(s: seq<T>, t: seq<T>, leq: (T, T) -> bool)
    requires Total(leq) && Antisymmetric(leq) && multiset(s) == multiset(t)
    ensures Sort(s, leq) == Sort(t, leq)
  {
    SortSorts(s, leq);
    SortSorts(t, leq);
    SortedUnique(Sort(s, leq), Sort(t, leq), leq);
  }

  lemma {:induction false} CountsOnce<T>(d: seq<T>, x: T)
    requires forall i, j :: 0 <= i < j < |d| ==> d[i] != d[j]
    ensures multiset(d)[x] <= 1
  {
    if d != [] {
      CountsOnce(d[1..], x);
      assert d == [d[0]] + d[1..];
    }
  }

  /** A permutation of distinct elements has no repeats. */
  lemma PermutationKeepsDistinct<T>(d: seq<T>, s: seq<T>)
    requires multiset(s) == multiset(d) && forall i, j :: 0 <= i < j < |d| ==> d[i] != d[j]
    ensures forall i, j :: 0 <= i < j < |s| ==> s[i] != s[j]
  {
    forall i, j | 0 <= i < j < |s| ensures s[i] != s[j] {
      if s[i] == s[j] {
        assert s == s[..i] + [s[i]] + s[i + 1..j] + [s[j]] + s[j + 1..];
        assert multiset(s)[s[i]] >= 2;
        CountsOnce(d, s[i]);
      }
    }
  }

  // ---------------------------------------------------------------- strings

  /** Code-point order, the order in which the host language sorts strings. */
  predicate StrLe(a: string, b: string) {
    a == [] || (b != [] && (a[0] < b[0] || (a[0] == b[0] && StrLe(a[1..], b[1..]))))
  }

  lemma StrLeTotal(a: string, b: string)
    ensures StrLe(a, b) || StrLe(b, a)
  {}

  lemma {:induction false} StrLeAntisymmetric(a: string, b: string)
    requires StrLe(a, b) && StrLe(b, a)
    ensures a == b
  {
    if a != [] && b != [] {
      StrLeAntisymmetric(a[1..], b[1..]);
      assert a == [a[0]] + a[1..] && b == [b[0]] + b[1..];
    }
  }

  lemma {:induction false} StrLeTransitive(a: string, b: string, c: string)
    requires StrLe(a, b) && StrLe(b, c)
    ensures StrLe(a, c)
  {
    if a != [] && a[0] == b[0] == c[0] {
      StrLeTransitive(a[1..], b[1..], c[1..]);
    }
  }

  lemma StrOrder()
    ensures Total(StrLe) && Antisymmetric(StrLe)
  {
    forall x, y ensures StrLe(x, y) || StrLe(y, x) { StrLeTotal(x, y); }
    forall x, y, z | StrLe(x, y) && StrLe(y, z) ensures StrLe(x, z) { StrLeTransitive(x, y, z); }
    forall x, y | StrLe(x, y) && StrLe(y, x) ensures x == y { StrLeAntisymmetric(x, y); }
  }

  /** Up to `k` the texts agree, and there the first has the smaller character. */
  ghost predicate SmallerAt(a: string, b: string, k: nat) { k < |a| && k < |b| && a[..k] == b[..k] && a[k] < b[k] }

  lemma SmallerFurther(a: string, b: string, k: nat)
    requires a != [] && b != [] && a[0] == b[0]
    ensures SmallerAt(a, b, k + 1) <==> SmallerAt(a[1..], b[1..], k)
  {
    if k < |a[1..]| && k < |b[1..]| {
      assert a[..k + 1] == [a[0]] + a[1..][..k] && b[..k + 1] == [b[0]] + b[1..][..k];
    }
  }

  lemma PrefixFurther(a: string, b: string)
    requires a != [] && b != [] && a[0] == b[0]
    ensures a <= b <==> a[1..] <= b[1..]
  {
    assert a == [a[0]] + a[1..] && b == [b[0]] + b[1..];
  }

  /** The order of two texts: one begins the other, or the first character in which they differ decides. */
  lemma {:induction false} StrLeIff(a: string, b: string)
    ensures StrLe(a, b) <==> a <= b || exists k: nat :: SmallerAt(a, b, k)
  {
    if a != [] && b != [] {
      if a[0] == b[0] {
        hide SmallerAt;
        StrLeIff(a[1..], b[1..]);
        PrefixFurther(a, b);
        if k: nat :| SmallerAt(a[1..], b[1..], k) { SmallerFurther(a, b, k); }
        if k: nat :| SmallerAt(a, b, k) {
          NotAtOnce(a, b, k);
          SmallerFurther(a, b, k - 1);
        }
      } else if a[0] < b[0] {
        assert SmallerAt(a, b, 0);
      }
    }
  }

  lemma NotAtOnce(a: string, b: string, k: nat)
    requires a != [] && b != [] && a[0] == b[0] && SmallerAt(a, b, k)
    ensures k > 0
  {
  }

  function SortStrings(s: seq<string>): (r: seq<string>)
    ensures multiset(r) == multiset(s)
  {
    Sort(s, StrLe)
  }
}
