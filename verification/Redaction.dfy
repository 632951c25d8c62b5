/** The redactor that stands between raw event payloads and the user interface. */
module Redaction {
  import opened Text
  import opened Ordering

  datatype Entry = Entry(key: string, value: Value)

  /** A payload: a dictionary in insertion order, a list, or anything else. */
  datatype Value = Dict(entries: seq<Entry>) | List(items: seq<Value>) | Leaf(text: string)

  const REDACTED := "[REDACTED]"

  /** Keys are compared in lower case against lower-cased secret keys. */
  datatype Rules = Rules(lower: string -> string, secretKeys: set<string>) {
    predicate Secret(key: string) { exists k :: k in secretKeys && lower(k) == lower(key) }
  }

  // ---------------------------------------------------------------- what is returned

  function Masked(v: Value, r: Rules): Value {
    match v
    case Dict(es) =>
      Dict(seq(|es|, i requires 0 <= i < |es| =>
        Entry(es[i].key, if r.Secret(es[i].key) then Leaf(REDACTED) else Masked(es[i].value, r))))
    case List(items) => List(seq(|items|, i requires 0 <= i < |items| => Masked(items[i], r)))
    case Leaf(_) => v
  }

  function KeyPath(path: string, key: string): string { if path != "" then path + "." + key else key }

  function IndexPath(path: string, i: nat): string { path + "[" + Digits(i) + "]" }

  /** The paths `_walk` appends below `v`, in its order. */
  function Found(v: Value, path: string, r: Rules): seq<string>
    decreases v, 0
  {
    match v
    case Dict(es) => FoundIn(v, |es|, path, r)
    case List(items) => FoundAt(v, |items|, path, r)
    case Leaf(_) => []
  }

  /** The paths of the first `n` entries. */
  function FoundIn(v: Value, n: nat, path: string, r: Rules): seq<string>
    requires v.Dict? && n <= |v.entries|
    decreases v, 0, n
  {
    if n == 0 then []
    else
      var e := v.entries[n - 1];
      FoundIn(v, n - 1, path, r) +
      if r.Secret(e.key) then [KeyPath(path, e.key)] else Found(e.value, KeyPath(path, e.key), r)
  }

  function FoundAt(v: Value, n: nat, path: string, r: Rules): seq<string>
    requires v.List? && n <= |v.items|
    decreases v, 0, n
  {
    if n == 0 then [] else FoundAt(v, n - 1, path, r) + Found(v.items[n - 1], IndexPath(path, n - 1), r)
  }

  function Dedup(s: seq<string>): (d: seq<string>)
    ensures forall x :: x in d <==> x in s
    ensures forall i, j :: 0 <= i < j < |d| ==> d[i] != d[j]
  {
    if s == [] then []
    else
      var d := Dedup(s[..|s| - 1]);
      if s[|s| - 1] in d then d else d + [s[|s| - 1]]
  }

  /** `sorted(set(fields))`. */
  function FieldList(v: Value, r: Rules): seq<string> { SortStrings(Dedup(Found(v, "", r))) }

  // ---------------------------------------------------------------- the walk

  class FieldLog {
    var items: seq<string>

    constructor ()
      ensures items == []
    {
      items := [];
    }

    method Append(x: string)
      modifies this
      ensures items == old(items) + [x]
    {
      items := items + [x];
    }
  }

  /** `_walk`: builds the masked copy and appends the path of every key it masks to the shared list. */
  method Walk(v: Value, path: string, fields: FieldLog, r: Rules) returns (out: Value)
    modifies fields
    ensures out == Masked(v, r) && fields.items == old(fields.items) + Found(v, path, r)
    decreases v, 1
  {
    match v {
      case Dict(es) => out := WalkDict(v, path, fields, r);
      case List(items) => out := WalkList(v, path, fields, r);
      case Leaf(_) => out := v;
    }
  }

  lemma MaskedEntry(v: Value, r: Rules, i: nat)
    requires v.Dict? && i < |v.entries|
    ensures var e, m := v.entries[i], Masked(v, r);
      m.Dict? && |m.entries| == |v.entries| && m.entries[i] == Entry(e.key, if r.Secret(e.key) then Leaf(REDACTED) else Masked(e.value, r))
  {
  }

  lemma MaskedItem(v: Value, r: Rules, i: nat)
    requires v.List? && i < |v.items|
    ensures Masked(v, r).List? && |Masked(v, r).items| == |v.items| && Masked(v, r).items[i] == Masked(v.items[i], r)
  {
  }

  lemma MaskedShape(v: Value, r: Rules)
    ensures v.Dict? ==> Masked(v, r).Dict? && |Masked(v, r).entries| == |v.entries|
    ensures v.List? ==> Masked(v, r).List? && |Masked(v, r).items| == |v.items|
  {
  }

  method WalkDict(v: Value, path: string, fields: FieldLog, r: Rules) returns (out: Value)
    requires v.Dict?
    modifies fields
    ensures out == Masked(v, r) && fields.items == old(fields.items) + Found(v, path, r)
    decreases v, 0
  {
    hide Masked, Rules.Secret;
    MaskedShape(v, r);
    ghost var goal := Masked(v, r).entries;
    var es: seq<Entry> := [];
    for i := 0 to |v.entries|
      invariant es == goal[..i]
      invariant fields.items == old(fields.items) + FoundIn(v, i, path, r)
    {
      MaskedEntry(v, r, i);
      var e := v.entries[i];
      var at := if path != "" then path + "." + e.key else e.key;
      var shown;
      if r.Secret(e.key) {
        shown := Leaf(REDACTED);
        fields.Append(at);
      } else {
        shown := Walk(e.value, at, fields, r);
      }
      es := es + [Entry(e.key, shown)];
    }
    out := Dict(es);
    assert es == goal;
  }

  method WalkList(v: Value, path: string, fields: FieldLog, r: Rules) returns (out: Value)
    requires v.List?
    modifies fields
    ensures out == Masked(v, r) && fields.items == old(fields.items) + Found(v, path, r)
    decreases v, 0
  {
    hide Masked, IndexPath;
    MaskedShape(v, r);
    ghost var goal := Masked(v, r).items;
    var items: seq<Value> := [];
    for i := 0 to |v.items|
      invariant items == goal[..i]
      invariant fields.items == old(fields.items) + FoundAt(v, i, path, r)
    {
      MaskedItem(v, r, i);
      var shown := Walk(v.items[i], IndexPath(path, i), fields, r);
      items := items + [shown];
    }
    out := List(items);
    assert items == goal;
  }

  /** `redact` (and, with its flag, `apply`). */
  method Redact(v: Value, r: Rules) returns (shown: Value, fields: seq<string>, hasSecret: bool)
    ensures shown == Masked(v, r) && fields == FieldList(v, r)
    ensures hasSecret <==> AnySecret(v, r)
  {
    var log := new FieldLog();
    shown := Walk(v, "", log, r);
    fields := SortStrings(Dedup(log.items));
    hasSecret := fields != [];
    assert log.items == Found(v, "", r);
    SecretsAreListed(v, r);
  }

  // ---------------------------------------------------------------- what masking hides, and what it keeps

  /** Equal except for what lies beneath secret keys. */
  ghost predicate SameOutside(v: Value, w: Value, r: Rules)
    decreases v
  {
    match v
    case Dict(es) =>
      w.Dict? && |w.entries| == |es| && forall i :: 0 <= i < |es| ==>
        es[i].key == w.entries[i].key && (r.Secret(es[i].key) || SameOutside(es[i].value, w.entries[i].value, r))
    case List(items) => w.List? && |w.items| == |items| && forall i :: 0 <= i < |items| ==> SameOutside(items[i], w.items[i], r)
    case Leaf(_) => w == v
  }

  /** No secret key has anything but the mask beneath it. */
  ghost predicate Clean(v: Value, r: Rules) {
    match v
    case Dict(es) => forall i :: 0 <= i < |es| ==> if r.Secret(es[i].key) then es[i].value == Leaf(REDACTED) else Clean(es[i].value, r)
    case List(items) => forall i :: 0 <= i < |items| ==> Clean(items[i], r)
    case Leaf(_) => true
  }

  /** The masked payload is clean and is the payload outside its secrets. */
  lemma {:induction false} MaskedIsCleanCopy(v: Value, r: Rules)
    ensures Clean(Masked(v, r), r) && SameOutside(v, Masked(v, r), r)
    decreases v
  {
    hide Rules.Secret;
    match v
    case Dict(es) => forall i | 0 <= i < |es| { MaskedIsCleanCopy(es[i].value, r); }
    case List(items) => forall i | 0 <= i < |items| { MaskedIsCleanCopy(items[i], r); }
    case Leaf(_) =>
  }

  /** And it is the only such payload. */
  lemma {:induction false} CleanCopyIsUnique(v: Value, u: Value, r: Rules)
    requires SameOutside(v, u, r) && Clean(u, r)
    ensures u == Masked(v, r)
    decreases v
  {
    hide Rules.Secret;
    match v
    case Dict(es) =>
      forall i | 0 <= i < |es| && !r.Secret(es[i].key) { CleanCopyIsUnique(es[i].value, u.entries[i].value, r); }
      assert u.entries == Masked(v, r).entries;
    case List(items) =>
      forall i | 0 <= i < |items| { CleanCopyIsUnique(items[i], u.items[i], r); }
      assert u.items == Masked(v, r).items;
    case Leaf(_) =>
  }

  lemma {:induction false} SameOutsideTransfers(v: Value, w: Value, u: Value, r: Rules)
    requires SameOutside(v, w, r)
    ensures SameOutside(v, u, r) <==> SameOutside(w, u, r)
    decreases v
  {
    hide Rules.Secret;
    match v
    case Dict(es) =>
      if u.Dict? && |u.entries| == |es| {
        forall i | 0 <= i < |es| && !r.Secret(es[i].key) { SameOutsideTransfers(es[i].value, w.entries[i].value, u.entries[i].value, r); }
      }
    case List(items) =>
      if u.List? && |u.items| == |items| {
        forall i | 0 <= i < |items| { SameOutsideTransfers(items[i], w.items[i], u.items[i], r); }
      }
    case Leaf(_) =>
  }

  lemma {:induction false} FoundIgnoresSecrets(v: Value, w: Value, path: string, r: Rules)
    requires SameOutside(v, w, r)
    ensures Found(v, path, r) == Found(w, path, r)
    decreases v, 1
  {
    match v
    case Dict(es) => FoundInIgnoresSecrets(v, w, |es|, path, r);
    case List(items) => FoundAtIgnoresSecrets(v, w, |items|, path, r);
    case Leaf(_) =>
  }

  lemma {:induction false} FoundInIgnoresSecrets(v: Value, w: Value, n: nat, path: string, r: Rules)
    requires v.Dict? && SameOutside(v, w, r) && n <= |v.entries|
    ensures FoundIn(v, n, path, r) == FoundIn(w, n, path, r)
    decreases v, 0, n
  {
    hide Rules.Secret;
    if n > 0 {
      FoundInIgnoresSecrets(v, w, n - 1, path, r);
      var e := v.entries[n - 1];
      if !r.Secret(e.key) { FoundIgnoresSecrets(e.value, w.entries[n - 1].value, KeyPath(path, e.key), r); }
    }
  }

  lemma {:induction false} FoundAtIgnoresSecrets(v: Value, w: Value, n: nat, path: string, r: Rules)
    requires v.List? && SameOutside(v, w, r) && n <= |v.items|
    ensures FoundAt(v, n, path, r) == FoundAt(w, n, path, r)
    decreases v, 0, n
  {
    if n > 0 {
      FoundAtIgnoresSecrets(v, w, n - 1, path, r);
      FoundIgnoresSecrets(v.items[n - 1], w.items[n - 1], IndexPath(path, n - 1), r);
    }
  }

  /** Noninterference, and no more than that: two payloads are shown alike exactly when they differ only
      beneath secret keys, and then their field lists are the same too. */
  lemma ShownAlikeIff(v: Value, w: Value, r: Rules)
    ensures Masked(v, r) == Masked(w, r) <==> SameOutside(v, w, r)
    ensures SameOutside(v, w, r) ==> FieldList(v, r) == FieldList(w, r)
  {
    hide Masked, SameOutside, Clean, Rules.Secret;
    MaskedIsCleanCopy(v, r);
    MaskedIsCleanCopy(w, r);
    if Masked(v, r) == Masked(w, r) {
      SameOutsideSymmetric(w, Masked(w, r), r);
      SameOutsideSymmetric(v, Masked(v, r), r);
      SameOutsideTransfers(Masked(v, r), v, w, r);
    }
    if SameOutside(v, w, r) {
      SameOutsideTransfers(v, w, Masked(v, r), r);
      CleanCopyIsUnique(w, Masked(v, r), r);
      FoundIgnoresSecrets(v, w, "", r);
    }
  }

  lemma {:induction false} SameOutsideSymmetric(v: Value, w: Value, r: Rules)
    requires SameOutside(v, w, r)
    ensures SameOutside(w, v, r)
    decreases v
  {
    hide Rules.Secret;
    match v
    case Dict(es) => forall i | 0 <= i < |es| && !r.Secret(es[i].key) { SameOutsideSymmetric(es[i].value, w.entries[i].value, r); }
    case List(items) => forall i | 0 <= i < |items| { SameOutsideSymmetric(items[i], w.items[i], r); }
    case Leaf(_) =>
  }

  /** Redacting what is already redacted changes nothing, the field list included. */
  lemma RedactingTwice(v: Value, r: Rules)
    ensures Masked(Masked(v, r), r) == Masked(v, r) && FieldList(Masked(v, r), r) == FieldList(v, r)
  {
    hide Masked, SameOutside, FieldList;
    MaskedIsCleanCopy(v, r);
    ShownAlikeIff(v, Masked(v, r), r);
  }

  // ---------------------------------------------------------------- what the recorded paths are

  datatype Hop = Key(key: string) | At(index: nat)

  /** A position of a secret key with no secret key above it. */
  ghost predicate TopSecret(v: Value, pos: seq<Hop>, r: Rules)
    decreases v
  {
    pos != [] &&
    match v
    case Dict(es) =>
      pos[0].Key? && exists i ::
        (0 <= i < |es| && es[i].key == pos[0].key && if r.Secret(es[i].key) then |pos| == 1 else TopSecret(es[i].value, pos[1..], r))
    case List(items) => pos[0].At? && pos[0].index < |items| && TopSecret(items[pos[0].index], pos[1..], r)
    case Leaf(_) => false
  }

  function Render(path: string, pos: seq<Hop>): string
    decreases |pos|
  {
    if pos == [] then path
    else Render(if pos[0].Key? then KeyPath(path, pos[0].key) else IndexPath(path, pos[0].index), pos[1..])
  }

  lemma {:induction false} SecretIsFound(v: Value, path: string, pos: seq<Hop>, r: Rules)
    requires TopSecret(v, pos, r)
    ensures Render(path, pos) in Found(v, path, r)
    decreases v
  {
    hide Rules.Secret;
    match v
    case Dict(es) =>
      var i :| 0 <= i < |es| && es[i].key == pos[0].key && if r.Secret(es[i].key) then |pos| == 1 else TopSecret(es[i].value, pos[1..], r);
      if r.Secret(es[i].key) {
        assert pos[1..] == [] && Render(path, pos) == Render(KeyPath(path, es[i].key), []) == KeyPath(path, es[i].key);
      } else {
        SecretIsFound(es[i].value, KeyPath(path, es[i].key), pos[1..], r);
      }
      FoundInHas(v, i, |es|, path, r, Render(path, pos));
    case List(items) =>
      SecretIsFound(items[pos[0].index], IndexPath(path, pos[0].index), pos[1..], r);
      FoundAtHas(v, pos[0].index, |items|, path, r, Render(path, pos));
  }

  lemma {:induction false} FoundInHas(v: Value, i: nat, n: nat, path: string, r: Rules, f: string)
    requires v.Dict? && i < n <= |v.entries|
    requires var e := v.entries[i];
      f in if r.Secret(e.key) then [KeyPath(path, e.key)] else Found(e.value, KeyPath(path, e.key), r)
    ensures f in FoundIn(v, n, path, r)
  {
    if i < n - 1 { FoundInHas(v, i, n - 1, path, r, f); }
  }

  lemma {:induction false} FoundAtHas(v: Value, i: nat, n: nat, path: string, r: Rules, f: string)
    requires v.List? && i < n <= |v.items| && f in Found(v.items[i], IndexPath(path, i), r)
    ensures f in FoundAt(v, n, path, r)
  {
    if i < n - 1 { FoundAtHas(v, i, n - 1, path, r, f); }
  }

  lemma {:induction false} FoundIsSecret(v: Value, path: string, f: string, r: Rules) returns (pos: seq<Hop>)
    requires f in Found(v, path, r)
    ensures TopSecret(v, pos, r) && f == Render(path, pos)
    decreases v, 1
  {
    if v.Dict? {
      pos := FoundInIsSecret(v, |v.entries|, path, f, r);
    } else {
      pos := FoundAtIsSecret(v, |v.items|, path, f, r);
    }
  }

  lemma {:induction false} FoundInIsSecret(v: Value, n: nat, path: string, f: string, r: Rules) returns (pos: seq<Hop>)
    requires v.Dict? && n <= |v.entries| && f in FoundIn(v, n, path, r)
    ensures TopSecret(v, pos, r) && f == Render(path, pos)
    decreases v, 0, n
  {
    hide Rules.Secret;
    if f in FoundIn(v, n - 1, path, r) {
      pos := FoundInIsSecret(v, n - 1, path, f, r);
    } else {
      var e := v.entries[n - 1];
      if r.Secret(e.key) {
        pos := [Key(e.key)];
        assert pos[1..] == [];
      } else {
        var rest := FoundIsSecret(e.value, KeyPath(path, e.key), f, r);
        pos := [Key(e.key)] + rest;
        assert pos[1..] == rest;
      }
    }
  }

  lemma {:induction false} FoundAtIsSecret(v: Value, n: nat, path: string, f: string, r: Rules) returns (pos: seq<Hop>)
    requires v.List? && n <= |v.items| && f in FoundAt(v, n, path, r)
    ensures TopSecret(v, pos, r) && f == Render(path, pos)
    decreases v, 0, n
  {
    if f in FoundAt(v, n - 1, path, r) {
      pos := FoundAtIsSecret(v, n - 1, path, f, r);
    } else {
      var rest := FoundIsSecret(v.items[n - 1], IndexPath(path, n - 1), f, r);
      pos := [At(n - 1)] + rest;
      assert pos[1..] == rest;
    }
  }

  /** `f` is the path of a topmost secret key. */
  /** How a position reads: keys are joined by dots, and an index stands in brackets. */
  lemma {:induction false} RenderIs(path: string, pos: seq<Hop>, hop: Hop)
    ensures var before := Render(path, pos);
      Render(path, pos + [hop]) == match hop
        case Key(k) => if before == "" then k else before + "." + k
        case At(i) => before + "[" + Digits(i) + "]"
    ensures Render(path, []) == path
    decreases |pos|
  {
    hide Digits;
    if pos == [] {
      assert Render(path, [hop]) == Render(if hop.Key? then KeyPath(path, hop.key) else IndexPath(path, hop.index), []) by { assert [hop][1..] == []; }
    } else {
      assert (pos + [hop])[1..] == pos[1..] + [hop];
      RenderIs(if pos[0].Key? then KeyPath(path, pos[0].key) else IndexPath(path, pos[0].index), pos[1..], hop);
    }
  }

  ghost predicate NamesSecret(v: Value, f: string, r: Rules) { exists pos :: TopSecret(v, pos, r) && f == Render("", pos) }

  lemma FoundIff(v: Value, f: string, r: Rules)
    ensures f in Found(v, "", r) <==> NamesSecret(v, f, r)
  {
    hide Found, TopSecret, Render;
    if f in Found(v, "", r) { var pos := FoundIsSecret(v, "", f, r); }
    forall pos | TopSecret(v, pos, r) && f == Render("", pos) { SecretIsFound(v, "", pos, r); }
  }

  lemma SortMembers(d: seq<string>, x: string)
    ensures x in SortStrings(d) <==> x in d
  {
    assert x in SortStrings(d) <==> x in multiset(d);
  }

  /** The field list is sorted, has no repeats, and names exactly the topmost secret keys. */
  lemma FieldsAreTheSecrets(v: Value, r: Rules)
    ensures SortedBy(FieldList(v, r), StrLe)
    ensures forall i, j :: 0 <= i < j < |FieldList(v, r)| ==> FieldList(v, r)[i] != FieldList(v, r)[j]
    ensures forall f :: f in FieldList(v, r) <==> NamesSecret(v, f, r)
  {
    hide Found, NamesSecret, StrLe, Total, Antisymmetric, SortedBy;
    var d := Dedup(Found(v, "", r));
    StrOrder();
    SortSorts(d, StrLe);
    PermutationKeepsDistinct(d, FieldList(v, r));
    forall f ensures f in FieldList(v, r) <==> NamesSecret(v, f, r) {
      SortMembers(d, f);
      FoundIff(v, f, r);
    }
  }

  ghost predicate AnySecret(v: Value, r: Rules) { exists pos :: TopSecret(v, pos, r) }

  /** `has_secret`. */
  lemma SecretsAreListed(v: Value, r: Rules)
    ensures FieldList(v, r) != [] <==> AnySecret(v, r)
  {
    hide FieldList, TopSecret, Render;
    FieldsAreTheSecrets(v, r);
    if FieldList(v, r) != [] {
      assert NamesSecret(v, FieldList(v, r)[0], r);
    }
    if AnySecret(v, r) {
      var pos :| TopSecret(v, pos, r);
      assert NamesSecret(v, Render("", pos), r);
    }
  }

  /** A key counts as secret in whatever case it is written: its value is masked and named, whatever it is. Under any
      other key only what is beneath is masked. */
  lemma CaseIsIgnored(v: Value, r: Rules, i: nat)
    requires v.Dict? && i < |v.entries|
    ensures var e, m := v.entries[i], Masked(v, r);
      && m.Dict? && |m.entries| == |v.entries| && m.entries[i].key == e.key
      && (forall k :: k in r.secretKeys && r.lower(k) == r.lower(e.key) ==>
            m.entries[i].value == Leaf("[REDACTED]") && e.key in FieldList(v, r))
      && ((forall k :: k in r.secretKeys ==> r.lower(k) != r.lower(e.key)) ==> m.entries[i].value == Masked(e.value, r))
  {
    hide Masked, Dedup;
    MaskedEntry(v, r, i);
    if r.Secret(v.entries[i].key) {
      FoundInHas(v, i, |v.entries|, "", r, v.entries[i].key);
      assert v.entries[i].key in multiset(Dedup(Found(v, "", r)));
    }
  }
}
