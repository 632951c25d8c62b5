/** When two decisions count as the same, in their own terms, and what the loop makes of it over a whole drive. */
module TaskLoopRepeats {
  import opened Text
  import opened Ordering
  import opened Discipline
  import opened TaskBoard
  import opened Departments
  import opened CommandBridge
  import opened Rounds
  import opened Turns
  import opened BoardInvariants
  import opened TaskLoop
  import opened TaskLoopRuns
  import opened TaskLoopCrashes
  import opened TaskLoopRestarts

  // ---------------------------------------------------------------- texts that can be taken apart

  /** A separator absent from both heads splits a concatenation in one way only. */
  lemma SplitAtFirst(a: string, x: string, b: string, y: string, sep: char)
    requires a + [sep] + x == b + [sep] + y && sep !in a && sep !in b
    ensures a == b && x == y
  {
    var l, r := a + [sep] + x, b + [sep] + y;
    assert l[|a|] == sep && r[|b|] == sep;
    assert forall k :: 0 <= k < |a| ==> l[k] == a[k];
    assert forall k :: 0 <= k < |b| ==> r[k] == b[k];
    assert |a| == |b|;
    assert l[..|a|] == a && r[..|b|] == b && l[|a| + 1..] == x && r[|b| + 1..] == y;
  }

  /** None of the texts has this character in it. */
  predicate Free(texts: seq<string>, c: char) { forall i :: 0 <= i < |texts| ==> c !in texts[i] }

  lemma {:induction false} JoinHasSeparator(texts: seq<string>, sep: char)
    requires Free(texts, sep)
    ensures sep in Join(texts, [sep]) <==> |texts| >= 2
  {
  }

  lemma {:induction false} JoinIsFree(texts: seq<string>, sep: char, c: char)
    requires Free(texts, c) && c != sep
    ensures c !in Join(texts, [sep])
  {
    if |texts| >= 2 { JoinIsFree(texts[..|texts| - 1], sep, c); }
  }

  lemma {:induction false} JoinInjective(xs: seq<string>, ys: seq<string>, sep: char)
    requires Free(xs, sep) && Free(ys, sep) && xs != [] && ys != [] && Join(xs, [sep]) == Join(ys, [sep])
    ensures xs == ys
  {
    JoinHasSeparator(xs, sep);
    JoinHasSeparator(ys, sep);
    if |xs| >= 2 {
      var m, n := |xs| - 1, |ys| - 1;
      SplitAtLast(Join(xs[..m], [sep]), xs[m], Join(ys[..n], [sep]), ys[n], sep);
      JoinInjective(xs[..m], ys[..n], sep);
      assert xs == xs[..m] + [xs[m]] && ys == ys[..n] + [ys[n]];
    }
  }

  /** Joining tells all lists of such texts apart, but for the empty list and the list of one empty text. */
  lemma JoinTellsApart(xs: seq<string>, ys: seq<string>, sep: char)
    requires Free(xs, sep) && Free(ys, sep) && xs != [""] && ys != [""] && Join(xs, [sep]) == Join(ys, [sep])
    ensures xs == ys
  {
    JoinHasSeparator(xs, sep);
    JoinHasSeparator(ys, sep);
    if xs != [] && ys != [] { JoinInjective(xs, ys, sep); }
  }

  // ---------------------------------------------------------------- what a decision is to the loop

  /** Whom a call targets. */
  function Target(a: Assignment): (TargetKind, string) { (a.kind, a.agent) }

  function ToolName(t: ToolRequest): string { t.tool }

  /** What a command does, and to whom. */
  function Commanded(c: Intent): (string, string) { (c.commandType, if c.payload.Fields? then c.payload.agentId else "") }

  /** The same kind of decision, on the same targets, with the same tools and commands, in any order. */
  ghost predicate SameDecision(d: Decision, e: Decision) {
    && d.kind == e.kind
    && multiset(Mapped(d.calls, Target)) == multiset(Mapped(e.calls, Target))
    && multiset(Mapped(d.tools, ToolName)) == multiset(Mapped(e.tools, ToolName))
    && multiset(Mapped(d.commands, Commanded)) == multiset(Mapped(e.commands, Commanded))
  }

  /** No name in the decision has a separator of the signature in it, where that would be mistaken for one. */
  predicate PlainNames(d: Decision) {
    && (forall i :: 0 <= i < |d.calls| ==> ',' !in d.calls[i].agent && '|' !in d.calls[i].agent)
    && (forall i :: 0 <= i < |d.tools| ==> d.tools[i].tool != "" && ',' !in d.tools[i].tool && '|' !in d.tools[i].tool)
    && (forall i :: 0 <= i < |d.commands| ==>
          var c := Commanded(d.commands[i]); ':' !in c.0 && ',' !in c.0 && ',' !in c.1)
  }

  function TargetText(t: (TargetKind, string)): string { (if t.0.AgentTarget? then "agent" else "department") + ":" + t.1 }

  function CommandedText(c: (string, string)): string { c.0 + ":" + c.1 }

  lemma TargetTextInjective(s: (TargetKind, string), t: (TargetKind, string))
    requires TargetText(s) == TargetText(t)
    ensures s == t
  {
    SplitAtFirst(if s.0.AgentTarget? then "agent" else "department", s.1, if t.0.AgentTarget? then "agent" else "department", t.1, ':');
  }

  lemma CommandedTextInjective(s: (string, string), t: (string, string))
    requires CommandedText(s) == CommandedText(t) && ':' !in s.0 && ':' !in t.0
    ensures s == t
  {
    SplitAtFirst(s.0, s.1, t.0, t.1, ':');
  }

  /** The key tells the elements of the two lists apart. */
  ghost predicate TellsApart<T(!new), K>(xs: seq<T>, ys: seq<T>, key: T -> K) {
    forall i, j :: 0 <= i < |xs| && 0 <= j < |ys| && key(xs[i]) == key(ys[j]) ==> xs[i] == ys[j]
  }

  /** Then equal keys, repeats counted, come from equal elements. */
  lemma {:induction false} KeysDecide<T(!new), K>(xs: seq<T>, ys: seq<T>, key: T -> K)
    requires TellsApart(xs, ys, key) && multiset(Mapped(xs, key)) == multiset(Mapped(ys, key))
    ensures multiset(xs) == multiset(ys)
    decreases |xs|
  {
    hide TellsApart, Mapped;
    assert |multiset(Mapped(xs, key))| == |xs| && |multiset(Mapped(ys, key))| == |ys|;
    if xs == [] {
      assert ys == [];
    } else {
      var i := FindKey(xs, ys, key);
      KeysDecide(xs[..0] + xs[1..], ys[..i] + ys[i + 1..], key);
      PutBack(xs, ys, i);
    }
  }

  lemma PutBack<T>(xs: seq<T>, ys: seq<T>, i: nat)
    requires xs != [] && i < |ys| && ys[i] == xs[0] && multiset(xs[..0] + xs[1..]) == multiset(ys[..i] + ys[i + 1..])
    ensures multiset(xs) == multiset(ys)
  {
    RemoveAt(xs, 0);
    RemoveAt(ys, i);
    SameAfterRemoval(multiset(xs), multiset(ys), xs[0]);
  }

  lemma FindKey<T(!new), K>(xs: seq<T>, ys: seq<T>, key: T -> K) returns (i: nat)
    requires xs != [] && TellsApart(xs, ys, key) && multiset(Mapped(xs, key)) == multiset(Mapped(ys, key))
    ensures i < |ys| && ys[i] == xs[0] && TellsApart(xs[..0] + xs[1..], ys[..i] + ys[i + 1..], key)
    ensures multiset(Mapped(xs[..0] + xs[1..], key)) == multiset(Mapped(ys[..i] + ys[i + 1..], key))
  {
    hide TellsApart;
    MappedWithout(xs, 0, key);
    assert key(xs[0]) in multiset(Mapped(ys, key));
    i :| 0 <= i < |ys| && Mapped(ys, key)[i] == key(xs[0]);
    ToldApart(xs, ys, key, i);
    MappedWithout(ys, i, key);
  }

  lemma ToldApart<T(!new), K>(xs: seq<T>, ys: seq<T>, key: T -> K, i: nat)
    requires xs != [] && TellsApart(xs, ys, key) && i < |ys| && key(xs[0]) == key(ys[i])
    ensures xs[0] == ys[i] && TellsApart(xs[..0] + xs[1..], ys[..i] + ys[i + 1..], key)
  {
  }

  /** One part of the signature: the sorted texts, joined. */
  function Part(texts: seq<string>): string { Join(SortStrings(texts), ",") }

  lemma PartsAgreeIff(xs: seq<string>, ys: seq<string>)
    requires Free(xs, ',') && Free(ys, ',') && "" !in xs && "" !in ys
    ensures Part(xs) == Part(ys) <==> multiset(xs) == multiset(ys)
  {
    var s, t := SortStrings(xs), SortStrings(ys);
    SortedFree(xs, ',');
    SortedFree(ys, ',');
    if Part(xs) == Part(ys) {
      assert "" !in multiset(s) && "" !in multiset(t);
      JoinTellsApart(s, t, ',');
    }
    if multiset(xs) == multiset(ys) {
      StrOrder();
      SortOfPermutation(xs, ys, StrLe);
    }
  }

  lemma SortedFree(xs: seq<string>, c: char)
    requires Free(xs, c)
    ensures Free(SortStrings(xs), c)
  {
    var s := SortStrings(xs);
    forall i | 0 <= i < |s| ensures c !in s[i] {
      assert s[i] in multiset(s);
      assert s[i] in multiset(xs);
    }
  }

  lemma PartsOfKeysIff<T(!new)>(xs: seq<T>, ys: seq<T>, text: T -> string)
    requires TellsApart(xs, ys, text) && Free(Mapped(xs, text), ',') && Free(Mapped(ys, text), ',')
    requires "" !in Mapped(xs, text) && "" !in Mapped(ys, text)
    ensures Part(Mapped(xs, text)) == Part(Mapped(ys, text)) <==> multiset(xs) == multiset(ys)
  {
    hide TellsApart, Mapped, Part, Free;
    PartsAgreeIff(Mapped(xs, text), Mapped(ys, text));
    if multiset(xs) == multiset(ys) { MappedOfPermutation(xs, ys, text); }
    if multiset(Mapped(xs, text)) == multiset(Mapped(ys, text)) { KeysDecide(xs, ys, text); }
  }

  lemma CallTexts(d: Decision)
    requires PlainNames(d)
    ensures var texts := Mapped(d.calls, CallText);
      Mapped(Mapped(d.calls, Target), TargetText) == texts && Free(texts, ',') && Free(texts, '|') && "" !in texts
  {
    hide Mapped;
    var texts := Mapped(d.calls, CallText);
    forall i | 0 <= i < |texts| ensures ',' !in texts[i] && '|' !in texts[i] && texts[i] != "" { OneCallText(d.calls[i]); }
  }

  lemma OneCallText(a: Assignment)
    requires ',' !in a.agent && '|' !in a.agent
    ensures ',' !in CallText(a) && '|' !in CallText(a) && CallText(a) != ""
  {
  }

  lemma TargetsApart(xs: seq<(TargetKind, string)>, ys: seq<(TargetKind, string)>)
    ensures TellsApart(xs, ys, TargetText)
  {
    hide TargetText;
    forall i, j | 0 <= i < |xs| && 0 <= j < |ys| && TargetText(xs[i]) == TargetText(ys[j]) ensures xs[i] == ys[j] {
      TargetTextInjective(xs[i], ys[j]);
    }
  }

  lemma CallsPartIff(d: Decision, e: Decision)
    requires PlainNames(d) && PlainNames(e)
    ensures Part(Mapped(d.calls, CallText)) == Part(Mapped(e.calls, CallText))
       <==> multiset(Mapped(d.calls, Target)) == multiset(Mapped(e.calls, Target))
    ensures Free(Mapped(d.calls, CallText), '|')
  {
    hide Mapped, Free, Part, TellsApart, PlainNames;
    CallTexts(d);
    CallTexts(e);
    TargetsApart(Mapped(d.calls, Target), Mapped(e.calls, Target));
    PartsOfKeysIff(Mapped(d.calls, Target), Mapped(e.calls, Target), TargetText);
  }

  lemma ToolsPartIff(d: Decision, e: Decision)
    requires PlainNames(d) && PlainNames(e)
    ensures Part(Mapped(d.tools, ToolText)) == Part(Mapped(e.tools, ToolText))
       <==> multiset(Mapped(d.tools, ToolName)) == multiset(Mapped(e.tools, ToolName))
    ensures Free(Mapped(d.tools, ToolText), '|')
  {
    var xs, ys := Mapped(d.tools, ToolName), Mapped(e.tools, ToolName);
    assert xs == Mapped(d.tools, ToolText) && ys == Mapped(e.tools, ToolText);
    PartsAgreeIff(xs, ys);
  }

  lemma CommandsPartIff(d: Decision, e: Decision)
    requires PlainNames(d) && PlainNames(e)
    ensures Part(Mapped(d.commands, CommandText)) == Part(Mapped(e.commands, CommandText))
       <==> multiset(Mapped(d.commands, Commanded)) == multiset(Mapped(e.commands, Commanded))
  {
    var xs, ys := Mapped(d.commands, Commanded), Mapped(e.commands, Commanded);
    assert Mapped(xs, CommandedText) == Mapped(d.commands, CommandText) && Mapped(ys, CommandedText) == Mapped(e.commands, CommandText);
    forall i, j | 0 <= i < |xs| && 0 <= j < |ys| && CommandedText(xs[i]) == CommandedText(ys[j]) ensures xs[i] == ys[j] {
      CommandedTextInjective(xs[i], ys[j]);
    }
    PartsOfKeysIff(xs, ys, CommandedText);
  }

  lemma PartIsFree(texts: seq<string>, c: char)
    requires Free(texts, c) && c != ','
    ensures c !in Part(texts)
  {
    SortedFree(texts, c);
    JoinIsFree(SortStrings(texts), ',', c);
  }

  lemma KindsDiffer(k: DecisionKind, l: DecisionKind)
    ensures '|' !in KindText(k) && (KindText(k) == KindText(l) ==> k == l)
  {
  }

  /** Four texts between bars, the first three without bars, are told apart. */
  lemma FourPartsIff(a: string, b: string, c: string, d: string, x: string, y: string, z: string, u: string)
    requires '|' !in a && '|' !in b && '|' !in c && '|' !in x && '|' !in y && '|' !in z
    ensures a + "|" + b + "|" + c + "|" + d == x + "|" + y + "|" + z + "|" + u <==> a == x && b == y && c == z && d == u
  {
    var s, t := a + "|" + b + "|" + c + "|" + d, x + "|" + y + "|" + z + "|" + u;
    var s1, t1 := b + "|" + c + "|" + d, y + "|" + z + "|" + u;
    assert s == a + ['|'] + s1 && t == x + ['|'] + t1;
    assert s1 == b + ['|'] + (c + ['|'] + d) && t1 == y + ['|'] + (z + ['|'] + u);
    if s == t {
      SplitAtFirst(a, s1, x, t1, '|');
      SplitAtFirst(b, c + ['|'] + d, y, z + ['|'] + u, '|');
      SplitAtFirst(c, d, z, u, '|');
    }
  }

  /** Two decisions have one signature if and only if they are of one kind, and target the same, use the same tools
      and command the same, repeats counted and in any order. Their objectives, scopes, capabilities, arguments,
      reports, reasons and keys do not count. */
  lemma SameSignatureIff(d: Decision, e: Decision)
    requires PlainNames(d) && PlainNames(e)
    ensures Signature(d) == Signature(e) <==> SameDecision(d, e)
  {
    hide PlainNames, Mapped, Part, KindText, Free;
    CallsPartIff(d, e);
    CallsPartIff(e, d);
    ToolsPartIff(d, e);
    ToolsPartIff(e, d);
    CommandsPartIff(d, e);
    KindsDiffer(d.kind, e.kind);
    KindsDiffer(e.kind, d.kind);
    var a, b, c := Part(Mapped(d.calls, CallText)), Part(Mapped(d.tools, ToolText)), Part(Mapped(d.commands, CommandText));
    var x, y, z := Part(Mapped(e.calls, CallText)), Part(Mapped(e.tools, ToolText)), Part(Mapped(e.commands, CommandText));
    PartIsFree(Mapped(d.calls, CallText), '|');
    PartIsFree(Mapped(d.tools, ToolText), '|');
    PartIsFree(Mapped(e.calls, CallText), '|');
    PartIsFree(Mapped(e.tools, ToolText), '|');
    SignatureIs(d);
    SignatureIs(e);
    FourPartsIff(KindText(d.kind), a, b, c, KindText(e.kind), x, y, z);
  }

  lemma SignatureIs(d: Decision)
    ensures Signature(d) == KindText(d.kind) + "|" + Part(Mapped(d.calls, CallText)) + "|" + Part(Mapped(d.tools, ToolText))
      + "|" + Part(Mapped(d.commands, CommandText))
  {
  }

  function CallOf(agent: string): Assignment { Assignment(agent, "work", "all", JNull, AgentTarget) }

  function CallsTo(agents: seq<string>): Decision { Decision(Continue, Mapped(agents, CallOf), [], [], "", None, []) }

  /** A name with a separator in it can be mistaken: the call of one agent counts as the calls of two others. */
  lemma SeparatorsCollide(x: string, y: string)
    requires StrLe(CallText(CallOf(x)), CallText(CallOf(y)))
    ensures var d, e := CallsTo([x + ",agent:" + y]), CallsTo([x, y]); Signature(d) == Signature(e) && !SameDecision(d, e)
  {
    hide CallText, SortStrings, Join, CallOf, Signature, StrLe;
    var z := x + ",agent:" + y;
    var d, e := CallsTo([z]), CallsTo([x, y]);
    assert d.calls == [CallOf(z)] && e.calls == [CallOf(x), CallOf(y)];
    assert Mapped(d.calls, CallText) == [CallText(CallOf(z))] && Mapped(e.calls, CallText) == [CallText(CallOf(x)), CallText(CallOf(y))];
    TextOfBoth(x, y);
    OneSorted(CallText(CallOf(z)));
    TwoSorted(CallText(CallOf(x)), CallText(CallOf(y)));
    Joined(CallText(CallOf(x)), CallText(CallOf(y)));
    assert Mapped(d.tools, ToolText) == [] == Mapped(e.tools, ToolText);
    assert Mapped(d.commands, CommandText) == [] == Mapped(e.commands, CommandText);
    SignatureIs(d);
    SignatureIs(e);
    assert |multiset(Mapped(d.calls, Target))| == 1 && |multiset(Mapped(e.calls, Target))| == 2;
  }

  lemma TextOfBoth(x: string, y: string)
    ensures CallText(CallOf(x + ",agent:" + y)) == CallText(CallOf(x)) + "," + CallText(CallOf(y))
  {
    assert ",agent:" == "," + "agent:";
  }

  lemma Joined(x: string, y: string)
    ensures Join([x, y], ",") == x + "," + y == Join([x + "," + y], ",")
  {
    assert [x, y][..1] == [x];
  }

  lemma OneSorted(x: string)
    ensures SortStrings([x]) == [x]
  {
    assert [x][..0] == [];
  }

  lemma TwoSorted(x: string, y: string)
    requires StrLe(x, y)
    ensures SortStrings([x, y]) == [x, y]
  {
    OneSorted(x);
    assert [x, y][..1] == [x];
  }

  // ---------------------------------------------------------------- how often in a row

  /** How often in a row the decision of round `k` has been made again, counted from the first time, or from the
      last time that somebody joined. `prev` and `count` stand for the rounds before these. */
  ghost function Streak(prev: Option<Decision>, count: int, records: seq<RoundRecord>, k: nat): int
    requires k < |records|
    decreases k
  {
    var before := if k == 0 then prev else Some(records[k - 1].decision);
    if records[k].grew || before.None? || !SameDecision(before.value, records[k].decision) then 0
    else (if k == 0 then count else Streak(prev, count, records, k - 1)) + 1
  }

  lemma {:induction false} StreakShift(prev: Option<Decision>, count: int, first: RoundRecord, rest: seq<RoundRecord>, k: nat)
    requires k < |rest|
    ensures Streak(prev, count, [first] + rest, k + 1) == Streak(Some(first.decision), Streak(prev, count, [first] + rest, 0), rest, k)
    decreases k
  {
    hide SameDecision;
    var all := [first] + rest;
    assert all[k + 1] == rest[k] && all[k] == (if k == 0 then first else rest[k - 1]);
    if k > 0 { StreakShift(prev, count, first, rest, k - 1); }
  }

  /** The drive ends with its round `k`, as repeated. */
  predicate StopsAt(r: Drive, w: World, k: nat)
    requires k < |r.records|
  {
    var b, d := r.records[k].before, r.records[k].decision;
    k == |r.records| - 1 && Closes(b, d, w) && r.board == Terminated(ClosedOn(BeforeClosing(b, d, w), w), Blocked, w.text.repeated)
  }

  /** All decisions of the drive have plain names. */
  predicate AllPlain(records: seq<RoundRecord>) { forall i :: 0 <= i < |records| ==> PlainNames(records[i].decision) }

  /** The guard is what the rounds before have left. */
  predicate Remembers(g: Guard, prev: Option<Decision>, count: int) {
    && g.repeats == count && g.lastSignature == (if prev.Some? then Some(Signature(prev.value)) else None)
    && (prev.Some? ==> PlainNames(prev.value))
  }

  lemma RepeatsAre(g: Guard, prev: Option<Decision>, count: int, d: Decision)
    requires Remembers(g, prev, count) && PlainNames(d)
    ensures Repeats(g, Signature(d)) == if prev.Some? && SameDecision(prev.value, d) then count + 1 else 0
  {
    hide Signature, PlainNames, SameDecision;
    if prev.Some? { SameSignatureIff(prev.value, d); }
  }

  /** How the first round of a drive ends, if it moves anything: as repeated, or it goes on with its count. */
  lemma FirstRoundStopsIff(e: Entry, d: Decision, w: World, lim: Limits)
    requires Inv(e.board) && Running(e.board) && OwnTexts(w.text) && Advances(e.board, d, w)
    requires Decide(w, e.board.round, 0, e.parseErrors, lim.maxParseErrors).decision == Some(d)
    ensures var r, m := DriveOn(e, w, lim), Repeats(e.guard, Signature(d));
      && r.records != [] && r.records[0] == RecordOf(e, d, w, lim)
      && (StopsAt(r, w, 0) <==> (if RecordOf(e, d, w, lim).grew then 0 else m) >= lim.maxRepeats)
      && (StopsAt(r, w, 0) <==> OneRound(e, w, lim).None?)
  {
    hide Round, Decide, Signature, Inv, OneRound, DriveOn, Closes, ClosedOn, BeforeClosing, Progressed, SaveAndGuard, TurnSaves, Repeats;
    RoundCloses(e.board, d, w, e.guard, lim.maxRepeats, 0);
    StartsWithItself(e.board, d, w);
    var c, m := ClosedOn(BeforeClosing(e.board, d, w), w), Repeats(e.guard, Signature(d));
    TwoCounts(e.board, c, |c.roster| > |e.board.roster|, w.text, Signature(d), m, m, lim.maxRepeats);
    DriveUnfolds(e, d, w, lim);
    if OneRound(e, w, lim).Some? {
      var next := OneRound(e, w, lim).value.entry;
      if DriveOn(next, w, lim).records == [] { NoRounds(next, w, lim); }
    }
  }

  /** Whether a round that moves something is the end of the run depends on the decisions alone: it ends as repeated
      if and only if its decision has been made so many times in a row without anybody joining. */
  lemma {:induction false} StreakDecides(e: Entry, prev: Option<Decision>, w: World, lim: Limits, k: nat)
    requires Inv(e.board) && OwnTexts(w.text) && Remembers(e.guard, prev, e.guard.repeats)
    requires k < |DriveOn(e, w, lim).records| && AllPlain(DriveOn(e, w, lim).records)
    requires var rec := DriveOn(e, w, lim).records[k]; Advances(rec.before, rec.decision, w)
    ensures var r := DriveOn(e, w, lim); StopsAt(r, w, k) <==> Streak(prev, e.guard.repeats, r.records, k) >= lim.maxRepeats
    decreases k
  {
    hide Round, Decide, Signature, Inv, OneRound, DriveOn, PlainNames, SameDecision, Advances, Repeats, Streak, StopsAt, AllPlain;
    Answered(e, w, lim);
    var d := Decide(w, e.board.round, 0, e.parseErrors, lim.maxParseErrors).decision.value;
    DriveUnfolds(e, d, w, lim);
    var r, first := DriveOn(e, w, lim), RecordOf(e, d, w, lim);
    assert r.records[0] == first;
    assert [first] + r.records[1..] == r.records;
    RestIsPlain(first, r.records[1..]);
    RepeatsAre(e.guard, prev, e.guard.repeats, d);
    StreakStarts(prev, e.guard.repeats, r.records);
    if k == 0 {
      FirstRoundStopsIff(e, d, w, lim);
    } else {
      var next := OneRound(e, w, lim).value.entry;
      var rest := DriveOn(next, w, lim);
      NextRemembers(e, prev, d, w, lim);
      assert r.records == [first] + rest.records && r.records[k] == rest.records[k - 1];
      StreakShift(prev, e.guard.repeats, first, rest.records, k - 1);
      RestIsPlain(first, rest.records);
      StreakDecides(next, Some(d), w, lim, k - 1);
      StopShift(r, rest, w, k);
    }
  }

  lemma RestIsPlain(first: RoundRecord, rest: seq<RoundRecord>)
    requires AllPlain([first] + rest)
    ensures AllPlain(rest) && PlainNames(first.decision)
  {
    hide PlainNames;
    var all := [first] + rest;
    assert all[0] == first && forall i :: 0 <= i < |rest| ==> rest[i] == all[i + 1];
  }

  lemma StopShift(r: Drive, rest: Drive, w: World, k: nat)
    requires 0 < k < |r.records| && r.records[1..] == rest.records && r.board == rest.board
    ensures k - 1 < |rest.records| && (StopsAt(r, w, k) <==> StopsAt(rest, w, k - 1))
  {
    hide Closes, ClosedOn, BeforeClosing;
    assert rest.records[k - 1] == r.records[k];
  }

  /** What the first round hands on. */
  lemma NextRemembers(e: Entry, prev: Option<Decision>, d: Decision, w: World, lim: Limits)
    requires Inv(e.board) && Remembers(e.guard, prev, e.guard.repeats) && PlainNames(d) && OneRound(e, w, lim).Some?
    requires Running(e.board) && Decide(w, e.board.round, 0, e.parseErrors, lim.maxParseErrors).decision == Some(d)
    ensures var next := OneRound(e, w, lim).value.entry;
      && Inv(next.board) && DriveOn(e, w, lim).records != []
      && Remembers(next.guard, Some(d), Streak(prev, e.guard.repeats, DriveOn(e, w, lim).records, 0))
      && Remembers(next.guard, Some(d), next.guard.repeats)
  {
    hide Round, Decide, Signature, Inv, OneRound, DriveOn, PlainNames, SameDecision, Repeats, Streak;
    DriveUnfolds(e, d, w, lim);
    RepeatsAre(e.guard, prev, e.guard.repeats, d);
    StreakStarts(prev, e.guard.repeats, DriveOn(e, w, lim).records);
    GuardAfter(e, d, w, lim);
    GuardOfRound(e, d, w, lim);
  }

  lemma StreakStarts(prev: Option<Decision>, count: int, records: seq<RoundRecord>)
    requires records != []
    ensures Streak(prev, count, records, 0)
      == if !records[0].grew && prev.Some? && SameDecision(prev.value, records[0].decision) then count + 1 else 0
  {
    hide SameDecision;
  }

  lemma GuardOfRound(e: Entry, d: Decision, w: World, lim: Limits)
    requires Inv(e.board) && Running(e.board) && Decide(w, e.board.round, 0, e.parseErrors, lim.maxParseErrors).decision == Some(d)
    requires OneRound(e, w, lim).Some?
    ensures OneRound(e, w, lim).value.entry.guard
      == Guard(Some(Signature(d)), if RecordOf(e, d, w, lim).grew then 0 else Repeats(e.guard, Signature(d)))
  {
    hide Round, Decide, Signature, Inv, OneRound, PartsHere, Repeats;
    DriveUnfolds(e, d, w, lim);
    NotParting(e.board, d, w, Repeats(e.guard, Signature(d)), lim.maxRepeats);
    SameRound(e.board, d, w, e.guard, e.guard, lim.maxRepeats);
  }

  lemma NotParting(b: Board, d: Decision, w: World, m: int, maxRepeats: int)
    ensures !PartsHere(b, d, w, m, m, maxRepeats)
  {
    hide Advances, ClosedOn, BeforeClosing;
  }

  lemma Answered(e: Entry, w: World, lim: Limits)
    requires DriveOn(e, w, lim).records != []
    ensures Running(e.board) && Decide(w, e.board.round, 0, e.parseErrors, lim.maxParseErrors).decision.Some?
  {
    hide Round, Decide;
  }

  /** From the start of a life. */
  lemma RepeatedIff(b: Board, pe: int, w: World, lim: Limits, k: nat)
    requires Inv(b) && OwnTexts(w.text)
    requires var r := DriveOn(Entry(b, FRESH, pe), w, lim);
      k < |r.records| && AllPlain(r.records) && Advances(r.records[k].before, r.records[k].decision, w)
    ensures var r := DriveOn(Entry(b, FRESH, pe), w, lim); StopsAt(r, w, k) <==> Streak(None, 0, r.records, k) >= lim.maxRepeats
  {
    hide Inv, DriveOn, Advances, Streak, PlainNames;
    StreakDecides(Entry(b, FRESH, pe), None, w, lim, k);
  }

  /** A run in which every decision differs from the one before never ends as repeated. */
  lemma DifferentDecisionsGoOn(b: Board, pe: int, w: World, lim: Limits, k: nat)
    requires Inv(b) && OwnTexts(w.text) && 0 < lim.maxRepeats
    requires var r := DriveOn(Entry(b, FRESH, pe), w, lim);
      && k < |r.records| && AllPlain(r.records) && Advances(r.records[k].before, r.records[k].decision, w)
      && (forall i :: 0 < i < |r.records| ==> !SameDecision(r.records[i - 1].decision, r.records[i].decision))
    ensures !StopsAt(DriveOn(Entry(b, FRESH, pe), w, lim), w, k)
  {
    hide Inv, DriveOn, Advances, PlainNames, SameDecision;
    RepeatedIff(b, pe, w, lim, k);
    var records := DriveOn(Entry(b, FRESH, pe), w, lim).records;
    if k > 0 { assert !SameDecision(records[k - 1].decision, records[k].decision); }
  }
}
