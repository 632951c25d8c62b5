/** The supervisor's driver: decide, act, judge, apply, advance, save, guard. */
module TaskLoop {
  import opened Text
  import opened Ordering
  import opened Discipline
  import opened TaskBoard
  import opened Departments
  import opened CommandBridge
  import opened Rounds
  import opened Turns

  // ---------------------------------------------------------------- decision signature

  function Join(parts: seq<string>, sep: string): string {
    if parts == [] then ""
    else if |parts| == 1 then parts[0]
    else Join(parts[..|parts| - 1], sep) + sep + parts[|parts| - 1]
  }

  function KindText(k: DecisionKind): string {
    match k
    case Continue => "continue"
    case NeedTool => "need_tool"
    case Finish => "finished"
    case Block => "blocked"
    case Fail => "failed"
  }

  function CallText(a: Assignment): string {
    (if a.kind.AgentTarget? then "agent" else "department") + ":" + a.agent
  }

  function ToolText(t: ToolRequest): string { t.tool }

  function CommandText(c: Intent): string {
    c.commandType + ":" + if c.payload.Fields? then c.payload.agentId else ""
  }

  function Mapped<T, K>(xs: seq<T>, key: T -> K): (ks: seq<K>)
    ensures |ks| == |xs| && forall i :: 0 <= i < |xs| ==> ks[i] == key(xs[i])
  {
    seq(|xs|, i requires 0 <= i < |xs| => key(xs[i]))
  }

  /** A payload that is present and not a mapping has no `.get`, so the signature raises on it. */
  predicate SignatureRaises(d: Decision) {
    exists i :: 0 <= i < |d.commands| && !d.commands[i].payload.Missing? && !d.commands[i].payload.Fields?
  }

  /** Listing the capabilities of a call raises already in `parse_decision`, past its own error type. A reply whose
      reading raises there appears here as any decision with such a call. */
  predicate ReadingRaises(d: Decision) { exists i :: 0 <= i < |d.calls| && Unlistable(d.calls[i].capabilities) }

  /** `_decision_signature`. */
  function Signature(d: Decision): string {
    KindText(d.kind) + "|" + Join(SortStrings(Mapped(d.calls, CallText)), ",")
      + "|" + Join(SortStrings(Mapped(d.tools, ToolText)), ",")
      + "|" + Join(SortStrings(Mapped(d.commands, CommandText)), ",")
  }

  lemma RemoveAt<T>(s: seq<T>, i: nat)
    requires i < |s|
    ensures multiset(s[..i] + s[i + 1..]) == multiset(s) - multiset{s[i]}
  {
    assert s == s[..i] + [s[i]] + s[i + 1..];
  }

  lemma MappedWithout<T, K>(s: seq<T>, i: nat, key: T -> K)
    requires i < |s|
    ensures key(s[i]) in multiset(Mapped(s, key))
    ensures multiset(Mapped(s[..i] + s[i + 1..], key)) == multiset(Mapped(s, key)) - multiset{key(s[i])}
  {
    RemoveAt(Mapped(s, key), i);
    assert Mapped(s, key)[i] == key(s[i]);
    assert Mapped(s[..i] + s[i + 1..], key) == Mapped(s, key)[..i] + Mapped(s, key)[i + 1..];
  }

  lemma {:induction false} MappedOfPermutation<T, K>(xs: seq<T>, ys: seq<T>, key: T -> K)
    requires multiset(xs) == multiset(ys)
    ensures multiset(Mapped(xs, key)) == multiset(Mapped(ys, key))
    decreases |xs|
  {
    assert |multiset(xs)| == |xs| && |multiset(ys)| == |ys|;
    if xs == [] {
      assert ys == [];
    } else {
      assert xs[0] in multiset(ys);
      var i :| 0 <= i < |ys| && ys[i] == xs[0];
      var xs1, ys1 := xs[..0] + xs[1..], ys[..i] + ys[i + 1..];
      RemoveAt(xs, 0);
      RemoveAt(ys, i);
      MappedOfPermutation(xs1, ys1, key);
      AddedBack(xs, ys, i, key);
    }
  }

  lemma AddedBack<T, K>(xs: seq<T>, ys: seq<T>, i: nat, key: T -> K)
    requires xs != [] && i < |ys| && ys[i] == xs[0]
    requires multiset(Mapped(xs[..0] + xs[1..], key)) == multiset(Mapped(ys[..i] + ys[i + 1..], key))
    ensures multiset(Mapped(xs, key)) == multiset(Mapped(ys, key))
  {
    hide Mapped;
    MappedWithout(xs, 0, key);
    MappedWithout(ys, i, key);
    SameAfterRemoval(multiset(Mapped(xs, key)), multiset(Mapped(ys, key)), key(xs[0]));
  }

  lemma SameAfterRemoval<T>(a: multiset<T>, b: multiset<T>, x: T)
    requires x in a && x in b && a - multiset{x} == b - multiset{x}
    ensures a == b
  {
    assert a == (a - multiset{x}) + multiset{x} && b == (b - multiset{x}) + multiset{x};
  }

  /** Reordering the calls, tools or commands of a decision does not make it a different decision. */
  lemma SignatureIgnoresOrder(d: Decision, e: Decision)
    requires d.kind == e.kind && multiset(d.calls) == multiset(e.calls)
    requires multiset(d.tools) == multiset(e.tools) && multiset(d.commands) == multiset(e.commands)
    ensures Signature(d) == Signature(e)
  {
    StrOrder();
    MappedOfPermutation(d.calls, e.calls, CallText);
    MappedOfPermutation(d.tools, e.tools, ToolText);
    MappedOfPermutation(d.commands, e.commands, CommandText);
    SortOfPermutation(Mapped(d.calls, CallText), Mapped(e.calls, CallText), StrLe);
    SortOfPermutation(Mapped(d.tools, ToolText), Mapped(e.tools, ToolText), StrLe);
    SortOfPermutation(Mapped(d.commands, CommandText), Mapped(e.commands, CommandText), StrLe);
  }

  // ---------------------------------------------------------------- one decision

  datatype Reply = Reply(decision: Option<Decision>, parseErrors: int, asked: nat)

  /** `o_decide`: ask again after each unparsable reply until one parses or the budget is spent. */
  function Decide(w: World, round: int, attempt: nat, parseErrors: int, maxParseErrors: int): Reply
    decreases maxParseErrors - parseErrors
  {
    var reply := w.decide(round, attempt);
    if reply.Some? then Reply(reply, parseErrors, attempt + 1)
    else if parseErrors + 1 >= maxParseErrors then Reply(None, parseErrors + 1, attempt + 1)
    else Decide(w, round, attempt + 1, parseErrors + 1, maxParseErrors)
  }

  /** What a question comes to: the first reply that parses, asked for in order, with each one before it counted as a
      parse error; or none, when the count has reached its bound. */
  lemma {:induction false} QuestionIs(w: World, round: int, attempt: nat, pe: int, maxParseErrors: int)
    ensures var r := Decide(w, round, attempt, pe, maxParseErrors);
      && attempt < r.asked && r.decision == w.decide(round, r.asked - 1)
      && (forall i: nat :: attempt <= i < r.asked - 1 ==> w.decide(round, i).None?)
      && r.parseErrors == pe + (r.asked - attempt) - (if r.decision.Some? then 1 else 0)
      && (r.decision.None? ==> r.parseErrors >= maxParseErrors)
    decreases maxParseErrors - pe
  {
    if w.decide(round, attempt).None? && pe + 1 < maxParseErrors { QuestionIs(w, round, attempt + 1, pe + 1, maxParseErrors); }
  }

  method ODecide(w: World, round: int, budget: Budget) returns (d: Option<Decision>, ghost asked: nat)
    modifies budget`parseErrors
    ensures var r := Decide(w, round, 0, old(budget.parseErrors), budget.maxParseErrors);
      d == r.decision && budget.parseErrors == r.parseErrors && asked == r.asked
  {
    ghost var r := Decide(w, round, 0, budget.parseErrors, budget.maxParseErrors);
    var attempt := 0;
    while true
      invariant r == Decide(w, round, attempt, budget.parseErrors, budget.maxParseErrors)
      decreases budget.maxParseErrors - budget.parseErrors
    {
      var reply := w.decide(round, attempt);
      attempt := attempt + 1;
      if reply.Some? {
        return reply, attempt;
      }
      budget.RecordParseError();
      if budget.parseErrors >= budget.maxParseErrors {
        return None, attempt;
      }
    }
  }

  // ---------------------------------------------------------------- one round

  /** The loop's own variables between rounds. */
  datatype Guard = Guard(lastSignature: Option<string>, repeats: int)

  /** What a drive leaves behind of a round, for the record: how it began, what was decided, what that amounts to. */
  datatype RoundRecord = RoundRecord(before: Board, decision: Decision, signature: string, grew: bool)

  /** How a round leaves the loop body: on to the next one, out of the loop, or by an exception. */
  datatype Flow = Next(guard: Guard) | Stop | Escape

  datatype Step = Step(board: Board, saves: seq<Board>, flow: Flow)

  function Terminated(b: Board, status: Status, reason: string): Board { b.(status := status, reason := reason) }

  function StopWith(saves: seq<Board>, b: Board, status: Status, reason: string): Step {
    var t := Terminated(b, status, reason);
    Step(t, saves + [t], Stop)
  }

  function OrElse(s: string, otherwise: string): string { if s != "" then s else otherwise }

  function Repeats(g: Guard, signature: string): int {
    if g.lastSignature == Some(signature) then g.repeats + 1 else 0
  }

  /** What the decision itself does: go on to the end of the round, or leave the loop. */
  datatype Acted = GoOn(board: Board, saves: seq<Board>) | Leave(step: Step) {
    function BoardOf(): Board { if GoOn? then board else step.board }
  }

  function Act(b: Board, d: Decision, w: World): (a: Acted)
    ensures a.GoOn? ==> SameClock(b, a.board)
    ensures a.Leave? ==> !a.step.flow.Next?
  {
    RoundClock(b, d, w);
    ToolsClock(b, d.tools, |d.tools|, w);
    match d.kind
    case Finish =>
      var j := Judged(b, d, w);
      if ReportRaises(b.checks, d.acceptance) then Leave(Step(b, [], Escape))
      else if j.AllAccepted() then
        var done := j.(finalOutput := Some(if d.finalOutput.Some? then d.finalOutput.value else map[]));
        Leave(StopWith([], done, Finished, OrElse(d.reason, w.text.allPassed)))
      else GoOn(j.(reason := w.text.denied), [])
    case NeedTool =>
      var t := RunToolsOn(b, d, w);
      if ReportRaises(t.checks, d.acceptance) then Leave(Step(t, [], Escape)) else GoOn(Judged(t, d, w), [])
    case Continue =>
      var r := RunRoundOn(b, d, w);
      if r.raised || ReportRaises(r.board.checks, d.acceptance) then Leave(Step(r.board, r.saves, Escape))
      else GoOn(Judged(r.board, d, w), r.saves)
    case Block => Leave(StopWith([], b, Blocked, OrElse(d.reason, w.text.blocked)))
    case Fail => Leave(StopWith([], b, Failed, OrElse(d.reason, w.text.failed)))
  }

  /** Artifacts, acceptance or roster moved: what counts as progress. */
  predicate Progressed(before: Board, after: Board) {
    |after.artifacts| > |before.artifacts| || after.AcceptanceSnapshot() != before.AcceptanceSnapshot()
    || |after.roster| > |before.roster|
  }

  /** Save the round just closed, then the two guards on what it changed. */
  function SaveAndGuard(before: Board, c: Board, grew: bool, text: Wording, signature: string, repeats: int, maxRepeats: int): Step {
    var progressed := |c.artifacts| > |before.artifacts| || c.AcceptanceSnapshot() != before.AcceptanceSnapshot() || grew;
    var r := if grew then 0 else repeats;
    if !progressed then StopWith([c], c, Blocked, text.noProgress)
    else if r >= maxRepeats then StopWith([c], c, Blocked, text.repeated)
    else Step(c, [c], Next(Guard(Some(signature), r)))
  }

  /** The end of a round: apply the queued commands and advance, before anything is saved. */
  function EndRound(before: Board, b: Board, w: World, signature: string, repeats: int, maxRepeats: int): (s: Step)
    ensures s.flow.Next? ==> s.board.round == b.round + 1 && s.board.maxRounds == b.maxRounds
  {
    var applied := Apply(b, w.types, w.Catalog());
    if applied.None? then Step(b, [], Escape)
    else
      var c := applied.value.(round := b.round + 1);
      SaveAndGuard(before, c, |c.roster| > |b.roster|, w.text, signature, repeats, maxRepeats)
  }

  /** From what the decision did to the end of the round. */
  function Complete(acted: Acted, before: Board, w: World, signature: string, repeats: int, maxRepeats: int): Step {
    match acted
    case Leave(step) => step
    case GoOn(b, saves) =>
      var e := EndRound(before, b, w, signature, repeats, maxRepeats);
      e.(saves := saves + e.saves)
  }

  /** The body of the loop, given the decision. Going on always advances the round by one. */
  function Round(b: Board, d: Decision, w: World, g: Guard, maxRepeats: int): (s: Step)
    ensures s.flow.Next? ==> s.board.round == b.round + 1 && s.board.maxRounds == b.maxRounds
  {
    var queued := EnqueueAll(b, d.commands);
    if ReadingRaises(d) || queued.None? || SignatureRaises(d) then Step(b, [], Escape)
    else
      var signature := Signature(d);
      Complete(Act(queued.value, d, w), b, w, signature, Repeats(g, signature), maxRepeats)
  }

  // ---------------------------------------------------------------- the drive

  datatype Limits = Limits(maxParseErrors: int, maxRepeats: int)

  datatype Drive = Drive(board: Board, saves: seq<Board>, escaped: bool, parseErrors: int, asked: nat, records: seq<RoundRecord>)

  /** `_drive` from a board, with the parse errors counted so far. */
  function DriveFrom(b: Board, w: World, lim: Limits, g: Guard, parseErrors: int): Drive
    decreases b.maxRounds - b.round
  {
    if b.Terminal() then Drive(b, [], false, parseErrors, 0, [])
    else if b.round >= b.maxRounds then
      var t := Terminated(b, Blocked, w.text.maxRounds);
      Drive(t, [t], false, parseErrors, 0, [])
    else
      var reply := Decide(w, b.round, 0, parseErrors, lim.maxParseErrors);
      if reply.decision.None? then
        var t := Terminated(b, Failed, w.text.parseBudget);
        Drive(t, [t], false, reply.parseErrors, reply.asked, [])
      else
        var s := Round(b, reply.decision.value, w, g, lim.maxRepeats);
        var record := RoundRecord(b, reply.decision.value, Signature(reply.decision.value), |s.board.roster| > |b.roster|);
        if s.flow.Next? then
          var rest := DriveFrom(s.board, w, lim, s.flow.guard, reply.parseErrors);
          Drive(rest.board, s.saves + rest.saves, rest.escaped, rest.parseErrors, reply.asked + rest.asked, [record] + rest.records)
        else
          Drive(s.board, s.saves, s.flow.Escape?, reply.parseErrors, reply.asked, [record])
  }

  // ---------------------------------------------------------------- the driver itself

  method Terminate(state: TaskLoopState, store: CheckpointStore, status: Status, reason: string)
    requires store.Valid()
    modifies state`status, state`reason, store
    ensures store.Valid() && state.View() == Terminated(old(state.View()), status, reason)
    ensures store.log == old(store.log) + [state.View()]
  {
    state.status, state.reason := status, reason;
    store.Save(state);
  }

  /** A finish is granted on evidence, or denied and the round goes on. */
  method TryFinish(state: TaskLoopState, store: CheckpointStore, d: Decision, w: World) returns (flow: Flow)
    requires store.Valid() && d.kind.Finish?
    modifies state, store
    ensures store.Valid() && (flow.Next? ==> flow == Next(Guard(None, 0)))
    ensures var a := Act(old(state.View()), d, w);
      && flow.Next? == a.GoOn? && (!flow.Escape? ==> state.View() == a.BoardOf())
      && store.log == old(store.log) + (if a.GoOn? then a.saves else a.step.saves) && (a.Leave? ==> flow == a.step.flow)
  {
    hide JudgeRows, ReportRaises, Board.AllAccepted, OrElse;
    var judged := JudgeAcceptance(state, d, w);
    if !judged {
      return Escape;
    }
    if state.View().AllAccepted() {
      state.finalOutput := Some(if d.finalOutput.Some? then d.finalOutput.value else map[]);
      Terminate(state, store, Finished, OrElse(d.reason, w.text.allPassed));
      return Stop;
    }
    state.reason := w.text.denied;
    flow := Next(Guard(None, 0));
  }

  /** What the decision does to the board; `flow` is Next when the round goes on to its end. */
  method ActOn(state: TaskLoopState, store: CheckpointStore, d: Decision, w: World) returns (flow: Flow)
    requires store.Valid()
    modifies state, store
    ensures store.Valid()
    ensures var a := Act(old(state.View()), d, w);
      && flow.Next? == a.GoOn?
      && (a.GoOn? ==> state.View() == a.board && store.log == old(store.log) + a.saves)
      && (a.Leave? ==> flow == a.step.flow && store.log == old(store.log) + a.step.saves)
      && (flow.Stop? ==> state.View() == a.step.board)
  {
    hide JudgeRows, ReportRaises, RunRoundOn, ToolsUpTo, Board.AllAccepted, OrElse;
    var judged;
    match d.kind {
      case Finish =>
        flow := TryFinish(state, store, d, w);
        return;
      case NeedTool =>
        RunTool(state, d, w);
        judged := JudgeAcceptance(state, d, w);
      case Continue =>
        var ok := RunRound(state, store, d, w);
        if !ok {
          return Escape;
        }
        judged := JudgeAcceptance(state, d, w);
      case Block =>
        Terminate(state, store, Blocked, OrElse(d.reason, w.text.blocked));
        return Stop;
      case Fail =>
        Terminate(state, store, Failed, OrElse(d.reason, w.text.failed));
        return Stop;
    }
    flow := if judged then Next(Guard(None, 0)) else Escape;
  }

  lemma GuardBranches(before: Board, c: Board, grew: bool, text: Wording, signature: string, repeats: int, maxRepeats: int)
    ensures var s := SaveAndGuard(before, c, grew, text, signature, repeats, maxRepeats);
      var progressed := |c.artifacts| > |before.artifacts| || c.AcceptanceSnapshot() != before.AcceptanceSnapshot() || grew;
      var r := if grew then 0 else repeats;
      && (!progressed ==> s == StopWith([c], c, Blocked, text.noProgress))
      && (progressed && r >= maxRepeats ==> s == StopWith([c], c, Blocked, text.repeated))
      && (progressed && r < maxRepeats ==> s == Step(c, [c], Next(Guard(Some(signature), r))))
  {
  }

  method SaveAndGuardRound(state: TaskLoopState, store: CheckpointStore, applied: nat, text: Wording, signature: string, repeats: int,
    maxRepeats: int, beforeArtifacts: nat, beforeAcceptance: seq<(string, string, nat)>, ghost before: Board)
    returns (flow: Flow)
    requires store.Valid()
    requires beforeArtifacts == |before.artifacts| && beforeAcceptance == before.AcceptanceSnapshot()
    modifies state`status, state`reason, store
    ensures store.Valid() && !flow.Escape?
    ensures var s := SaveAndGuard(before, old(state.View()), applied > 0, text, signature, repeats, maxRepeats);
      flow == s.flow && store.log == old(store.log) + s.saves && state.View() == s.board
  {
    hide Board.AcceptanceSnapshot, SaveAndGuard, Terminated;
    ghost var c := state.View();
    GuardBranches(before, c, applied > 0, text, signature, repeats, maxRepeats);
    store.Save(state);
    var progressed := |state.artifacts| > beforeArtifacts
      || state.View().AcceptanceSnapshot() != beforeAcceptance || applied > 0;
    var r := if applied > 0 then 0 else repeats;
    if !progressed {
      Terminate(state, store, Blocked, text.noProgress);
      return Stop;
    }
    if r >= maxRepeats {
      Terminate(state, store, Blocked, text.repeated);
      return Stop;
    }
    flow := Next(Guard(Some(signature), r));
  }

  lemma EndRoundParts(before: Board, b: Board, w: World, signature: string, repeats: int, maxRepeats: int)
    ensures var s, applied := EndRound(before, b, w, signature, repeats, maxRepeats), Apply(b, w.types, w.Catalog());
      && (applied.None? ==> s == Step(b, [], Escape))
      && (applied.Some? ==> s == SaveAndGuard(before, applied.value.(round := b.round + 1), |applied.value.roster| > |b.roster|,
                                              w.text, signature, repeats, maxRepeats))
  {
    hide Apply, World.Catalog, SaveAndGuard, Board.AcceptanceSnapshot;
  }

  /** Roster, applied keys, cleared queue and round number reach the disk in one save. */
  method CloseRound(state: TaskLoopState, store: CheckpointStore, w: World, signature: string, repeats: int,
    maxRepeats: int, beforeArtifacts: nat, beforeAcceptance: seq<(string, string, nat)>, ghost before: Board)
    returns (flow: Flow)
    requires store.Valid()
    requires beforeArtifacts == |before.artifacts| && beforeAcceptance == before.AcceptanceSnapshot()
    modifies state, store
    ensures store.Valid()
    ensures var s := EndRound(before, old(state.View()), w, signature, repeats, maxRepeats);
      flow == s.flow && store.log == old(store.log) + s.saves && (!flow.Escape? ==> state.View() == s.board)
  {
    hide Apply, World.Catalog, SaveAndGuard, Board.AcceptanceSnapshot, EndRound;
    ghost var b := state.View();
    EndRoundParts(before, b, w, signature, repeats, maxRepeats);
    var ok, applied := ApplyPendingCommands(state, w.types, w.Catalog());
    if !ok {
      return Escape;
    }
    state.round := state.round + 1;
    flow := SaveAndGuardRound(state, store, applied, w.text, signature, repeats, maxRepeats, beforeArtifacts, beforeAcceptance, before);
  }

  lemma RoundParts(b: Board, d: Decision, w: World, g: Guard, maxRepeats: int)
    ensures var s, queued := Round(b, d, w, g, maxRepeats), EnqueueAll(b, d.commands);
      s == if ReadingRaises(d) || queued.None? || SignatureRaises(d) then Step(b, [], Escape)
           else Complete(Act(queued.value, d, w), b, w, Signature(d), Repeats(g, Signature(d)), maxRepeats)
  {
    hide Act, Complete, EnqueueAll, Signature, Repeats, SignatureRaises, ReadingRaises;
  }

  lemma CompleteParts(acted: Acted, before: Board, w: World, signature: string, repeats: int, maxRepeats: int)
    ensures var s := Complete(acted, before, w, signature, repeats, maxRepeats);
      if acted.Leave? then s == acted.step
      else
        var e := EndRound(before, acted.board, w, signature, repeats, maxRepeats);
        s.board == e.board && s.flow == e.flow && s.saves == acted.saves + e.saves
  {
    hide EndRound;
  }

  /** What the decision does, and unless it leaves the loop the end of the round. */
  method ActAndClose(state: TaskLoopState, store: CheckpointStore, d: Decision, w: World, signature: string, repeats: int,
    maxRepeats: int, beforeArtifacts: nat, beforeAcceptance: seq<(string, string, nat)>, ghost before: Board)
    returns (flow: Flow)
    requires store.Valid()
    requires beforeArtifacts == |before.artifacts| && beforeAcceptance == before.AcceptanceSnapshot()
    modifies state, store
    ensures store.Valid()
    ensures var s := Complete(Act(old(state.View()), d, w), before, w, signature, repeats, maxRepeats);
      flow == s.flow && store.log == old(store.log) + s.saves && (!flow.Escape? ==> state.View() == s.board)
  {
    hide Act, EndRound, Complete, Board.AcceptanceSnapshot;
    ghost var acted, log0 := Act(state.View(), d, w), store.log;
    CompleteParts(acted, before, w, signature, repeats, maxRepeats);
    flow := ActOn(state, store, d, w);
    if flow.Next? {
      ghost var e := EndRound(before, state.View(), w, signature, repeats, maxRepeats);
      flow := CloseRound(state, store, w, signature, repeats, maxRepeats, beforeArtifacts, beforeAcceptance, before);
      assert store.log == log0 + (acted.saves + e.saves);
    }
  }

  method DriveRound(state: TaskLoopState, store: CheckpointStore, d: Decision, w: World, g: Guard, maxRepeats: int)
    returns (flow: Flow)
    requires store.Valid()
    modifies state, store
    ensures store.Valid()
    ensures var s := Round(old(state.View()), d, w, g, maxRepeats);
      flow == s.flow && store.log == old(store.log) + s.saves && (!flow.Escape? ==> state.View() == s.board)
  {
    hide Act, EnqueueAll, Signature, Repeats, Board.AcceptanceSnapshot, SignatureRaises, ReadingRaises, Round, Complete;
    ghost var before := state.View();
    RoundParts(before, d, w, g, maxRepeats);
    if ReadingRaises(d) {
      return Escape;
    }
    var beforeArtifacts, beforeAcceptance := |state.artifacts|, state.View().AcceptanceSnapshot();
    var ok, queued := EnqueueCommands(state, d.commands);
    if !ok || SignatureRaises(d) {
      return Escape;
    }
    var signature := Signature(d);
    flow := ActAndClose(state, store, d, w, signature, Repeats(g, signature), maxRepeats, beforeArtifacts, beforeAcceptance, before);
  }

  /** `r` is what is left of `all` once the log has grown from `log0` to `log`. */
  ghost predicate Remaining(all: Drive, log0: seq<Board>, r: Drive, log: seq<Board>) {
    && r.board == all.board && r.escaped == all.escaped && r.parseErrors == all.parseErrors
    && log + r.saves == log0 + all.saves
  }

  lemma NothingDoneYet(all: Drive, log: seq<Board>)
    ensures Remaining(all, log, all, log)
  {}

  lemma RoundDone(all: Drive, log0: seq<Board>, r: Drive, log: seq<Board>, saves: seq<Board>, rest: Drive)
    requires Remaining(all, log0, r, log)
    requires r.board == rest.board && r.escaped == rest.escaped && r.parseErrors == rest.parseErrors && r.saves == saves + rest.saves
    ensures Remaining(all, log0, rest, log + saves)
  {
    assert (log + saves) + rest.saves == log + (saves + rest.saves);
  }

  lemma AllDone(all: Drive, log0: seq<Board>, r: Drive, log: seq<Board>)
    requires Remaining(all, log0, r, log)
    ensures r.board == all.board && r.escaped == all.escaped && r.parseErrors == all.parseErrors
    ensures log + r.saves == log0 + all.saves
  {}

  lemma DriveGoesOn(b: Board, w: World, lim: Limits, g: Guard, pe: int, reply: Reply, s: Step)
    requires !b.Terminal() && b.round < b.maxRounds
    requires reply == Decide(w, b.round, 0, pe, lim.maxParseErrors) && reply.decision.Some?
    requires s == Round(b, reply.decision.value, w, g, lim.maxRepeats) && s.flow.Next?
    ensures var d, rest := DriveFrom(b, w, lim, g, pe), DriveFrom(s.board, w, lim, s.flow.guard, reply.parseErrors);
      d.board == rest.board && d.escaped == rest.escaped && d.parseErrors == rest.parseErrors && d.saves == s.saves + rest.saves
  {}

  lemma DriveStops(b: Board, w: World, lim: Limits, g: Guard, pe: int, reply: Reply, s: Step)
    requires !b.Terminal() && b.round < b.maxRounds
    requires reply == Decide(w, b.round, 0, pe, lim.maxParseErrors) && reply.decision.Some?
    requires s == Round(b, reply.decision.value, w, g, lim.maxRepeats) && !s.flow.Next?
    ensures var d := DriveFrom(b, w, lim, g, pe);
      d.board == s.board && d.escaped == s.flow.Escape? && d.parseErrors == reply.parseErrors && d.saves == s.saves
  {}

  lemma DriveHalts(b: Board, w: World, lim: Limits, g: Guard, pe: int)
    ensures var d := DriveFrom(b, w, lim, g, pe);
      && (b.Terminal() ==> d.board == b && d.saves == [] && !d.escaped && d.parseErrors == pe)
      && (!b.Terminal() && b.round >= b.maxRounds ==>
            d.board == Terminated(b, Blocked, w.text.maxRounds) && d.saves == [d.board] && !d.escaped && d.parseErrors == pe)
      && (!b.Terminal() && b.round < b.maxRounds && Decide(w, b.round, 0, pe, lim.maxParseErrors).decision.None? ==>
            d.board == Terminated(b, Failed, w.text.parseBudget) && d.saves == [d.board] && !d.escaped
            && d.parseErrors == Decide(w, b.round, 0, pe, lim.maxParseErrors).parseErrors)
  {}

  /** `_drive`. */
  method DriveLoop(state: TaskLoopState, store: CheckpointStore, budget: Budget, w: World, maxRepeats: int)
    returns (escaped: bool)
    requires store.Valid()
    modifies state, store, budget`parseErrors
    ensures store.Valid()
    ensures var r := DriveFrom(old(state.View()), w, Limits(budget.maxParseErrors, maxRepeats), Guard(None, 0), old(budget.parseErrors));
      && escaped == r.escaped && store.log == old(store.log) + r.saves
      && (!escaped ==> state.View() == r.board) && budget.parseErrors == r.parseErrors
  {
    hide DriveFrom, Round, Decide, Remaining;
    var g := Guard(None, 0);
    ghost var lim, log0 := Limits(budget.maxParseErrors, maxRepeats), store.log;
    ghost var all := DriveFrom(state.View(), w, lim, g, budget.parseErrors);
    NothingDoneYet(all, log0);
    while !state.View().Terminal()
      invariant store.Valid()
      invariant Remaining(all, log0, DriveFrom(state.View(), w, lim, g, budget.parseErrors), store.log)
      decreases state.maxRounds - state.round
    {
      ghost var b, pe, log := state.View(), budget.parseErrors, store.log;
      DriveHalts(b, w, lim, g, pe);
      AllDone(all, log0, DriveFrom(b, w, lim, g, pe), log);
      if state.round >= state.maxRounds {
        Terminate(state, store, Blocked, w.text.maxRounds);
        return false;
      }
      var d, asked := ODecide(w, state.round, budget);
      ghost var reply := Decide(w, b.round, 0, pe, lim.maxParseErrors);
      if d.None? {
        Terminate(state, store, Failed, w.text.parseBudget);
        return false;
      }
      ghost var s := Round(b, d.value, w, g, maxRepeats);
      var flow := DriveRound(state, store, d.value, w, g, maxRepeats);
      if flow.Next? {
        DriveGoesOn(b, w, lim, g, pe, reply, s);
        RoundDone(all, log0, DriveFrom(b, w, lim, g, pe), log, s.saves,
                  DriveFrom(s.board, w, lim, s.flow.guard, reply.parseErrors));
        RoundAdvances(b, d.value, w, g, maxRepeats);
        g := flow.guard;
      } else {
        DriveStops(b, w, lim, g, pe, reply, s);
        return flow.Escape?;
      }
    }
    DriveHalts(state.View(), w, lim, g, budget.parseErrors);
    AllDone(all, log0, DriveFrom(state.View(), w, lim, g, budget.parseErrors), store.log);
    escaped := false;
  }

  lemma RoundAdvances(b: Board, d: Decision, w: World, g: Guard, maxRepeats: int)
    ensures var s := Round(b, d, w, g, maxRepeats); s.flow.Next? ==> s.board.round == b.round + 1
  {}

  /** The board a run starts from: its own identity, its criteria, nothing else yet. */
  function NewBoard(sessionId: string, taskId: string, maxRounds: int, criteria: seq<Check>): Board {
    Board(sessionId, taskId, Created, [], criteria, 0, maxRounds, [], map[], map[], None, "", [], [])
  }

  /** `run_task_loop`: compose, save, drive. */
  method RunTaskLoop(sessionId: string, taskId: string, criteria: seq<Check>, maxRounds: int, plan: seq<string>, record: Payload,
    store: CheckpointStore, budget: Budget, w: World, maxRepeats: int) returns (ok: bool, state: TaskLoopState)
    requires store.Valid()
    modifies store, budget`parseErrors
    ensures store.Valid() && fresh(state)
    ensures var start := Composed(NewBoard(sessionId, taskId, maxRounds, criteria), plan, record, w.Catalog());
      if start.None? then !ok && store.log == old(store.log)
      else
        var r := DriveFrom(start.value, w, Limits(budget.maxParseErrors, maxRepeats), Guard(None, 0), old(budget.parseErrors));
        ok == !r.escaped && store.log == old(store.log) + [start.value] + r.saves && (ok ==> state.View() == r.board)
  {
    hide DriveFrom, Composed, World.Catalog;
    state := new TaskLoopState(NewBoard(sessionId, taskId, maxRounds, criteria));
    ok := ComposeTeam(state, plan, record, w.Catalog());
    if ok {
      store.Save(state);
      var escaped := DriveLoop(state, store, budget, w, maxRepeats);
      ok := !escaped;
    }
  }

  datatype Resumption = NoCheckpoint | ForeignCheckpoint | Ran(escaped: bool)

  /** `resume_task_loop`: only the session that owns the checkpoint may continue it; a terminal
      checkpoint is returned as it is and nothing is saved. */
  method ResumeTaskLoop(sessionId: string, taskId: string, store: CheckpointStore, budget: Budget, w: World, maxRepeats: int)
    returns (outcome: Resumption, state: TaskLoopState?)
    requires store.Valid()
    modifies store, budget`parseErrors
    ensures store.Valid() && (state != null ==> fresh(state))
    ensures outcome.NoCheckpoint? <==> old(store.log) == []
    ensures !outcome.Ran? ==> store.log == old(store.log)
    ensures old(store.log) != [] ==>
      var b := Persisted(old(store.log)[|old(store.log)| - 1]);
      && (outcome.ForeignCheckpoint? <==> b.sessionId != sessionId || b.taskId != taskId)
      && (outcome.Ran? ==>
            var r := DriveFrom(b, w, Limits(budget.maxParseErrors, maxRepeats), Guard(None, 0), old(budget.parseErrors));
            outcome.escaped == r.escaped && store.log == old(store.log) + r.saves
            && (!r.escaped ==> state != null && state.View() == r.board))
  {
    var loaded := store.Load();
    if loaded.None? {
      return NoCheckpoint, null;
    }
    if loaded.value.sessionId != sessionId || loaded.value.taskId != taskId {
      return ForeignCheckpoint, null;
    }
    state := new TaskLoopState(loaded.value);
    var escaped := DriveLoop(state, store, budget, w, maxRepeats);
    outcome := Ran(escaped);
  }
}
