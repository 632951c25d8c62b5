/** Whole runs of the supervisor: what every drive keeps, that it ends, and what survives crashes. */
module TaskLoopRuns {
  import opened Text
  import opened Discipline
  import opened TaskBoard
  import opened Departments
  import opened CommandBridge
  import opened Rounds
  import opened Turns
  import opened BoardInvariants
  import opened TaskLoop

  // ---------------------------------------------------------------- one round

  /** Sound, and a continuation of `b`. */
  ghost predicate Good(b: Board, c: Board) { Inv(c) && Extends(b, c) }

  ghost predicate AllGood(b: Board, saves: seq<Board>) { forall i :: 0 <= i < |saves| ==> Good(b, saves[i]) }

  lemma TerminatedKeeps(b: Board, status: Status, reason: string)
    requires Inv(b) && !b.Terminal() && status in {Blocked, Failed}
    ensures Good(b, Terminated(b, status, reason)) && Terminated(b, status, reason).Terminal()
  {}

  lemma AcceptedKeeps(b: Board, output: Payload, reason: string)
    requires Inv(b) && b.AllAccepted()
    ensures Good(b, Terminated(b.(finalOutput := Some(output)), Finished, reason))
  {}

  lemma ToolsKeep(b: Board, d: Decision, w: World)
    requires Inv(b) && !b.Terminal() && OnlyArtifacts(b, ToolsUpTo(b, d.tools, |d.tools|, w))
    ensures Good(b, RunToolsOn(b, d, w)) && RunToolsOn(b, d, w).status == WaitingTool
  {
    hide ToolsUpTo;
  }

  lemma ReasonKeeps(b: Board, reason: string)
    requires Inv(b)
    ensures Good(b, b.(reason := reason))
  {}

  lemma ActKeeps(b: Board, d: Decision, w: World)
    requires Inv(b) && !b.Terminal()
    ensures var a := Act(b, d, w);
      && (a.GoOn? ==> Good(b, a.board) && !a.board.Terminal() && AllGood(b, a.saves))
      && (a.Leave? ==> Good(b, a.step.board) && AllGood(b, a.step.saves))
      && (a.Leave? && a.step.flow.Stop? ==>
            a.step.board.Terminal() && a.step.saves != [] && a.step.saves[|a.step.saves| - 1] == a.step.board)
  {
    hide RunRoundOn, ToolsUpTo, JudgeRows, ReportRaises, Inv, Extends, OnlyArtifacts;
    match d.kind
    case Finish =>
      JudgedKeeps(b, d, w);
      var j := Judged(b, d, w);
      SameBoard(b);
      ReasonKeeps(j, w.text.denied);
      ExtendsTransitive(b, j, j.(reason := w.text.denied));
      if j.AllAccepted() {
        var output := if d.finalOutput.Some? then d.finalOutput.value else map[];
        var reason := OrElse(d.reason, w.text.allPassed);
        AcceptedKeeps(j, output, reason);
        ExtendsTransitive(b, j, Terminated(j.(finalOutput := Some(output)), Finished, reason));
      }
    case NeedTool =>
      ToolsOnly(b, d.tools, |d.tools|, w);
      ToolsKeep(b, d, w);
      JudgedKeeps(RunToolsOn(b, d, w), d, w);
      ExtendsTransitive(b, RunToolsOn(b, d, w), Judged(RunToolsOn(b, d, w), d, w));
    case Continue =>
      RunRoundKeeps(b, d, w);
      var r := RunRoundOn(b, d, w);
      if !r.raised {
        JudgedKeeps(r.board, d, w);
        ExtendsTransitive(b, r.board, Judged(r.board, d, w));
      }
    case Block => TerminatedKeeps(b, Blocked, OrElse(d.reason, w.text.blocked));
    case Fail => TerminatedKeeps(b, Failed, OrElse(d.reason, w.text.failed));
  }

  lemma QueueOf(b: Board)
    requires Inv(b)
    ensures QueueInv(b)
  {}

  lemma AdvancedKeeps(b: Board, types: CommandTypes, catalog: set<string>)
    requires Inv(b)
    ensures Apply(b, types, catalog).Some? && Good(b, Apply(b, types, catalog).value.(round := b.round + 1))
  {
    hide Apply;
    ApplyKeepsInv(b, types, catalog);
  }

  lemma EndRoundKeeps(before: Board, b: Board, w: World, signature: string, repeats: int, maxRepeats: int)
    requires Inv(b) && !b.Terminal()
    ensures var s := EndRound(before, b, w, signature, repeats, maxRepeats);
      && !s.flow.Escape? && Good(b, s.board) && AllGood(b, s.saves)
      && s.saves != [] && s.saves[|s.saves| - 1] == s.board
      && s.board.Terminal() == s.flow.Stop?
      && (s.flow.Next? ==> Progressed(before, s.board) || |s.board.roster| > |b.roster|)
      && (forall a :: a in s.board.roster && a !in b.roster ==> a in w.Catalog())
  {
    hide Apply, World.Catalog, Inv, Extends;
    ApplyKeepsInv(b, w.types, w.Catalog()) by { assert QueueInv(b) by { QueueOf(b); } }
    var c := Apply(b, w.types, w.Catalog()).value.(round := b.round + 1);
    AdvancedKeeps(b, w.types, w.Catalog());
    if c.status == b.status {
      TerminatedKeeps(c, Blocked, w.text.noProgress);
      TerminatedKeeps(c, Blocked, w.text.repeated);
      ExtendsTransitive(b, c, Terminated(c, Blocked, w.text.noProgress));
      ExtendsTransitive(b, c, Terminated(c, Blocked, w.text.repeated));
    }
  }

  lemma CompleteKeeps(b: Board, q: Board, acted: Acted, w: World, signature: string, repeats: int, maxRepeats: int)
    requires Extends(b, q)
    requires acted.GoOn? ==> Good(q, acted.board) && !acted.board.Terminal() && AllGood(q, acted.saves)
    requires acted.Leave? ==> Good(q, acted.step.board) && AllGood(q, acted.step.saves) && !acted.step.flow.Next?
    requires acted.Leave? && acted.step.flow.Stop? ==>
      acted.step.board.Terminal() && acted.step.saves != [] && acted.step.saves[|acted.step.saves| - 1] == acted.step.board
    ensures var s := Complete(acted, b, w, signature, repeats, maxRepeats);
      && Good(b, s.board) && AllGood(b, s.saves)
      && (s.flow.Stop? ==> s.board.Terminal()) && (s.flow.Next? ==> !s.board.Terminal())
      && (!s.flow.Escape? ==> s.saves != [] && s.saves[|s.saves| - 1] == s.board)
  {
    hide EndRound;
    var s := Complete(acted, b, w, signature, repeats, maxRepeats);
    if acted.GoOn? {
      EndRoundKeeps(b, acted.board, w, signature, repeats, maxRepeats);
      ExtendsTransitive(b, q, acted.board);
      ExtendsTransitive(b, acted.board, s.board);
      forall i | 0 <= i < |s.saves| ensures Good(b, s.saves[i]) {
        if i < |acted.saves| {
          ExtendsTransitive(b, q, acted.saves[i]);
        } else {
          ExtendsTransitive(b, acted.board, EndRound(b, acted.board, w, signature, repeats, maxRepeats).saves[i - |acted.saves|]);
        }
      }
    } else {
      ExtendsTransitive(b, q, s.board);
      forall i | 0 <= i < |s.saves| ensures Good(b, s.saves[i]) { ExtendsTransitive(b, q, s.saves[i]); }
    }
  }

  lemma RoundKeeps(b: Board, d: Decision, w: World, g: Guard, maxRepeats: int)
    requires Inv(b) && !b.Terminal()
    ensures var s := Round(b, d, w, g, maxRepeats);
      && Good(b, s.board) && AllGood(b, s.saves)
      && (s.flow.Stop? ==> s.board.Terminal()) && (s.flow.Next? ==> !s.board.Terminal())
      && (!s.flow.Escape? ==> s.saves != [] && s.saves[|s.saves| - 1] == s.board)
  {
    hide Act, Complete, Signature, Inv, Extends, EnqueueAll, AllGood;
    var queued := EnqueueAll(b, d.commands);
    SameBoard(b);
    NoSaves(b);
    if queued.Some? && !SignatureRaises(d) {
      QueuedKeeps(b, d.commands);
      var q := queued.value;
      ActKeeps(q, d, w);
      CompleteKeeps(b, q, Act(q, d, w), w, Signature(d), Repeats(g, Signature(d)), maxRepeats);
    }
  }

  lemma NoSaves(b: Board)
    ensures AllGood(b, [])
  {}

  // ---------------------------------------------------------------- one drive

  lemma SelfGood(b: Board)
    requires Inv(b)
    ensures Good(b, b)
  {}

  /** Every board a drive checkpoints is sound and continues the board it began with. Unless an
      exception escapes, the drive ends in a terminal status and its last save is its result. */
  lemma {:induction false} DriveKeeps(b: Board, w: World, lim: Limits, g: Guard, pe: int)
    requires Inv(b)
    ensures var r := DriveFrom(b, w, lim, g, pe);
      && Good(b, r.board) && AllGood(b, r.saves)
      && (!r.escaped ==> r.board.Terminal())
      && (!r.escaped && !b.Terminal() ==> r.saves != [] && r.saves[|r.saves| - 1] == r.board)
    decreases b.maxRounds - b.round
  {
    hide Round, Decide, Inv, Extends, Signature;
    SelfGood(b);
    if !b.Terminal() {
      TerminatedKeeps(b, Blocked, w.text.maxRounds);
      TerminatedKeeps(b, Failed, w.text.parseBudget);
    }
    if !b.Terminal() && b.round < b.maxRounds {
      var reply := Decide(w, b.round, 0, pe, lim.maxParseErrors);
      if reply.decision.Some? {
        var s := Round(b, reply.decision.value, w, g, lim.maxRepeats);
        RoundKeeps(b, reply.decision.value, w, g, lim.maxRepeats);
        if s.flow.Next? {
          DriveKeeps(s.board, w, lim, s.flow.guard, reply.parseErrors);
          var rest := DriveFrom(s.board, w, lim, s.flow.guard, reply.parseErrors);
          ExtendsTransitive(b, s.board, rest.board);
          forall i | 0 <= i < |rest.saves| ensures Good(b, rest.saves[i]) { ExtendsTransitive(b, s.board, rest.saves[i]); }
        }
      }
    }
  }

  lemma {:induction false} DecideCost(w: World, round: int, attempt: nat, pe: int, maxPe: int)
    ensures var r := Decide(w, round, attempt, pe, maxPe);
      && r.asked - attempt == (r.parseErrors - pe) + (if r.decision.Some? then 1 else 0)
      && pe <= r.parseErrors
      && (r.decision.Some? ==> r.parseErrors == pe || r.parseErrors < maxPe)
      && (r.decision.None? ==> r.parseErrors == Max(pe + 1, maxPe))
    decreases maxPe - pe
  {
    if w.decide(round, attempt).None? && pe + 1 < maxPe { DecideCost(w, round, attempt + 1, pe + 1, maxPe); }
  }

  /** Termination with its price: at most the rounds left, and at most one question per round plus
      the parse errors the budget still allows. `start` is the error count the drive began with. */
  lemma {:induction false} DriveIsBounded(b: Board, w: World, lim: Limits, g: Guard, pe: int, start: int)
    requires start <= pe && (pe == start || pe < lim.maxParseErrors)
    ensures var r := DriveFrom(b, w, lim, g, pe);
      && |r.records| <= Max(0, b.maxRounds - b.round)
      && r.asked == |r.records| + (r.parseErrors - pe)
      && r.parseErrors - start <= Max(1, lim.maxParseErrors - start)
    decreases b.maxRounds - b.round
  {
    hide Round, Decide;
    if !b.Terminal() && b.round < b.maxRounds {
      var reply := Decide(w, b.round, 0, pe, lim.maxParseErrors);
      DecideCost(w, b.round, 0, pe, lim.maxParseErrors);
      if reply.decision.Some? {
        var s := Round(b, reply.decision.value, w, g, lim.maxRepeats);
        if s.flow.Next? { DriveIsBounded(s.board, w, lim, s.flow.guard, reply.parseErrors, start); }
      }
    }
  }

  /** A drive with a fresh budget asks the orchestrator at most max_rounds + max(1, max_parse_errors)
      times, and unless an exception escapes it ends in a terminal status. */
  lemma FreshDriveTerminates(b: Board, w: World, lim: Limits)
    requires Inv(b) && b.round >= 0
    ensures var r := DriveFrom(b, w, lim, Guard(None, 0), 0);
      && |r.records| <= Max(0, b.maxRounds)
      && r.asked <= Max(0, b.maxRounds) + Max(1, lim.maxParseErrors)
      && (r.escaped || r.board.Terminal())
  {
    DriveIsBounded(b, w, lim, Guard(None, 0), 0, 0);
    DriveKeeps(b, w, lim, Guard(None, 0), 0);
  }

  // ---------------------------------------------------------------- exceptions

  /** What makes a decision raise out of the loop: capabilities of a call or evidence of a report row that cannot be
      listed, a command payload that is neither missing nor a mapping, an unauthorised assignment, or a turn that
      breaks off. */
  ghost predicate Escapes(b: Board, d: Decision, w: World) {
    || ReadingRaises(d) || SignatureRaises(d)
    || (d.kind in {Finish, NeedTool, Continue} && ReportRaises(b.checks, d.acceptance))
    || (d.kind.Continue? && EnqueueAll(b, d.commands).Some? && Unruly(EnqueueAll(b, d.commands).value, d, w))
  }

  /** The turns that are saved before a decision raises, or the round ends. */
  function TurnSaves(b: Board, d: Decision, w: World): seq<Board> {
    var q := EnqueueAll(b, d.commands);
    if d.kind.Continue? && !ReadingRaises(d) && !SignatureRaises(d) && q.Some? then RunRoundOn(q.value, d, w).saves else []
  }

  ghost predicate Unruly(b: Board, d: Decision, w: World) {
    var calls := RoundCalls(b, d, w).expanded;
    !Authorised(calls, b) || exists k: nat :: BreaksAt(calls, DoneThisRound(b), k, b.round, w)
  }

  lemma {:induction false} OddPayloadRaises(b: Board, raws: seq<Intent>)
    requires EnqueueAll(b, raws).None?
    ensures exists i :: 0 <= i < |raws| && raws[i].payload.NotAMapping?
  {
    if raws != [] && EnqueueAll(b, raws[..|raws| - 1]).None? { OddPayloadRaises(b, raws[..|raws| - 1]); }
  }

  lemma EscapesIff(b: Board, d: Decision, w: World, g: Guard, maxRepeats: int)
    requires Inv(b) && !b.Terminal()
    ensures var s := Round(b, d, w, g, maxRepeats);
      (s.flow.Escape? <==> Escapes(b, d, w)) && (s.flow.Escape? ==> s.saves == TurnSaves(b, d, w))
  {
    hide RunRoundOn, ToolsUpTo, JudgeRows, Inv, Extends, Signature, EndRound, Unruly, EnqueueAll, Board.AllAccepted, ReportRaises, ReadingRaises,
         SignatureRaises;
    var queued := EnqueueAll(b, d.commands);
    if queued.None? { OddPayloadEscapes(b, d); }
    if queued.Some? && !SignatureRaises(d) && !ReadingRaises(d) {
      QueuedKeeps(b, d.commands);
      var q := queued.value;
      ActKeeps(q, d, w);
      ActRaisesIff(q, d, w);
      var a := Act(q, d, w);
      if a.GoOn? { EndRoundKeeps(b, a.board, w, Signature(d), Repeats(g, Signature(d)), maxRepeats); }
    }
  }

  lemma OddPayloadEscapes(b: Board, d: Decision)
    requires EnqueueAll(b, d.commands).None?
    ensures SignatureRaises(d)
  {
    OddPayloadRaises(b, d.commands);
  }

  lemma ActRaisesIff(b: Board, d: Decision, w: World)
    requires Inv(b) && !b.Terminal()
    ensures var a := Act(b, d, w);
      && (a.Leave? && a.step.flow.Escape? <==>
            (d.kind in {Finish, NeedTool, Continue} && ReportRaises(b.checks, d.acceptance)) || (d.kind.Continue? && Unruly(b, d, w)))
      && (a.Leave? && a.step.flow.Escape? ==> a.step.saves == if d.kind.Continue? then RunRoundOn(b, d, w).saves else [])
  {
    hide RunRoundOn, ToolsUpTo, JudgeRows, Inv, Extends, Unruly, Board.AllAccepted, ReportRaises;
    match d.kind
    case NeedTool => ToolsOnly(b, d.tools, |d.tools|, w);
    case Continue =>
      RunRoundKeeps(b, d, w);
      UnrulyRaises(b, d, w);
    case _ =>
  }

  lemma UnrulyRaises(b: Board, d: Decision, w: World)
    ensures RunRoundOn(b, d, w).raised <==> Unruly(b, d, w)
  {
    RunRoundRaisesIff(b, d, w);
  }

  ghost predicate EscapesAt(r: RoundRecord, w: World) { Escapes(r.before, r.decision, w) }

  ghost predicate SomeEscape(records: seq<RoundRecord>, w: World) { exists k :: 0 <= k < |records| && EscapesAt(records[k], w) }

  lemma SomeEscapeCons(r: RoundRecord, rest: seq<RoundRecord>, w: World)
    ensures SomeEscape([r] + rest, w) <==> EscapesAt(r, w) || SomeEscape(rest, w)
  {
    hide EscapesAt;
    var all := [r] + rest;
    assert all[0] == r && forall k :: 0 <= k < |rest| ==> all[k + 1] == rest[k];
  }

  /** Over a whole drive: an exception leaves it if and only if the decision of some round raises, and that
      round is the last. */
  lemma {:induction false} DriveEscapesIff(b: Board, w: World, lim: Limits, g: Guard, pe: int)
    requires Inv(b)
    ensures var r := DriveFrom(b, w, lim, g, pe);
      && (r.escaped <==> SomeEscape(r.records, w))
      && (forall k :: 0 <= k < |r.records| - 1 ==> !EscapesAt(r.records[k], w))
    decreases b.maxRounds - b.round
  {
    hide Round, Decide, Inv, Extends, Signature, Escapes, SomeEscape;
    NoneEscapes(w);
    if !b.Terminal() && b.round < b.maxRounds {
      var reply := Decide(w, b.round, 0, pe, lim.maxParseErrors);
      if reply.decision.Some? {
        var d := reply.decision.value;
        var s := Round(b, d, w, g, lim.maxRepeats);
        var record := RoundRecord(b, d, Signature(d), |s.board.roster| > |b.roster|);
        EscapesIff(b, d, w, g, lim.maxRepeats);
        RoundKeeps(b, d, w, g, lim.maxRepeats);
        if s.flow.Next? {
          DriveEscapesIff(s.board, w, lim, s.flow.guard, reply.parseErrors);
          SomeEscapeCons(record, DriveFrom(s.board, w, lim, s.flow.guard, reply.parseErrors).records, w);
        } else {
          SomeEscapeCons(record, [], w);
          assert [record] + [] == [record];
        }
      }
    }
  }

  lemma NoneEscapes(w: World)
    ensures !SomeEscape([], w)
  {
  }

  /** Evidence that is a number: whatever else the report and the decision say, if the row names a criterion the
      round raises, after all the turns it runs have been saved. */
  lemma NumericEvidenceEscapes(b: Board, d: Decision, w: World, g: Guard, maxRepeats: int, row: AcceptanceRow)
    requires Inv(b) && !b.Terminal() && d.kind in {Finish, NeedTool, Continue}
    requires row in d.acceptance && row.evidence == JInt(5) && FirstCheck(b.checks, row.id) < |b.checks|
    ensures Round(b, d, w, g, maxRepeats).flow.Escape? && Round(b, d, w, g, maxRepeats).saves == TurnSaves(b, d, w)
  {
    hide Round, TurnSaves, Inv, FirstCheck, Unruly;
    var k :| 0 <= k < |d.acceptance| && d.acceptance[k] == row;
    assert RowRaises(b.checks, d.acceptance[k]);
    EscapesIff(b, d, w, g, maxRepeats);
  }

  /** A command whose payload is null is queued without complaint, and yet no decision that carries it gets
      through the loop. */
  lemma NullPayloadEscapes(b: Board, d: Decision, w: World, g: Guard, maxRepeats: int)
    requires Inv(b) && !b.Terminal() && d.commands == [Intent(ADD_AGENT, "", Falsy)]
    ensures EnqueueAll(b, d.commands).Some? && Round(b, d, w, g, maxRepeats).flow.Escape? && Round(b, d, w, g, maxRepeats).saves == []
  {
    hide Act, EndRound, Signature;
    assert d.commands[..0] == [] && d.commands[0].payload.Falsy?;
  }

  // ---------------------------------------------------------------- who joins

  /** The board a round ends with, from the board its turns and judging left: the pass, then the clock. */
  lemma EndRoundRoster(before: Board, b: Board, w: World, signature: string, repeats: int, maxRepeats: int)
    requires Inv(b)
    ensures Apply(b, w.types, w.Catalog()).Some?
    ensures var s, c := EndRound(before, b, w, signature, repeats, maxRepeats), Apply(b, w.types, w.Catalog()).value;
      s.board.roster == c.roster && s.board.checks == c.checks && s.board.artifacts == c.artifacts && s.board.turns == c.turns
  {
    hide Apply, World.Catalog, Board.AcceptanceSnapshot;
    QueueOf(b);
    ApplyKeepsInv(b, w.types, w.Catalog());
  }

  /** Who is on the roster after a round that no exception leaves: who was, whom a queued command adds, and
      every absent member of a targeted department whose derived key is free. */
  lemma RoundAdmitsIff(b: Board, d: Decision, w: World, g: Guard, maxRepeats: int, m: string)
    requires Inv(b) && !b.Terminal() && d.kind.Continue? && !Round(b, d, w, g, maxRepeats).flow.Escape?
    ensures EnqueueAll(b, d.commands).Some?
    ensures var q := EnqueueAll(b, d.commands).value;
      m in Round(b, d, w, g, maxRepeats).board.roster <==> m in b.roster || Joins(q, d, w, m)
  {
    hide RunRoundOn, JudgeRows, ReportRaises, Signature, EndRound, Joins, Inv, Extends, Apply, EnqueueAll, Targeted, World.Catalog;
    QueuedKeeps(b, d.commands);
    var q := EnqueueAll(b, d.commands).value;
    RunRoundKeeps(q, d, w);
    RoundQueues(q, d, w, m);
    var r := RunRoundOn(q, d, w).board;
    JudgedKeeps(r, d, w);
    EndRoundRoster(b, Judged(r, d, w), w, Signature(d), Repeats(g, Signature(d)), maxRepeats);
    QueueOf(Judged(r, d, w));
    ApplyKeepsInv(Judged(r, d, w), w.types, w.Catalog());
  }

  /** Every absent member of every department a round targets, one by one: it joins exactly when a queued
      command adds it, or its derived key is free. */
  lemma AbsentMemberJoinsIff(b: Board, d: Decision, w: World, g: Guard, maxRepeats: int, m: string)
    requires Inv(b) && !b.Terminal() && d.kind.Continue? && !Round(b, d, w, g, maxRepeats).flow.Escape?
    requires w.registry.Some? && m !in b.roster && DepartmentMember(d.calls, w.registry.value, m)
    ensures EnqueueAll(b, d.commands).Some?
    ensures var q := EnqueueAll(b, d.commands).value;
      m in Round(b, d, w, g, maxRepeats).board.roster <==>
        Targeted(q.pending, w.types, w.Catalog(), m)
        || (AddsNow(w.types) && b.sessionId != "" && Strip(m) == m && !Taken(q, AddKey(m)))
  {
    hide Round, EnqueueAll, Targeted, Taken, Inv;
    RoundAdmitsIff(b, d, w, g, maxRepeats, m);
    var q := EnqueueAll(b, d.commands).value;
    MemberIsInCatalog(d, w, m);
    DeferredIsStripped(q, d, w, m);
  }

  lemma MemberIsInCatalog(d: Decision, w: World, m: string)
    requires w.registry.Some? && DepartmentMember(d.calls, w.registry.value, m)
    ensures m in w.Catalog()
  {
    var i :| 0 <= i < |d.calls| && d.calls[i].kind.DepartmentTarget? && Role(m, d.calls[i].agent) in w.registry.value;
    assert Role(m, d.calls[i].agent).name == m;
  }

  lemma DeferredIsStripped(b: Board, d: Decision, w: World, m: string)
    requires w.registry.Some? && m !in b.roster && DepartmentMember(d.calls, w.registry.value, m)
    ensures Deferred(b, d, w, m) <==> Strip(m) == m
  {
    hide DepartmentMember;
    if Deferred(b, d, w, m) {
      var x :| DepartmentMember(d.calls, w.registry.value, x) && x !in b.roster && Strip(x) == m;
      StripIdempotent(x);
    }
  }

  // ---------------------------------------------------------------- the guards

  /** A round the loop goes on from moved the artifact count, the acceptance or the roster. */
  lemma OnlyProgressGoesOn(b: Board, d: Decision, w: World, g: Guard, maxRepeats: int)
    requires Inv(b) && !b.Terminal() && Round(b, d, w, g, maxRepeats).flow.Next?
    ensures Progressed(b, Round(b, d, w, g, maxRepeats).board)
  {
    hide Act, EndRound, Signature;
    EnqueueKeepsInv(b, d.commands);
    var q := EnqueueAll(b, d.commands).value;
    ActKeeps(q, d, w);
    var a := Act(q, d, w);
    EndRoundKeeps(b, a.board, w, Signature(d), Repeats(g, Signature(d)), maxRepeats);
    assert |a.board.roster| >= |b.roster|;
  }

  /** How the repeat counter moves over a round the loop goes on from. */
  lemma RepeatCounter(b: Board, d: Decision, w: World, g: Guard, maxRepeats: int)
    requires Inv(b) && !b.Terminal() && Round(b, d, w, g, maxRepeats).flow.Next?
    ensures var s := Round(b, d, w, g, maxRepeats);
      && s.flow.guard.lastSignature == Some(Signature(d))
      && s.flow.guard.repeats < maxRepeats
      && (|s.board.roster| == |b.roster| ==> s.flow.guard.repeats == Repeats(g, Signature(d)))
  {
    hide Act, Signature, Apply;
    EnqueueKeepsInv(b, d.commands);
    var q := EnqueueAll(b, d.commands).value;
    ActKeeps(q, d, w);
    var a := Act(q, d, w);
    ApplyKeepsInv(a.board, w.types, w.Catalog());
    assert |a.board.roster| >= |b.roster|;
  }

  /** The first n rounds of a drive all carry one signature and none grows the roster. */
  ghost predicate StuckPrefix(r: Drive, n: nat, signature: string) {
    n <= |r.records| && forall k :: 0 <= k < n ==> r.records[k].signature == signature && !r.records[k].grew
  }

  lemma {:induction false} StuckPrefixIsShort(b: Board, w: World, lim: Limits, g: Guard, pe: int, n: nat, signature: string)
    requires Inv(b) && 0 <= g.repeats && (g.lastSignature.Some? ==> g.repeats < Max(0, lim.maxRepeats))
    requires n > 0 && StuckPrefix(DriveFrom(b, w, lim, g, pe), n, signature)
    ensures n <= Max(0, lim.maxRepeats) + 1 - (if g.lastSignature == Some(signature) then g.repeats + 1 else 0)
    decreases n
  {
    hide Round, Decide, Signature;
    var reply := Decide(w, b.round, 0, pe, lim.maxParseErrors);
    var d := reply.decision.value;
    var s := Round(b, d, w, g, lim.maxRepeats);
    var r := DriveFrom(b, w, lim, g, pe);
    assert r.records[0] == RoundRecord(b, d, Signature(d), |s.board.roster| > |b.roster|);
    RoundKeeps(b, d, w, g, lim.maxRepeats);
    assert |s.board.roster| == |b.roster|;
    if n > 1 {
      RepeatCounter(b, d, w, g, lim.maxRepeats);
      var rest := DriveFrom(s.board, w, lim, s.flow.guard, reply.parseErrors);
      assert forall k :: 0 <= k < n - 1 ==> rest.records[k] == r.records[k + 1];
      StuckPrefixIsShort(s.board, w, lim, s.flow.guard, reply.parseErrors, n - 1, signature);
    }
  }

  /** No window of max_decision_repeats + 2 consecutive rounds repeats one decision without growing
      the roster, wherever in the drive it starts. */
  lemma {:induction false} NoStuckWindow(b: Board, w: World, lim: Limits, g: Guard, pe: int, i: nat, n: nat, signature: string)
    requires Inv(b) && 0 <= g.repeats && (g.lastSignature.Some? ==> g.repeats < Max(0, lim.maxRepeats))
    requires var r := DriveFrom(b, w, lim, g, pe);
      i + n <= |r.records| && forall k :: i <= k < i + n ==> r.records[k].signature == signature && !r.records[k].grew
    ensures n < Max(0, lim.maxRepeats) + 2
    decreases i
  {
    hide Round, Decide, Signature;
    var r := DriveFrom(b, w, lim, g, pe);
    if n == 0 {
    } else if i == 0 {
      StuckPrefixIsShort(b, w, lim, g, pe, n, signature);
    } else {
      var reply := Decide(w, b.round, 0, pe, lim.maxParseErrors);
      var d := reply.decision.value;
      var s := Round(b, d, w, g, lim.maxRepeats);
      RoundKeeps(b, d, w, g, lim.maxRepeats);
      RepeatCounter(b, d, w, g, lim.maxRepeats);
      var rest := DriveFrom(s.board, w, lim, s.flow.guard, reply.parseErrors);
      assert r.records[1..] == rest.records;
      assert forall k :: i - 1 <= k < i - 1 + n ==> rest.records[k] == r.records[k + 1];
      RepeatsNonNegative(b, d, w, g, lim.maxRepeats);
      NoStuckWindow(s.board, w, lim, s.flow.guard, reply.parseErrors, i - 1, n, signature);
    }
  }

  lemma RepeatsNonNegative(b: Board, d: Decision, w: World, g: Guard, maxRepeats: int)
    requires 0 <= g.repeats && Round(b, d, w, g, maxRepeats).flow.Next?
    ensures 0 <= Round(b, d, w, g, maxRepeats).flow.guard.repeats
  {
    hide Act, Signature, Apply;
  }

  /** A run that finishes does so in a round whose decision says finished: the board has that decision's output, or
      the empty one if it has none, and its reason, or the loop's own if it gives none. One whose decision stops it
      has that status and reason. */
  lemma StopsAsDecided(b: Board, d: Decision, w: World, g: Guard, maxRepeats: int)
    requires Inv(b) && !b.Terminal() && Round(b, d, w, g, maxRepeats).flow.Stop?
    ensures var c := Round(b, d, w, g, maxRepeats).board;
      && (c.status == Finished ==>
            && d.kind.Finish? && c.finalOutput == Some(if d.finalOutput.Some? then d.finalOutput.value else map[])
            && c.reason == (if d.reason != "" then d.reason else w.text.allPassed))
      && (c.status == Failed ==> d.kind.Fail? && c.reason == (if d.reason != "" then d.reason else w.text.failed))
      && (c.status != Finished ==> c.finalOutput == b.finalOutput)
      && (d.kind.Block? ==> c.status == Blocked && c.reason == (if d.reason != "" then d.reason else w.text.blocked))
      && c.status in {Finished, Blocked, Failed}
  {
    hide RunRoundOn, ToolsUpTo, JudgeRows, Inv, Extends, EnqueueAll, Apply, World.Catalog, Signature, ReadingRaises, SignatureRaises,
         ReportRaises, Board.AcceptanceSnapshot, Board.AllAccepted;
    QueuedKeeps(b, d.commands);
    var q := EnqueueAll(b, d.commands).value;
    ActKeeps(q, d, w);
    ActOutput(q, d, w);
    var a := Act(q, d, w);
    if a.GoOn? {
      QueueOf(a.board);
      ApplyKeepsInv(a.board, w.types, w.Catalog());
    }
  }

  /** A finish is granted if and only if there are criteria and each of them, after the report that comes with it, is
      passed on some evidence. A denied one goes on with the denial as its reason; so does every decision that does
      not stop the run, under review, with its reason kept. */
  lemma FinishGrantedIff(b: Board, d: Decision, w: World)
    ensures var a, judged := Act(b, d, w), JudgeRows(b.checks, d.acceptance, b.artifacts.Keys, w.host);
      && (d.kind.Finish? && !ReportRaises(b.checks, d.acceptance) ==>
            (a.Leave? <==> judged != [] && forall i :: 0 <= i < |judged| ==> judged[i].status == "passed" && judged[i].evidence != []))
      && (a.GoOn? ==> a.board.status == ReviewingAc)
      && (a.GoOn? && d.kind.Finish? ==> a.board.reason == w.text.denied && a.board.checks == judged && a.saves == [])
  {
    hide RunRoundOn, ToolsUpTo, JudgeRows, ReportRaises;
  }

  lemma ActOutput(b: Board, d: Decision, w: World)
    requires Inv(b) && !b.Terminal()
    ensures var a := Act(b, d, w);
      && (a.GoOn? ==> a.board.finalOutput == b.finalOutput)
      && (a.Leave? && a.step.board.status != Finished && !a.step.flow.Escape? ==> a.step.board.finalOutput == b.finalOutput)
  {
    hide RunRoundOn, ToolsUpTo, JudgeRows, Inv, Extends, ReportRaises, Board.AllAccepted;
    if d.kind.NeedTool? { ToolsOnly(b, d.tools, |d.tools|, w); }
    if d.kind.Continue? { RunRoundOutput(b, d, w); }
  }

  lemma RunRoundOutput(b: Board, d: Decision, w: World)
    ensures RunRoundOn(b, d, w).board.finalOutput == b.finalOutput
  {
    hide AllTurns, EnqueueAll, RoundCalls, DoneThisRound, Authorised;
    var e := RoundCalls(b, d, w);
    var q := EnqueueAll(b, AddIntents(e.toAdmit));
    if q.Some? { TurnsOutput(Progress(q.value, DoneThisRound(b), [], false), e.expanded, |e.expanded|, w); }
  }

  lemma {:induction false} TurnsOutput(p: Progress, calls: seq<Assignment>, k: nat, w: World)
    requires k <= |calls|
    ensures AllTurns(p, calls, k, w).board.finalOutput == p.board.finalOutput
  {
    hide TurnBoard, Broken;
    if k > 0 {
      TurnsOutput(p, calls, k - 1, w);
      var q, reply := AllTurns(p, calls, k - 1, w), w.turn(p.board.round, k - 1);
      if !Broken(calls[k - 1].agent, reply) { TurnOutput(q.board, calls[k - 1].agent, reply); }
    }
  }

  lemma TurnOutput(b: Board, agent: string, reply: TurnReply)
    requires !Broken(agent, reply)
    ensures reply.Packet? && reply.worker.Worker? && TurnBoard(b, agent, reply.body, reply.worker).finalOutput == b.finalOutput
  {
    hide AddWorkerArtifacts;
    WorkerArtifactsOnly(b.WithArtifact(NextId(CONTEXT_PACKET, b), reply.body), agent, reply.worker.artifacts);
  }

  // ---------------------------------------------------------------- crashes and resumes

  /** One life of the process: what the outside answered, its limits, and how many of its saves had
      reached the disk when it died (any number past the last save means it did not die). */
  datatype Life = Life(world: World, limits: Limits, survived: nat)

  /** The checkpoint after one more life. A terminal checkpoint is never driven again. */
  function Survive(d: Board, life: Life): Board {
    var saves := DriveFrom(Persisted(d), life.world, life.limits, Guard(None, 0), 0).saves;
    var k := if life.survived < |saves| then life.survived else |saves|;
    if k == 0 then d else saves[k - 1]
  }

  /** The checkpoint after a whole history of crashes and resumes. */
  function Durable(first: Board, lives: seq<Life>): Board {
    if lives == [] then first else Survive(Durable(first, lives[..|lives| - 1]), lives[|lives| - 1])
  }

  lemma PersistedKeeps(b: Board)
    requires Inv(b)
    ensures Good(b, Persisted(b)) && (!b.Terminal() ==> Persisted(b) == b)
  {}

  /** Whatever the answers and wherever the crashes fall, the checkpoint is sound and continues the
      first one: the roster grew by appending without duplicates, no (round, agent) pair ran twice,
      every turn is a member's and none is later than the current round, and what turns and tool results
      cite is on the board. */
  lemma {:induction false} DurableKeeps(first: Board, lives: seq<Life>)
    requires Inv(first)
    ensures Good(first, Durable(first, lives))
  {
    hide DriveFrom;
    if lives != [] {
      var d, life := Durable(first, lives[..|lives| - 1]), lives[|lives| - 1];
      DurableKeeps(first, lives[..|lives| - 1]);
      PersistedKeeps(d);
      DriveKeeps(Persisted(d), life.world, life.limits, Guard(None, 0), 0);
      ExtendsTransitive(first, d, Persisted(d));
      ExtendsTransitive(first, Persisted(d), Durable(first, lives));
    }
  }

  /** The first checkpoint of a run whose criteria all start pending. */
  ghost predicate Start(first: Board, criteria: seq<Check>) {
    && (forall i :: 0 <= i < |criteria| ==> criteria[i].status == "pending")
    && exists sid, tid, maxRounds, plan, record, catalog: set<string> ::
         Composed(NewBoard(sid, tid, maxRounds, criteria), plan, record, catalog) == Some(first)
  }

  lemma StartIsSound(first: Board, criteria: seq<Check>)
    requires Start(first, criteria)
    ensures Inv(first) && IdsBounded(first) && first.checks == criteria && !first.Terminal()
  {
    var sid, tid, maxRounds, plan, record, catalog: set<string> :|
      Composed(NewBoard(sid, tid, maxRounds, criteria), plan, record, catalog) == Some(first);
    var b := NewBoard(sid, tid, maxRounds, criteria);
    NextIdIsFresh(SESSION_PLAN, b, record);
    assert "pending" != "passed";
  }

  /** A run is FINISHED only with a non-empty list of criteria, pairwise distinct, every one passed on
      evidence that is on the board. */
  lemma FinishedMeansEvidence(first: Board, criteria: seq<Check>, lives: seq<Life>)
    requires Start(first, criteria) && Durable(first, lives).status == Finished
    ensures var d := Durable(first, lives);
      && criteria != [] && SameIds(criteria, d.checks)
      && (forall i :: 0 <= i < |d.checks| ==> d.checks[i].status == "passed" && d.checks[i].evidence != [])
      && (forall i, e :: 0 <= i < |d.checks| && e in d.checks[i].evidence ==> e in d.artifacts)
      && (forall i, j :: 0 <= i < j < |criteria| ==> criteria[i].id != criteria[j].id)
  {
    hide Durable;
    StartIsSound(first, criteria);
    DurableKeeps(first, lives);
  }

  /** Two criteria under one id can never both pass, so such a run never finishes. */
  lemma DuplicateCriteriaNeverFinish(first: Board, criteria: seq<Check>, lives: seq<Life>, i: nat, j: nat)
    requires Start(first, criteria) && i < j < |criteria| && criteria[i].id == criteria[j].id
    ensures Durable(first, lives).status != Finished
  {
    hide Durable;
    if Durable(first, lives).status == Finished { FinishedMeansEvidence(first, criteria, lives); }
  }

  /** Loading a checkpoint gives back the saved board: exactly on every non-terminal one, and up to an
      empty final output on a terminal one. */
  lemma CheckpointRoundTrips(first: Board, criteria: seq<Check>, lives: seq<Life>)
    requires Start(first, criteria)
    ensures var d := Durable(first, lives);
      && DecodeBoard(EncodeBoard(d)) == Some(Persisted(d))
      && (!d.Terminal() ==> DecodeBoard(EncodeBoard(d)) == Some(d))
  {
    hide Durable, DecodeBoard, EncodeBoard;
    StartIsSound(first, criteria);
    DurableKeeps(first, lives);
    BoardRoundTrips(Durable(first, lives));
  }

  // ---------------------------------------------------------------- records survive

  ghost predicate AllSafe(b: Board, saves: seq<Board>, guarded: set<string>) { forall i :: 0 <= i < |saves| ==> RecordsSafe(b, saves[i], guarded) }

  lemma ActSafe(b: Board, d: Decision, w: World, guarded: set<string>)
    requires IdsBounded(b) && QueueInv(b) && CleanWorld(w, guarded)
    ensures var a := Act(b, d, w);
      && (a.GoOn? ==> RecordsSafe(b, a.board, guarded) && AllSafe(b, a.saves, guarded))
      && (a.Leave? ==> RecordsSafe(b, a.step.board, guarded) && AllSafe(b, a.step.saves, guarded))
  {
    hide RunRoundOn, ToolsUpTo, IdsBounded, KeepsRecords, JudgeRows;
    assert RecordsSafe(b, b, guarded) by { NothingLost(b, guarded); }
    match d.kind
    case Finish => SameArtifactsSafe(b, b, Act(b, d, w).BoardOf(), guarded);
    case NeedTool =>
      ToolsSafe(b, d.tools, |d.tools|, w, guarded);
      SameArtifactsSafe(b, ToolsUpTo(b, d.tools, |d.tools|, w), Act(b, d, w).BoardOf(), guarded);
    case Continue =>
      RunRoundSafe(b, d, w, guarded);
      SameArtifactsSafe(b, RunRoundOn(b, d, w).board, Act(b, d, w).BoardOf(), guarded);
    case Block => SameArtifactsSafe(b, b, Act(b, d, w).BoardOf(), guarded);
    case Fail => SameArtifactsSafe(b, b, Act(b, d, w).BoardOf(), guarded);
  }

  lemma RoundSafe(b: Board, d: Decision, w: World, g: Guard, maxRepeats: int, guarded: set<string>)
    requires Inv(b) && !b.Terminal() && IdsBounded(b) && CleanWorld(w, guarded)
    ensures var s := Round(b, d, w, g, maxRepeats);
      RecordsSafe(b, s.board, guarded) && AllSafe(b, s.saves, guarded)
  {
    hide Act, Complete, Signature, IdsBounded, RecordsSafe, CleanWorld, Inv, EnqueueAll, Extends;
    var queued := EnqueueAll(b, d.commands);
    NothingLost(b, guarded);
    if queued.Some? && !SignatureRaises(d) {
      QueuedKeeps(b, d.commands);
      var q := queued.value;
      SameArtifactsSafe(b, b, q, guarded);
      CompleteSafe(b, q, d, w, Signature(d), Repeats(g, Signature(d)), maxRepeats, guarded);
    }
  }

  lemma CompleteSafe(b: Board, q: Board, d: Decision, w: World, signature: string, repeats: int, maxRepeats: int, guarded: set<string>)
    requires Inv(q) && !q.Terminal() && RecordsSafe(b, q, guarded) && CleanWorld(w, guarded)
    ensures var s := Complete(Act(q, d, w), b, w, signature, repeats, maxRepeats);
      RecordsSafe(b, s.board, guarded) && AllSafe(b, s.saves, guarded)
  {
    hide Act, EndRound, IdsBounded, RecordsSafe, CleanWorld, Inv, Extends;
    SafeIsBounded(b, q, guarded);
    QueueOf(q);
    ActKeeps(q, d, w);
    ActSafe(q, d, w, guarded);
    var a, s := Act(q, d, w), Complete(Act(q, d, w), b, w, signature, repeats, maxRepeats);
    if a.GoOn? {
      RecordsSafeTransitive(b, q, a.board, guarded);
      EndRoundSafe(b, b, a.board, w, signature, repeats, maxRepeats, guarded);
      forall i | 0 <= i < |s.saves| ensures RecordsSafe(b, s.saves[i], guarded) {
        if i < |a.saves| { RecordsSafeTransitive(b, q, a.saves[i], guarded); }
      }
    } else {
      RecordsSafeTransitive(b, q, a.step.board, guarded);
      forall i | 0 <= i < |s.saves| ensures RecordsSafe(b, s.saves[i], guarded) { RecordsSafeTransitive(b, q, a.step.saves[i], guarded); }
    }
  }

  /** The end of a round touches no artifact. */
  lemma EndRoundSafe(b: Board, before: Board, c: Board, w: World, signature: string, repeats: int, maxRepeats: int, guarded: set<string>)
    requires RecordsSafe(b, c, guarded) && Inv(c)
    ensures var s := EndRound(before, c, w, signature, repeats, maxRepeats); RecordsSafe(b, s.board, guarded) && AllSafe(b, s.saves, guarded)
  {
    hide Apply, RecordsSafe, Inv, World.Catalog, Board.AcceptanceSnapshot;
    QueueOf(c);
    ApplyKeepsInv(c, w.types, w.Catalog());
    var s := EndRound(before, c, w, signature, repeats, maxRepeats);
    SameArtifactsSafe(b, c, s.board, guarded);
    forall i | 0 <= i < |s.saves| ensures RecordsSafe(b, s.saves[i], guarded) { SameArtifactsSafe(b, c, s.saves[i], guarded); }
  }

  lemma {:induction false} DriveSafe(b: Board, w: World, lim: Limits, g: Guard, pe: int, guarded: set<string>)
    requires Inv(b) && IdsBounded(b) && CleanWorld(w, guarded)
    ensures AllSafe(b, DriveFrom(b, w, lim, g, pe).saves, guarded)
    decreases b.maxRounds - b.round
  {
    hide Round, Decide, IdsBounded, KeepsRecords, CleanWorld;
    NothingLost(b, guarded);
    if !b.Terminal() {
      SameArtifactsSafe(b, b, Terminated(b, Blocked, w.text.maxRounds), guarded);
      SameArtifactsSafe(b, b, Terminated(b, Failed, w.text.parseBudget), guarded);
    }
    if !b.Terminal() && b.round < b.maxRounds {
      var reply := Decide(w, b.round, 0, pe, lim.maxParseErrors);
      if reply.decision.Some? {
        var s := Round(b, reply.decision.value, w, g, lim.maxRepeats);
        RoundSafe(b, reply.decision.value, w, g, lim.maxRepeats, guarded);
        RoundKeeps(b, reply.decision.value, w, g, lim.maxRepeats);
        if s.flow.Next? {
          DriveSafe(s.board, w, lim, s.flow.guard, reply.parseErrors, guarded);
          var rest := DriveFrom(s.board, w, lim, s.flow.guard, reply.parseErrors);
          forall i | 0 <= i < |rest.saves| ensures RecordsSafe(b, rest.saves[i], guarded) { RecordsSafeTransitive(b, s.board, rest.saves[i], guarded); }
        }
      }
    }
  }

  /** If no worker returns an id of the loop's own shape or a guarded one, then across any crashes and resumes
      every generated record and every guarded artifact that was on the board is still there, unchanged. */
  lemma {:induction false} GuardedRecordsSurvive(first: Board, lives: seq<Life>, guarded: set<string>)
    requires Inv(first) && IdsBounded(first)
    requires forall i :: 0 <= i < |lives| ==> CleanWorld(lives[i].world, guarded)
    ensures RecordsSafe(first, Durable(first, lives), guarded)
  {
    hide DriveFrom, IdsBounded, KeepsRecords, CleanWorld;
    NothingLost(first, guarded);
    if lives != [] {
      var d, life := Durable(first, lives[..|lives| - 1]), lives[|lives| - 1];
      DurableKeeps(first, lives[..|lives| - 1]);
      GuardedRecordsSurvive(first, lives[..|lives| - 1], guarded);
      PersistedKeeps(d);
      SameArtifactsBounded(d, Persisted(d));
      DriveSafe(Persisted(d), life.world, life.limits, Guard(None, 0), 0, guarded);
      SameArtifactsSafe(first, d, Persisted(d), guarded);
      if Durable(first, lives) != d { RecordsSafeTransitive(first, Persisted(d), Durable(first, lives), guarded); }
    }
  }

  /** What the passed checks of a board cite. */
  function EvidenceOf(b: Board): set<string> {
    set i, e | 0 <= i < |b.checks| && b.checks[i].status == "passed" && e in b.checks[i].evidence :: e
  }

  /** From a checkpoint on, the evidence its passed criteria cite stays what it was as long as no worker returns
      one of those ids again, or an id of the loop's own shape. */
  lemma EvidenceSurvives(first: Board, lives: seq<Life>, i: nat, e: string)
    requires Inv(first) && IdsBounded(first)
    requires forall k :: 0 <= k < |lives| ==> CleanWorld(lives[k].world, EvidenceOf(first))
    requires i < |first.checks| && first.checks[i].status == "passed" && e in first.checks[i].evidence
    ensures e in first.artifacts && e in Durable(first, lives).artifacts && Durable(first, lives).artifacts[e] == first.artifacts[e]
  {
    hide Durable, CleanWorld;
    GuardedRecordsSurvive(first, lives, EvidenceOf(first));
    assert e in EvidenceOf(first) && Grounded(first.checks[i], first.artifacts.Keys);
  }
}
