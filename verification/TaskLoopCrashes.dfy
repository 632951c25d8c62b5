/** What dying between two saves of a round costs, exactly: the resumed life, given the same answers, against the
    life that did not die. */
module TaskLoopCrashes {
  import opened Text
  import opened Discipline
  import opened TaskBoard
  import opened Departments
  import opened CommandBridge
  import opened Rounds
  import opened Turns
  import opened BoardInvariants
  import opened TaskLoop
  import opened TaskLoopRuns

  // ---------------------------------------------------------------- a round that is run again

  ghost predicate Covers(b: Board, x: Board) { x.sessionId == b.sessionId && forall k :: Taken(b, k) ==> Taken(x, k) }

  lemma EnqueueCovers(b: Board, raws: seq<Intent>)
    requires QueueInv(b) && EnqueueAll(b, raws).Some?
    ensures Covers(b, EnqueueAll(b, raws).value)
  {
    EnqueueKeepsInv(b, raws);
    var q := EnqueueAll(b, raws).value;
    forall k | Taken(b, k) ensures Taken(q, k) {
      if i :| 0 <= i < |b.pending| && b.pending[i].key == k { assert q.pending[i].key == k; }
    }
  }

  /** Queueing what is queued or applied already changes nothing. */
  lemma {:induction false} EnqueueAgain(b: Board, raws: seq<Intent>, x: Board)
    requires EnqueueAll(b, raws).Some? && Covers(EnqueueAll(b, raws).value, x)
    ensures EnqueueAll(x, raws) == Some(x)
  {
    hide Taken, ToCommand;
    if raws != [] {
      var front, raw := raws[..|raws| - 1], raws[|raws| - 1];
      var f := EnqueueAll(b, front).value;
      var t := ToCommand(raw, f.sessionId);
      if t.Translated? { TakenAfterPush(f, t.command); }
      EnqueueAgain(b, front, x);
    }
  }

  /** The turn that save number `k` of a batch belongs to. */
  lemma {:induction false} SaveAt(p0: Progress, calls: seq<Assignment>, n: nat, w: World, k: nat) returns (j: nat)
    requires p0.saves == [] && n <= |calls| && 0 < k <= |AllTurns(p0, calls, n, w).saves|
    ensures j <= n
    ensures var p := AllTurns(p0, calls, j, w);
      !p.raised && |p.saves| == k && p.board == p.saves[k - 1] && p.saves <= AllTurns(p0, calls, n, w).saves
  {
    hide TurnBoard, Broken;
    if k <= |AllTurns(p0, calls, n - 1, w).saves| {
      j := SaveAt(p0, calls, n - 1, w, k);
    } else {
      j := n;
    }
  }

  lemma {:induction false} SkippedPrefix(p: Progress, calls: seq<Assignment>, k: nat, w: World)
    requires k <= |calls| && forall i :: 0 <= i < k ==> calls[i].agent in p.done
    ensures AllTurns(p, calls, k, w) == p
  {
    if k > 0 { SkippedPrefix(p, calls, k - 1, w); }
  }

  /** A batch taken up again where turn `j` left it: the turns done are skipped, the others are the same. */
  lemma {:induction false} TurnsAgain(p0: Progress, calls: seq<Assignment>, j: nat, i: nat, w: World)
    requires j <= i <= |calls| && p0.saves == [] && !p0.raised && !AllTurns(p0, calls, j, w).raised
    ensures var p, q := AllTurns(p0, calls, j, w), AllTurns(p0, calls, i, w);
      && p.saves <= q.saves
      && AllTurns(p.(saves := []), calls, i, w) == q.(saves := q.saves[|p.saves|..])
    decreases i
  {
    hide TurnBoard, Broken;
    var p := AllTurns(p0, calls, j, w);
    if i == j {
      AllTurnsRaiseIff(p0, calls, j, w);
      SkippedPrefix(p.(saves := []), calls, j, w);
    } else {
      TurnsAgain(p0, calls, j, i - 1, w);
      TurnsClock(p0, calls, j, w);
    }
  }

  /** A round run again on one of its own saves runs the turns that are left, ends on the same board and by the
      same way, and saves what was not saved yet. */
  lemma RoundAgain(b: Board, d: Decision, w: World, k: nat)
    requires Inv(b) && !b.Terminal() && 0 < k <= |RunRoundOn(b, d, w).saves|
    ensures var r := RunRoundOn(b, d, w); var x := r.saves[k - 1];
      && RunRoundOn(x, d, w) == RoundResult(r.board, r.saves[k..], r.raised)
      && Inv(x) && x == b.(turns := x.turns, artifacts := x.artifacts, toolResults := x.toolResults, pending := x.pending) && Covers(b, x)
  {
    hide AllTurns, EnqueueAll, RoundCalls, DoneThisRound, Inv, Extends, Chained, Taken;
    var calls, raws := RoundCalls(b, d, w).expanded, AddIntents(RoundCalls(b, d, w).toAdmit);
    MembersQueue(b, RoundCalls(b, d, w).toAdmit);
    QueuedKeeps(b, raws);
    QueueOf(b);
    EnqueueCovers(b, raws);
    var q := EnqueueAll(b, raws).value;
    var p0 := Progress(q, DoneThisRound(q), [], false);
    var j := SaveAt(p0, calls, |calls|, w, k);
    TurnsAgain(p0, calls, j, |calls|, w);
    RosterAuthorises(b, q, calls);
    AllTurnsKeep(q, calls, j, w);
    var p := AllTurns(p0, calls, j, w);
    var x := p.board;
    SameTaken(q, x);
    EnqueueAgain(b, raws, x);
    SameCalls(b, x, d, w);
    RosterAuthorises(b, x, calls);
  }

  lemma SameTaken(b: Board, x: Board)
    requires x.pending == b.pending && x.applied == b.applied && x.sessionId == b.sessionId
    ensures Covers(b, x) && forall k :: Taken(x, k) <==> Taken(b, k)
  {
  }

  lemma SameCalls(b: Board, x: Board, d: Decision, w: World)
    requires x.roster == b.roster
    ensures RoundCalls(x, d, w) == RoundCalls(b, d, w)
  {
    assert Selected(x) == Selected(b);
  }

  // ---------------------------------------------------------------- the same decision on a save of its round

  /** Save number `k` of a round while its turns run; the board it began with before any. */
  function SaveIn(b: Board, d: Decision, w: World, k: nat): Board
    requires k <= |TurnSaves(b, d, w)|
  {
    if k == 0 then b else TurnSaves(b, d, w)[k - 1]
  }

  /** The decision is read, queued and acted on without leaving the loop. */
  predicate Closes(b: Board, d: Decision, w: World) {
    !ReadingRaises(d) && !SignatureRaises(d) && EnqueueAll(b, d.commands).Some? && Act(EnqueueAll(b, d.commands).value, d, w).GoOn?
  }

  /** The board on which the round is over, before anything queued is applied. */
  function BeforeClosing(b: Board, d: Decision, w: World): Board
    requires Closes(b, d, w)
  {
    Act(EnqueueAll(b, d.commands).value, d, w).board
  }

  lemma ActAgain(b: Board, d: Decision, w: World, k: nat)
    requires Inv(b) && !b.Terminal() && 0 < k <= |TurnSaves(b, d, w)|
    ensures EnqueueAll(b, d.commands).Some?
    ensures var x := SaveIn(b, d, w, k); var a, again := Act(EnqueueAll(b, d.commands).value, d, w), Act(x, d, w);
      && Inv(x) && !x.Terminal() && x.roster == b.roster && x.checks == b.checks && x.round == b.round && x.maxRounds == b.maxRounds
      && EnqueueAll(x, d.commands) == Some(x) && |TurnSaves(b, d, w)| == |if a.GoOn? then a.saves else a.step.saves|
      && again == if a.GoOn? then GoOn(a.board, a.saves[k..]) else Leave(a.step.(saves := a.step.saves[k..]))
  {
    hide RunRoundOn, EnqueueAll, Inv, Extends, ReportRaises, JudgeRows, Taken, SignatureRaises, ReadingRaises;
    QueuedKeeps(b, d.commands);
    var q := EnqueueAll(b, d.commands).value;
    RoundAgain(q, d, w, k);
    RunRoundKeeps(q, d, w);
    var x := RunRoundOn(q, d, w).saves[k - 1];
    EnqueueAgain(b, d.commands, x);
  }

  /** Whether the loop would call the round a repeat too many. */
  predicate Tired(grew: bool, repeats: int, maxRepeats: int) { (if grew then 0 else repeats) >= maxRepeats }

  /** The loop stands at the same place: same board, same way out. */
  predicate SamePlace(s: Step, t: Step) { s.board == t.board && (s.flow.Next? <==> t.flow.Next?) && (s.flow.Escape? <==> t.flow.Escape?) }

  /** When two ends on the board `c` leave the loop at one place: both count as progress or neither, and if they do,
      both are a repeat too many or neither. */
  predicate Agree(before: Board, m: int, x: Board, n: int, c: Board, grew: bool, maxRepeats: int) {
    && (Progressed(before, c) <==> Progressed(x, c))
    && (Progressed(before, c) ==> (Tired(grew, m, maxRepeats) <==> Tired(grew, n, maxRepeats)))
  }

  /** What two ends of one round say to each other, if they differ in what they are measured against. */
  ghost predicate EndsAgree(s: Step, before: Board, m: int, t: Step, x: Board, n: int, c: Board, grew: bool, maxRepeats: int, text: Wording) {
    && !c.Terminal() && (SamePlace(s, t) <==> Agree(before, m, x, n, c, grew, maxRepeats))
    && (SamePlace(s, t) ==> (s.flow == t.flow <==> (s.flow.Next? ==> grew || m == n)))
    && (!Progressed(x, c) ==> t.board == Terminated(c, Blocked, text.noProgress))
  }

  lemma TwoVerdicts(before: Board, x: Board, c: Board, grew: bool, text: Wording, signature: string, m: int, n: int, maxRepeats: int)
    requires !c.Terminal() && text.noProgress != text.repeated
    requires grew == (|c.roster| > |before.roster|) == (|c.roster| > |x.roster|)
    ensures var s := SaveAndGuard(before, c, grew, text, signature, m, maxRepeats);
      var t := SaveAndGuard(x, c, grew, text, signature, n, maxRepeats);
      && s.saves != [] && t.saves != [] && s.saves[0] == c == t.saves[0]
      && EndsAgree(s, before, m, t, x, n, c, grew, maxRepeats, text)
  {
    hide Board.AcceptanceSnapshot;
  }

  /** The board a round is saved with when it closes. */
  function ClosedOn(b: Board, w: World): Board {
    var applied := Apply(b, w.types, w.Catalog());
    (if applied.Some? then applied.value else b).(round := b.round + 1)
  }

  lemma TwoEnds(before: Board, x: Board, b: Board, w: World, signature: string, m: int, n: int, maxRepeats: int)
    requires Inv(b) && !b.Terminal() && before.roster == x.roster == b.roster && w.text.noProgress != w.text.repeated
    ensures var c := ClosedOn(b, w);
      var s, t := EndRound(before, b, w, signature, m, maxRepeats), EndRound(x, b, w, signature, n, maxRepeats);
      && s.saves != [] && t.saves != [] && s.saves[0] == c == t.saves[0]
      && EndsAgree(s, before, m, t, x, n, c, |c.roster| > |b.roster|, maxRepeats, w.text)
  {
    hide Apply, World.Catalog, SaveAndGuard, EndsAgree, Inv, QueueInv;
    QueueOf(b);
    ApplyKeepsInv(b, w.types, w.Catalog());
    var c := ClosedOn(b, w);
    EndRoundParts(before, b, w, signature, m, maxRepeats);
    EndRoundParts(x, b, w, signature, n, maxRepeats);
    TwoVerdicts(before, x, c, |c.roster| > |b.roster|, w.text, signature, m, n, maxRepeats);
  }

  lemma ActRoster(b: Board, d: Decision, w: World)
    requires Inv(b) && !b.Terminal() && Act(b, d, w).GoOn?
    ensures Act(b, d, w).board.roster == b.roster
    ensures Act(b, d, w).saves == if d.kind.Continue? then RunRoundOn(b, d, w).saves else []
  {
    hide RunRoundOn, ToolsUpTo, JudgeRows, ReportRaises, Inv, Extends, Board.AllAccepted;
    if d.kind.NeedTool? { ToolsOnly(b, d.tools, |d.tools|, w); }
    if d.kind.Continue? { RunRoundKeeps(b, d, w); }
  }

  lemma SavesDoNotMatter(s: Step, before: Board, m: int, t: Step, x: Board, n: int, c: Board, grew: bool, maxRepeats: int, text: Wording,
    more: seq<Board>, others: seq<Board>)
    requires EndsAgree(s, before, m, t, x, n, c, grew, maxRepeats, text)
    ensures EndsAgree(s.(saves := more), before, m, t.(saves := others), x, n, c, grew, maxRepeats, text)
  {
    hide Progressed, Tired;
  }

  /** The two lives run the same turns, between them, and close the round with one board. */
  ghost predicate SameClosing(s: Step, t: Step, turns: seq<Board>, k: nat, c: Board) {
    k <= |turns| && turns + [c] <= s.saves && turns[k..] + [c] <= t.saves
  }

  lemma ClosingFollows(s: Step, t: Step, turns: seq<Board>, k: nat, c: Board, e: seq<Board>, f: seq<Board>)
    requires k <= |turns| && s.saves == turns + e && t.saves == turns[k..] + f && e != [] && f != [] && e[0] == c == f[0]
    ensures SameClosing(s, t, turns, k, c)
  {
  }

  /** The round that is closed twice: what the two lives close it with is one board. What it is measured against
      and how often the decision has been repeated are not the same, and that alone can part them. */
  lemma ResumedRoundIff(b: Board, d: Decision, w: World, g: Guard, maxRepeats: int, k: nat)
    requires Inv(b) && !b.Terminal() && k <= |TurnSaves(b, d, w)| && w.text.noProgress != w.text.repeated
    ensures var x := SaveIn(b, d, w, k);
      var s, t := Round(b, d, w, g, maxRepeats), Round(x, d, w, Guard(None, 0), maxRepeats);
      if !Closes(b, d, w) then SamePlace(s, t)
      else
        var c := ClosedOn(BeforeClosing(b, d, w), w);
        SameClosing(s, t, TurnSaves(b, d, w), k, c)
        && EndsAgree(s, b, Repeats(g, Signature(d)), t, x, 0, c, |c.roster| > |b.roster|, maxRepeats, w.text)
  {
    hide Act, EndRound, EnqueueAll, Signature, Inv, Extends, SignatureRaises, ReadingRaises, EndsAgree, SameClosing, ClosedOn;
    if k > 0 { ActAgain(b, d, w, k); }
    if Closes(b, d, w) {
      QueuedKeeps(b, d.commands);
      var q := EnqueueAll(b, d.commands).value;
      ActKeeps(q, d, w);
      var x, sig := SaveIn(b, d, w, k), Signature(d);
      var a := Act(q, d, w);
      var s, t := Round(b, d, w, g, maxRepeats), Round(x, d, w, Guard(None, 0), maxRepeats);
      var e, f := EndRound(b, a.board, w, sig, Repeats(g, sig), maxRepeats), EndRound(x, a.board, w, sig, 0, maxRepeats);
      ActRoster(q, d, w);
      TwoEnds(b, x, a.board, w, sig, Repeats(g, sig), 0, maxRepeats);
      var c := ClosedOn(a.board, w);
      SavesDoNotMatter(e, b, Repeats(g, sig), f, x, 0, c, |c.roster| > |b.roster|, maxRepeats, w.text, s.saves, t.saves);
      ClosingFollows(s, t, TurnSaves(b, d, w), k, c, e.saves, f.saves);
    }
  }

  // ---------------------------------------------------------------- in terms of the decision

  /** The report changes the acceptance snapshot, on the board the turns leave. */
  predicate Reports(b: Board, d: Decision, w: World) {
    Closes(b, d, w) && BeforeClosing(b, d, w).AcceptanceSnapshot() != b.AcceptanceSnapshot()
  }

  /** Somebody joins when the round closes. */
  ghost predicate Recruits(b: Board, d: Decision, w: World) {
    EnqueueAll(b, d.commands).Some? && exists m :: m !in b.roster && Joins(EnqueueAll(b, d.commands).value, d, w, m)
  }

  lemma GrowsIff(before: seq<string>, after: seq<string>)
    requires before <= after && Distinct(after)
    ensures |after| > |before| <==> exists m :: m in after && m !in before
  {
    if |after| > |before| { assert after[|before|] in after; }
  }

  lemma ClosedParts(b: Board, w: World)
    requires Inv(b)
    ensures var c := ClosedOn(b, w); Inv(c) && c.artifacts == b.artifacts && c.AcceptanceSnapshot() == b.AcceptanceSnapshot() && b.roster <= c.roster
    ensures var c := ClosedOn(b, w); c.turns == b.turns && c.round == b.round + 1 && c.status == b.status && c.maxRounds == b.maxRounds
  {
    hide Apply, World.Catalog;
    QueueOf(b);
    ApplyKeepsInv(b, w.types, w.Catalog());
    AdvancedKeeps(b, w.types, w.Catalog());
  }

  lemma SettledRound(b: Board, d: Decision, w: World)
    requires Inv(b) && !b.Terminal() && d.kind.Continue? && !Escapes(b, d, w)
    ensures Closes(b, d, w) && EnqueueAll(b, d.commands).Some?
    ensures var q := EnqueueAll(b, d.commands).value; var r := RunRoundOn(q, d, w);
      && Inv(q) && !q.Terminal() && q == b.(pending := q.pending)
      && !r.raised && r.saves == TurnSaves(b, d, w) && BeforeClosing(b, d, w) == Judged(r.board, d, w)
      && Inv(BeforeClosing(b, d, w)) && !BeforeClosing(b, d, w).Terminal() && BeforeClosing(b, d, w).roster == b.roster
  {
    hide RunRoundOn, JudgeRows, Inv, Extends, ReportRaises, ReadingRaises, SignatureRaises, Unruly, EnqueueAll;
    if EnqueueAll(b, d.commands).None? { OddPayloadEscapes(b, d); }
    QueuedKeeps(b, d.commands);
    var q := EnqueueAll(b, d.commands).value;
    UnrulyRaises(q, d, w);
    RunRoundKeeps(q, d, w);
    JudgedKeeps(RunRoundOn(q, d, w).board, d, w);
  }

  lemma GrewIff(b: Board, d: Decision, w: World)
    requires Inv(b) && !b.Terminal() && d.kind.Continue? && !Escapes(b, d, w)
    ensures Closes(b, d, w)
    ensures |ClosedOn(BeforeClosing(b, d, w), w).roster| > |b.roster| <==> Recruits(b, d, w)
  {
    hide Escapes, RunRoundOn, JudgeRows, Inv, Joins, EnqueueAll, Apply, World.Catalog, Targeted, Judged;
    SettledRound(b, d, w);
    var q, a := EnqueueAll(b, d.commands).value, BeforeClosing(b, d, w);
    QueueOf(a);
    ApplyKeepsInv(a, w.types, w.Catalog());
    forall m ensures Targeted(a.pending, w.types, w.Catalog(), m) <==> Joins(q, d, w, m) {
      RoundQueues(q, d, w, m);
      SamePending(RunRoundOn(q, d, w).board, d, w);
    }
    ClosedParts(a, w);
    QueueOf(ClosedOn(a, w));
    GrowsIff(b.roster, ClosedOn(a, w).roster);
  }

  lemma SamePending(b: Board, d: Decision, w: World)
    ensures Judged(b, d, w).pending == b.pending && Judged(b, d, w).artifacts == b.artifacts
  {
  }

  lemma {:induction false} QuietTurns(p: Progress, calls: seq<Assignment>, k: nat, w: World)
    requires k <= |calls| && p.saves == [] && AllTurns(p, calls, k, w).saves == [] && !AllTurns(p, calls, k, w).raised
    ensures AllTurns(p, calls, k, w).board == p.board
  {
    hide TurnBoard, Broken;
    if k > 0 { QuietTurns(p, calls, k - 1, w); }
  }

  lemma QuietRound(b: Board, d: Decision, w: World)
    requires !RunRoundOn(b, d, w).raised && RunRoundOn(b, d, w).saves == []
    ensures RunRoundOn(b, d, w).board.artifacts == b.artifacts
  {
    hide AllTurns, EnqueueAll, RoundCalls, DoneThisRound, Authorised;
    var calls, raws := RoundCalls(b, d, w).expanded, AddIntents(RoundCalls(b, d, w).toAdmit);
    QuietTurns(Progress(EnqueueAll(b, raws).value, DoneThisRound(b), [], false), calls, |calls|, w);
  }

  /** With workers that keep off generated ids, the board grows over the turns that are left, if any are. */
  lemma TurnsLeftGrow(b: Board, d: Decision, w: World, k: nat)
    requires Inv(b) && !b.Terminal() && IdsBounded(b) && CleanWorld(w, {}) && d.kind.Continue? && !Escapes(b, d, w)
    requires k <= |TurnSaves(b, d, w)|
    ensures Closes(b, d, w)
    ensures |BeforeClosing(b, d, w).artifacts| > |SaveIn(b, d, w, k).artifacts| <==> k < |TurnSaves(b, d, w)|
  {
    hide Escapes, RunRoundOn, JudgeRows, Inv, Extends, EnqueueAll, CleanWorld, IdsBounded, RecordsSafe, Judged, Closes, Chained, TurnSaves;
    SettledRound(b, d, w);
    var q := EnqueueAll(b, d.commands).value;
    var r := RunRoundOn(q, d, w);
    SamePending(r.board, d, w);
    SameArtifactsBounded(b, q);
    if k == 0 && r.saves == [] {
      QuietRound(q, d, w);
    } else if k == 0 {
      LastSaveOfRound(q, d, w);
    } else {
      RoundAgain(q, d, w, k);
      QueueOf(q);
      RunRoundSafe(q, d, w, {});
      SafeIsBounded(q, r.saves[k - 1], {});
      if k == |r.saves| { QuietRound(r.saves[k - 1], d, w); } else { LastSaveOfRound(r.saves[k - 1], d, w); }
    }
  }

  /** When dying after save `k` of a round's turns goes unseen: somebody joins; or else the decision was no repeat
      too many, unless nothing moved at all, and, if every turn had been saved, the report moves something. */
  ghost predicate Unseen(b: Board, d: Decision, w: World, g: Guard, maxRepeats: int, k: nat) {
    var n := |TurnSaves(b, d, w)|;
    || Recruits(b, d, w)
    || ((Repeats(g, Signature(d)) < maxRepeats || (n == 0 && !Reports(b, d, w))) && (0 < k == n ==> Reports(b, d, w)))
  }

  lemma UnseenIff(b: Board, d: Decision, w: World, g: Guard, maxRepeats: int, k: nat)
    requires Inv(b) && !b.Terminal() && IdsBounded(b) && CleanWorld(w, {}) && d.kind.Continue? && !Escapes(b, d, w)
    requires k <= |TurnSaves(b, d, w)| && w.text.noProgress != w.text.repeated && 0 < maxRepeats
    ensures var x := SaveIn(b, d, w, k); var s, t := Round(b, d, w, g, maxRepeats), Round(x, d, w, Guard(None, 0), maxRepeats);
      && (SamePlace(s, t) <==> Unseen(b, d, w, g, maxRepeats, k))
      && (0 < k == |TurnSaves(b, d, w)| && !Reports(b, d, w) && !Recruits(b, d, w) ==>
            t.board.status == Blocked && t.board.reason == w.text.noProgress && t.board.turns == x.turns)
  {
    hide Escapes, Inv, IdsBounded, CleanWorld, Round, Signature, Recruits, BeforeClosing, ClosedOn, Repeats, SamePlace, SameClosing, TurnSaves,
         Board.AcceptanceSnapshot;
    ResumedRoundIff(b, d, w, g, maxRepeats, k);
    SettledRound(b, d, w);
    GrewIff(b, d, w);
    TurnsLeftGrow(b, d, w, 0);
    TurnsLeftGrow(b, d, w, k);
    ClosedParts(BeforeClosing(b, d, w), w);
    SaveFacts(b, d, w, k);
  }

  /** A save of a round has the roster and the checks the round began with; the last one has its turns. */
  lemma SaveFacts(b: Board, d: Decision, w: World, k: nat)
    requires Inv(b) && !b.Terminal() && d.kind.Continue? && !Escapes(b, d, w) && k <= |TurnSaves(b, d, w)|
    ensures var x := SaveIn(b, d, w, k);
      && Inv(x) && !x.Terminal() && x.roster == b.roster && x.AcceptanceSnapshot() == b.AcceptanceSnapshot()
      && x.round == b.round && x.maxRounds == b.maxRounds
    ensures Closes(b, d, w) && (0 < k == |TurnSaves(b, d, w)| ==> BeforeClosing(b, d, w).turns == SaveIn(b, d, w, k).turns)
  {
    hide Escapes, Inv, Act, EnqueueAll, RunRoundOn, JudgeRows, Board.AcceptanceSnapshot;
    SettledRound(b, d, w);
    if k > 0 {
      ActAgain(b, d, w, k);
      SnapshotOfChecks(b, SaveIn(b, d, w, k));
      var q := EnqueueAll(b, d.commands).value;
      RoundAgain(q, d, w, k);
      if k == |RunRoundOn(q, d, w).saves| { QuietRoundTurns(RunRoundOn(q, d, w).saves[k - 1], d, w); }
    }
  }

  lemma SnapshotOfChecks(b: Board, x: Board)
    requires x.checks == b.checks
    ensures x.AcceptanceSnapshot() == b.AcceptanceSnapshot()
  {
  }

  lemma QuietRoundTurns(b: Board, d: Decision, w: World)
    requires !RunRoundOn(b, d, w).raised && RunRoundOn(b, d, w).saves == []
    ensures RunRoundOn(b, d, w).board.turns == b.turns
  {
    hide AllTurns, EnqueueAll, RoundCalls, DoneThisRound, Authorised;
    var calls, raws := RoundCalls(b, d, w).expanded, AddIntents(RoundCalls(b, d, w).toAdmit);
    QuietTurns(Progress(EnqueueAll(b, raws).value, DoneThisRound(b), [], false), calls, |calls|, w);
  }

  /** Every agent the batch addresses has had its turn this round. */
  predicate AllDone(b: Board, d: Decision, w: World) {
    var calls := RoundCalls(b, d, w).expanded;
    forall i :: 0 <= i < |calls| ==> calls[i].agent in DoneThisRound(b)
  }

  /** Such a round runs nothing and does not raise. */
  lemma NothingToRun(b: Board, d: Decision, w: World)
    requires Inv(b) && AllDone(b, d, w)
    ensures !RunRoundOn(b, d, w).raised && RunRoundOn(b, d, w).saves == []
  {
    hide RoundCalls, EnqueueAll, AllTurns;
    var e := RoundCalls(b, d, w);
    MembersQueue(b, e.toAdmit);
    SkippedPrefix(Progress(EnqueueAll(b, AddIntents(e.toAdmit)).value, DoneThisRound(b), [], false), e.expanded, |e.expanded|, w);
  }

  /** Wherever it comes from, a round whose turns are all done counts as progress if and only if the report moves
      the acceptance snapshot or somebody joins; otherwise the loop ends BLOCKED there. */
  lemma DoneRoundProgressesIff(b: Board, d: Decision, w: World, g: Guard, maxRepeats: int)
    requires Inv(b) && !b.Terminal() && d.kind.Continue? && AllDone(b, d, w)
    requires !ReadingRaises(d) && !SignatureRaises(d) && !ReportRaises(b.checks, d.acceptance)
    ensures var s := Round(b, d, w, g, maxRepeats);
      && !s.flow.Escape? && s.board.turns == b.turns && s.board.artifacts == b.artifacts
      && (Progressed(b, s.board) <==> Reports(b, d, w) || Recruits(b, d, w))
      && (!Progressed(b, s.board) ==> s.flow.Stop? && s.board.status == Blocked && s.board.reason == w.text.noProgress)
      && (Progressed(b, s.board) && Repeats(g, Signature(d)) < maxRepeats && 0 < maxRepeats ==> s.flow.Next?)
  {
    hide Act, RunRoundOn, JudgeRows, Inv, Extends, Unruly, ReadingRaises, SignatureRaises, ReportRaises, EnqueueAll, AllDone, Signature,
         Recruits, EndRound, Apply, World.Catalog, Board.AcceptanceSnapshot;
    DoneIsSettled(b, d, w);
    SettledRound(b, d, w);
    var q, a, sig := EnqueueAll(b, d.commands).value, BeforeClosing(b, d, w), Signature(d);
    QuietRound(q, d, w);
    QuietRoundTurns(q, d, w);
    JudgedFacts(RunRoundOn(q, d, w).board, d, w);
    GrewIff(b, d, w);
    ClosedParts(a, w);
    QueueOf(a);
    ApplyKeepsInv(a, w.types, w.Catalog());
    EndRoundParts(b, a, w, sig, Repeats(g, sig), maxRepeats);
    GuardBranches(b, ClosedOn(a, w), |ClosedOn(a, w).roster| > |b.roster|, w.text, sig, Repeats(g, sig), maxRepeats);
    SameSnapshot(Round(b, d, w, g, maxRepeats).board, ClosedOn(a, w));
  }

  lemma JudgedFacts(b: Board, d: Decision, w: World)
    ensures Judged(b, d, w).turns == b.turns && Judged(b, d, w).artifacts == b.artifacts
  {
  }

  lemma SameSnapshot(b: Board, c: Board)
    ensures b.checks == c.checks ==> b.AcceptanceSnapshot() == c.AcceptanceSnapshot()
  {
  }

  lemma DoneIsSettled(b: Board, d: Decision, w: World)
    requires Inv(b) && !b.Terminal() && d.kind.Continue? && AllDone(b, d, w)
    requires !ReadingRaises(d) && !SignatureRaises(d) && !ReportRaises(b.checks, d.acceptance)
    ensures !Escapes(b, d, w) && EnqueueAll(b, d.commands).Some? && RunRoundOn(EnqueueAll(b, d.commands).value, d, w).saves == []
  {
    hide RunRoundOn, Inv, Extends, ReadingRaises, SignatureRaises, ReportRaises, EnqueueAll, DoneThisRound, Unruly;
    if EnqueueAll(b, d.commands).None? { OddPayloadEscapes(b, d); }
    QueuedKeeps(b, d.commands);
    var q := EnqueueAll(b, d.commands).value;
    SameCalls(b, q, d, w);
    NothingToRun(q, d, w);
    UnrulyRaises(q, d, w);
  }

  // ---------------------------------------------------------------- any round of a life

  /** Where a drive stands when it begins a round. */
  datatype Entry = Entry(board: Board, guard: Guard, parseErrors: int)

  /** How it came there: what was saved on the way. */
  datatype Way = Way(saves: seq<Board>, entry: Entry)

  /** One round that the loop goes on from. */
  function OneRound(e: Entry, w: World, lim: Limits): Option<Way> {
    var reply := Decide(w, e.board.round, 0, e.parseErrors, lim.maxParseErrors);
    if reply.decision.None? then None
    else
      var s := Round(e.board, reply.decision.value, w, e.guard, lim.maxRepeats);
      if s.flow.Next? then Some(Way(s.saves, Entry(s.board, s.flow.guard, reply.parseErrors))) else None
  }

  predicate Running(b: Board) { !b.Terminal() && b.round < b.maxRounds }

  /** How a drive comes to its round number `j`. */
  function RoundAt(e: Entry, w: World, lim: Limits, j: nat): Option<Way>
    decreases j
  {
    if !Running(e.board) then None
    else if j == 0 then Some(Way([], e))
    else
      var one :- OneRound(e, w, lim);
      var rest :- RoundAt(one.entry, w, lim, j - 1);
      Some(Way(one.saves + rest.saves, rest.entry))
  }

  function DriveOn(e: Entry, w: World, lim: Limits): Drive { DriveFrom(e.board, w, lim, e.guard, e.parseErrors) }

  lemma OneRoundSplits(e: Entry, w: World, lim: Limits)
    requires Inv(e.board) && Running(e.board) && OneRound(e, w, lim).Some?
    ensures var one := OneRound(e, w, lim).value;
      && DriveOn(e, w, lim).saves == one.saves + DriveOn(one.entry, w, lim).saves
      && Inv(one.entry.board) && one.saves != [] && one.saves[|one.saves| - 1] == one.entry.board
      && one.entry.parseErrors >= e.parseErrors
  {
    hide Round, Decide, Inv, Extends, Signature, Chained;
    var d := Decide(w, e.board.round, 0, e.parseErrors, lim.maxParseErrors).decision.value;
    RoundKeeps(e.board, d, w, e.guard, lim.maxRepeats);
    DecideCost(w, e.board.round, 0, e.parseErrors, lim.maxParseErrors);
  }

  /** A drive is what it saved up to some round and then the drive from there; the last thing saved is the board
      that round begins on. */
  lemma {:induction false} DriveSplits(e: Entry, w: World, lim: Limits, j: nat)
    requires Inv(e.board) && RoundAt(e, w, lim, j).Some?
    ensures var way := RoundAt(e, w, lim, j).value;
      && DriveOn(e, w, lim).saves == way.saves + DriveOn(way.entry, w, lim).saves
      && Inv(way.entry.board) && Running(way.entry.board)
      && (if j == 0 then way == Way([], e) else way.saves != [] && way.saves[|way.saves| - 1] == way.entry.board)
      && way.entry.parseErrors >= e.parseErrors
    decreases j
  {
    hide OneRound, DriveOn, Inv, Running;
    if j == 0 {
      assert [] + DriveOn(e, w, lim).saves == DriveOn(e, w, lim).saves;
    } else {
      OneRoundSplits(e, w, lim);
      var one := OneRound(e, w, lim).value;
      DriveSplits(one.entry, w, lim, j - 1);
      var rest := RoundAt(one.entry, w, lim, j - 1).value;
      var left := DriveOn(rest.entry, w, lim).saves;
      assert one.saves + (rest.saves + left) == (one.saves + rest.saves) + left;
    }
  }

  lemma OneRoundSafe(e: Entry, w: World, lim: Limits)
    requires Inv(e.board) && Running(e.board) && IdsBounded(e.board) && CleanWorld(w, {}) && OneRound(e, w, lim).Some?
    ensures IdsBounded(OneRound(e, w, lim).value.entry.board)
  {
    hide Round, Decide, Inv, Extends, IdsBounded, CleanWorld, RecordsSafe;
    var d := Decide(w, e.board.round, 0, e.parseErrors, lim.maxParseErrors).decision.value;
    RoundSafe(e.board, d, w, e.guard, lim.maxRepeats, {});
    SafeIsBounded(e.board, Round(e.board, d, w, e.guard, lim.maxRepeats).board, {});
  }

  lemma {:induction false} RoundAtSafe(e: Entry, w: World, lim: Limits, j: nat)
    requires Inv(e.board) && IdsBounded(e.board) && CleanWorld(w, {}) && RoundAt(e, w, lim, j).Some?
    ensures IdsBounded(RoundAt(e, w, lim, j).value.entry.board)
    decreases j
  {
    hide OneRound, Inv, IdsBounded, CleanWorld, DriveOn, DriveFrom;
    if j > 0 {
      OneRoundSafe(e, w, lim);
      OneRoundSplits(e, w, lim);
      RoundAtSafe(OneRound(e, w, lim).value.entry, w, lim, j - 1);
    }
  }

  /** A fresh error budget finds at least the decision a used one found. */
  lemma {:induction false} DecideAgain(w: World, round: int, attempt: nat, fewer: int, more: int, maxPe: int)
    requires fewer <= more && Decide(w, round, attempt, more, maxPe).decision.Some?
    ensures Decide(w, round, attempt, fewer, maxPe).decision == Decide(w, round, attempt, more, maxPe).decision
    decreases maxPe - more
  {
    if w.decide(round, attempt).None? { DecideAgain(w, round, attempt + 1, fewer + 1, more + 1, maxPe); }
  }

  const FRESH := Guard(None, 0)

  /** A life that begins on `b` comes this way to its round number `j`, and there is given this decision. */
  ghost predicate Enters(b: Board, w: World, lim: Limits, j: nat, way: Way, d: Decision) {
    && RoundAt(Entry(b, FRESH, 0), w, lim, j) == Some(way)
    && Decide(w, way.entry.board.round, 0, way.entry.parseErrors, lim.maxParseErrors).decision == Some(d)
  }

  /** That round. */
  function RoundOf(way: Way, d: Decision, w: World, lim: Limits): Step { Round(way.entry.board, d, w, way.entry.guard, lim.maxRepeats) }

  lemma DriveBegins(e: Entry, d: Decision, w: World, lim: Limits)
    requires Running(e.board) && Decide(w, e.board.round, 0, e.parseErrors, lim.maxParseErrors).decision == Some(d)
    ensures Round(e.board, d, w, e.guard, lim.maxRepeats).saves <= DriveOn(e, w, lim).saves
  {
    hide Round, Decide;
  }

  /** The checkpoint after a number of saves of a life that began on a running board. */
  lemma SurviveIs(b: Board, w: World, lim: Limits, n: nat)
    requires Inv(b) && !b.Terminal() && n <= |DriveOn(Entry(b, FRESH, 0), w, lim).saves|
    ensures Survive(b, Life(w, lim, n)) == if n == 0 then b else DriveOn(Entry(b, FRESH, 0), w, lim).saves[n - 1]
  {
    hide DriveFrom, Inv;
    PersistedKeeps(b);
  }

  /** What is on the disk after so many saves of that round; none of them: what the round began on. */
  lemma SurviveInRound(b: Board, w: World, lim: Limits, j: nat, way: Way, d: Decision, k: nat)
    requires Inv(b) && Enters(b, w, lim, j, way, d) && k <= |RoundOf(way, d, w, lim).saves|
    ensures Survive(b, Life(w, lim, |way.saves| + k)) == if k == 0 then way.entry.board else RoundOf(way, d, w, lim).saves[k - 1]
  {
    hide Round, Decide, Inv, DriveOn, Survive;
    var first := Entry(b, FRESH, 0);
    DriveSplits(first, w, lim, j);
    DriveBegins(way.entry, d, w, lim);
    SurviveIs(b, w, lim, |way.saves| + k);
    var all, rest := DriveOn(first, w, lim).saves, DriveOn(way.entry, w, lim).saves;
    if k > 0 { assert all[|way.saves| + k - 1] == rest[k - 1]; }
  }

  lemma BeginsOn(x: Board, w: World, lim: Limits, d: Decision)
    requires Running(x) && Decide(w, x.round, 0, 0, lim.maxParseErrors).decision == Some(d)
    ensures Enters(x, w, lim, 0, Way([], Entry(x, FRESH, 0)), d)
  {
    hide Decide;
  }

  /** Dying inside a round, anywhere in a life: the next life begins on that save and is given the same decision,
      and its first round and the one it repeats end as two rounds do that close on one board. */
  lemma ResumedInRound(b: Board, w: World, lim: Limits, j: nat, way: Way, d: Decision, k: nat)
    requires Inv(b) && w.text.noProgress != w.text.repeated && Enters(b, w, lim, j, way, d) && k <= |TurnSaves(way.entry.board, d, w)|
    ensures var e, x := way.entry, Survive(b, Life(w, lim, |way.saves| + k));
      && x == SaveIn(e.board, d, w, k) && Enters(x, w, lim, 0, Way([], Entry(x, FRESH, 0)), d)
      && var s, t := RoundOf(way, d, w, lim), Round(x, d, w, FRESH, lim.maxRepeats);
         if !Closes(e.board, d, w) then SamePlace(s, t)
         else
           var c := ClosedOn(BeforeClosing(e.board, d, w), w);
           SameClosing(s, t, TurnSaves(e.board, d, w), k, c)
           && EndsAgree(s, e.board, Repeats(e.guard, Signature(d)), t, x, 0, c, |c.roster| > |e.board.roster|, lim.maxRepeats, w.text)
  {
    hide Round, Decide, Inv, SamePlace, EndsAgree, SameClosing, Closes, TurnSaves, Survive, RoundAt, OneRound, DriveOn, Enters, ClosedOn,
         Signature, Repeats, Act;
    EntersParts(b, w, lim, j, way, d);
    DriveSplits(Entry(b, FRESH, 0), w, lim, j);
    var e := way.entry;
    TurnsAreSaved(e.board, d, w, e.guard, lim.maxRepeats);
    SurviveInRound(b, w, lim, j, way, d, k);
    ResumedRoundIff(e.board, d, w, e.guard, lim.maxRepeats, k);
    if k > 0 { ActAgain(e.board, d, w, k); }
    DecideAgain(w, e.board.round, 0, 0, e.parseErrors, lim.maxParseErrors);
    BeginsOn(SaveIn(e.board, d, w, k), w, lim, d);
  }

  /** In the decision's own terms, for workers that keep off generated ids. */
  lemma RoundEndsAlikeIff(b: Board, w: World, lim: Limits, j: nat, way: Way, d: Decision, k: nat)
    requires Inv(b) && IdsBounded(b) && CleanWorld(w, {}) && 0 < lim.maxRepeats && w.text.noProgress != w.text.repeated
    requires Enters(b, w, lim, j, way, d) && d.kind.Continue? && !Escapes(way.entry.board, d, w)
    requires k <= |TurnSaves(way.entry.board, d, w)|
    ensures var e, x := way.entry, Survive(b, Life(w, lim, |way.saves| + k));
      && x == SaveIn(e.board, d, w, k) && Enters(x, w, lim, 0, Way([], Entry(x, FRESH, 0)), d)
      && (SamePlace(RoundOf(way, d, w, lim), Round(x, d, w, FRESH, lim.maxRepeats)) <==> Unseen(e.board, d, w, e.guard, lim.maxRepeats, k))
  {
    hide Round, Decide, Inv, IdsBounded, CleanWorld, Escapes, Unseen, SamePlace, TurnSaves, Survive, RoundAt, OneRound, DriveOn, Enters,
         EndsAgree, SameClosing, Closes, ClosedOn, Signature;
    EntersParts(b, w, lim, j, way, d);
    DriveSplits(Entry(b, FRESH, 0), w, lim, j);
    RoundAtSafe(Entry(b, FRESH, 0), w, lim, j);
    ResumedInRound(b, w, lim, j, way, d, k);
    UnseenIff(way.entry.board, d, w, way.entry.guard, lim.maxRepeats, k);
  }

  lemma EntersParts(b: Board, w: World, lim: Limits, j: nat, way: Way, d: Decision)
    requires Enters(b, w, lim, j, way, d)
    ensures RoundAt(Entry(b, FRESH, 0), w, lim, j) == Some(way)
    ensures Decide(w, way.entry.board.round, 0, way.entry.parseErrors, lim.maxParseErrors).decision == Some(d)
  {
  }

  /** The first saves of a round are those of its turns. */
  lemma TurnsAreSaved(b: Board, d: Decision, w: World, g: Guard, maxRepeats: int)
    requires Inv(b) && !b.Terminal()
    ensures TurnSaves(b, d, w) <= Round(b, d, w, g, maxRepeats).saves
  {
    hide Act, EndRound, EnqueueAll, Signature, Inv, Extends, SignatureRaises, ReadingRaises, ReportRaises, Unruly, RunRoundOn;
    EscapesIff(b, d, w, g, maxRepeats);
    if d.kind.Continue? && !Escapes(b, d, w) { SettledRound(b, d, w); }
    if Closes(b, d, w) {
      QueuedKeeps(b, d.commands);
      ActRoster(EnqueueAll(b, d.commands).value, d, w);
    }
  }

  /** How a round that closes ends: the turns' saves, the round closed, then the stop if there is one. */
  lemma RoundSaves(b: Board, d: Decision, w: World, g: Guard, maxRepeats: int)
    requires Inv(b) && !b.Terminal() && Closes(b, d, w)
    ensures var s, n := Round(b, d, w, g, maxRepeats), |TurnSaves(b, d, w)|;
      && !s.flow.Escape? && |s.saves| == n + (if s.flow.Next? then 1 else 2) && s.saves[|s.saves| - 1] == s.board
      && !s.saves[n].Terminal() && s.saves[n].round == b.round + 1 && (s.flow.Stop? ==> s.board.status == Blocked)
  {
    hide Act, EndRound, EnqueueAll, Signature, Inv, Extends, SignatureRaises, ReadingRaises, RunRoundOn;
    QueuedKeeps(b, d.commands);
    var q := EnqueueAll(b, d.commands).value;
    ActKeeps(q, d, w);
    ActRoster(q, d, w);
    ClosingSaves(b, Act(q, d, w).board, w, Signature(d), Repeats(g, Signature(d)), maxRepeats);
  }

  /** Dying after the round was closed: if the loop goes on, that is dying before the first save of the next round.
      If it stops, the stop is a save of its own: before it the checkpoint can be driven on, after it no more. */
  lemma CrashAfterClosing(b: Board, w: World, lim: Limits, j: nat, way: Way, d: Decision)
    requires Inv(b) && Enters(b, w, lim, j, way, d) && Closes(way.entry.board, d, w)
    ensures var s, m := RoundOf(way, d, w, lim), |way.saves| + |TurnSaves(way.entry.board, d, w)|;
      var closed := Survive(b, Life(w, lim, m + 1));
      && !closed.Terminal() && closed.round == way.entry.board.round + 1
      && (s.flow.Next? ==> closed == s.board)
      && (s.flow.Stop? ==> var stopped := Survive(b, Life(w, lim, m + 2)); stopped == s.board && stopped.status == Blocked)
  {
    hide Round, Decide, Inv, TurnSaves, Survive, RoundAt, OneRound, DriveOn, Enters, Closes;
    EntersParts(b, w, lim, j, way, d);
    DriveSplits(Entry(b, FRESH, 0), w, lim, j);
    var n := |TurnSaves(way.entry.board, d, w)|;
    RoundSaves(way.entry.board, d, w, way.entry.guard, lim.maxRepeats);
    SurviveInRound(b, w, lim, j, way, d, n + 1);
    if RoundOf(way, d, w, lim).flow.Stop? { SurviveInRound(b, w, lim, j, way, d, n + 2); }
  }

  /** The saves at the end of a round: the round closed, then the stop if there is one. */
  lemma ClosingSaves(before: Board, b: Board, w: World, signature: string, repeats: int, maxRepeats: int)
    requires Inv(b) && !b.Terminal()
    ensures var s := EndRound(before, b, w, signature, repeats, maxRepeats);
      && !s.flow.Escape? && s.saves != [] && !s.saves[0].Terminal() && s.saves[0].round == b.round + 1
      && (s.flow.Next? ==> s.saves == [s.board])
      && (s.flow.Stop? ==> |s.saves| == 2 && s.saves[1] == s.board && s.board.status == Blocked)
  {
    hide Apply, World.Catalog, Board.AcceptanceSnapshot, Inv;
    QueueOf(b);
    ApplyKeepsInv(b, w.types, w.Catalog());
  }

  /** A clean crash, everything saved, forgets the counter: a round that goes on after a restart, although nobody
      joins, ends the run where the decision had been made often enough before. */
  lemma RestartForgetsRepeats(b: Board, d: Decision, w: World, maxRepeats: int)
    requires Inv(b) && !b.Terminal() && 0 < maxRepeats && w.text.noProgress != w.text.repeated
    requires var s := Round(b, d, w, FRESH, maxRepeats); s.flow.Next? && s.board.roster == b.roster
    ensures var t := Round(b, d, w, Guard(Some(Signature(d)), maxRepeats - 1), maxRepeats);
      t.flow.Stop? && t.board.status == Blocked && t.board.reason == w.text.repeated
  {
    hide Act, EnqueueAll, Inv, Extends, Apply, World.Catalog, Signature, ReadingRaises, SignatureRaises, Board.AcceptanceSnapshot;
    QueuedKeeps(b, d.commands);
    var q := EnqueueAll(b, d.commands).value;
    ActKeeps(q, d, w);
    ActRoster(q, d, w);
    var a := Act(q, d, w).board;
    QueueOf(a);
    ApplyKeepsInv(a, w.types, w.Catalog());
  }

  /** A restart forgets the parse errors too. Which questions a budget allows: */
  lemma {:induction false} DecideFindsIff(w: World, round: int, attempt: nat, pe: int, maxPe: int)
    ensures Decide(w, round, attempt, pe, maxPe).decision.Some?
       <==> exists i: nat :: attempt <= i < attempt + Max(1, maxPe - pe) && w.decide(round, i).Some?
    decreases maxPe - pe
  {
    if w.decide(round, attempt).None? && pe + 1 < maxPe { DecideFindsIff(w, round, attempt + 1, pe + 1, maxPe); }
  }

  /** so dying with errors counted is seen at the next question exactly when the first reply that parses comes too
      late for the used budget and in time for a fresh one. */
  lemma RestartForgetsErrorsIff(w: World, round: int, pe: int, maxPe: int)
    requires 0 <= pe
    ensures Decide(w, round, 0, pe, maxPe).decision != Decide(w, round, 0, 0, maxPe).decision <==>
      exists i: nat :: Max(1, maxPe - pe) <= i < Max(1, maxPe) && w.decide(round, i).Some? && forall h: nat :: h < i ==> w.decide(round, h).None?
  {
    DecideFindsIff(w, round, 0, pe, maxPe);
    DecideFindsIff(w, round, 0, 0, maxPe);
    if Decide(w, round, 0, pe, maxPe).decision.Some? {
      DecideAgain(w, round, 0, 0, pe, maxPe);
    } else if Decide(w, round, 0, 0, maxPe).decision.Some? {
      var i: nat :| i < Max(1, maxPe) && w.decide(round, i).Some?;
      FirstParsed(w, round, i);
    }
  }

  lemma {:induction false} FirstParsed(w: World, round: int, i: nat)
    requires w.decide(round, i).Some?
    ensures exists h: nat :: h <= i && w.decide(round, h).Some? && forall l: nat :: l < h ==> w.decide(round, l).None?
  {
    if h: nat :| h < i && w.decide(round, h).Some? { FirstParsed(w, round, h); }
  }

  // ---------------------------------------------------------------- it happens

  /** The smallest case: one agent, one call, no report, no command, the same decision every time, given after so
      many replies that do not parse. */
  const ONE_CALL := Decision(Continue, [Assignment("a", "work", "all", JNull, AgentTarget)], [], [], "", None, [])

  function PlainWorld(text: Wording, slips: nat): World {
    World(None, map[], (round: int, attempt: nat) => if attempt < slips then None else Some(ONE_CALL),
          (round: int, i: nat) => Packet("a", map[], Worker("success", [], JObj(map[]), map[])),
          (round: int, i: nat) => map[], text, Host(j => "", fields => []))
  }

  const CRITERION := Check("c", "it works", "pending", [])

  function FirstBoard(maxRounds: int): Board {
    var b := NewBoard("s", "t", maxRounds, [CRITERION]);
    b.WithArtifact(NextId(SESSION_PLAN, b), map[]).(roster := ["a"], status := TeamSelected)
  }

  lemma FirstBoardStarts(maxRounds: int)
    ensures Start(FirstBoard(maxRounds), [CRITERION])
  {
    assert Composed(NewBoard("s", "t", maxRounds, [CRITERION]), ["a"], map[], {}) == Some(FirstBoard(maxRounds));
  }

  /** A board between two rounds of such a run. */
  ghost predicate Between(b: Board) {
    Inv(b) && IdsBounded(b) && Running(b) && b.roster == ["a"] && b.pending == [] && DoneThisRound(b) == {}
  }

  lemma PlainTurn(b: Board, text: Wording, slips: nat)
    requires Between(b)
    ensures var d, w := ONE_CALL, PlainWorld(text, slips);
      && EnqueueAll(b, d.commands) == Some(b) && !ReadingRaises(d) && !SignatureRaises(d)
      && |RunRoundOn(b, d, w).saves| == 1 && !RunRoundOn(b, d, w).raised && RoundCalls(b, d, w).toAdmit == []
  {
    hide TurnBoard, IdsBounded, Inv;
    var d, w := ONE_CALL, PlainWorld(text, slips);
    assert EnqueueAll(b, []) == Some(b);
    assert d.calls[..0] == [] && AgentCalls(d.calls) == d.calls;
    assert AddIntents([]) == [];
    assert AllTurns(Progress(b, {}, [], false), d.calls, 0, w) == Progress(b, {}, [], false);
  }

  lemma PlainClean(text: Wording, slips: nat)
    ensures CleanWorld(PlainWorld(text, slips), {})
  {
  }

  /** Its round runs one turn, and moves neither the report nor the roster. */
  lemma PlainRound(b: Board, text: Wording, slips: nat)
    requires Between(b)
    ensures var d, w := ONE_CALL, PlainWorld(text, slips);
      !Escapes(b, d, w) && |TurnSaves(b, d, w)| == 1 && !Recruits(b, d, w) && !Reports(b, d, w)
  {
    hide IdsBounded, Inv, RunRoundOn, Unruly, RoundCalls;
    var d, w := ONE_CALL, PlainWorld(text, slips);
    PlainTurn(b, text, slips);
    UnrulyRaises(b, d, w);
    RunRoundKeeps(b, d, w);
    assert !ReportRaises(b.checks, d.acceptance);
    assert !Escapes(b, d, w);
    SettledRound(b, d, w);
    SnapshotOfChecks(b, BeforeClosing(b, d, w));
  }

  /** The loop goes on from it to the next board of that kind, unless the decision was made too often. */
  lemma PlainGoesOn(b: Board, text: Wording, slips: nat, maxRepeats: int)
    requires Between(b) && 0 < maxRepeats && text.noProgress != text.repeated
    ensures var d, w := ONE_CALL, PlainWorld(text, slips); var s := Round(b, d, w, FRESH, maxRepeats);
      && s.flow == Next(Guard(Some(Signature(d)), 0)) && s.board.roster == b.roster && s.board.round == b.round + 1
      && (b.round + 1 < b.maxRounds ==> Between(s.board))
  {
    hide IdsBounded, Inv, Extends, CleanWorld, Escapes, Recruits, Reports, Signature, BeforeClosing, Act, EndRound, TurnSaves, Board.AcceptanceSnapshot;
    var d, w := ONE_CALL, PlainWorld(text, slips);
    var s := Round(b, d, w, FRESH, maxRepeats);
    PlainRound(b, text, slips);
    PlainClean(text, slips);
    SettledRound(b, d, w);
    GrewIff(b, d, w);
    TurnsLeftGrow(b, d, w, 0);
    RoundKeeps(b, d, w, FRESH, maxRepeats);
    RoundSafe(b, d, w, FRESH, maxRepeats, {});
    SafeIsBounded(b, s.board, {});
    PlainEnd(b, text, slips, maxRepeats);
  }

  lemma PlainEnd(b: Board, text: Wording, slips: nat, maxRepeats: int)
    requires Between(b) && 0 < maxRepeats
    requires var d, w := ONE_CALL, PlainWorld(text, slips);
      Closes(b, d, w) && var a := BeforeClosing(b, d, w);
      Inv(a) && !a.Terminal() && a.roster == b.roster && |a.artifacts| > |b.artifacts| && |ClosedOn(a, w).roster| <= |b.roster|
    ensures var d, w := ONE_CALL, PlainWorld(text, slips); var s := Round(b, d, w, FRESH, maxRepeats);
      && s.flow == Next(Guard(Some(Signature(d)), 0)) && s.board == ClosedOn(BeforeClosing(b, d, w), w)
      && s.board.roster == b.roster && s.board.pending == [] && s.board.round == b.round + 1 && s.board.maxRounds == b.maxRounds
      && DoneThisRound(s.board) == {}
  {
    hide Inv, IdsBounded, Extends, Act, EnqueueAll, Signature, Apply, World.Catalog, Board.AcceptanceSnapshot, QueueInv;
    var d, w := ONE_CALL, PlainWorld(text, slips);
    PlainTurn(b, text, slips);
    var a := BeforeClosing(b, d, w);
    QueueOf(a);
    ApplyKeepsInv(a, w.types, w.Catalog());
    NothingDoneAhead(a);
  }

  lemma NothingDoneAhead(b: Board)
    requires Inv(b)
    ensures forall c: Board :: c.turns == b.turns && c.round == b.round + 1 ==> DoneThisRound(c) == {}
  {
  }

  lemma FirstBoardIsBetween(maxRounds: int)
    requires maxRounds > 0
    ensures Between(FirstBoard(maxRounds)) && Start(FirstBoard(maxRounds), [CRITERION])
  {
    hide Inv, IdsBounded;
    FirstBoardStarts(maxRounds);
    StartIsSound(FirstBoard(maxRounds), [CRITERION]);
  }

  /** After the one turn was saved: the next life finds nothing to run, and saves the round closed and the stop. */
  lemma AfterTheTurn(b: Board, text: Wording, lim: Limits)
    requires Between(b) && 0 < lim.maxRepeats && text.noProgress != text.repeated
    ensures var w := PlainWorld(text, 0); var x := Survive(b, Life(w, lim, 1));
      && (var alive := Survive(b, Life(w, lim, 2)); !alive.Terminal() && alive.round == b.round + 1)
      && (var closed := Survive(x, Life(w, lim, 1)); !closed.Terminal() && closed.round == b.round + 1)
      && (var stopped := Survive(x, Life(w, lim, 2)); stopped.status == Blocked && stopped.reason == text.noProgress)
  {
    hide IdsBounded, Inv, Extends, CleanWorld, Escapes, Recruits, Reports, Signature, TurnSaves, Survive, Round, Unseen, SamePlace, Closes,
         Board.AcceptanceSnapshot, RoundAt, DriveOn, Act, RunRoundOn;
    var d, w := ONE_CALL, PlainWorld(text, 0);
    var way := Way([], Entry(b, FRESH, 0));
    PlainRound(b, text, 0);
    PlainClean(text, 0);
    SettledRound(b, d, w);
    EntersHere(b, w, lim, d);
    CrashAfterClosing(b, w, lim, 0, way, d);
    RoundEndsAlikeIff(b, w, lim, 0, way, d, 1);
    UnseenIff(b, d, w, FRESH, lim.maxRepeats, 1);
    SaveFacts(b, d, w, 1);
    var x := SaveIn(b, d, w, 1);
    NothingLeft(b, d, w);
    CrashAfterClosing(x, w, lim, 0, Way([], Entry(x, FRESH, 0)), d);
    StopsOn(x, d, w, lim.maxRepeats);
  }

  lemma EntersHere(b: Board, w: World, lim: Limits, d: Decision)
    requires Running(b) && w.decide(b.round, 0) == Some(d)
    ensures Enters(b, w, lim, 0, Way([], Entry(b, FRESH, 0)), d)
  {
  }

  /** On the last save of its turns a round closes as it is. */
  lemma NothingLeft(b: Board, d: Decision, w: World)
    requires Inv(b) && !b.Terminal() && d.kind.Continue? && !Escapes(b, d, w) && TurnSaves(b, d, w) != []
    ensures var x := SaveIn(b, d, w, |TurnSaves(b, d, w)|); Closes(x, d, w) && TurnSaves(x, d, w) == []
  {
    hide Escapes, Inv, Act, EnqueueAll, RunRoundOn;
    SettledRound(b, d, w);
    var q, n := EnqueueAll(b, d.commands).value, |TurnSaves(b, d, w)|;
    ActAgain(b, d, w, n);
    RoundAgain(q, d, w, n);
  }

  lemma StopsOn(b: Board, d: Decision, w: World, maxRepeats: int)
    requires Inv(b) && !b.Terminal() && Closes(b, d, w) && Round(b, d, w, FRESH, maxRepeats).board.status == Blocked
    ensures Round(b, d, w, FRESH, maxRepeats).flow.Stop?
  {
    hide Round, Inv, Extends, TurnSaves, Closes;
    RoundSaves(b, d, w, FRESH, maxRepeats);
    RoundKeeps(b, d, w, FRESH, maxRepeats);
  }

  /** From a first checkpoint: dying after the turn and resuming ends BLOCKED where the run that did not die is in
      its second round; and dying once more, between the save of that stalled round and its stop, is no stop at
      all. */
  lemma CrashAfterLastTurnHappens(text: Wording, lim: Limits)
    requires 0 < lim.maxRepeats && text.noProgress != text.repeated
    ensures var first, w := FirstBoard(2), PlainWorld(text, 0);
      var alive, resumed := Durable(first, [Life(w, lim, 2)]), Durable(first, [Life(w, lim, 1), Life(w, lim, 2)]);
      var between := Durable(first, [Life(w, lim, 1), Life(w, lim, 1)]);
      && Start(first, [CRITERION]) && !alive.Terminal() && alive.round == 1
      && resumed.status == Blocked && resumed.reason == text.noProgress
      && !between.Terminal() && between.round == 1
  {
    hide Survive, Start, Between;
    var w := PlainWorld(text, 0);
    FirstBoardIsBetween(2);
    BetweenRuns(FirstBoard(2));
    AfterTheTurn(FirstBoard(2), text, lim);
    OneLife(FirstBoard(2), Life(w, lim, 2));
    TwoLives(FirstBoard(2), Life(w, lim, 1), Life(w, lim, 2));
    TwoLives(FirstBoard(2), Life(w, lim, 1), Life(w, lim, 1));
  }

  lemma BetweenRuns(b: Board)
    requires Between(b)
    ensures Inv(b) && Running(b)
  {
  }

  lemma OneLife(first: Board, life: Life)
    ensures Durable(first, [life]) == Survive(first, life)
  {
    hide Survive;
    assert [life][..0] == [];
  }

  lemma TwoLives(first: Board, one: Life, two: Life)
    ensures Durable(first, [one, two]) == Survive(Survive(first, one), two)
  {
    hide Survive;
    OneLife(first, one);
    assert [one, two][..1] == [one];
  }

  /** And dying with everything saved, after the first round: the run that did not die stops at the second round,
      whose decision repeats the first; the one that did goes on. */
  lemma RestartForgetsRepeatsHappens(text: Wording, maxParseErrors: int)
    requires text.noProgress != text.repeated
    ensures var first, w, lim := FirstBoard(2), PlainWorld(text, 0), Limits(maxParseErrors, 1);
      var alive, resumed := Durable(first, [Life(w, lim, 5)]), Durable(first, [Life(w, lim, 2), Life(w, lim, 2)]);
      && Start(first, [CRITERION]) && alive.status == Blocked && alive.reason == text.repeated
      && !resumed.Terminal() && resumed.round == 2
  {
    hide IdsBounded, Inv, Extends, Signature, TurnSaves, Survive, Round, Closes, Start, RoundAt, DriveOn, Between, Act, Durable, Escapes;
    var first, d, w, lim := FirstBoard(2), ONE_CALL, PlainWorld(text, 0), Limits(maxParseErrors, 1);
    FirstBoardIsBetween(2);
    BetweenRuns(first);
    PlainGoesOn(first, text, 0, 1);
    PlainSaves(first, text, 0);
    EntersHere(first, w, lim, d);
    CrashAfterClosing(first, w, lim, 0, Way([], Entry(first, FRESH, 0)), d);
    var s := Round(first, d, w, FRESH, 1);
    assert s.board.maxRounds == 2 by { RoundKeeps(first, d, w, FRESH, 1); ExtendsParts(first, s.board); }
    BetweenRuns(s.board);
    PlainGoesOn(s.board, text, 0, 1);
    PlainSaves(s.board, text, 0);
    EntersHere(s.board, w, lim, d);
    CrashAfterClosing(s.board, w, lim, 0, Way([], Entry(s.board, FRESH, 0)), d);
    RestartForgetsRepeats(s.board, d, w, 1);
    var way := Way(s.saves, Entry(s.board, s.flow.guard, 0));
    EntersNext(first, w, lim, d, s);
    CrashAfterClosing(first, w, lim, 1, way, d);
    OneLife(first, Life(w, lim, 5));
    TwoLives(first, Life(w, lim, 2), Life(w, lim, 2));
  }

  lemma ExtendsParts(b: Board, c: Board)
    requires Extends(b, c)
    ensures c.maxRounds == b.maxRounds
  {
  }

  lemma PlainSaves(b: Board, text: Wording, slips: nat)
    requires Between(b)
    ensures var d, w := ONE_CALL, PlainWorld(text, slips);
      && Closes(b, d, w) && |TurnSaves(b, d, w)| == 1
      && (Round(b, d, w, FRESH, 1).flow.Next? ==> |Round(b, d, w, FRESH, 1).saves| == 2)
  {
    hide Inv, IdsBounded, Round, Escapes, Recruits, Reports, TurnSaves;
    PlainRound(b, text, slips);
    SettledRound(b, ONE_CALL, PlainWorld(text, slips));
    RoundSaves(b, ONE_CALL, PlainWorld(text, slips), FRESH, 1);
  }

  lemma EntersNext(b: Board, w: World, lim: Limits, d: Decision, s: Step)
    requires Running(b) && w.decide(b.round, 0) == Some(d) && s == Round(b, d, w, FRESH, lim.maxRepeats) && s.flow.Next? && Running(s.board)
    requires w.decide(s.board.round, 0) == Some(d)
    ensures Enters(b, w, lim, 1, Way(s.saves, Entry(s.board, s.flow.guard, 0)), d)
  {
    hide Round;
    var e := Entry(s.board, s.flow.guard, 0);
    assert RoundAt(e, w, lim, 0) == Some(Way([], e));
    assert s.saves + [] == s.saves;
  }
}
