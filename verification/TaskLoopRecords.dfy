/** What becomes of one record on the board over whole histories of lives: it stays what it was if and only if
    whatever the turns and tools write under its id is the same record again. */
module TaskLoopRecords {
  import opened Text
  import opened TaskBoard
  import opened Departments
  import opened CommandBridge
  import opened Rounds
  import opened Turns
  import opened BoardInvariants
  import opened TaskLoop
  import opened TaskLoopRuns
  import opened TaskLoopCrashes
  import opened TaskLoopRestarts

  predicate Holds(b: Board, id: string, v: Payload) { id in b.artifacts && b.artifacts[id] == v }

  /** The first `n` of these boards all have the record. */
  ghost predicate AllHold(saves: seq<Board>, n: nat, id: string, v: Payload) {
    forall i :: 0 <= i < n && i < |saves| ==> Holds(saves[i], id, v)
  }

  predicate Harmless(written: Option<Payload>, v: Payload) { written.None? || written.value == v }

  // ---------------------------------------------------------------- what is written under an id

  lemma TurnWrote(b: Board, agent: string, body: Payload, worker: WorkerReply, id: string, v: Payload)
    requires worker.Worker? && Holds(b, id, v)
    ensures Holds(TurnBoard(b, agent, body, worker), id, v) <==> Harmless(Wrote(b, agent, body, worker, id), v)
  {
    hide TurnBoard, Wrote;
    TurnLeaves(b, agent, body, worker, id);
  }

  /** What a batch of tools writes under an id. */
  function ToolsWrote(b: Board, tools: seq<ToolRequest>, k: nat, w: World, id: string): Option<Payload>
    requires k <= |tools|
  {
    if k == 0 then None
    else if NextId(TOOL_RESULT, ToolsUpTo(b, tools, k - 1, w)) == id then Some(ToolRecord(tools[k - 1].tool, w.tool(b.round, k - 1)))
    else ToolsWrote(b, tools, k - 1, w, id)
  }

  lemma {:induction false} ToolsWroteIs(b: Board, tools: seq<ToolRequest>, k: nat, w: World, id: string)
    requires k <= |tools| && id in b.artifacts
    ensures var c, written := ToolsUpTo(b, tools, k, w), ToolsWrote(b, tools, k, w, id);
      id in c.artifacts && c.artifacts[id] == if written.Some? then written.value else b.artifacts[id]
  {
    hide NextId, ToolRecord;
    if k > 0 { ToolsWroteIs(b, tools, k - 1, w, id); }
  }

  // ---------------------------------------------------------------- one round

  /** The turn is due and completes. */
  predicate Completes(p: Progress, agent: string, reply: TurnReply) { !p.raised && agent !in p.done && !Broken(agent, reply) }

  /** Each of the first `k` turns of a batch that completes, and is among the first `n` of them that do, writes
      nothing but `v` under the id. */
  predicate TurnsHarmless(p: Progress, calls: seq<Assignment>, k: nat, w: World, n: nat, id: string, v: Payload)
    requires k <= |calls|
  {
    k == 0 ||
    (TurnsHarmless(p, calls, k - 1, w, n, id, v)
     && var q, agent, reply := AllTurns(p, calls, k - 1, w), calls[k - 1].agent, w.turn(p.board.round, k - 1);
        Completes(q, agent, reply) && |q.saves| < n ==> Harmless(Wrote(q.board, agent, reply.body, reply.worker, id), v))
  }

  lemma {:induction false} TurnsHarmlessIff(p: Progress, calls: seq<Assignment>, k: nat, w: World, n: nat, id: string, v: Payload)
    requires k <= |calls| && p.saves == [] && Holds(p.board, id, v)
    ensures TurnsHarmless(p, calls, k, w, n, id, v) <==> AllHold(AllTurns(p, calls, k, w).saves, n, id, v)
    ensures var q := AllTurns(p, calls, k, w);
      AllHold(q.saves, n, id, v) && |q.saves| <= n ==> Holds(q.board, id, v)
  {
    hide TurnBoard, Broken, Wrote, Harmless, Holds;
    if k > 0 {
      TurnsHarmlessIff(p, calls, k - 1, w, n, id, v);
      var q, agent, reply := AllTurns(p, calls, k - 1, w), calls[k - 1].agent, w.turn(p.board.round, k - 1);
      if Completes(q, agent, reply) {
        Completed(agent, reply);
        var b := TurnBoard(q.board, agent, reply.body, reply.worker);
        HoldPush(q.saves, b, n, id, v);
        if Holds(q.board, id, v) { TurnWrote(q.board, agent, reply.body, reply.worker, id, v); }
      }
    }
  }

  lemma Completed(agent: string, reply: TurnReply)
    requires !Broken(agent, reply)
    ensures reply.Packet? && reply.worker.Worker?
  {
  }

  lemma HoldPush(saves: seq<Board>, b: Board, n: nat, id: string, v: Payload)
    ensures AllHold(saves + [b], n, id, v) <==> AllHold(saves, n, id, v) && (|saves| < n ==> Holds(b, id, v))
  {
    hide Holds;
    var all := saves + [b];
    assert all[|saves|] == b && forall i :: 0 <= i < |saves| ==> all[i] == saves[i];
    if AllHold(all, n, id, v) {
      forall i | 0 <= i < n && i < |saves| ensures Holds(saves[i], id, v) { assert all[i] == saves[i]; }
    }
  }

  lemma HoldConcat(a: seq<Board>, b: seq<Board>, n: nat, id: string, v: Payload)
    ensures AllHold(a + b, n, id, v) <==> AllHold(a, n, id, v) && (n > |a| ==> AllHold(b, n - |a|, id, v))
  {
    hide Holds;
    var all := a + b;
    if AllHold(all, n, id, v) {
      forall i | 0 <= i < n && i < |a| ensures Holds(a[i], id, v) { assert all[i] == a[i]; }
      forall i | 0 <= i < n - |a| && i < |b| ensures Holds(b[i], id, v) { assert all[|a| + i] == b[i]; }
    }
  }

  /** So does each turn of this round's batch, if it runs at all. */
  predicate BatchHarmless(b: Board, d: Decision, w: World, n: nat, id: string, v: Payload) {
    var e := RoundCalls(b, d, w);
    var queued := EnqueueAll(b, AddIntents(e.toAdmit));
    queued.Some? && Authorised(e.expanded, b) ==>
      TurnsHarmless(Progress(queued.value, DoneThisRound(b), [], false), e.expanded, |e.expanded|, w, n, id, v)
  }

  lemma BatchHarmlessIff(b: Board, d: Decision, w: World, n: nat, id: string, v: Payload)
    requires Inv(b) && Holds(b, id, v)
    ensures var r := RunRoundOn(b, d, w);
      && (BatchHarmless(b, d, w, n, id, v) <==> AllHold(r.saves, n, id, v))
      && (AllHold(r.saves, n, id, v) && |r.saves| <= n ==> Holds(r.board, id, v))
  {
    hide AllTurns, EnqueueAll, RoundCalls, DoneThisRound, Authorised, TurnsHarmless, Inv, Extends;
    var e := RoundCalls(b, d, w);
    var queued := EnqueueAll(b, AddIntents(e.toAdmit));
    if queued.Some? && Authorised(e.expanded, b) {
      QueuedKeeps(b, AddIntents(e.toAdmit));
      TurnsHarmlessIff(Progress(queued.value, DoneThisRound(b), [], false), e.expanded, |e.expanded|, w, n, id, v);
    }
  }

  /** What a round writes under the id, as far as its first `n` saves show it, is nothing but `v`. */
  predicate RoundHarmless(b: Board, d: Decision, w: World, n: nat, id: string, v: Payload) {
    match d.kind
    case Continue =>
      !ReadingRaises(d) && !SignatureRaises(d) && EnqueueAll(b, d.commands).Some? ==>
        BatchHarmless(EnqueueAll(b, d.commands).value, d, w, n, id, v)
    case NeedTool =>
      Closes(b, d, w) && n > 0 ==> Harmless(ToolsWrote(EnqueueAll(b, d.commands).value, d.tools, |d.tools|, w, id), v)
    case _ => true
  }

  /** What a decision that closes its round leaves under the id. */
  lemma ClosingHolds(b: Board, d: Decision, w: World, id: string, v: Payload)
    requires Inv(b) && Running(b) && Closes(b, d, w) && Holds(b, id, v)
    ensures Inv(EnqueueAll(b, d.commands).value) && Holds(EnqueueAll(b, d.commands).value, id, v)
    ensures var q, c := EnqueueAll(b, d.commands).value, ClosedOn(BeforeClosing(b, d, w), w);
      && (d.kind.Continue? ==> c.artifacts == RunRoundOn(q, d, w).board.artifacts)
      && (d.kind.NeedTool? ==> (Holds(c, id, v) <==> Harmless(ToolsWrote(q, d.tools, |d.tools|, w, id), v)))
      && (d.kind.Finish? ==> Holds(c, id, v)) && d.kind in {Continue, NeedTool, Finish}
  {
    hide Inv, Extends, EnqueueAll, RunRoundOn, ToolsUpTo, JudgeRows, ReportRaises, ReadingRaises, SignatureRaises, ClosedOn, ToolsWrote;
    QueuedKeeps(b, d.commands);
    var q := EnqueueAll(b, d.commands).value;
    ActKeeps(q, d, w);
    ClosedParts(BeforeClosing(b, d, w), w);
    ToolsWroteIs(q, d.tools, |d.tools|, w, id);
  }

  lemma GuardHolds(x: Board, c: Board, grew: bool, text: Wording, signature: string, m: int, maxRepeats: int, n: nat, id: string, v: Payload)
    ensures var s := SaveAndGuard(x, c, grew, text, signature, m, maxRepeats);
      s.saves != [] && (AllHold(s.saves, n, id, v) <==> n > 0 ==> Holds(c, id, v)) && s.board.artifacts == c.artifacts
  {
    hide Board.AcceptanceSnapshot;
    var s := SaveAndGuard(x, c, grew, text, signature, m, maxRepeats);
    assert s.saves[0] == c && forall i :: 0 <= i < |s.saves| ==> s.saves[i].artifacts == c.artifacts;
  }

  /** A round that is left at once saves at most its own stop, with the artifacts it found. */
  lemma LeavingHolds(b: Board, d: Decision, w: World, g: Guard, maxRepeats: int)
    requires Inv(b) && Running(b) && !Closes(b, d, w) && !d.kind.Continue?
    ensures var s := Round(b, d, w, g, maxRepeats); forall i :: 0 <= i < |s.saves| ==> s.saves[i].artifacts == b.artifacts
  {
    hide Signature, Inv, Extends, EnqueueAll, RunRoundOn, ToolsUpTo, JudgeRows, ReportRaises, EndRound, ReadingRaises, SignatureRaises;
    if EnqueueAll(b, d.commands).Some? { QueuedKeeps(b, d.commands); }
  }

  /** A round's first `n` saves all keep the record if and only if what it writes under its id is the same record. */
  lemma RoundHarmlessIff(b: Board, d: Decision, w: World, g: Guard, maxRepeats: int, n: nat, id: string, v: Payload)
    requires Inv(b) && Running(b) && Holds(b, id, v)
    ensures var s := Round(b, d, w, g, maxRepeats);
      && (RoundHarmless(b, d, w, n, id, v) <==> AllHold(s.saves, n, id, v))
      && (s.flow.Next? && AllHold(s.saves, n, id, v) && |s.saves| <= n ==> Holds(s.board, id, v))
  {
    hide Round, Inv, Extends, Closes, ClosedOn, BeforeClosing, EnqueueAll, RunRoundOn, BatchHarmless, ToolsWrote, Harmless, Holds, AllHold,
         ReadingRaises, SignatureRaises, SaveAndGuard, Signature, Repeats, Escapes;
    var s := Round(b, d, w, g, maxRepeats);
    if Closes(b, d, w) {
      ClosedIff(b, d, w, g, maxRepeats, n, id, v);
    } else {
      RoundLeaves(b, d, w, g, g, maxRepeats, 0);
      if d.kind.Continue? {
        RaisedIff(b, d, w, g, maxRepeats, n, id, v);
      } else {
        LeavingHolds(b, d, w, g, maxRepeats);
        SameArtifactsHold(b, s.saves, n, id, v);
        NotClosed(b, d, w, n, id, v);
      }
    }
  }

  lemma NotClosed(b: Board, d: Decision, w: World, n: nat, id: string, v: Payload)
    requires !Closes(b, d, w) && !d.kind.Continue?
    ensures RoundHarmless(b, d, w, n, id, v)
  {
    hide Closes;
  }

  lemma SameArtifactsHold(b: Board, saves: seq<Board>, n: nat, id: string, v: Payload)
    requires Holds(b, id, v) && forall i :: 0 <= i < |saves| ==> saves[i].artifacts == b.artifacts
    ensures AllHold(saves, n, id, v)
  {
  }

  /** A round with turns that raises saves them and no more. */
  lemma RaisedIff(b: Board, d: Decision, w: World, g: Guard, maxRepeats: int, n: nat, id: string, v: Payload)
    requires Inv(b) && Running(b) && Holds(b, id, v) && !Closes(b, d, w) && d.kind.Continue?
    ensures RoundHarmless(b, d, w, n, id, v) <==> AllHold(Round(b, d, w, g, maxRepeats).saves, n, id, v)
  {
    hide Round, Inv, Extends, ClosedOn, BeforeClosing, EnqueueAll, RunRoundOn, BatchHarmless, AllHold, ReadingRaises, SignatureRaises,
         Signature, Repeats, Holds;
    EscapesIff(b, d, w, g, maxRepeats);
    if !Escapes(b, d, w) { SettledRound(b, d, w); }
    if EnqueueAll(b, d.commands).Some? {
      QueuedHolds(b, d, id, v);
      BatchHarmlessIff(EnqueueAll(b, d.commands).value, d, w, n, id, v);
    }
    NoneHold(n, id, v);
  }

  lemma QueuedHolds(b: Board, d: Decision, id: string, v: Payload)
    requires Inv(b) && Holds(b, id, v) && EnqueueAll(b, d.commands).Some?
    ensures Inv(EnqueueAll(b, d.commands).value) && Holds(EnqueueAll(b, d.commands).value, id, v)
  {
    hide EnqueueAll, Inv, Extends;
    QueuedKeeps(b, d.commands);
  }

  lemma NoneHold(n: nat, id: string, v: Payload)
    ensures AllHold([], n, id, v)
  {
  }

  lemma ClosedIff(b: Board, d: Decision, w: World, g: Guard, maxRepeats: int, n: nat, id: string, v: Payload)
    requires Inv(b) && Running(b) && Holds(b, id, v) && Closes(b, d, w)
    ensures var s := Round(b, d, w, g, maxRepeats);
      && (RoundHarmless(b, d, w, n, id, v) <==> AllHold(s.saves, n, id, v))
      && (AllHold(s.saves, n, id, v) && |s.saves| <= n ==> Holds(s.board, id, v))
  {
    hide Round, Inv, Extends, ClosedOn, BeforeClosing, EnqueueAll, RunRoundOn, BatchHarmless, ToolsWrote, Harmless, AllHold,
         ReadingRaises, SignatureRaises, SaveAndGuard, Signature, Repeats, Act;
    ClosingHolds(b, d, w, id, v);
    RoundCloses(b, d, w, g, maxRepeats, 0);
    StartsWithItself(b, d, w);
    NoneHold(n, id, v);
    var turns, c := TurnSaves(b, d, w), ClosedOn(BeforeClosing(b, d, w), w);
    var e := SaveAndGuard(b, c, |c.roster| > |b.roster|, w.text, Signature(d), Repeats(g, Signature(d)), maxRepeats);
    var m := if n > |turns| then n - |turns| else 0;
    GuardHolds(b, c, |c.roster| > |b.roster|, w.text, Signature(d), Repeats(g, Signature(d)), maxRepeats, m, id, v);
    HoldConcat(turns, e.saves, n, id, v);
    BatchHarmlessIff(EnqueueAll(b, d.commands).value, d, w, n, id, v);
  }

  // ---------------------------------------------------------------- a life, and many

  /** So for each round of a drive, as far as its first `n` saves. */
  predicate DriveHarmless(e: Entry, w: World, lim: Limits, n: nat, id: string, v: Payload)
    decreases e.board.maxRounds - e.board.round
  {
    var reply := Decide(w, e.board.round, 0, e.parseErrors, lim.maxParseErrors);
    Running(e.board) && reply.decision.Some? ==>
      var s, next := Round(e.board, reply.decision.value, w, e.guard, lim.maxRepeats), OneRound(e, w, lim);
      && RoundHarmless(e.board, reply.decision.value, w, n, id, v)
      && (next.Some? && n > |s.saves| ==> DriveHarmless(next.value.entry, w, lim, n - |s.saves|, id, v))
  }

  lemma {:induction false} DriveHarmlessIff(e: Entry, w: World, lim: Limits, n: nat, id: string, v: Payload)
    requires Inv(e.board) && Holds(e.board, id, v)
    ensures DriveHarmless(e, w, lim, n, id, v) <==> AllHold(DriveOn(e, w, lim).saves, n, id, v)
    decreases e.board.maxRounds - e.board.round
  {
    hide Round, Decide, Inv, Extends, Holds, AllHold, RoundHarmless, Signature, DriveOn, OneRound;
    if Running(e.board) && Decide(w, e.board.round, 0, e.parseErrors, lim.maxParseErrors).decision.Some? {
      var d := Decide(w, e.board.round, 0, e.parseErrors, lim.maxParseErrors).decision.value;
      var s := Round(e.board, d, w, e.guard, lim.maxRepeats);
      RoundHarmlessIff(e.board, d, w, e.guard, lim.maxRepeats, n, id, v);
      DriveUnfolds(e, d, w, lim);
      if s.flow.Next? {
        var next := OneRound(e, w, lim).value.entry;
        GuardAfter(e, d, w, lim);
        HoldConcat(s.saves, DriveOn(next, w, lim).saves, n, id, v);
        if n > |s.saves| && Holds(next.board, id, v) { DriveHarmlessIff(next, w, lim, n - |s.saves|, id, v); }
      }
    } else {
      EndHolds(e, w, lim, n, id, v);
    }
  }

  lemma EndHolds(e: Entry, w: World, lim: Limits, n: nat, id: string, v: Payload)
    requires Holds(e.board, id, v)
    requires !Running(e.board) || Decide(w, e.board.round, 0, e.parseErrors, lim.maxParseErrors).decision.None?
    ensures AllHold(DriveOn(e, w, lim).saves, n, id, v)
  {
    hide Round, Decide;
  }

  /** What one more life begins on. */
  function Reborn(first: Board, lives: seq<Life>): Entry { Entry(Persisted(Durable(first, lives)), FRESH, 0) }

  /** Every checkpoint that reached the disk in these lives. */
  function Checkpoints(first: Board, lives: seq<Life>): seq<Board> {
    if lives == [] then []
    else
      var front, life := lives[..|lives| - 1], lives[|lives| - 1];
      var saves := DriveOn(Reborn(first, front), life.world, life.limits).saves;
      Checkpoints(first, front) + saves[..if life.survived < |saves| then life.survived else |saves|]
  }

  /** Whatever the turns and tools of these lives write under the id, as far as it reaches the disk, is `v`. */
  predicate LivesHarmless(first: Board, lives: seq<Life>, id: string, v: Payload) {
    lives == [] ||
    (LivesHarmless(first, lives[..|lives| - 1], id, v)
     && var life := lives[|lives| - 1];
        DriveHarmless(Reborn(first, lives[..|lives| - 1]), life.world, life.limits, life.survived, id, v))
  }

  lemma HoldPrefix(saves: seq<Board>, n: nat, id: string, v: Payload)
    ensures var k := if n < |saves| then n else |saves|; AllHold(saves, n, id, v) <==> forall c :: c in saves[..k] ==> Holds(c, id, v)
  {
    hide Holds;
    var k := if n < |saves| then n else |saves|;
    if forall c :: c in saves[..k] ==> Holds(c, id, v) {
      forall i | 0 <= i < n && i < |saves| ensures Holds(saves[i], id, v) { assert saves[..k][i] == saves[i]; }
    }
  }

  /** The last of them, if there is one, is the checkpoint that a resume would load. */
  lemma {:induction false} LastCheckpoint(first: Board, lives: seq<Life>)
    ensures var cs := Checkpoints(first, lives); Durable(first, lives) == if cs == [] then first else cs[|cs| - 1]
  {
    hide DriveFrom;
    if lives != [] { LastCheckpoint(first, lives[..|lives| - 1]); }
  }

  /** A record of the first checkpoint is unchanged in every checkpoint of any lives if and only if whatever their
      turns and tools write under its id is the same record again. */
  lemma {:induction false} RecordSurvivesIff(first: Board, lives: seq<Life>, id: string)
    requires Inv(first) && id in first.artifacts
    ensures LivesHarmless(first, lives, id, first.artifacts[id])
      <==> forall c :: c in Checkpoints(first, lives) ==> Holds(c, id, first.artifacts[id])
    ensures LivesHarmless(first, lives, id, first.artifacts[id]) ==> Holds(Durable(first, lives), id, first.artifacts[id])
  {
    hide Inv, Extends, DriveOn, DriveHarmless, Durable, Persisted;
    var v := first.artifacts[id];
    LastCheckpoint(first, lives);
    if lives != [] {
      var front, life := lives[..|lives| - 1], lives[|lives| - 1];
      RecordSurvivesIff(first, front, id);
      LastCheckpoint(first, front);
      DurableKeeps(first, front);
      PersistedHolds(Durable(first, front), id, v);
      var e := Reborn(first, front);
      HoldPrefix(DriveOn(e, life.world, life.limits).saves, life.survived, id, v);
      if Holds(e.board, id, v) { DriveHarmlessIff(e, life.world, life.limits, life.survived, id, v); }
    }
  }

  lemma PersistedHolds(b: Board, id: string, v: Payload)
    requires Inv(b)
    ensures Inv(Persisted(b)) && (Holds(Persisted(b), id, v) <==> Holds(b, id, v))
  {
    hide Inv;
    PersistedKeeps(b);
  }

  /** So for what a passed criterion of a checkpoint cites. */
  lemma EvidenceSurvivesIff(first: Board, lives: seq<Life>, i: nat, e: string)
    requires Inv(first) && i < |first.checks| && first.checks[i].status == "passed" && e in first.checks[i].evidence
    ensures e in first.artifacts
    ensures LivesHarmless(first, lives, e, first.artifacts[e])
      <==> forall c :: c in Checkpoints(first, lives) ==> Holds(c, e, first.artifacts[e])
  {
    hide LivesHarmless, Checkpoints;
    assert Grounded(first.checks[i], first.artifacts.Keys);
    RecordSurvivesIff(first, lives, e);
  }
}
