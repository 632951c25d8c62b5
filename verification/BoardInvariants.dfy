/** What every step on the Blackboard keeps. */
module BoardInvariants {
  import opened Text
  import opened TaskBoard
  import opened Departments
  import opened CommandBridge
  import opened Rounds
  import opened Turns

  /** No agent has two turns in one round, no turn is from the future, every turn is a member's. */
  ghost predicate TurnInv(b: Board) {
    && (forall i :: 0 <= i < |b.turns| ==> b.turns[i].round <= b.round && b.turns[i].agent in b.roster)
    && (forall i, j :: 0 <= i < j < |b.turns| ==>
          b.turns[i].round != b.turns[j].round || b.turns[i].agent != b.turns[j].agent)
  }

  /** Everything a turn cites is among the known artifacts. */
  ghost predicate TurnCited(t: Turn, known: set<string>) {
    t.packetId in known && forall id :: id in t.artifactIds ==> id in known
  }

  /** Turns and tool results cite only artifacts that are on the board. */
  ghost predicate Cited(b: Board) {
    (forall i :: 0 <= i < |b.turns| ==> TurnCited(b.turns[i], b.artifacts.Keys)) && b.toolResults.Keys <= b.artifacts.Keys
  }

  ghost predicate Grounded(c: Check, known: set<string>) {
    c.status == "passed" ==> c.evidence != [] && forall e :: e in c.evidence ==> e in known
  }

  /** A passed check cites evidence, all of it on the board; a check hidden behind an earlier one with
      the same id never passes. */
  ghost predicate ChecksInv(checks: seq<Check>, known: set<string>) {
    && (forall i :: 0 <= i < |checks| ==> Grounded(checks[i], known))
    && (forall i, j :: 0 <= i < j < |checks| && checks[i].id == checks[j].id ==> checks[j].status != "passed")
  }

  ghost predicate Inv(b: Board) {
    && TurnInv(b)
    && Cited(b)
    && ChecksInv(b.checks, b.artifacts.Keys)
    && QueueInv(b)
    && (b.status == Finished ==> b.AllAccepted())
    && (b.finalOutput.Some? ==> b.status == Finished)
  }

  ghost predicate SameIds(a: seq<Check>, b: seq<Check>) {
    |a| == |b| && forall i :: 0 <= i < |a| ==> a[i].id == b[i].id
  }

  /** The later board continues the earlier one: nothing recorded is dropped or reordered. */
  ghost predicate Extends(b: Board, c: Board) {
    && c.sessionId == b.sessionId && c.taskId == b.taskId && c.maxRounds == b.maxRounds
    && b.roster <= c.roster && b.turns <= c.turns && b.applied <= c.applied && b.round <= c.round
    && b.artifacts.Keys <= c.artifacts.Keys && SameIds(b.checks, c.checks)
  }

  lemma ExtendsTransitive(a: Board, b: Board, c: Board)
    requires Extends(a, b) && Extends(b, c)
    ensures Extends(a, c)
  {}

  // ---------------------------------------------------------------- artifacts only

  /** `c` differs from `b` in its artifacts (and tool results), and loses none. */
  ghost predicate OnlyArtifacts(b: Board, c: Board) {
    b.artifacts.Keys <= c.artifacts.Keys && c.toolResults.Keys <= b.toolResults.Keys + c.artifacts.Keys
    && c == b.(artifacts := c.artifacts, toolResults := c.toolResults)
  }

  lemma OnlyArtifactsKeeps(b: Board, c: Board)
    requires OnlyArtifacts(b, c) && Inv(b)
    ensures Inv(c) && Extends(b, c) && DoneThisRound(c) == DoneThisRound(b)
  {}

  lemma {:induction false} WorkerArtifactsOnly(b: Board, agent: string, arts: seq<Artifact>)
    ensures OnlyArtifacts(b, AddWorkerArtifacts(b, agent, arts))
  {
    if arts != [] { WorkerArtifactsOnly(b, agent, arts[..|arts| - 1]); }
  }

  lemma {:induction false} ToolsOnly(b: Board, tools: seq<ToolRequest>, k: nat, w: World)
    requires k <= |tools|
    ensures OnlyArtifacts(b, ToolsUpTo(b, tools, k, w))
  {
    hide ToolStep;
    if k > 0 {
      ToolsOnly(b, tools, k - 1, w);
      ToolStepOnly(ToolsUpTo(b, tools, k - 1, w), tools[k - 1].tool, w.tool(b.round, k - 1));
    }
  }

  lemma ToolStepOnly(b: Board, tool: string, envelope: Payload)
    ensures OnlyArtifacts(b, ToolStep(b, tool, envelope))
  {
    hide NextId, ToolRecord;
  }

  // ---------------------------------------------------------------- one turn, one round

  lemma {:induction false} WorkerIdsLand(b: Board, agent: string, arts: seq<Artifact>)
    ensures forall id :: id in ArtifactIds(arts) ==> id in AddWorkerArtifacts(b, agent, arts).artifacts
  {
    if arts != [] {
      var front, last := arts[..|arts| - 1], arts[|arts| - 1];
      WorkerIdsLand(b, agent, front);
      assert ArtifactIds(arts) == ArtifactIds(front) + [last.id];
    }
  }

  /** The turn a completed turn records. */
  ghost predicate Records(b: Board, c: Board, agent: string, t: Turn) {
    && t.round == b.round && t.agent == agent && TurnCited(t, c.artifacts.Keys)
    && c.turns == b.turns + [t] && OnlyArtifacts(b, c.(turns := b.turns))
  }

  /** A turn keeps everything and adds exactly one turn of this round, by this agent, citing what it added. */
  lemma TurnBoardShape(b: Board, agent: string, body: Payload, worker: WorkerReply)
    requires worker.Worker?
    ensures exists t: Turn :: Records(b, TurnBoard(b, agent, body, worker), agent, t)
  {
    hide NextId, ArtifactIds, AddWorkerArtifacts;
    var packetId := NextId(CONTEXT_PACKET, b);
    var withPacket := b.WithArtifact(packetId, body);
    WorkerArtifactsOnly(withPacket, agent, worker.artifacts);
    WorkerIdsLand(withPacket, agent, worker.artifacts);
    var merged := AddWorkerArtifacts(withPacket, agent, worker.artifacts);
    var ids := ArtifactIds(worker.artifacts) + [NextId(DELEGATION_RESULT, merged)];
    var t := Turn(b.round, agent, packetId, worker.outcome, ids);
    assert Records(b, TurnBoard(b, agent, body, worker), agent, t);
  }

  lemma PushTurnKeeps(b: Board, t: Turn)
    requires Inv(b) && t.round == b.round && t.agent in b.roster && t.agent !in DoneThisRound(b) && TurnCited(t, b.artifacts.Keys)
    ensures var c := b.(turns := b.turns + [t]);
      Inv(c) && Extends(b, c) && DoneThisRound(c) == DoneThisRound(b) + {t.agent}
  {
    hide TurnCited, ChecksInv;
    var c := b.(turns := b.turns + [t]);
    assert c.turns[|b.turns|] == t;
    forall i | 0 <= i < |b.turns| && b.turns[i].round == t.round ensures b.turns[i].agent != t.agent {
      assert b.turns[i].agent in DoneThisRound(b);
    }
    forall a ensures a in DoneThisRound(c) <==> a in DoneThisRound(b) || a == t.agent {
      if a in DoneThisRound(b) {
        var i :| 0 <= i < |b.turns| && b.turns[i].round == b.round && b.turns[i].agent == a;
        assert c.turns[i] == b.turns[i];
      }
    }
  }

  /** What stays fixed while a round's turns run: only turns and artifacts move. */
  ghost predicate MidRound(b: Board, c: Board) {
    && Inv(c) && Extends(b, c)
    && c == b.(turns := c.turns, artifacts := c.artifacts, toolResults := c.toolResults)
    && (forall i :: |b.turns| <= i < |c.turns| ==> c.turns[i].round == b.round && c.turns[i].agent in b.roster)
  }

  ghost predicate ProgressInv(b: Board, p: Progress) {
    && MidRound(b, p.board) && p.done == DoneThisRound(p.board)
    && (forall i :: 0 <= i < |p.saves| ==> MidRound(b, p.saves[i]))
    && Chained(p.saves, p.board)
  }

  /** Every save continues the one before, and the board continues them all. */
  ghost predicate Chained(saves: seq<Board>, last: Board) {
    && (forall i, j :: 0 <= i < j < |saves| ==> Extends(saves[i], saves[j]))
    && (forall i :: 0 <= i < |saves| ==> Extends(saves[i], last))
  }

  lemma ChainedPush(saves: seq<Board>, last: Board, next: Board)
    requires Chained(saves, last) && Extends(last, next)
    ensures Chained(saves, next) && Chained(saves + [next], next)
  {
    hide Extends;
    forall i | 0 <= i < |saves| ensures Extends(saves[i], next) { ExtendsTransitive(saves[i], last, next); }
    SameBoard(next);
  }

  /** One completed turn, mid-round. */
  lemma TurnBoardKeeps(b: Board, m: Board, agent: string, body: Payload, worker: WorkerReply)
    requires MidRound(b, m) && worker.Worker? && agent in b.roster && agent !in DoneThisRound(m)
    ensures var c := TurnBoard(m, agent, body, worker);
      MidRound(b, c) && Extends(m, c) && DoneThisRound(c) == DoneThisRound(m) + {agent}
  {
    hide TurnBoard, Inv, Extends, DoneThisRound;
    TurnBoardShape(m, agent, body, worker);
    var c := TurnBoard(m, agent, body, worker);
    var t: Turn :| Records(m, c, agent, t);
    var n := c.(turns := m.turns);
    OnlyArtifactsKeeps(m, n);
    PushTurnKeeps(n, t);
    assert c == n.(turns := n.turns + [t]);
    ExtendsTransitive(b, m, n);
    ExtendsTransitive(b, n, c);
    ExtendsTransitive(m, n, c);
    DoneSame(m, n);
  }

  lemma DoneSame(b: Board, c: Board)
    requires c.turns == b.turns && c.round == b.round
    ensures DoneThisRound(c) == DoneThisRound(b)
  {
  }

  lemma TurnStepKeeps(b: Board, p: Progress, agent: string, reply: TurnReply)
    requires ProgressInv(b, p) && agent in b.roster
    ensures ProgressInv(b, TurnStep(p, agent, reply))
  {
    hide TurnBoard, MidRound, DoneThisRound, Extends, Chained;
    if !p.raised && agent !in p.done && !Broken(agent, reply) {
      TurnBoardKeeps(b, p.board, agent, reply.body, reply.worker);
      ChainedPush(p.saves, p.board, TurnStep(p, agent, reply).board);
    }
  }

  lemma {:induction false} AllTurnsKeep(b: Board, calls: seq<Assignment>, k: nat, w: World)
    requires Inv(b) && k <= |calls| && Authorised(calls, b)
    ensures ProgressInv(b, AllTurns(Progress(b, DoneThisRound(b), [], false), calls, k, w))
  {
    hide TurnStep, Inv, DoneThisRound;
    if k > 0 {
      AllTurnsKeep(b, calls, k - 1, w);
      var p := AllTurns(Progress(b, DoneThisRound(b), [], false), calls, k - 1, w);
      TurnStepKeeps(b, p, calls[k - 1].agent, w.turn(b.round, k - 1));
    }
  }

  /** A round, however it ends: every board it checkpoints is sound, continues the board it began with and
      every earlier checkpoint; every turn it adds is of this round and by an agent already on the roster when it began,
      so an absent member of a targeted department never runs, only queues. */
  lemma RunRoundKeeps(b: Board, d: Decision, w: World)
    requires Inv(b) && !b.Terminal()
    ensures var r := RunRoundOn(b, d, w);
      && Inv(r.board) && Extends(b, r.board)
      && (!r.raised ==> r.board.status == InDiscussion)
      && (forall i :: 0 <= i < |r.saves| ==> Inv(r.saves[i]) && Extends(b, r.saves[i]))
      && Chained(r.saves, r.board)
      && (!r.raised ==> EnqueueAll(b, AddIntents(RoundCalls(b, d, w).toAdmit)).Some?
                        && r.board.pending == EnqueueAll(b, AddIntents(RoundCalls(b, d, w).toAdmit)).value.pending)
      && r.board.round == b.round && r.board.roster == b.roster && r.board.checks == b.checks
      && (forall i :: |b.turns| <= i < |r.board.turns| ==>
            r.board.turns[i].round == b.round && r.board.turns[i].agent in b.roster)
  {
    hide Inv, Extends, AllTurns, EnqueueAll, DoneThisRound, Authorised, RoundCalls, Chained;
    NothingChained(b);
    var e := RoundCalls(b, d, w);
    var queued := EnqueueAll(b, AddIntents(e.toAdmit));
    SameBoard(b);
    if queued.Some? && Authorised(e.expanded, b) {
      QueuedKeeps(b, AddIntents(e.toAdmit));
      var q := queued.value;
      RosterAuthorises(b, q, e.expanded);
      AllTurnsKeep(q, e.expanded, |e.expanded|, w);
      var p := AllTurns(Progress(q, DoneThisRound(q), [], false), e.expanded, |e.expanded|, w);
      ExtendsTransitive(b, q, p.board);
      InDiscussionKeeps(p.board);
      ExtendsTransitive(b, p.board, p.board.(status := InDiscussion));
      ChainedPush(p.saves, p.board, p.board.(status := InDiscussion));
      forall i | 0 <= i < |p.saves| ensures Extends(b, p.saves[i]) {
        ExtendsTransitive(b, q, p.saves[i]);
      }
    }
  }

  lemma SameBoard(b: Board)
    ensures Extends(b, b)
  {
  }

  lemma NothingChained(b: Board)
    ensures Chained([], b)
  {
  }

  lemma QueuedKeeps(b: Board, intents: seq<Intent>)
    requires Inv(b) && EnqueueAll(b, intents).Some?
    ensures var q := EnqueueAll(b, intents).value;
      Inv(q) && Extends(b, q) && DoneThisRound(q) == DoneThisRound(b) && q == b.(pending := q.pending)
  {
    hide EnqueueAll;
    EnqueueKeepsInv(b, intents);
  }

  lemma RosterAuthorises(b: Board, q: Board, calls: seq<Assignment>)
    requires q.roster == b.roster
    ensures Authorised(calls, q) <==> Authorised(calls, b)
  {
  }

  lemma InDiscussionKeeps(b: Board)
    requires Inv(b) && !b.Terminal()
    ensures Inv(b.(status := InDiscussion)) && Extends(b, b.(status := InDiscussion))
  {
    hide TurnInv, Cited, QueueInv, ChecksInv;
    JudgedParts(b, b.(status := InDiscussion));
  }

  /** The members a round defers are exactly the absent members of the departments it targets. */
  lemma RoundDefersAbsentMembers(b: Board, d: Decision, w: World, m: string)
    requires w.registry.Some?
    ensures m in RoundCalls(b, d, w).toAdmit
       <==> (m !in b.roster && DepartmentMember(d.calls, w.registry.value, m))
  {
    ExpandExact(d.calls, w.registry.value, Selected(b));
  }

  /** `m` is an absent member of some department this batch targets. */
  ghost predicate Deferred(b: Board, d: Decision, w: World, m: string) {
    w.registry.Some? && exists x :: DepartmentMember(d.calls, w.registry.value, x) && x !in b.roster && Strip(x) == m
  }

  lemma DeferredAreNamed(b: Board, d: Decision, w: World, m: string)
    ensures Named(RoundCalls(b, d, w).toAdmit, m) <==> Deferred(b, d, w, m)
  {
    hide Expand;
    var ms := RoundCalls(b, d, w).toAdmit;
    if w.registry.Some? {
      ExpandExact(d.calls, w.registry.value, Selected(b));
      if Deferred(b, d, w, m) {
        var x :| DepartmentMember(d.calls, w.registry.value, x) && x !in b.roster && Strip(x) == m;
        assert x in ms;
      }
      if Named(ms, m) {
        var i :| 0 <= i < |ms| && Strip(ms[i]) == m;
        assert ms[i] in ms;
      }
    }
  }

  /** Who a round that began with this queue will admit when it ends: whom a queued command adds, and every
      absent member of a targeted department whose derived key is free. */
  ghost predicate Joins(b: Board, d: Decision, w: World, m: string) {
    m in w.Catalog()
    && (Targeted(b.pending, w.types, w.Catalog(), m)
        || (AddsNow(w.types) && b.sessionId != "" && Deferred(b, d, w, m) && !Taken(b, AddKey(m))))
  }

  /** What a round that completes leaves in the queue. */
  lemma RoundQueues(b: Board, d: Decision, w: World, m: string)
    requires Inv(b) && !b.Terminal() && !RunRoundOn(b, d, w).raised
    ensures Targeted(RunRoundOn(b, d, w).board.pending, w.types, w.Catalog(), m) <==> Joins(b, d, w, m)
  {
    hide RunRoundOn, EnqueueAll, RoundCalls, Deferred, Inv, Taken, World.Catalog;
    var ms := RoundCalls(b, d, w).toAdmit;
    RunRoundKeeps(b, d, w);
    DeferredAreNamed(b, d, w, m);
    if m in w.Catalog() { MembersTargeted(b, ms, w.types, w.Catalog(), m); }
  }

  /** Assignment `k` of the batch runs: its agent has no turn this round, and none earlier in the batch. */
  predicate Due(calls: seq<Assignment>, done: set<string>, k: nat)
    requires k < |calls|
  {
    calls[k].agent !in done && forall j :: 0 <= j < k ==> calls[j].agent != calls[k].agent
  }

  /** The turn of assignment `k` breaks off. */
  predicate BreaksAt(calls: seq<Assignment>, done: set<string>, k: nat, round: int, w: World) {
    k < |calls| && Due(calls, done, k) && Broken(calls[k].agent, w.turn(round, k))
  }

  lemma {:induction false} AllTurnsRaiseIff(p0: Progress, calls: seq<Assignment>, k: nat, w: World)
    requires k <= |calls| && !p0.raised
    ensures var p := AllTurns(p0, calls, k, w);
      && (p.raised <==> exists i: nat :: i < k && BreaksAt(calls, p0.done, i, p0.board.round, w))
      && (!p.raised ==> p.done == p0.done + set i | 0 <= i < k :: calls[i].agent)
  {
    hide TurnBoard, Broken;
    if k > 0 {
      AllTurnsRaiseIff(p0, calls, k - 1, w);
      var q := AllTurns(p0, calls, k - 1, w);
      assert !q.raised ==> (calls[k - 1].agent !in q.done <==> Due(calls, p0.done, k - 1));
      assert !q.raised ==> (AllTurns(p0, calls, k, w).raised <==> BreaksAt(calls, p0.done, k - 1, p0.board.round, w));
    }
  }

  lemma MembersQueue(b: Board, members: seq<string>)
    ensures EnqueueAll(b, AddIntents(members)).Some?
  {
    MembersTargeted(b, members, map[], {""}, "");
  }

  /** When a round raises: an assignment targets nobody on the roster, or a turn that runs breaks off. */
  lemma RunRoundRaisesIff(b: Board, d: Decision, w: World)
    ensures var calls := RoundCalls(b, d, w).expanded;
      RunRoundOn(b, d, w).raised <==>
        !Authorised(calls, b) || exists k: nat :: BreaksAt(calls, DoneThisRound(b), k, b.round, w)
  {
    hide EnqueueAll, RoundCalls, AllTurns, DoneThisRound, BreaksAt, Authorised;
    var e := RoundCalls(b, d, w);
    MembersQueue(b, e.toAdmit);
    var q := EnqueueAll(b, AddIntents(e.toAdmit)).value;
    AllTurnsRaiseIff(Progress(q, DoneThisRound(b), [], false), e.expanded, |e.expanded|, w);
    BreaksWithin(e.expanded, DoneThisRound(b), b.round, w);
  }

  lemma BreaksWithin(calls: seq<Assignment>, done: set<string>, round: int, w: World)
    ensures forall k: nat :: BreaksAt(calls, done, k, round, w) ==> k < |calls|
  {
  }

  // ---------------------------------------------------------------- judging

  lemma JudgeRowKeeps(checks: seq<Check>, row: AcceptanceRow, known: set<string>, host: Host)
    requires ChecksInv(checks, known)
    ensures ChecksInv(JudgeRow(checks, row, known, host), known) && SameIds(checks, JudgeRow(checks, row, known, host))
  {}

  lemma {:induction false} JudgeRowsKeep(checks: seq<Check>, rows: seq<AcceptanceRow>, known: set<string>, host: Host)
    requires ChecksInv(checks, known)
    ensures ChecksInv(JudgeRows(checks, rows, known, host), known) && SameIds(checks, JudgeRows(checks, rows, known, host))
  {
    if rows != [] {
      JudgeRowsKeep(checks, rows[..|rows| - 1], known, host);
      JudgeRowKeeps(JudgeRows(checks, rows[..|rows| - 1], known, host), rows[|rows| - 1], known, host);
    }
  }

  lemma JudgedKeeps(b: Board, d: Decision, w: World)
    requires Inv(b) && !b.Terminal()
    ensures Inv(Judged(b, d, w)) && Extends(b, Judged(b, d, w))
  {
    hide JudgeRows, TurnInv, Cited, QueueInv, ChecksInv, SameIds;
    JudgeRowsKeep(b.checks, d.acceptance, b.artifacts.Keys, w.host);
    JudgedParts(b, Judged(b, d, w));
  }

  /** Checks and a status that is not final are no part of the turns or the queue. */
  lemma JudgedParts(b: Board, c: Board)
    requires c == b.(checks := c.checks, status := c.status)
    ensures (TurnInv(c) <==> TurnInv(b)) && (Cited(c) <==> Cited(b)) && (QueueInv(c) <==> QueueInv(b))
  {
  }

  /** The last row of a report about this criterion. */
  function LastRow(rows: seq<AcceptanceRow>, id: string): (r: Option<AcceptanceRow>)
    ensures r.Some? ==> r.value in rows && r.value.id == id
    ensures r.None? ==> forall i :: 0 <= i < |rows| ==> rows[i].id != id
  {
    if rows == [] then None
    else if rows[|rows| - 1].id == id then Some(rows[|rows| - 1])
    else LastRow(rows[..|rows| - 1], id)
  }

  /** The row claims a pass, with evidence, all of it known. */
  predicate Vouched(row: AcceptanceRow, known: set<string>, host: Host) {
    var evidence := Listed(row.evidence, host);
    row.status == "passed" && evidence != [] && forall e :: e in evidence ==> e in known
  }

  predicate Hidden(checks: seq<Check>, i: nat)
    requires i < |checks|
  {
    exists j :: 0 <= j < i && checks[j].id == checks[i].id
  }

  /** What a whole report does to a criterion: nothing if no row names it or an earlier criterion carries its
      id; otherwise its last row decides alone, whatever earlier rows or earlier reports said. */
  lemma {:induction false} ReportDecides(checks: seq<Check>, rows: seq<AcceptanceRow>, known: set<string>, i: nat, host: Host)
    requires i < |checks|
    ensures var c, last := JudgeRows(checks, rows, known, host)[i], LastRow(rows, checks[i].id);
      && c.id == checks[i].id && c.text == checks[i].text
      && (last.None? || Hidden(checks, i) ==> c == checks[i])
      && (last.Some? && !Hidden(checks, i) ==>
            && (c.status == "passed" <==> Vouched(last.value, known, host))
            && (c.status == "failed" <==> last.value.status == "failed")
            && (c.status != "pending" ==> c.evidence == Listed(last.value.evidence, host)))
    ensures SameIds(checks, JudgeRows(checks, rows, known, host))
  {
    if rows != [] {
      var front, row := rows[..|rows| - 1], rows[|rows| - 1];
      ReportDecides(checks, front, known, i, host);
      assert "passed" != "failed" && "pending" != "failed" && "pending" != "passed";
      var before := JudgeRows(checks, front, known, host);
      assert Hidden(before, i) <==> Hidden(checks, i);
      var k := FirstCheck(before, row.id);
    }
  }

  // ---------------------------------------------------------------- records are never overwritten

  /** The worker returns no id of the shape the loop generates, and none that is guarded. */
  ghost predicate CleanReply(r: TurnReply, guarded: set<string>) {
    r.Packet? && r.worker.Worker? ==>
      && (forall i, n: nat :: 0 <= i < |r.worker.artifacts| ==> !IsGen(r.worker.artifacts[i].id, n))
      && (forall i :: 0 <= i < |r.worker.artifacts| ==> r.worker.artifacts[i].id !in guarded)
  }

  ghost predicate CleanWorld(w: World, guarded: set<string>) { forall r, i: nat :: CleanReply(w.turn(r, i), guarded) }

  /** An id without a hyphen is none of the loop's own. */
  lemma HyphenFreeIsClean(r: TurnReply, guarded: set<string>)
    requires r.Packet? && r.worker.Worker?
    requires forall i :: 0 <= i < |r.worker.artifacts| ==> '-' !in r.worker.artifacts[i].id && r.worker.artifacts[i].id !in guarded
    ensures CleanReply(r, guarded)
  {
    forall i, n: nat | 0 <= i < |r.worker.artifacts| ensures !IsGen(r.worker.artifacts[i].id, n) {
      if IsGen(r.worker.artifacts[i].id, n) { GeneratedHasHyphen(r.worker.artifacts[i].id, n); }
    }
  }

  /** Generated ids stay fresh; every generated and every guarded record made so far is still there, unchanged. */
  ghost predicate RecordsSafe(b: Board, c: Board, guarded: set<string>) { IdsBounded(c) && KeepsRecords(b, c, guarded) }

  lemma RecordsSafeTransitive(a: Board, b: Board, c: Board, guarded: set<string>)
    requires RecordsSafe(a, b, guarded) && RecordsSafe(b, c, guarded)
    ensures RecordsSafe(a, c, guarded)
  {
    forall id: string, n: nat | id in a.artifacts && IsGen(id, n) ensures c.artifacts[id] == a.artifacts[id] {
      assert id in b.artifacts;
    }
  }

  lemma {:induction false} WorkerArtifactsSafe(b: Board, agent: string, arts: seq<Artifact>, guarded: set<string>)
    requires IdsBounded(b) && forall i, n: nat :: 0 <= i < |arts| ==> !IsGen(arts[i].id, n)
    requires forall i :: 0 <= i < |arts| ==> arts[i].id !in guarded
    ensures RecordsSafe(b, AddWorkerArtifacts(b, agent, arts), guarded)
  {
    if arts != [] {
      var front, last := arts[..|arts| - 1], arts[|arts| - 1];
      WorkerArtifactsSafe(b, agent, front, guarded);
      var m := AddWorkerArtifacts(b, agent, front);
      ForeignIdIsHarmless(last.id, m, ArtifactRecord(agent, last), guarded);
      RecordsSafeTransitive(b, m, AddWorkerArtifacts(b, agent, arts), guarded);
    }
  }

  lemma NextIdIsSafe(prefix: string, b: Board, payload: Payload, guarded: set<string>)
    requires Prefix(prefix) && IdsBounded(b)
    ensures var c := b.WithArtifact(NextId(prefix, b), payload);
      RecordsSafe(b, c, guarded) && |c.artifacts| == |b.artifacts| + 1
  {
    hide IsGen, NextId, Prefix, KeepsRecords, KeepsAll;
    NextIdIsFresh(prefix, b, payload);
    KeepsAllKeepsRecords(b, b.WithArtifact(NextId(prefix, b), payload), guarded);
  }

  /** A completed turn always makes progress: it adds at least two artifacts. */
  lemma TurnBoardSafe(b: Board, agent: string, reply: TurnReply, guarded: set<string>)
    requires IdsBounded(b) && CleanReply(reply, guarded) && !Broken(agent, reply)
    ensures var c := TurnBoard(b, agent, reply.body, reply.worker);
      RecordsSafe(b, c, guarded) && |c.artifacts| >= |b.artifacts| + 2
  {
    var packet := b.WithArtifact(NextId(CONTEXT_PACKET, b), reply.body);
    NextIdIsSafe(CONTEXT_PACKET, b, reply.body, guarded);
    WorkerArtifactsSafe(packet, agent, reply.worker.artifacts, guarded);
    var merged := AddWorkerArtifacts(packet, agent, reply.worker.artifacts);
    var result := merged.WithArtifact(NextId(DELEGATION_RESULT, merged), reply.worker.record);
    NextIdIsSafe(DELEGATION_RESULT, merged, reply.worker.record, guarded);
    RecordsSafeTransitive(b, packet, merged, guarded);
    RecordsSafeTransitive(b, merged, result, guarded);
    assert TurnBoard(b, agent, reply.body, reply.worker).artifacts == result.artifacts;
  }

  // ---------------------------------------------------------------- what a turn overwrites

  /** Index of the last artifact returned under this id; the length when there is none. */
  function LastUnder(arts: seq<Artifact>, id: string): (k: nat)
    ensures k <= |arts| && (k < |arts| ==> arts[k].id == id)
    ensures forall i :: (if k < |arts| then k else -1) < i < |arts| ==> arts[i].id != id
  {
    if arts == [] then 0
    else if arts[|arts| - 1].id == id then |arts| - 1
    else
      var k := LastUnder(arts[..|arts| - 1], id);
      if k < |arts| - 1 then k else |arts|
  }

  /** Of several artifacts under one id the last one stays. */
  lemma {:induction false} LastOneStays(b: Board, agent: string, arts: seq<Artifact>, id: string)
    ensures var c, k := AddWorkerArtifacts(b, agent, arts), LastUnder(arts, id);
      && (id in c.artifacts <==> k < |arts| || id in b.artifacts)
      && (k < |arts| ==> c.artifacts[id] == ArtifactRecord(agent, arts[k]))
      && (k == |arts| && id in b.artifacts ==> c.artifacts[id] == b.artifacts[id])
  {
    hide ArtifactRecord;
    if arts != [] { LastOneStays(b, agent, arts[..|arts| - 1], id); }
  }

  /** The two records of a turn itself are new to the board it began on. */
  lemma OwnIdsAreNew(b: Board, agent: string, body: Payload, worker: WorkerReply)
    requires IdsBounded(b) && worker.Worker?
    ensures var packet := b.WithArtifact(NextId(CONTEXT_PACKET, b), body);
      var merged := AddWorkerArtifacts(packet, agent, worker.artifacts);
      && NextId(CONTEXT_PACKET, b) !in b.artifacts && |packet.artifacts| == |b.artifacts| + 1
      && NextId(DELEGATION_RESULT, merged) !in packet.artifacts && |merged.artifacts| >= |packet.artifacts|
  {
    hide IsGen, NextId, KeepsAll, AddWorkerArtifacts;
    var packet := b.WithArtifact(NextId(CONTEXT_PACKET, b), body);
    var merged := AddWorkerArtifacts(packet, agent, worker.artifacts);
    NextIdIsFresh(CONTEXT_PACKET, b, body);
    WorkerArtifactsOnly(packet, agent, worker.artifacts);
    SubsetIsSmaller(packet.artifacts.Keys, merged.artifacts.Keys);
    NextIsGenerated(DELEGATION_RESULT, merged);
    assert NextId(DELEGATION_RESULT, merged) in packet.artifacts ==> |merged.artifacts| < |packet.artifacts|;
  }

  lemma SubsetIsSmaller(a: set<string>, b: set<string>)
    requires a <= b
    ensures |a| <= |b|
  {
    assert b == a + (b - a);
  }

  /** The board a turn stands on when its artifacts are in, and the id its result is then given. */
  function MergedBoard(b: Board, agent: string, body: Payload, worker: WorkerReply): Board
    requires worker.Worker?
  {
    AddWorkerArtifacts(b.WithArtifact(NextId(CONTEXT_PACKET, b), body), agent, worker.artifacts)
  }

  /** What a completed turn writes under an id, the last write counting: its result, or the last artifact returned
      under it, or its packet, or nothing. */
  function Wrote(b: Board, agent: string, body: Payload, worker: WorkerReply, id: string): Option<Payload>
    requires worker.Worker?
  {
    var k := LastUnder(worker.artifacts, id);
    if id == NextId(DELEGATION_RESULT, MergedBoard(b, agent, body, worker)) then Some(worker.record)
    else if k < |worker.artifacts| then Some(ArtifactRecord(agent, worker.artifacts[k]))
    else if id == NextId(CONTEXT_PACKET, b) then Some(body)
    else None
  }

  /** What it leaves under an id of the board. */
  function LeftUnder(b: Board, agent: string, body: Payload, worker: WorkerReply, id: string): Payload
    requires worker.Worker? && id in b.artifacts
  {
    var written := Wrote(b, agent, body, worker, id);
    if written.Some? then written.value else b.artifacts[id]
  }

  /** What a worker's artifact is kept as: its own payload, with its kind and its author where that does not say. */
  ghost predicate KeptAs(p: Payload, agent: string, a: Artifact) {
    && a.payload.JObj? && p.Keys == a.payload.fields.Keys + {"kind", "agent_id"}
    && (forall k :: k in a.payload.fields ==> p[k] == a.payload.fields[k])
    && ("kind" !in a.payload.fields ==> p["kind"] == JStr(a.kind))
    && ("agent_id" !in a.payload.fields ==> p["agent_id"] == JStr(agent))
  }

  lemma RecordKeeps(agent: string, a: Artifact)
    requires a.payload.JObj?
    ensures KeptAs(ArtifactRecord(agent, a), agent, a)
  {
    assert "kind" != "agent_id";
  }

  /** The ids on the board when a turn's result is given its own: the known ones, the packet's and the returned ones. */
  function IdsBefore(b: Board, packet: string, arts: seq<Artifact>): set<string> {
    b.artifacts.Keys + {packet} + ReturnedIds(arts)
  }

  function ReturnedIds(arts: seq<Artifact>): set<string> { set i | 0 <= i < |arts| :: arts[i].id }

  /** What a completed turn records: its agent, its outcome, its packet and, in this order, the ids of what the worker
      returned and of its result. Both ids of its own are numbered by the ids on the board at that point. */
  lemma TurnNames(b: Board, agent: string, body: Payload, worker: WorkerReply)
    requires worker.Worker?
    ensures var c, packet := TurnBoard(b, agent, body, worker), "context_packet-" + Pad4(|b.artifacts|);
      var result := "delegation_result-" + Pad4(|IdsBefore(b, packet, worker.artifacts)|);
      && c.turns == b.turns + [Turn(b.round, agent, packet, worker.outcome, ArtifactIds(worker.artifacts) + [result])]
      && c == b.(turns := c.turns, artifacts := c.artifacts)
      && c.artifacts.Keys == IdsBefore(b, packet, worker.artifacts) + {result}
  {
    hide AddWorkerArtifacts, Pad4, IdsBefore;
    assert CONTEXT_PACKET + "-" == "context_packet-" && DELEGATION_RESULT + "-" == "delegation_result-";
    WorkerArtifactsOnly(b.WithArtifact(NextId(CONTEXT_PACKET, b), body), agent, worker.artifacts);
    MergedIds(b, agent, body, worker);
  }

  lemma MergedIds(b: Board, agent: string, body: Payload, worker: WorkerReply)
    requires worker.Worker?
    ensures MergedBoard(b, agent, body, worker).artifacts.Keys == IdsBefore(b, NextId(CONTEXT_PACKET, b), worker.artifacts)
    ensures |MergedBoard(b, agent, body, worker).artifacts| == |IdsBefore(b, NextId(CONTEXT_PACKET, b), worker.artifacts)|
    ensures MergedBoard(b, agent, body, worker).toolResults == b.toolResults
  {
    hide AddWorkerArtifacts, NextId, ReturnedIds;
    WorkerArtifactsKeys(b.WithArtifact(NextId(CONTEXT_PACKET, b), body), agent, worker.artifacts);
    assert |MergedBoard(b, agent, body, worker).artifacts.Keys| == |MergedBoard(b, agent, body, worker).artifacts|;
  }

  /** What it leaves under an id: its result under the result's, else the last artifact returned under it as the
      worker gave it, else its packet under the packet's, else what was there. */
  lemma TurnWrites(b: Board, agent: string, body: Payload, worker: WorkerReply, id: string)
    requires worker.Worker? && forall i :: 0 <= i < |worker.artifacts| ==> worker.artifacts[i].payload.JObj?
    ensures var turns := TurnBoard(b, agent, body, worker).turns; turns != [] && turns[|turns| - 1].artifactIds != []
    ensures var c, k := TurnBoard(b, agent, body, worker), LastUnder(worker.artifacts, id);
      var t := c.turns[|c.turns| - 1]; var result := t.artifactIds[|t.artifactIds| - 1];
      && (id in c.artifacts <==> id in b.artifacts || id == result || id == t.packetId || k < |worker.artifacts|)
      && (id == result ==> c.artifacts[id] == worker.record)
      && (id != result && k < |worker.artifacts| ==> KeptAs(c.artifacts[id], agent, worker.artifacts[k]))
      && (id != result && k == |worker.artifacts| && id == t.packetId ==> c.artifacts[id] == body)
      && (id != result && k == |worker.artifacts| && id != t.packetId && id in b.artifacts ==> c.artifacts[id] == b.artifacts[id])
  {
    hide ArtifactRecord, AddWorkerArtifacts, NextId, LastUnder, KeptAs;
    LastOneStays(b.WithArtifact(NextId(CONTEXT_PACKET, b), body), agent, worker.artifacts, id);
    var k := LastUnder(worker.artifacts, id);
    if k < |worker.artifacts| { RecordKeeps(agent, worker.artifacts[k]); }
  }

  lemma {:induction false} WorkerArtifactsKeys(b: Board, agent: string, arts: seq<Artifact>)
    ensures AddWorkerArtifacts(b, agent, arts).artifacts.Keys == b.artifacts.Keys + ReturnedIds(arts)
    ensures AddWorkerArtifacts(b, agent, arts).toolResults == b.toolResults
  {
    hide ArtifactRecord;
    if arts != [] {
      var front := arts[..|arts| - 1];
      WorkerArtifactsKeys(b, agent, front);
      assert ReturnedIds(arts) == ReturnedIds(front) + {arts[|arts| - 1].id};
    }
  }

  lemma TurnLeaves(b: Board, agent: string, body: Payload, worker: WorkerReply, id: string)
    requires worker.Worker? && id in b.artifacts
    ensures var c := TurnBoard(b, agent, body, worker); id in c.artifacts && c.artifacts[id] == LeftUnder(b, agent, body, worker, id)
  {
    hide ArtifactRecord, AddWorkerArtifacts, NextId, LastUnder;
    LastOneStays(b.WithArtifact(NextId(CONTEXT_PACKET, b), body), agent, worker.artifacts, id);
  }

  /** What a turn overwrites, exactly, on any board: everything keeps its value if and only if what the turn leaves
      under each known id is the very record that was there. */
  lemma TurnPreservesIff(b: Board, agent: string, body: Payload, worker: WorkerReply)
    requires worker.Worker?
    ensures KeepsAll(b, TurnBoard(b, agent, body, worker)) <==>
      forall id :: id in b.artifacts ==> LeftUnder(b, agent, body, worker, id) == b.artifacts[id]
  {
    hide TurnBoard, LeftUnder;
    var c := TurnBoard(b, agent, body, worker);
    forall id | id in b.artifacts ensures id in c.artifacts && c.artifacts[id] == LeftUnder(b, agent, body, worker, id) {
      TurnLeaves(b, agent, body, worker, id);
    }
  }

  /** On a board whose ids of the loop's own shape are all below its count only the worker's ids matter: the turn
      preserves everything if and only if each known id it returns comes last with the very record the board has. */
  lemma BoundedTurnPreservesIff(b: Board, agent: string, body: Payload, worker: WorkerReply)
    requires IdsBounded(b) && worker.Worker?
    ensures KeepsAll(b, TurnBoard(b, agent, body, worker)) <==>
      forall id :: id in b.artifacts && id in ArtifactIds(worker.artifacts) ==>
        var k := LastUnder(worker.artifacts, id); k < |worker.artifacts| && ArtifactRecord(agent, worker.artifacts[k]) == b.artifacts[id]
  {
    hide ArtifactRecord, AddWorkerArtifacts, NextId, IdsBounded, LastUnder;
    OwnIdsAreNew(b, agent, body, worker);
    TurnPreservesIff(b, agent, body, worker);
    forall id | id in b.artifacts
      ensures var k := LastUnder(worker.artifacts, id);
        && (k < |worker.artifacts| <==> id in ArtifactIds(worker.artifacts))
        && LeftUnder(b, agent, body, worker, id)
             == if k < |worker.artifacts| then ArtifactRecord(agent, worker.artifacts[k]) else b.artifacts[id]
    {
      ReturnedIff(worker.artifacts, id);
    }
  }

  lemma ReturnedIff(arts: seq<Artifact>, id: string)
    ensures LastUnder(arts, id) < |arts| <==> id in ArtifactIds(arts)
  {
    var k := LastUnder(arts, id);
    if k < |arts| { assert ArtifactIds(arts)[k] == id; }
  }

  lemma {:induction false} WorkerArtifactsCount(b: Board, agent: string, arts: seq<Artifact>)
    ensures var n := |AddWorkerArtifacts(b, agent, arts).artifacts|;
      && n <= |b.artifacts| + |arts|
      && (n == |b.artifacts| + |arts| <==> Distinct(ArtifactIds(arts)) && forall id :: id in ArtifactIds(arts) ==> id !in b.artifacts)
  {
    hide ArtifactRecord, LastUnder;
    if arts != [] {
      var front, last := arts[..|arts| - 1], arts[|arts| - 1];
      var m := AddWorkerArtifacts(b, agent, front);
      WorkerArtifactsCount(b, agent, front);
      OneMore(m.artifacts, last.id, ArtifactRecord(agent, last));
      LastOneStays(b, agent, front, last.id);
      ReturnedIff(front, last.id);
      assert ArtifactIds(arts) == ArtifactIds(front) + [last.id];
      PushedIds(ArtifactIds(front), last.id, b.artifacts.Keys);
    }
  }

  lemma PushedIds(ids: seq<string>, id: string, known: set<string>)
    ensures (Distinct(ids + [id]) && forall x :: x in ids + [id] ==> x !in known)
       <==> Distinct(ids) && (forall x :: x in ids ==> x !in known) && id !in ids && id !in known
  {
    var all := ids + [id];
    assert all[|ids|] == id;
    if Distinct(all) {
      assert forall i :: 0 <= i < |ids| ==> all[i] == ids[i];
    }
    assert forall x :: x in ids ==> x in all;
  }

  lemma GenDiffers(p: string, m: nat, q: string, n: nat)
    requires p != q || m != n
    ensures Gen(p, m) != Gen(q, n)
  {
    if Gen(p, m) == Gen(q, n) { GenInjective(p, m, q, n); }
  }

  /** The two ids a turn generates itself are not the same, whatever the counts. */
  lemma OwnIdsDiffer(m: nat, n: nat)
    ensures Gen(CONTEXT_PACKET, m) != Gen(DELEGATION_RESULT, n)
  {
    assert CONTEXT_PACKET[0] != DELEGATION_RESULT[0];
    GenDiffers(CONTEXT_PACKET, m, DELEGATION_RESULT, n);
  }

  /** A completed turn records all it was given, exactly, on any board: the board grows by the packet, every returned
      artifact and the result if and only if the returned ids are distinct and the board has none of them, nor the
      packet's, nor the one the result is about to take, and the worker returns neither of those two. */
  lemma TurnLosesNothingIff(b: Board, agent: string, body: Payload, worker: WorkerReply)
    requires worker.Worker?
    ensures var n, ids := |worker.artifacts|, ArtifactIds(worker.artifacts);
      var own := {Gen(CONTEXT_PACKET, |b.artifacts|), Gen(DELEGATION_RESULT, |b.artifacts| + 1 + n)};
      |TurnBoard(b, agent, body, worker).artifacts| == |b.artifacts| + n + 2 <==>
        && Distinct(ids) && (forall id :: id in ids ==> id !in b.artifacts && id !in own) && (forall id :: id in own ==> id !in b.artifacts)
  {
    hide ArtifactRecord, AddWorkerArtifacts, LastUnder, Gen, ArtifactIds, Distinct;
    var packetId := NextId(CONTEXT_PACKET, b);
    var packet := b.WithArtifact(packetId, body);
    var merged := AddWorkerArtifacts(packet, agent, worker.artifacts);
    var resultId := NextId(DELEGATION_RESULT, merged);
    OneMore(b.artifacts, packetId, body);
    WorkerArtifactsCount(packet, agent, worker.artifacts);
    OneMore(merged.artifacts, resultId, worker.record);
    LastOneStays(packet, agent, worker.artifacts, resultId);
    ReturnedIff(worker.artifacts, resultId);
    OwnIdsDiffer(|b.artifacts|, |b.artifacts| + 1 + |worker.artifacts|);
    assert |TurnBoard(b, agent, body, worker).artifacts| == |merged.artifacts[resultId := worker.record]|;
  }

  /** One way to fall short: an artifact under the id the loop is about to generate is replaced by the record
      of its own delegation. */
  lemma CollidingWorkerIdIsLost(b: Board, agent: string, own: Artifact, record: Payload)
    requires IdsBounded(b) && own.id == Gen(DELEGATION_RESULT, |b.artifacts| + 2)
    ensures TurnBoard(b, agent, map[], Worker("success", [own], JObj(map[]), record)).artifacts[own.id] == record
  {
    var packetId := NextId(CONTEXT_PACKET, b);
    var packet := b.WithArtifact(packetId, map[]);
    NextIdIsFresh(CONTEXT_PACKET, b, map[]);
    assert IsGen(own.id, |b.artifacts| + 2);
    assert own.id !in packet.artifacts;
    var arts := [own];
    assert arts[..|arts| - 1] == [] && AddWorkerArtifacts(packet, agent, []) == packet;
    var merged := AddWorkerArtifacts(packet, agent, arts);
    assert merged == packet.WithArtifact(own.id, ArtifactRecord(agent, own));
    assert merged.artifacts.Keys == packet.artifacts.Keys + {own.id};
    assert NextId(DELEGATION_RESULT, merged) == own.id;
  }

  const REPORT := "report"

  function ReportOf(text: string): WorkerReply {
    Worker("success", [Artifact(REPORT, "note", JObj(map["text" := JStr(text)]))], JObj(map[]), map[])
  }

  /** Another: two clean replies under the same id. The second replaces what the first put on the board, which
      may be what a passed criterion cites. */
  lemma SameIdTwiceIsLost(b: Board, x: string, y: string)
    requires IdsBounded(b)
    ensures CleanReply(Packet(x, map[], ReportOf("one")), {}) && CleanReply(Packet(y, map[], ReportOf("two")), {})
    ensures var c := TurnBoard(b, x, map[], ReportOf("one")); var d := TurnBoard(c, y, map[], ReportOf("two"));
      REPORT in c.artifacts && REPORT in d.artifacts && d.artifacts[REPORT] != c.artifacts[REPORT]
  {
    hide AddWorkerArtifacts, NextId, IdsBounded;
    HyphenFreeIsClean(Packet(x, map[], ReportOf("one")), {});
    HyphenFreeIsClean(Packet(y, map[], ReportOf("two")), {});
    var c := TurnBoard(b, x, map[], ReportOf("one"));
    TurnBoardSafe(b, x, Packet(x, map[], ReportOf("one")), {});
    ReportLands(b, x, "one");
    ReportLands(c, y, "two");
    assert ArtifactRecord(x, ReportOf("one").artifacts[0])["text"] == JStr("one");
    assert ArtifactRecord(y, ReportOf("two").artifacts[0])["text"] == JStr("two");
    assert "one" != "two";
  }

  lemma ReportLands(b: Board, agent: string, text: string)
    requires IdsBounded(b)
    ensures var c, worker := TurnBoard(b, agent, map[], ReportOf(text)), ReportOf(text);
      REPORT in c.artifacts && c.artifacts[REPORT] == ArtifactRecord(agent, worker.artifacts[0])
  {
    hide ArtifactRecord, AddWorkerArtifacts, IdsBounded;
    var packet := b.WithArtifact(NextId(CONTEXT_PACKET, b), map[]);
    var merged := AddWorkerArtifacts(packet, agent, ReportOf(text).artifacts);
    LastOneStays(packet, agent, ReportOf(text).artifacts, REPORT);
    NextIsGenerated(DELEGATION_RESULT, merged);
    GeneratedHasHyphen(NextId(DELEGATION_RESULT, merged), |merged.artifacts|);
    assert '-' !in REPORT;
  }

  /** And a third: on any board as the loop keeps them, a worker may use the id that a later packet or tool result
      will be given. */
  function Squatter(prefix: string, b: Board): WorkerReply {
    Worker("success", [Artifact(Gen(prefix, |b.artifacts| + 3), "note", JObj(map[]))], JObj(map[]), map[])
  }

  lemma SquatterLands(b: Board, agent: string, prefix: string)
    requires IdsBounded(b) && prefix in {CONTEXT_PACKET, TOOL_RESULT}
    ensures var worker := Squatter(prefix, b); var c, id := TurnBoard(b, agent, map[], worker), Gen(prefix, |b.artifacts| + 3);
      |c.artifacts| == |b.artifacts| + 3 && NextId(prefix, c) == id && id in c.artifacts
      && c.artifacts[id] == ArtifactRecord(agent, worker.artifacts[0])
  {
    hide ArtifactRecord, AddWorkerArtifacts, IdsBounded, Gen;
    var worker, id := Squatter(prefix, b), Gen(prefix, |b.artifacts| + 3);
    var packet := b.WithArtifact(NextId(CONTEXT_PACKET, b), map[]);
    var merged := AddWorkerArtifacts(packet, agent, worker.artifacts);
    assert ArtifactIds(worker.artifacts) == [id];
    AheadIsNew(b, prefix, |b.artifacts| + 3);
    AheadIsNew(b, CONTEXT_PACKET, |b.artifacts|);
    AheadIsNew(b, DELEGATION_RESULT, |b.artifacts| + 2);
    AheadsDiffer(|b.artifacts|, prefix);
    TurnLosesNothingIff(b, agent, map[], worker);
    LastOneStays(packet, agent, worker.artifacts, id);
    ReturnedIff(worker.artifacts, id);
    OneMore(merged.artifacts, NextId(DELEGATION_RESULT, merged), worker.record);
    GenDiffers(prefix, |b.artifacts| + 3, DELEGATION_RESULT, |merged.artifacts|);
  }

  lemma AheadIsNew(b: Board, prefix: string, n: nat)
    requires IdsBounded(b) && Prefix(prefix) && n >= |b.artifacts|
    ensures Gen(prefix, n) !in b.artifacts
  {
    assert IsGen(Gen(prefix, n), n);
  }

  lemma AheadsDiffer(n: nat, prefix: string)
    ensures Gen(prefix, n + 3) != Gen(CONTEXT_PACKET, n) && Gen(prefix, n + 3) != Gen(DELEGATION_RESULT, n + 2)
  {
    GenDiffers(prefix, n + 3, CONTEXT_PACKET, n);
    GenDiffers(prefix, n + 3, DELEGATION_RESULT, n + 2);
  }

  /** The next turn's packet then replaces it, though that turn's worker returns nothing at all; */
  lemma LaterPacketOverwrites(b: Board, x: string, y: string)
    requires IdsBounded(b)
    ensures var c := TurnBoard(b, x, map[], Squatter(CONTEXT_PACKET, b));
      var idle := Worker("success", [], JObj(map[]), map[]);
      !KeepsAll(c, TurnBoard(c, y, map[], idle))
  {
    hide AddWorkerArtifacts, IdsBounded, TurnBoard, KeepsAll;
    var worker := Squatter(CONTEXT_PACKET, b);
    SquatterLands(b, x, CONTEXT_PACKET);
    var c, idle := TurnBoard(b, x, map[], worker), Worker("success", [], JObj(map[]), map[]);
    var id := NextId(CONTEXT_PACKET, c);
    TurnPreservesIff(c, y, map[], idle);
    OwnIdsDiffer(|c.artifacts|, |MergedBoard(c, y, map[], idle).artifacts|);
    assert "kind" in ArtifactRecord(x, worker.artifacts[0]);
    assert LeftUnder(c, y, map[], idle, id) == map[] != c.artifacts[id];
  }

  /** and so does the record of the next tool. */
  lemma LaterToolOverwrites(b: Board, x: string, tool: string, envelope: Payload)
    requires IdsBounded(b)
    ensures !KeepsAll(TurnBoard(b, x, map[], Squatter(TOOL_RESULT, b)), ToolStep(TurnBoard(b, x, map[], Squatter(TOOL_RESULT, b)), tool, envelope))
  {
    hide AddWorkerArtifacts, IdsBounded, TurnBoard, KeepsAll;
    var worker := Squatter(TOOL_RESULT, b);
    SquatterLands(b, x, TOOL_RESULT);
    var c := TurnBoard(b, x, map[], worker);
    ToolPreservesIff(c, tool, envelope);
    assert "tool" !in ArtifactRecord(x, worker.artifacts[0]) && "tool" in ToolRecord(tool, envelope);
  }

  /** What one tool result overwrites, exactly, on any board. */
  lemma ToolPreservesIff(b: Board, tool: string, envelope: Payload)
    ensures var c, id := ToolStep(b, tool, envelope), NextId(TOOL_RESULT, b);
      && (KeepsAll(b, c) <==> id in b.artifacts ==> b.artifacts[id] == ToolRecord(tool, envelope))
      && ((forall k :: k in b.toolResults ==> k in c.toolResults && c.toolResults[k] == b.toolResults[k])
          <==> id in b.toolResults ==> b.toolResults[id] == envelope)
  {
    hide ToolRecord, Gen;
  }

  /** The ids of `k` tool results, the board having `n` artifacts. */
  /** Everything a tool request writes: its envelope among the results, and a record that names the tool and repeats
      the envelope's verdict and data, null where it has none, both under the next number. */
  lemma ToolWrites(b: Board, tool: string, envelope: Payload)
    ensures var c, id := ToolStep(b, tool, envelope), "tool_result-" + Pad4(|b.artifacts|);
      && c.toolResults == b.toolResults[id := envelope]
      && c == b.(artifacts := c.artifacts, toolResults := c.toolResults) && id in c.artifacts && c.artifacts == b.artifacts[id := c.artifacts[id]]
      && var record := c.artifacts[id];
         && record.Keys == {"kind", "tool", "ok", "data"}
         && record["kind"] == JStr("tool_result") && record["tool"] == JStr(tool)
         && record["ok"] == (if "ok" in envelope then envelope["ok"] else JNull)
         && record["data"] == (if "data" in envelope then envelope["data"] else JNull)
  {
    hide Pad4;
    assert TOOL_RESULT + "-" == "tool_result-";
  }

  function ToolIds(n: nat, k: nat): set<string> { if k == 0 then {} else ToolIds(n, k - 1) + {Gen(TOOL_RESULT, n + k - 1)} }

  lemma {:induction false} LaterToolIdIsNew(n: nat, k: nat, m: nat)
    requires k <= m
    ensures Gen(TOOL_RESULT, n + m) !in ToolIds(n, k)
  {
    hide Gen;
    if k > 0 {
      LaterToolIdIsNew(n, k - 1, m);
      GenDiffers(TOOL_RESULT, n + m, TOOL_RESULT, n + k - 1);
    }
  }

  lemma ToolStepKeys(b: Board, tool: string, envelope: Payload)
    ensures ToolStep(b, tool, envelope).artifacts.Keys == b.artifacts.Keys + {Gen(TOOL_RESULT, |b.artifacts|)}
    ensures |b.artifacts| == |b.artifacts.Keys|
  {
    hide Gen, ToolRecord;
  }

  /** Never more keys than `bound`, and that many exactly if all `ids` were new; then they are what was added. */
  ghost predicate FullIff(before: set<string>, now: set<string>, ids: set<string>, bound: nat) {
    && |now| <= bound && (|now| == bound <==> ids !! before) && (|now| == bound ==> now == before + ids)
  }

  lemma OneIdMore(before: set<string>, now: set<string>, ids: set<string>, id: string, bound: nat)
    requires FullIff(before, now, ids, bound) && (|now| == bound ==> id !in ids)
    ensures FullIff(before, now + {id}, ids + {id}, bound + 1)
  {
    if id in now { assert now + {id} == now; }
  }

  lemma NoIdMore(before: set<string>)
    ensures FullIff(before, before, {}, |before|)
  {
    assert before + {} == before;
  }

  lemma NextToolId(before: set<string>, now: set<string>, n: nat, k: nat)
    requires FullIff(before, now, ToolIds(n, k), n + k)
    ensures FullIff(before, now + {Gen(TOOL_RESULT, |now|)}, ToolIds(n, k + 1), n + k + 1)
  {
    hide Gen;
    LaterToolIdIsNew(n, k, k);
    OneIdMore(before, now, ToolIds(n, k), Gen(TOOL_RESULT, n + k), n + k);
    if |now| < n + k {
      assert !(ToolIds(n, k + 1) !! before);
      assert |now + {Gen(TOOL_RESULT, |now|)}| <= |now| + 1;
    }
  }

  /** What `k` tool results do to the ids of the board they were added to. */
  ghost predicate Gained(b: Board, c: Board, k: nat) {
    FullIff(b.artifacts.Keys, c.artifacts.Keys, ToolIds(|b.artifacts.Keys|, k), |b.artifacts.Keys| + k)
  }

  lemma GainsOne(b: Board, m: Board, k: nat, tool: string, envelope: Payload)
    requires Gained(b, m, k)
    ensures Gained(b, ToolStep(m, tool, envelope), k + 1)
  {
    hide ToolStep, Gen, FullIff, ToolIds;
    ToolStepKeys(m, tool, envelope);
    NextToolId(b.artifacts.Keys, m.artifacts.Keys, |b.artifacts.Keys|, k);
  }

  lemma GainsNone(b: Board)
    ensures Gained(b, b, 0)
  {
    hide FullIff;
    NoIdMore(b.artifacts.Keys);
  }

  /** When `k` tool requests add `k` artifacts: exactly if the board has none of the next `k` ids. */
  lemma {:induction false} ToolsLoseNothingIff(b: Board, tools: seq<ToolRequest>, k: nat, w: World)
    requires k <= |tools|
    ensures Gained(b, ToolsUpTo(b, tools, k, w), k)
  {
    hide ToolStep, Gained;
    if k == 0 {
      GainsNone(b);
    } else {
      ToolsLoseNothingIff(b, tools, k - 1, w);
      GainsOne(b, ToolsUpTo(b, tools, k - 1, w), k - 1, tools[k - 1].tool, w.tool(b.round, k - 1));
    }
  }

  lemma {:induction false} AllTurnsSafe(p0: Progress, calls: seq<Assignment>, k: nat, w: World, guarded: set<string>)
    requires IdsBounded(p0.board) && k <= |calls| && CleanWorld(w, guarded) && p0.saves == []
    ensures var p := AllTurns(p0, calls, k, w);
      RecordsSafe(p0.board, p.board, guarded) && forall i :: 0 <= i < |p.saves| ==> RecordsSafe(p0.board, p.saves[i], guarded)
  {
    hide TurnBoard, RecordsSafe, IdsBounded, Broken, CleanReply;
    if k == 0 {
      NothingLost(p0.board, guarded);
    } else {
      AllTurnsSafe(p0, calls, k - 1, w, guarded);
      var p, agent, reply := AllTurns(p0, calls, k - 1, w), calls[k - 1].agent, w.turn(p0.board.round, k - 1);
      SafeIsBounded(p0.board, p.board, guarded);
      CleanAt(w, p0.board.round, k - 1, guarded);
      if !p.raised && agent !in p.done && !Broken(agent, reply) {
        TurnBoardSafe(p.board, agent, reply, guarded);
        RecordsSafeTransitive(p0.board, p.board, TurnStep(p, agent, reply).board, guarded);
      }
    }
  }

  /** Every completed turn adds at least two artifacts, and the last one to be saved is where the batch stands. */
  lemma {:induction false} AllTurnsGrow(p0: Progress, calls: seq<Assignment>, k: nat, w: World)
    requires IdsBounded(p0.board) && k <= |calls| && CleanWorld(w, {}) && p0.saves == []
    ensures var p := AllTurns(p0, calls, k, w);
      && |p.board.artifacts| >= |p0.board.artifacts| + 2 * |p.saves|
      && (p.saves != [] ==> p.saves[|p.saves| - 1] == p.board)
  {
    hide TurnBoard, RecordsSafe, IdsBounded, Broken, CleanReply;
    if k > 0 {
      AllTurnsGrow(p0, calls, k - 1, w);
      AllTurnsSafe(p0, calls, k - 1, w, {});
      var p, agent, reply := AllTurns(p0, calls, k - 1, w), calls[k - 1].agent, w.turn(p0.board.round, k - 1);
      SafeIsBounded(p0.board, p.board, {});
      CleanAt(w, p0.board.round, k - 1, {});
      if !p.raised && agent !in p.done && !Broken(agent, reply) { TurnBoardSafe(p.board, agent, reply, {}); }
    }
  }

  /** The last board a completed round has saved is the one its turns end with, every agent it addressed is
      done on it, and it has grown. */
  lemma LastSaveOfRound(b: Board, d: Decision, w: World)
    requires Inv(b) && !b.Terminal() && IdsBounded(b) && CleanWorld(w, {})
    requires !RunRoundOn(b, d, w).raised && RunRoundOn(b, d, w).saves != []
    ensures var r := RunRoundOn(b, d, w); var last := r.saves[|r.saves| - 1];
      && r.board == last.(status := InDiscussion) && Inv(last) && last.status == b.status && last.round == b.round
      && last.maxRounds == b.maxRounds && last.roster == b.roster && last.checks == b.checks && last.sessionId == b.sessionId
      && |last.artifacts| > |b.artifacts|
      && (forall i :: 0 <= i < |RoundCalls(b, d, w).expanded| ==> RoundCalls(b, d, w).expanded[i].agent in DoneThisRound(last))
  {
    hide Inv, Extends, AllTurns, EnqueueAll, DoneThisRound, Authorised, RoundCalls, Chained, IdsBounded, CleanWorld;
    var calls := RoundCalls(b, d, w).expanded;
    var ms := RoundCalls(b, d, w).toAdmit;
    MembersQueue(b, ms);
    QueuedKeeps(b, AddIntents(ms));
    var q := EnqueueAll(b, AddIntents(ms)).value;
    var p0 := Progress(q, DoneThisRound(q), [], false);
    SameArtifactsBounded(b, q);
    AllTurnsGrow(p0, calls, |calls|, w);
    RosterAuthorises(b, q, calls);
    AllTurnsKeep(q, calls, |calls|, w);
    AllTurnsRaiseIff(p0, calls, |calls|, w);
  }

  lemma SameArtifactsBounded(b: Board, c: Board)
    requires IdsBounded(b) && c.artifacts == b.artifacts
    ensures IdsBounded(c)
  {
  }

  lemma CleanAt(w: World, round: int, i: nat, guarded: set<string>)
    requires CleanWorld(w, guarded)
    ensures CleanReply(w.turn(round, i), guarded)
  {
  }

  lemma RunRoundSafe(b: Board, d: Decision, w: World, guarded: set<string>)
    requires IdsBounded(b) && CleanWorld(w, guarded) && QueueInv(b)
    ensures var r := RunRoundOn(b, d, w);
      RecordsSafe(b, r.board, guarded) && forall i :: 0 <= i < |r.saves| ==> RecordsSafe(b, r.saves[i], guarded)
  {
    hide RecordsSafe, IdsBounded, AllTurns, EnqueueAll, CleanWorld, QueueInv, RoundCalls, DoneThisRound;
    var e := RoundCalls(b, d, w);
    var queued := EnqueueAll(b, AddIntents(e.toAdmit));
    NothingLost(b, guarded);
    if queued.Some? && Authorised(e.expanded, b) {
      EnqueueKeepsInv(b, AddIntents(e.toAdmit));
      SameArtifactsSafe(b, b, queued.value, guarded);
      SafeIsBounded(b, queued.value, guarded);
      AllTurnsSafe(Progress(queued.value, DoneThisRound(b), [], false), e.expanded, |e.expanded|, w, guarded);
      var p := AllTurns(Progress(queued.value, DoneThisRound(b), [], false), e.expanded, |e.expanded|, w);
      RecordsSafeTransitive(b, queued.value, p.board, guarded);
      SameArtifactsSafe(b, p.board, p.board.(status := InDiscussion), guarded);
      forall i | 0 <= i < |p.saves| ensures RecordsSafe(b, p.saves[i], guarded) { RecordsSafeTransitive(b, queued.value, p.saves[i], guarded); }
    }
  }

  lemma SameArtifactsSafe(b: Board, m: Board, c: Board, guarded: set<string>)
    requires RecordsSafe(b, m, guarded) && c.artifacts == m.artifacts
    ensures RecordsSafe(b, c, guarded)
  {
  }

  lemma ToolStepSafe(b: Board, tool: string, envelope: Payload, guarded: set<string>)
    requires IdsBounded(b)
    ensures RecordsSafe(b, ToolStep(b, tool, envelope), guarded) && |ToolStep(b, tool, envelope).artifacts| == |b.artifacts| + 1
  {
    hide ToolRecord, Gen, RecordsSafe;
    NextIdIsSafe(TOOL_RESULT, b, ToolRecord(tool, envelope), guarded);
    SameArtifactsSafe(b, b.WithArtifact(NextId(TOOL_RESULT, b), ToolRecord(tool, envelope)), ToolStep(b, tool, envelope), guarded);
  }

  lemma {:induction false} ToolsSafe(b: Board, tools: seq<ToolRequest>, k: nat, w: World, guarded: set<string>)
    requires IdsBounded(b) && k <= |tools|
    ensures RecordsSafe(b, ToolsUpTo(b, tools, k, w), guarded)
    ensures |ToolsUpTo(b, tools, k, w).artifacts| == |b.artifacts| + k
  {
    hide ToolStep, RecordsSafe, IdsBounded;
    if k == 0 {
      NothingLost(b, guarded);
    } else {
      ToolsSafe(b, tools, k - 1, w, guarded);
      var m := ToolsUpTo(b, tools, k - 1, w);
      SafeIsBounded(b, m, guarded);
      ToolStepSafe(m, tools[k - 1].tool, w.tool(b.round, k - 1), guarded);
      RecordsSafeTransitive(b, m, ToolsUpTo(b, tools, k, w), guarded);
    }
  }

  /** A tool's answer stands under the id, and so does its record. */
  predicate Answered(c: Board, id: string, tool: string, answer: Payload) {
    && id in c.toolResults && c.toolResults[id] == answer && id in c.artifacts
    && c.artifacts[id] == map["kind" := JStr("tool_result"), "tool" := JStr(tool), "ok" := if "ok" in answer then answer["ok"] else JNull,
                              "data" := if "data" in answer then answer["data"] else JNull]
  }

  lemma ToolAnswers(b: Board, tool: string, answer: Payload)
    ensures Answered(ToolStep(b, tool, answer), "tool_result-" + Pad4(|b.artifacts|), tool, answer)
  {
    hide Pad4;
    assert TOOL_RESULT + "-" == "tool_result-";
  }

  lemma OthersStay(b: Board, tool: string, answer: Payload, id: string, other: string, was: Payload)
    requires Answered(b, id, other, was) && id != NextId(TOOL_RESULT, b)
    ensures Answered(ToolStep(b, tool, answer), id, other, was)
  {
    hide NextId;
  }

  /** The requests of a batch are served in their order: each has its own answer, and a record naming its own tool,
      under the number that counts from the artifacts there were at first. */
  lemma {:induction false} EachToolIsAnswered(b: Board, tools: seq<ToolRequest>, k: nat, w: World, i: nat)
    requires i < k <= |tools| && IdsBounded(b)
    ensures Answered(ToolsUpTo(b, tools, k, w), "tool_result-" + Pad4(|b.artifacts| + i), tools[i].tool, w.tool(b.round, i))
  {
    hide Pad4, ToolStep, IdsBounded, Answered, RecordsSafe;
    var c := ToolsUpTo(b, tools, k - 1, w);
    ToolsSafe(b, tools, k - 1, w, {});
    ToolAnswers(c, tools[k - 1].tool, w.tool(b.round, k - 1));
    if i < k - 1 {
      EachToolIsAnswered(b, tools, k - 1, w, i);
      assert TOOL_RESULT + "-" == "tool_result-";
      if Gen(TOOL_RESULT, |b.artifacts| + i) == Gen(TOOL_RESULT, |c.artifacts|) { GenInjective(TOOL_RESULT, |b.artifacts| + i, TOOL_RESULT, |c.artifacts|); }
      OthersStay(c, tools[k - 1].tool, w.tool(b.round, k - 1), Gen(TOOL_RESULT, |b.artifacts| + i), tools[i].tool, w.tool(b.round, i));
    }
  }

  lemma NothingLost(b: Board, guarded: set<string>)
    requires IdsBounded(b)
    ensures RecordsSafe(b, b, guarded)
  {
  }

  lemma SafeIsBounded(b: Board, c: Board, guarded: set<string>)
    requires RecordsSafe(b, c, guarded)
    ensures IdsBounded(c)
  {
  }
}
