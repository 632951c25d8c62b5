/** Running one round's worker turns and tools, and judging acceptance. */
module Turns {
  import opened Text
  import opened TaskBoard
  import opened Departments
  import opened CommandBridge
  import opened Rounds

  // ---------------------------------------------------------------- worker turns

  function ArtifactRecord(agent: string, a: Artifact): Payload {
    map["kind" := JStr(a.kind), "agent_id" := JStr(agent)] + if a.payload.JObj? then a.payload.fields else map[]
  }

  function AddWorkerArtifacts(b: Board, agent: string, arts: seq<Artifact>): Board {
    if arts == [] then b
    else
      var last := arts[|arts| - 1];
      AddWorkerArtifacts(b, agent, arts[..|arts| - 1]).WithArtifact(last.id, ArtifactRecord(agent, last))
  }

  function ArtifactIds(arts: seq<Artifact>): seq<string> {
    seq(|arts|, i requires 0 <= i < |arts| => arts[i].id)
  }

  /** The board after one completed turn: the packet, the worker's artifacts, its result, the turn. */
  function TurnBoard(b: Board, agent: string, body: Payload, worker: WorkerReply): Board
    requires worker.Worker?
  {
    var packetId := NextId(CONTEXT_PACKET, b);
    var merged := AddWorkerArtifacts(b.WithArtifact(packetId, body), agent, worker.artifacts);
    var resultId := NextId(DELEGATION_RESULT, merged);
    var ids := ArtifactIds(worker.artifacts) + [resultId];
    merged.WithArtifact(resultId, worker.record)
      .(turns := b.turns + [Turn(b.round, agent, packetId, worker.outcome, ids)])
  }

  /** The result can be merged: every payload unpacks as a mapping and the summary converts. */
  predicate Mergeable(worker: WorkerReply)
    requires worker.Worker?
  {
    (forall i :: 0 <= i < |worker.artifacts| ==> worker.artifacts[i].payload.JObj?) && Dictable(worker.summary)
  }

  /** The broker or the worker raised, the broker tried to redirect the turn, or the result does not merge. */
  predicate Broken(agent: string, reply: TurnReply) {
    reply.BrokerRaises? || reply.target != agent || reply.worker.WorkerRaises? || !Mergeable(reply.worker)
  }

  /** A round in progress: `done` are the agents with a turn in it, `saves` the boards checkpointed. */
  datatype Progress = Progress(board: Board, done: set<string>, saves: seq<Board>, raised: bool)

  function TurnStep(p: Progress, agent: string, reply: TurnReply): Progress {
    if p.raised || agent in p.done then p
    else if Broken(agent, reply) then p.(raised := true)
    else
      var b := TurnBoard(p.board, agent, reply.body, reply.worker);
      Progress(b, p.done + {agent}, p.saves + [b], false)
  }

  function AllTurns(p: Progress, calls: seq<Assignment>, k: nat, w: World): Progress
    requires k <= |calls|
  {
    if k == 0 then p
    else TurnStep(AllTurns(p, calls, k - 1, w), calls[k - 1].agent, w.turn(p.board.round, k - 1))
  }

  function DoneThisRound(b: Board): set<string> {
    set i | 0 <= i < |b.turns| && b.turns[i].round == b.round :: b.turns[i].agent
  }

  function Selected(b: Board): set<string> { set a | a in b.roster }

  function AgentCalls(calls: seq<Assignment>): seq<Assignment> {
    if calls == [] then []
    else
      var f, a := AgentCalls(calls[..|calls| - 1]), calls[|calls| - 1];
      if a.kind.AgentTarget? then f + [a] else f
  }

  /** Without a registry department targets are dropped. */
  function RoundCalls(b: Board, d: Decision, w: World): Expansion {
    if w.registry.None? then Expansion(AgentCalls(d.calls), [], [])
    else Expand(d.calls, w.registry.value, Selected(b))
  }

  datatype RoundResult = RoundResult(board: Board, saves: seq<Board>, raised: bool)

  /** Every assignment of the batch targets the roster: checked before any side effect. */
  predicate Authorised(calls: seq<Assignment>, b: Board) {
    forall i :: 0 <= i < |calls| ==> calls[i].agent in Selected(b)
  }

  /** `run_round` as a function of the board. */
  function RunRoundOn(b: Board, d: Decision, w: World): RoundResult {
    var e := RoundCalls(b, d, w);
    var queued := EnqueueAll(b, AddIntents(e.toAdmit));
    if queued.None? || !Authorised(e.expanded, b) then RoundResult(b, [], true)
    else
      var p := AllTurns(Progress(queued.value, DoneThisRound(b), [], false), e.expanded, |e.expanded|, w);
      RoundResult(p.board.(status := InDiscussion), p.saves, p.raised)
  }

  lemma {:induction false} WorkerClock(b: Board, agent: string, arts: seq<Artifact>)
    ensures SameClock(b, AddWorkerArtifacts(b, agent, arts))
  {
    if arts != [] { WorkerClock(b, agent, arts[..|arts| - 1]); }
  }

  lemma {:induction false} TurnsClock(p: Progress, calls: seq<Assignment>, k: nat, w: World)
    requires k <= |calls|
    ensures SameClock(p.board, AllTurns(p, calls, k, w).board)
  {
    if k > 0 {
      TurnsClock(p, calls, k - 1, w);
      var q, reply := AllTurns(p, calls, k - 1, w), w.turn(p.board.round, k - 1);
      if !Broken(calls[k - 1].agent, reply) {
        WorkerClock(q.board.WithArtifact(NextId(CONTEXT_PACKET, q.board), reply.body), calls[k - 1].agent, reply.worker.artifacts);
      }
    }
  }

  lemma RoundClock(b: Board, d: Decision, w: World)
    ensures SameClock(b, RunRoundOn(b, d, w).board)
  {
    var e := RoundCalls(b, d, w);
    var queued := EnqueueAll(b, AddIntents(e.toAdmit));
    if queued.Some? {
      TurnsClock(Progress(queued.value, DoneThisRound(b), [], false), e.expanded, |e.expanded|, w);
    }
  }

  lemma {:induction false} ToolsClock(b: Board, tools: seq<ToolRequest>, k: nat, w: World)
    requires k <= |tools|
    ensures SameClock(b, ToolsUpTo(b, tools, k, w))
  {
    if k > 0 { ToolsClock(b, tools, k - 1, w); }
  }

  lemma {:induction false} RaisedSticks(p: Progress, calls: seq<Assignment>, k: nat, n: nat, w: World)
    requires k <= n <= |calls| && AllTurns(p, calls, k, w).raised
    ensures AllTurns(p, calls, n, w) == AllTurns(p, calls, k, w)
    decreases n
  {
    if k < n { RaisedSticks(p, calls, k, n - 1, w); }
  }

  /** False: unpacking a payload raised. */
  method MergeArtifacts(state: TaskLoopState, agent: string, arts: seq<Artifact>) returns (ok: bool, ids: seq<string>)
    modifies state`artifacts
    ensures ok <==> forall i :: 0 <= i < |arts| ==> arts[i].payload.JObj?
    ensures ok ==> state.View() == AddWorkerArtifacts(old(state.View()), agent, arts) && ids == ArtifactIds(arts)
  {
    ghost var b0 := state.View();
    ids := [];
    for i := 0 to |arts|
      invariant forall j :: 0 <= j < i ==> arts[j].payload.JObj?
      invariant state.View() == AddWorkerArtifacts(b0, agent, arts[..i])
      invariant ids == ArtifactIds(arts[..i])
    {
      if !arts[i].payload.JObj? {
        return false, ids;
      }
      assert arts[..i + 1][..i] == arts[..i];
      var record := ArtifactRecord(agent, arts[i]);
      state.AddArtifact(arts[i].id, record);
      ids := ids + [arts[i].id];
    }
    assert arts[..|arts|] == arts;
    ok := true;
  }

  /** One worker turn, checkpointed when it completes; `ok` is false when an exception escapes. */
  method RunTurn(state: TaskLoopState, store: CheckpointStore, agent: string, reply: TurnReply) returns (ok: bool)
    requires store.Valid()
    modifies state`artifacts, state`turns, store
    ensures store.Valid() && ok == !Broken(agent, reply)
    ensures ok ==> state.View() == TurnBoard(old(state.View()), agent, reply.body, reply.worker)
    ensures store.log == old(store.log) + if ok then [state.View()] else []
  {
    if reply.BrokerRaises? || reply.target != agent {
      return false;
    }
    var packetId := NextId(CONTEXT_PACKET, state.View());
    state.AddArtifact(packetId, reply.body);
    if reply.worker.WorkerRaises? {
      return false;
    }
    var merged, ids := MergeArtifacts(state, agent, reply.worker.artifacts);
    if !merged || !Dictable(reply.worker.summary) {
      return false;
    }
    var resultId := NextId(DELEGATION_RESULT, state.View());
    state.AddArtifact(resultId, reply.worker.record);
    state.turns := state.turns + [Turn(state.round, agent, packetId, reply.worker.outcome, ids + [resultId])];
    store.Save(state);
    ok := true;
  }

  method FilterAgentCalls(calls: seq<Assignment>) returns (r: seq<Assignment>)
    ensures r == AgentCalls(calls)
  {
    r := [];
    for i := 0 to |calls|
      invariant r == AgentCalls(calls[..i])
    {
      assert calls[..i + 1][..i] == calls[..i];
      if calls[i].kind.AgentTarget? { r := r + [calls[i]]; }
    }
    assert calls[..|calls|] == calls;
  }

  /** An agent that already has a turn this round is skipped. */
  method TurnIfDue(state: TaskLoopState, store: CheckpointStore, agent: string, reply: TurnReply, done: set<string>,
    ghost p: Progress, ghost log0: seq<Board>) returns (ok: bool, done': set<string>)
    requires store.Valid() && !p.raised
    requires p.board == state.View() && p.done == done && store.log == log0 + p.saves
    modifies state`artifacts, state`turns, store
    ensures store.Valid()
    ensures var q := TurnStep(p, agent, reply);
      ok == !q.raised && store.log == log0 + q.saves && (ok ==> q.board == state.View() && q.done == done')
  {
    ok, done' := true, done;
    if agent !in done {
      ok := RunTurn(state, store, agent, reply);
      done' := done + {agent};
    }
  }

  lemma NoTurns(p: Progress, calls: seq<Assignment>, w: World)
    ensures AllTurns(p, calls, 0, w) == p
  {
  }

  lemma NextTurn(p: Progress, calls: seq<Assignment>, k: nat, w: World)
    requires k < |calls|
    ensures AllTurns(p, calls, k + 1, w) == TurnStep(AllTurns(p, calls, k, w), calls[k].agent, w.turn(p.board.round, k))
  {
  }

  method RunTurns(state: TaskLoopState, store: CheckpointStore, calls: seq<Assignment>, done0: set<string>, w: World)
    returns (ok: bool)
    requires store.Valid()
    modifies state`artifacts, state`turns, store
    ensures store.Valid()
    ensures var p := AllTurns(Progress(old(state.View()), done0, [], false), calls, |calls|, w);
      ok == !p.raised && (ok ==> state.View() == p.board) && store.log == old(store.log) + p.saves
  {
    hide TurnStep, AllTurns;
    ghost var p0 := Progress(state.View(), done0, [], false);
    ghost var p, log0 := p0, store.log;
    var round, done, i := state.round, done0, 0;
    ok := true;
    NoTurns(p0, calls, w);
    while i < |calls|
      invariant 0 <= i <= |calls| && store.Valid()
      invariant p == AllTurns(p0, calls, i, w) && !p.raised && ok
      invariant p.board == state.View() && p.done == done && store.log == log0 + p.saves
    {
      var reply := w.turn(round, i);
      ok, done := TurnIfDue(state, store, calls[i].agent, reply, done, p, log0);
      NextTurn(p0, calls, i, w);
      p := TurnStep(p, calls[i].agent, reply);
      i := i + 1;
      if !ok {
        RaisedSticks(p0, calls, i, |calls|, w);
        return;
      }
    }
  }

  /** `run_round`. */
  method RunRound(state: TaskLoopState, store: CheckpointStore, d: Decision, w: World) returns (ok: bool)
    requires store.Valid()
    modifies state`artifacts, state`turns, state`pending, state`status, store
    ensures store.Valid()
    ensures var r := RunRoundOn(old(state.View()), d, w);
      ok == !r.raised && (ok ==> state.View() == r.board) && store.log == old(store.log) + r.saves
  {
    ghost var b0 := state.View();
    var done := DoneThisRound(state.View());
    var selected := Selected(state.View());
    var e;
    if w.registry.None? {
      var calls := FilterAgentCalls(d.calls);
      e := Expansion(calls, [], []);
    } else {
      e := ExpandDepartments(d.calls, w.registry.value, selected);
    }
    var queued;
    ok, queued := EnqueueCommands(state, AddIntents(e.toAdmit));
    if !ok || !Authorised(e.expanded, state.View()) {
      return false;
    }
    ok := RunTurns(state, store, e.expanded, done, w);
    if ok {
      state.status := InDiscussion;
    }
  }

  // ---------------------------------------------------------------- tools

  function ToolRecord(tool: string, envelope: Payload): Payload {
    map["kind" := JStr(TOOL_RESULT), "tool" := JStr(tool),
        "ok" := Default(envelope, "ok", JNull), "data" := Default(envelope, "data", JNull)]
  }

  function ToolStep(b: Board, tool: string, envelope: Payload): Board {
    var id := NextId(TOOL_RESULT, b);
    b.WithArtifact(id, ToolRecord(tool, envelope)).(toolResults := b.toolResults[id := envelope])
  }

  function ToolsUpTo(b: Board, tools: seq<ToolRequest>, k: nat, w: World): Board
    requires k <= |tools|
  {
    if k == 0 then b
    else ToolStep(ToolsUpTo(b, tools, k - 1, w), tools[k - 1].tool, w.tool(b.round, k - 1))
  }

  function RunToolsOn(b: Board, d: Decision, w: World): Board {
    ToolsUpTo(b, d.tools, |d.tools|, w).(status := WaitingTool)
  }

  method RunOneTool(state: TaskLoopState, tool: string, envelope: Payload)
    modifies state`artifacts, state`toolResults
    ensures state.View() == ToolStep(old(state.View()), tool, envelope)
  {
    var id := NextId(TOOL_RESULT, state.View());
    state.toolResults := state.toolResults[id := envelope];
    state.AddArtifact(id, ToolRecord(tool, envelope));
  }

  /** `run_tool`. */
  method RunTool(state: TaskLoopState, d: Decision, w: World)
    modifies state`artifacts, state`toolResults, state`status
    ensures state.View() == RunToolsOn(old(state.View()), d, w)
  {
    hide ToolStep;
    ghost var b0, b := state.View(), state.View();
    var round, i := state.round, 0;
    while i < |d.tools|
      invariant 0 <= i <= |d.tools|
      invariant b == ToolsUpTo(b0, d.tools, i, w) && state.View() == b
    {
      var envelope := w.tool(round, i);
      RunOneTool(state, d.tools[i].tool, envelope);
      b := ToolStep(b, d.tools[i].tool, envelope);
      i := i + 1;
    }
    state.status := WaitingTool;
  }

  // ---------------------------------------------------------------- acceptance

  /** Index of the first check with this id, or the number of checks. */
  function FirstCheck(checks: seq<Check>, id: string): (i: nat)
    ensures i <= |checks|
    ensures i < |checks| ==> checks[i].id == id
    ensures forall j :: 0 <= j < i ==> checks[j].id != id
  {
    if checks == [] then 0
    else if checks[0].id == id then 0
    else
      var i := FirstCheck(checks[1..], id);
      assert forall j :: 0 < j < i + 1 ==> checks[j] == checks[1..][j - 1];
      i + 1
  }

  /** Listing the evidence of a row raises, if the row names a criterion of the board at all. */
  predicate ReportRaises(checks: seq<Check>, rows: seq<AcceptanceRow>) {
    exists k :: 0 <= k < |rows| && RowRaises(checks, rows[k])
  }

  predicate RowRaises(checks: seq<Check>, row: AcceptanceRow) { FirstCheck(checks, row.id) < |checks| && Unlistable(row.evidence) }

  function JudgeCheck(c: Check, row: AcceptanceRow, known: set<string>, host: Host): Check {
    var evidence := Listed(row.evidence, host);
    if row.status == "passed" && evidence != [] && (forall e :: e in evidence ==> e in known)
    then c.(status := "passed", evidence := evidence)
    else if row.status == "failed" then c.(status := "failed", evidence := evidence)
    else c.(status := "pending")
  }

  function JudgeRow(checks: seq<Check>, row: AcceptanceRow, known: set<string>, host: Host): (r: seq<Check>)
    ensures |r| == |checks|
  {
    var i := FirstCheck(checks, row.id);
    if i < |checks| then checks[i := JudgeCheck(checks[i], row, known, host)] else checks
  }

  function JudgeRows(checks: seq<Check>, rows: seq<AcceptanceRow>, known: set<string>, host: Host): (r: seq<Check>)
    ensures |r| == |checks|
  {
    if rows == [] then checks
    else JudgeRow(JudgeRows(checks, rows[..|rows| - 1], known, host), rows[|rows| - 1], known, host)
  }

  function Judged(b: Board, d: Decision, w: World): Board {
    b.(checks := JudgeRows(b.checks, d.acceptance, b.artifacts.Keys, w.host), status := ReviewingAc)
  }

  lemma {:induction false} SameFirst(a: seq<Check>, b: seq<Check>, id: string)
    requires |a| == |b| && forall i :: 0 <= i < |a| ==> a[i].id == b[i].id
    ensures FirstCheck(a, id) == FirstCheck(b, id)
  {
    if a != [] { SameFirst(a[1..], b[1..], id); }
  }

  lemma {:induction false} JudgingKeepsIds(checks: seq<Check>, rows: seq<AcceptanceRow>, known: set<string>, host: Host)
    ensures var r := JudgeRows(checks, rows, known, host); forall i :: 0 <= i < |checks| ==> r[i].id == checks[i].id
  {
    if rows != [] { JudgingKeepsIds(checks, rows[..|rows| - 1], known, host); }
  }

  /** Which rows raise does not depend on the rows before. */
  lemma RaisesAlike(checks: seq<Check>, rows: seq<AcceptanceRow>, known: set<string>, host: Host, row: AcceptanceRow)
    ensures RowRaises(JudgeRows(checks, rows, known, host), row) <==> RowRaises(checks, row)
  {
    hide JudgeRow;
    JudgingKeepsIds(checks, rows, known, host);
    SameFirst(checks, JudgeRows(checks, rows, known, host), row.id);
  }

  /** False: listing the row's evidence raised. */
  method JudgeOne(state: TaskLoopState, row: AcceptanceRow, host: Host) returns (ok: bool)
    modifies state`checks
    ensures ok == !RowRaises(old(state.checks), row)
    ensures ok ==> state.checks == JudgeRow(old(state.checks), row, state.artifacts.Keys, host)
  {
    var i := 0;
    while i < |state.checks| && state.checks[i].id != row.id
      invariant 0 <= i <= |state.checks|
      invariant forall j :: 0 <= j < i ==> state.checks[j].id != row.id
    {
      i := i + 1;
    }
    if i < |state.checks| {
      if Unlistable(row.evidence) {
        return false;
      }
      var c, evidence := state.checks[i], Listed(row.evidence, host);
      if row.status == "passed" && evidence != [] && forall e | e in evidence :: e in state.artifacts {
        c := c.(status := "passed", evidence := evidence);
      } else if row.status == "failed" {
        c := c.(status := "failed", evidence := evidence);
      } else {
        c := c.(status := "pending");
      }
      state.checks := state.checks[i := c];
    }
    ok := true;
  }

  /** `judge_acceptance`; false: a row raised. */
  method JudgeAcceptance(state: TaskLoopState, d: Decision, w: World) returns (ok: bool)
    modifies state`checks, state`status
    ensures ok == !ReportRaises(old(state.checks), d.acceptance)
    ensures ok ==> state.View() == Judged(old(state.View()), d, w)
  {
    hide JudgeRow, RowRaises;
    ghost var c0 := state.checks;
    for k := 0 to |d.acceptance|
      invariant state.checks == JudgeRows(c0, d.acceptance[..k], state.artifacts.Keys, w.host)
      invariant forall j :: 0 <= j < k ==> !RowRaises(c0, d.acceptance[j])
    {
      assert d.acceptance[..k + 1][..k] == d.acceptance[..k];
      RaisesAlike(c0, d.acceptance[..k], state.artifacts.Keys, w.host, d.acceptance[k]);
      ok := JudgeOne(state, d.acceptance[k], w.host);
      if !ok {
        return;
      }
    }
    assert d.acceptance[..|d.acceptance|] == d.acceptance;
    state.status := ReviewingAc;
    ok := true;
  }
}
