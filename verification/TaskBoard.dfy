/** The Blackboard of one multi-agent run and its checkpoint codec. */
module TaskBoard {
  import opened Text

  datatype Json =
    | JNull
    | JBool(b: bool)
    | JInt(n: int)
    | JStr(s: string)
    | JArr(items: seq<Json>)
    | JObj(fields: map<string, Json>)

  type Payload = map<string, Json>

  /** Python's truth of a value. */
  predicate Truthy(j: Json) {
    match j
    case JNull => false
    case JBool(b) => b
    case JInt(n) => n != 0
    case JStr(s) => s != ""
    case JArr(items) => items != []
    case JObj(fields) => fields != map[]
  }

  /** One value of each kind is false, and no other. */
  lemma FalsyIff(j: Json)
    ensures !Truthy(j) <==> j == JNull || j == JBool(false) || j == JInt(0) || j == JStr("") || j == JArr([]) || j == JObj(map[])
  {
  }

  predicate Hashable(j: Json) { !j.JArr? && !j.JObj? }

  /** Something `dict()` takes for one key and its value. */
  predicate PairLike(j: Json) {
    (j.JArr? && |j.items| == 2 && Hashable(j.items[0])) || (j.JStr? && |j.s| == 2) || (j.JObj? && |j.fields| == 2)
  }

  /** `dict(j)` does not raise. */
  predicate Dictable(j: Json) {
    j.JObj? || (j.JArr? && forall i :: 0 <= i < |j.items| ==> PairLike(j.items[i])) || (j.JStr? && j.s == "")
  }

  /** `iter(j)` does not raise. */
  predicate Iterable(j: Json) { j.JArr? || j.JStr? || j.JObj? }

  /** `ArtifactEnvelope`: what a worker hands back. Nothing checks that the payload is a mapping. */
  datatype Artifact = Artifact(id: string, kind: string, payload: Json)

  datatype Status =
    | Created | TeamSelected | InDiscussion | WaitingTool | ReviewingAc
    | Finished | Blocked | Failed

  datatype Check = Check(id: string, text: string, status: string, evidence: seq<string>) {
    predicate Satisfied() { status == "passed" && evidence != [] }
  }

  datatype Turn = Turn(round: int, agent: string, packetId: string, summary: string, artifactIds: seq<string>)

  /** A queued control-plane command; `agentId` is its payload. */
  datatype Command = Command(commandType: string, sessionId: string, issuer: string, key: string, agentId: string)

  datatype Board = Board(
    sessionId: string, taskId: string, status: Status,
    roster: seq<string>, checks: seq<Check>, round: int, maxRounds: int,
    turns: seq<Turn>, artifacts: map<string, Payload>, toolResults: map<string, Payload>,
    finalOutput: Option<Payload>, reason: string,
    pending: seq<Command>, applied: seq<string>)
  {
    predicate Terminal() { status in {Finished, Blocked, Failed} }

    predicate AllAccepted() { checks != [] && forall i :: 0 <= i < |checks| ==> checks[i].Satisfied() }

    /** What the progress guard compares between the two ends of a round. */
    function AcceptanceSnapshot(): seq<(string, string, nat)> {
      seq(|checks|, i requires 0 <= i < |checks| => (checks[i].id, checks[i].status, |checks[i].evidence|))
    }

    function WithArtifact(id: string, p: Payload): Board { this.(artifacts := artifacts[id := p]) }
  }

  /** Acceptance has not moved if and only if the criteria are the same in the same order, with the same status and as
      much evidence; which evidence does not count. */
  lemma SameAcceptanceIff(b: Board, c: Board)
    ensures b.AcceptanceSnapshot() == c.AcceptanceSnapshot() <==>
      |b.checks| == |c.checks| && forall i :: 0 <= i < |b.checks| ==>
        b.checks[i].id == c.checks[i].id && b.checks[i].status == c.checks[i].status && |b.checks[i].evidence| == |c.checks[i].evidence|
  {
    var s, t := b.AcceptanceSnapshot(), c.AcceptanceSnapshot();
    if s == t {
      forall i | 0 <= i < |b.checks|
        ensures b.checks[i].id == c.checks[i].id && b.checks[i].status == c.checks[i].status && |b.checks[i].evidence| == |c.checks[i].evidence|
      {
        assert s[i] == t[i];
      }
    }
  }

  /** Neither the round counter nor its bound moved. */
  predicate SameClock(b: Board, c: Board) { c.round == b.round && c.maxRounds == b.maxRounds }

  // ---------------------------------------------------------------- encoding

  function StatusText(s: Status): string {
    match s
    case Created => "created"
    case TeamSelected => "team_selected"
    case InDiscussion => "in_discussion"
    case WaitingTool => "waiting_tool"
    case ReviewingAc => "reviewing_ac"
    case Finished => "finished"
    case Blocked => "blocked"
    case Failed => "failed"
  }

  function StatusOf(t: string): Option<Status> {
    if t == "created" then Some(Created)
    else if t == "team_selected" then Some(TeamSelected)
    else if t == "in_discussion" then Some(InDiscussion)
    else if t == "waiting_tool" then Some(WaitingTool)
    else if t == "reviewing_ac" then Some(ReviewingAc)
    else if t == "finished" then Some(Finished)
    else if t == "blocked" then Some(Blocked)
    else if t == "failed" then Some(Failed)
    else None
  }

  function EncodeStr(s: string): Json { JStr(s) }

  function EncodeAll<T>(xs: seq<T>, enc: T -> Json): Json {
    JArr(seq(|xs|, i requires 0 <= i < |xs| => enc(xs[i])))
  }

  function EncodeCheck(c: Check): Json {
    JObj(map["id" := JStr(c.id), "text" := JStr(c.text), "status" := JStr(c.status),
             "evidence_ids" := EncodeAll(c.evidence, EncodeStr)])
  }

  function EncodeTurn(t: Turn): Json {
    JObj(map["round_no" := JInt(t.round), "agent_id" := JStr(t.agent), "packet_id" := JStr(t.packetId),
             "output_summary" := JStr(t.summary), "artifact_ids" := EncodeAll(t.artifactIds, EncodeStr)])
  }

  function EncodeCommand(c: Command): Json {
    JObj(map["command_type" := JStr(c.commandType), "session_id" := JStr(c.sessionId),
             "issued_by" := JStr(c.issuer), "idempotency_key" := JStr(c.key),
             "payload" := JObj(map["agent_id" := JStr(c.agentId)])])
  }

  function EncodePayloads(m: map<string, Payload>): Json { JObj(map k | k in m :: JObj(m[k])) }

  /** `encode_taskloop_state`: a falsy (empty or absent) final output becomes null. */
  function EncodeBoard(b: Board): Payload {
    map["session_id" := JStr(b.sessionId), "task_id" := JStr(b.taskId),
        "status" := JStr(StatusText(b.status)),
        "selected_agents" := EncodeAll(b.roster, EncodeStr),
        "acceptance_checks" := EncodeAll(b.checks, EncodeCheck),
        "round_no" := JInt(b.round), "max_rounds" := JInt(b.maxRounds),
        "turns" := EncodeAll(b.turns, EncodeTurn),
        "artifacts" := EncodePayloads(b.artifacts), "tool_results" := EncodePayloads(b.toolResults),
        "final_output" := (if b.finalOutput.Some? && b.finalOutput.value != map[] then JObj(b.finalOutput.value) else JNull),
        "reason" := JStr(b.reason),
        "pending_commands" := EncodeAll(b.pending, EncodeCommand),
        "applied_command_keys" := EncodeAll(b.applied, EncodeStr)]
  }

  // ---------------------------------------------------------------- decoding

  function DecodeStr(j: Json): Option<string> { if j.JStr? then Some(j.s) else None }

  function DecodeInt(j: Json): Option<int> { if j.JInt? then Some(j.n) else None }

  function Need(d: Payload, k: string): Option<Json> { if k in d then Some(d[k]) else None }

  function Default(d: Payload, k: string, otherwise: Json): Json { if k in d then d[k] else otherwise }

  /** `x or []`: an absent or null list reads as the empty one. */
  function Items(j: Json): Option<seq<Json>> {
    if j.JArr? then Some(j.items) else if j.JNull? then Some([]) else None
  }

  function DecodeEach<T>(js: seq<Json>, dec: Json -> Option<T>): Option<seq<T>> {
    if js == [] then Some([])
    else
      var front :- DecodeEach(js[..|js| - 1], dec);
      var last :- dec(js[|js| - 1]);
      Some(front + [last])
  }

  function DecodeAll<T>(j: Json, dec: Json -> Option<T>): Option<seq<T>> {
    var items :- Items(j);
    DecodeEach(items, dec)
  }

  function DecodeCheck(j: Json): Option<Check> {
    if !j.JObj? then None else
    var idJson :- Need(j.fields, "id");
    var id :- DecodeStr(idJson);
    var text :- DecodeStr(Default(j.fields, "text", JStr("")));
    var status :- DecodeStr(Default(j.fields, "status", JStr("pending")));
    var evidence :- DecodeAll(Default(j.fields, "evidence_ids", JNull), DecodeStr);
    Some(Check(id, text, status, evidence))
  }

  function DecodeTurn(j: Json): Option<Turn> {
    if !j.JObj? then None else
    var roundJson :- Need(j.fields, "round_no");
    var round :- DecodeInt(roundJson);
    var agentJson :- Need(j.fields, "agent_id");
    var agent :- DecodeStr(agentJson);
    var packet :- DecodeStr(Default(j.fields, "packet_id", JStr("")));
    var summary :- DecodeStr(Default(j.fields, "output_summary", JStr("")));
    var ids :- DecodeAll(Default(j.fields, "artifact_ids", JNull), DecodeStr);
    Some(Turn(round, agent, packet, summary, ids))
  }

  function DecodeCommand(j: Json): Option<Command> {
    if !j.JObj? then None else
    var kind :- DecodeStr(Default(j.fields, "command_type", JStr("")));
    var session :- DecodeStr(Default(j.fields, "session_id", JStr("")));
    var issuer :- DecodeStr(Default(j.fields, "issued_by", JStr("")));
    var key :- DecodeStr(Default(j.fields, "idempotency_key", JStr("")));
    var payload := Default(j.fields, "payload", JObj(map[]));
    if !payload.JObj? then None else
    var agent :- DecodeStr(Default(payload.fields, "agent_id", JStr("")));
    Some(Command(kind, session, issuer, key, agent))
  }

  function DecodePayloads(j: Json): Option<map<string, Payload>> {
    if j.JNull? then Some(map[])
    else if j.JObj? && forall k :: k in j.fields ==> j.fields[k].JObj? then
      Some(map k | k in j.fields :: j.fields[k].fields)
    else None
  }

  function DecodeOutput(j: Json): Option<Option<Payload>> {
    if j.JObj? && j.fields != map[] then Some(Some(j.fields))
    else if j.JNull? || j.JObj? then Some(None)
    else None
  }

  function DecodeIdentity(d: Payload): Option<Board> {
    var sessionJson :- Need(d, "session_id");
    var session :- DecodeStr(sessionJson);
    var taskJson :- Need(d, "task_id");
    var task :- DecodeStr(taskJson);
    var statusText :- DecodeStr(Default(d, "status", JStr("created")));
    var status :- StatusOf(statusText);
    var round :- DecodeInt(Default(d, "round_no", JInt(0)));
    var maxRounds :- DecodeInt(Default(d, "max_rounds", JInt(5)));
    var reason :- DecodeStr(Default(d, "reason", JStr("")));
    Some(Board(session, task, status, [], [], round, maxRounds, [], map[], map[], None, reason, [], []))
  }

  function DecodeWork(d: Payload, b: Board): Option<Board> {
    var roster :- DecodeAll(Default(d, "selected_agents", JNull), DecodeStr);
    var checks :- DecodeAll(Default(d, "acceptance_checks", JNull), DecodeCheck);
    var turns :- DecodeAll(Default(d, "turns", JNull), DecodeTurn);
    var artifacts :- DecodePayloads(Default(d, "artifacts", JNull));
    var toolResults :- DecodePayloads(Default(d, "tool_results", JNull));
    var output :- DecodeOutput(Default(d, "final_output", JNull));
    Some(b.(roster := roster, checks := checks, turns := turns, artifacts := artifacts,
            toolResults := toolResults, finalOutput := output))
  }

  function DecodeQueues(d: Payload, b: Board): Option<Board> {
    var pending :- DecodeAll(Default(d, "pending_commands", JNull), DecodeCommand);
    var applied :- DecodeAll(Default(d, "applied_command_keys", JNull), DecodeStr);
    Some(b.(pending := pending, applied := applied))
  }

  /** `decode_taskloop_state`; None where the host raises on a document of the wrong shape. */
  function DecodeBoard(d: Payload): Option<Board> {
    var identity :- DecodeIdentity(d);
    var work :- DecodeWork(d, identity);
    DecodeQueues(d, work)
  }

  // ---------------------------------------------------------------- round trip

  /** What survives a save and a load. */
  function Persisted(b: Board): Board {
    if b.finalOutput == Some(map[]) then b.(finalOutput := None) else b
  }

  lemma {:induction false} EachRoundTrips<T(!new)>(xs: seq<T>, enc: T -> Json, dec: Json -> Option<T>)
    requires forall x :: x in xs ==> dec(enc(x)) == Some(x)
    ensures DecodeAll(EncodeAll(xs, enc), dec) == Some(xs)
  {
    if xs != [] {
      var front := xs[..|xs| - 1];
      EachRoundTrips(front, enc, dec);
      assert EncodeAll(xs, enc).items[..|xs| - 1] == EncodeAll(front, enc).items;
      assert xs == front + [xs[|xs| - 1]];
    }
  }

  lemma StringsRoundTrip(xs: seq<string>)
    ensures DecodeAll(EncodeAll(xs, EncodeStr), DecodeStr) == Some(xs)
  {
    EachRoundTrips(xs, EncodeStr, DecodeStr);
  }

  lemma ChecksRoundTrip(xs: seq<Check>)
    ensures DecodeAll(EncodeAll(xs, EncodeCheck), DecodeCheck) == Some(xs)
  {
    forall c: Check ensures DecodeCheck(EncodeCheck(c)) == Some(c) { StringsRoundTrip(c.evidence); }
    EachRoundTrips(xs, EncodeCheck, DecodeCheck);
  }

  lemma TurnsRoundTrip(xs: seq<Turn>)
    ensures DecodeAll(EncodeAll(xs, EncodeTurn), DecodeTurn) == Some(xs)
  {
    forall t: Turn ensures DecodeTurn(EncodeTurn(t)) == Some(t) { StringsRoundTrip(t.artifactIds); }
    EachRoundTrips(xs, EncodeTurn, DecodeTurn);
  }

  lemma PayloadsRoundTrip(m: map<string, Payload>)
    ensures DecodePayloads(EncodePayloads(m)) == Some(m)
  {
    assert forall k :: k in EncodePayloads(m).fields ==> EncodePayloads(m).fields[k].JObj?;
    assert DecodePayloads(EncodePayloads(m)).value == m;
  }

  // The fields of a document, read the way the decoder reads them, in three groups.

  ghost predicate HoldsIdentity(d: Payload, b: Board) {
    && Need(d, "session_id") == Some(JStr(b.sessionId))
    && Need(d, "task_id") == Some(JStr(b.taskId))
    && Default(d, "status", JStr("created")) == JStr(StatusText(b.status))
    && Default(d, "round_no", JInt(0)) == JInt(b.round)
    && Default(d, "max_rounds", JInt(5)) == JInt(b.maxRounds)
    && Default(d, "reason", JStr("")) == JStr(b.reason)
  }

  ghost predicate HoldsWork(d: Payload, b: Board) {
    && Default(d, "selected_agents", JNull) == EncodeAll(b.roster, EncodeStr)
    && Default(d, "acceptance_checks", JNull) == EncodeAll(b.checks, EncodeCheck)
    && Default(d, "turns", JNull) == EncodeAll(b.turns, EncodeTurn)
    && Default(d, "artifacts", JNull) == EncodePayloads(b.artifacts)
    && Default(d, "tool_results", JNull) == EncodePayloads(b.toolResults)
    && DecodeOutput(Default(d, "final_output", JNull)) == Some(Persisted(b).finalOutput)
  }

  lemma EncodedIdentity(b: Board)
    ensures HoldsIdentity(EncodeBoard(b), b)
  {}

  lemma EncodedWork(b: Board)
    ensures HoldsWork(EncodeBoard(b), b)
  {}

  lemma EncodedQueues(b: Board)
    ensures DecodeAll(Default(EncodeBoard(b), "pending_commands", JNull), DecodeCommand) == Some(b.pending)
    ensures DecodeAll(Default(EncodeBoard(b), "applied_command_keys", JNull), DecodeStr) == Some(b.applied)
  {
    hide EncodeBoard, DecodeCommand, EncodeCommand;
    QueueFields(b);
    CommandsRoundTrip(b.pending);
    StringsRoundTrip(b.applied);
  }

  lemma QueueFields(b: Board)
    ensures Need(EncodeBoard(b), "pending_commands") == Some(EncodeAll(b.pending, EncodeCommand))
    ensures Need(EncodeBoard(b), "applied_command_keys") == Some(EncodeAll(b.applied, EncodeStr))
  {
  }

  lemma CommandsRoundTrip(cs: seq<Command>)
    ensures DecodeAll(EncodeAll(cs, EncodeCommand), DecodeCommand) == Some(cs)
  {
    EachRoundTrips(cs, EncodeCommand, DecodeCommand);
  }

  lemma DecodesIdentity(d: Payload, b: Board)
    requires HoldsIdentity(d, b)
    ensures DecodeIdentity(d) == Some(Board(b.sessionId, b.taskId, b.status, [], [], b.round, b.maxRounds,
                                            [], map[], map[], None, b.reason, [], []))
  {}

  lemma DecodesWork(d: Payload, b: Board, identity: Board)
    requires HoldsWork(d, b)
    ensures DecodeWork(d, identity)
         == Some(identity.(roster := b.roster, checks := b.checks, turns := b.turns, artifacts := b.artifacts,
                           toolResults := b.toolResults, finalOutput := Persisted(b).finalOutput))
  {
    StringsRoundTrip(b.roster);
    ChecksRoundTrip(b.checks);
    TurnsRoundTrip(b.turns);
    PayloadsRoundTrip(b.artifacts);
    PayloadsRoundTrip(b.toolResults);
  }

  /** A document holding a board's fields decodes to it, with whatever the two queues decode to. */
  lemma DecodesTo(d: Payload, b: Board, pending: seq<Command>, applied: seq<string>)
    requires HoldsIdentity(d, b) && HoldsWork(d, b)
    requires DecodeAll(Default(d, "pending_commands", JNull), DecodeCommand) == Some(pending)
    requires DecodeAll(Default(d, "applied_command_keys", JNull), DecodeStr) == Some(applied)
    ensures DecodeBoard(d) == Some(Persisted(b).(pending := pending, applied := applied))
  {
    DecodesIdentity(d, b);
    DecodesWork(d, b, DecodeIdentity(d).value);
  }

  /** Loading what was saved gives the saved board back, for every board: the only field that can
      change is an empty final output, which comes back as none. */
  lemma BoardRoundTrips(b: Board)
    ensures DecodeBoard(EncodeBoard(b)) == Some(Persisted(b))
    ensures Persisted(b) == b <==> b.finalOutput != Some(map[])
  {
    EncodedIdentity(b);
    EncodedWork(b);
    EncodedQueues(b);
    DecodesTo(EncodeBoard(b), b, b.pending, b.applied);
  }

  /** A checkpoint written before the command queue existed decodes to empty queues. */
  lemma OldCheckpointDecodes(b: Board)
    ensures DecodeBoard(EncodeBoard(b) - QUEUES)
         == Some(Persisted(b).(pending := [], applied := []))
  {
    EncodedIdentity(b);
    EncodedWork(b);
    IdentityWithoutQueues(EncodeBoard(b), b);
    WorkWithoutQueues(EncodeBoard(b), b);
    DecodesTo(EncodeBoard(b) - QUEUES, b, [], []);
  }

  /** The keys of a board's document. */
  lemma DocumentKeys(b: Board)
    ensures EncodeBoard(b).Keys
      == {"session_id", "task_id", "status", "selected_agents", "acceptance_checks", "round_no", "max_rounds", "turns",
          "artifacts", "tool_results", "final_output", "reason", "pending_commands", "applied_command_keys"}
  {
    hide EncodeAll, EncodePayloads, StatusText;
  }

  /** All a document needs is whose run it is; everything else has a default. */
  lemma BareDocumentDecodes(session: string, task: string)
    ensures DecodeBoard(map["session_id" := JStr(session), "task_id" := JStr(task)])
      == Some(Board(session, task, Created, [], [], 0, 5, [], map[], map[], None, "", [], []))
  {
  }

  lemma NamelessDocumentRaises(d: Payload)
    requires "session_id" !in d || "task_id" !in d
    ensures DecodeBoard(d) == None
  {
  }

  const QUEUES := {"pending_commands", "applied_command_keys"}

  /** A field of another length than the two queue keys is not touched by dropping them. */
  lemma OtherField(d: Payload, k: string)
    requires |k| != 16 && |k| != 20
    ensures Need(d - QUEUES, k) == Need(d, k) && forall j :: Default(d - QUEUES, k, j) == Default(d, k, j)
  {
    assert forall q :: q in QUEUES ==> |q| == 16 || |q| == 20;
  }

  lemma IdentityWithoutQueues(d: Payload, b: Board)
    requires HoldsIdentity(d, b)
    ensures HoldsIdentity(d - QUEUES, b)
  {
    hide Need, Default, StatusText;
    OtherField(d, "session_id");
    OtherField(d, "task_id");
    OtherField(d, "status");
    OtherField(d, "round_no");
    OtherField(d, "max_rounds");
    OtherField(d, "reason");
  }

  lemma WorkWithoutQueues(d: Payload, b: Board)
    requires HoldsWork(d, b)
    ensures HoldsWork(d - QUEUES, b)
  {
    hide Need, Default, EncodeAll, EncodePayloads, DecodeOutput, Persisted;
    OtherField(d, "selected_agents");
    OtherField(d, "acceptance_checks");
    OtherField(d, "turns");
    OtherField(d, "artifacts");
    OtherField(d, "tool_results");
    OtherField(d, "final_output");
  }

  // ---------------------------------------------------------------- the mutable Blackboard and its store

  class TaskLoopState {
    const sessionId: string
    const taskId: string
    const maxRounds: int
    var status: Status
    var roster: seq<string>
    var checks: seq<Check>
    var round: int
    var turns: seq<Turn>
    var artifacts: map<string, Payload>
    var toolResults: map<string, Payload>
    var finalOutput: Option<Payload>
    var reason: string
    var pending: seq<Command>
    var applied: seq<string>

    function View(): Board
      reads this
    {
      Board(sessionId, taskId, status, roster, checks, round, maxRounds, turns, artifacts, toolResults,
            finalOutput, reason, pending, applied)
    }

    constructor (b: Board)
      ensures View() == b
    {
      sessionId, taskId, maxRounds := b.sessionId, b.taskId, b.maxRounds;
      status, roster, checks, round, turns := b.status, b.roster, b.checks, b.round, b.turns;
      artifacts, toolResults, finalOutput, reason := b.artifacts, b.toolResults, b.finalOutput, b.reason;
      pending, applied := b.pending, b.applied;
    }

    method AddArtifact(id: string, payload: Payload)
      modifies this`artifacts
      ensures View() == old(View()).WithArtifact(id, payload)
    {
      artifacts := artifacts[id := payload];
    }
  }

  /** One row per run: each save replaces the previous document. `log` records every board saved. */
  class CheckpointStore {
    var row: Option<Payload>
    ghost var log: seq<Board>

    ghost predicate Valid()
      reads this
    {
      if log == [] then row == None else row == Some(EncodeBoard(log[|log| - 1]))
    }

    constructor ()
      ensures Valid() && log == []
    {
      row, log := None, [];
    }

    method Save(state: TaskLoopState)
      requires Valid()
      modifies this
      ensures Valid() && log == old(log) + [state.View()]
    {
      row := Some(EncodeBoard(state.View()));
      log := log + [state.View()];
    }

    /** Loading gives the last board saved, up to what persistence does to it. */
    method Load() returns (b: Option<Board>)
      requires Valid()
      ensures b == if log == [] then None else Some(Persisted(log[|log| - 1]))
    {
      if row.None? {
        b := None;
      } else {
        BoardRoundTrips(log[|log| - 1]);
        b := DecodeBoard(row.value);
      }
    }
  }
}
