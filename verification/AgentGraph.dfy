/** The six-node agent graph: what each node does to the checkpointed state, the live session and the
    outside world, and the declared edges between nodes. */
module AgentGraph {
  import opened Text
  import opened TaskBoard
  import opened Discipline
  import opened Sessions
  import D = Delegation

  datatype Node = Guard | Agent | Tool | Delegation | Finish | Fail | End

  // ---------------------------------------------------------------- session codec

  function TaskJson(t: Task): Json {
    JObj(map["task_id" := JStr(t.taskId), "user_request" := JStr(t.userRequest),
             "context" := JObj(t.context), "metadata" := JObj(t.metadata)])
  }

  function TextAt(d: Payload, k: string): string { if k in d && d[k].JStr? then d[k].s else "" }

  function FieldsAt(d: Payload, k: string): Payload { if k in d && d[k].JObj? then d[k].fields else map[] }

  /** `TaskEnvelope.from_dict`: a missing or empty task id is replaced by a new one. */
  function TaskOf(d: Payload, uuid: string): Task {
    var id := TextAt(d, "task_id");
    Task(TextAt(d, "user_request"), FieldsAt(d, "context"), FieldsAt(d, "metadata"), if id == "" then uuid else id)
  }

  const TASK_MARK := "__task__"

  predicate Marked(v: Val) {
    v.Plain? && v.json.JObj? && TASK_MARK in v.json.fields && v.json.fields[TASK_MARK].JObj?
  }

  /** `encode_session_state`. */
  function Encode(d: Store): Store {
    if HasTask(d) then d[CURRENT_TASK := Plain(JObj(map[TASK_MARK := TaskJson(d[CURRENT_TASK].task)]))] else d
  }

  /** `decode_session_state`. */
  function Decode(d: Store, uuid: string): Store {
    if CURRENT_TASK in d && Marked(d[CURRENT_TASK])
    then d[CURRENT_TASK := TaskVal(TaskOf(d[CURRENT_TASK].json.fields[TASK_MARK].fields, uuid))]
    else d
  }

  /** What a store must look like to survive a checkpoint. */
  predicate Storable(d: Store) {
    CURRENT_TASK in d ==> !Marked(d[CURRENT_TASK]) && (d[CURRENT_TASK].TaskVal? ==> d[CURRENT_TASK].task.taskId != "")
  }

  /** The checkpoint form of a running task. */
  lemma EncodedTaskIs(d: Store)
    requires HasTask(d)
    ensures var t := d["current_task"].task;
      Encode(d) == d["current_task" := Plain(JObj(map["__task__" := JObj(map[
        "task_id" := JStr(t.taskId), "user_request" := JStr(t.userRequest),
        "context" := JObj(t.context), "metadata" := JObj(t.metadata)])]))]
  {
  }

  lemma TaskRoundTrips(t: Task, uuid: string)
    requires uuid != ""
    ensures TaskOf(TaskJson(t).fields, uuid) == t <==> t.taskId != ""
  {
  }

  /** Decoding what was encoded gives the store back exactly when its task has an id and no plain value
      poses as an encoded task. */
  lemma StoreRoundTrips(d: Store, uuid: string)
    requires uuid != ""
    ensures Decode(Encode(d), uuid) == d <==> Storable(d)
  {
    if HasTask(d) {
      var t := d[CURRENT_TASK].task;
      TaskRoundTrips(t, uuid);
      var e := Encode(d);
      assert Marked(e[CURRENT_TASK]);
      assert Decode(e, uuid) == d[CURRENT_TASK := TaskVal(TaskOf(TaskJson(t).fields, uuid))];
      if t.taskId == "" { assert Decode(e, uuid)[CURRENT_TASK] != d[CURRENT_TASK]; }
    } else if CURRENT_TASK in d && Marked(d[CURRENT_TASK]) {
      assert Decode(d, uuid)[CURRENT_TASK] != d[CURRENT_TASK];
    }
  }

  // ---------------------------------------------------------------- state

  datatype Verb = CallTool | HandOver | Final | Other

  datatype Reason = ErrorFinish | Blocker | OtherReason

  /** A parsed action; `spec` and `policy` are whatever the model wrote there, null when it wrote nothing. */
  datatype Action = Action(
    verb: Verb, tool: string, args: string,
    target: string, spec: Json, policy: Json,
    message: string, reason: Reason)

  const NO_ACTION := Action(Other, "", "", "", JNull, JNull, "", OtherReason)

  /** Something falsy stands for the empty mapping. */
  function AsMapping(j: Json): Option<Payload> {
    if j.JObj? then Some(j.fields) else if Truthy(j) then None else Some(map[])
  }

  predicate Shaped(a: Action) { AsMapping(a.spec).Some? && AsMapping(a.policy).Some? }

  function SpecOf(a: Action): Payload { if AsMapping(a.spec).Some? then AsMapping(a.spec).value else map[] }

  /** `DelegationSpec.from_dict` does not raise: two fields are falsy or something `dict()` takes, one is
      falsy or something that can be iterated. */
  predicate SpecConverts(d: Payload) {
    && ("input_context" in d && Truthy(d["input_context"]) ==> Dictable(d["input_context"]))
    && ("expected_output_schema" in d && Truthy(d["expected_output_schema"]) ==> Dictable(d["expected_output_schema"]))
    && ("constraints" in d && Truthy(d["constraints"]) ==> Iterable(d["constraints"]))
  }

  predicate NoObjective(d: Payload) { "objective" !in d || d["objective"] == JStr("") }

  /** What is no mapping: a text or list that is not empty, `true`, and a number other than zero. */
  lemma NoMappingIff(j: Json)
    ensures AsMapping(j).None? <==> (j.JStr? && j.s != "") || (j.JArr? && j.items != []) || j == JBool(true) || (j.JInt? && j.n != 0)
    ensures AsMapping(j).Some? ==> AsMapping(j).value == if j.JObj? then j.fields else map[]
  {
  }

  /** What `dict()` raises on: `true`, a number other than zero, a text that is not empty, or a list with an item
      that is no pair. */
  predicate NotDictable(j: Json) {
    j == JBool(true) || (j.JInt? && j.n != 0) || (j.JStr? && j.s != "") || (j.JArr? && exists i :: 0 <= i < |j.items| && !PairLike(j.items[i]))
  }

  /** When a delegation's spec raises, field by field. */
  lemma SpecRaisesIff(d: Payload)
    ensures !SpecConverts(d) <==>
      || ("input_context" in d && NotDictable(d["input_context"]))
      || ("expected_output_schema" in d && NotDictable(d["expected_output_schema"]))
      || ("constraints" in d && (d["constraints"] == JBool(true) || (d["constraints"].JInt? && d["constraints"].n != 0)))
  {
  }

  datatype Error =
    | StepBudget | ParseErrors | RepeatedCall
    | NoService | BadDelegation | EmptyObjective | DelegationRaised

  datatype Message =
    | Given(role: string, text: string)
    | Said(content: string)
    | Retry(of: string)
    | UnknownAction
    | ToolReply(result: string)
    | DelegationReply(result: string)
    | GateClosed

  datatype RunStatus = Running | Completed | RunFailed

  /** What a session is closed with. */
  datatype Ending = Done(message: string) | Errored(message: string) | Broken(error: Option<Error>, steps: int, parseErrors: int)

  /** The checkpointed state; `sessionState` is encoded. */
  datatype AgentState = AgentState(
    identity: Identity, scope: set<string>,
    messages: seq<Message>, budget: BudgetState, sessionState: Store,
    lastAction: Option<Action>, route: Node, finalText: Option<string>, outcome: Option<Json>,
    status: RunStatus, error: Option<Error>, lastDelegation: Option<string>)

  datatype Call = LlmCall(messages: seq<Message>) | ToolCall(name: string, args: string) | HandOverCall(action: Action)

  /** Everything outside the graph. Each port may depend on every external call made so far. A hand-over
      that answers nothing has raised, in converting the policy or in the service. */
  datatype Oracles = Oracles(
    llm: (seq<Call>, seq<Message>) -> string,
    parse: string -> Option<Action>,
    tool: (seq<Call>, string, string) -> string,
    inactive: string -> string,
    service: bool,
    delegate: (seq<Call>, Action) -> Option<D.Result>,
    describe: D.Result -> string,
    envelope: (string, Ending) -> Json,
    uuid: string)

  /** One moment of a run: checkpoint, live session, external calls so far, lifecycle events so far. */
  datatype Scene = Scene(st: AgentState, live: SessionView, log: seq<Call>, events: seq<Event>)

  /** `Budget.tool_key`; arguments are already in canonical text. */
  function ToolKey(name: string, args: string): string { name + ":" + args }

  function LastAction(st: AgentState): Action { if st.lastAction.Some? then st.lastAction.value else NO_ACTION }

  predicate Flag(d: Store, k: string) { k in d && (d[k].Plain? ==> Truthy(d[k].json)) }

  const CODE_CHANGED := "code_changed"
  const VALIDATION_PASSED := "validation_passed"

  /** `check_finish`. */
  predicate GateOpen(d: Store, reason: Reason) {
    !Flag(d, CODE_CHANGED) || Flag(d, VALIDATION_PASSED) || reason == Blocker
  }

  // ---------------------------------------------------------------- node functions

  /** `_restore_session`: the store is replaced, the closed flag is not. */
  function Restored(s: Scene, uuid: string): SessionView { s.live.(data := Decode(s.st.sessionState, uuid)) }

  function Snapshot(st: AgentState, live: SessionView): AgentState { st.(sessionState := Encode(live.data)) }

  function Failing(st: AgentState, e: Error): AgentState { st.(route := Fail, error := Some(e)) }

  function GuardScene(s: Scene, uuid: string): Scene {
    var live := Restored(s, uuid);
    var st := Snapshot(s.st, live);
    s.(st := if st.budget.steps >= st.budget.maxSteps then Failing(st, StepBudget) else st.(route := Agent), live := live)
  }

  function RouteOf(a: Action): Node {
    match a.verb
    case CallTool => Tool
    case HandOver => Delegation
    case Final => Finish
    case Other => Guard
  }

  /** The state after the model said `content`. */
  function Heard(st: AgentState, content: string, parsed: Option<Action>): AgentState {
    var said := st.messages + [Said(content)];
    match parsed
    case None =>
      var b := st.budget.WithParseError();
      if b.ParseExceeded() then Failing(st.(messages := said, budget := b), ParseErrors)
      else st.(messages := said + [Retry(content)], budget := b, route := Guard)
    case Some(a) =>
      st.(messages := if a.verb.Other? then said + [UnknownAction] else said,
          budget := st.budget.Stepped(), lastAction := Some(a), route := RouteOf(a))
  }

  function AgentScene(s: Scene, o: Oracles): Scene {
    var live := Restored(s, o.uuid);
    var content := if live.Active() then o.llm(s.log, s.st.messages) else "";
    var log := if live.Active() then s.log + [LlmCall(s.st.messages)] else s.log;
    Scene(Heard(Snapshot(s.st, live), content, o.parse(content)), live, log, s.events)
  }

  function ToolScene(s: Scene, o: Oracles): Scene {
    var live := Restored(s, o.uuid);
    var a := LastAction(s.st);
    var key := ToolKey(a.tool, a.args);
    var b := s.st.budget.Called(key);
    var st := Snapshot(s.st, live).(budget := b);
    if b.SameToolExceeded(key) then s.(st := Failing(st, RepeatedCall), live := live)
    else
      var result := if live.Active() then o.tool(s.log, a.tool, a.args) else o.inactive(a.tool);
      Scene(st.(messages := st.messages + [ToolReply(result)], route := Guard), live,
            if live.Active() then s.log + [ToolCall(a.tool, a.args)] else s.log, s.events)
  }

  /** None: the node raises. The spec is converted before, and the result described after, what the node's
      error handling covers. */
  function DelegateScene(s: Scene, o: Oracles): Option<Scene> {
    var live := Restored(s, o.uuid);
    var a := LastAction(s.st);
    var st := Snapshot(s.st, live);
    if !o.service then Some(s.(st := Failing(st, NoService), live := live))
    else if a.target == "" || !Shaped(a) then Some(s.(st := Failing(st, BadDelegation), live := live))
    else if !SpecConverts(SpecOf(a)) then None
    else if NoObjective(SpecOf(a)) then Some(s.(st := Failing(st, EmptyObjective), live := live))
    else
      var log := s.log + [HandOverCall(a)];
      match o.delegate(s.log, a)
      case None => Some(Scene(Failing(st, DelegationRaised), live, log, s.events))
      case Some(result) =>
        if !D.Describable(result) then None
        else
          var told := o.describe(result);
          Some(Scene(st.(messages := st.messages + [DelegationReply(told)], lastDelegation := Some(told), route := Guard),
                     live, log, s.events))
  }

  /** The delegation service is called for this action. */
  predicate HandsOver(a: Action, o: Oracles) {
    o.service && a.target != "" && Shaped(a) && SpecConverts(SpecOf(a)) && !NoObjective(SpecOf(a))
  }

  /** The service has answered, with a result that does not convert. */
  predicate AnswersBadly(log: seq<Call>, a: Action, o: Oracles) {
    HandsOver(a, o) && o.delegate(log, a).Some? && !D.Describable(o.delegate(log, a).value)
  }

  /** The external call that a raising node has made, of which no checkpoint tells. */
  function LostCalls(node: Node, s: Scene, o: Oracles): seq<Call> {
    var a := LastAction(s.st);
    if node.Delegation? && AnswersBadly(s.log, a, o) then [HandOverCall(a)] else []
  }

  const ERROR_TEXT := "agent finished with an error"

  /** Closing the session and recording how; closing an inactive session raises. */
  function Closing(s: Scene, live: SessionView, ending: Ending, o: Oracles): Option<Scene> {
    if !live.Active() then None
    else
      var outcome := o.envelope(live.identity.taskId, ending);
      var closed := live.Closed(outcome);
      var st := Snapshot(s.st, closed).(outcome := Some(outcome), status := if ending.Done? then Completed else RunFailed, route := End);
      Some(Scene(if ending.Broken? then st else st.(finalText := Some(ending.message)), closed, s.log,
                 s.events + [TaskClosed(live.identity.sessionId, if ending.Done? then "completed" else "failed")]))
  }

  function FinishScene(s: Scene, o: Oracles): Option<Scene> {
    var live := Restored(s, o.uuid);
    var a := LastAction(s.st);
    if a.reason.ErrorFinish? then Closing(s, live, Errored(if a.message == "" then ERROR_TEXT else a.message), o)
    else if !GateOpen(live.data, a.reason) then
      var st := Snapshot(s.st, live);
      Some(s.(st := st.(messages := st.messages + [GateClosed], route := Guard), live := live))
    else Closing(s, live, Done(a.message), o)
  }

  function FailScene(s: Scene, o: Oracles): Option<Scene> {
    Closing(s, Restored(s, o.uuid), Broken(s.st.error, s.st.budget.steps, s.st.budget.parseErrors), o)
  }

  // ---------------------------------------------------------------- the compiled graph

  datatype Config = Config(node: Node, scene: Scene)

  /** The conditional edges; the edge out of Fail is unconditional. */
  predicate Declared(node: Node, route: Node) {
    match node
    case Guard => route in {Agent, Fail}
    case Agent => route in {Tool, Delegation, Finish, Guard, Fail}
    case Tool => route in {Guard, Fail}
    case Delegation => route in {Guard, Fail}
    case Finish => route in {Guard, End}
    case Fail => true
    case End => false
  }

  function Visit(node: Node, s: Scene, o: Oracles): Option<Scene> {
    match node
    case Guard => Some(GuardScene(s, o.uuid))
    case Agent => Some(AgentScene(s, o))
    case Tool => Some(ToolScene(s, o))
    case Delegation => DelegateScene(s, o)
    case Finish => FinishScene(s, o)
    case Fail => FailScene(s, o)
    case End => None
  }

  /** Every route a node sets is one of its edges. */
  lemma RoutesAreDeclared(node: Node, s: Scene, o: Oracles)
    requires Visit(node, s, o).Some?
    ensures Declared(node, Visit(node, s, o).value.st.route)
  {
    hide Encode, Decode, HasTask, GateOpen, BudgetState.Count, SessionView.Closed, SessionView.Active, SpecConverts;
  }

  /** One node and the edge out of it; None when the node raises or the route is not declared. */
  function Step(c: Config, o: Oracles): Option<Config> {
    var s :- Visit(c.node, c.scene, o);
    if c.node.Fail? then Some(Config(End, s))
    else if Declared(c.node, s.st.route) then Some(Config(s.st.route, s))
    else None
  }

  /** Nodes still to run, at most. */
  function Fuel(node: Node, b: BudgetState): nat {
    var s := Max(0, b.maxSteps - b.steps);
    var p := Max(1, b.maxParseErrors - b.parseErrors);
    match node
    case Guard => 3 * s + 2 * p
    case Agent => 3 * Max(1, s) + 2 * p - 1
    case Tool => 3 * s + 2 * p + 1
    case Delegation => 3 * s + 2 * p + 1
    case Finish => 3 * s + 2 * p + 1
    case Fail => 1
    case End => 0
  }

  function Measure(c: Config): nat { Fuel(c.node, c.scene.st.budget) }

  lemma BudgetEffects(c: Config, o: Oracles)
    requires Visit(c.node, c.scene, o).Some?
    ensures var b, d := c.scene.st.budget, Visit(c.node, c.scene, o).value.st.budget;
      && (c.node !in {Agent, Tool} ==> d == b)
      && (c.node.Tool? ==> d == b.(toolCalls := d.toolCalls))
      && (c.node.Agent? ==> d == b.Stepped() || d == b.WithParseError())
  {
    hide Encode, Decode, HasTask, SessionView.Closed, GateOpen, BudgetState.Count;
  }

  /** Every node burns fuel. */
  lemma StepBurns(c: Config, o: Oracles)
    requires Step(c, o).Some?
    ensures Measure(Step(c, o).value) < Measure(c)
  {
    hide Encode, Decode, HasTask, SessionView.Closed, GateOpen, BudgetState.Count;
    BudgetEffects(c, o);
  }

  /** A run: the states the stream yields, and whether it ended by raising. */
  datatype Run = Run(states: seq<Config>, raised: bool)

  function Drive(c: Config, o: Oracles): (r: Run)
    ensures r.states != []
    decreases Measure(c)
  {
    if c.node.End? then Run([c], false)
    else
      var next := Step(c, o);
      if next.None? then Run([c], true)
      else
        StepBurns(c, o);
        var rest := Drive(next.value, o);
        Run([c] + rest.states, rest.raised)
  }
}
