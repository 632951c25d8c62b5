/** What holds of every run of the agent graph, for every model, tool and delegation behaviour. */
module GraphRuns {
  import opened Text
  import opened TaskBoard
  import opened Discipline
  import opened Sessions
  import opened AgentGraph

  /** `new_agent_state` on an active session. */
  function Begin(v: SessionView, messages: seq<Message>, b: BudgetState): Config {
    Config(Guard, Scene(AgentState(v.identity, v.scope, messages, b, Encode(v.data), None, Guard, None, None, Running, None, None),
                        v, [], []))
  }

  // ---------------------------------------------------------------- lifecycle

  /** Checkpoint and live session agree, and the session is open exactly until the end. */
  predicate Good(c: Config, uuid: string) {
    var s := c.scene;
    && uuid != "" && Storable(s.live.data) && Decode(s.st.sessionState, uuid) == s.live.data
    && s.live.identity == s.st.identity && s.live.scope == s.st.scope
    && s.live.closed == c.node.End? && HasTask(s.live.data) == !c.node.End?
    && s.st.status.Running? == !c.node.End?
  }

  lemma BeginIsGood(v: SessionView, messages: seq<Message>, b: BudgetState, uuid: string)
    requires v.Active() && Storable(v.data) && uuid != ""
    ensures Good(Begin(v, messages, b), uuid) && Chosen(Begin(v, messages, b))
    ensures Begin(v, messages, b).scene.st.status.Running?
  {
    StoreRoundTrips(v.data, uuid);
  }

  lemma RestoredIsLive(c: Config, uuid: string)
    requires Good(c, uuid)
    ensures Restored(c.scene, uuid) == c.scene.live
  {
  }

  /** The node keeps the session open: same live session, same lifecycle events. */
  predicate Continues(s: Scene, t: Scene) {
    t.live == s.live && t.events == s.events
    && t.st == s.st.(messages := t.st.messages, budget := t.st.budget, lastAction := t.st.lastAction, route := t.st.route,
                     error := t.st.error, lastDelegation := t.st.lastDelegation, sessionState := Encode(s.live.data))
  }

  /** The node closes the session. */
  predicate Closes(s: Scene, t: Scene, ending: Ending, o: Oracles) { Closing(s, s.live, ending, o) == Some(t) }

  /** A well-addressed delegation raises in two cases: a field of the spec does not convert, or the service
      has answered with a result that does not. */
  predicate Raises(c: Config, o: Oracles) {
    var a := LastAction(c.scene.st);
    && c.node.Delegation? && o.service && a.target != "" && Shaped(a)
    && (!SpecConverts(SpecOf(a)) || AnswersBadly(c.scene.log, a, o))
  }

  /** What each node can do to the lifecycle, on every route. */
  lemma VisitLifecycle(c: Config, o: Oracles)
    requires Good(c, o.uuid) && !c.node.End?
    ensures Visit(c.node, c.scene, o).None? <==> Raises(c, o)
    ensures var r, a := Visit(c.node, c.scene, o), LastAction(c.scene.st); r.Some? ==>
      if c.node.Fail? then Closes(c.scene, r.value, Broken(c.scene.st.error, c.scene.st.budget.steps, c.scene.st.budget.parseErrors), o)
      else if c.node.Finish? && a.reason.ErrorFinish? then Closes(c.scene, r.value, Errored(if a.message == "" then ERROR_TEXT else a.message), o)
      else if c.node.Finish? && GateOpen(c.scene.live.data, a.reason) then Closes(c.scene, r.value, Done(a.message), o)
      else Continues(c.scene, r.value) && Declared(c.node, r.value.st.route) && !r.value.st.route.End?
  {
    hide Encode, Decode, Storable, GateOpen, BudgetState.Count, SessionView.Closed;
    RestoredIsLive(c, o.uuid);
  }

  lemma ClosedStore(d: Store, outcome: Json, uuid: string)
    ensures var e := d[LAST_RESULT := Plain(outcome)][CURRENT_TASK := Plain(JNull)];
      Storable(e) && !HasTask(e) && Encode(e) == e && Decode(e, uuid) == e
  {
  }

  lemma StepKeeps(c: Config, o: Oracles)
    requires Good(c, o.uuid) && !c.node.End? && Step(c, o).Some?
    ensures Good(Step(c, o).value, o.uuid)
  {
    hide Encode, Decode, Storable, GateOpen, GuardScene, AgentScene, ToolScene, DelegateScene, FinishScene, FailScene, HasTask;
    VisitLifecycle(c, o);
    StoreRoundTrips(c.scene.live.data, o.uuid);
    var t := Visit(c.node, c.scene, o).value;
    if !Continues(c.scene, t) {
      ClosedStore(c.scene.live.data, t.st.outcome.value, o.uuid);
    }
  }

  /** Which nodes raise, exactly; every route a node sets is a declared edge. */
  lemma StepRaisesIff(c: Config, o: Oracles)
    requires Good(c, o.uuid) && !c.node.End?
    ensures Step(c, o).None? <==> Raises(c, o)
    ensures Visit(c.node, c.scene, o).Some? ==> Declared(c.node, Visit(c.node, c.scene, o).value.st.route)
  {
    hide Encode, Decode, Storable, GateOpen, GuardScene, AgentScene, ToolScene, DelegateScene, FinishScene, FailScene, HasTask;
    VisitLifecycle(c, o);
  }

  /** A tool, delegation or finish node is entered on an action that asked for it. */
  predicate Chosen(c: Config) {
    c.node in {Tool, Delegation, Finish} ==> c.scene.st.lastAction.Some? && RouteOf(c.scene.st.lastAction.value) == c.node
  }

  lemma StepChooses(c: Config, o: Oracles)
    requires !c.node.End? && Step(c, o).Some?
    ensures Chosen(Step(c, o).value)
    ensures !c.node.Agent? ==> Step(c, o).value.scene.st.lastAction == c.scene.st.lastAction
  {
    hide Encode, Decode, GateOpen, HasTask, SessionView.Closed, BudgetState.Count;
  }

  // ---------------------------------------------------------------- whole runs

  function Last(r: Run): Config
    requires r.states != []
  {
    r.states[|r.states| - 1]
  }

  lemma {:induction false} DriveKeeps(c: Config, o: Oracles, i: nat)
    requires Good(c, o.uuid) && Chosen(c) && i < |Drive(c, o).states|
    ensures var d := Drive(c, o).states[i]; Good(d, o.uuid) && Chosen(d)
    decreases i
  {
    hide Good, Chosen, Step;
    if i > 0 {
      GoodIsOpen(c, o.uuid);
      StepKeeps(c, o);
      StepChooses(c, o);
      DriveKeeps(Step(c, o).value, o, i - 1);
    }
  }

  lemma GoodIsOpen(c: Config, uuid: string)
    requires Good(c, uuid)
    ensures c.node.End? <==> !c.scene.live.Active()
    ensures c.node.End? <==> !c.scene.st.status.Running?
  {
  }

  lemma DriveUnfolds(c: Config, o: Oracles)
    ensures var r := Drive(c, o); r.states[0] == c
    ensures var r := Drive(c, o); |r.states| > 1 ==>
      !c.node.End? && Step(c, o).Some? && r == Run([c] + Drive(Step(c, o).value, o).states, Drive(Step(c, o).value, o).raised)
  {
    hide Step, Fuel;
  }

  /** A run is the chain of its steps, and what follows any of its states is that state's own run. */
  lemma {:induction false} DriveFromThere(c: Config, o: Oracles, i: nat)
    requires i < |Drive(c, o).states|
    ensures var r := Drive(c, o); Drive(r.states[i], o) == Run(r.states[i..], r.raised)
    ensures var r := Drive(c, o); i + 1 < |r.states| ==> !r.states[i].node.End? && Step(r.states[i], o) == Some(r.states[i + 1])
    decreases i
  {
    hide Step, Drive;
    var r := Drive(c, o);
    DriveUnfolds(c, o);
    if i == 0 {
      assert r.states[0..] == r.states;
      if |r.states| > 1 { DriveUnfolds(Step(c, o).value, o); }
    } else {
      var rest := Drive(Step(c, o).value, o);
      DriveFromThere(Step(c, o).value, o, i - 1);
      assert r.states[i..] == rest.states[i - 1..];
    }
  }

  /** A run is over at END, or stopped by a conversion that raises; no other way. */
  lemma {:induction false} DriveEnds(c: Config, o: Oracles)
    requires Good(c, o.uuid) && Chosen(c)
    ensures var r := Drive(c, o); (r.raised <==> Raises(Last(r), o)) && (r.raised <==> !Last(r).node.End?)
    decreases Measure(c)
  {
    hide Good, Chosen, Step, Fuel;
    if !c.node.End? {
      StepRaisesIff(c, o);
      if Step(c, o).Some? {
        StepBurns(c, o);
        StepKeeps(c, o);
        StepChooses(c, o);
        DriveEnds(Step(c, o).value, o);
      }
    }
  }

  /** A spec as a model may write it: the context is a number where a mapping belongs. */
  const MALFORMED := map["objective" := JStr("read the file"), "input_context" := JInt(1)]

  /** A model whose first answer hands over brings the run to the delegation node in two steps, its session
      open. */
  lemma FirstHandOver(v: SessionView, messages: seq<Message>, b: BudgetState, o: Oracles, a: Action)
    requires v.Active() && Storable(v.data) && o.uuid != "" && b.steps < b.maxSteps
    requires o.parse(o.llm([], messages)) == Some(a) && a.verb.HandOver?
    ensures var r := Drive(Begin(v, messages, b), o);
      && |r.states| >= 3 && (Step(r.states[2], o).None? ==> |r.states| == 3 && r.raised)
      && Good(r.states[2], o.uuid) && r.states[2].node.Delegation? && LastAction(r.states[2].scene.st) == a
      && r.states[2].scene.log == [LlmCall(messages)] && r.states[2].scene.live.Active() && r.states[2].scene.events == []
  {
    hide Encode, Decode, Storable, GateOpen, HasTask, ToolScene, FinishScene, FailScene, DelegateScene, AsMapping;
    var c := Begin(v, messages, b);
    BeginIsGood(v, messages, b, o.uuid);
    RestoredIsLive(c, o.uuid);
    var c1 := Step(c, o).value;
    StepKeeps(c, o);
    RestoredIsLive(c1, o.uuid);
    var c2 := Step(c1, o).value;
    StepKeeps(c1, o);
    assert [] + [LlmCall(messages)] == [LlmCall(messages)];
    assert Drive(c1, o).states == [c1] + Drive(c2, o).states;
    assert Drive(c, o).states == [c] + Drive(c1, o).states;
  }

  /** Reached with any tools and any service: a model whose first answer hands over on a spec that does not
      convert ends the run in an exception at the delegation node, its session still open. */
  lemma MalformedSpecRaises(v: SessionView, messages: seq<Message>, b: BudgetState, o: Oracles, a: Action)
    requires v.Active() && Storable(v.data) && o.uuid != "" && o.service && b.steps < b.maxSteps
    requires o.parse(o.llm([], messages)) == Some(a) && a.verb.HandOver? && a.target != "" && Shaped(a)
    requires !SpecConverts(SpecOf(a))
    ensures var r := Drive(Begin(v, messages, b), o);
      && r.raised && |r.states| == 3 && Last(r).node.Delegation? && Last(r).scene.live.Active() && Last(r).scene.events == []
      && LostCalls(Last(r).node, Last(r).scene, o) == []
    ensures !SpecConverts(MALFORMED)
  {
    hide Good, Step, Drive, Begin, Storable, SessionView.Active, Shaped;
    FirstHandOver(v, messages, b, o, a);
    StepRaisesIff(Drive(Begin(v, messages, b), o).states[2], o);
  }

  /** So does a service whose answer does not convert, and then its call has been made without a trace. */
  lemma BadAnswerRaises(v: SessionView, messages: seq<Message>, b: BudgetState, o: Oracles, a: Action)
    requires v.Active() && Storable(v.data) && o.uuid != "" && b.steps < b.maxSteps
    requires o.parse(o.llm([], messages)) == Some(a) && a.verb.HandOver? && AnswersBadly([LlmCall(messages)], a, o)
    ensures var r := Drive(Begin(v, messages, b), o);
      && r.raised && |r.states| == 3 && Last(r).node.Delegation? && Last(r).scene.live.Active() && Last(r).scene.events == []
      && Last(r).scene.log == [LlmCall(messages)] && LostCalls(Last(r).node, Last(r).scene, o) == [HandOverCall(a)]
  {
    hide Good, Step, Drive, Begin, Storable, SessionView.Active, Shaped;
    FirstHandOver(v, messages, b, o, a);
    StepRaisesIff(Drive(Begin(v, messages, b), o).states[2], o);
  }

  /** The lifecycle event that matches the recorded status. */
  function ClosedAs(c: Config): Event {
    TaskClosed(c.scene.live.identity.sessionId, if c.scene.st.status.Completed? then "completed" else "failed")
  }

  /** The lifecycle is closed exactly once, on reaching END: every earlier state has an active session and
      no closing event, and the state at END has exactly one. */
  lemma {:induction false} ClosedExactlyOnce(v: SessionView, messages: seq<Message>, b: BudgetState, o: Oracles, i: nat)
    requires v.Active() && Storable(v.data) && o.uuid != ""
    requires i < |Drive(Begin(v, messages, b), o).states|
    ensures var r := Drive(Begin(v, messages, b), o); var c := r.states[i];
      && c.scene.live.Active() == !c.node.End?
      && (c.node.End? ==> i == |r.states| - 1)
      && (!c.node.End? ==> c.scene.events == [])
      && (c.node.End? ==> c.scene.events == [ClosedAs(c)])
      && c.scene.live.identity == v.identity && c.scene.live.scope == v.scope
    decreases i
  {
    var c0 := Begin(v, messages, b);
    var r := Drive(c0, o);
    BeginIsGood(v, messages, b, o.uuid);
    DriveKeeps(c0, o, i);
    DriveFromThere(c0, o, i);
    if i > 0 {
      ClosedExactlyOnce(v, messages, b, o, i - 1);
      DriveFromThere(c0, o, i - 1);
      DriveKeeps(c0, o, i - 1);
      StepEvents(r.states[i - 1], o);
    }
  }

  lemma StepEvents(c: Config, o: Oracles)
    requires Good(c, o.uuid) && !c.node.End? && Step(c, o).Some?
    ensures var d := Step(c, o).value;
      && d.scene.live.identity == c.scene.live.identity && d.scene.live.scope == c.scene.live.scope
      && d.scene.events == c.scene.events + (if d.node.End? then [ClosedAs(d)] else [])
  {
    hide Encode, Decode, Storable, GateOpen, GuardScene, AgentScene, ToolScene, DelegateScene, FinishScene, FailScene, HasTask;
    VisitLifecycle(c, o);
  }

  /** What the last step of a run says about its ending. */
  lemma StepVerdict(c: Config, o: Oracles)
    requires Good(c, o.uuid) && Chosen(c) && !c.node.End? && Step(c, o).Some? && Step(c, o).value.node.End?
    ensures var st, a := Step(c, o).value.scene.st, LastAction(c.scene.st);
      && (st.status.Completed? <==> c.node.Finish? && !a.reason.ErrorFinish? && GateOpen(c.scene.live.data, a.reason))
      && (st.status.Completed? ==> st.finalText == Some(a.message) && st.outcome == Some(o.envelope(c.scene.st.identity.taskId, Done(a.message))))
      && (c.node.Fail? ==> st.outcome == Some(o.envelope(c.scene.st.identity.taskId, Broken(st.error, st.budget.steps, st.budget.parseErrors))))
  {
    hide Encode, Decode, Storable, GateOpen, GuardScene, AgentScene, ToolScene, DelegateScene, FinishScene, FailScene, HasTask;
    VisitLifecycle(c, o);
  }

  /** Closing a session does not touch what the gate reads. */
  lemma GateSeesPastClosing(v: SessionView, outcome: Json, reason: Reason)
    ensures GateOpen(v.Closed(outcome).data, reason) <==> GateOpen(v.data, reason)
  {
    assert CODE_CHANGED[0] != CURRENT_TASK[1] && CODE_CHANGED[0] == 'c' && CODE_CHANGED[1] == 'o' && CURRENT_TASK[1] == 'u';
    assert VALIDATION_PASSED[0] == 'v' && LAST_RESULT[0] == 'l' && CURRENT_TASK[0] == 'c';
  }

  /** A run that ends completed asked to finish, not with an error, and the finish gate was open: the code
      had not changed, or validation had passed, or the model declared a blocker. */
  lemma CompletedPassedTheGate(v: SessionView, messages: seq<Message>, b: BudgetState, o: Oracles)
    requires v.Active() && Storable(v.data) && o.uuid != ""
    ensures var e := Last(Drive(Begin(v, messages, b), o)).scene; e.st.status.Completed? ==>
      && e.st.lastAction.Some? && e.st.lastAction.value.verb.Final? && !e.st.lastAction.value.reason.ErrorFinish?
      && GateOpen(e.live.data, e.st.lastAction.value.reason)
      && e.st.finalText == Some(e.st.lastAction.value.message)
  {
    hide Step, Drive, GateOpen, Begin, Storable, SessionView.Closed;
    var c0 := Begin(v, messages, b);
    var r := Drive(c0, o);
    var n := |r.states| - 1;
    BeginIsGood(v, messages, b, o.uuid);
    DriveKeeps(c0, o, n);
    DriveUnfolds(c0, o);
    if Last(r).scene.st.status.Completed? {
      var c := r.states[n - 1];
      DriveKeeps(c0, o, n - 1);
      DriveFromThere(c0, o, n - 1);
      StepVerdict(c, o);
      StepChooses(c, o);
      ClosingStep(c, o);
      GateSeesPastClosing(c.scene.live, Last(r).scene.st.outcome.value, LastAction(c.scene.st).reason);
    }
  }

  lemma ClosingStep(c: Config, o: Oracles)
    requires Good(c, o.uuid) && !c.node.End? && Step(c, o).Some? && Step(c, o).value.node.End?
    ensures var d := Step(c, o).value.scene; d.st.outcome.Some? && d.live == c.scene.live.Closed(d.st.outcome.value)
  {
    hide Encode, Decode, Storable, GateOpen, GuardScene, AgentScene, ToolScene, DelegateScene, FinishScene, FailScene, HasTask;
    VisitLifecycle(c, o);
  }

  /** A finish with reason "error" ends the run there, failed, with the model's own message kept. */
  lemma ErrorFinishFails(v: SessionView, messages: seq<Message>, b: BudgetState, o: Oracles, i: nat)
    requires v.Active() && Storable(v.data) && o.uuid != ""
    requires i < |Drive(Begin(v, messages, b), o).states|
    requires var c := Drive(Begin(v, messages, b), o).states[i]; c.node.Finish? && LastAction(c.scene.st).reason.ErrorFinish?
    ensures var r := Drive(Begin(v, messages, b), o); var a := LastAction(r.states[i].scene.st);
      && !r.raised && |r.states| == i + 2 && Last(r).node.End? && Last(r).scene.st.status.RunFailed?
      && Last(r).scene.st.finalText == Some(if a.message == "" then ERROR_TEXT else a.message)
  {
    hide GuardScene, AgentScene, ToolScene, DelegateScene, FinishScene, FailScene, Encode, Decode, GateOpen, Storable;
    var c0 := Begin(v, messages, b);
    var r := Drive(c0, o);
    BeginIsGood(v, messages, b, o.uuid);
    DriveKeeps(c0, o, i);
    DriveFromThere(c0, o, i);
    VisitLifecycle(r.states[i], o);
    assert Drive(Step(r.states[i], o).value, o).states == [Step(r.states[i], o).value];
    assert |r.states[i..]| == 2;
  }

  // ---------------------------------------------------------------- how long a run can be

  /** The most nodes a run can execute on what is left of its budget: a guard and a failure without any step, else
      three nodes a step and two a parse error, one of the two at the end being the failure. */
  function MaxNodes(b: BudgetState): int {
    if b.steps >= b.maxSteps then 2 else 3 * (b.maxSteps - b.steps) + 2 * Max(1, b.maxParseErrors - b.parseErrors)
  }

  /** `_config`: LangGraph stops a run that needs more nodes than this. */
  function RecursionLimit(b: BudgetState): int { Max(100, b.maxSteps * 4 + b.maxParseErrors * 3 + 20) }

  /** The limit a delegated child and the compatibility facade use instead. */
  function ChildLimit(b: BudgetState): int { Max(100, b.maxSteps * 4 + 20) }

  lemma {:induction false} DriveBurns(c: Config, o: Oracles)
    ensures |Drive(c, o).states| <= Measure(c) + 1
    decreases Measure(c)
  {
    hide Step, Fuel;
    if !c.node.End? && Step(c, o).Some? {
      StepBurns(c, o);
      DriveBurns(Step(c, o).value, o);
    } else {
      assert |Drive(c, o).states| == 1;
    }
  }

  lemma RunIsBounded(v: SessionView, messages: seq<Message>, b: BudgetState, o: Oracles)
    requires v.Active() && Storable(v.data) && o.uuid != ""
    ensures |Drive(Begin(v, messages, b), o).states| - 1 <= MaxNodes(b)
  {
    hide Encode, Decode, Storable, Closing, GateOpen;
    var c := Begin(v, messages, b);
    DriveBurns(c, o);
    if b.steps >= b.maxSteps {
      var d := Step(c, o);
      if d.Some? {
        assert d.value.node.Fail?;
        DriveBurns(d.value, o);
      }
    }
  }

  /** The limit is never in the way when no budget is negative, however much of it has been used. */
  lemma LimitIsEnough(v: SessionView, messages: seq<Message>, b: BudgetState, o: Oracles)
    requires v.Active() && Storable(v.data) && o.uuid != "" && b.steps >= 0 && b.parseErrors >= 0
    requires b.steps >= b.maxSteps || b.maxParseErrors >= 0 || 3 * (b.maxSteps - b.steps) + 2 <= RecursionLimit(b)
    ensures |Drive(Begin(v, messages, b), o).states| - 1 <= RecursionLimit(b)
    ensures b.maxParseErrors == 3 ==> |Drive(Begin(v, messages, b), o).states| - 1 <= ChildLimit(b)
  {
    hide Drive, Begin, SessionView.Active, Storable;
    RunIsBounded(v, messages, b, o);
  }

  /** A model that keeps asking to finish a task whose gate is shut. */
  ghost predicate Stubborn(o: Oracles, a: Action) { a.verb.Final? && a.reason.OtherReason? && forall s :: o.parse(s) == Some(a) }

  lemma ThreeNodesAStep(c: Config, o: Oracles, a: Action)
    requires Good(c, o.uuid) && c.node.Guard? && Stubborn(o, a) && !GateOpen(c.scene.live.data, OtherReason)
    requires c.scene.st.budget.steps < c.scene.st.budget.maxSteps
    ensures Step(c, o).Some? && Step(c, o).value.node.Agent?
    ensures var c1 := Step(c, o).value; Step(c1, o).Some? && Step(c1, o).value.node.Finish?
    ensures var c2 := Step(Step(c, o).value, o).value; Step(c2, o).Some? && Step(c2, o).value.node.Guard?
    ensures var c3 := Step(Step(Step(c, o).value, o).value, o).value;
      Good(c3, o.uuid) && c3.scene.live == c.scene.live && c3.scene.st.budget == c.scene.st.budget.Stepped()
  {
    hide Encode, Decode, Storable, GateOpen, DelegateScene, ToolScene, FailScene, Closing, HasTask;
    VisitLifecycle(c, o);
    StepKeeps(c, o);
    var c1 := Step(c, o).value;
    VisitLifecycle(c1, o);
    StepKeeps(c1, o);
    var c2 := Step(c1, o).value;
    VisitLifecycle(c2, o);
    StepKeeps(c2, o);
  }

  lemma {:induction false} StubbornRun(c: Config, o: Oracles, a: Action)
    requires Good(c, o.uuid) && c.node.Guard? && Stubborn(o, a) && !GateOpen(c.scene.live.data, OtherReason)
    ensures var b := c.scene.st.budget; |Drive(c, o).states| == 3 * Max(0, b.maxSteps - b.steps) + 3
    decreases Max(0, c.scene.st.budget.maxSteps - c.scene.st.budget.steps)
  {
    hide Good, Stubborn, GateOpen, AgentScene, ToolScene, DelegateScene, FinishScene, FailScene;
    var b := c.scene.st.budget;
    if b.steps < b.maxSteps {
      ThreeNodesAStep(c, o, a);
      var c1 := Step(c, o).value;
      var c2 := Step(c1, o).value;
      var c3 := Step(c2, o).value;
      StubbornRun(c3, o, a);
      assert Drive(c, o).states == [c] + Drive(c1, o).states;
      assert Drive(c1, o).states == [c1] + Drive(c2, o).states;
      assert Drive(c2, o).states == [c2] + Drive(c3, o).states;
    } else {
      OutOfSteps(c, o);
    }
  }

  lemma OutOfSteps(c: Config, o: Oracles)
    requires Good(c, o.uuid) && c.node.Guard? && c.scene.st.budget.steps >= c.scene.st.budget.maxSteps
    ensures |Drive(c, o).states| == 3
  {
    hide Encode, Decode, Storable, GateOpen, AgentScene, DelegateScene, ToolScene, FinishScene, FailScene, HasTask;
    VisitLifecycle(c, o);
    StepKeeps(c, o);
    var d := Step(c, o).value;
    VisitLifecycle(d, o);
    assert Drive(d, o).states == [d, Step(d, o).value];
  }

  /** And outside that condition it is in the way: a negative parse-error budget lowers the limit below what
      an ordinary run needs. */
  lemma LimitCanBeTooLow(v: SessionView, messages: seq<Message>, b: BudgetState, o: Oracles, a: Action)
    requires v.Active() && Storable(v.data) && o.uuid != ""
    requires !(b.steps >= b.maxSteps || b.maxParseErrors >= 0 || 3 * (b.maxSteps - b.steps) + 2 <= RecursionLimit(b))
    requires Stubborn(o, a) && !GateOpen(v.data, OtherReason)
    ensures |Drive(Begin(v, messages, b), o).states| - 1 > RecursionLimit(b)
  {
    hide GateOpen, Stubborn, Drive, RecursionLimit, Storable;
    BeginIsGood(v, messages, b, o.uuid);
    StubbornRun(Begin(v, messages, b), o, a);
  }

  // ---------------------------------------------------------------- repeated calls

  /** How often this tool with these arguments reached the kernel. */
  function CallsOf(log: seq<Call>, key: string): nat {
    if log == [] then 0
    else
      var x := log[|log| - 1];
      CallsOf(log[..|log| - 1], key) + if x.ToolCall? && ToolKey(x.name, x.args) == key then 1 else 0
  }

  lemma CallsOfPush(log: seq<Call>, x: Call, key: string)
    ensures CallsOf(log + [x], key) == CallsOf(log, key) + if x.ToolCall? && ToolKey(x.name, x.args) == key then 1 else 0
  {
    assert (log + [x])[..|log|] == log;
  }

  predicate Tallied(c: Config, key: string) {
    var b := c.scene.st.budget;
    CallsOf(c.scene.log, key) <= Max(0, b.maxSameToolCalls) && CallsOf(c.scene.log, key) <= b.Count(key)
  }

  lemma StepCalls(c: Config, o: Oracles)
    requires Good(c, o.uuid) && !c.node.End? && Step(c, o).Some?
    ensures var s, t := c.scene, Step(c, o).value.scene; var a := LastAction(s.st); var key := ToolKey(a.tool, a.args);
      && t.st.budget.maxSameToolCalls == s.st.budget.maxSameToolCalls
      && t.st.budget.toolCalls == (if c.node.Tool? then s.st.budget.Called(key).toolCalls else s.st.budget.toolCalls)
      && (c.node.Tool? ==> t.log == s.log + (if s.st.budget.Called(key).SameToolExceeded(key) then [] else [ToolCall(a.tool, a.args)]))
      && (c.node.Agent? ==> t.log == s.log + [LlmCall(s.st.messages)])
      && (c.node.Delegation? ==> t.log == s.log + (if HandsOver(a, o) then [HandOverCall(a)] else []))
      && (c.node !in {Tool, Agent, Delegation} ==> t.log == s.log)
  {
    hide Encode, Decode, Storable, GateOpen, BudgetState.Count, BudgetState.SameToolExceeded, ToolKey,
         SessionView.Closed, SpecConverts, AsMapping;
    RestoredIsLive(c, o.uuid);
  }

  /** Counting a call of one key moves that key's count only. */
  lemma CalledCounts(b: BudgetState, called: string, key: string)
    ensures b.Called(called).Count(key) == b.Count(key) + (if key == called then 1 else 0)
    ensures b.Called(called).maxSameToolCalls == b.maxSameToolCalls
  {
  }

  lemma SameCounts(b: BudgetState, d: BudgetState, key: string)
    requires d.toolCalls == b.toolCalls
    ensures d.Count(key) == b.Count(key)
  {
  }

  lemma StepTallies(c: Config, o: Oracles, key: string)
    requires Good(c, o.uuid) && !c.node.End? && Step(c, o).Some? && Tallied(c, key)
    ensures Tallied(Step(c, o).value, key)
  {
    hide Good, Step, ToolKey, BudgetState.Called, BudgetState.Count, CallsOf;
    StepCalls(c, o);
    var a, b, e := LastAction(c.scene.st), c.scene.st.budget, Step(c, o).value.scene.st.budget;
    assert c.scene.log + [] == c.scene.log;
    if c.node.Tool? {
      var called := ToolKey(a.tool, a.args);
      CalledCounts(b, called, key);
      SameCounts(b.Called(called), e, key);
      CallsOfPush(c.scene.log, ToolCall(a.tool, a.args), key);
    } else {
      SameCounts(b, e, key);
      CallsOfPush(c.scene.log, HandOverCall(a), key);
      CallsOfPush(c.scene.log, LlmCall(c.scene.st.messages), key);
    }
  }

  lemma {:induction false} SameCallIsLimited(v: SessionView, messages: seq<Message>, b: BudgetState, o: Oracles, key: string, i: nat)
    requires v.Active() && Storable(v.data) && o.uuid != "" && b.toolCalls == map[]
    requires i < |Drive(Begin(v, messages, b), o).states|
    ensures Tallied(Drive(Begin(v, messages, b), o).states[i], key)
    ensures Drive(Begin(v, messages, b), o).states[i].scene.st.budget.maxSameToolCalls == b.maxSameToolCalls
  {
    hide Good, Step, Tallied, Storable;
    var c := Begin(v, messages, b);
    var r := Drive(c, o);
    BeginIsGood(v, messages, b, o.uuid);
    if i == 0 {
      BeginTallied(v, messages, b, key);
    } else {
      SameCallIsLimited(v, messages, b, o, key, i - 1);
      DriveKeeps(c, o, i - 1);
      DriveFromThere(c, o, i - 1);
      StepTallies(r.states[i - 1], o, key);
      StepCalls(r.states[i - 1], o);
    }
  }

  lemma BeginTallied(v: SessionView, messages: seq<Message>, b: BudgetState, key: string)
    requires b.toolCalls == map[]
    ensures Tallied(Begin(v, messages, b), key)
  {
  }

  /** Visits to the tool node among the first `k` nodes of a run. */
  function ToolVisits(states: seq<Config>, k: nat): nat
    requires k <= |states|
  {
    if k == 0 then 0 else ToolVisits(states, k - 1) + if states[k - 1].node.Tool? then 1 else 0
  }

  /** The call table accounts for every visit of the tool node, and each visit took a step of its own. */
  lemma {:induction false} TableCountsVisits(v: SessionView, messages: seq<Message>, b: BudgetState, o: Oracles, i: nat)
    requires v.Active() && Storable(v.data) && o.uuid != "" && b.toolCalls == map[] && b.steps == 0
    requires i < |Drive(Begin(v, messages, b), o).states|
    ensures var r := Drive(Begin(v, messages, b), o); var d := r.states[i]; var e := d.scene.st.budget;
      && Sum(e.toolCalls) == ToolVisits(r.states, i)
      && ToolVisits(r.states, i) + (if d.node.Tool? then 1 else 0) <= e.steps <= Max(0, b.maxSteps)
      && e.maxSteps == b.maxSteps && (d.node.Agent? ==> e.steps < e.maxSteps)
  {
    hide Good, Step, Storable;
    var c := Begin(v, messages, b);
    var r := Drive(c, o);
    BeginIsGood(v, messages, b, o.uuid);
    if i > 0 {
      TableCountsVisits(v, messages, b, o, i - 1);
      DriveKeeps(c, o, i - 1);
      DriveFromThere(c, o, i - 1);
      var d := r.states[i - 1];
      StepCalls(d, o);
      StepSpends(d, o);
      SumOfCalled(d.scene.st.budget, ToolKey(LastAction(d.scene.st).tool, LastAction(d.scene.st).args));
    }
  }

  lemma StepSpends(c: Config, o: Oracles)
    requires !c.node.End? && Step(c, o).Some?
    ensures var b, d := c.scene.st.budget, Step(c, o).value;
      && d.scene.st.budget.maxSteps == b.maxSteps
      && d.scene.st.budget.steps == b.steps + (if c.node.Agent? && d.scene.st.budget.parseErrors == b.parseErrors then 1 else 0)
      && (d.node.Tool? ==> c.node.Agent? && d.scene.st.budget.steps == b.steps + 1)
      && (d.node.Agent? ==> c.node.Guard? && b.steps < b.maxSteps)
  {
    hide Encode, Decode, HasTask, GateOpen, BudgetState.Count, SessionView.Closed;
    BudgetEffects(c, o);
  }

  // ---------------------------------------------------------------- stopping and resuming

  /** A new process has only the checkpoint (and the world): `_restore_persisted_session`. */
  function Rebuilt(c: Config, tools: set<string>, uuid: string): Option<Config> {
    var st := c.scene.st;
    var live :- RestoredView(st.identity, Decode(st.sessionState, uuid), st.scope, tools);
    Some(c.(scene := c.scene.(live := live)))
  }

  /** `resume`: a run no longer running, or with no next node, is only reported. */
  function Resume(c: Config, tools: set<string>, o: Oracles): Option<Run> {
    var d :- Rebuilt(c, tools, o.uuid);
    Some(if !d.scene.st.status.Running? || d.node.End? then Run([d], false) else Drive(d, o))
  }

  lemma RebuiltIsSame(c: Config, tools: set<string>, uuid: string)
    requires Good(c, uuid) && c.scene.live.scope <= tools
    ensures Rebuilt(c, tools, uuid) == Some(c)
  {
  }

  /** Resuming at any node boundary of a run continues it exactly: same remaining states, same end, and the
      external calls made before the stop followed by those made after it are the calls of the
      uninterrupted run. */
  lemma ResumeIsSeamless(v: SessionView, messages: seq<Message>, b: BudgetState, o: Oracles, tools: set<string>, i: nat)
    requires v.Active() && Storable(v.data) && o.uuid != "" && v.scope <= tools
    requires i < |Drive(Begin(v, messages, b), o).states|
    ensures var r := Drive(Begin(v, messages, b), o); var after := Resume(r.states[i], tools, o);
      && after == Some(Run(r.states[i..], r.raised))
      && Last(after.value) == Last(r)
      && r.states[i].scene.log <= Last(r).scene.log
      && (r.states[i].node.End? ==> |after.value.states| == 1)
  {
    hide Good, Step, Rebuilt, Fuel;
    var c := Begin(v, messages, b);
    var r := Drive(c, o);
    BeginIsGood(v, messages, b, o.uuid);
    DriveKeeps(c, o, i);
    DriveFromThere(c, o, i);
    ClosedExactlyOnce(v, messages, b, o, i);
    RebuiltIsSame(r.states[i], tools, o.uuid);
    GoodIsOpen(r.states[i], o.uuid);
    LogGrows(c, o, i, |r.states| - 1);
  }

  /** A run whose hand-over was answered badly does not remember the call: resumed, whatever the service
      answers now, its first node hands over a second time. With the same answer it raises again at that node. */
  lemma ResumeHandsOverAgain(v: SessionView, messages: seq<Message>, b: BudgetState, o: Oracles, p: Oracles, tools: set<string>)
    requires v.Active() && Storable(v.data) && o.uuid != "" && v.scope <= tools
    requires Drive(Begin(v, messages, b), o).raised && p.uuid == o.uuid && p.service
    requires var c := Last(Drive(Begin(v, messages, b), o)); LostCalls(c.node, c.scene, o) != []
    ensures var c := Last(Drive(Begin(v, messages, b), o)); var a := LastAction(c.scene.st);
      && LostCalls(c.node, c.scene, o) == [HandOverCall(a)] && Resume(c, tools, o) == Some(Run([c], true))
      && Resume(c, tools, p) == Some(Drive(c, p))
      && (Drive(c, p).raised && |Drive(c, p).states| == 1 ==> LostCalls(c.node, c.scene, p) == [HandOverCall(a)])
      && (|Drive(c, p).states| == 1 ==> Drive(c, p).raised)
      && (|Drive(c, p).states| > 1 ==> Drive(c, p).states[1].scene.log == c.scene.log + [HandOverCall(a)])
  {
    hide Good, Step, Drive, Begin, Rebuilt, SpecConverts, NoObjective, Shaped, Storable, SessionView.Active, D.Describable;
    var r := Drive(Begin(v, messages, b), o);
    var n := |r.states| - 1;
    BeginIsGood(v, messages, b, o.uuid);
    DriveKeeps(Begin(v, messages, b), o, n);
    DriveEnds(Begin(v, messages, b), o);
    ResumeIsSeamless(v, messages, b, o, tools, n);
    assert r.states[n..] == [Last(r)];
    ClosedExactlyOnce(v, messages, b, o, n);
    RebuiltIsSame(Last(r), tools, o.uuid);
    GoodIsOpen(Last(r), o.uuid);
    HandsOverAgain(Last(r), p);
  }

  lemma HandsOverAgain(c: Config, p: Oracles)
    requires Good(c, p.uuid) && c.node.Delegation? && HandsOver(LastAction(c.scene.st), p)
    ensures var a := LastAction(c.scene.st);
      && (Drive(c, p).raised && |Drive(c, p).states| == 1 ==> LostCalls(c.node, c.scene, p) == [HandOverCall(a)])
      && (|Drive(c, p).states| == 1 ==> Drive(c, p).raised)
      && (|Drive(c, p).states| > 1 ==> Drive(c, p).states[1].scene.log == c.scene.log + [HandOverCall(a)])
  {
    hide Good, Step, SpecConverts, NoObjective, Shaped, D.Describable;
    StepRaisesIff(c, p);
    if Step(c, p).Some? { StepCalls(c, p); }
  }

  lemma {:induction false} LogGrows(c: Config, o: Oracles, i: nat, j: nat)
    requires Good(c, o.uuid) && Chosen(c) && i <= j < |Drive(c, o).states|
    ensures Drive(c, o).states[i].scene.log <= Drive(c, o).states[j].scene.log
    decreases j - i
  {
    hide Good, Step, Chosen;
    if i < j {
      DriveKeeps(c, o, i);
      DriveFromThere(c, o, i);
      StepCalls(Drive(c, o).states[i], o);
      LogGrows(c, o, i + 1, j);
    }
  }

  /** A run cut into lives: life `k` executes at most `cuts[k]` nodes, then its process is gone. */
  function Lives(c: Config, cuts: seq<nat>, tools: set<string>, o: Oracles): Option<Config>
    decreases |cuts|
  {
    var r :- Resume(c, tools, o);
    if cuts == [] then Some(Last(r))
    else Lives(r.states[if cuts[0] < |r.states| then cuts[0] else |r.states| - 1], cuts[1..], tools, o)
  }

  /** However often and wherever it is stopped, the run ends as if it never was. */
  lemma {:induction false} StopsDoNotMatter(v: SessionView, messages: seq<Message>, b: BudgetState, o: Oracles,
    tools: set<string>, cuts: seq<nat>, i: nat)
    requires v.Active() && Storable(v.data) && o.uuid != "" && v.scope <= tools
    requires i < |Drive(Begin(v, messages, b), o).states|
    ensures var r := Drive(Begin(v, messages, b), o); Lives(r.states[i], cuts, tools, o) == Some(Last(r))
    decreases |cuts|
  {
    hide Drive, Resume, Begin, SessionView.Active, Storable;
    var r := Drive(Begin(v, messages, b), o);
    ResumeIsSeamless(v, messages, b, o, tools, i);
    if cuts != [] {
      var n := |r.states| - i;
      var j := if cuts[0] < n then cuts[0] else n - 1;
      assert r.states[i..][j] == r.states[i + j];
      StopsDoNotMatter(v, messages, b, o, tools, cuts[1..], i + j);
    }
  }
}
