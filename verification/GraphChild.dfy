/** A delegated child that runs on the agent graph: how it reports, and that it never trips a check of the
    manager or the store. */
module GraphChild {
  import opened Text
  import opened TaskBoard
  import opened Discipline
  import opened Sessions
  import opened AgentGraph
  import opened GraphRuns
  import G = GraphNodes
  import D = Delegation
  import M = DelegationManager

  /** What the adapter adds of its own: new ids, the artifact's content, summaries and error texts. */
  datatype Stationery = Stationery(
    eventId: nat -> string, artifactId: nat -> string, payload: AgentState -> Payload,
    summary: AgentState -> Payload, errorText: Error -> string)

  ghost predicate NewIds(s: Stationery) { forall i, j :: s.eventId(i) == s.eventId(j) ==> i == j }

  /** The budget a child runs on; the other two bounds are the defaults. */
  function ChildBudget(maxSteps: int): BudgetState { BudgetState(maxSteps, 3, 3, 0, 0, map[]) }

  // ---------------------------------------------------------------- reporting

  /** The adapter's loop variables, and what it has done to the outside. */
  datatype Relay = Relay(emitted: int, artifacts: seq<Artifact>, acts: seq<D.Act>)

  function Announce(y: Relay, st: AgentState, id: string, s: Stationery): D.Progress {
    D.Progress(id, |y.artifacts| + 1, s.eventId(|y.artifacts|),
               Artifact(s.artifactId(|y.artifacts|), "agent_step", JObj(s.payload(st))), "running")
  }

  /** The graph closes the child on reaching END. */
  function ClosingActs(c: Config): seq<D.Act> {
    if c.node.End? && c.scene.st.outcome.Some?
    then [D.CloseChild(c.scene.st.outcome.value, if c.scene.st.status.Completed? then "completed" else "failed", false)]
    else []
  }

  /** One yielded state: a step not yet reported becomes the next progress. */
  function RelayOne(y: Relay, c: Config, id: string, s: Stationery): Relay {
    var step := c.scene.st.budget.steps;
    if step <= y.emitted then y.(acts := y.acts + ClosingActs(c))
    else
      var p := Announce(y, c.scene.st, id, s);
      Relay(step, y.artifacts + [p.artifact], y.acts + ClosingActs(c) + [D.Emit(p, false)])
  }

  function Relayed(states: seq<Config>, id: string, s: Stationery): Relay {
    if states == [] then Relay(0, [], [])
    else RelayOne(Relayed(states[..|states| - 1], id, s), states[|states| - 1], id, s)
  }

  /** The adapter's own result. */
  function ResultOf(st: AgentState, y: Relay, id: string, parentTask: string, s: Stationery): D.Result {
    D.Result(id, parentTask, if st.status.Completed? then D.Success else D.Failure, y.artifacts, JObj(s.summary(st)),
             if st.status.Completed? || st.error.None? then None else Some(D.Fault.Said(s.errorText(st.error.value))))
  }

  /** Everything the adapter does in one run. */
  function ConductOf(r: Run, id: string, parentTask: string, s: Stationery): D.Conduct
    requires r.states != []
  {
    var y := Relayed(r.states, id, s);
    D.Conduct(y.acts, D.Returns(ResultOf(Last(r).scene.st, y, id, parentTask, s)))
  }

  // ---------------------------------------------------------------- the reports are always in order

  ghost predicate Numbered(items: seq<D.Progress>, arts: seq<Artifact>, id: string, s: Stationery) {
    |items| == |arts| && forall i :: 0 <= i < |items| ==> items[i] == D.Progress(id, i + 1, s.eventId(i), arts[i], "running")
  }

  /** After some states of the run: nothing has been raised, every step has been reported once, what is
      stored is what was reported, and the child's session is as the graph left it. */
  ghost predicate InStep(h: D.Hub, y: Relay, live: SessionView, steps: int, id: string, s: Stationery) {
    && h.raised.None? && y.emitted == |y.artifacts| == steps
    && id in h.ledger.progress && Numbered(h.ledger.progress[id], y.artifacts, id, s)
    && h.child == live
  }

  lemma DoAllPush(h: D.Hub, acts: seq<D.Act>, a: D.Act, id: string, maxSteps: int)
    requires D.DoAll(h, acts, id, maxSteps).raised.None?
    ensures D.DoAll(h, acts + [a], id, maxSteps) == D.Do(D.DoAll(h, acts, id, maxSteps), a, id, maxSteps)
  {
    assert (acts + [a])[..|acts|] == acts;
  }

  lemma EmitIsAccepted(h: D.Hub, y: Relay, st: AgentState, live: SessionView, id: string, maxSteps: int, s: Stationery)
    requires InStep(h, y, live, |y.artifacts|, id, s) && NewIds(s) && |y.artifacts| < maxSteps
    ensures var p := Announce(y, st, id, s); var z := Relay(y.emitted + 1, y.artifacts + [p.artifact], y.acts);
      InStep(D.Do(h, D.Emit(p, false), id, maxSteps), z, live, |z.artifacts|, id, s)
  {
    assert !D.HasEvent(h.ledger.progress[id], s.eventId(|y.artifacts|));
  }

  lemma StepAdvances(c: Config, o: Oracles)
    requires Good(c, o.uuid) && !c.node.End? && Step(c, o).Some?
    ensures var d := Step(c, o).value;
      && c.scene.st.budget.steps <= d.scene.st.budget.steps <= c.scene.st.budget.steps + 1
      && d.scene.live == (if ClosingActs(d) == [] then c.scene.live else c.scene.live.Closed(ClosingActs(d)[0].ending))
      && (ClosingActs(d) == [] <==> !d.node.End?) && c.scene.live.Active()
  {
    hide Encode, Decode, Storable, GateOpen, GuardScene, AgentScene, ToolScene, DelegateScene, FinishScene, FailScene, HasTask, Step;
    StepSpends(c, o);
    GoodIsOpen(c, o.uuid);
    NextLive(c, o);
  }

  lemma NextLive(c: Config, o: Oracles)
    requires Good(c, o.uuid) && !c.node.End? && Step(c, o).Some?
    ensures var d := Step(c, o).value;
      if d.node.End? then d.scene.st.outcome.Some? && d.scene.live == c.scene.live.Closed(d.scene.st.outcome.value)
      else d.scene.live == c.scene.live
  {
    hide Encode, Decode, Storable, GateOpen, GuardScene, AgentScene, ToolScene, DelegateScene, FinishScene, FailScene, HasTask;
    VisitLifecycle(c, o);
  }

  lemma OneMoreState(h0: D.Hub, y: Relay, c: Config, d: Config, id: string, maxSteps: int, s: Stationery)
    requires InStep(D.DoAll(h0, y.acts, id, maxSteps), y, c.scene.live, c.scene.st.budget.steps, id, s) && NewIds(s)
    requires c.scene.st.budget.steps <= d.scene.st.budget.steps <= c.scene.st.budget.steps + 1 && d.scene.st.budget.steps <= maxSteps
    requires c.scene.live.Active()
    requires d.scene.live == if ClosingActs(d) == [] then c.scene.live else c.scene.live.Closed(ClosingActs(d)[0].ending)
    ensures var z := RelayOne(y, d, id, s);
      InStep(D.DoAll(h0, z.acts, id, maxSteps), z, d.scene.live, d.scene.st.budget.steps, id, s)
  {
    hide D.DoAll, D.Do, SessionView.Closed, SessionView.Active, Numbered, Announce, ClosingActs;
    var h := D.DoAll(h0, y.acts, id, maxSteps);
    ClosingIsAnAct(h0, y, h, d, id, maxSteps);
    var g := D.DoAll(h0, y.acts + ClosingActs(d), id, maxSteps);
    assert InStep(g, y, d.scene.live, c.scene.st.budget.steps, id, s);
    if d.scene.st.budget.steps > y.emitted {
      EmitIsAccepted(g, y, d.scene.st, d.scene.live, id, maxSteps, s);
      DoAllPush(h0, y.acts + ClosingActs(d), D.Emit(Announce(y, d.scene.st, id, s), false), id, maxSteps);
      SameStep(D.DoAll(h0, RelayOne(y, d, id, s).acts, id, maxSteps), y, d, id, s);
    } else {
      SameStep(g, y, d, id, s);
    }
  }

  /** The acts so far are no part of being in step. */
  lemma SameStep(h: D.Hub, y: Relay, d: Config, id: string, s: Stationery)
    requires var p := Announce(y, d.scene.st, id, s);
      InStep(h, if d.scene.st.budget.steps <= y.emitted then y else Relay(d.scene.st.budget.steps, y.artifacts + [p.artifact], y.acts),
             d.scene.live, d.scene.st.budget.steps, id, s)
    ensures InStep(h, RelayOne(y, d, id, s), d.scene.live, d.scene.st.budget.steps, id, s)
  {
    hide Numbered, Announce;
  }

  /** What the manager has just set up for a child with this policy. */
  ghost predicate Ready(h: D.Hub, id: string, maxSteps: int, o: Oracles) {
    && h.raised.None? && h.child.Active() && Storable(h.child.data) && !o.service && o.uuid != ""
    && id in h.ledger.progress && h.ledger.progress[id] == [] && maxSteps >= 1
  }

  /** The run of the child's graph. */
  function ChildRun(child: SessionView, messages: seq<Message>, maxSteps: int, o: Oracles): (r: Run)
    ensures r.states != []
  {
    Drive(Begin(child, messages, ChildBudget(maxSteps)), o)
  }

  lemma {:induction false} AlwaysInStep(h0: D.Hub, messages: seq<Message>, id: string, maxSteps: int, o: Oracles, s: Stationery, k: nat)
    requires Ready(h0, id, maxSteps, o) && NewIds(s) && k < |ChildRun(h0.child, messages, maxSteps, o).states|
    ensures var r := ChildRun(h0.child, messages, maxSteps, o);
      var y, c := Relayed(r.states[..k + 1], id, s), r.states[k];
      InStep(D.DoAll(h0, y.acts, id, maxSteps), y, c.scene.live, c.scene.st.budget.steps, id, s)
      && c.scene.st.budget.steps <= maxSteps
  {
    hide Good, Step, Drive, InStep, Storable, SessionView.Active, ClosingActs, D.DoAll, Relayed, RelayOne, Begin, SessionView.Closed, Sum, ToolVisits;
    var b := ChildBudget(maxSteps);
    var c0 := Begin(h0.child, messages, b);
    var r := ChildRun(h0.child, messages, maxSteps, o);
    BeginIsGood(h0.child, messages, b, o.uuid);
    TableCountsVisits(h0.child, messages, b, o, k);
    assert r.states[..k + 1][..k] == r.states[..k] && r.states[..k + 1][k] == r.states[k];
    if k == 0 {
      FirstState(h0, messages, id, maxSteps, o, s);
    } else {
      AlwaysInStep(h0, messages, id, maxSteps, o, s, k - 1);
      DriveKeeps(c0, o, k - 1);
      DriveFromThere(c0, o, k - 1);
      StepAdvances(r.states[k - 1], o);
      RelayedPush(r.states, k, id, s);
      OneMoreState(h0, Relayed(r.states[..k], id, s), r.states[k - 1], r.states[k], id, maxSteps, s);
    }
  }

  lemma RelayedPush(states: seq<Config>, k: nat, id: string, s: Stationery)
    requires k < |states|
    ensures Relayed(states[..k + 1], id, s) == RelayOne(Relayed(states[..k], id, s), states[k], id, s)
  {
    hide RelayOne;
    assert states[..k + 1][..k] == states[..k];
  }

  lemma FirstState(h0: D.Hub, messages: seq<Message>, id: string, maxSteps: int, o: Oracles, s: Stationery)
    requires Ready(h0, id, maxSteps, o)
    ensures var c := ChildRun(h0.child, messages, maxSteps, o).states[0];
      var y := Relayed([c], id, s);
      && c == Begin(h0.child, messages, ChildBudget(maxSteps))
      && InStep(D.DoAll(h0, y.acts, id, maxSteps), y, c.scene.live, c.scene.st.budget.steps, id, s)
    ensures ChildRun(h0.child, messages, maxSteps, o).states[..1] == [ChildRun(h0.child, messages, maxSteps, o).states[0]]
  {
    hide Step;
    var c := Begin(h0.child, messages, ChildBudget(maxSteps));
    assert [c][..0] == [];
    assert Relayed([c], id, s) == Relay(0, [], []);
  }

  lemma {:induction false} AllSeen(own: seq<Artifact>, stored: seq<Artifact>)
    requires forall i :: 0 <= i < |own| ==> own[i] in stored
    ensures D.Unseen(own, stored) == []
  {
    if own != [] {
      AllSeen(own[..|own| - 1], stored);
      var i :| 0 <= i < |stored| && stored[i] == own[|own| - 1];
    }
  }

  lemma JudgedAsReported(h: D.Hub, y: Relay, live: SessionView, steps: int, st: AgentState, id: string, parentTask: string, s: Stationery)
    requires InStep(h, y, live, steps, id, s)
    ensures var res := ResultOf(st, y, id, parentTask, s); D.Judge(h, D.Returns(res), id, parentTask) == res
    ensures D.ArtifactsOf(h.ledger.progress[id]) == y.artifacts
  {
    var stored := D.ArtifactsOf(h.ledger.progress[id]);
    assert stored == y.artifacts;
    AllSeen(y.artifacts, stored);
    assert stored + [] == stored;
  }

  /** A child on the graph never trips a check: its run ends within the recursion limit and raises nothing,
      every report passes the manager and the store, the k-th report has sequence k and is the k-th step, what
      is stored is what it reports, its session is already closed, and the manager returns its result as is. */
  lemma GraphChildNeverTrips(h0: D.Hub, messages: seq<Message>, id: string, parentTask: string, maxSteps: int, o: Oracles, s: Stationery)
    requires Ready(h0, id, maxSteps, o) && NewIds(s)
    ensures var r := ChildRun(h0.child, messages, maxSteps, o);
      var conduct := ConductOf(r, id, parentTask, s);
      var h := D.DoAll(h0, conduct.acts, id, maxSteps);
      && !r.raised && Last(r).node.End? && |r.states| - 1 <= ChildLimit(ChildBudget(maxSteps))
      && h.raised.None? && !h.child.Active()
      && id in h.ledger.progress && Numbered(h.ledger.progress[id], conduct.ending.result.artifacts, id, s)
      && |h.ledger.progress[id]| == Last(r).scene.st.budget.steps <= maxSteps
      && D.Judge(h, conduct.ending, id, parentTask) == conduct.ending.result
      && conduct.ending.result.artifacts == D.ArtifactsOf(h.ledger.progress[id])
      && (conduct.ending.result.outcome.Success? <==> Last(r).scene.st.status.Completed?)
  {
    hide Drive, Good, Step, Relayed, D.DoAll, D.Judge, Storable, SessionView.Active, Numbered, ChildLimit, RecursionLimit;
    var b := ChildBudget(maxSteps);
    var c0 := Begin(h0.child, messages, b);
    var r := ChildRun(h0.child, messages, maxSteps, o);
    var n := |r.states| - 1;
    BeginIsGood(h0.child, messages, b, o.uuid);
    DriveEnds(c0, o);
    DriveKeeps(c0, o, n);
    GoodIsOpen(r.states[n], o.uuid);
    LimitIsEnough(h0.child, messages, b, o);
    AlwaysInStep(h0, messages, id, maxSteps, o, s, n);
    assert r.states[..n + 1] == r.states;
    var y := Relayed(r.states, id, s);
    JudgedAsReported(D.DoAll(h0, y.acts, id, maxSteps), y, r.states[n].scene.live, r.states[n].scene.st.budget.steps,
                     r.states[n].scene.st, id, parentTask, s);
  }

  /** The child the manager sets up for a granted call. */
  function ManagedChild(parent: SessionView, call: M.Call, policy: Policy, policyJson: Policy -> Json): Option<SessionView> {
    var v :- ChildView(parent, call.childId, call.task, call.target, call.id, Some(policy.capabilities));
    Some(v.(data := v.data[M.POLICY_KEY := Plain(policyJson(policy))]))
  }

  lemma ManagedChildIsReady(l: D.Ledger, events: seq<Event>, parent: SessionView, call: M.Call, engine: Engine,
    policyJson: Policy -> Json, o: Oracles)
    requires parent.Active() && M.Fresh(l, events, call.id) && call.task.taskId != "" && !o.service && o.uuid != ""
    requires Validate(engine, parent.identity.depth, parent.scope, call.policy).Valid?
    ensures var policy := Validate(engine, parent.identity.depth, parent.scope, call.policy).policy;
      var request := D.Request(call.id, parent.identity.sessionId, parent.identity.taskId, call.target, call.objective, policy);
      var child := ManagedChild(parent, call, policy, policyJson);
      && child.Some? && D.Started(l, request).Some?
      && forall es :: Ready(D.Hub(D.Started(l, request).value, es, child.value, None), call.id, policy.maxSteps, o)
  {
    assert M.POLICY_KEY[0] != CURRENT_TASK[0];
  }

  /** Delegating to a child on the graph, end to end: the manager's result is the child's own, whatever the
      child's model and tools do. */
  lemma DelegatingToTheGraph(l: D.Ledger, events: seq<Event>, parent: SessionView, call: M.Call, engine: Engine,
    handlers: seq<M.Handler>, messages: seq<Message>, policyJson: Policy -> Json, envelope: D.Result -> Json, o: Oracles, s: Stationery)
    requires parent.Active() && call.target != "" && call.objective != "" && M.Fresh(l, events, call.id)
    requires call.task.taskId != "" && !o.service && o.uuid != "" && NewIds(s)
    requires Validate(engine, parent.identity.depth, parent.scope, call.policy).Valid? && M.Resolve(handlers, call.target).None?
    ensures var policy := Validate(engine, parent.identity.depth, parent.scope, call.policy).policy;
      var child := ManagedChild(parent, call, policy, policyJson);
      child.Some?
    ensures var policy := Validate(engine, parent.identity.depth, parent.scope, call.policy).policy;
      var child := ManagedChild(parent, call, policy, policyJson).value;
      var r := ChildRun(child, messages, policy.maxSteps, o);
      var conduct := ConductOf(r, call.id, parent.identity.taskId, s);
      var rep := M.Delegated(l, events, parent, call, engine, handlers, conduct, policyJson, envelope);
      rep.Reported? && rep.result == conduct.ending.result
  {
    hide Drive, ChildRun, Ready, NewIds, M.Resolve, M.Fresh, D.DoAll, D.Judge, ResultOf, Relayed, SessionView.Active, Step, Numbered,
         D.Ordered, M.ToldInFull, M.Merged, ChildLimit, M.Concluded, M.Released;
    var policy := Validate(engine, parent.identity.depth, parent.scope, call.policy).policy;
    var request := D.Request(call.id, parent.identity.sessionId, parent.identity.taskId, call.target, call.objective, policy);
    ManagedChildIsReady(l, events, parent, call, engine, policyJson, o);
    var child := ManagedChild(parent, call, policy, policyJson).value;
    var h0 := D.Hub(D.Started(l, request).value, events + [DelegationStarted(call.id)] + [TaskAccepted(call.childId)], child, None);
    GraphChildNeverTrips(h0, messages, call.id, parent.identity.taskId, policy.maxSteps, o, s);
    var conduct := ConductOf(ChildRun(child, messages, policy.maxSteps, o), call.id, parent.identity.taskId, s);
    NothingElsewhere(ChildRun(child, messages, policy.maxSteps, o).states, call.id, s);
    M.EveryDelegationIsRecorded(l, events, parent, call, engine, handlers, conduct, policyJson, envelope);
    JudgedIsReported(l, events, parent, call, engine, handlers, conduct, policyJson, envelope);
  }

  /** A parent on the graph that delegates to a handler which does nothing but fail with a number for a summary:
      the delegation is started, finished and on record, and the parent's run ends in an exception on the result
      it is given, its session open and the call made without a trace. */
  lemma NumericFailureRaises(l: D.Ledger, events: seq<Event>, parent: SessionView, call: M.Call, engine: Engine,
    handlers: seq<M.Handler>, policyJson: Policy -> Json, envelope: D.Result -> Json,
    messages: seq<Message>, b: BudgetState, o: Oracles, a: Action)
    requires parent.Active() && Storable(parent.data) && M.Fresh(l, events, call.id) && M.Granted(engine, parent, call, handlers)
    requires call.target != "" && call.objective != ""
    requires o.uuid != "" && b.steps < b.maxSteps && o.parse(o.llm([], messages)) == Some(a) && a.verb.HandOver? && HandsOver(a, o)
    requires var failure := D.Result(call.id, parent.identity.taskId, D.Failure, [], JInt(1), None);
      var rep := M.Delegated(l, events, parent, call, engine, handlers, D.Conduct([], D.Returns(failure)), policyJson, envelope);
      rep.Reported? && o.delegate([LlmCall(messages)], a) == Some(rep.result)
    ensures var failure := D.Result(call.id, parent.identity.taskId, D.Failure, [], JInt(1), None);
      M.OnRecord(M.Delegated(l, events, parent, call, engine, handlers, D.Conduct([], D.Returns(failure)), policyJson, envelope), call, parent)
    ensures var r := Drive(Begin(parent, messages, b), o);
      && r.raised && Last(r).node.Delegation? && Last(r).scene.live.Active() && Last(r).scene.events == []
      && LostCalls(Last(r).node, Last(r).scene, o) == [HandOverCall(a)]
  {
    hide Drive, Begin, M.Delegated, M.Fresh, M.Granted, M.OnRecord, Storable, SessionView.Active, HandsOver;
    M.FailureIsReportedAnyway(l, events, parent, call, engine, handlers, policyJson, envelope);
    BadAnswerRaises(parent, messages, b, o, a);
  }

  lemma {:induction false} NothingElsewhere(states: seq<Config>, id: string, s: Stationery)
    ensures forall i :: 0 <= i < |Relayed(states, id, s).acts| ==> D.Foreign(Relayed(states, id, s).acts[i], id)
  {
    if states != [] { NothingElsewhere(states[..|states| - 1], id, s); }
  }

  /** What the manager returns is its reading of the run. */
  lemma JudgedIsReported(l: D.Ledger, events: seq<Event>, parent: SessionView, call: M.Call, engine: Engine,
    handlers: seq<M.Handler>, conduct: D.Conduct, policyJson: Policy -> Json, envelope: D.Result -> Json)
    requires parent.Active() && call.target != "" && call.objective != ""
    requires Validate(engine, parent.identity.depth, parent.scope, call.policy).Valid? && M.Resolve(handlers, call.target).None?
    requires M.Delegated(l, events, parent, call, engine, handlers, conduct, policyJson, envelope).Reported?
    ensures var policy := Validate(engine, parent.identity.depth, parent.scope, call.policy).policy;
      var request := D.Request(call.id, parent.identity.sessionId, parent.identity.taskId, call.target, call.objective, policy);
      var child := ManagedChild(parent, call, policy, policyJson);
      && child.Some? && D.Started(l, request).Some?
      && var h0 := D.Hub(D.Started(l, request).value, events + [DelegationStarted(call.id)] + [TaskAccepted(call.childId)], child.value, None);
         M.Delegated(l, events, parent, call, engine, handlers, conduct, policyJson, envelope).result
           == D.Judge(D.DoAll(h0, conduct.acts, call.id, policy.maxSteps), conduct.ending, call.id, parent.identity.taskId)
  {
    hide D.DoAll, D.Judge, M.Resolve, M.Released, D.Started;
  }

  // ---------------------------------------------------------------- the adapter as it runs

  function At(c: Config, events: seq<Event>): Config { c.(scene := c.scene.(events := events)) }

  /** The same outcome, whatever has been published before. */
  ghost predicate SameBut(a: Option<Scene>, b: Option<Scene>) {
    (a.None? <==> b.None?) && (a.Some? ==> b.value == a.value.(events := b.value.events))
  }

  lemma ClosingIgnoresEvents(s: Scene, live: SessionView, ending: Ending, o: Oracles, events: seq<Event>)
    ensures SameBut(Closing(s, live, ending, o), Closing(s.(events := events), live, ending, o))
  {
    hide Encode, SessionView.Closed, SessionView.Active;
  }

  lemma VisitIgnoresEvents(node: Node, s: Scene, events: seq<Event>, o: Oracles)
    requires !node.End?
    ensures SameBut(Visit(node, s, o), Visit(node, s.(events := events), o))
  {
    hide Encode, Decode, GateOpen, Heard, HasTask, ToolKey, BudgetState.Called, BudgetState.SameToolExceeded, SessionView.Active, Closing;
    var live, a := Restored(s, o.uuid), LastAction(s.st);
    ClosingIgnoresEvents(s, live, Errored(if a.message == "" then ERROR_TEXT else a.message), o, events);
    ClosingIgnoresEvents(s, live, Done(a.message), o, events);
    ClosingIgnoresEvents(s, live, Broken(s.st.error, s.st.budget.steps, s.st.budget.parseErrors), o, events);
  }

  /** No node looks at what has been published. */
  lemma StepIgnoresEvents(c: Config, events: seq<Event>, o: Oracles)
    requires !c.node.End?
    ensures var d := Step(c, o);
      && (d.None? <==> Step(At(c, events), o).None?)
      && (d.Some? ==> Step(At(c, events), o) == Some(At(d.value, Step(At(c, events), o).value.scene.events)))
      && (d.Some? && Good(c, o.uuid) ==>
            Step(At(c, events), o).value.scene.events == events + (if d.value.node.End? then [ClosedAs(d.value)] else []))
  {
    hide Visit, Good;
    VisitIgnoresEvents(c.node, c.scene, events, o);
    if Good(c, o.uuid) && Step(c, o).Some? {
      AtIsGood(c, events, o.uuid);
      StepEvents(At(c, events), o);
    }
  }

  lemma AtIsGood(c: Config, events: seq<Event>, uuid: string)
    requires Good(c, uuid)
    ensures Good(At(c, events), uuid)
  {
  }

  /** The body of the adapter's loop for one yielded state. */
  method ReportStep(store: D.InMemoryDelegationStore, child: KernelSession, st: AgentState, ghost y: Relay, emitted: int,
    artifacts: seq<Artifact>, id: string, maxSteps: int, s: Stationery)
    returns (reported: int, all: seq<Artifact>, raised: Option<D.Fault>)
    requires emitted == y.emitted && artifacts == y.artifacts
    modifies store, child.bus
    ensures var h := old(M.HubOf(store, child, None)); var p := Announce(y, st, id, s);
      if st.budget.steps <= emitted
      then M.HubOf(store, child, raised) == h && reported == emitted && all == artifacts
      else M.HubOf(store, child, raised) == D.Do(h, D.Emit(p, false), id, maxSteps)
           && reported == st.budget.steps && all == artifacts + [p.artifact]
  {
    hide D.Sink;
    reported, all, raised := emitted, artifacts, None;
    if st.budget.steps > emitted {
      reported := st.budget.steps;
      var artifact := Artifact(s.artifactId(|artifacts|), "agent_step", JObj(s.payload(st)));
      all := artifacts + [artifact];
      raised := M.ProgressSink(store, child, D.Progress(id, |all|, s.eventId(|artifacts|), artifact, "running"), id, maxSteps);
    }
  }

  /** Closing as an act of the handler. */
  lemma ClosingIsAnAct(h0: D.Hub, y: Relay, h: D.Hub, d: Config, id: string, maxSteps: int)
    requires h == D.DoAll(h0, y.acts, id, maxSteps) && h.raised.None? && h.child.Active()
    ensures D.DoAll(h0, y.acts + ClosingActs(d), id, maxSteps)
      == if ClosingActs(d) == [] then h
         else h.(child := h.child.Closed(ClosingActs(d)[0].ending),
                 events := h.events + [TaskClosed(h.child.identity.sessionId, ClosingActs(d)[0].status)])
  {
    hide SessionView.Closed, SessionView.Active;
    if ClosingActs(d) == [] {
      assert y.acts + ClosingActs(d) == y.acts;
    } else {
      DoAllPush(h0, y.acts, ClosingActs(d)[0], id, maxSteps);
      assert y.acts + ClosingActs(d) == y.acts + [ClosingActs(d)[0]];
    }
  }

  /** Where the adapter's loop stands: the hub is what the acts so far make of it. */
  ghost predicate Relaying(h0: D.Hub, h: D.Hub, r: Run, k: nat, y: Relay, id: string, maxSteps: int, s: Stationery) {
    k < |r.states| && y == Relayed(r.states[..k + 1], id, s) && h == D.DoAll(h0, y.acts, id, maxSteps)
  }

  /** What one more node and one more report add up to. */
  lemma RelayingNext(h0: D.Hub, h: D.Hub, r: Run, k: nat, y: Relay, h1: D.Hub, h2: D.Hub, id: string, maxSteps: int, s: Stationery)
    requires Relaying(h0, h, r, k, y, id, maxSteps, s) && h.raised.None? && h.child.Active() && k + 1 < |r.states|
    requires var d := r.states[k + 1];
      h1 == if ClosingActs(d) == [] then h
            else h.(child := h.child.Closed(ClosingActs(d)[0].ending),
                    events := h.events + [TaskClosed(h.child.identity.sessionId, ClosingActs(d)[0].status)])
    requires h1.raised.None?
    requires var d := r.states[k + 1];
      h2 == if d.scene.st.budget.steps <= y.emitted then h1
            else D.Do(h1, D.Emit(Announce(y, d.scene.st, id, s), false), id, maxSteps)
    ensures Relaying(h0, h2, r, k + 1, RelayOne(y, r.states[k + 1], id, s), id, maxSteps, s)
  {
    hide D.Do, SessionView.Closed, SessionView.Active, Announce;
    var d := r.states[k + 1];
    assert r.states[..k + 2][..k + 1] == r.states[..k + 1];
    ClosingIsAnAct(h0, y, h, d, id, maxSteps);
    DoAllPush(h0, y.acts + ClosingActs(d), D.Emit(Announce(y, d.scene.st, id, s), false), id, maxSteps);
  }

  /** One node of the child's run, on the shared bus. */
  lemma NodeOnBus(child: SessionView, messages: seq<Message>, maxSteps: int, o: Oracles, k: nat, events: seq<Event>)
    requires child.Active() && Storable(child.data) && !o.service && o.uuid != ""
    requires k < |ChildRun(child, messages, maxSteps, o).states|
    ensures var r := ChildRun(child, messages, maxSteps, o); var c := r.states[k];
      && (c.node.End? <==> k == |r.states| - 1)
      && (!c.node.End? ==>
            var d := r.states[k + 1];
            && c.scene.live.Active()
            && d.scene.live == (if ClosingActs(d) == [] then c.scene.live else c.scene.live.Closed(ClosingActs(d)[0].ending))
            && Step(At(c, events), o) == Some(At(d, events +
                 (if ClosingActs(d) == [] then [] else [TaskClosed(c.scene.live.identity.sessionId, ClosingActs(d)[0].status)]))))
  {
    hide Step, Drive, Good, Storable, SessionView.Active, SessionView.Closed;
    var b := ChildBudget(maxSteps);
    var c0 := Begin(child, messages, b);
    var r := ChildRun(child, messages, maxSteps, o);
    BeginIsGood(child, messages, b, o.uuid);
    DriveKeeps(c0, o, k);
    DriveFromThere(c0, o, k);
    ClosedExactlyOnce(child, messages, b, o, k);
    DriveEnds(c0, o);
    if !r.states[k].node.End? {
      assert k != |r.states| - 1;
      StepAdvances(r.states[k], o);
      StepIgnoresEvents(r.states[k], events, o);
      SameSession(r.states[k], o);
    }
  }

  lemma SameSession(c: Config, o: Oracles)
    requires Good(c, o.uuid) && !c.node.End? && Step(c, o).Some?
    ensures Step(c, o).value.scene.live.identity == c.scene.live.identity
  {
    hide Step, Good;
    StepEvents(c, o);
  }

  lemma RunStarts(h0: D.Hub, messages: seq<Message>, id: string, maxSteps: int, o: Oracles, s: Stationery)
    requires Ready(h0, id, maxSteps, o)
    ensures var r := ChildRun(h0.child, messages, maxSteps, o);
      && r.states[0] == Begin(h0.child, messages, ChildBudget(maxSteps))
      && Relaying(h0, h0, r, 0, Relay(0, [], []), id, maxSteps, s)
  {
    FirstState(h0, messages, id, maxSteps, o, s);
    assert [ChildRun(h0.child, messages, maxSteps, o).states[0]][..0] == [];
  }

  lemma RelayingFacts(h0: D.Hub, h: D.Hub, messages: seq<Message>, k: nat, y: Relay, id: string, maxSteps: int, o: Oracles, s: Stationery)
    requires Ready(h0, id, maxSteps, o) && NewIds(s)
    requires Relaying(h0, h, ChildRun(h0.child, messages, maxSteps, o), k, y, id, maxSteps, s)
    ensures var r := ChildRun(h0.child, messages, maxSteps, o); var c := r.states[k];
      && h.raised.None? && h.child == c.scene.live
      && (k == |r.states| - 1 ==> y == Relayed(r.states, id, s))
  {
    hide Drive, D.DoAll, Relayed, Numbered, ChildRun;
    var r := ChildRun(h0.child, messages, maxSteps, o);
    AlwaysInStep(h0, messages, id, maxSteps, o, s, k);
    if k == |r.states| - 1 { assert r.states[..k + 1] == r.states; }
  }

  /** `new_agent_state` for a child. */
  function Initial(v: SessionView, messages: seq<Message>, maxSteps: int): AgentState {
    Begin(v, messages, ChildBudget(maxSteps)).scene.st
  }

  lemma BeginShape(v: SessionView, messages: seq<Message>, maxSteps: int, events: seq<Event>)
    ensures At(Begin(v, messages, ChildBudget(maxSteps)), events) == Config(Guard, Scene(Initial(v, messages, maxSteps), v, [], events))
  {
  }

  /** `run`: drive the child's graph and report every new step through the sink. What it does to the store,
      the bus and the session is what its conduct says, and it returns its own result. */
  method RunChild(store: D.InMemoryDelegationStore, child: KernelSession, ports: G.Ports, messages: seq<Message>,
    id: string, parentTask: string, maxSteps: int, s: Stationery) returns (result: D.Result)
    requires Ready(M.HubOf(store, child, None), id, maxSteps, ports.o) && NewIds(s) && ports.log == []
    modifies store, child, child.bus, ports`log
    ensures var h0 := old(M.HubOf(store, child, None));
      var conduct := ConductOf(ChildRun(h0.child, messages, maxSteps, ports.o), id, parentTask, s);
      M.HubOf(store, child, None) == D.DoAll(h0, conduct.acts, id, maxSteps) && result == conduct.ending.result
  {
    hide Step, Drive, ChildRun, Ready, NewIds, Relaying, Relayed, D.DoAll, D.Do, SessionView.Closed, Storable,
         SessionView.Active, Begin, ClosingActs, Announce, InStep, ResultOf;
    ghost var h0 := M.HubOf(store, child, None);
    ghost var r := ChildRun(h0.child, messages, maxSteps, ports.o);
    ghost var y, k := Relay(0, [], []), 0;
    var st, at := Initial(child.View(), messages, maxSteps), Guard;
    var emitted, artifacts := 0, [];
    RunStarts(h0, messages, id, maxSteps, ports.o, s);
    BeginShape(child.View(), messages, maxSteps, child.bus.events);
    while at != End
      invariant k < |r.states| && Relaying(h0, M.HubOf(store, child, None), r, k, y, id, maxSteps, s)
      invariant At(r.states[k], child.bus.events) == Config(at, G.SceneOf(st, child, ports))
      invariant emitted == y.emitted && artifacts == y.artifacts
      decreases |r.states| - k
    {
      ghost var h := M.HubOf(store, child, None);
      RelayingFacts(h0, h, messages, k, y, id, maxSteps, ports.o, s);
      ReadyParts(h0, id, maxSteps, ports.o);
      NodeOnBus(h0.child, messages, maxSteps, ports.o, k, child.bus.events);
      var ok, out, target := G.Advance(at, st, child, ports);
      ghost var h1 := M.HubOf(store, child, None);
      var raised;
      emitted, artifacts, raised := ReportStep(store, child, out, y, emitted, artifacts, id, maxSteps, s);
      RelayingNext(h0, h, r, k, y, h1, M.HubOf(store, child, raised), id, maxSteps, s);
      y, k := RelayOne(y, r.states[k + 1], id, s), k + 1;
      RelayingFacts(h0, M.HubOf(store, child, raised), messages, k, y, id, maxSteps, ports.o, s);
      st, at := out, target;
    }
    RelayingFacts(h0, M.HubOf(store, child, None), messages, k, y, id, maxSteps, ports.o, s);
    ReadyParts(h0, id, maxSteps, ports.o);
    NodeOnBus(h0.child, messages, maxSteps, ports.o, k, child.bus.events);
    result := ResultOf(st, Relay(emitted, artifacts, []), id, parentTask, s);
    RunEnds(h0, M.HubOf(store, child, None), r, k, y, st, id, parentTask, maxSteps, s);
  }

  lemma ReadyParts(h: D.Hub, id: string, maxSteps: int, o: Oracles)
    requires Ready(h, id, maxSteps, o)
    ensures h.child.Active() && Storable(h.child.data) && !o.service && o.uuid != ""
  {
  }

  lemma RunEnds(h0: D.Hub, h: D.Hub, r: Run, k: nat, y: Relay, st: AgentState, id: string, parentTask: string, maxSteps: int, s: Stationery)
    requires Relaying(h0, h, r, k, y, id, maxSteps, s) && k == |r.states| - 1
    requires y == Relayed(r.states, id, s) && st == r.states[k].scene.st
    ensures var conduct := ConductOf(r, id, parentTask, s);
      h == D.DoAll(h0, conduct.acts, id, maxSteps) && conduct.ending.result == ResultOf(st, y.(acts := []), id, parentTask, s)
  {
    hide Relayed, D.DoAll;
    assert r.states[..k + 1] == r.states;
  }
}
