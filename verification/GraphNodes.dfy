/** The graph nodes as they act on a live session, and the loop that streams them. */
module GraphNodes {
  import opened Text
  import opened TaskBoard
  import opened Discipline
  import opened Sessions
  import opened AgentGraph
  import D = Delegation

  /** The kernel's and the delegation service's outer side. */
  class Ports {
    const o: Oracles
    var log: seq<Call>

    constructor (o: Oracles)
      ensures this.o == o && log == []
    {
      this.o, log := o, [];
    }

    /** `session.execute_tool("llm.chat", …)`: an inactive session never reaches the kernel. */
    method Chat(session: KernelSession, messages: seq<Message>) returns (content: string)
      modifies this`log
      ensures content == if session.View().Active() then o.llm(old(log), messages) else ""
      ensures log == if session.View().Active() then old(log) + [LlmCall(messages)] else old(log)
    {
      if session.closed || !HasTask(session.data) {
        return "";
      }
      content := o.llm(log, messages);
      log := log + [LlmCall(messages)];
    }

    method Execute(session: KernelSession, name: string, args: string) returns (result: string)
      modifies this`log
      ensures result == if session.View().Active() then o.tool(old(log), name, args) else o.inactive(name)
      ensures log == if session.View().Active() then old(log) + [ToolCall(name, args)] else old(log)
    {
      if session.closed || !HasTask(session.data) {
        return o.inactive(name);
      }
      result := o.tool(log, name, args);
      log := log + [ToolCall(name, args)];
    }

    method HandOver(a: Action) returns (result: Option<D.Result>)
      modifies this`log
      ensures result == o.delegate(old(log), a) && log == old(log) + [HandOverCall(a)]
    {
      result := o.delegate(log, a);
      log := log + [HandOverCall(a)];
    }
  }

  function SceneOf(st: AgentState, session: KernelSession, ports: Ports): Scene
    reads session, session.bus, ports
  {
    Scene(st, session.View(), ports.log, session.bus.events)
  }

  method RestoreSession(st: AgentState, session: KernelSession, uuid: string)
    modifies session`data
    ensures session.View() == old(session.View()).(data := Decode(st.sessionState, uuid))
  {
    session.data := Decode(st.sessionState, uuid);
  }

  method GuardNode(st: AgentState, session: KernelSession, ports: Ports) returns (out: AgentState)
    modifies session`data
    ensures SceneOf(out, session, ports) == GuardScene(old(SceneOf(st, session, ports)), ports.o.uuid)
    ensures out.route == (if st.budget.steps < st.budget.maxSteps then Agent else Fail)
    ensures out.budget == st.budget && out.messages == st.messages && out.status == st.status
  {
    hide Encode, Decode, HasTask;
    RestoreSession(st, session, ports.o.uuid);
    var budget := new Budget.FromState(st.budget);
    out := st.(sessionState := Encode(session.data));
    if budget.steps >= budget.maxSteps {
      return out.(route := Fail, error := Some(StepBudget));
    }
    out := out.(route := Agent);
  }

  method AgentNode(st: AgentState, session: KernelSession, ports: Ports) returns (out: AgentState)
    modifies session`data, ports`log
    ensures SceneOf(out, session, ports) == AgentScene(old(SceneOf(st, session, ports)), ports.o)
    ensures ports.log == old(ports.log) + if session.View().Active() then [LlmCall(st.messages)] else []
    ensures out.budget == st.budget.Stepped() || out.budget == st.budget.WithParseError()
    ensures out.route.Fail? <==> out.budget == st.budget.WithParseError() && out.budget.ParseExceeded()
    ensures st.messages < out.messages
  {
    hide Encode, Decode, HasTask;
    RestoreSession(st, session, ports.o.uuid);
    var content := ports.Chat(session, st.messages);
    var messages := st.messages + [Said(content)];
    var budget := new Budget.FromState(st.budget);
    out := st.(sessionState := Encode(session.data));
    var parsed := ports.o.parse(content);
    if parsed.None? {
      budget.RecordParseError();
      if budget.View().ParseExceeded() {
        return out.(messages := messages, budget := budget.View(), route := Fail, error := Some(ParseErrors));
      }
      messages := messages + [Retry(content)];
      return out.(messages := messages, budget := budget.View(), route := Guard);
    }
    budget.RecordStep();
    var action := parsed.value;
    out := out.(budget := budget.View(), lastAction := Some(action));
    if action.verb.CallTool? {
      out := out.(route := Tool);
    } else if action.verb.HandOver? {
      out := out.(route := Delegation);
    } else if action.verb.Final? {
      out := out.(route := Finish);
    } else {
      messages := messages + [UnknownAction];
      out := out.(route := Guard);
    }
    out := out.(messages := messages);
  }

  method ToolNode(st: AgentState, session: KernelSession, ports: Ports) returns (out: AgentState)
    modifies session`data, ports`log
    ensures SceneOf(out, session, ports) == ToolScene(old(SceneOf(st, session, ports)), ports.o)
    ensures var a := LastAction(st); var key := ToolKey(a.tool, a.args);
      && out.budget.Count(key) == st.budget.Count(key) + 1
      && (out.route.Fail? <==> st.budget.Count(key) >= st.budget.maxSameToolCalls)
      && ports.log == old(ports.log) + (if out.route.Guard? && session.View().Active() then [ToolCall(a.tool, a.args)] else [])
  {
    hide Encode, Decode, HasTask, ToolKey;
    RestoreSession(st, session, ports.o.uuid);
    var action := LastAction(st);
    var budget := new Budget.FromState(st.budget);
    var key := ToolKey(action.tool, action.args);
    var count := budget.RecordToolCall(key);
    out := st.(sessionState := Encode(session.data), budget := budget.View());
    if count > budget.maxSameToolCalls {
      return out.(route := Fail, error := Some(RepeatedCall));
    }
    var result := ports.Execute(session, action.tool, action.args);
    out := out.(messages := st.messages + [ToolReply(result)], route := Guard);
  }

  /** False: the node raised. */
  method DelegationNode(st: AgentState, session: KernelSession, ports: Ports) returns (ok: bool, out: AgentState)
    modifies session`data, ports`log
    ensures var r := DelegateScene(old(SceneOf(st, session, ports)), ports.o);
      ok == r.Some? && (ok ==> SceneOf(out, session, ports) == r.value)
    ensures ports.log == old(ports.log) + if HandsOver(LastAction(st), ports.o) then [HandOverCall(LastAction(st))] else []
    ensures !ok ==> ports.log == old(ports.log) + LostCalls(Delegation, old(SceneOf(st, session, ports)), ports.o)
    ensures ok && out.route.Guard? ==> HandsOver(LastAction(st), ports.o) && |out.messages| == |st.messages| + 1
  {
    hide Encode, Decode, HasTask;
    RestoreSession(st, session, ports.o.uuid);
    out := st.(sessionState := Encode(session.data));
    if !ports.o.service {
      return true, out.(route := Fail, error := Some(NoService));
    }
    var action := LastAction(st);
    var spec, policy := AsMapping(action.spec), AsMapping(action.policy);
    if action.target == "" || spec.None? || policy.None? {
      return true, out.(route := Fail, error := Some(BadDelegation));
    }
    if !SpecConverts(spec.value) {
      return false, out;
    }
    if NoObjective(spec.value) {
      return true, out.(route := Fail, error := Some(EmptyObjective));
    }
    var result := ports.HandOver(action);
    if result.None? {
      return true, out.(route := Fail, error := Some(DelegationRaised));
    }
    if !D.Describable(result.value) {
      return false, out;
    }
    var told := ports.o.describe(result.value);
    out := out.(messages := st.messages + [DelegationReply(told)], lastDelegation := Some(told), route := Guard);
    ok := true;
  }

  /** The common end of the finish and fail nodes. */
  method CloseSession(st: AgentState, session: KernelSession, ending: Ending, ports: Ports) returns (ok: bool, out: AgentState)
    modifies session, session.bus
    ensures var s := old(SceneOf(st, session, ports)); var r := Closing(s, s.live, ending, ports.o);
      ok == r.Some? && (ok ==> SceneOf(out, session, ports) == r.value)
    ensures ok <==> !old(session.closed) && HasTask(old(session.data))
    ensures ok ==> session.closed && |session.bus.events| == |old(session.bus.events)| + 1
    ensures out.route.End? && (out.status.Completed? <==> ending.Done?) && (out.status.RunFailed? <==> !ending.Done?)
    ensures out.error == st.error && (ending.Broken? ==> out.finalText == st.finalText)
  {
    hide Encode, HasTask;
    var outcome := ports.o.envelope(session.identity.taskId, ending);
    ok := session.CompleteTask(outcome, if ending.Done? then "completed" else "failed");
    out := st.(sessionState := Encode(session.data), outcome := Some(outcome), route := End);
    out := out.(status := if ending.Done? then Completed else RunFailed);
    if !ending.Broken? {
      out := out.(finalText := Some(ending.message));
    }
  }

  method FinishNode(st: AgentState, session: KernelSession, ports: Ports) returns (ok: bool, out: AgentState)
    modifies session, session.bus
    ensures var r := FinishScene(old(SceneOf(st, session, ports)), ports.o);
      ok == r.Some? && (ok ==> SceneOf(out, session, ports) == r.value)
    ensures var d, a := Decode(st.sessionState, ports.o.uuid), LastAction(st);
      ok && out.route.End? ==> (out.status.Completed? <==> !a.reason.ErrorFinish? && GateOpen(d, a.reason))
    ensures ok && out.route.End? ==> session.closed && |session.bus.events| == |old(session.bus.events)| + 1
    ensures ok && !out.route.End? ==> session.bus.events == old(session.bus.events) && session.closed == old(session.closed)
  {
    hide Encode, Decode, HasTask, GateOpen, Closing;
    RestoreSession(st, session, ports.o.uuid);
    var action := LastAction(st);
    if action.reason.ErrorFinish? {
      ok, out := CloseSession(st, session, Errored(if action.message == "" then ERROR_TEXT else action.message), ports);
      RestoredFirst(old(SceneOf(st, session, ports)), ports.o);
      return;
    }
    if !GateOpen(session.data, action.reason) {
      return true, st.(messages := st.messages + [GateClosed], route := Guard, sessionState := Encode(session.data));
    }
    ok, out := CloseSession(st, session, Done(action.message), ports);
    RestoredFirst(old(SceneOf(st, session, ports)), ports.o);
  }

  /** Closing reads the live session it is given, not the one in the scene. */
  lemma RestoredFirst(s: Scene, o: Oracles)
    ensures forall e {:trigger Closing(s, Restored(s, o.uuid), e, o)} ::
      Closing(s.(live := Restored(s, o.uuid)), Restored(s, o.uuid), e, o) == Closing(s, Restored(s, o.uuid), e, o)
  {
    hide Encode, Decode, HasTask, SessionView.Closed;
  }

  method FailNode(st: AgentState, session: KernelSession, ports: Ports) returns (ok: bool, out: AgentState)
    modifies session, session.bus
    ensures var r := FailScene(old(SceneOf(st, session, ports)), ports.o);
      ok == r.Some? && (ok ==> SceneOf(out, session, ports) == r.value)
    ensures ok <==> !old(session.closed) && HasTask(Decode(st.sessionState, ports.o.uuid))
    ensures ok ==> session.closed && out.status.RunFailed? && out.finalText == st.finalText && out.error == st.error
  {
    hide Encode, Decode, HasTask, Closing;
    RestoreSession(st, session, ports.o.uuid);
    var budget := new Budget.FromState(st.budget);
    ok, out := CloseSession(st, session, Broken(st.error, budget.steps, budget.parseErrors), ports);
    RestoredFirst(old(SceneOf(st, session, ports)), ports.o);
  }

  method VisitNode(node: Node, st: AgentState, session: KernelSession, ports: Ports) returns (ok: bool, out: AgentState)
    requires !node.End?
    modifies session, session.bus, ports`log
    ensures var s := old(SceneOf(st, session, ports)); var r := Visit(node, s, ports.o);
      ok == r.Some? && (if ok then SceneOf(out, session, ports) == r.value else ports.log == s.log + LostCalls(node, s, ports.o))
  {
    hide GuardScene, AgentScene, ToolScene, DelegateScene, FinishScene, FailScene;
    ok := true;
    assert ports.log + [] == ports.log;
    match node {
      case Guard => out := GuardNode(st, session, ports);
      case Agent => out := AgentNode(st, session, ports);
      case Tool => out := ToolNode(st, session, ports);
      case Delegation => ok, out := DelegationNode(st, session, ports);
      case Finish => ok, out := FinishNode(st, session, ports);
      case Fail => ok, out := FailNode(st, session, ports);
    }
  }

  /** One node and the edge out of it. */
  method Advance(node: Node, st: AgentState, session: KernelSession, ports: Ports) returns (ok: bool, out: AgentState, target: Node)
    requires !node.End?
    modifies session, session.bus, ports`log
    ensures var s := old(SceneOf(st, session, ports)); var r := Step(Config(node, s), ports.o);
      ok == r.Some? && (if ok then Config(target, SceneOf(out, session, ports)) == r.value
                        else ports.log == s.log + LostCalls(node, s, ports.o))
  {
    hide Visit, Declared, LostCalls;
    ghost var s := SceneOf(st, session, ports);
    ok, out := VisitNode(node, st, session, ports);
    if ok { RoutesAreDeclared(node, s, ports.o); }
    target := if node.Fail? then End else out.route;
    ok := ok && (node.Fail? || Declared(node, out.route));
  }

  /** Running from `c0` passes through `done` and then `c`. */
  ghost predicate Reached(c0: Config, done: seq<Config>, c: Config, o: Oracles) {
    Drive(c0, o) == Run(done + Drive(c, o).states, Drive(c, o).raised)
  }

  lemma ReachedNext(c0: Config, done: seq<Config>, c: Config, o: Oracles)
    requires Reached(c0, done, c, o) && !c.node.End?
    ensures Step(c, o).Some? ==> Reached(c0, done + [c], Step(c, o).value, o) && Measure(Step(c, o).value) < Measure(c)
    ensures Step(c, o).None? ==> Drive(c0, o) == Run(done + [c], true)
  {
    hide Step, Measure;
    if Step(c, o).Some? {
      var d := Step(c, o).value;
      StepBurns(c, o);
      assert done + ([c] + Drive(d, o).states) == done + [c] + Drive(d, o).states;
    }
  }

  /** The stream over the compiled graph: every state it yields, in order, until END or an exception. */
  method Stream(node: Node, st: AgentState, session: KernelSession, ports: Ports)
    returns (final: AgentState, raised: bool, yielded: seq<AgentState>)
    modifies session, session.bus, ports`log
    ensures var r := Drive(Config(node, old(SceneOf(st, session, ports))), ports.o);
      && raised == r.raised && |yielded| == |r.states| && yielded[|yielded| - 1] == final
      && (forall i :: 0 <= i < |yielded| ==> yielded[i] == r.states[i].scene.st)
      && var last := r.states[|r.states| - 1];
         if raised then ports.log == last.scene.log + LostCalls(last.node, last.scene, ports.o)
         else SceneOf(final, session, ports) == last.scene
  {
    hide Step, Measure, Reached, Drive, LostCalls;
    var at := node;
    final, raised, yielded := st, false, [st];
    ghost var c0 := Config(node, SceneOf(st, session, ports));
    ghost var c := c0;
    ghost var done: seq<Config> := [];
    ReachedFirst(c0, ports.o);
    while !at.End? && !raised
      invariant |yielded| == |done| + 1 && yielded[|done|] == final
      invariant c.node == at && final == c.scene.st
      invariant if raised then ports.log == c.scene.log + LostCalls(c.node, c.scene, ports.o) else c.scene == SceneOf(final, session, ports)
      invariant forall i :: 0 <= i < |done| ==> yielded[i] == done[i].scene.st
      invariant !raised ==> Reached(c0, done, c, ports.o)
      invariant raised ==> Drive(c0, ports.o) == Run(done + [c], true)
      decreases Measure(c), !raised
    {
      var ok, out, target := Advance(at, final, session, ports);
      ReachedNext(c0, done, c, ports.o);
      if ok {
        done := done + [c];
        c := Config(target, SceneOf(out, session, ports));
        final, at := out, target;
        yielded := yielded + [out];
      } else {
        raised := true;
      }
    }
    if !raised { ReachedEnd(c0, done, c, ports.o); }
  }

  lemma ReachedFirst(c: Config, o: Oracles)
    ensures Reached(c, [], c, o)
  {
  }

  lemma ReachedEnd(c0: Config, done: seq<Config>, c: Config, o: Oracles)
    requires Reached(c0, done, c, o) && c.node.End?
    ensures Drive(c0, o) == Run(done + [c], false)
  {
  }
}
