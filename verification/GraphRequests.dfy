/** What becomes of what the model asks for: at every state of every run, the request is carried out next, or the
    run says why not. */
module GraphRequests {
  import opened Text
  import opened TaskBoard
  import opened Discipline
  import opened Sessions
  import opened AgentGraph
  import opened GraphRuns
  import D = Delegation

  /** The transcript grows by these messages. */
  predicate Grew(before: Scene, after: Scene, more: seq<Message>) { after.st.messages == before.st.messages + more }

  /** The external calls grow by these. */
  predicate Asked(before: Scene, after: Scene, more: seq<Call>) { after.log == before.log + more }

  /** A guard: to the model with a step left, to the end without. */
  lemma GuardDoes(c: Config, o: Oracles)
    requires Good(c, o.uuid) && c.node.Guard?
    ensures Step(c, o).Some?
    ensures var b, d := c.scene.st.budget, Step(c, o).value;
      && Asked(c.scene, d.scene, []) && Grew(c.scene, d.scene, []) && d.scene.st.budget == b
      && (if b.steps < b.maxSteps then d.node.Agent? else d.node.Fail? && d.scene.st.error == Some(StepBudget))
  {
    hide Encode, Decode, Storable, HasTask;
  }

  /** The model is asked with the whole transcript, what it said is kept, and what it asked for decides where the
      run goes: a tool, a delegation and a final answer to their nodes, anything else back to the guard with a
      note, a reply that does not parse back with a note until there are too many. */
  lemma AgentDoes(c: Config, o: Oracles)
    requires Good(c, o.uuid) && c.node.Agent?
    ensures Step(c, o).Some?
    ensures var s, d := c.scene, Step(c, o).value; var b, e := s.st.budget, d.scene.st.budget;
      var content := o.llm(s.log, s.st.messages); var parsed := o.parse(content);
      && Asked(s, d.scene, [LlmCall(s.st.messages)])
      && e == b.(steps := if parsed.Some? then b.steps + 1 else b.steps, parseErrors := if parsed.Some? then b.parseErrors else b.parseErrors + 1)
      && (parsed.Some? ==> d.scene.st.lastAction == parsed)
      && (parsed.Some? && parsed.value.verb.CallTool? ==> d.node.Tool? && Grew(s, d.scene, [Said(content)]))
      && (parsed.Some? && parsed.value.verb.HandOver? ==> d.node.Delegation? && Grew(s, d.scene, [Said(content)]))
      && (parsed.Some? && parsed.value.verb.Final? ==> d.node.Finish? && Grew(s, d.scene, [Said(content)]))
      && (parsed.Some? && parsed.value.verb.Other? ==> d.node.Guard? && Grew(s, d.scene, [Said(content), UnknownAction]))
      && (parsed.None? && b.parseErrors + 1 < b.maxParseErrors ==> d.node.Guard? && Grew(s, d.scene, [Said(content), Retry(content)]))
      && (parsed.None? && b.parseErrors + 1 >= b.maxParseErrors ==>
            d.node.Fail? && Grew(s, d.scene, [Said(content)]) && d.scene.st.error == Some(ParseErrors))
  {
    hide Encode, Decode, Storable, HasTask;
    RestoredIsLive(c, o.uuid);
    GoodIsOpen(c, o.uuid);
    var said := c.scene.st.messages + [Said(o.llm(c.scene.log, c.scene.st.messages))];
    assert forall m: Message :: said + [m] == c.scene.st.messages + [Said(o.llm(c.scene.log, c.scene.st.messages)), m];
  }

  /** How often this tool has been asked for with these arguments, the budget's own count. */
  function TimesCalled(b: BudgetState, name: string, args: string): nat {
    if name + ":" + args in b.toolCalls then b.toolCalls[name + ":" + args] else 0
  }

  /** The tool asked for is called with the arguments asked for, and its answer is kept; unless it has been called
      so too often, which ends the run without the call. */
  lemma ToolDoes(c: Config, o: Oracles)
    requires Good(c, o.uuid) && c.node.Tool?
    ensures Step(c, o).Some?
    ensures var s, d, a := c.scene, Step(c, o).value, LastAction(c.scene.st);
      var n := TimesCalled(s.st.budget, a.tool, a.args);
      && TimesCalled(d.scene.st.budget, a.tool, a.args) == n + 1
      && (n < s.st.budget.maxSameToolCalls ==>
            && d.node.Guard? && Asked(s, d.scene, [ToolCall(a.tool, a.args)])
            && Grew(s, d.scene, [ToolReply(o.tool(s.log, a.tool, a.args))]))
      && (n >= s.st.budget.maxSameToolCalls ==>
            d.node.Fail? && d.scene.st.error == Some(RepeatedCall) && Asked(s, d.scene, []) && Grew(s, d.scene, []))
  {
    hide Encode, Decode, Storable, HasTask;
    RestoredIsLive(c, o.uuid);
    GoodIsOpen(c, o.uuid);
  }

  /** What stands in the way of a hand-over, if anything. */
  function Obstacle(a: Action, o: Oracles): Option<Error> {
    if !o.service then Some(NoService)
    else if a.target == "" || !Shaped(a) then Some(BadDelegation)
    else if !SpecConverts(SpecOf(a)) then None
    else if "objective" !in SpecOf(a) || SpecOf(a)["objective"] == JStr("") then Some(EmptyObjective)
    else None
  }

  /** A delegation that nothing stands in the way of is handed over as it was asked for, and what is told of its
      result is kept. The run fails with the obstacle, or when the service raises. */
  lemma DelegationDoes(c: Config, o: Oracles)
    requires Good(c, o.uuid) && c.node.Delegation? && Step(c, o).Some?
    ensures var s, d, a := c.scene, Step(c, o).value, LastAction(c.scene.st);
      && d.scene.st.budget == s.st.budget
      && (Obstacle(a, o).Some? ==>
            d.node.Fail? && d.scene.st.error == Obstacle(a, o) && Asked(s, d.scene, []) && Grew(s, d.scene, []))
      && (Obstacle(a, o).None? ==>
            var r := o.delegate(s.log, a);
            && Asked(s, d.scene, [HandOverCall(a)])
            && (if r.None? then d.node.Fail? && d.scene.st.error == Some(DelegationRaised) && Grew(s, d.scene, [])
                else d.node.Guard? && Grew(s, d.scene, [DelegationReply(o.describe(r.value))])
                     && d.scene.st.lastDelegation == Some(o.describe(r.value))))
  {
    hide Encode, Decode, Storable, HasTask, SpecConverts, AsMapping;
  }

  /** A flag of the session's store is set: it is there and truthy. */
  predicate IsSet(d: Store, k: string) { k in d && (d[k].TaskVal? || (d[k].Plain? && Truthy(d[k].json))) }

  /** A final answer ends the run completed with its message, unless code has changed and not been validated and
      the model names no blocker, which sends it back with a note; and unless it says that there was an error,
      which ends the run failed with its message. */
  lemma FinishDoes(c: Config, o: Oracles)
    requires Good(c, o.uuid) && c.node.Finish?
    ensures Step(c, o).Some?
    ensures var s, d, a := c.scene, Step(c, o).value, LastAction(c.scene.st); var data := c.scene.live.data;
      && Asked(s, d.scene, []) && d.scene.st.budget == s.st.budget
      && (a.reason.ErrorFinish? ==>
            && d.node.End? && d.scene.st.status.RunFailed? && Grew(s, d.scene, [])
            && d.scene.st.finalText == Some(if a.message == "" then "agent finished with an error" else a.message))
      && (!a.reason.ErrorFinish? && IsSet(data, "code_changed") && !IsSet(data, "validation_passed") && !a.reason.Blocker? ==>
            d.node.Guard? && Grew(s, d.scene, [GateClosed]))
      && (!a.reason.ErrorFinish? && (!IsSet(data, "code_changed") || IsSet(data, "validation_passed") || a.reason.Blocker?) ==>
            d.node.End? && d.scene.st.status.Completed? && d.scene.st.finalText == Some(a.message) && Grew(s, d.scene, []))
  {
    hide Encode, Decode, Storable, HasTask, SessionView.Closed;
    RestoredIsLive(c, o.uuid);
    GoodIsOpen(c, o.uuid);
  }

  /** A failing run is closed, failed, with the error it came with. */
  lemma FailDoes(c: Config, o: Oracles)
    requires Good(c, o.uuid) && c.node.Fail?
    ensures Step(c, o).Some?
    ensures var s, d := c.scene, Step(c, o).value;
      && d.node.End? && d.scene.st.status.RunFailed? && d.scene.st.error == s.st.error
      && Asked(s, d.scene, []) && Grew(s, d.scene, [])
      && d.scene.st.outcome == Some(o.envelope(s.live.identity.taskId, Broken(s.st.error, s.st.budget.steps, s.st.budget.parseErrors)))
  {
    hide Encode, Decode, Storable, HasTask, SessionView.Closed;
    RestoredIsLive(c, o.uuid);
    GoodIsOpen(c, o.uuid);
  }

  // ---------------------------------------------------------------- over a whole run

  /** State `i` of a run asks the model, and this is what its answer comes to. */
  ghost predicate Answered(r: Run, i: nat, o: Oracles, a: Option<Action>) {
    i < |r.states| && r.states[i].node.Agent? && o.parse(o.llm(r.states[i].scene.log, r.states[i].scene.st.messages)) == a
  }

  lemma NextState(v: SessionView, messages: seq<Message>, b: BudgetState, o: Oracles, i: nat)
    requires v.Active() && Storable(v.data) && o.uuid != "" && i < |Drive(Begin(v, messages, b), o).states|
    ensures var r := Drive(Begin(v, messages, b), o); var c := r.states[i];
      && Good(c, o.uuid) && (i + 1 < |r.states| <==> !c.node.End? && Step(c, o).Some?)
      && (i + 1 < |r.states| ==> Step(c, o) == Some(r.states[i + 1]))
      && (!c.node.End? && Step(c, o).None? ==> r.raised && i == |r.states| - 1)
  {
    hide Good, Chosen, Step, Fuel;
    var c0 := Begin(v, messages, b);
    BeginIsGood(v, messages, b, o.uuid);
    DriveKeeps(c0, o, i);
    DriveFromThere(c0, o, i);
    var r := Drive(c0, o);
    assert Drive(r.states[i], o).states == r.states[i..];
    if i + 1 < |r.states| { assert r.states[i..][1] == r.states[i + 1]; }
  }

  /** Wherever in a run the model asks for a tool, the tool node is next, and after it, unless this call has been
      made as often as allowed, the tool has been called by that name with those arguments and has answered. */
  lemma ToolIsCalled(v: SessionView, messages: seq<Message>, b: BudgetState, o: Oracles, i: nat, a: Action)
    requires v.Active() && Storable(v.data) && o.uuid != "" && a.verb.CallTool?
    requires Answered(Drive(Begin(v, messages, b), o), i, o, Some(a))
    ensures var r := Drive(Begin(v, messages, b), o);
      && i + 2 < |r.states| && r.states[i + 1].node.Tool?
      && var s, t, u := r.states[i].scene, r.states[i + 1].scene, r.states[i + 2];
         && Asked(s, t, [LlmCall(s.st.messages)]) && Grew(s, t, [Said(o.llm(s.log, s.st.messages))])
         && (TimesCalled(s.st.budget, a.tool, a.args) < s.st.budget.maxSameToolCalls ==>
               && u.node.Guard? && Asked(t, u.scene, [ToolCall(a.tool, a.args)])
               && Grew(t, u.scene, [ToolReply(o.tool(t.log, a.tool, a.args))]))
         && (TimesCalled(s.st.budget, a.tool, a.args) >= s.st.budget.maxSameToolCalls ==>
               u.node.Fail? && u.scene.st.error == Some(RepeatedCall) && Asked(t, u.scene, []) && Grew(t, u.scene, []))
  {
    hide Good, Step, Drive, Begin, Storable, SessionView.Active;
    var r := Drive(Begin(v, messages, b), o);
    NextState(v, messages, b, o, i);
    AgentDoes(r.states[i], o);
    NextState(v, messages, b, o, i + 1);
    ToolDoes(r.states[i + 1], o);
  }

  /** Wherever it hands over, the delegation node is next, and after it, unless the node raises or something stands
      in the way, the service has been given that action and what is told of its answer is in the transcript. */
  lemma HandOverIsMade(v: SessionView, messages: seq<Message>, b: BudgetState, o: Oracles, i: nat, a: Action)
    requires v.Active() && Storable(v.data) && o.uuid != "" && a.verb.HandOver?
    requires Answered(Drive(Begin(v, messages, b), o), i, o, Some(a))
    ensures var r := Drive(Begin(v, messages, b), o);
      && i + 1 < |r.states| && r.states[i + 1].node.Delegation? && (i + 2 < |r.states| || r.raised)
      && var t := r.states[i + 1].scene;
         && LastAction(t.st) == a
         && (i + 2 < |r.states| ==>
               var u := r.states[i + 2];
               && (Obstacle(a, o).Some? ==>
                     u.node.Fail? && u.scene.st.error == Obstacle(a, o) && Asked(t, u.scene, []) && Grew(t, u.scene, []))
               && (Obstacle(a, o).None? ==> Asked(t, u.scene, [HandOverCall(a)]))
               && (Obstacle(a, o).None? && o.delegate(t.log, a).Some? ==>
                     u.node.Guard? && Grew(t, u.scene, [DelegationReply(o.describe(o.delegate(t.log, a).value))]))
               && (Obstacle(a, o).None? && o.delegate(t.log, a).None? ==>
                     u.node.Fail? && u.scene.st.error == Some(DelegationRaised) && Grew(t, u.scene, [])))
  {
    hide Good, Step, Drive, Begin, Storable, SessionView.Active, Obstacle;
    var r := Drive(Begin(v, messages, b), o);
    NextState(v, messages, b, o, i);
    AgentDoes(r.states[i], o);
    NextState(v, messages, b, o, i + 1);
    if i + 2 < |r.states| { DelegationDoes(r.states[i + 1], o); }
  }

  /** Wherever it gives its final answer, the finish node is next, and the run is over after it unless code has
      changed that has not been validated. */
  lemma FinalIsTaken(v: SessionView, messages: seq<Message>, b: BudgetState, o: Oracles, i: nat, a: Action)
    requires v.Active() && Storable(v.data) && o.uuid != "" && a.verb.Final?
    requires Answered(Drive(Begin(v, messages, b), o), i, o, Some(a))
    ensures var r := Drive(Begin(v, messages, b), o);
      && i + 2 < |r.states| && r.states[i + 1].node.Finish?
      && var t, u := r.states[i + 1].scene, r.states[i + 2];
         var open := !IsSet(t.live.data, "code_changed") || IsSet(t.live.data, "validation_passed") || a.reason.Blocker?;
         && (a.reason.ErrorFinish? ==> u.node.End? && u.scene.st.status.RunFailed?)
         && (!a.reason.ErrorFinish? && open ==> u.node.End? && u.scene.st.status.Completed? && u.scene.st.finalText == Some(a.message))
         && (!a.reason.ErrorFinish? && !open ==> u.node.Guard? && Grew(t, u.scene, [GateClosed]))
  {
    hide Good, Step, Drive, Begin, Storable, SessionView.Active, IsSet;
    var r := Drive(Begin(v, messages, b), o);
    NextState(v, messages, b, o, i);
    AgentDoes(r.states[i], o);
    NextState(v, messages, b, o, i + 1);
    FinishDoes(r.states[i + 1], o);
  }

  /** Wherever it says something else, or nothing that parses, the guard is next with a note of that; only too many
      replies that do not parse end the run. */
  lemma OtherIsNoted(v: SessionView, messages: seq<Message>, b: BudgetState, o: Oracles, i: nat, a: Option<Action>)
    requires v.Active() && Storable(v.data) && o.uuid != "" && (a.Some? ==> a.value.verb.Other?)
    requires Answered(Drive(Begin(v, messages, b), o), i, o, a)
    ensures var r := Drive(Begin(v, messages, b), o);
      && i + 1 < |r.states|
      && var s, u := r.states[i].scene, r.states[i + 1]; var content := o.llm(s.log, s.st.messages);
         && (a.Some? ==> u.node.Guard? && Grew(s, u.scene, [Said(content), UnknownAction]))
         && (a.None? && s.st.budget.parseErrors + 1 < s.st.budget.maxParseErrors ==>
               u.node.Guard? && Grew(s, u.scene, [Said(content), Retry(content)]))
         && (a.None? && s.st.budget.parseErrors + 1 >= s.st.budget.maxParseErrors ==> u.node.Fail? && u.scene.st.error == Some(ParseErrors))
  {
    hide Good, Step, Drive, Begin, Storable, SessionView.Active;
    var r := Drive(Begin(v, messages, b), o);
    NextState(v, messages, b, o, i);
    AgentDoes(r.states[i], o);
  }
}
