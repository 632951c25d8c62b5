/** What the transcript of an agent-graph run holds: every external answer, once, word for word, in order. */
module GraphTranscript {
  import opened Text
  import opened TaskBoard
  import opened Discipline
  import opened Sessions
  import opened AgentGraph
  import opened GraphRuns

  /** What the outside answers to one more call, as a message; a delegation that raises answers nothing. */
  function ReplyTo(before: seq<Call>, x: Call, o: Oracles): seq<Message> {
    match x
    case LlmCall(ms) => [Said(o.llm(before, ms))]
    case ToolCall(name, args) => [ToolReply(o.tool(before, name, args))]
    case HandOverCall(a) =>
      var r := o.delegate(before, a);
      if r.Some? then [DelegationReply(o.describe(r.value))] else []
  }

  /** All that the outside has answered. */
  function Replies(log: seq<Call>, o: Oracles): seq<Message> {
    if log == [] then [] else Replies(log[..|log| - 1], o) + ReplyTo(log[..|log| - 1], log[|log| - 1], o)
  }

  predicate IsAnswer(m: Message) { m.Said? || m.ToolReply? || m.DelegationReply? }

  /** The answers a transcript holds. */
  function Answers(ms: seq<Message>): seq<Message> {
    if ms == [] then [] else Answers(ms[..|ms| - 1]) + if IsAnswer(ms[|ms| - 1]) then [ms[|ms| - 1]] else []
  }

  lemma AnswersPush(ms: seq<Message>, m: Message)
    ensures Answers(ms + [m]) == Answers(ms) + if IsAnswer(m) then [m] else []
  {
    assert (ms + [m])[..|ms|] == ms;
  }

  lemma RepliesPush(log: seq<Call>, x: Call, o: Oracles)
    ensures Replies(log + [x], o) == Replies(log, o) + ReplyTo(log, x, o)
  {
    assert (log + [x])[..|log|] == log;
  }

  /** The call asked the model with the transcript as it was then: what it was asked with holds every answer
      given before and no other, and its answer is what comes next in today's transcript. */
  predicate AskedWithAll(log: seq<Call>, i: nat, ms: seq<Message>, o: Oracles)
    requires i < |log|
  {
    var x := log[i];
    x.LlmCall? ==> x.messages + [Said(o.llm(log[..i], x.messages))] <= ms && Answers(x.messages) == Replies(log[..i], o)
  }

  /** The transcript holds exactly what the outside answered, in order, and the model was always asked with
      the whole transcript so far. */
  ghost predicate Matches(log: seq<Call>, ms: seq<Message>, o: Oracles) {
    && Replies(log, o) == Answers(ms)
    && (forall i :: 0 <= i < |log| ==> AskedWithAll(log, i, ms, o))
  }

  /** A longer log and a longer transcript leave what was asked before as it was. */
  lemma StillAskedWithAll(log: seq<Call>, ms: seq<Message>, more: seq<Call>, later: seq<Message>, o: Oracles)
    requires forall i :: 0 <= i < |log| ==> AskedWithAll(log, i, ms, o)
    ensures forall i :: 0 <= i < |log| ==> AskedWithAll(log + more, i, ms + later, o)
  {
    hide Answers, Replies;
    forall i | 0 <= i < |log| ensures AskedWithAll(log + more, i, ms + later, o) {
      assert AskedWithAll(log, i, ms, o) && (log + more)[..i] == log[..i] && (log + more)[i] == log[i];
    }
  }

  /** A call and its answer. */
  lemma MatchesAnswer(log: seq<Call>, ms: seq<Message>, x: Call, m: Message, o: Oracles)
    requires Matches(log, ms, o) && IsAnswer(m) && ReplyTo(log, x, o) == [m] && (x.LlmCall? ==> x.messages == ms)
    ensures Matches(log + [x], ms + [m], o)
  {
    hide Answers, Replies;
    AnswersPush(ms, m);
    RepliesPush(log, x, o);
    StillAskedWithAll(log, ms, [x], [m], o);
    assert (log + [x])[..|log|] == log;
  }

  /** A message that answers nothing. */
  lemma MatchesNote(log: seq<Call>, ms: seq<Message>, m: Message, o: Oracles)
    requires Matches(log, ms, o) && !IsAnswer(m)
    ensures Matches(log, ms + [m], o)
  {
    AnswersPush(ms, m);
    assert Answers(ms) + [] == Answers(ms) && log + [] == log;
    StillAskedWithAll(log, ms, [], [m], o);
  }

  /** A delegation that raises. */
  lemma MatchesRaise(log: seq<Call>, ms: seq<Message>, a: Action, o: Oracles)
    requires Matches(log, ms, o) && o.delegate(log, a).None?
    ensures Matches(log + [HandOverCall(a)], ms, o)
  {
    RepliesPush(log, HandOverCall(a), o);
    assert Replies(log, o) + [] == Replies(log, o) && ms + [] == ms;
    StillAskedWithAll(log, ms, [HandOverCall(a)], [], o);
  }

  ghost predicate Transcribed(c: Config, o: Oracles) { Matches(c.scene.log, c.scene.st.messages, o) }

  lemma AgentTranscribes(c: Config, o: Oracles)
    requires Good(c, o.uuid) && c.node.Agent? && Transcribed(c, o)
    ensures Step(c, o).Some? && Transcribed(Step(c, o).value, o)
  {
    hide Matches, Encode, Decode, Storable, BudgetState.ParseExceeded;
    RestoredIsLive(c, o.uuid);
    GoodIsOpen(c, o.uuid);
    var s := c.scene;
    var log, said := s.log + [LlmCall(s.st.messages)], Said(o.llm(s.log, s.st.messages));
    MatchesAnswer(s.log, s.st.messages, LlmCall(s.st.messages), said, o);
    MatchesNote(log, s.st.messages + [said], Retry(said.content), o);
    MatchesNote(log, s.st.messages + [said], UnknownAction, o);
  }

  lemma ToolTranscribes(c: Config, o: Oracles)
    requires Good(c, o.uuid) && c.node.Tool? && Transcribed(c, o)
    ensures Step(c, o).Some? && Transcribed(Step(c, o).value, o)
  {
    hide Matches, Encode, Decode, Storable, BudgetState.SameToolExceeded, BudgetState.Called;
    RestoredIsLive(c, o.uuid);
    GoodIsOpen(c, o.uuid);
    var s, a := c.scene, LastAction(c.scene.st);
    MatchesAnswer(s.log, s.st.messages, ToolCall(a.tool, a.args), ToolReply(o.tool(s.log, a.tool, a.args)), o);
  }

  lemma DelegationTranscribes(c: Config, o: Oracles)
    requires c.node.Delegation? && Transcribed(c, o) && Step(c, o).Some?
    ensures Transcribed(Step(c, o).value, o)
  {
    hide Matches, Encode, Decode, Storable;
    var s, a := c.scene, LastAction(c.scene.st);
    var r := o.delegate(s.log, a);
    if r.Some? {
      MatchesAnswer(s.log, s.st.messages, HandOverCall(a), DelegationReply(o.describe(r.value)), o);
    } else {
      MatchesRaise(s.log, s.st.messages, a, o);
    }
  }

  lemma QuietTranscribes(c: Config, o: Oracles)
    requires c.node in {Guard, Finish, Fail} && Transcribed(c, o) && Step(c, o).Some?
    ensures Transcribed(Step(c, o).value, o)
  {
    hide Matches, Encode, Decode, Storable, GateOpen, SessionView.Closed, HasTask;
    MatchesNote(c.scene.log, c.scene.st.messages, GateClosed, o);
  }

  lemma StepTranscribes(c: Config, o: Oracles)
    requires Good(c, o.uuid) && !c.node.End? && Transcribed(c, o) && Step(c, o).Some?
    ensures Transcribed(Step(c, o).value, o)
  {
    hide Good, Step, Transcribed;
    match c.node
    case Agent => AgentTranscribes(c, o);
    case Tool => ToolTranscribes(c, o);
    case Delegation => DelegationTranscribes(c, o);
    case _ => QuietTranscribes(c, o);
  }

  /** At every state of a run the transcript's answers are exactly what the model, the tools and the
      delegations answered to the calls made so far, in the order of the calls; and every model call was
      made with the whole transcript up to its answer. */
  lemma {:induction false} EveryAnswerIsTranscribed(v: SessionView, messages: seq<Message>, b: BudgetState, o: Oracles, i: nat)
    requires v.Active() && Storable(v.data) && o.uuid != "" && Answers(messages) == []
    requires i < |Drive(Begin(v, messages, b), o).states|
    ensures Transcribed(Drive(Begin(v, messages, b), o).states[i], o)
  {
    hide Good, Step, Drive, Storable, SessionView.Active;
    var c := Begin(v, messages, b);
    BeginIsGood(v, messages, b, o.uuid);
    if i == 0 {
      DriveUnfolds(c, o);
    } else {
      EveryAnswerIsTranscribed(v, messages, b, o, i - 1);
      DriveKeeps(c, o, i - 1);
      DriveFromThere(c, o, i - 1);
      StepTranscribes(Drive(c, o).states[i - 1], o);
    }
  }
}
