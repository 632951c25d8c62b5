/** In which order a round runs its turns, and whose they are: the order of the decision, each agent once. */
module RoundOrder {
  import opened Text
  import opened TaskBoard
  import opened Departments
  import opened CommandBridge
  import opened Rounds
  import opened Turns
  import opened BoardInvariants

  /** The agents that run for one call of the decision. Without a registry nobody runs for a department. */
  function RunsFor(a: Assignment, registry: Option<seq<Role>>, selected: set<string>): seq<string> {
    match a.kind
    case AgentTarget => [a.agent]
    case DepartmentTarget => if registry.None? then [] else Among(MembersOf(registry.value, a.agent), selected)
  }

  /** The agents a decision reaches, call by call. */
  function Reached(calls: seq<Assignment>, registry: Option<seq<Role>>, selected: set<string>): seq<string> {
    if calls == [] then [] else RunsFor(calls[0], registry, selected) + Reached(calls[1..], registry, selected)
  }

  function Agents(calls: seq<Assignment>): (s: seq<string>)
    ensures |s| == |calls| && forall i :: 0 <= i < |calls| ==> s[i] == calls[i].agent
  {
    seq(|calls|, i requires 0 <= i < |calls| => calls[i].agent)
  }

  /** The places at which an agent is reached for the first time that has no turn yet, in order. */
  function Due(s: seq<string>, done: set<string>): (r: seq<nat>)
    ensures forall i: nat :: i in r <==> i < |s| && s[i] !in done && s[i] !in s[..i]
    ensures forall j, k :: 0 <= j < k < |r| ==> r[j] < r[k]
    ensures forall j :: 0 <= j < |r| ==> r[j] < |s|
  {
    if s == [] then []
    else
      var n := |s| - 1;
      assert forall i :: 0 <= i < n ==> s[..n][i] == s[i] && s[..n][..i] == s[..i];
      var f := Due(s[..n], done);
      if s[n] in done || s[n] in s[..n] then f else f + [n]
  }

  lemma {:induction false} AgentCallsConcat(a: seq<Assignment>, b: seq<Assignment>)
    ensures AgentCalls(a + b) == AgentCalls(a) + AgentCalls(b)
  {
    if b == [] {
      assert a + b == a;
    } else {
      assert (a + b)[..|a + b| - 1] == a + b[..|b| - 1];
      AgentCallsConcat(a, b[..|b| - 1]);
    }
  }

  /** What runs is what the decision reaches, in its order. */
  lemma {:induction false} CallsAreReached(b: Board, d: Decision, w: World)
    ensures Agents(RoundCalls(b, d, w).expanded) == Reached(d.calls, w.registry, Selected(b))
    decreases |d.calls|
  {
    hide MembersOf, Expand, AgentCalls;
    if d.calls == [] {
      NoCalls(b, d, w);
    } else {
      var a, rest := d.calls[0], d.(calls := d.calls[1..]);
      CallsAreReached(b, rest, w);
      assert d.calls == [a] + d.calls[1..];
      AgentCallsConcat([a], d.calls[1..]);
      OneAgentCall(a);
      if w.registry.Some? {
        ExpandConcat([a], d.calls[1..], w.registry.value, Selected(b));
        OneCall(a, w.registry.value, Selected(b));
      }
    }
  }

  lemma NoCalls(b: Board, d: Decision, w: World)
    requires d.calls == []
    ensures RoundCalls(b, d, w).expanded == []
  {
  }

  lemma OneAgentCall(a: Assignment)
    ensures AgentCalls([a]) == if a.kind.AgentTarget? then [a] else []
  {
    assert [a][..0] == [];
  }

  /** The turns of a batch, as they are recorded. */
  ghost predicate Recorded(b: Board, c: Board, calls: seq<Assignment>, at: seq<nat>, w: World) {
    && b.turns <= c.turns && |c.turns| == |b.turns| + |at|
    && forall j :: 0 <= j < |at| ==> at[j] < |calls| && TurnFor(c.turns[|b.turns| + j], calls[at[j]], b.round, w.turn(b.round, at[j]))
  }

  /** The turn is that call's, and its summary is the outcome its worker reported. */
  ghost predicate TurnFor(t: Turn, a: Assignment, round: int, reply: TurnReply) {
    t.agent == a.agent && t.round == round && reply.Packet? && reply.target == a.agent && reply.worker.Worker? && t.summary == reply.worker.outcome
  }

  lemma {:induction false} TurnsInOrder(b: Board, done: set<string>, calls: seq<Assignment>, k: nat, w: World)
    requires k <= |calls|
    ensures var p := AllTurns(Progress(b, done, [], false), calls, k, w); !p.raised ==>
      && p.done == done + (set i | 0 <= i < k :: calls[i].agent)
      && Recorded(b, p.board, calls, Due(Agents(calls[..k]), done), w) && p.board.round == b.round
  {
    hide TurnBoard, Due, Recorded, Broken, Agents;
    var p0 := Progress(b, done, [], false);
    if k == 0 {
      NothingDue(b, done, calls, w);
    } else {
      TurnsInOrder(b, done, calls, k - 1, w);
      var q, agent, reply := AllTurns(p0, calls, k - 1, w), calls[k - 1].agent, w.turn(b.round, k - 1);
      if !q.raised && !AllTurns(p0, calls, k, w).raised {
        OneMoreDue(calls, k, done);
        if agent !in q.done {
          assert !Broken(agent, reply);
          WorkerTurns(q.board, agent, reply);
          RecordedPush(b, q.board, TurnBoard(q.board, agent, reply.body, reply.worker), calls, Due(Agents(calls[..k - 1]), done), k - 1, w);
        }
      }
    }
  }

  lemma RecordedPush(b: Board, q: Board, c: Board, calls: seq<Assignment>, at: seq<nat>, n: nat, w: World)
    requires Recorded(b, q, calls, at, w) && n < |calls|
    requires q.turns <= c.turns && |c.turns| == |q.turns| + 1 && TurnFor(c.turns[|q.turns|], calls[n], b.round, w.turn(b.round, n))
    ensures Recorded(b, c, calls, at + [n], w)
  {
    hide TurnFor;
    var all := at + [n];
    forall j | 0 <= j < |all| ensures all[j] < |calls| && TurnFor(c.turns[|b.turns| + j], calls[all[j]], b.round, w.turn(b.round, all[j])) {
      if j < |at| { assert all[j] == at[j] && c.turns[|b.turns| + j] == q.turns[|b.turns| + j]; }
    }
  }

  lemma NothingDue(b: Board, done: set<string>, calls: seq<Assignment>, w: World)
    ensures Recorded(b, b, calls, Due(Agents(calls[..0]), done), w)
  {
    assert Agents(calls[..0]) == [];
  }

  lemma OneMoreDue(calls: seq<Assignment>, k: nat, done: set<string>)
    requires 0 < k <= |calls|
    ensures var f, s := Agents(calls[..k - 1]), calls[k - 1].agent;
      Due(Agents(calls[..k]), done)
        == if s in done || s in (set i | 0 <= i < k - 1 :: calls[i].agent) then Due(f, done) else Due(f, done) + [k - 1]
  {
    assert Agents(calls[..k])[..k - 1] == Agents(calls[..k - 1]);
    SeenBefore(calls, k - 1, calls[k - 1].agent);
  }

  lemma SeenBefore(calls: seq<Assignment>, n: nat, agent: string)
    requires n <= |calls|
    ensures agent in Agents(calls[..n]) <==> agent in (set i | 0 <= i < n :: calls[i].agent)
  {
    var f := Agents(calls[..n]);
    if agent in f {
      var i :| 0 <= i < |f| && f[i] == agent;
      assert calls[i].agent == agent;
    }
    if i :| 0 <= i < n && calls[i].agent == agent { assert f[i] == agent; }
  }

  lemma WorkerTurns(b: Board, agent: string, reply: TurnReply)
    requires !Broken(agent, reply)
    ensures reply.Packet? && reply.target == agent && reply.worker.Worker?
    ensures var c := TurnBoard(b, agent, reply.body, reply.worker);
      c.round == b.round && |c.turns| == |b.turns| + 1 && b.turns <= c.turns
      && c.turns[|b.turns|].agent == agent && c.turns[|b.turns|].round == b.round && c.turns[|b.turns|].summary == reply.worker.outcome
  {
    hide AddWorkerArtifacts;
    WorkerClock(b.WithArtifact(NextId(CONTEXT_PACKET, b), reply.body), agent, reply.worker.artifacts);
  }

  /** A completed round adds the turns of the agents that the decision reaches and that had none yet: once each, in
      the order in which it first reaches them, each with the outcome its own worker reported. */
  lemma RoundRunsInOrder(b: Board, d: Decision, w: World)
    requires !RunRoundOn(b, d, w).raised
    ensures var c, agents := RunRoundOn(b, d, w).board, Reached(d.calls, w.registry, Selected(b));
      var at, calls := Due(agents, DoneThisRound(b)), RoundCalls(b, d, w).expanded;
      && Agents(calls) == agents && Recorded(b, c, calls, at, w)
      && (forall j :: 0 <= j < |at| ==> c.turns[|b.turns| + j].agent == agents[at[j]])
      && |RunRoundOn(b, d, w).saves| == |at|
  {
    hide AllTurns, Due, EnqueueAll, Authorised, MembersOf, Expand, AgentCalls;
    CallsAreReached(b, d, w);
    var e := RoundCalls(b, d, w);
    var q := EnqueueAll(b, AddIntents(e.toAdmit)).value;
    TurnsInOrder(q, DoneThisRound(b), e.expanded, |e.expanded|, w);
    SavedEach(q, DoneThisRound(b), e.expanded, |e.expanded|, w);
    assert e.expanded[..|e.expanded|] == e.expanded;
    assert q.turns == b.turns && q.round == b.round;
  }

  /** Each turn is checkpointed. */
  lemma {:induction false} SavedEach(b: Board, done: set<string>, calls: seq<Assignment>, k: nat, w: World)
    requires k <= |calls|
    ensures var p := AllTurns(Progress(b, done, [], false), calls, k, w); !p.raised ==> |p.board.turns| == |b.turns| + |p.saves|
  {
    hide TurnBoard, Broken;
    if k > 0 {
      SavedEach(b, done, calls, k - 1, w);
      var q, agent, reply := AllTurns(Progress(b, done, [], false), calls, k - 1, w), calls[k - 1].agent, w.turn(b.round, k - 1);
      if !Broken(agent, reply) { WorkerTurns(q.board, agent, reply); }
    }
  }
}
