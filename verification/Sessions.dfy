/** Sessions over a shared kernel: lifecycle, scope, and the tree that creation, delegation and
    restoring build. */
module Sessions {
  import opened Text
  import opened TaskBoard

  datatype Identity = Identity(
    sessionId: string, runId: string, taskId: string, agentId: string,
    parent: Option<string>, delegationId: Option<string>, depth: nat)

  datatype Task = Task(userRequest: string, context: Payload, metadata: Payload, taskId: string)

  /** A value of the session store: a task envelope or plain data. */
  datatype Val = TaskVal(task: Task) | Plain(json: Json)

  type Store = map<string, Val>

  const CURRENT_TASK := "current_task"
  const LAST_RESULT := "last_result"

  predicate HasTask(data: Store) { CURRENT_TASK in data && data[CURRENT_TASK].TaskVal? }

  /** One session object as a value. */
  datatype SessionView = SessionView(identity: Identity, scope: set<string>, data: Store, closed: bool) {
    predicate Active() { !closed && HasTask(data) }

    /** `complete_task` on an active session. */
    function Closed(outcome: Json): SessionView {
      this.(data := data[LAST_RESULT := Plain(outcome)][CURRENT_TASK := Plain(JNull)], closed := true)
    }
  }

  datatype Event =
    | TaskAccepted(sessionId: string)
    | TaskClosed(sessionId: string, status: string)
    | DelegationStarted(delegationId: string)
    | DelegationProgressed(delegationId: string, sequence: int, eventId: string, artifact: Artifact, status: string)
    | DelegationFinished(delegationId: string, outcome: string)
    | ToolRequested(requestId: string)
    | ToolCompleted(requestId: string)
    | ToolFailed(requestId: string)

  class EventBus {
    var events: seq<Event>

    constructor ()
      ensures events == []
    {
      events := [];
    }

    method Publish(e: Event)
      modifies this
      ensures events == old(events) + [e]
    {
      events := events + [e];
    }
  }

  class KernelSession {
    const bus: EventBus
    const identity: Identity
    const scope: set<string>
    var data: Store
    var closed: bool

    function View(): SessionView
      reads this
    {
      SessionView(identity, scope, data, closed)
    }

    constructor (bus: EventBus, v: SessionView)
      ensures View() == v && this.bus == bus
    {
      this.bus := bus;
      identity, scope, data, closed := v.identity, v.scope, v.data, v.closed;
    }

    /** Closing twice raises; closing once records the outcome and publishes one event. */
    method CompleteTask(outcome: Json, status: string) returns (ok: bool)
      modifies this, bus
      ensures ok == old(View()).Active()
      ensures View() == if ok then old(View()).Closed(outcome) else old(View())
      ensures bus.events == old(bus.events) + if ok then [TaskClosed(identity.sessionId, status)] else []
    {
      ok := !closed && HasTask(data);
      if ok {
        data := data[LAST_RESULT := Plain(outcome)];
        data := data[CURRENT_TASK := Plain(JNull)];
        closed := true;
        bus.Publish(TaskClosed(identity.sessionId, status));
      }
    }
  }

  // ---------------------------------------------------------------- creating and restoring

  /** A requested scope: absent means everything the parent has, an explicit empty set means nothing. */
  function ScopeFor(requested: Option<set<string>>, ceiling: set<string>): Option<set<string>> {
    if requested.None? then Some(ceiling)
    else if requested.value <= ceiling then Some(requested.value)
    else None
  }

  /** Without a run id of its own a root's run is named after its task. */
  function RunOf(runId: Option<string>, task: Task): string {
    if runId.None? || runId.value == "" then task.taskId else runId.value
  }

  function RootView(sid: string, runId: Option<string>, task: Task, agent: string, requested: Option<set<string>>,
    tools: set<string>): Option<SessionView>
  {
    var scope :- ScopeFor(requested, tools);
    Some(SessionView(Identity(sid, RunOf(runId, task), task.taskId, agent, None, None, 0), scope,
                     map[CURRENT_TASK := TaskVal(task)], false))
  }

  function ChildView(parent: SessionView, sid: string, task: Task, target: string, delegationId: string,
    requested: Option<set<string>>): Option<SessionView>
  {
    if !parent.Active() then None
    else
      var scope :- ScopeFor(requested, parent.scope);
      var id := Identity(sid, parent.identity.runId, task.taskId, target, Some(parent.identity.sessionId),
                         Some(delegationId), parent.identity.depth + 1);
      Some(SessionView(id, scope, map[CURRENT_TASK := TaskVal(task)], false))
  }

  /** `restore`: a snapshot without a running task comes back closed. */
  function RestoredView(identity: Identity, data: Store, scope: set<string>, tools: set<string>): Option<SessionView> {
    if scope <= tools then Some(SessionView(identity, scope, data, !HasTask(data))) else None
  }

  class SessionFactory {
    const bus: EventBus
    const tools: set<string>

    constructor (bus: EventBus, tools: set<string>)
      ensures this.bus == bus && this.tools == tools
    {
      this.bus, this.tools := bus, tools;
    }

    method Accept(v: SessionView) returns (s: KernelSession)
      modifies bus
      ensures fresh(s) && s.View() == v && s.bus == bus
      ensures bus.events == old(bus.events) + [TaskAccepted(v.identity.sessionId)]
    {
      s := new KernelSession(bus, v);
      bus.Publish(TaskAccepted(v.identity.sessionId));
    }

    /** Creating a child raises (null) on an inactive parent or a scope wider than the parent's. */
    method CreateChild(parent: KernelSession, sid: string, task: Task, target: string, delegationId: string,
      requested: Option<set<string>>) returns (s: KernelSession?)
      modifies bus
      ensures var v := ChildView(parent.View(), sid, task, target, delegationId, requested);
        && (s != null <==> v.Some?)
        && (s != null ==> fresh(s) && s.View() == v.value && s.bus == bus)
        && bus.events == old(bus.events) + if v.Some? then [TaskAccepted(sid)] else []
    {
      if parent.closed || !HasTask(parent.data) {
        return null;
      }
      var scope := if requested.None? then parent.scope else requested.value;
      if !(scope <= parent.scope) {
        return null;
      }
      var id := Identity(sid, parent.identity.runId, task.taskId, target, Some(parent.identity.sessionId),
                         Some(delegationId), parent.identity.depth + 1);
      s := Accept(SessionView(id, scope, map[CURRENT_TASK := TaskVal(task)], false));
    }

    method CreateRoot(sid: string, runId: Option<string>, task: Task, agent: string, requested: Option<set<string>>)
      returns (s: KernelSession?)
      modifies bus
      ensures var v := RootView(sid, runId, task, agent, requested, tools);
        && (s != null <==> v.Some?)
        && (s != null ==> fresh(s) && s.View() == v.value && s.bus == bus)
        && bus.events == old(bus.events) + if v.Some? then [TaskAccepted(sid)] else []
    {
      var scope := if requested.None? then tools else requested.value;
      if !(scope <= tools) {
        return null;
      }
      var run := if runId.None? || runId.value == "" then task.taskId else runId.value;
      s := Accept(SessionView(Identity(sid, run, task.taskId, agent, None, None, 0), scope, map[CURRENT_TASK := TaskVal(task)], false));
    }

    method Restore(identity: Identity, data: Store, scope: set<string>) returns (s: KernelSession?)
      ensures var v := RestoredView(identity, data, scope, tools);
        && (s != null <==> v.Some?) && (s != null ==> fresh(s) && s.View() == v.value)
    {
      if !(scope <= tools) {
        return null;
      }
      s := new KernelSession(bus, SessionView(identity, scope, data, false));
      if !HasTask(data) {
        s.closed := true;
      }
    }
  }

  /** A session that has just been made runs its own task and holds nothing else. */
  ghost predicate Fresh(v: SessionView, sid: string, task: Task, agent: string) {
    && v.identity.sessionId == sid && v.identity.taskId == task.taskId && v.identity.agentId == agent
    && v.data == map["current_task" := TaskVal(task)] && v.Active()
  }

  /** A root is made if and only if its scope is absent or within the tools. Its run is the caller's, or without one
      its own task's. */
  lemma RootIs(sid: string, runId: Option<string>, task: Task, agent: string, requested: Option<set<string>>, tools: set<string>)
    ensures var v := RootView(sid, runId, task, agent, requested, tools);
      && (v.Some? <==> requested.None? || forall t :: t in requested.value ==> t in tools)
      && (v.Some? ==>
            && Fresh(v.value, sid, task, agent)
            && v.value.identity.runId == (if runId == None || runId == Some("") then task.taskId else runId.value)
            && v.value.identity.depth == 0 && v.value.identity.parent == None && v.value.identity.delegationId == None
            && v.value.scope == if requested == None then tools else requested.value)
  {
  }

  /** A child is made if and only if its parent is active and has all that the child is to have. It belongs to its
      parent's run, names its parent and its delegation, and is one level deeper. */
  lemma ChildIs(parent: SessionView, sid: string, task: Task, target: string, delegationId: string, requested: Option<set<string>>)
    ensures var v := ChildView(parent, sid, task, target, delegationId, requested);
      && (v.Some? <==> parent.Active() && (requested.None? || forall t :: t in requested.value ==> t in parent.scope))
      && (v.Some? ==>
            && Fresh(v.value, sid, task, target)
            && v.value.identity.runId == parent.identity.runId && v.value.identity.depth == parent.identity.depth + 1
            && v.value.identity.parent == Some(parent.identity.sessionId) && v.value.identity.delegationId == Some(delegationId)
            && v.value.scope == if requested == None then parent.scope else requested.value)
  {
  }

  /** A session is active as long as it is not closed and its task is a running one. Closing it leaves the outcome
      in its store, no task, and everything else. */
  lemma ClosedIs(v: SessionView, outcome: Json)
    ensures v.Active() <==> !v.closed && "current_task" in v.data && v.data["current_task"].TaskVal?
    ensures var c := v.Closed(outcome);
      && !c.Active() && c.closed && c.identity == v.identity && c.scope == v.scope
      && c.data == v.data["last_result" := Plain(outcome)]["current_task" := Plain(JNull)]
  {
  }

  // ---------------------------------------------------------------- delegation policy

  datatype Policy = Policy(maxSteps: int, maxDepth: int, capabilities: set<string>)

  /** The engine's own ceilings. */
  datatype Engine = Engine(maxSteps: int, maxDepth: int)

  datatype Verdict = Valid(policy: Policy) | OutOfRange | TooDeep | TooWide

  /** `DelegationPolicyEngine.validate`: here an empty capability set means "inherit". */
  function Validate(engine: Engine, depth: nat, scope: set<string>, p: Policy): Verdict {
    if p.maxSteps < 1 || p.maxSteps > engine.maxSteps then OutOfRange
    else if p.maxDepth < 1 || p.maxDepth > engine.maxDepth then OutOfRange
    else if depth + 1 > p.maxDepth then TooDeep
    else
      var granted := if p.capabilities == {} then scope else p.capabilities;
      if granted <= scope then Valid(Policy(p.maxSteps, p.maxDepth, granted)) else TooWide
  }

  /** When a policy is granted: its bounds lie within the engine's, the child would not be too deep, and the parent has
      every capability asked for. No capabilities asked for means all that the parent has. */
  lemma ValidIff(engine: Engine, depth: nat, scope: set<string>, p: Policy)
    ensures var v := Validate(engine, depth, scope, p);
      var ranged := 1 <= p.maxSteps <= engine.maxSteps && 1 <= p.maxDepth <= engine.maxDepth;
      && (v.OutOfRange? <==> !ranged)
      && (v.TooDeep? <==> ranged && depth >= p.maxDepth)
      && (v.TooWide? <==> ranged && depth < p.maxDepth && exists c :: c in p.capabilities && c !in scope)
      && (v.Valid? ==> v.policy == p.(capabilities := if p.capabilities == {} then scope else p.capabilities))
  {
  }

  /** What the manager creates for a target: policy first, then an explicit scope. */
  function DelegateView(engine: Engine, parent: SessionView, p: Policy, sid: string, task: Task, target: string,
    delegationId: string): Option<SessionView>
  {
    var verdict := Validate(engine, parent.identity.depth, parent.scope, p);
    if verdict.Valid? then ChildView(parent, sid, task, target, delegationId, Some(verdict.policy.capabilities)) else None
  }

  // ---------------------------------------------------------------- the session tree

  /** Anything a program can do with sessions; `owner` and `of` index the session objects it holds. A session
      may be restored from any snapshot, however old, under its identity and any scope. An operation that raises,
      or makes a session under an id in use, changes nothing. */
  datatype Op =
    | Root(sid: string, runId: Option<string>, task: Task, agent: string, requested: Option<set<string>>)
    | Child(owner: nat, sid: string, task: Task, target: string, requested: Option<set<string>>)
    | Delegate(owner: nat, sid: string, task: Task, target: string, policy: Policy)
    | Complete(of: nat, outcome: Json)
    | CallTool(of: nat, tool: string)
    | Restore(of: nat, snapshot: Store, scope: set<string>)

  /** What an object was seen to do: reach the kernel, or gain a child. */
  datatype Deed = Called(who: nat, tool: string) | Bore(who: nat)

  datatype Tree = Tree(objects: seq<SessionView>, managed: seq<bool>, deeds: seq<Deed>) {
    predicate Known(sid: string) { exists i :: 0 <= i < |objects| && objects[i].identity.sessionId == sid }

    function Born(v: Option<SessionView>, byManager: bool, deed: seq<Deed>): Tree {
      if v.None? || Known(v.value.identity.sessionId) then this
      else Tree(objects + [v.value], managed + [byManager], deeds + deed)
    }
  }

  function Apply(t: Tree, op: Op, tools: set<string>, engine: Engine): Tree {
    match op
    case Root(sid, runId, task, agent, requested) => t.Born(RootView(sid, runId, task, agent, requested, tools), false, [])
    case Child(owner, sid, task, target, requested) =>
      if owner >= |t.objects| then t
      else t.Born(ChildView(t.objects[owner], sid, task, target, "", requested), false, [Bore(owner)])
    case Delegate(owner, sid, task, target, policy) =>
      if owner >= |t.objects| then t
      else t.Born(DelegateView(engine, t.objects[owner], policy, sid, task, target, ""), true, [Bore(owner)])
    case Complete(of, outcome) =>
      if of >= |t.objects| || !t.objects[of].Active() then t
      else t.(objects := t.objects[of := t.objects[of].Closed(outcome)])
    case CallTool(of, tool) =>
      if of >= |t.objects| || !t.objects[of].Active() then t
      else t.(deeds := t.deeds + [Called(of, tool)])
    case Restore(of, snapshot, scope) =>
      if of >= |t.objects| then t
      else
        var v := RestoredView(t.objects[of].identity, snapshot, scope, tools);
        if v.None? || |t.managed| <= of then t
        else Tree(t.objects + [v.value], t.managed + [t.managed[of]], t.deeds)
  }

  function ApplyAll(t: Tree, ops: seq<Op>, tools: set<string>, engine: Engine): Tree {
    if ops == [] then t else Apply(ApplyAll(t, ops[..|ops| - 1], tools, engine), ops[|ops| - 1], tools, engine)
  }

  /** `c` is a lawful child of `p`: narrower scope, one level deeper, in the same run. */
  predicate ChildOf(c: SessionView, p: SessionView) {
    c.scope <= p.scope && c.identity.depth == p.identity.depth + 1 && c.identity.runId == p.identity.runId
  }

  predicate Lone(o: SessionView, managed: bool, tools: set<string>, engine: Engine) {
    && o.scope <= tools
    && (o.closed <==> !HasTask(o.data))
    && (o.identity.parent.None? ==> o.identity.depth == 0 && o.identity.delegationId.None?)
    && (managed ==> o.identity.depth <= engine.maxDepth)
  }

  /** Objects of one session agree, and a session fits under its parent. */
  predicate Fits(a: SessionView, b: SessionView) {
    && (a.identity.sessionId == b.identity.sessionId ==> a.identity == b.identity && a.scope == b.scope)
    && (a.identity.parent == Some(b.identity.sessionId) ==> ChildOf(a, b))
  }

  ghost predicate TreeInv(t: Tree, tools: set<string>, engine: Engine) {
    && |t.managed| == |t.objects|
    && (forall i :: 0 <= i < |t.objects| ==> Lone(t.objects[i], t.managed[i], tools, engine))
    && (forall i, j :: 0 <= i < |t.objects| && 0 <= j < |t.objects| ==> Fits(t.objects[i], t.objects[j]))
    && (forall i :: 0 <= i < |t.objects| && t.objects[i].identity.parent.Some? ==> t.Known(t.objects[i].identity.parent.value))
  }

  lemma KnownGrows(t: Tree, u: Tree, sid: string)
    requires t.Known(sid) && |t.objects| <= |u.objects|
    requires forall i :: 0 <= i < |t.objects| ==> u.objects[i].identity == t.objects[i].identity
    ensures u.Known(sid)
  {
    var k :| 0 <= k < |t.objects| && t.objects[k].identity.sessionId == sid;
    assert u.objects[k].identity.sessionId == sid;
  }

  /** One object more, fitting all the others both ways, keeps the tree lawful. */
  lemma PushKeeps(t: Tree, u: Tree, v: SessionView, managed: bool, tools: set<string>, engine: Engine)
    requires TreeInv(t, tools, engine) && u.objects == t.objects + [v] && u.managed == t.managed + [managed]
    requires Lone(v, managed, tools, engine) && Fits(v, v)
    requires forall i :: 0 <= i < |t.objects| ==> Fits(v, t.objects[i]) && Fits(t.objects[i], v)
    requires v.identity.parent.Some? ==> t.Known(v.identity.parent.value)
    ensures TreeInv(u, tools, engine)
  {
    hide Lone, Fits, Tree.Known;
    forall i | 0 <= i < |u.objects| && u.objects[i].identity.parent.Some? ensures u.Known(u.objects[i].identity.parent.value) {
      var o := if i < |t.objects| then t.objects[i] else v;
      KnownGrows(t, u, o.identity.parent.value);
    }
  }

  lemma BornKeeps(t: Tree, v: SessionView, owner: nat, byManager: bool, deed: seq<Deed>, tools: set<string>, engine: Engine)
    requires TreeInv(t, tools, engine) && !v.closed && HasTask(v.data)
    requires v.identity.parent.None? ==> v.identity.depth == 0 && v.identity.delegationId.None? && v.scope <= tools
    requires v.identity.parent.Some? ==>
      owner < |t.objects| && v.identity.parent.value == t.objects[owner].identity.sessionId && ChildOf(v, t.objects[owner])
    requires byManager ==> v.identity.depth <= engine.maxDepth
    ensures TreeInv(t.Born(Some(v), byManager, deed), tools, engine)
  {
    if !t.Known(v.identity.sessionId) {
      if v.identity.parent.Some? {
        assert Lone(t.objects[owner], t.managed[owner], tools, engine) && t.Known(v.identity.parent.value);
      }
      forall i | 0 <= i < |t.objects| ensures Fits(v, t.objects[i]) && Fits(t.objects[i], v) {
        assert t.objects[i].identity.sessionId != v.identity.sessionId;
        if v.identity.parent.Some? { assert Fits(t.objects[i], t.objects[owner]); }
      }
      PushKeeps(t, t.Born(Some(v), byManager, deed), v, byManager, tools, engine);
    }
  }

  /** A restoration takes place under the scope of the session it restores. */
  predicate OwnScope(t: Tree, op: Op, tools: set<string>) {
    op.Restore? && op.of < |t.objects| && op.scope <= tools ==> op.scope == t.objects[op.of].scope
  }

  lemma RestoreKeeps(t: Tree, of: nat, snapshot: Store, tools: set<string>, engine: Engine)
    requires TreeInv(t, tools, engine) && of < |t.objects|
    ensures TreeInv(Apply(t, Restore(of, snapshot, t.objects[of].scope), tools, engine), tools, engine)
  {
    var o := t.objects[of];
    assert Lone(o, t.managed[of], tools, engine) && Fits(o, o);
    var v := RestoredView(o.identity, snapshot, o.scope, tools).value;
    forall i | 0 <= i < |t.objects| ensures Fits(v, t.objects[i]) && Fits(t.objects[i], v) {
      assert Fits(o, t.objects[i]) && Fits(t.objects[i], o);
    }
    PushKeeps(t, Apply(t, Restore(of, snapshot, o.scope), tools, engine), v, t.managed[of], tools, engine);
  }

  lemma CloseKeeps(t: Tree, of: nat, outcome: Json, tools: set<string>, engine: Engine)
    requires TreeInv(t, tools, engine) && of < |t.objects|
    ensures TreeInv(Apply(t, Complete(of, outcome), tools, engine), tools, engine)
  {
    var u := Apply(t, Complete(of, outcome), tools, engine);
    assert forall i :: 0 <= i < |t.objects| ==> u.objects[i].identity == t.objects[i].identity && u.objects[i].scope == t.objects[i].scope;
    forall i | 0 <= i < |u.objects| ensures Lone(u.objects[i], u.managed[i], tools, engine) {
      assert Lone(t.objects[i], t.managed[i], tools, engine);
    }
    forall i, j | 0 <= i < |u.objects| && 0 <= j < |u.objects| ensures Fits(u.objects[i], u.objects[j]) {
      assert Fits(t.objects[i], t.objects[j]);
    }
    forall i | 0 <= i < |u.objects| && u.objects[i].identity.parent.Some? ensures u.Known(u.objects[i].identity.parent.value) {
      KnownGrows(t, u, t.objects[i].identity.parent.value);
    }
  }

  lemma ApplyKeeps(t: Tree, op: Op, tools: set<string>, engine: Engine)
    requires TreeInv(t, tools, engine) && OwnScope(t, op, tools)
    ensures TreeInv(Apply(t, op, tools, engine), tools, engine)
  {
    match op
    case Root(sid, runId, task, agent, requested) =>
      var v := RootView(sid, runId, task, agent, requested, tools);
      if v.Some? { BornKeeps(t, v.value, 0, false, [], tools, engine); }
    case Child(owner, sid, task, target, requested) =>
      if owner < |t.objects| {
        var v := ChildView(t.objects[owner], sid, task, target, "", requested);
        if v.Some? { BornKeeps(t, v.value, owner, false, [Bore(owner)], tools, engine); }
      }
    case Delegate(owner, sid, task, target, policy) =>
      if owner < |t.objects| {
        var v := DelegateView(engine, t.objects[owner], policy, sid, task, target, "");
        if v.Some? { BornKeeps(t, v.value, owner, true, [Bore(owner)], tools, engine); }
      }
    case Complete(of, outcome) => if of < |t.objects| { CloseKeeps(t, of, outcome, tools, engine); }
    case CallTool(of, tool) =>
      if of < |t.objects| && t.objects[of].Active() { CallKeeps(t, t.(deeds := t.deeds + [Called(of, tool)]), tools, engine); }
    case Restore(of, snapshot, scope) => if of < |t.objects| && scope <= tools { RestoreKeeps(t, of, snapshot, tools, engine); }
  }

  lemma CallKeeps(t: Tree, u: Tree, tools: set<string>, engine: Engine)
    requires TreeInv(t, tools, engine) && u == t.(deeds := u.deeds)
    ensures TreeInv(u, tools, engine)
  {
    forall sid | t.Known(sid) ensures u.Known(sid) {
      var k :| 0 <= k < |t.objects| && t.objects[k].identity.sessionId == sid;
      assert u.objects[k].identity.sessionId == sid;
    }
  }

  const EMPTY_TREE := Tree([], [], [])

  /** So does every restoration among these operations. */
  predicate OwnScopes(t: Tree, ops: seq<Op>, tools: set<string>, engine: Engine) {
    ops == [] || (OwnScopes(t, ops[..|ops| - 1], tools, engine)
                  && OwnScope(ApplyAll(t, ops[..|ops| - 1], tools, engine), ops[|ops| - 1], tools))
  }

  ghost predicate AllFit(t: Tree) {
    forall i, j :: 0 <= i < |t.objects| && 0 <= j < |t.objects| ==> Fits(t.objects[i], t.objects[j])
  }

  /** Objects are never given up, and keep identity and scope: what does not fit never will. */
  lemma MisfitStays(t: Tree, op: Op, tools: set<string>, engine: Engine)
    requires !AllFit(t)
    ensures !AllFit(Apply(t, op, tools, engine))
  {
    hide Tree.Known, HasTask, Validate, ChildView, RootView, RestoredView, SessionView.Active;
    var i, j :| 0 <= i < |t.objects| && 0 <= j < |t.objects| && !Fits(t.objects[i], t.objects[j]);
    var u := Apply(t, op, tools, engine);
    assert u.objects[i].identity == t.objects[i].identity && u.objects[i].scope == t.objects[i].scope;
    assert u.objects[j].identity == t.objects[j].identity && u.objects[j].scope == t.objects[j].scope;
    assert !Fits(u.objects[i], u.objects[j]);
  }

  lemma OtherScopeMisfits(t: Tree, op: Op, tools: set<string>, engine: Engine)
    requires TreeInv(t, tools, engine) && !OwnScope(t, op, tools)
    ensures !AllFit(Apply(t, op, tools, engine))
  {
    hide HasTask, Tree.Known;
    var u := Apply(t, op, tools, engine);
    assert u.objects[op.of] == t.objects[op.of] && !Fits(u.objects[op.of], u.objects[|t.objects|]);
  }

  /** After any creations, delegations, completions, tool calls and restorations, the session objects form a
      lawful tree if and only if every session was restored under its own scope: a restoration under another
      scope leaves two objects of one session that may do different things, for good. */
  lemma {:induction false} TreeIsLawful(ops: seq<Op>, tools: set<string>, engine: Engine)
    ensures TreeInv(ApplyAll(EMPTY_TREE, ops, tools, engine), tools, engine) <==> OwnScopes(EMPTY_TREE, ops, tools, engine)
    ensures AllFit(ApplyAll(EMPTY_TREE, ops, tools, engine)) <==> OwnScopes(EMPTY_TREE, ops, tools, engine)
  {
    hide Apply, OwnScope, Fits, Lone;
    if ops != [] {
      var front, op := ops[..|ops| - 1], ops[|ops| - 1];
      var t := ApplyAll(EMPTY_TREE, front, tools, engine);
      TreeIsLawful(front, tools, engine);
      if !OwnScopes(EMPTY_TREE, front, tools, engine) {
        MisfitStays(t, op, tools, engine);
      } else if OwnScope(t, op, tools) {
        ApplyKeeps(t, op, tools, engine);
      } else {
        OtherScopeMisfits(t, op, tools, engine);
      }
    }
  }

  /** Object `i` is an ancestor of object `j`, through parent ids. */
  ghost predicate Ancestor(t: Tree, i: nat, j: nat)
    requires i < |t.objects| && j < |t.objects|
    decreases t.objects[j].identity.depth
  {
    exists k :: 0 <= k < |t.objects| && t.objects[j].identity.parent == Some(t.objects[k].identity.sessionId)
      && t.objects[k].identity.depth < t.objects[j].identity.depth && (k == i || Ancestor(t, i, k))
  }

  lemma {:induction false} AncestorIsWider(t: Tree, i: nat, j: nat, tools: set<string>, engine: Engine)
    requires TreeInv(t, tools, engine) && i < |t.objects| && j < |t.objects| && Ancestor(t, i, j)
    ensures t.objects[j].scope <= t.objects[i].scope && t.objects[i].identity.depth < t.objects[j].identity.depth
    decreases t.objects[j].identity.depth
  {
    var k :| 0 <= k < |t.objects| && t.objects[j].identity.parent == Some(t.objects[k].identity.sessionId)
      && t.objects[k].identity.depth < t.objects[j].identity.depth && (k == i || Ancestor(t, i, k));
    assert Fits(t.objects[j], t.objects[k]);
    if k != i { AncestorIsWider(t, i, k, tools, engine); }
  }

  /** After any operations in any order that restore sessions under their own scopes, no session can do more
      than any of its ancestors or than the registered tools, and one made by the manager is no deeper than the
      engine allows. */
  lemma ScopesOnlyNarrow(ops: seq<Op>, tools: set<string>, engine: Engine, j: nat)
    requires OwnScopes(EMPTY_TREE, ops, tools, engine) && j < |ApplyAll(EMPTY_TREE, ops, tools, engine).objects|
    ensures var t := ApplyAll(EMPTY_TREE, ops, tools, engine);
      && t.objects[j].scope <= tools
      && (forall i: nat :: i < |t.objects| && Ancestor(t, i, j) ==>
            t.objects[j].scope <= t.objects[i].scope && t.objects[i].identity.depth < t.objects[j].identity.depth)
      && (j < |t.managed| && t.managed[j] ==> t.objects[j].identity.depth <= engine.maxDepth)
  {
    var t := ApplyAll(EMPTY_TREE, ops, tools, engine);
    TreeIsLawful(ops, tools, engine);
    assert Lone(t.objects[j], t.managed[j], tools, engine);
    forall i: nat | i < |t.objects| && Ancestor(t, i, j)
      ensures t.objects[j].scope <= t.objects[i].scope && t.objects[i].identity.depth < t.objects[j].identity.depth
    {
      AncestorIsWider(t, i, j, tools, engine);
    }
  }

  /** A session once closed stays closed and does nothing more: whatever follows, it neither reaches
      the kernel nor gains a child. */
  lemma {:induction false} ClosedIsInert(t: Tree, ops: seq<Op>, tools: set<string>, engine: Engine, i: nat)
    requires i < |t.objects| && t.objects[i].closed
    ensures var u := ApplyAll(t, ops, tools, engine);
      && i < |u.objects| && u.objects[i].closed && t.deeds <= u.deeds
      && (forall k :: |t.deeds| <= k < |u.deeds| ==> u.deeds[k].who != i)
  {
    if ops != [] { ClosedIsInert(t, ops[..|ops| - 1], tools, engine, i); }
  }

  // ---------------------------------------------------------------- a closed session and its id

  /** Some object of this session can work. */
  ghost predicate Live(t: Tree, sid: string) { exists i :: 0 <= i < |t.objects| && t.objects[i].identity.sessionId == sid && t.objects[i].Active() }

  /** The session is restored from a snapshot that holds a running task. */
  predicate Wakes(t: Tree, op: Op, tools: set<string>, sid: string) {
    op.Restore? && op.of < |t.objects| && op.scope <= tools && t.objects[op.of].identity.sessionId == sid && HasTask(op.snapshot)
  }

  /** What an operation does to the objects there are, and what an object it adds may be. */
  ghost predicate Moved(t: Tree, u: Tree, op: Op, tools: set<string>) {
    && |t.objects| <= |u.objects| <= |t.objects| + 1 && (|t.managed| == |t.objects| ==> |u.managed| == |u.objects|)
    && (forall i :: 0 <= i < |t.objects| ==>
          u.objects[i].identity == t.objects[i].identity && (u.objects[i].Active() ==> t.objects[i].Active()))
    && (|u.objects| > |t.objects| ==>
          var v := u.objects[|t.objects|];
          if op.Restore? then op.of < |t.objects| && op.scope <= tools && v.identity == t.objects[op.of].identity && (v.Active() <==> HasTask(op.snapshot))
          else !t.Known(v.identity.sessionId))
  }

  lemma ApplyMoves(t: Tree, op: Op, tools: set<string>, engine: Engine)
    ensures Moved(t, Apply(t, op, tools, engine), op, tools)
  {
    hide Tree.Known, HasTask, ScopeFor, Validate;
  }

  lemma RestoreAdds(t: Tree, op: Op, tools: set<string>, engine: Engine)
    requires |t.managed| == |t.objects| && op.Restore? && op.of < |t.objects| && op.scope <= tools
    ensures |Apply(t, op, tools, engine).objects| == |t.objects| + 1
  {
    hide Tree.Known, HasTask;
  }

  /** One operation on a session that nobody can work in: only such a restoration brings it back. */
  lemma LiveAgainIff(t: Tree, op: Op, tools: set<string>, engine: Engine, sid: string)
    requires |t.managed| == |t.objects| && t.Known(sid) && !Live(t, sid)
    ensures Live(Apply(t, op, tools, engine), sid) <==> Wakes(t, op, tools, sid)
    ensures Apply(t, op, tools, engine).Known(sid) && |Apply(t, op, tools, engine).managed| == |Apply(t, op, tools, engine).objects|
  {
    hide Apply, HasTask, SessionView.Active;
    var u := Apply(t, op, tools, engine);
    ApplyMoves(t, op, tools, engine);
    KnownGrows(t, u, sid);
    if Wakes(t, op, tools, sid) {
      RestoreAdds(t, op, tools, engine);
      assert u.objects[|t.objects|].Active();
    }
  }

  /** `k` operations in, the session can be worked in. */
  ghost predicate LiveAfter(t: Tree, ops: seq<Op>, k: nat, tools: set<string>, engine: Engine, sid: string) {
    k <= |ops| && Live(ApplyAll(t, ops[..k], tools, engine), sid)
  }

  ghost predicate WakesAt(t: Tree, ops: seq<Op>, k: nat, tools: set<string>, engine: Engine, sid: string) {
    k < |ops| && Wakes(ApplyAll(t, ops[..k], tools, engine), ops[k], tools, sid)
  }

  /** A session id closed for good, exactly: whatever follows, it is never worked in again if and only if it is
      never restored from a snapshot that holds a running task, such as one taken before it was closed. */
  lemma ClosedIdWakesIff(t: Tree, ops: seq<Op>, tools: set<string>, engine: Engine, sid: string)
    requires |t.managed| == |t.objects| && t.Known(sid) && !Live(t, sid)
    ensures (exists k: nat :: LiveAfter(t, ops, k, tools, engine, sid)) <==> (exists k: nat :: WakesAt(t, ops, k, tools, engine, sid))
  {
    hide ApplyAll, Live, Wakes, Tree.Known;
    if forall k: nat :: !WakesAt(t, ops, k, tools, engine, sid) {
      forall k: nat ensures !LiveAfter(t, ops, k, tools, engine, sid) {
        if k <= |ops| { NeverWoken(t, ops, k, tools, engine, sid); }
      }
    } else {
      FirstWaking(t, ops, |ops|, tools, engine, sid);
      var k: nat :| WakesAt(t, ops, k, tools, engine, sid) && forall j: nat :: j < k ==> !WakesAt(t, ops, j, tools, engine, sid);
      NeverWoken(t, ops, k, tools, engine, sid);
      LiveAgainIff(ApplyAll(t, ops[..k], tools, engine), ops[k], tools, engine, sid);
      OneOpMore(t, ops, k, tools, engine);
      assert LiveAfter(t, ops, k + 1, tools, engine, sid);
    }
  }

  lemma OneOpMore(t: Tree, ops: seq<Op>, k: nat, tools: set<string>, engine: Engine)
    requires k < |ops|
    ensures ApplyAll(t, ops[..k + 1], tools, engine) == Apply(ApplyAll(t, ops[..k], tools, engine), ops[k], tools, engine)
  {
    assert ops[..k + 1][..k] == ops[..k];
  }

  lemma {:induction false} NeverWoken(t: Tree, ops: seq<Op>, k: nat, tools: set<string>, engine: Engine, sid: string)
    requires |t.managed| == |t.objects| && t.Known(sid) && !Live(t, sid)
    requires k <= |ops| && forall j: nat :: j < k ==> !WakesAt(t, ops, j, tools, engine, sid)
    ensures var u := ApplyAll(t, ops[..k], tools, engine); |u.managed| == |u.objects| && u.Known(sid) && !Live(u, sid)
  {
    hide Live, Tree.Known, Apply;
    if k > 0 {
      NeverWoken(t, ops, k - 1, tools, engine, sid);
      assert !WakesAt(t, ops, k - 1, tools, engine, sid);
      var u := ApplyAll(t, ops[..k - 1], tools, engine);
      OneOpMore(t, ops, k - 1, tools, engine);
      LiveAgainIff(u, ops[k - 1], tools, engine, sid);
    }
  }

  lemma {:induction false} FirstWaking(t: Tree, ops: seq<Op>, n: nat, tools: set<string>, engine: Engine, sid: string)
    requires n <= |ops| && exists k: nat :: k < n && WakesAt(t, ops, k, tools, engine, sid)
    ensures exists k: nat :: WakesAt(t, ops, k, tools, engine, sid) && forall j: nat :: j < k ==> !WakesAt(t, ops, j, tools, engine, sid)
  {
    hide WakesAt;
    if exists k: nat :: k < n - 1 && WakesAt(t, ops, k, tools, engine, sid) { FirstWaking(t, ops, n - 1, tools, engine, sid); }
  }
}
