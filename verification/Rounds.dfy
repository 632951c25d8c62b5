/** The supervisor's nodes on the Blackboard: compose, expand, run a round, run tools, judge. */
module Rounds {
  import opened Text
  import opened TaskBoard
  import opened Departments
  import opened CommandBridge

  // ---------------------------------------------------------------- what the outside answers

  datatype TargetKind = AgentTarget | DepartmentTarget

  /** A call as it is written; whether its capabilities can be listed shows when the decision is read. */
  datatype Assignment = Assignment(agent: string, objective: string, scope: string, capabilities: Json, kind: TargetKind)

  datatype ToolRequest = ToolRequest(tool: string, args: Payload)

  /** A row of the acceptance report; nothing checks what stands under `evidence_ids`. */
  datatype AcceptanceRow = AcceptanceRow(id: string, status: string, evidence: Json)

  /** Truthy, and nothing one can iterate over. */
  predicate Unlistable(j: Json) { Truthy(j) && !Iterable(j) }

  /** What the host language makes of other values where a text is wanted, and the order of a mapping's keys. */
  datatype Host = Host(str: Json -> string, keys: Payload -> seq<string>)

  function AsText(j: Json, host: Host): string { if j.JStr? then j.s else host.str(j) }

  /** `[str(e) for e in (j or [])]`; an iterated text yields its characters. */
  function Listed(j: Json, host: Host): seq<string> {
    if !Truthy(j) then []
    else match j
      case JArr(items) => seq(|items|, i requires 0 <= i < |items| => AsText(items[i], host))
      case JStr(s) => seq(|s|, i requires 0 <= i < |s| => [s[i]])
      case JObj(fields) => host.keys(fields)
      case _ => []
  }

  /** Of all values only `true` and the numbers other than zero cannot be listed. */
  lemma UnlistableIff(j: Json)
    ensures Unlistable(j) <==> j == JBool(true) || (j.JInt? && j.n != 0)
  {
    FalsyIff(j);
  }

  /** What the listed values come to: a list its items as texts, a text its characters, a mapping its keys. A list of
      texts is listed as it is. */
  lemma ListedIs(j: Json, xs: seq<string>, host: Host)
    ensures Listed(EncodeAll(xs, EncodeStr), host) == xs
    ensures j.JArr? ==> |Listed(j, host)| == |j.items| && forall i :: 0 <= i < |j.items| ==>
      Listed(j, host)[i] == if j.items[i].JStr? then j.items[i].s else host.str(j.items[i])
    ensures j.JStr? ==> |Listed(j, host)| == |j.s| && forall i :: 0 <= i < |j.s| ==> Listed(j, host)[i] == [j.s[i]]
    ensures j.JObj? && j.fields != map[] ==> Listed(j, host) == host.keys(j.fields)
    ensures j == JObj(map[]) || j.JNull? || j.JBool? || j.JInt? ==> Listed(j, host) == []
  {
    var l := EncodeAll(xs, EncodeStr);
    assert forall i :: 0 <= i < |xs| ==> l.items[i] == JStr(xs[i]);
    if xs == [] { assert l.items == []; }
  }

  datatype DecisionKind = Continue | NeedTool | Finish | Block | Fail

  datatype Decision = Decision(
    kind: DecisionKind, calls: seq<Assignment>, tools: seq<ToolRequest>, acceptance: seq<AcceptanceRow>,
    reason: string, finalOutput: Option<Payload>, commands: seq<Intent>)

  /** What the delegation service answers for one assignment, or that it raises. */
  datatype WorkerReply = WorkerRaises | Worker(outcome: string, artifacts: seq<Artifact>, summary: Json, record: Payload)

  /** What the broker writes for one assignment, then what the worker does with it. */
  datatype TurnReply = BrokerRaises | Packet(target: string, body: Payload, worker: WorkerReply)

  /** The wording of the loop's own stop reasons. */
  datatype Wording = Wording(
    maxRounds: string, parseBudget: string, allPassed: string, denied: string,
    noProgress: string, repeated: string, blocked: string, failed: string)

  /** Everything outside one drive of the loop. Each question is asked at most once in a drive: the
      attempt-th decision of a round, the i-th assignment of a round, the i-th tool of a round. A reply
      is thus free to depend on the whole history. `decide` is None where the reply does not parse. */
  datatype World = World(
    registry: Option<seq<Role>>, types: CommandTypes,
    decide: (int, nat) -> Option<Decision>,
    turn: (int, nat) -> TurnReply,
    tool: (int, nat) -> Payload,
    text: Wording, host: Host)
  {
    function Catalog(): set<string> {
      if registry.None? then {} else set r | r in registry.value :: r.name
    }
  }

  // ---------------------------------------------------------------- generated ids

  const SESSION_PLAN := "session_plan"
  const CONTEXT_PACKET := "context_packet"
  const DELEGATION_RESULT := "delegation_result"
  const TOOL_RESULT := "tool_result"

  function Gen(prefix: string, n: nat): string { prefix + "-" + Pad4(n) }

  /** `_next_id`. */
  function NextId(prefix: string, b: Board): string { Gen(prefix, |b.artifacts|) }

  predicate Prefix(p: string) { p in {SESSION_PLAN, CONTEXT_PACKET, DELEGATION_RESULT, TOOL_RESULT} }

  /** `id` is what the loop itself would generate at artifact count `n`. */
  ghost predicate IsGen(id: string, n: nat) { exists p :: Prefix(p) && id == Gen(p, n) }

  lemma GenInjective(p: string, m: nat, q: string, n: nat)
    requires Gen(p, m) == Gen(q, n)
    ensures p == q && m == n
  {
    assert forall c :: c in Pad4(m) ==> IsDigit(c);
    assert forall c :: c in Pad4(n) ==> IsDigit(c);
    SplitAtLast(p, Pad4(m), q, Pad4(n), '-');
    Pad4Injective(m, n);
  }

  lemma GeneratedHasHyphen(id: string, n: nat)
    requires IsGen(id, n)
    ensures '-' in id
  {
    var p :| Prefix(p) && id == Gen(p, n);
    assert Gen(p, n)[|p|] == '-';
  }

  /** Every id of the loop's own shape on the board carries a number below the artifact count. */
  ghost predicate IdsBounded(b: Board) {
    forall id: string, n: nat :: id in b.artifacts && IsGen(id, n) ==> n < |b.artifacts|
  }

  /** Between the two boards no record of the loop's own shape was overwritten, nor any under a guarded id. */
  ghost predicate KeepsRecords(b: Board, c: Board, guarded: set<string>) {
    b.artifacts.Keys <= c.artifacts.Keys
    && |b.artifacts| <= |c.artifacts|
    && (forall id: string, n: nat :: id in b.artifacts && IsGen(id, n) ==> c.artifacts[id] == b.artifacts[id])
    && (forall id :: id in b.artifacts && id in guarded ==> c.artifacts[id] == b.artifacts[id])
  }

  /** Nothing at all was overwritten. */
  ghost predicate KeepsAll(b: Board, c: Board) {
    b.artifacts.Keys <= c.artifacts.Keys && forall id :: id in b.artifacts ==> c.artifacts[id] == b.artifacts[id]
  }

  /** A generated id belongs to one count only. */
  lemma OneCountPerId(id: string, m: nat, n: nat)
    requires IsGen(id, m) && IsGen(id, n)
    ensures m == n
  {
    var p :| Prefix(p) && id == Gen(p, m);
    var q :| Prefix(q) && id == Gen(q, n);
    GenInjective(p, m, q, n);
  }

  lemma NextIsGenerated(prefix: string, b: Board)
    requires Prefix(prefix)
    ensures IsGen(NextId(prefix, b), |b.artifacts|)
  {
  }

  lemma OneMore<V>(m: map<string, V>, id: string, v: V)
    ensures |m[id := v]| == |m| + (if id in m then 0 else 1)
  {
    assert m[id := v].Keys == m.Keys + {id};
  }

  /** A new id that is none of the loop's own above the count keeps ids bounded and records whole. */
  lemma AddKeeps(b: Board, id: string, payload: Payload, guarded: set<string>)
    requires IdsBounded(b) && (forall n: nat :: IsGen(id, n) ==> n == |b.artifacts| && id !in b.artifacts)
    requires id in guarded ==> id !in b.artifacts
    ensures IdsBounded(b.WithArtifact(id, payload)) && KeepsRecords(b, b.WithArtifact(id, payload), guarded)
  {
    hide IsGen;
    OneMore(b.artifacts, id, payload);
  }

  /** A generated id is fresh, so adding under it grows the board by one and overwrites nothing. */
  lemma NextIdIsFresh(prefix: string, b: Board, payload: Payload)
    requires Prefix(prefix) && IdsBounded(b)
    ensures NextId(prefix, b) !in b.artifacts
    ensures var c := b.WithArtifact(NextId(prefix, b), payload);
      IdsBounded(c) && KeepsAll(b, c) && |c.artifacts| == |b.artifacts| + 1
  {
    hide IsGen, NextId, Prefix, KeepsRecords;
    var id := NextId(prefix, b);
    NextIsGenerated(prefix, b);
    forall n: nat | IsGen(id, n) ensures n == |b.artifacts| { OneCountPerId(id, n, |b.artifacts|); }
    AddKeeps(b, id, payload, {});
    OneMore(b.artifacts, id, payload);
  }

  lemma KeepsAllKeepsRecords(b: Board, c: Board, guarded: set<string>)
    requires KeepsAll(b, c) && |b.artifacts| <= |c.artifacts|
    ensures KeepsRecords(b, c, guarded)
  {
    hide IsGen;
  }

  lemma ForeignIdIsHarmless(id: string, b: Board, payload: Payload, guarded: set<string>)
    requires IdsBounded(b) && id !in guarded && forall n :: !IsGen(id, n)
    ensures IdsBounded(b.WithArtifact(id, payload)) && KeepsRecords(b, b.WithArtifact(id, payload), guarded)
  {
    hide IdsBounded, IsGen, KeepsRecords;
    AddKeeps(b, id, payload, guarded);
  }

  // ---------------------------------------------------------------- compose_team

  function Composed(b: Board, plan: seq<string>, record: Payload, catalog: set<string>): Option<Board> {
    if plan == [] || !Distinct(plan) then None
    else if catalog != {} && exists a :: a in plan && a !in catalog then None
    else Some(b.WithArtifact(NextId(SESSION_PLAN, b), record).(roster := plan, status := TeamSelected))
  }

  /** `compose_team`: an empty, duplicated or unknown selection raises before the board changes. */
  method ComposeTeam(state: TaskLoopState, plan: seq<string>, record: Payload, catalog: set<string>) returns (ok: bool)
    modifies state
    ensures ok <==> Composed(old(state.View()), plan, record, catalog).Some?
    ensures state.View() == (if ok then Composed(old(state.View()), plan, record, catalog).value else old(state.View()))
  {
    ok := plan != [] && Distinct(plan);
    if ok && catalog != {} {
      ok := forall a | a in plan :: a in catalog;
    }
    if ok {
      state.roster := plan;
      state.AddArtifact(NextId(SESSION_PLAN, state.View()), record);
      state.status := TeamSelected;
    }
  }

  /** Which selections make a team: some agents, each once, all in the catalog if there is one. The plan's record then
      stands under the next number, and nothing else has changed but roster and status. */
  lemma ComposedIff(b: Board, plan: seq<string>, record: Payload, catalog: set<string>)
    ensures Composed(b, plan, record, catalog).Some? <==>
      && plan != [] && (forall i, j :: 0 <= i < j < |plan| ==> plan[i] != plan[j])
      && (catalog != {} ==> forall a :: a in plan ==> a in catalog)
    ensures Composed(b, plan, record, catalog).Some? ==>
      Composed(b, plan, record, catalog).value
      == b.(roster := plan, status := TeamSelected, artifacts := b.artifacts["session_plan-" + Pad4(|b.artifacts|) := record])
  {
    assert SESSION_PLAN + "-" == "session_plan-";
  }

  /** The catalog is the names of the registered roles. Without a registry there is none: any agents make a team, and
      nobody joins one. */
  lemma CatalogIs(w: World, a: string, b: Board, plan: seq<string>, record: Payload)
    ensures w.registry.Some? ==> (a in w.Catalog() <==> exists d :: Role(a, d) in w.registry.value)
    ensures w.registry.None? ==> (Composed(b, plan, record, w.Catalog()).Some? <==> plan != [] && Distinct(plan))
    ensures w.registry.None? && QueueInv(b) ==>
      Apply(b, w.types, w.Catalog()).Some? && (a in Apply(b, w.types, w.Catalog()).value.roster <==> a in b.roster)
  {
    hide Apply;
    if w.registry.Some? && a in w.Catalog() {
      var r :| r in w.registry.value && r.name == a;
      assert Role(a, r.department) in w.registry.value;
    }
    if w.registry.None? && QueueInv(b) {
      ApplyKeepsInv(b, w.types, w.Catalog());
    }
  }

  // ---------------------------------------------------------------- expand_departments

  datatype Expansion = Expansion(expanded: seq<Assignment>, toAdmit: seq<string>, rejected: seq<string>)

  function ForMember(a: Assignment, m: string): Assignment { a.(agent := m, kind := AgentTarget) }

  /** One department call against the roster, member by member. */
  function ExpandMembers(e: Expansion, a: Assignment, members: seq<string>, selected: set<string>): Expansion {
    if members == [] then e
    else
      var f, m := ExpandMembers(e, a, members[..|members| - 1], selected), members[|members| - 1];
      if m in selected then f.(expanded := f.expanded + [ForMember(a, m)]) else f.(toAdmit := f.toAdmit + [m])
  }

  function ExpandOne(e: Expansion, a: Assignment, roles: seq<Role>, selected: set<string>): Expansion {
    if a.kind.AgentTarget? then e.(expanded := e.expanded + [a])
    else
      var members := MembersOf(roles, a.agent);
      if members == [] then e.(rejected := e.rejected + [a.agent])
      else ExpandMembers(e, a, members, selected)
  }

  function Expand(calls: seq<Assignment>, roles: seq<Role>, selected: set<string>): Expansion {
    if calls == [] then Expansion([], [], [])
    else ExpandOne(Expand(calls[..|calls| - 1], roles, selected), calls[|calls| - 1], roles, selected)
  }

  method ExpandDepartments(calls: seq<Assignment>, roles: seq<Role>, selected: set<string>) returns (e: Expansion)
    ensures e == Expand(calls, roles, selected)
  {
    e := Expansion([], [], []);
    for i := 0 to |calls|
      invariant e == Expand(calls[..i], roles, selected)
    {
      assert calls[..i + 1][..i] == calls[..i];
      if calls[i].kind.AgentTarget? {
        e := e.(expanded := e.expanded + [calls[i]]);
        continue;
      }
      var members := MembersOf(roles, calls[i].agent);
      if members == [] {
        e := e.(rejected := e.rejected + [calls[i].agent]);
        continue;
      }
      ghost var e0 := e;
      for j := 0 to |members|
        invariant e == ExpandMembers(e0, calls[i], members[..j], selected)
      {
        assert members[..j + 1][..j] == members[..j];
        if members[j] in selected {
          e := e.(expanded := e.expanded + [ForMember(calls[i], members[j])]);
        } else {
          e := e.(toAdmit := e.toAdmit + [members[j]]);
        }
      }
      assert members[..|members|] == members;
    }
    assert calls[..|calls|] == calls;
  }

  /** Some department call of the batch has `m` among its members. */
  ghost predicate DepartmentMember(calls: seq<Assignment>, roles: seq<Role>, m: string) {
    exists i :: 0 <= i < |calls| && calls[i].kind.DepartmentTarget? && Role(m, calls[i].agent) in roles
  }

  /** `x` is an agent call of the batch, or a selected member's copy of a department call. */
  ghost predicate Sanctioned(calls: seq<Assignment>, roles: seq<Role>, selected: set<string>, x: Assignment) {
    (x in calls && x.kind.AgentTarget?)
    || exists i :: 0 <= i < |calls| && calls[i].kind.DepartmentTarget? && x.agent in selected
         && Role(x.agent, calls[i].agent) in roles && x == ForMember(calls[i], x.agent)
  }

  lemma {:induction false} ExpandMembersExact(e: Expansion, a: Assignment, members: seq<string>, selected: set<string>)
    ensures var f := ExpandMembers(e, a, members, selected);
      && f.rejected == e.rejected
      && (forall x :: x in f.expanded <==> (x in e.expanded || (x.agent in members && x.agent in selected && x == ForMember(a, x.agent))))
      && (forall m :: m in f.toAdmit <==> (m in e.toAdmit || (m in members && m !in selected)))
  {
    if members != [] {
      var front, m := members[..|members| - 1], members[|members| - 1];
      assert members == front + [m];
      ExpandMembersExact(e, a, front, selected);
      var f := ExpandMembers(e, a, front, selected);
      assert ForMember(a, m).agent == m;
    }
  }

  /** Expansion loses nobody and invents nobody: the calls that run are exactly the sanctioned ones,
      each with the scope its own call granted, and the members to admit are exactly the absent ones. */
  lemma {:induction false} ExpandExact(calls: seq<Assignment>, roles: seq<Role>, selected: set<string>)
    ensures var e := Expand(calls, roles, selected);
      && (forall x :: x in e.expanded <==> Sanctioned(calls, roles, selected, x))
      && (forall m :: m in e.toAdmit <==> (m !in selected && DepartmentMember(calls, roles, m)))
  {
    if calls != [] {
      var front, a := calls[..|calls| - 1], calls[|calls| - 1];
      assert calls == front + [a];
      ExpandExact(front, roles, selected);
      var e0, e := Expand(front, roles, selected), Expand(calls, roles, selected);
      var members := MembersOf(roles, a.agent);
      ExpandMembersExact(e0, a, members, selected);
      forall x ensures x in e.expanded <==> Sanctioned(calls, roles, selected, x) {
        SanctionedPush(front, a, roles, selected, x);
      }
      forall m ensures m in e.toAdmit <==> (m !in selected && DepartmentMember(calls, roles, m)) {
        MemberPush(front, a, roles, m);
      }
    }
  }

  lemma SanctionedPush(front: seq<Assignment>, a: Assignment, roles: seq<Role>, selected: set<string>, x: Assignment)
    ensures Sanctioned(front + [a], roles, selected, x) <==>
      (Sanctioned(front, roles, selected, x)
       || (a.kind.AgentTarget? && x == a)
       || (a.kind.DepartmentTarget? && x.agent in selected && Role(x.agent, a.agent) in roles && x == ForMember(a, x.agent)))
  {
    var calls := front + [a];
    assert calls[|front|] == a && calls[..|front|] == front;
    assert forall i :: 0 <= i < |front| ==> calls[i] == front[i];
  }

  lemma MemberPush(front: seq<Assignment>, a: Assignment, roles: seq<Role>, m: string)
    ensures DepartmentMember(front + [a], roles, m) <==>
      (DepartmentMember(front, roles, m) || (a.kind.DepartmentTarget? && Role(m, a.agent) in roles))
  {
    var calls := front + [a];
    assert calls[|front|] == a && calls[..|front|] == front;
    assert forall i :: 0 <= i < |front| ==> calls[i] == front[i];
  }

  // ---------------------------------------------------------------- in the order of the decision

  function Appended(e: Expansion, f: Expansion): Expansion {
    Expansion(e.expanded + f.expanded, e.toAdmit + f.toAdmit, e.rejected + f.rejected)
  }

  lemma {:induction false} MembersAppend(e: Expansion, a: Assignment, members: seq<string>, selected: set<string>)
    ensures ExpandMembers(e, a, members, selected) == Appended(e, ExpandMembers(Expansion([], [], []), a, members, selected))
  {
    if members == [] {
      assert e == Appended(e, Expansion([], [], []));
    } else {
      var front, m := members[..|members| - 1], members[|members| - 1];
      MembersAppend(e, a, front, selected);
      var f := ExpandMembers(Expansion([], [], []), a, front, selected);
      assert e.expanded + (f.expanded + [ForMember(a, m)]) == e.expanded + f.expanded + [ForMember(a, m)];
      assert e.toAdmit + (f.toAdmit + [m]) == e.toAdmit + f.toAdmit + [m];
    }
  }

  lemma OneAppends(e: Expansion, a: Assignment, roles: seq<Role>, selected: set<string>)
    ensures ExpandOne(e, a, roles, selected) == Appended(e, Expand([a], roles, selected))
  {
    hide ExpandMembers, MembersOf;
    assert [a][..0] == [];
    assert Expand([a], roles, selected) == ExpandOne(Expansion([], [], []), a, roles, selected);
    MembersAppend(e, a, MembersOf(roles, a.agent), selected);
  }

  /** A batch is expanded call by call: what comes of two batches is what comes of the first, then of the second. */
  lemma {:induction false} ExpandConcat(a: seq<Assignment>, b: seq<Assignment>, roles: seq<Role>, selected: set<string>)
    ensures Expand(a + b, roles, selected) == Appended(Expand(a, roles, selected), Expand(b, roles, selected))
  {
    hide ExpandOne;
    if b == [] {
      assert a + b == a;
    } else {
      var front, last := b[..|b| - 1], b[|b| - 1];
      assert (a + b)[..|a + b| - 1] == a + front;
      ExpandConcat(a, front, roles, selected);
      OneAppends(Expand(a + front, roles, selected), last, roles, selected);
      OneAppends(Expand(front, roles, selected), last, roles, selected);
      AppendedAssociates(Expand(a, roles, selected), Expand(front, roles, selected), Expand([last], roles, selected));
    }
  }

  lemma AppendedAssociates(e: Expansion, f: Expansion, g: Expansion)
    ensures Appended(Appended(e, f), g) == Appended(e, Appended(f, g))
  {
    assert e.expanded + f.expanded + g.expanded == e.expanded + (f.expanded + g.expanded);
    assert e.toAdmit + f.toAdmit + g.toAdmit == e.toAdmit + (f.toAdmit + g.toAdmit);
    assert e.rejected + f.rejected + g.rejected == e.rejected + (f.rejected + g.rejected);
  }

  /** Those of the members that are in the set, in their order. */
  function Among(members: seq<string>, these: set<string>): seq<string> {
    if members == [] then []
    else Among(members[..|members| - 1], these) + if members[|members| - 1] in these then [members[|members| - 1]] else []
  }

  lemma {:induction false} AmongConcat(a: seq<string>, b: seq<string>, these: set<string>)
    ensures Among(a + b, these) == Among(a, these) + Among(b, these)
    ensures |b| == 1 ==> Among(b, these) == if b[0] in these then b else []
  {
    if b == [] {
      assert a + b == a;
    } else {
      assert (a + b)[..|a + b| - 1] == a + b[..|b| - 1];
      AmongConcat(a, b[..|b| - 1], these);
      assert (a + b)[|a + b| - 1] == b[|b| - 1];
    }
  }

  lemma {:induction false} MembersInOrder(a: Assignment, members: seq<string>, selected: set<string>)
    ensures var f, here, absent := ExpandMembers(Expansion([], [], []), a, members, selected), Among(members, selected),
        Among(members, (set m | m in members && m !in selected));
      && f.toAdmit == absent && f.rejected == [] && |f.expanded| == |here|
      && forall i :: 0 <= i < |here| ==> f.expanded[i] == Assignment(here[i], a.objective, a.scope, a.capabilities, AgentTarget)
  {
    if members != [] {
      var front, m := members[..|members| - 1], members[|members| - 1];
      assert members == front + [m];
      MembersInOrder(a, front, selected);
      AmongAgrees(front, (set x | x in members && x !in selected), (set x | x in front && x !in selected));
    }
  }

  lemma {:induction false} AmongAgrees(members: seq<string>, these: set<string>, those: set<string>)
    requires forall m :: m in members ==> (m in these <==> m in those)
    ensures Among(members, these) == Among(members, those)
  {
    if members != [] {
      var front := members[..|members| - 1];
      assert members == front + [members[|members| - 1]];
      AmongAgrees(front, these, those);
    }
  }

  /** What one call comes to. An agent call is run as it is. A department call runs the selected members in member
      order, each with the objective, scope and capabilities of the call, and admits the others in member order; if
      nobody is in the department it is refused. */
  lemma OneCall(a: Assignment, roles: seq<Role>, selected: set<string>)
    ensures var e, members := Expand([a], roles, selected), MembersOf(roles, a.agent);
      var here := Among(members, selected);
      && (a.kind.AgentTarget? ==> e == Expansion([a], [], []))
      && (a.kind.DepartmentTarget? ==>
            && |e.expanded| == |here|
            && (forall i :: 0 <= i < |here| ==> e.expanded[i] == Assignment(here[i], a.objective, a.scope, a.capabilities, AgentTarget))
            && e.toAdmit == Among(members, (set m | m in members && m !in selected))
            && e.rejected == if members == [] then [a.agent] else [])
  {
    hide MembersOf;
    assert [a][..0] == [];
    MembersInOrder(a, MembersOf(roles, a.agent), selected);
  }
}
