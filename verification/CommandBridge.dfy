/** Queueing and applying the orchestrator's control-plane commands. */
module CommandBridge {
  import opened Text
  import opened TaskBoard
  import opened Departments

  const ADD_AGENT := "AddAgentToLoop"
  const NEXT_CHECKPOINT := "next_checkpoint"

  /** The payload of a command the orchestrator wrote: absent, a falsy value that is not a mapping (null, 0, an
      empty list or text), a list of pairs, which `dict()` takes, anything else that is not a mapping, or a mapping. */
  datatype PayloadShape = Missing | Falsy | Pairs(agentId: string) | NotAMapping | Fields(agentId: string) {
    function AgentId(): string { if Fields? || Pairs? then agentId else "" }
  }

  datatype Intent = Intent(commandType: string, key: string, payload: PayloadShape)

  /** Where each declared command type applies. */
  type CommandTypes = map<string, string>

  function DeriveKey(commandType: string, agentId: string): string {
    var agent := Strip(agentId);
    if agent != "" then commandType + ":" + agent else commandType
  }

  datatype Translation = Translated(command: Command) | Refused | Raised

  /** `to_runtime_command`: always issued by the orchestrator agent. */
  function ToCommand(raw: Intent, sessionId: string): Translation {
    var commandType := Strip(raw.commandType);
    if commandType == "" then Refused
    else if raw.payload.NotAMapping? then Raised
    else
      var agentId := raw.payload.AgentId();
      var explicit := Strip(raw.key);
      var key := if explicit != "" then explicit else DeriveKey(commandType, agentId);
      if sessionId == "" then Refused
      else Translated(Command(commandType, sessionId, "agent", key, agentId))
  }

  /** What `RuntimeCommand.from_dict` insists on. */
  predicate WellFormed(c: Command) {
    c.commandType != "" && c.sessionId != "" && c.key != "" && c.issuer in {"human", "agent", "system"}
  }

  predicate Taken(b: Board, key: string) {
    key in b.applied || exists i :: 0 <= i < |b.pending| && b.pending[i].key == key
  }

  // ---------------------------------------------------------------- enqueue

  /** None where the host raises. */
  function EnqueueOne(b: Board, raw: Intent): Option<Board> {
    match ToCommand(raw, b.sessionId)
    case Raised => None
    case Refused => Some(b)
    case Translated(c) => if Taken(b, c.key) then Some(b) else Some(b.(pending := b.pending + [c]))
  }

  function EnqueueAll(b: Board, raws: seq<Intent>): (r: Option<Board>)
    ensures r.Some? ==> r.value == b.(pending := r.value.pending)
  {
    if raws == [] then Some(b)
    else
      var front :- EnqueueAll(b, raws[..|raws| - 1]);
      EnqueueOne(front, raws[|raws| - 1])
  }

  lemma {:induction false} EnqueueRaisesEarly(b: Board, raws: seq<Intent>, k: nat)
    requires k <= |raws| && EnqueueAll(b, raws[..k]) == None
    ensures EnqueueAll(b, raws) == None
    decreases |raws|
  {
    if k < |raws| {
      assert raws[..|raws| - 1][..k] == raws[..k];
      EnqueueRaisesEarly(b, raws[..|raws| - 1], k);
    } else {
      assert raws[..k] == raws;
    }
  }

  lemma EnqueueNext(b: Board, raws: seq<Intent>, i: nat)
    requires i < |raws| && EnqueueAll(b, raws[..i]).Some?
    ensures EnqueueAll(b, raws[..i + 1]) == EnqueueOne(EnqueueAll(b, raws[..i]).value, raws[i])
  {
    hide EnqueueOne;
    assert raws[..i + 1][..i] == raws[..i];
  }

  /** `enqueue_commands`; on `ok == false` an exception leaves the run and nothing is saved. */
  method EnqueueCommands(state: TaskLoopState, raws: seq<Intent>) returns (ok: bool, added: nat)
    modifies state`pending
    ensures ok <==> EnqueueAll(old(state.View()), raws).Some?
    ensures ok ==> EnqueueAll(old(state.View()), raws) == Some(state.View())
    ensures ok ==> added == |state.pending| - |old(state.pending)|
  {
    hide EnqueueAll, ToCommand;
    ghost var b0 := state.View();
    ok, added := true, 0;
    EnqueueNone(b0, raws);
    var seen := (set c | c in state.pending :: c.key) + (set k | k in state.applied);
    var i := 0;
    while i < |raws|
      invariant 0 <= i <= |raws|
      invariant EnqueueAll(b0, raws[..i]) == Some(state.View())
      invariant forall k :: k in seen <==> Taken(state.View(), k)
      invariant added == |state.pending| - |old(state.pending)|
    {
      EnqueueNext(b0, raws, i);
      var t := ToCommand(raws[i], state.sessionId);
      if t.Raised? {
        EnqueueRaisesEarly(b0, raws, i + 1);
        return false, added;
      }
      if t.Translated? && t.command.key !in seen {
        ghost var before := state.View();
        state.pending := state.pending + [t.command];
        seen := seen + {t.command.key};
        added := added + 1;
        TakenAfterPush(before, t.command);
      }
      i := i + 1;
    }
    assert raws[..i] == raws;
  }

  lemma EnqueueNone(b: Board, raws: seq<Intent>)
    ensures EnqueueAll(b, raws[..0]) == Some(b)
  {
  }

  lemma TakenAfterPush(b: Board, c: Command)
    ensures forall k :: Taken(b.(pending := b.pending + [c]), k) <==> Taken(b, k) || k == c.key
  {
    var q := b.pending + [c];
    assert q[|b.pending|] == c;
    forall k | Taken(b, k) ensures Taken(b.(pending := q), k) {
      if k !in b.applied {
        var i :| 0 <= i < |b.pending| && b.pending[i].key == k;
        assert q[i].key == k;
      }
    }
  }

  // ---------------------------------------------------------------- apply

  /** A command this version acts on: declared, agent-issued, due now, an addition, in the catalog. */
  predicate Admissible(c: Command, types: CommandTypes, catalog: set<string>) {
    && c.commandType in types
    && c.issuer == "agent"
    && types[c.commandType] == NEXT_CHECKPOINT
    && c.commandType == ADD_AGENT
    && Strip(c.agentId) in catalog
  }

  function ApplyOne(b: Board, c: Command, types: CommandTypes, catalog: set<string>): Option<Board> {
    if !WellFormed(c) then None
    else if c.key in b.applied || !Admissible(c, types, catalog) then Some(b)
    else
      var agent := Strip(c.agentId);
      Some(b.(applied := b.applied + [c.key],
              roster := if agent in b.roster then b.roster else b.roster + [agent]))
  }

  function ApplyAll(b: Board, cs: seq<Command>, types: CommandTypes, catalog: set<string>): (r: Option<Board>)
    ensures r.Some? ==> SameClock(b, r.value)
  {
    if cs == [] then Some(b)
    else
      var front :- ApplyAll(b, cs[..|cs| - 1], types, catalog);
      ApplyOne(front, cs[|cs| - 1], types, catalog)
  }

  /** `apply_pending_commands` as a function of the board. */
  function Apply(b: Board, types: CommandTypes, catalog: set<string>): Option<Board> {
    var done :- ApplyAll(b, b.pending, types, catalog);
    Some(done.(pending := []))
  }

  lemma {:induction false} ApplyRaisesEarly(b: Board, cs: seq<Command>, k: nat, types: CommandTypes, catalog: set<string>)
    requires k <= |cs| && ApplyAll(b, cs[..k], types, catalog) == None
    ensures ApplyAll(b, cs, types, catalog) == None
    decreases |cs|
  {
    if k < |cs| {
      assert cs[..|cs| - 1][..k] == cs[..k];
      ApplyRaisesEarly(b, cs[..|cs| - 1], k, types, catalog);
    } else {
      assert cs[..k] == cs;
    }
  }

  method ApplyCommand(state: TaskLoopState, c: Command, types: CommandTypes, catalog: set<string>)
    returns (ok: bool, grown: nat)
    modifies state`applied, state`roster
    ensures ok <==> ApplyOne(old(state.View()), c, types, catalog).Some?
    ensures ok ==> ApplyOne(old(state.View()), c, types, catalog) == Some(state.View())
    ensures ok ==> grown == |state.roster| - |old(state.roster)|
  {
    ok, grown := WellFormed(c), 0;
    if ok && c.key !in state.applied && Admissible(c, types, catalog) {
      var agent := Strip(c.agentId);
      state.applied := state.applied + [c.key];
      if agent !in state.roster {
        state.roster := state.roster + [agent];
        grown := 1;
      }
    }
  }

  lemma NothingApplied(b: Board, types: CommandTypes, catalog: set<string>)
    ensures ApplyAll(b, b.pending[..0], types, catalog) == Some(b)
  {
  }

  lemma ApplyNext(b: Board, cs: seq<Command>, i: nat, types: CommandTypes, catalog: set<string>)
    requires i < |cs| && ApplyAll(b, cs[..i], types, catalog).Some?
    ensures ApplyAll(b, cs[..i + 1], types, catalog) == ApplyOne(ApplyAll(b, cs[..i], types, catalog).value, cs[i], types, catalog)
  {
    hide ApplyOne;
    assert cs[..i + 1][..i] == cs[..i];
  }

  /** The result counts exactly the agents the roster gained. */
  method ApplyPendingCommands(state: TaskLoopState, types: CommandTypes, catalog: set<string>)
    returns (ok: bool, grown: nat)
    modifies state`pending, state`applied, state`roster
    ensures ok <==> Apply(old(state.View()), types, catalog).Some?
    ensures ok ==> Apply(old(state.View()), types, catalog) == Some(state.View())
    ensures ok ==> grown == |state.roster| - |old(state.roster)|
  {
    hide ApplyOne, ApplyAll;
    ghost var b0 := state.View();
    ok, grown := true, 0;
    var i := 0;
    NothingApplied(b0, types, catalog);
    while i < |state.pending|
      invariant 0 <= i <= |state.pending| && state.pending == b0.pending
      invariant ApplyAll(b0, b0.pending[..i], types, catalog) == Some(state.View())
      invariant grown == |state.roster| - |old(state.roster)|
    {
      ApplyNext(b0, b0.pending, i, types, catalog);
      var more;
      ok, more := ApplyCommand(state, state.pending[i], types, catalog);
      if !ok {
        ApplyRaisesEarly(b0, b0.pending, i + 1, types, catalog);
        return;
      }
      grown := grown + more;
      i := i + 1;
    }
    assert b0.pending[..i] == b0.pending;
    state.pending := [];
  }

  // ---------------------------------------------------------------- one command

  /** What becomes of one command that the orchestrator writes. One without a type is ignored, one whose payload is no
      mapping raises, and any other is appended under its own key, or without one under its type and the agent, as
      issued by an agent for this run; unless the run has no session or the key is queued or applied already. */
  lemma QueuedCommand(b: Board, raw: Intent)
    ensures var kind, own, agent := Strip(raw.commandType), Strip(raw.key), if raw.payload.Fields? || raw.payload.Pairs? then raw.payload.agentId else "";
      var key := if own != "" then own else if Strip(agent) != "" then kind + ":" + Strip(agent) else kind;
      && (EnqueueOne(b, raw).None? <==> kind != "" && raw.payload.NotAMapping?)
      && (EnqueueOne(b, raw).Some? ==>
            var q := EnqueueOne(b, raw).value;
            && (q.pending == b.pending + [Command(kind, b.sessionId, "agent", key, agent)] || q.pending == b.pending)
            && (q.pending == b.pending <==>
                  kind == "" || b.sessionId == "" || key in b.applied || exists i :: 0 <= i < |b.pending| && b.pending[i].key == key))
  {
  }

  /** When a queued command takes effect: it is an addition, declared to apply at the next checkpoint, issued by an
      agent, for a member of the catalog, and not applied before. Then its key is recorded and the agent comes last
      on the roster, if it is not on it. */
  lemma TakesEffectIff(b: Board, c: Command, types: CommandTypes, catalog: set<string>)
    ensures ApplyOne(b, c, types, catalog).None?
       <==> c.commandType == "" || c.sessionId == "" || c.key == "" || (c.issuer != "human" && c.issuer != "agent" && c.issuer != "system")
    ensures ApplyOne(b, c, types, catalog).Some? ==>
      var r, agent := ApplyOne(b, c, types, catalog).value, Strip(c.agentId);
      && (c.key in r.applied && c.key !in b.applied
          <==> c.commandType == "AddAgentToLoop" && c.commandType in types && types[c.commandType] == "next_checkpoint"
               && c.issuer == "agent" && agent in catalog && c.key !in b.applied)
      && (c.key in r.applied && c.key !in b.applied ==>
            r == b.(applied := b.applied + [c.key], roster := if agent in b.roster then b.roster else b.roster + [agent]))
      && (c.key !in r.applied || c.key in b.applied ==> r == b)
  {
  }

  // ---------------------------------------------------------------- the queue invariant

  function Keys(cs: seq<Command>): (s: seq<string>)
    ensures |s| == |cs| && forall i :: 0 <= i < |cs| ==> s[i] == cs[i].key
  {
    seq(|cs|, i requires 0 <= i < |cs| => cs[i].key)
  }

  /** Roster, queued keys and applied keys are duplicate-free, and no queued key is already applied. */
  ghost predicate QueueInv(b: Board) {
    && Distinct(b.roster)
    && Distinct(b.applied)
    && Distinct(Keys(b.pending))
    && (forall i :: 0 <= i < |b.pending| ==> b.pending[i].key !in b.applied && WellFormed(b.pending[i]))
  }

  lemma DistinctPush(s: seq<string>, x: string)
    requires Distinct(s) && x !in s
    ensures Distinct(s + [x])
  {}

  lemma TranslatedWellFormed(raw: Intent, sessionId: string)
    requires ToCommand(raw, sessionId).Translated?
    ensures WellFormed(ToCommand(raw, sessionId).command)
  {}

  /** Queueing touches nothing but the end of the queue and keeps the invariant. */
  lemma {:induction false} EnqueueKeepsInv(b: Board, raws: seq<Intent>)
    requires QueueInv(b) && EnqueueAll(b, raws).Some?
    ensures var r := EnqueueAll(b, raws).value;
      QueueInv(r) && b.pending <= r.pending && r == b.(pending := r.pending)
  {
    if raws != [] {
      EnqueueKeepsInv(b, raws[..|raws| - 1]);
      var f := EnqueueAll(b, raws[..|raws| - 1]).value;
      var t := ToCommand(raws[|raws| - 1], f.sessionId);
      if t.Translated? && !Taken(f, t.command.key) {
        assert Keys(f.pending + [t.command]) == Keys(f.pending) + [t.command.key];
        DistinctPush(Keys(f.pending), t.command.key);
        TranslatedWellFormed(raws[|raws| - 1], f.sessionId);
      }
    }
  }

  /** The queued commands an apply pass honours, in order, given no key is applied twice. */
  function Honoured(cs: seq<Command>, types: CommandTypes, catalog: set<string>): (r: seq<Command>) {
    if cs == [] then []
    else
      var front, last := Honoured(cs[..|cs| - 1], types, catalog), cs[|cs| - 1];
      if Admissible(last, types, catalog) then front + [last] else front
  }

  function Agents(cs: seq<Command>): (s: seq<string>)
    ensures |s| == |cs| && forall i :: 0 <= i < |cs| ==> s[i] == Strip(cs[i].agentId)
  {
    seq(|cs|, i requires 0 <= i < |cs| => Strip(cs[i].agentId))
  }

  /** The roster followed by the first occurrence of each agent not yet on it. */
  function Admitted(roster: seq<string>, agents: seq<string>): (r: seq<string>)
    ensures roster <= r
    ensures forall a :: a in r <==> a in roster || a in agents
  {
    if agents == [] then roster
    else
      var front, last := Admitted(roster, agents[..|agents| - 1]), agents[|agents| - 1];
      assert agents == agents[..|agents| - 1] + [last];
      if last in front then front else front + [last]
  }

  lemma {:induction false} HonouredMembers(cs: seq<Command>, types: CommandTypes, catalog: set<string>)
    ensures forall c :: c in Honoured(cs, types, catalog) <==> c in cs && Admissible(c, types, catalog)
  {
    if cs != [] {
      assert cs == cs[..|cs| - 1] + [cs[|cs| - 1]];
      HonouredMembers(cs[..|cs| - 1], types, catalog);
    }
  }

  lemma {:induction false} AdmittedDistinct(roster: seq<string>, agents: seq<string>)
    requires Distinct(roster)
    ensures Distinct(Admitted(roster, agents))
  {
    if agents != [] { AdmittedDistinct(roster, agents[..|agents| - 1]); }
  }

  /** A key queued behind an honoured prefix is not among the keys that prefix records. */
  lemma LaterKeyIsNew(cs: seq<Command>, k: nat, types: CommandTypes, catalog: set<string>)
    requires k < |cs| && Distinct(Keys(cs))
    ensures cs[k].key !in Keys(Honoured(cs[..k], types, catalog))
  {
    var h := Honoured(cs[..k], types, catalog);
    HonouredMembers(cs[..k], types, catalog);
    forall j | 0 <= j < |h| ensures h[j].key != cs[k].key {
      assert h[j] in cs[..k];
      var i :| 0 <= i < k && cs[i] == h[j];
      assert Keys(cs)[i] != Keys(cs)[k];
    }
  }

  function Recorded(b: Board, h: seq<Command>): Board {
    b.(applied := b.applied + Keys(h), roster := Admitted(b.roster, Agents(h)))
  }

  lemma RecordOne(b: Board, h: seq<Command>, c: Command)
    ensures Recorded(b, h + [c]).applied == (b.applied + Keys(h)) + [c.key]
    ensures Recorded(b, h + [c]).roster
         == (var r := Admitted(b.roster, Agents(h));
             if Strip(c.agentId) in r then r else r + [Strip(c.agentId)])
  {
    assert Keys(h + [c]) == Keys(h) + [c.key];
    assert Agents(h + [c])[..|h|] == Agents(h);
  }

  /** One pass over a prefix of the queue: the honoured keys are recorded, their agents admitted. */
  lemma {:induction false} ApplyPrefix(b: Board, k: nat, types: CommandTypes, catalog: set<string>)
    requires k <= |b.pending| && QueueInv(b)
    ensures var h := Honoured(b.pending[..k], types, catalog);
      ApplyAll(b, b.pending[..k], types, catalog) == Some(Recorded(b, h)) && Distinct(b.applied + Keys(h))
  {
    if k == 0 {
      assert b.applied + Keys([]) == b.applied;
    } else {
      ApplyPrefix(b, k - 1, types, catalog);
      var c, h := b.pending[k - 1], Honoured(b.pending[..k - 1], types, catalog);
      assert b.pending[..k][..k - 1] == b.pending[..k - 1];
      LaterKeyIsNew(b.pending, k - 1, types, catalog);
      if Admissible(c, types, catalog) {
        RecordOne(b, h, c);
        DistinctPush(b.applied + Keys(h), c.key);
        assert b.applied + Keys(h + [c]) == (b.applied + Keys(h)) + [c.key];
      }
    }
  }

  /** Agent `a` is the target of an honoured command of the queue. */
  ghost predicate Targeted(cs: seq<Command>, types: CommandTypes, catalog: set<string>, a: string) {
    exists i :: 0 <= i < |cs| && Admissible(cs[i], types, catalog) && Strip(cs[i].agentId) == a
  }

  /** Key `k` belongs to an honoured command of the queue. */
  ghost predicate KeyHonoured(cs: seq<Command>, types: CommandTypes, catalog: set<string>, k: string) {
    exists i :: 0 <= i < |cs| && Admissible(cs[i], types, catalog) && cs[i].key == k
  }

  lemma HonouredKeysAndAgents(cs: seq<Command>, types: CommandTypes, catalog: set<string>)
    ensures var h := Honoured(cs, types, catalog);
      && (forall k :: k in Keys(h) <==> KeyHonoured(cs, types, catalog, k))
      && (forall a :: a in Agents(h) <==> Targeted(cs, types, catalog, a))
  {
    var h := Honoured(cs, types, catalog);
    HonouredMembers(cs, types, catalog);
    forall k ensures k in Keys(h) <==> KeyHonoured(cs, types, catalog, k) {
      if k in Keys(h) {
        var j :| 0 <= j < |h| && Keys(h)[j] == k;
        assert h[j] in cs;
      }
      if i :| 0 <= i < |cs| && Admissible(cs[i], types, catalog) && cs[i].key == k {
        assert cs[i] in h;
        var j :| 0 <= j < |h| && h[j] == cs[i];
        assert Keys(h)[j] == k;
      }
    }
    forall a ensures a in Agents(h) <==> Targeted(cs, types, catalog, a) {
      if a in Agents(h) {
        var j :| 0 <= j < |h| && Agents(h)[j] == a;
        assert h[j] in cs;
      }
      if i :| 0 <= i < |cs| && Admissible(cs[i], types, catalog) && Strip(cs[i].agentId) == a {
        assert cs[i] in h;
        var j :| 0 <= j < |h| && h[j] == cs[i];
        assert Agents(h)[j] == a;
      }
    }
  }

  /** An apply pass on a well-kept queue never raises, clears the queue, appends to the roster exactly
      the agents of the honoured commands (each once, all in the catalog), and keeps the invariant. */
  lemma ApplyKeepsInv(b: Board, types: CommandTypes, catalog: set<string>)
    requires QueueInv(b)
    ensures Apply(b, types, catalog).Some?
    ensures var r := Apply(b, types, catalog).value;
      && QueueInv(r)
      && r == b.(pending := [], roster := r.roster, applied := r.applied)
      && b.roster <= r.roster && b.applied <= r.applied
      && (forall a :: a in r.roster <==> (a in b.roster || Targeted(b.pending, types, catalog, a)))
      && (forall a :: a in r.roster && a !in b.roster ==> a in catalog)
      && (forall k :: k in r.applied <==> (k in b.applied || KeyHonoured(b.pending, types, catalog, k)))
  {
    ApplyPrefix(b, |b.pending|, types, catalog);
    assert b.pending[..|b.pending|] == b.pending;
    var h := Honoured(b.pending, types, catalog);
    HonouredKeysAndAgents(b.pending, types, catalog);
    AdmittedDistinct(b.roster, Agents(h));
  }

  // ---------------------------------------------------------------- who joins

  function AddIntent(agent: string): Intent { Intent(ADD_AGENT, "", Fields(agent)) }

  function AddIntents(members: seq<string>): (s: seq<Intent>)
    ensures |s| == |members| && forall i :: 0 <= i < |s| ==> s[i] == AddIntent(members[i])
  {
    seq(|members|, i requires 0 <= i < |members| => AddIntent(members[i]))
  }

  /** The key derived for adding the agent with this stripped id. */
  function AddKey(agent: string): string { DeriveKey(ADD_AGENT, agent) }

  /** Additions are declared, and apply at the next checkpoint. */
  predicate AddsNow(types: CommandTypes) { ADD_AGENT in types && types[ADD_AGENT] == NEXT_CHECKPOINT }

  ghost predicate Named(members: seq<string>, m: string) { exists i :: 0 <= i < |members| && Strip(members[i]) == m }

  lemma {:induction false} StripIdempotent(s: string)
    ensures Strip(Strip(s)) == Strip(s)
  {
    if s != "" {
      if IsSpace(s[0]) {
        StripIdempotent(s[1..]);
      } else if IsSpace(s[|s| - 1]) {
        StripIdempotent(s[..|s| - 1]);
      }
    }
  }

  lemma AddKeyOfStripped(agent: string)
    ensures AddKey(Strip(agent)) == AddKey(agent)
  {
    StripIdempotent(agent);
  }

  lemma AddKeyInjective(m: string, n: string)
    ensures AddKey(m) == AddKey(n) <==> Strip(m) == Strip(n)
  {
    var a, b := Strip(m), Strip(n);
    if a != "" && b != "" {
      assert (ADD_AGENT + ":" + a)[|ADD_AGENT| + 1..] == a && (ADD_AGENT + ":" + b)[|ADD_AGENT| + 1..] == b;
    }
  }

  /** What a deferred member's intent becomes. */
  lemma AddIntentTranslates(agent: string, sessionId: string)
    ensures ToCommand(AddIntent(agent), sessionId)
      == if sessionId == "" then Refused else Translated(Command(ADD_AGENT, sessionId, "agent", AddKey(agent), agent))
  {
    assert Strip(ADD_AGENT) == ADD_AGENT;
  }

  /** The intent is taken into the queue as an addition of `m`. */
  predicate Adds(b: Board, raw: Intent, types: CommandTypes, catalog: set<string>, m: string) {
    var t := ToCommand(raw, b.sessionId);
    t.Translated? && Admissible(t.command, types, catalog) && Strip(t.command.agentId) == m && !Taken(b, t.command.key)
  }

  lemma TargetedPush(cs: seq<Command>, c: Command, types: CommandTypes, catalog: set<string>, m: string)
    ensures Targeted(cs + [c], types, catalog, m)
       <==> Targeted(cs, types, catalog, m) || (Admissible(c, types, catalog) && Strip(c.agentId) == m)
  {
    assert (cs + [c])[|cs|] == c;
    if Targeted(cs, types, catalog, m) {
      var i :| 0 <= i < |cs| && Admissible(cs[i], types, catalog) && Strip(cs[i].agentId) == m;
      assert (cs + [c])[i] == cs[i];
    }
  }

  lemma EnqueueOneTargets(b: Board, raw: Intent, types: CommandTypes, catalog: set<string>, m: string)
    requires EnqueueOne(b, raw).Some?
    ensures Targeted(EnqueueOne(b, raw).value.pending, types, catalog, m)
       <==> Targeted(b.pending, types, catalog, m) || Adds(b, raw, types, catalog, m)
  {
    hide Admissible, Taken;
    var t := ToCommand(raw, b.sessionId);
    if t.Translated? { TargetedPush(b.pending, t.command, types, catalog, m); }
  }

  /** Intent `i` of the batch adds `m`, given those queued before it. */
  ghost predicate AddsAt(b: Board, raws: seq<Intent>, i: nat, types: CommandTypes, catalog: set<string>, m: string)
    requires i < |raws|
  {
    EnqueueAll(b, raws[..i]).Some? && Adds(EnqueueAll(b, raws[..i]).value, raws[i], types, catalog, m)
  }

  /** Who is targeted once a batch is queued: who was before, and whoever an intent adds that finds its key free. */
  lemma {:induction false} BatchTargets(b: Board, raws: seq<Intent>, types: CommandTypes, catalog: set<string>, m: string)
    requires EnqueueAll(b, raws).Some?
    ensures Targeted(EnqueueAll(b, raws).value.pending, types, catalog, m)
       <==> Targeted(b.pending, types, catalog, m) || exists i: nat :: i < |raws| && AddsAt(b, raws, i, types, catalog, m)
  {
    hide Adds, Targeted, EnqueueOne;
    if raws != [] {
      var front, n := raws[..|raws| - 1], |raws| - 1;
      BatchTargets(b, front, types, catalog, m);
      EnqueueOneTargets(EnqueueAll(b, front).value, raws[n], types, catalog, m);
      forall i: nat | i < n ensures AddsAt(b, front, i, types, catalog, m) <==> AddsAt(b, raws, i, types, catalog, m) {
        assert front[..i] == raws[..i];
      }
      assert AddsAt(b, raws, n, types, catalog, m) <==> Adds(EnqueueAll(b, front).value, raws[n], types, catalog, m);
    }
  }

  lemma TakenAfterOne(b: Board, agent: string, key: string)
    ensures EnqueueOne(b, AddIntent(agent)).Some?
    ensures Taken(EnqueueOne(b, AddIntent(agent)).value, key) <==> Taken(b, key) || (b.sessionId != "" && key == AddKey(agent))
  {
    AddIntentTranslates(agent, b.sessionId);
    if b.sessionId != "" { TakenAfterPush(b, Command(ADD_AGENT, b.sessionId, "agent", AddKey(agent), agent)); }
  }

  lemma DeferredAdds(b: Board, agent: string, types: CommandTypes, catalog: set<string>, m: string)
    requires m in catalog
    ensures Adds(b, AddIntent(agent), types, catalog, m)
       <==> AddsNow(types) && b.sessionId != "" && Strip(agent) == m && !Taken(b, AddKey(m))
  {
    hide Taken;
    AddIntentTranslates(agent, b.sessionId);
    if Strip(agent) == m { AddKeyOfStripped(agent); }
  }

  /** A batch of deferred members: queueing never raises, and a catalog member becomes targeted exactly when it
      was already, or it is in the batch and its derived key was free. */
  lemma {:induction false} MembersTargeted(b: Board, members: seq<string>, types: CommandTypes, catalog: set<string>, m: string)
    requires m in catalog
    ensures EnqueueAll(b, AddIntents(members)).Some?
    ensures var q := EnqueueAll(b, AddIntents(members)).value;
      && (Targeted(q.pending, types, catalog, m) <==>
            (Targeted(b.pending, types, catalog, m)
             || (AddsNow(types) && b.sessionId != "" && Named(members, m) && !Taken(b, AddKey(m)))))
      && (Taken(q, AddKey(m)) <==> Taken(b, AddKey(m)) || (b.sessionId != "" && Named(members, Strip(m))))
  {
    hide Taken, EnqueueOne, Targeted, DeriveKey, Named, Adds;
    var raws := AddIntents(members);
    if members == [] {
      assert raws == [] && !Named(members, m) && !Named(members, Strip(m)) by { NobodyNamed(m); NobodyNamed(Strip(m)); }
    } else {
      var front, x := members[..|members| - 1], members[|members| - 1];
      MembersTargeted(b, front, types, catalog, m);
      assert raws[..|front|] == AddIntents(front) && raws[|front|] == AddIntent(x) && members == front + [x];
      var f := EnqueueAll(b, AddIntents(front)).value;
      assert raws[..|raws| - 1] == AddIntents(front) && EnqueueAll(b, raws) == EnqueueOne(f, AddIntent(x));
      TakenAfterOne(f, x, AddKey(m));
      EnqueueOneTargets(f, AddIntent(x), types, catalog, m);
      DeferredAdds(f, x, types, catalog, m);
      NamedPush(front, x, m);
      NamedPush(front, x, Strip(m));
      AddKeyInjective(m, x);
      NamedIsStripped(members, m);
    }
  }

  lemma NobodyNamed(m: string)
    ensures !Named([], m)
  {
  }

  lemma NamedPush(front: seq<string>, x: string, m: string)
    ensures Named(front + [x], m) <==> Named(front, m) || Strip(x) == m
  {
    assert (front + [x])[|front|] == x;
    if Named(front, m) {
      var i :| 0 <= i < |front| && Strip(front[i]) == m;
      assert (front + [x])[i] == front[i];
    }
  }

  lemma NamedIsStripped(members: seq<string>, m: string)
    ensures Named(members, m) ==> Strip(m) == m
  {
    if Named(members, m) {
      var i :| 0 <= i < |members| && Strip(members[i]) == m;
      StripIdempotent(members[i]);
    }
  }

  /** Absent members queued together, then one pass: an agent of the catalog is on the roster afterwards if
      and only if it was, or a queued command already adds it, or it is one of them and its derived key was
      free. A key the orchestrator spelled out for another agent therefore keeps a member out. */
  lemma MembersJoinIff(b: Board, members: seq<string>, types: CommandTypes, catalog: set<string>, m: string)
    requires QueueInv(b) && m in catalog
    ensures var q := EnqueueAll(b, AddIntents(members));
      && q.Some? && Apply(q.value, types, catalog).Some?
      && (m in Apply(q.value, types, catalog).value.roster <==>
          (m in b.roster || Targeted(b.pending, types, catalog, m)
           || (AddsNow(types) && b.sessionId != "" && Named(members, m) && !Taken(b, AddKey(m)))))
  {
    hide Apply, EnqueueAll, Targeted, Taken;
    MembersTargeted(b, members, types, catalog, m);
    EnqueueKeepsInv(b, AddIntents(members));
    ApplyKeepsInv(EnqueueAll(b, AddIntents(members)).value, types, catalog);
  }

  // ---------------------------------------------------------------- pass after pass

  /** A batch is queued, then the queue applied. None where the host raises. */
  function Pass(b: Board, raws: seq<Intent>, types: CommandTypes, catalog: set<string>): Option<Board> {
    var q :- EnqueueAll(b, raws);
    Apply(q, types, catalog)
  }

  function Passes(b: Board, batches: seq<seq<Intent>>, types: CommandTypes, catalog: set<string>): Option<Board> {
    if batches == [] then Some(b)
    else
      var front :- Passes(b, batches[..|batches| - 1], types, catalog);
      Pass(front, batches[|batches| - 1], types, catalog)
  }

  /** What one pass leaves: who joins, and which keys stay taken. */
  lemma PassKeeps(b: Board, raws: seq<Intent>, types: CommandTypes, catalog: set<string>)
    requires QueueInv(b) && Pass(b, raws, types, catalog).Some?
    ensures var q, r := EnqueueAll(b, raws).value, Pass(b, raws, types, catalog).value;
      && QueueInv(r) && r.pending == [] && r.sessionId == b.sessionId && b.roster <= r.roster
      && (forall a :: a in r.roster <==> a in b.roster || Targeted(q.pending, types, catalog, a))
      && (forall k :: Taken(r, k) <==> k in b.applied || KeyHonoured(q.pending, types, catalog, k))
  {
    hide Apply, EnqueueAll, Targeted, KeyHonoured;
    EnqueueKeepsInv(b, raws);
    ApplyKeepsInv(EnqueueAll(b, raws).value, types, catalog);
  }

  /** Who joins at a pass, exactly: who was queued to, and whoever a command of the batch names under a key,
      its own or a derived one, that is free when its turn comes. */
  lemma PassJoinsIff(b: Board, raws: seq<Intent>, types: CommandTypes, catalog: set<string>, m: string)
    requires QueueInv(b) && Pass(b, raws, types, catalog).Some?
    ensures m in Pass(b, raws, types, catalog).value.roster
       <==> m in b.roster || Targeted(b.pending, types, catalog, m) || exists i: nat :: i < |raws| && AddsAt(b, raws, i, types, catalog, m)
  {
    hide Apply, Targeted, AddsAt;
    PassKeeps(b, raws, types, catalog);
    BatchTargets(b, raws, types, catalog, m);
  }

  /** The derived key of `m` will be taken for good: it is applied, or the next pass honours its command. */
  ghost predicate KeyLost(b: Board, types: CommandTypes, catalog: set<string>, m: string) {
    AddKey(m) in b.applied || KeyHonoured(b.pending, types, catalog, AddKey(m))
  }

  lemma KeyLostStays(b: Board, raws: seq<Intent>, types: CommandTypes, catalog: set<string>, m: string)
    requires QueueInv(b) && Pass(b, raws, types, catalog).Some? && KeyLost(b, types, catalog, m)
    ensures KeyLost(Pass(b, raws, types, catalog).value, types, catalog, m) && Taken(b, AddKey(m))
  {
    hide Apply, EnqueueAll;
    EnqueueKeepsInv(b, raws);
    var q := EnqueueAll(b, raws).value;
    PassKeeps(b, raws, types, catalog);
    assert forall i :: 0 <= i < |b.pending| ==> q.pending[i] == b.pending[i];
  }

  /** Every intent that names `m` leaves the key to be derived. */
  ghost predicate OnlyDerived(raws: seq<Intent>, m: string) {
    forall i :: 0 <= i < |raws| && Strip(raws[i].payload.AgentId()) == m ==> Strip(raws[i].key) == ""
  }

  lemma {:induction false} NothingAdds(b: Board, raws: seq<Intent>, types: CommandTypes, catalog: set<string>, m: string)
    requires m != "" && EnqueueAll(b, raws).Some? && OnlyDerived(raws, m) && Taken(b, AddKey(m)) && !Targeted(b.pending, types, catalog, m)
    ensures Taken(EnqueueAll(b, raws).value, AddKey(m)) && !Targeted(EnqueueAll(b, raws).value.pending, types, catalog, m)
  {
    hide Targeted, Taken;
    if raws != [] {
      var front, raw := raws[..|raws| - 1], raws[|raws| - 1];
      NothingAdds(b, front, types, catalog, m);
      var f := EnqueueAll(b, front).value;
      EnqueueOneTargets(f, raw, types, catalog, m);
      var t := ToCommand(raw, f.sessionId);
      if t.Translated? { TakenAfterPush(f, t.command); }
      AddKeyOfStripped(raw.payload.AgentId());
    }
  }

  /** Once its derived key is lost a member never joins, whatever is queued in whatever passes, unless some
      command names it under a key of its own. */
  lemma {:induction false} LockedOutForGood(b: Board, batches: seq<seq<Intent>>, types: CommandTypes, catalog: set<string>, m: string)
    requires QueueInv(b) && m != "" && m !in b.roster && !Targeted(b.pending, types, catalog, m) && KeyLost(b, types, catalog, m)
    requires Passes(b, batches, types, catalog).Some? && forall i :: 0 <= i < |batches| ==> OnlyDerived(batches[i], m)
    ensures var r := Passes(b, batches, types, catalog).value;
      QueueInv(r) && m !in r.roster && !Targeted(r.pending, types, catalog, m) && KeyLost(r, types, catalog, m)
  {
    hide Pass, KeyLost, OnlyDerived, QueueInv, Taken;
    if batches != [] {
      var front, last := batches[..|batches| - 1], batches[|batches| - 1];
      LockedOutForGood(b, front, types, catalog, m);
      var f := Passes(b, front, types, catalog).value;
      KeyLostStays(f, last, types, catalog, m);
      PassKeeps(f, last, types, catalog);
      PassQueues(f, last, types, catalog);
      NothingAdds(f, last, types, catalog, m);
    }
  }

  lemma PassQueues(b: Board, raws: seq<Intent>, types: CommandTypes, catalog: set<string>)
    requires Pass(b, raws, types, catalog).Some?
    ensures EnqueueAll(b, raws).Some?
  {
  }

  /** Otherwise asking twice is enough: a blocking command that is not honoured frees the key again. */
  lemma AskingTwiceAdmits(b: Board, types: CommandTypes, catalog: set<string>, m: string)
    requires QueueInv(b) && Strip(m) == m && m in catalog && AddsNow(types) && b.sessionId != "" && !KeyLost(b, types, catalog, m)
    ensures var twice := Passes(b, [AddIntents([m]), AddIntents([m])], types, catalog); twice.Some? && m in twice.value.roster
  {
    hide Apply, EnqueueAll, Targeted, QueueInv, Taken, DeriveKey, KeyHonoured;
    var raws := AddIntents([m]);
    assert Named([m], m) by { assert [m][0] == m; }
    MembersTargeted(b, [m], types, catalog, m);
    MembersJoinIff(b, [m], types, catalog, m);
    PassKeeps(b, raws, types, catalog);
    var f := Pass(b, raws, types, catalog).value;
    MembersJoinIff(f, [m], types, catalog, m);
    PassKeeps(f, raws, types, catalog);
    assert [raws, raws][..1] == [raws] && [raws][..0] == [];
    assert Passes(b, [raws], types, catalog) == Some(f);
    if m !in f.roster { KeyFreed(b, [m], types, catalog, m); }
  }

  /** A key that blocks and is not honoured is free after the pass. */
  lemma KeyFreed(b: Board, members: seq<string>, types: CommandTypes, catalog: set<string>, m: string)
    requires QueueInv(b) && m in catalog && Pass(b, AddIntents(members), types, catalog).Some? && !KeyLost(b, types, catalog, m)
    requires m !in Pass(b, AddIntents(members), types, catalog).value.roster && Named(members, m) && AddsNow(types) && b.sessionId != ""
    ensures !Taken(Pass(b, AddIntents(members), types, catalog).value, AddKey(m))
  {
    hide Apply, EnqueueAll, Targeted, DeriveKey, Admissible;
    var raws, k := AddIntents(members), AddKey(m);
    MembersTargeted(b, members, types, catalog, m);
    PassKeeps(b, raws, types, catalog);
    EnqueueKeepsInv(b, raws);
    var q := EnqueueAll(b, raws).value;
    if KeyHonoured(q.pending, types, catalog, k) { HonouredBefore(b.pending, q.pending, types, catalog, k); }
  }

  /** With distinct keys, the command that is honoured under a key is the one that was queued under it. */
  lemma HonouredBefore(before: seq<Command>, after: seq<Command>, types: CommandTypes, catalog: set<string>, k: string)
    requires before <= after && Distinct(Keys(after)) && KeyHonoured(after, types, catalog, k)
    requires exists i :: 0 <= i < |before| && before[i].key == k
    ensures KeyHonoured(before, types, catalog, k)
  {
    hide Admissible;
    var i :| 0 <= i < |after| && Admissible(after[i], types, catalog) && after[i].key == k;
    var j :| 0 <= j < |before| && before[j].key == k;
    assert Keys(after)[i] == Keys(after)[j] && i == j && after[i] == before[j];
  }

  ghost predicate AllDerived(batches: seq<seq<Intent>>, m: string) { forall i :: 0 <= i < |batches| ==> OnlyDerived(batches[i], m) }

  /** Exactly who is locked out: an absent catalog member joins in no history of passes that leave its key to
      be derived, if and only if that key is applied already or the command queued under it is honoured. */
  lemma LockedOutIff(b: Board, types: CommandTypes, catalog: set<string>, m: string)
    requires QueueInv(b) && m != "" && Strip(m) == m && m in catalog && AddsNow(types) && b.sessionId != ""
    requires m !in b.roster && !Targeted(b.pending, types, catalog, m)
    ensures KeyLost(b, types, catalog, m) <==>
      forall batches :: AllDerived(batches, m) && Passes(b, batches, types, catalog).Some? ==> m !in Passes(b, batches, types, catalog).value.roster
  {
    hide Passes, KeyLost, QueueInv, Targeted;
    if KeyLost(b, types, catalog, m) {
      forall batches | AllDerived(batches, m) && Passes(b, batches, types, catalog).Some?
        ensures m !in Passes(b, batches, types, catalog).value.roster
      {
        LockedOutForGood(b, batches, types, catalog, m);
      }
    } else {
      AskingTwiceAdmits(b, types, catalog, m);
      assert AllDerived([AddIntents([m]), AddIntents([m])], m) by { assert Strip("") == ""; }
    }
  }

  /** A board where a command for "b" is queued under the key of "a". */
  function Blocked(): Board {
    Board("s", "t", Created, [], [], 0, 5, [], map[], map[], None, "", [Command(ADD_AGENT, "s", "agent", AddKey("a"), "b")], [])
  }

  lemma BlockedQueue(types: CommandTypes, catalog: set<string>)
    requires AddsNow(types)
    ensures var b := Blocked(); var c := b.pending[0];
      && ToCommand(Intent(ADD_AGENT, AddKey("a"), Fields("b")), "s") == Translated(c)
      && QueueInv(b) && Taken(b, AddKey("a")) && !Targeted(b.pending, types, catalog, "a")
      && (KeyLost(b, types, catalog, "a") <==> "b" in catalog)
  {
    assert Strip("a") == "a" && Strip("b") == "b" && Strip(ADD_AGENT) == ADD_AGENT && Strip(AddKey("a")) == AddKey("a");
    var b := Blocked();
    assert b.pending[0].key == AddKey("a");
    assert "b" in catalog ==> Admissible(b.pending[0], types, catalog);
  }

  /** It happens: a command for "b" under the key of "a" is accepted into the queue, so "a" does not join at
      the next pass, and joins at the one after exactly when "b" is no agent of the catalog. */
  lemma SpelledOutKey(types: CommandTypes, catalog: set<string>)
    requires AddsNow(types) && "a" in catalog
    ensures var b := Blocked();
      var once, twice := Passes(b, [AddIntents(["a"])], types, catalog), Passes(b, [AddIntents(["a"]), AddIntents(["a"])], types, catalog);
      && ToCommand(Intent(ADD_AGENT, AddKey("a"), Fields("b")), "s") == Translated(b.pending[0])
      && once.Some? && "a" !in once.value.roster && twice.Some? && ("a" in twice.value.roster <==> "b" !in catalog)
  {
    hide Apply, EnqueueAll, ToCommand, KeyLost, QueueInv, Targeted, Taken, AddKey;
    BlockedQueue(types, catalog);
    var b, raws := Blocked(), AddIntents(["a"]);
    assert [raws, raws][..1] == [raws] && [raws][..0] == [];
    MembersJoinIff(b, ["a"], types, catalog, "a");
    var f := Pass(b, raws, types, catalog).value;
    PassKeeps(b, raws, types, catalog);
    MembersJoinIff(f, ["a"], types, catalog, "a");
    if "b" in catalog {
      KeyLostStays(b, raws, types, catalog, "a");
      KeyLostStays(f, raws, types, catalog, "a");
      NobodyTargeted(types, catalog, "a");
    } else {
      AskingTwiceAdmits(b, types, catalog, "a");
    }
  }

  lemma NobodyTargeted(types: CommandTypes, catalog: set<string>, m: string)
    ensures !Targeted([], types, catalog, m)
  {
  }
}
