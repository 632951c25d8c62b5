/** The kernel's single chokepoint: one tool call through any stack of the five middlewares. */
module KernelPipeline {
  import opened Text
  import opened TaskBoard
  import opened Discipline
  import opened Sessions

  datatype Descriptor = Descriptor(kind: string, idempotent: bool, risk: string)

  const EFFECT := "effect"
  const KIND := "kind"
  const IDEMPOTENT := "idempotent"
  const POLICY_BLOCK := "policy_block"
  const REQUEST_ID := "request_id"

  /** A capability whose effect must not be applied twice. */
  predicate OneShot(d: Descriptor) { d.kind == EFFECT && !d.idempotent }

  /** A mapping-valued field of a raw result: falsy, a mapping, or something `dict()` raises on. */
  datatype Field = Falsy | Fields(fields: Payload) | Malformed

  /** What an executor does: raise, return something else than a dictionary, or return one. `shaped`: it
      already has all the envelope's keys; otherwise `data` is the rest of its items. */
  datatype Raw =
    | Throws(text: string)
    | Other(typeName: string)
    | Dict(ok: bool, shaped: bool, error: Option<string>, data: Field, metadata: Field, keys: Json)

  /** The dictionary that stands for a result that is none. */
  function Stopgap(name: string, text: string): Raw {
    Dict(false, false, Some(text), Fields(map["tool" := JStr(name), "kernel_error" := JBool(true)]), Falsy,
         JArr([JStr("error"), JStr("kernel_error"), JStr("ok"), JStr("tool")]))
  }

  /** `core` up to the envelope: an exception or a result of another type becomes a failure. */
  function AsDict(raw: Raw, name: string): Raw {
    match raw
    case Throws(text) => Stopgap(name, text)
    case Other(typeName) => Stopgap(name, "Tool returned " + typeName + ", expected dict.")
    case Dict(_, _, _, _, _, _) => raw
  }

  datatype Envelope = Envelope(ok: bool, error: Option<string>, data: Payload, meta: Payload)

  datatype Outcome = Raised(text: string) | Returned(env: Envelope)

  datatype Request = Request(name: string, key: string, id: string, lineage: Payload, scope: Option<set<string>>)

  datatype Mw =
    | TimingLog
    | PolicyGate(deny: set<string>, blockRaises: bool)
    | BudgetGuard(budget: nat, blockRaises: bool)
    | Retry(attempts: int)
    | Condense(shrink: Payload -> Option<Payload>)

  /** The resolved tool; its behaviour may differ from one execution to the next. */
  datatype Tool = Tool(descriptor: Descriptor, executor: string, run: nat -> Raw)

  /** Executions so far, and the budgets the guards share. */
  datatype State = State(execs: nat, budgets: map<nat, BudgetState>) {
    function BudgetOf(i: nat): BudgetState { if i in budgets then budgets[i] else BudgetState(30, 3, 3, 0, 0, map[]) }
  }

  datatype Reply = Reply(st: State, out: Outcome)

  // ---------------------------------------------------------------- the innermost handler

  /** The metadata the kernel adds; its keys win over the tool's own. */
  function Extra(req: Request, t: Tool): Payload {
    req.lineage + map[REQUEST_ID := JStr(req.id), "executor" := JStr(t.executor), KIND := JStr(t.descriptor.kind),
                      IDEMPOTENT := JBool(t.descriptor.idempotent), "risk" := JStr(t.descriptor.risk)]
  }

  function Mapping(f: Field): Payload { if f.Fields? then f.fields else map[] }

  const NO_ERROR_TEXT := "Capability execution failed."

  function ErrorText(error: Option<string>): string { if error.None? || error.value == "" then NO_ERROR_TEXT else error.value }

  /** `CapabilityResult.from_raw`; None when a field of the result does not convert. */
  function FromRaw(raw: Raw, name: string, extra: Payload): Option<Envelope> {
    match AsDict(raw, name)
    case Dict(ok, shaped, error, data, metadata, keys) =>
      if metadata.Malformed? || (shaped && data.Malformed?) then None
      else
        var meta := Mapping(metadata) + extra;
        Some(Envelope(ok, if shaped then error else if ok then None else Some(ErrorText(error)), Mapping(data),
                      if shaped || "raw_keys" in meta then meta else meta["raw_keys" := keys]))
  }

  function Core(req: Request, t: Tool, st: State): Reply {
    var env := FromRaw(t.run(st.execs), req.name, Extra(req, t));
    Reply(st.(execs := st.execs + 1), if env.Some? then Returned(env.value) else Raised("conversion"))
  }

  // ---------------------------------------------------------------- the fold

  /** `_retryable`. */
  predicate Retryable(env: Envelope) {
    && !(POLICY_BLOCK in env.meta && Truthy(env.meta[POLICY_BLOCK]))
    && !(KIND in env.meta && env.meta[KIND] == JStr(EFFECT) && IDEMPOTENT in env.meta && env.meta[IDEMPOTENT] == JBool(false))
  }

  predicate Again(out: Outcome, tries: nat, attempts: int) {
    out.Returned? && !out.env.ok && tries < attempts && Retryable(out.env)
  }

  function Blocked(text: string, mark: string): Envelope { Envelope(false, Some(text), map[], map[mark := JBool(true)]) }

  function Block(raises: bool, text: string, mark: string): Outcome { if raises then Raised(text) else Returned(Blocked(text, mark)) }

  function Shrunk(out: Outcome, name: string, shrink: Payload -> Option<Payload>): Outcome {
    if out.Raised? || "llm." <= name then out
    else
      var data := shrink(out.env.data);
      if data.None? then Raised("condense") else Returned(out.env.(data := data.value))
  }

  /** The handler that `_wrap` builds from this stack, outermost middleware first. */
  function Handle(stack: seq<Mw>, req: Request, t: Tool, st: State): Reply
    decreases |stack|, 0
  {
    if stack == [] then Core(req, t, st)
    else
      match stack[0]
      case TimingLog => Handle(stack[1..], req, t, st)
      case PolicyGate(deny, raises) =>
        if req.name in deny then Reply(st, Block(raises, "policy", POLICY_BLOCK)) else Handle(stack[1..], req, t, st)
      case BudgetGuard(i, raises) =>
        var b := st.BudgetOf(i).Called(req.key);
        var counted := st.(budgets := st.budgets[i := b]);
        if b.SameToolExceeded(req.key) then Reply(counted, Block(raises, "budget", "budget_block")) else Handle(stack[1..], req, t, counted)
      case Retry(attempts) => Retried(stack[1..], req, t, Handle(stack[1..], req, t, st), 1, Max(1, attempts))
      case Condense(shrink) =>
        var r := Handle(stack[1..], req, t, st);
        r.(out := Shrunk(r.out, req.name, shrink))
  }

  /** The retry loop, after `tries` attempts of which `r` is the last. */
  function Retried(inner: seq<Mw>, req: Request, t: Tool, r: Reply, tries: nat, attempts: int): Reply
    decreases |inner|, Max(0, attempts - tries) + 1
  {
    if Again(r.out, tries, attempts) then Retried(inner, req, t, Handle(inner, req, t, r.st), tries + 1, attempts) else r
  }

  // ---------------------------------------------------------------- one call

  function Defaults(meta: Payload, req: Request): Payload { req.lineage[REQUEST_ID := JStr(req.id)] + meta }

  datatype Call = Call(st: State, env: Envelope, events: seq<Event>)

  /** `execute_tool`. */
  function Execute(stack: seq<Mw>, req: Request, t: Tool, st: State): Call {
    if req.scope.Some? && req.name !in req.scope.value then
      var env := Envelope(false, Some("scope"), map[], req.lineage[REQUEST_ID := JStr(req.id)]["scope_block" := JBool(true)]);
      Call(st, env, [ToolRequested(req.id), ToolFailed(req.id)])
    else
      var r := Handle(stack, req, t, st);
      var env := if r.out.Returned? then r.out.env
                 else Envelope(false, Some(r.out.text), map[], req.lineage[REQUEST_ID := JStr(req.id)]["kernel_error" := JBool(true)]);
      Call(r.st, env.(meta := Defaults(env.meta, req)), [ToolRequested(req.id), if env.ok then ToolCompleted(req.id) else ToolFailed(req.id)])
  }

  // ---------------------------------------------------------------- theorems

  /** An envelope that carries the tool's real kind: Retry will not touch it if the tool is one-shot. */
  predicate Stamped(env: Envelope, t: Tool) {
    && KIND in env.meta && env.meta[KIND] == JStr(t.descriptor.kind)
    && IDEMPOTENT in env.meta && env.meta[IDEMPOTENT] == JBool(t.descriptor.idempotent)
  }

  /** Whatever a tool puts into its own metadata, the kernel's stamp is on the envelope. */
  lemma CoreStamps(req: Request, t: Tool, st: State)
    ensures var r := Core(req, t, st); r.st.execs == st.execs + 1 && (r.out.Returned? ==> Stamped(r.out.env, t))
  {
    var extra := Extra(req, t);
    assert KIND != IDEMPOTENT && KIND != "risk" && IDEMPOTENT != "risk" && KIND != "raw_keys" && IDEMPOTENT != "raw_keys" by {
      assert |KIND| == 4 && |IDEMPOTENT| == 10 && KIND[0] == 'k' && |"risk"| == 4 && "risk"[0] == 'r';
    }
    assert extra[KIND] == JStr(t.descriptor.kind) && extra[IDEMPOTENT] == JBool(t.descriptor.idempotent);
  }

  /** A one-shot tool is run at most once below any handler, and once run its envelope is never retried. */
  ghost predicate AtMostOnce(st: State, r: Reply, t: Tool) {
    && st.execs <= r.st.execs <= st.execs + 1
    && (r.st.execs == st.execs + 1 && r.out.Returned? ==> Stamped(r.out.env, t))
  }

  lemma StampedStops(out: Outcome, t: Tool, tries: nat, attempts: int)
    requires OneShot(t.descriptor) && out.Returned? && Stamped(out.env, t)
    ensures !Again(out, tries, attempts)
  {
  }

  lemma {:induction false} OneShotBelow(stack: seq<Mw>, req: Request, t: Tool, st: State)
    requires OneShot(t.descriptor)
    ensures AtMostOnce(st, Handle(stack, req, t, st), t)
    decreases |stack|, 0
  {
    hide Core, Stamped, Block, Retried, Blocked, BudgetState.Called, BudgetState.SameToolExceeded, State.BudgetOf;
    if stack == [] {
      CoreStamps(req, t, st);
    } else if stack[0].BudgetGuard? {
      var b := st.BudgetOf(stack[0].budget).Called(req.key);
      OneShotBelow(stack[1..], req, t, st.(budgets := st.budgets[stack[0].budget := b]));
    } else {
      OneShotBelow(stack[1..], req, t, st);
      if stack[0].Retry? { OneShotRetried(stack[1..], req, t, st, Handle(stack[1..], req, t, st), 1, Max(1, stack[0].attempts)); }
      if stack[0].Condense? { ShrunkStamp(Handle(stack[1..], req, t, st).out, req.name, stack[0].shrink, t); }
    }
  }

  lemma ShrunkStamp(out: Outcome, name: string, shrink: Payload -> Option<Payload>, t: Tool)
    ensures var s := Shrunk(out, name, shrink);
      s.Returned? ==> out.Returned? && (Stamped(s.env, t) <==> Stamped(out.env, t)) && s.env.ok == out.env.ok
  {
  }

  lemma {:induction false} OneShotRetried(inner: seq<Mw>, req: Request, t: Tool, st: State, r: Reply, tries: nat, attempts: int)
    requires OneShot(t.descriptor) && AtMostOnce(st, r, t)
    ensures AtMostOnce(st, Retried(inner, req, t, r, tries, attempts), t)
    decreases |inner|, Max(0, attempts - tries) + 1
  {
    hide Handle, Stamped, Again;
    if Again(r.out, tries, attempts) {
      AgainMeans(r.out, tries, attempts);
      if r.st.execs == st.execs + 1 { StampedStops(r.out, t, tries, attempts); }
      OneShotBelow(inner, req, t, r.st);
      OneShotRetried(inner, req, t, st, Handle(inner, req, t, r.st), tries + 1, attempts);
    }
  }

  lemma AgainMeans(out: Outcome, tries: nat, attempts: int)
    requires Again(out, tries, attempts)
    ensures out.Returned? && !out.env.ok && tries < attempts
  {
  }

  /** A non-idempotent effect is executed at most once per call: for every stack of the middlewares, in any
      order and number, whatever the tool returns or raises and whatever the guards' budgets hold. */
  lemma EffectRunsAtMostOnce(stack: seq<Mw>, req: Request, t: Tool, st: State)
    requires OneShot(t.descriptor)
    ensures Execute(stack, req, t, st).st.execs <= st.execs + 1
  {
    hide Handle;
    OneShotBelow(stack, req, t, st);
  }

  /** The product of the Retry attempts in a stack. */
  function Tries(stack: seq<Mw>): (n: nat)
    ensures n >= 1
  {
    if stack == [] then 1
    else Tries(stack[1..]) * (if stack[0].Retry? then Max(1, stack[0].attempts) else 1)
  }

  lemma {:induction false} TriesBelow(stack: seq<Mw>, req: Request, t: Tool, st: State)
    ensures st.execs <= Handle(stack, req, t, st).st.execs <= st.execs + Tries(stack)
    decreases |stack|, 0
  {
    hide Block, Retried, Shrunk, Extra, FromRaw, BudgetState.Called, BudgetState.SameToolExceeded, State.BudgetOf;
    if stack != [] {
      if stack[0].BudgetGuard? {
        var b := st.BudgetOf(stack[0].budget).Called(req.key);
        TriesBelow(stack[1..], req, t, st.(budgets := st.budgets[stack[0].budget := b]));
      } else {
        TriesBelow(stack[1..], req, t, st);
        if stack[0].Retry? {
          TriesRetried(stack[1..], req, t, st, Handle(stack[1..], req, t, st), 1, Max(1, stack[0].attempts));
        }
      }
    }
  }

  lemma {:induction false} TriesRetried(inner: seq<Mw>, req: Request, t: Tool, st: State, r: Reply, tries: nat, attempts: int)
    requires 1 <= tries <= attempts && st.execs <= r.st.execs <= st.execs + Tries(inner) * tries
    ensures st.execs <= Retried(inner, req, t, r, tries, attempts).st.execs <= st.execs + Tries(inner) * attempts
    decreases |inner|, Max(0, attempts - tries) + 1
  {
    hide Handle, Again;
    var n := Tries(inner);
    if Again(r.out, tries, attempts) {
      AgainMeans(r.out, tries, attempts);
      TriesBelow(inner, req, t, r.st);
      assert n * (tries + 1) == n * tries + n;
      TriesRetried(inner, req, t, st, Handle(inner, req, t, r.st), tries + 1, attempts);
    } else {
      assert n * tries <= n * attempts;
    }
  }

  /** Any tool is executed at most as often as all the Retry attempts multiply to. */
  lemma ExecutionsAreBounded(stack: seq<Mw>, req: Request, t: Tool, st: State)
    ensures st.execs <= Execute(stack, req, t, st).st.execs <= st.execs + Tries(stack)
  {
    hide Handle;
    TriesBelow(stack, req, t, st);
  }

  /** A tool that always fails and may always be tried again. */
  ghost predicate Hopeless(req: Request, t: Tool) {
    forall k: nat :: var env := FromRaw(t.run(k), req.name, Extra(req, t)); env.Some? && !env.value.ok && Retryable(env.value)
  }

  ghost predicate Lost(out: Outcome) { out.Returned? && !out.env.ok && Retryable(out.env) }

  /** The bound is met: under Retry middlewares alone, a hopeless tool is executed exactly that often. */
  lemma {:induction false} HopelessUsesEveryTry(stack: seq<Mw>, req: Request, t: Tool, st: State)
    requires Hopeless(req, t) && forall i :: 0 <= i < |stack| ==> stack[i].Retry?
    ensures var r := Handle(stack, req, t, st); r.st.execs == st.execs + Tries(stack) && Lost(r.out)
    decreases |stack|, 0
  {
    hide Retryable, FromRaw, Extra, Retried;
    if stack != [] {
      HopelessUsesEveryTry(stack[1..], req, t, st);
      HopelessRetried(stack[1..], req, t, st, Handle(stack[1..], req, t, st), 1, Max(1, stack[0].attempts));
    }
  }

  lemma {:induction false} HopelessRetried(inner: seq<Mw>, req: Request, t: Tool, st: State, r: Reply, tries: nat, attempts: int)
    requires Hopeless(req, t) && forall i :: 0 <= i < |inner| ==> inner[i].Retry?
    requires 1 <= tries <= attempts && Lost(r.out) && r.st.execs == st.execs + Tries(inner) * tries
    ensures var u := Retried(inner, req, t, r, tries, attempts); u.st.execs == st.execs + Tries(inner) * attempts && Lost(u.out)
    decreases |inner|, Max(0, attempts - tries) + 1
  {
    hide Handle, Retryable, Hopeless;
    if tries < attempts {
      HopelessUsesEveryTry(inner, req, t, r.st);
      assert Tries(inner) * (tries + 1) == Tries(inner) * tries + Tries(inner);
      HopelessRetried(inner, req, t, st, Handle(inner, req, t, r.st), tries + 1, attempts);
    }
  }

  /** Is there a gate in the stack that denies this tool? */
  predicate Denied(stack: seq<Mw>, name: string) { exists i :: 0 <= i < |stack| && stack[i].PolicyGate? && name in stack[i].deny }

  /** What holds of a reply: executions only grow, none under a denial, and success takes an execution. */
  ghost predicate Honest(st: State, r: Reply, denied: bool) {
    && st.execs <= r.st.execs && (denied ==> r.st.execs == st.execs)
    && (r.out.Returned? && r.out.env.ok ==> r.st.execs > st.execs)
  }

  lemma {:induction false} HonestBelow(stack: seq<Mw>, req: Request, t: Tool, st: State)
    ensures Honest(st, Handle(stack, req, t, st), Denied(stack, req.name))
    decreases |stack|, 0
  {
    hide FromRaw, Extra, Retried, Again, BudgetState.Called, BudgetState.SameToolExceeded, State.BudgetOf, Denied;
    DeniedBelow(stack, req.name);
    if stack != [] {
      var rest := stack[1..];
      if stack[0].BudgetGuard? {
        HonestBelow(rest, req, t, st.(budgets := st.budgets[stack[0].budget := st.BudgetOf(stack[0].budget).Called(req.key)]));
      } else {
        HonestBelow(rest, req, t, st);
        if stack[0].Retry? {
          HonestRetried(rest, req, t, st, Handle(rest, req, t, st), 1, Max(1, stack[0].attempts));
        }
      }
    }
  }

  lemma DeniedBelow(stack: seq<Mw>, name: string)
    ensures Denied(stack, name) <==>
      stack != [] && ((stack[0].PolicyGate? && name in stack[0].deny) || Denied(stack[1..], name))
  {
    if Denied(stack, name) {
      var i :| 0 <= i < |stack| && stack[i].PolicyGate? && name in stack[i].deny;
      if i > 0 { assert stack[1..][i - 1] == stack[i]; }
    }
  }

  lemma {:induction false} HonestRetried(inner: seq<Mw>, req: Request, t: Tool, st: State, r: Reply, tries: nat, attempts: int)
    requires Honest(st, r, Denied(inner, req.name))
    ensures Honest(st, Retried(inner, req, t, r, tries, attempts), Denied(inner, req.name))
    decreases |inner|, Max(0, attempts - tries) + 1
  {
    hide Handle, Again, Denied;
    if Again(r.out, tries, attempts) {
      AgainMeans(r.out, tries, attempts);
      HonestBelow(inner, req, t, r.st);
      HonestRetried(inner, req, t, st, Handle(inner, req, t, r.st), tries + 1, attempts);
    }
  }

  /** A denied or out-of-scope tool is never executed, wherever in the stack its gate sits, and a call that
      reports success did execute its tool. */
  lemma DeniedNeverRuns(stack: seq<Mw>, req: Request, t: Tool, st: State)
    ensures var c := Execute(stack, req, t, st);
      && (Denied(stack, req.name) || (req.scope.Some? && req.name !in req.scope.value) ==> c.st.execs == st.execs && !c.env.ok)
      && (c.env.ok ==> c.st.execs > st.execs)
  {
    hide Handle, Denied;
    HonestBelow(stack, req, t, st);
  }

  // ---------------------------------------------------------------- lineage

  /** The lineage keys are none of the kernel's other metadata keys. */
  predicate Apart(lineage: Payload) {
    && REQUEST_ID !in lineage && "executor" !in lineage && KIND !in lineage && IDEMPOTENT !in lineage && "risk" !in lineage
    && "raw_keys" !in lineage && POLICY_BLOCK !in lineage && "budget_block" !in lineage
    && "scope_block" !in lineage && "kernel_error" !in lineage
  }

  /** The keys of `event_fields`. */
  const LINEAGE_KEYS := {"run_id", "task_id", "session_id", "parent_session_id", "delegation_id", "actor_id"}

  lemma LineageIsApart(lineage: Payload)
    requires lineage.Keys <= LINEAGE_KEYS
    ensures Apart(lineage)
  {
    forall k | k in LINEAGE_KEYS ensures |k| >= 6 && k[|k| - 2] == 'i' && k[|k| - 1] == 'd' {
      LineageKeyShape(k);
    }
    NotLineage();
  }

  lemma LineageKeyShape(k: string)
    requires k in LINEAGE_KEYS
    ensures |k| >= 6 && k[|k| - 2] == 'i' && k[|k| - 1] == 'd'
  {
  }

  lemma NotLineage()
    ensures REQUEST_ID !in LINEAGE_KEYS
  {
    assert |"request_id"| == 10 && |"session_id"| == 10 && "request_id"[0] == 'r' && "session_id"[0] == 's';
    assert |"run_id"| == 6 && |"task_id"| == 7 && |"parent_session_id"| == 17 && |"delegation_id"| == 13 && |"actor_id"| == 8;
  }

  /** Metadata that contradicts neither the request's id nor its lineage. */
  ghost predicate Faithful(meta: Payload, req: Request) {
    && (REQUEST_ID in meta ==> meta[REQUEST_ID] == JStr(req.id))
    && (forall k :: k in meta && k in req.lineage ==> meta[k] == req.lineage[k])
  }

  ghost predicate FaithfulOut(out: Outcome, req: Request) { out.Returned? ==> Faithful(out.env.meta, req) }

  lemma CoreFaithful(req: Request, t: Tool, st: State)
    requires Apart(req.lineage)
    ensures FaithfulOut(Core(req, t, st).out, req)
  {
    assert |REQUEST_ID| == 10 && |"executor"| == 8 && |KIND| == 4 && |"risk"| == 4 && |"raw_keys"| == 8;
    assert REQUEST_ID[0] == 'r' && IDEMPOTENT[0] == 'i';
  }

  lemma BlockedFaithful(raises: bool, text: string, mark: string, req: Request)
    requires Apart(req.lineage) && mark !in req.lineage && mark != REQUEST_ID
    ensures FaithfulOut(Block(raises, text, mark), req)
  {
  }

  lemma {:induction false} FaithfulBelow(stack: seq<Mw>, req: Request, t: Tool, st: State)
    requires Apart(req.lineage)
    ensures FaithfulOut(Handle(stack, req, t, st).out, req)
    decreases |stack|, 0
  {
    hide Core, Apart, Faithful, Block, Retried, BudgetState.Called, BudgetState.SameToolExceeded, State.BudgetOf;
    if stack == [] {
      CoreFaithful(req, t, st);
    } else if stack[0].BudgetGuard? {
      MarksApart(req);
      BlockedFaithful(stack[0].blockRaises, "budget", "budget_block", req);
      FaithfulBelow(stack[1..], req, t, st.(budgets := st.budgets[stack[0].budget := st.BudgetOf(stack[0].budget).Called(req.key)]));
    } else {
      FaithfulBelow(stack[1..], req, t, st);
      if stack[0].PolicyGate? {
        MarksApart(req);
        BlockedFaithful(stack[0].blockRaises, "policy", POLICY_BLOCK, req);
      } else if stack[0].Retry? {
        FaithfulRetried(stack[1..], req, t, Handle(stack[1..], req, t, st), 1, Max(1, stack[0].attempts));
      }
    }
  }

  lemma MarksApart(req: Request)
    requires Apart(req.lineage)
    ensures POLICY_BLOCK !in req.lineage && "budget_block" !in req.lineage
    ensures POLICY_BLOCK != REQUEST_ID && "budget_block" != REQUEST_ID
  {
    assert POLICY_BLOCK[0] == 'p' && "budget_block"[0] == 'b' && REQUEST_ID[0] == 'r';
  }

  lemma {:induction false} FaithfulRetried(inner: seq<Mw>, req: Request, t: Tool, r: Reply, tries: nat, attempts: int)
    requires Apart(req.lineage) && FaithfulOut(r.out, req)
    ensures FaithfulOut(Retried(inner, req, t, r, tries, attempts).out, req)
    decreases |inner|, Max(0, attempts - tries) + 1
  {
    hide Handle, Apart, FaithfulOut;
    if Again(r.out, tries, attempts) {
      FaithfulBelow(inner, req, t, r.st);
      FaithfulRetried(inner, req, t, Handle(inner, req, t, r.st), tries + 1, attempts);
    }
  }

  /** The envelope a caller gets always names its own request and lineage: no tool metadata can forge them
      and no block or failure can lose them. */
  lemma EnvelopeNamesItsRequest(stack: seq<Mw>, req: Request, t: Tool, st: State)
    requires req.lineage.Keys <= LINEAGE_KEYS
    ensures var meta := Execute(stack, req, t, st).env.meta;
      && REQUEST_ID in meta && meta[REQUEST_ID] == JStr(req.id)
      && forall k :: k in req.lineage ==> k in meta && meta[k] == req.lineage[k]
  {
    hide Handle, Apart;
    LineageIsApart(req.lineage);
    ApartFromMarks(req.lineage);
    FaithfulBelow(stack, req, t, st);
    assert |"scope_block"| == 11 && |"kernel_error"| == 12 && |REQUEST_ID| == 10;
  }

  lemma ApartFromMarks(lineage: Payload)
    requires Apart(lineage)
    ensures REQUEST_ID !in lineage && "scope_block" !in lineage && "kernel_error" !in lineage
  {
  }

  // ---------------------------------------------------------------- the kernel

  class AgentKernel {
    const stack: seq<Mw>
    const bus: EventBus
    var execs: nat
    var budgets: map<nat, BudgetState>

    function View(): State
      reads this
    {
      State(execs, budgets)
    }

    constructor (stack: seq<Mw>, bus: EventBus)
      ensures this.stack == stack && this.bus == bus && View() == State(0, map[])
    {
      this.stack, this.bus, execs, budgets := stack, bus, 0, map[];
    }

    /** `core`. */
    method RunTool(req: Request, t: Tool) returns (out: Outcome)
      modifies this`execs
      ensures Reply(View(), out) == Core(req, t, old(View()))
    {
      hide FromRaw, Extra;
      var env := FromRaw(t.run(execs), req.name, Extra(req, t));
      execs := execs + 1;
      out := if env.Some? then Returned(env.value) else Raised("conversion");
    }

    /** `BudgetGuard.__call__` up to its decision. */
    method Count(i: nat, req: Request) returns (exceeded: bool)
      modifies this`budgets
      ensures var b := old(View()).BudgetOf(i).Called(req.key);
        View() == old(View()).(budgets := old(budgets)[i := b]) && exceeded == b.SameToolExceeded(req.key)
    {
      var budget := new Budget.FromState(View().BudgetOf(i));
      var count := budget.RecordToolCall(req.key);
      exceeded := count > budget.maxSameToolCalls;
      budgets := budgets[i := budget.View()];
    }

    /** The handler at position `i` of the pipeline: each middleware is bound to the one after it. */
    method CallFrom(i: nat, req: Request, t: Tool) returns (out: Outcome)
      requires i <= |stack|
      modifies this`execs, this`budgets
      ensures Reply(View(), out) == Handle(stack[i..], req, t, old(View()))
      decreases |stack| - i
    {
      hide Core, BudgetState.Called, BudgetState.SameToolExceeded, State.BudgetOf, Again, Block, Shrunk;
      if i == |stack| {
        out := RunTool(req, t);
        return;
      }
      assert stack[i..][0] == stack[i] && stack[i..][1..] == stack[i + 1..];
      match stack[i] {
        case TimingLog => out := CallFrom(i + 1, req, t);
        case PolicyGate(deny, raises) =>
          if req.name in deny {
            out := Block(raises, "policy", POLICY_BLOCK);
          } else {
            out := CallFrom(i + 1, req, t);
          }
        case BudgetGuard(b, raises) =>
          var exceeded := Count(b, req);
          if exceeded {
            out := Block(raises, "budget", "budget_block");
          } else {
            out := CallFrom(i + 1, req, t);
          }
        case Retry(attempts) => out := CallRetried(i, req, t, Max(1, attempts));
        case Condense(shrink) =>
          out := CallFrom(i + 1, req, t);
          out := Shrunk(out, req.name, shrink);
      }
    }

    /** `Retry.__call__`. */
    method CallRetried(i: nat, req: Request, t: Tool, attempts: int) returns (out: Outcome)
      requires i < |stack|
      modifies this`execs, this`budgets
      ensures Reply(View(), out) == Retried(stack[i + 1..], req, t, Handle(stack[i + 1..], req, t, old(View())), 1, attempts)
      decreases |stack| - i, 0
    {
      hide Handle, Again;
      out := CallFrom(i + 1, req, t);
      var tries := 1;
      ghost var first := Reply(View(), out);
      while Again(out, tries, attempts)
        invariant tries >= 1
        invariant Retried(stack[i + 1..], req, t, Reply(View(), out), tries, attempts) == Retried(stack[i + 1..], req, t, first, 1, attempts)
        decreases Max(0, attempts - tries)
      {
        AgainMeans(out, tries, attempts);
        out := CallFrom(i + 1, req, t);
        tries := tries + 1;
      }
    }

    /** `execute_tool`: one requested event, then one completed or failed event of the same request, whatever
        happens in between. */
    method ExecuteTool(req: Request, t: Tool) returns (env: Envelope)
      modifies this, bus
      ensures var c := Execute(stack, req, t, old(View())); View() == c.st && env == c.env && bus.events == old(bus.events) + c.events
      ensures bus.events == old(bus.events) + [ToolRequested(req.id), if env.ok then ToolCompleted(req.id) else ToolFailed(req.id)]
    {
      hide Handle, Defaults;
      bus.Publish(ToolRequested(req.id));
      if req.scope.Some? && req.name !in req.scope.value {
        env := Envelope(false, Some("scope"), map[], req.lineage[REQUEST_ID := JStr(req.id)]["scope_block" := JBool(true)]);
        bus.Publish(ToolFailed(req.id));
        return;
      }
      assert stack[0..] == stack;
      var out := CallFrom(0, req, t);
      if out.Returned? {
        env := out.env;
      } else {
        env := Envelope(false, Some(out.text), map[], req.lineage[REQUEST_ID := JStr(req.id)]["kernel_error" := JBool(true)]);
      }
      env := env.(meta := Defaults(env.meta, req));
      bus.Publish(if env.ok then ToolCompleted(req.id) else ToolFailed(req.id));
    }
  }
}
