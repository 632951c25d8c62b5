/** What a caller of the kernel gets to see of what its tool returned. */
module KernelResults {
  import opened Text
  import opened TaskBoard
  import opened Discipline
  import opened Sessions
  import opened KernelPipeline

  // ---------------------------------------------------------------- one execution

  const FAILED := "Capability execution failed."

  function OrFailed(text: string): string { if text == "" then FAILED else text }

  /** The tool's own verdict: an exception or a result that is no dictionary is a failure. */
  predicate Succeeds(raw: Raw) { raw.Dict? && raw.ok }

  /** The tool's own error: none on success, and never an empty text, unless the result is shaped like an envelope,
      whose error is kept as it is. */
  function ErrorOf(raw: Raw): Option<string> {
    match raw
    case Throws(text) => Some(OrFailed(text))
    case Other(typeName) => Some("Tool returned " + typeName + ", expected dict.")
    case Dict(ok, shaped, error, _, _, _) =>
      if shaped then error else if ok then None else Some(OrFailed(if error.Some? then error.value else ""))
  }

  /** The tool's own data; of a failed execution without any, who failed. */
  function DataOf(raw: Raw, name: string): Payload {
    match raw
    case Throws(_) => map["tool" := JStr(name), "kernel_error" := JBool(true)]
    case Other(_) => map["tool" := JStr(name), "kernel_error" := JBool(true)]
    case Dict(_, _, _, data, _, _) => if data.Fields? then data.fields else map[]
  }

  /** Turning the result into an envelope does not raise. */
  predicate Converts(raw: Raw) { raw.Dict? ==> !raw.metadata.Malformed? && !(raw.shaped && raw.data.Malformed?) }

  /** The envelope tells the result as it is. */
  ghost predicate Tells(env: Envelope, raw: Raw, name: string) {
    env.ok == Succeeds(raw) && env.error == ErrorOf(raw) && env.data == DataOf(raw, name)
  }

  lemma CoreTells(req: Request, t: Tool, st: State)
    ensures var r, raw := Core(req, t, st), t.run(st.execs);
      && r.st == st.(execs := st.execs + 1)
      && (r.out.Returned? <==> Converts(raw)) && (r.out.Returned? ==> Tells(r.out.env, raw, req.name))
  {
  }

  const STAMP := {"request_id", "executor", "kind", "idempotent", "risk"}

  /** The metadata of an execution: its executor, kind, idempotency and risk, and the request's id and lineage. */
  lemma MetadataIs(req: Request, t: Tool, st: State)
    requires req.lineage.Keys <= LINEAGE_KEYS && Core(req, t, st).out.Returned?
    ensures var meta := Core(req, t, st).out.env.meta;
      && STAMP + req.lineage.Keys <= meta.Keys
      && meta["request_id"] == JStr(req.id) && meta["executor"] == JStr(t.executor) && meta["kind"] == JStr(t.descriptor.kind)
      && meta["idempotent"] == JBool(t.descriptor.idempotent) && meta["risk"] == JStr(t.descriptor.risk)
      && (forall k :: k in req.lineage ==> meta[k] == req.lineage[k])
  {
    hide Core, Extra;
    LineageIsApart(req.lineage);
    ExtraIs(req, t);
    ExtraWins(req, t, st);
  }

  lemma ExtraIs(req: Request, t: Tool)
    requires Apart(req.lineage)
    ensures var extra := Extra(req, t);
      && extra.Keys == STAMP + req.lineage.Keys && "raw_keys" !in extra
      && extra["request_id"] == JStr(req.id) && extra["executor"] == JStr(t.executor) && extra["kind"] == JStr(t.descriptor.kind)
      && extra["idempotent"] == JBool(t.descriptor.idempotent) && extra["risk"] == JStr(t.descriptor.risk)
      && (forall k :: k in req.lineage ==> extra[k] == req.lineage[k])
  {
    StampKeysDiffer();
  }

  lemma ExtraWins(req: Request, t: Tool, st: State)
    requires "raw_keys" !in Extra(req, t) && Core(req, t, st).out.Returned?
    ensures var meta := Core(req, t, st).out.env.meta; forall k :: k in Extra(req, t) ==> k in meta && meta[k] == Extra(req, t)[k]
  {
    hide ErrorText, Mapping, Extra;
  }

  /** The rest of it is the tool's own, and for a result that is not shaped like an envelope the list of its keys. */
  lemma OwnMetadataIsKept(req: Request, t: Tool, st: State, k: string)
    requires Core(req, t, st).out.Returned? && k !in STAMP && k !in req.lineage
    ensures var meta, raw := Core(req, t, st).out.env.meta, t.run(st.execs);
      var own := if raw.Dict? && raw.metadata.Fields? then raw.metadata.fields else map[];
      && (k in own ==> k in meta && meta[k] == own[k])
      && (k !in own ==> (k in meta <==> k == "raw_keys" && !(raw.Dict? && raw.shaped)))
      && (k !in own && k in meta && raw.Dict? ==> meta[k] == raw.keys)
  {
    hide ErrorText, Mapping;
    MappingIs(AsDict(t.run(st.execs), req.name).metadata);
  }

  lemma MappingIs(f: Field)
    ensures Mapping(f) == if f.Fields? then f.fields else map[]
  {
  }

  lemma StampKeysDiffer()
    ensures "request_id" != "executor" && "request_id" != "kind" && "request_id" != "idempotent" && "request_id" != "risk" && "request_id" != "raw_keys"
    ensures "executor" != "kind" && "executor" != "idempotent" && "executor" != "risk" && "executor" != "raw_keys"
    ensures "kind" != "idempotent" && "kind" != "risk" && "kind" != "raw_keys" && "idempotent" != "risk" && "idempotent" != "raw_keys" && "risk" != "raw_keys"
  {
    assert |"request_id"| == 10 == |"idempotent"| && "request_id"[0] == 'r' && "idempotent"[0] == 'i';
    assert |"executor"| == 8 == |"raw_keys"| && "executor"[0] == 'e' && "raw_keys"[0] == 'r';
    assert |"kind"| == 4 == |"risk"| && "kind"[0] == 'k' && "risk"[0] == 'r';
  }

  // ---------------------------------------------------------------- through any stack

  /** What the Condense middlewares of a stack make of data on its way out, innermost first; none if one raises. */
  function Condensed(stack: seq<Mw>, name: string, data: Payload): Option<Payload> {
    if stack == [] then Some(data)
    else
      var inner :- Condensed(stack[1..], name, data);
      if stack[0].Condense? && !("llm." <= name) then stack[0].shrink(inner) else Some(inner)
  }

  /** The envelope is of an execution, not of a block: it has the kernel's stamp. */
  predicate OfExecution(env: Envelope) { KIND in env.meta }

  /** What is returned under the kernel's stamp is what the last execution gave, condensed; what is returned
      without is a block, and no success. */
  ghost predicate FromLast(stack: seq<Mw>, req: Request, t: Tool, st: State, r: Reply) {
    && st.execs <= r.st.execs
    && (r.out.Returned? && !OfExecution(r.out.env) ==> !r.out.env.ok)
    && (r.out.Returned? && OfExecution(r.out.env) ==>
          && r.st.execs > st.execs
          && var raw := t.run(r.st.execs - 1);
             && Converts(raw) && r.out.env.ok == Succeeds(raw) && r.out.env.error == ErrorOf(raw)
             && Condensed(stack, req.name, DataOf(raw, req.name)) == Some(r.out.env.data))
  }

  lemma CoreFromLast(req: Request, t: Tool, st: State)
    ensures FromLast([], req, t, st, Core(req, t, st))
  {
    hide Extra, FromRaw;
    CoreTells(req, t, st);
    CoreStamps(req, t, st);
  }

  lemma BlockFromLast(stack: seq<Mw>, req: Request, t: Tool, st: State, after: State, raises: bool, text: string, mark: string)
    requires after.execs == st.execs && mark != KIND
    ensures FromLast(stack, req, t, st, Reply(after, Block(raises, text, mark)))
  {
  }

  lemma {:induction false} ReplyFromLast(stack: seq<Mw>, req: Request, t: Tool, st: State)
    ensures FromLast(stack, req, t, st, Handle(stack, req, t, st))
    decreases |stack|, 0
  {
    hide Core, Block, Retried, BudgetState.Called, BudgetState.SameToolExceeded, State.BudgetOf, FromLast;
    if stack == [] {
      CoreFromLast(req, t, st);
    } else {
      var rest := stack[1..];
      MarksAreOthers();
      if stack[0].BudgetGuard? {
        var counted := st.(budgets := st.budgets[stack[0].budget := st.BudgetOf(stack[0].budget).Called(req.key)]);
        BlockFromLast(stack, req, t, st, counted, stack[0].blockRaises, "budget", "budget_block");
        ReplyFromLast(rest, req, t, counted);
        PassedOut(stack, req, t, st, counted, Handle(rest, req, t, counted));
      } else {
        ReplyFromLast(rest, req, t, st);
        var r := Handle(rest, req, t, st);
        PassedOut(stack, req, t, st, st, r);
        if stack[0].PolicyGate? {
          BlockFromLast(stack, req, t, st, st, stack[0].blockRaises, "policy", POLICY_BLOCK);
        } else if stack[0].Retry? {
          RetriedFromLast(rest, req, t, st, r, 1, Max(1, stack[0].attempts));
          PassedOut(stack, req, t, st, st, Retried(rest, req, t, r, 1, Max(1, stack[0].attempts)));
        }
      }
    }
  }

  lemma MarksAreOthers()
    ensures "budget_block" != KIND && POLICY_BLOCK != KIND
  {
    assert |KIND| == 4 && |"budget_block"| == 12 && |POLICY_BLOCK| == 12;
  }

  /** One handler further out. */
  lemma PassedOut(stack: seq<Mw>, req: Request, t: Tool, st: State, inside: State, r: Reply)
    requires stack != [] && inside.execs == st.execs && FromLast(stack[1..], req, t, inside, r)
    ensures !stack[0].Condense? ==> FromLast(stack, req, t, st, r)
    ensures stack[0].Condense? ==> FromLast(stack, req, t, st, r.(out := Shrunk(r.out, req.name, stack[0].shrink)))
  {
  }

  lemma {:induction false} RetriedFromLast(inner: seq<Mw>, req: Request, t: Tool, st: State, r: Reply, tries: nat, attempts: int)
    requires FromLast(inner, req, t, st, r)
    ensures FromLast(inner, req, t, st, Retried(inner, req, t, r, tries, attempts))
    decreases |inner|, Max(0, attempts - tries) + 1
  {
    hide Handle, Again, Condensed;
    if Again(r.out, tries, attempts) {
      AgainMeans(r.out, tries, attempts);
      ReplyFromLast(inner, req, t, r.st);
      RetriedFromLast(inner, req, t, st, Handle(inner, req, t, r.st), tries + 1, attempts);
    }
  }

  /** What the caller gets. Under the kernel's stamp it is what the last execution gave: its verdict, its error, and
      its data as the Condense middlewares leave it. Without the stamp the tool was kept from running, or something
      raised, and it is a failure. */
  lemma CallerSeesTheLast(stack: seq<Mw>, req: Request, t: Tool, st: State)
    requires req.lineage.Keys <= LINEAGE_KEYS
    ensures var c := Execute(stack, req, t, st);
      && (!OfExecution(c.env) ==> !c.env.ok)
      && (OfExecution(c.env) ==>
            && c.st.execs > st.execs
            && var raw := t.run(c.st.execs - 1);
               && Converts(raw) && c.env.ok == Succeeds(raw) && c.env.error == ErrorOf(raw)
               && Condensed(stack, req.name, DataOf(raw, req.name)) == Some(c.env.data))
  {
    hide Handle, Apart, Condensed;
    LineageIsApart(req.lineage);
    KindIsApart(req);
    ReplyFromLast(stack, req, t, st);
  }

  lemma KindIsApart(req: Request)
    requires Apart(req.lineage)
    ensures KIND !in req.lineage && KIND != REQUEST_ID && KIND != "scope_block" && KIND != "kernel_error"
  {
    assert |KIND| == 4 && |REQUEST_ID| == 10 && |"scope_block"| == 11 && |"kernel_error"| == 12;
  }

  // ---------------------------------------------------------------- retrying

  /** The next execution may still be tried: this one failed, and neither the tool's kind nor its own metadata
      forbids another. */
  predicate MayRetry(raw: Raw, t: Tool) {
    && Converts(raw) && !Succeeds(raw) && !OneShot(t.descriptor)
    && !(raw.Dict? && raw.metadata.Fields? && POLICY_BLOCK in raw.metadata.fields && Truthy(raw.metadata.fields[POLICY_BLOCK]))
  }

  /** The number of the execution, among `n` from number `from` on, that is the first not to be tried again, or
      else the last. */
  function Final(t: Tool, from: nat, n: nat): (k: nat)
    requires n >= 1
    ensures from <= k < from + n && (forall i: nat :: from <= i < k ==> MayRetry(t.run(i), t)) && (k < from + n - 1 ==> !MayRetry(t.run(k), t))
    decreases n
  {
    if n == 1 || !MayRetry(t.run(from), t) then from else Final(t, from + 1, n - 1)
  }

  lemma {:induction false} FinalOfMore(t: Tool, from: nat, n: nat, m: nat)
    requires n >= 1 && m >= 1
    ensures var k := Final(t, from, n);
      Final(t, from, n + m) == if MayRetry(t.run(k), t) then Final(t, from + n, m) else k
    decreases n
  {
    hide MayRetry;
    if n > 1 && MayRetry(t.run(from), t) { FinalOfMore(t, from + 1, n - 1, m); }
  }

  predicate Plain(stack: seq<Mw>) { forall i :: 0 <= i < |stack| ==> stack[i].Retry? || stack[i].TimingLog? }

  lemma CoreRetryable(req: Request, t: Tool, st: State)
    requires Apart(req.lineage)
    ensures var out := Core(req, t, st).out; (out.Returned? && !out.env.ok && Retryable(out.env)) <==> MayRetry(t.run(st.execs), t)
  {
    hide Truthy, Core, Apart;
    CoreStamps(req, t, st);
    CoreTells(req, t, st);
    if Core(req, t, st).out.Returned? { PolicyMark(req, t, st); }
  }

  lemma PolicyMark(req: Request, t: Tool, st: State)
    requires Apart(req.lineage) && Core(req, t, st).out.Returned?
    ensures var meta, raw := Core(req, t, st).out.env.meta, t.run(st.execs);
      && (POLICY_BLOCK in meta <==> raw.Dict? && raw.metadata.Fields? && POLICY_BLOCK in raw.metadata.fields)
      && (POLICY_BLOCK in meta ==> meta[POLICY_BLOCK] == raw.metadata.fields[POLICY_BLOCK])
  {
    assert POLICY_BLOCK[0] == 'p' && REQUEST_ID[0] == 'r' && "executor"[0] == 'e' && KIND[0] == 'k' && IDEMPOTENT[0] == 'i';
    assert "risk"[0] == 'r' && "raw_keys"[0] == 'r';
  }

  /** The reply of execution number `k`. */
  function ReplyOf(req: Request, t: Tool, st: State, k: nat): Reply { Core(req, t, st.(execs := k)) }

  /** Under Retry and TimingLog alone a call is one execution: the first that must not be tried again, or else the
      last that the attempts allow. */
  lemma {:induction false} PlainIsOneExecution(stack: seq<Mw>, req: Request, t: Tool, st: State)
    requires Plain(stack) && Apart(req.lineage)
    ensures Handle(stack, req, t, st) == ReplyOf(req, t, st, Final(t, st.execs, Tries(stack)))
    decreases |stack|, 0
  {
    hide Core, Retried, Apart, MayRetry;
    if stack != [] {
      assert Plain(stack[1..]);
      PlainIsOneExecution(stack[1..], req, t, st);
      if stack[0].Retry? {
        var n := Tries(stack[1..]);
        assert n * 1 == n;
        PlainRetried(stack[1..], req, t, st, 1, Max(1, stack[0].attempts));
      }
    }
  }

  /** After `tries` rounds of the inner handlers. */
  lemma {:induction false} PlainRetried(inner: seq<Mw>, req: Request, t: Tool, st: State, tries: nat, attempts: int)
    requires Plain(inner) && Apart(req.lineage) && 1 <= tries <= attempts
    ensures Tries(inner) * tries >= 1 && Tries(inner) * attempts >= 1
    ensures Retried(inner, req, t, ReplyOf(req, t, st, Final(t, st.execs, Tries(inner) * tries)), tries, attempts)
      == ReplyOf(req, t, st, Final(t, st.execs, Tries(inner) * attempts))
    decreases |inner|, Max(0, attempts - tries) + 1
  {
    hide Core, Handle, Apart, MayRetry, Again, Retried, Tries, Final;
    var n := Tries(inner);
    Products(n, tries, attempts);
    var k := Final(t, st.execs, n * tries);
    var r := ReplyOf(req, t, st, k);
    CoreRetryable(req, t, st.(execs := k));
    CoreTells(req, t, st.(execs := k));
    AgainIff(r.out, tries, attempts);
    RetriedIs(inner, req, t, r, tries, attempts);
    if Again(r.out, tries, attempts) {
      FinalOfMore(t, st.execs, n * tries, n);
      PlainIsOneExecution(inner, req, t, r.st);
      PlainRetried(inner, req, t, st, tries + 1, attempts);
    } else if tries < attempts {
      FinalOfMore(t, st.execs, n * tries, n * attempts - n * tries);
    }
  }

  lemma RetriedIs(inner: seq<Mw>, req: Request, t: Tool, r: Reply, tries: nat, attempts: int)
    ensures Retried(inner, req, t, r, tries, attempts)
      == if Again(r.out, tries, attempts) then Retried(inner, req, t, Handle(inner, req, t, r.st), tries + 1, attempts) else r
  {
    hide Handle, Again;
  }

  lemma AgainIff(out: Outcome, tries: nat, attempts: int)
    ensures Again(out, tries, attempts) <==> tries < attempts && out.Returned? && !out.env.ok && Retryable(out.env)
  {
  }

  lemma Products(n: nat, tries: nat, attempts: int)
    requires n >= 1 && 1 <= tries <= attempts
    ensures 1 <= n * tries <= n * attempts && n * (tries + 1) == n * tries + n && (tries < attempts ==> n * tries < n * attempts)
  {
  }

  /** Execution number `i`, of `n` from here, succeeds after executions that may all be retried. */
  ghost predicate FirstSuccess(t: Tool, from: nat, n: nat, i: nat) {
    from <= i < from + n && Succeeds(t.run(i)) && Converts(t.run(i)) && forall j: nat :: from <= j < i ==> MayRetry(t.run(j), t)
  }

  lemma SuccessIsFinal(t: Tool, from: nat, n: nat)
    requires n >= 1
    ensures forall i: nat :: FirstSuccess(t, from, n, i) ==> i == Final(t, from, n)
    ensures Succeeds(t.run(Final(t, from, n))) && Converts(t.run(Final(t, from, n))) ==> FirstSuccess(t, from, n, Final(t, from, n))
  {
    hide Converts;
  }

  /** Under them a call reports success if and only if one of the executions that the attempts allow succeeds and all
      before it may be retried; and then it is that execution's data that the caller gets. In any case it tells the
      last execution's result as it is, if that converts. */
  lemma SuccessIff(stack: seq<Mw>, req: Request, t: Tool, st: State)
    requires Plain(stack) && req.lineage.Keys <= LINEAGE_KEYS && (req.scope.Some? ==> req.name in req.scope.value)
    ensures var c, k := Execute(stack, req, t, st), Final(t, st.execs, Tries(stack));
      && c.st == st.(execs := k + 1)
      && (c.env.ok <==> exists i: nat :: FirstSuccess(t, st.execs, Tries(stack), i))
      && (c.env.ok ==> FirstSuccess(t, st.execs, Tries(stack), k) && c.env.data == DataOf(t.run(k), req.name))
      && (Converts(t.run(k)) ==> Tells(c.env, t.run(k), req.name))
  {
    hide Core, Handle, Apart, MayRetry, FirstSuccess, Final, Tries;
    LineageIsApart(req.lineage);
    PlainIsOneExecution(stack, req, t, st);
    var k := Final(t, st.execs, Tries(stack));
    CoreTells(req, t, st.(execs := k));
    SuccessIsFinal(t, st.execs, Tries(stack));
    if FirstSuccess(t, st.execs, Tries(stack), k) { SuccessParts(t, st.execs, Tries(stack), k); }
  }

  lemma SuccessParts(t: Tool, from: nat, n: nat, i: nat)
    requires FirstSuccess(t, from, n, i)
    ensures Succeeds(t.run(i)) && Converts(t.run(i))
  {
  }

  // ---------------------------------------------------------------- one middleware

  /** How often this call has been made under a guard's budget. */
  function Seen(st: State, i: nat, key: string): nat {
    var b := st.BudgetOf(i); if key in b.toolCalls then b.toolCalls[key] else 0
  }

  /** What one middleware does in front of a stack. Timing changes nothing, a gate stops exactly what it denies, and a
      guard counts the call and stops it when it has been made as often as allowed before; what is stopped does not
      run, and fails. */
  lemma OneLayer(mw: Mw, rest: seq<Mw>, req: Request, t: Tool, st: State)
    ensures var r := Handle([mw] + rest, req, t, st);
      && (mw.TimingLog? ==> r == Handle(rest, req, t, st))
      && (mw.PolicyGate? && req.name !in mw.deny ==> r == Handle(rest, req, t, st))
      && (mw.PolicyGate? && req.name in mw.deny ==> r.st == st && (r.out.Returned? <==> !mw.blockRaises) && (r.out.Returned? ==> !r.out.env.ok))
      && (mw.BudgetGuard? ==>
            var b, n := st.BudgetOf(mw.budget), Seen(st, mw.budget, req.key);
            var counted := st.(budgets := st.budgets[mw.budget := b.(toolCalls := b.toolCalls[req.key := n + 1])]);
            && (mw.budget !in st.budgets ==> n == 0 && b.maxSameToolCalls == 3)
            && (n < b.maxSameToolCalls ==> r == Handle(rest, req, t, counted))
            && (n >= b.maxSameToolCalls ==>
                  r.st == counted && (r.out.Returned? <==> !mw.blockRaises) && (r.out.Returned? ==> !r.out.env.ok)))
  {
    assert ([mw] + rest)[0] == mw && ([mw] + rest)[1..] == rest;
  }

  /** A tool outside the session's scope is not handed to the pipeline at all: the call fails, marked, for its own
      request, and is told so. */
  lemma OutOfScopeIsReported(stack: seq<Mw>, req: Request, t: Tool, st: State)
    requires req.scope.Some? && req.name !in req.scope.value && req.lineage.Keys <= LINEAGE_KEYS
    ensures var c := Execute(stack, req, t, st);
      && c.st == st && !c.env.ok && c.env.error.Some? && c.env.data == map[]
      && c.env.meta.Keys == req.lineage.Keys + {"request_id", "scope_block"} && c.env.meta["scope_block"] == JBool(true)
      && c.events == [ToolRequested(req.id), ToolFailed(req.id)]
  {
    hide Handle;
    LineageIsApart(req.lineage);
  }

  /** What raises in the pipeline reaches the caller as a failure with that text, and no further. */
  lemma RaisingIsReported(stack: seq<Mw>, req: Request, t: Tool, st: State)
    requires req.scope.Some? ==> req.name in req.scope.value
    requires Handle(stack, req, t, st).out.Raised?
    ensures var c := Execute(stack, req, t, st);
      && c.st == Handle(stack, req, t, st).st && !c.env.ok && c.env.error == Some(Handle(stack, req, t, st).out.text)
      && c.env.data == map[] && "kernel_error" in c.env.meta && c.events == [ToolRequested(req.id), ToolFailed(req.id)]
  {
    hide Handle;
  }
}
