/** One delegation from entry to result, as the manager drives it, and what holds of it whatever the
    handler does. */
module DelegationManager {
  import opened Text
  import opened TaskBoard
  import opened Sessions
  import opened Delegation

  /** A registered handler and the targets it can handle. */
  datatype Handler = Handler(name: string, targets: set<string>)

  function Matches(handlers: seq<Handler>, target: string): (r: seq<Handler>)
    ensures forall i :: 0 <= i < |r| ==> r[i] in handlers && target in r[i].targets
    ensures forall h :: h in handlers && target in h.targets ==> h in r
  {
    if handlers == [] then []
    else
      var h := handlers[|handlers| - 1];
      Matches(handlers[..|handlers| - 1], target) + if target in h.targets then [h] else []
  }

  /** `DelegationRegistry.resolve`. */
  function Resolve(handlers: seq<Handler>, target: string): Option<Fault> {
    var m := Matches(handlers, target);
    if m == [] then Some(NoHandler) else if |m| > 1 then Some(Ambiguous) else None
  }

  /** What one call brings with it: the caller's arguments and the new ids. */
  datatype Call = Call(id: string, target: string, objective: string, policy: Policy, childId: string, task: Task)

  /** How a call ends: an exception at the door, a result with everything it left behind, or an exception
      after the handler, with what that leaves behind. */
  datatype Report =
    | AtTheDoor
    | Reported(ledger: Ledger, events: seq<Event>, child: Option<SessionView>, result: Result)
    | Abandoned(ledger: Ledger, events: seq<Event>, open: SessionView)

  function OutcomeName(o: Outcome): string {
    match o
    case Success => "success"
    case Failure => "failed"
    case Rejected => "rejected"
    case Timeout => "timeout"
  }

  function FaultOf(v: Verdict): Fault {
    match v
    case OutOfRange => OutOfPolicy
    case TooDeep => BeyondDepth
    case TooWide => BeyondScope
    case Valid(_) => NoChild
  }

  /** `_finish`: the durable write, then the event. */
  function Concluded(l: Ledger, events: seq<Event>, child: Option<SessionView>, r: Result): (rep: Report)
    ensures !rep.Abandoned?
  {
    var m := Settled(l, r);
    if m.None? then AtTheDoor
    else Reported(m.value, events + [DelegationFinished(r.id, OutcomeName(r.outcome))], child, r)
  }

  /** The child is closed by the manager unless the handler has done so. */
  function Released(h: Hub, r: Result, envelope: Result -> Json): Hub {
    if !h.child.Active() then h
    else h.(child := h.child.Closed(envelope(r)),
            events := h.events + [TaskClosed(h.child.identity.sessionId, if r.outcome.Success? then "completed" else "failed")])
  }

  /** The rest of the call once the handler is done. Closing a child as successful stores the result as a
      dictionary, outside all error handling. */
  function Wrapped(h: Hub, ending: Ending, id: string, parentTask: string, envelope: Result -> Json): Report {
    var result := Judge(h, ending, id, parentTask);
    if h.child.Active() && result.outcome.Success? && !Describable(result) then Abandoned(h.ledger, h.events, h.child)
    else
      var g := Released(h, result, envelope);
      Concluded(g.ledger, g.events, Some(g.child), result)
  }

  const POLICY_KEY := "delegation_policy"

  /** `delegate`, from an entry with no request of this id. */
  function Delegated(l: Ledger, events: seq<Event>, parent: SessionView, call: Call, engine: Engine, handlers: seq<Handler>,
    conduct: Conduct, policyJson: Policy -> Json, envelope: Result -> Json): Report
  {
    if !parent.Active() || call.target == "" || call.objective == "" then AtTheDoor
    else
      var verdict := Validate(engine, parent.identity.depth, parent.scope, call.policy);
      var policy := if verdict.Valid? then verdict.policy else call.policy;
      var request := Request(call.id, parent.identity.sessionId, parent.identity.taskId, call.target, call.objective, policy);
      var l1 := Started(l, request);
      var told := events + [DelegationStarted(call.id)];
      var failed := Result(call.id, parent.identity.taskId, Failure, [], NO_SUMMARY, None);
      if l1.None? then AtTheDoor
      else if !verdict.Valid? then
        Concluded(l1.value, told, None, failed.(outcome := Rejected, error := Some(FaultOf(verdict))))
      else if Resolve(handlers, call.target).Some? then
        Concluded(l1.value, told, None, failed.(error := Resolve(handlers, call.target)))
      else
        var v := ChildView(parent, call.childId, call.task, call.target, call.id, Some(policy.capabilities));
        if v.None? then Concluded(l1.value, told, None, failed.(outcome := Rejected, error := Some(NoChild)))
        else
          var child := v.value.(data := v.value.data[POLICY_KEY := Plain(policyJson(policy))]);
          var h := DoAll(Hub(l1.value, told + [TaskAccepted(call.childId)], child, None), conduct.acts, call.id, policy.maxSteps);
          Wrapped(h, conduct.ending, call.id, parent.identity.taskId, envelope)
  }

  // ---------------------------------------------------------------- every delegation

  /** No trace of this id yet. */
  ghost predicate Fresh(l: Ledger, events: seq<Event>, id: string) {
    id !in l.requests && id !in l.progress && id !in l.results && About(events, id) == []
  }

  lemma OpeningInv(l: Ledger, events: seq<Event>, more: seq<Event>, r: Request, child: SessionView)
    requires Fresh(l, events, r.id) && forall i :: 0 <= i < |more| ==> !AboutId(more[i], r.id)
    ensures Started(l, r).Some? && RecordInv(Hub(Started(l, r).value, events + [DelegationStarted(r.id)] + more, child, None), r)
  {
    AboutPush(events, DelegationStarted(r.id), r.id);
    assert About(events + [DelegationStarted(r.id)], r.id)[1..] == [];
    assert Told(events + [DelegationStarted(r.id)], r.id, []);
    ToldStays(events + [DelegationStarted(r.id)], more, r.id, []);
  }

  lemma {:induction false} UnseenIsNew(own: seq<Artifact>, stored: seq<Artifact>)
    ensures var tail := Unseen(own, stored);
      && (forall a :: a in tail ==> a in own && !HasArtifact(stored, a.id))
      && (forall a :: a in own && !HasArtifact(stored, a.id) ==> a in tail)
  {
    if own != [] { UnseenIsNew(own[..|own| - 1], stored); }
  }

  /** The artifacts of a result: what is stored as progress, in order, then only artifacts not stored. */
  ghost predicate Merged(r: Result, stored: seq<Progress>) {
    && ArtifactsOf(stored) <= r.artifacts
    && (forall a :: a in r.artifacts[|stored|..] ==> !HasArtifact(ArtifactsOf(stored), a.id))
  }

  lemma JudgeMerges(h: Hub, ending: Ending, id: string, parentTask: string)
    ensures var r := Judge(h, ending, id, parentTask);
      r.id == id && r.parentTask == parentTask && Merged(r, StoredFor(h.ledger, id))
  {
    hide HasArtifact;
    var stored := ArtifactsOf(StoredFor(h.ledger, id));
    if ending.Returns? {
      UnseenIsNew(ending.result.artifacts, stored);
      var tail := Unseen(ending.result.artifacts, stored);
      assert (stored + tail)[|stored|..] == tail;
    }
    assert stored[|stored|..] == [];
  }

  /** Told from start to finish: started once and first, finished once and last, in between the stored
      progress as far as it can be told. */
  ghost predicate ToldInFull(es: seq<Event>, id: string, items: seq<Progress>, outcome: Outcome) {
    var mine := About(es, id);
    && |mine| >= 2 && mine[0] == DelegationStarted(id) && mine[|mine| - 1] == DelegationFinished(id, OutcomeName(outcome))
    && ToldAsStored(mine[1..|mine| - 1], id, items)
  }

  lemma FinishInv(h: Hub, r: Request, child: Option<SessionView>, res: Result)
    requires RecordInv(h, r) && res.id == r.id
    ensures var rep := Concluded(h.ledger, h.events, child, res);
      && rep.Reported? && rep.result == res && rep.child == child
      && rep.ledger == h.ledger.(results := h.ledger.results[r.id := res])
      && ToldInFull(rep.events, r.id, h.ledger.progress[r.id], res.outcome)
  {
    var e := DelegationFinished(r.id, OutcomeName(res.outcome));
    AboutPush(h.events, e, r.id);
    var mine := About(h.events, r.id);
    assert (mine + [e])[1..|mine|] == mine[1..];
  }

  lemma ReleaseKeeps(h: Hub, r: Request, res: Result, envelope: Result -> Json)
    requires RecordInv(h, r)
    ensures RecordInv(Released(h, res, envelope), r) && !Released(h, res, envelope).child.Active()
    ensures Released(h, res, envelope).ledger == h.ledger
    ensures Released(h, res, envelope).child.identity == h.child.identity && Released(h, res, envelope).child.scope == h.child.scope
  {
    hide Ordered, Told;
    if h.child.Active() {
      ToldStays(h.events, [TaskClosed(h.child.identity.sessionId, if res.outcome.Success? then "completed" else "failed")],
                r.id, h.ledger.progress[r.id]);
    }
  }

  lemma {:induction false} DoAllKeepsChild(h: Hub, acts: seq<Act>, id: string, maxSteps: int)
    ensures var g := DoAll(h, acts, id, maxSteps); g.child.identity == h.child.identity && g.child.scope == h.child.scope
  {
    hide Sink, Operate;
    if acts != [] {
      DoAllKeepsChild(h, acts[..|acts| - 1], id, maxSteps);
      SinkKeepsChild(DoAll(h, acts[..|acts| - 1], id, maxSteps), acts[|acts| - 1], id, maxSteps);
    }
  }

  lemma SinkKeepsChild(h: Hub, d: Act, id: string, maxSteps: int)
    ensures Do(h, d, id, maxSteps).child.identity == h.child.identity && Do(h, d, id, maxSteps).child.scope == h.child.scope
  {
    hide Appended, Operate;
  }

  /** What is on record once a delegation has been reported. */
  ghost predicate OnRecord(rep: Report, call: Call, parent: SessionView) {
    && rep.Reported? && call.id in rep.ledger.results && rep.ledger.results[call.id] == rep.result
    && rep.result.id == call.id && rep.result.parentTask == parent.identity.taskId
    && Ordered(StoredFor(rep.ledger, call.id), call.id, call.policy.maxSteps)
    && ToldInFull(rep.events, call.id, StoredFor(rep.ledger, call.id), rep.result.outcome)
    && Merged(rep.result, StoredFor(rep.ledger, call.id))
  }

  /** What an abandoned one leaves: started and told of, without a result and without an end, its child open. */
  ghost predicate LeftOpen(rep: Report, call: Call) {
    && rep.Abandoned? && call.id in rep.ledger.requests && call.id !in rep.ledger.results
    && Ordered(StoredFor(rep.ledger, call.id), call.id, call.policy.maxSteps)
    && Told(rep.events, call.id, StoredFor(rep.ledger, call.id)) && rep.open.Active()
  }

  /** The handler reported success, left its session open, and its result does not convert. */
  predicate Inconvertible(h: Hub, ending: Ending, id: string, parentTask: string) {
    var result := Judge(h, ending, id, parentTask);
    h.child.Active() && result.outcome.Success? && !Describable(result)
  }

  predicate NarrowAndClosed(child: SessionView, parent: SessionView, engine: Engine) {
    !child.Active() && child.scope <= parent.scope && child.identity.depth == parent.identity.depth + 1 <= engine.maxDepth
  }

  /** The end of every call that got as far as its handler. */
  lemma WrappedIsRecorded(h: Hub, r: Request, ending: Ending, parent: SessionView, call: Call, envelope: Result -> Json)
    requires RecordInv(h, r) && r.id == call.id && r.policy.maxSteps == call.policy.maxSteps
    ensures var rep := Wrapped(h, ending, call.id, parent.identity.taskId, envelope);
      && (rep.Abandoned? <==> Inconvertible(h, ending, call.id, parent.identity.taskId))
      && (rep.Abandoned? ==> LeftOpen(rep, call) && rep.open == h.child)
      && (!rep.Abandoned? ==> OnRecord(rep, call, parent) && rep.child.Some? && !rep.child.value.Active()
                              && rep.child.value.identity == h.child.identity && rep.child.value.scope == h.child.scope)
  {
    hide RecordInv, ToldInFull, Merged, Ordered, Judge, Released, Concluded, Told, SessionView.Active, Describable;
    var result := Judge(h, ending, call.id, parent.identity.taskId);
    InvStores(h, r);
    JudgeMerges(h, ending, call.id, parent.identity.taskId);
    ReleaseKeeps(h, r, result, envelope);
    var g := Released(h, result, envelope);
    InvStores(g, r);
    FinishInv(g, r, Some(g.child), result);
  }

  /** The session a granted and resolved call gives its handler, with the store and the bus as they then are. */
  function HandedOver(l: Ledger, events: seq<Event>, parent: SessionView, call: Call, engine: Engine, policyJson: Policy -> Json): Hub
    requires parent.Active() && Validate(engine, parent.identity.depth, parent.scope, call.policy).Valid?
  {
    var policy := Validate(engine, parent.identity.depth, parent.scope, call.policy).policy;
    var request := Request(call.id, parent.identity.sessionId, parent.identity.taskId, call.target, call.objective, policy);
    var l1 := Started(l, request);
    var v := ChildView(parent, call.childId, call.task, call.target, call.id, Some(policy.capabilities)).value;
    Hub(if l1.Some? then l1.value else l, events + [DelegationStarted(call.id)] + [TaskAccepted(call.childId)],
        v.(data := v.data[POLICY_KEY := Plain(policyJson(policy))]), None)
  }

  predicate Granted(engine: Engine, parent: SessionView, call: Call, handlers: seq<Handler>) {
    Validate(engine, parent.identity.depth, parent.scope, call.policy).Valid? && Resolve(handlers, call.target).None?
  }

  /** The door is closed to exactly these calls: of an inactive parent, without a target, without an objective. */
  lemma AtTheDoorIff(l: Ledger, events: seq<Event>, parent: SessionView, call: Call, engine: Engine,
    handlers: seq<Handler>, conduct: Conduct, policyJson: Policy -> Json, envelope: Result -> Json)
    requires Fresh(l, events, call.id) && forall i :: 0 <= i < |conduct.acts| ==> Foreign(conduct.acts[i], call.id)
    ensures Delegated(l, events, parent, call, engine, handlers, conduct, policyJson, envelope).AtTheDoor?
       <==> !parent.Active() || call.target == "" || call.objective == ""
  {
    hide SessionView.Active, Fresh, Foreign, Granted, LeftOpen, Inconvertible, HandedOver, DoAll;
    if parent.Active() && call.target != "" && call.objective != "" {
      hide Delegated;
      EveryDelegationIsRecorded(l, events, parent, call, engine, handlers, conduct, policyJson, envelope);
    }
  }

  /** The protocol, whatever the handler does and whatever other delegations do meanwhile. Past the door a
      delegation is either on record, or abandoned with its child open, and that in exactly one case: the
      handler reported success, left its session open, and the result does not convert to a dictionary. On
      record means: its stored result is the returned one, it is told from start to finish, its stored
      progress is numbered 1..n with distinct event ids and n within the policy, and its artifacts are the
      stored ones and then only new ones. A child, if one was made, has a scope within the parent's, is one
      level deeper, and is closed. */
  lemma EveryDelegationIsRecorded(l: Ledger, events: seq<Event>, parent: SessionView, call: Call, engine: Engine,
    handlers: seq<Handler>, conduct: Conduct, policyJson: Policy -> Json, envelope: Result -> Json)
    requires parent.Active() && call.target != "" && call.objective != "" && Fresh(l, events, call.id)
    requires forall i :: 0 <= i < |conduct.acts| ==> Foreign(conduct.acts[i], call.id)
    ensures var rep := Delegated(l, events, parent, call, engine, handlers, conduct, policyJson, envelope);
      && (!rep.Abandoned? ==> OnRecord(rep, call, parent) && (rep.child.Some? <==> Granted(engine, parent, call, handlers)))
      && (rep.Reported? && rep.child.None? ==>
            StoredFor(rep.ledger, call.id) == [] && rep.result.artifacts == [] && rep.result.outcome in {Rejected, Failure})
      && (rep.Reported? && rep.child.Some? ==> NarrowAndClosed(rep.child.value, parent, engine))
      && (rep.Abandoned? ==> LeftOpen(rep, call))
      && (rep.Abandoned? <==>
            (Granted(engine, parent, call, handlers)
             && Inconvertible(DoAll(HandedOver(l, events, parent, call, engine, policyJson), conduct.acts, call.id, call.policy.maxSteps),
                              conduct.ending, call.id, parent.identity.taskId)))
  {
    hide RecordInv, ToldInFull, Merged, Ordered, Judge, Wrapped, Concluded, DoAll, Foreign, Fresh, Resolve, Started, OnRecord, LeftOpen,
         Inconvertible;
    var verdict := Validate(engine, parent.identity.depth, parent.scope, call.policy);
    var policy := if verdict.Valid? then verdict.policy else call.policy;
    var request := Request(call.id, parent.identity.sessionId, parent.identity.taskId, call.target, call.objective, policy);
    var told := events + [DelegationStarted(call.id)];
    if Granted(engine, parent, call, handlers) {
      var h0 := HandedOver(l, events, parent, call, engine, policyJson);
      OpeningInv(l, events, [TaskAccepted(call.childId)], request, h0.child);
      DoAllKeeps(h0, conduct.acts, request);
      DoAllKeepsChild(h0, conduct.acts, call.id, policy.maxSteps);
      WrappedIsRecorded(DoAll(h0, conduct.acts, call.id, policy.maxSteps), request, conduct.ending, parent, call, envelope);
    } else {
      OpeningInv(l, events, [], request, parent);
      assert told + [] == told;
      var fault := if verdict.Valid? then Resolve(handlers, call.target) else Some(FaultOf(verdict));
      var result := Result(call.id, parent.identity.taskId, if verdict.Valid? then Failure else Rejected, [], NO_SUMMARY, fault);
      var h := Hub(Started(l, request).value, told, parent, None);
      FinishInv(h, request, None, result);
      NothingStored(l, request, result);
      RefusedOnRecord(l, told, request, result, call, parent);
    }
  }

  lemma HandedOverIsActive(l: Ledger, events: seq<Event>, parent: SessionView, call: Call, engine: Engine, policyJson: Policy -> Json)
    requires parent.Active() && Validate(engine, parent.identity.depth, parent.scope, call.policy).Valid?
    ensures HandedOver(l, events, parent, call, engine, policyJson).child.Active()
  {
    assert POLICY_KEY[0] != CURRENT_TASK[0];
  }

  /** It happens: a handler that does nothing but report success with a number for a summary leaves a
      delegation that was started and never ends, and a child that is never closed. */
  lemma SuccessCanBeAbandoned(l: Ledger, events: seq<Event>, parent: SessionView, call: Call, engine: Engine,
    handlers: seq<Handler>, policyJson: Policy -> Json, envelope: Result -> Json)
    requires parent.Active() && call.target != "" && call.objective != "" && Fresh(l, events, call.id) && Granted(engine, parent, call, handlers)
    ensures var conduct := Conduct([], Returns(Result(call.id, parent.identity.taskId, Success, [], JInt(1), None)));
      var rep := Delegated(l, events, parent, call, engine, handlers, conduct, policyJson, envelope); LeftOpen(rep, call)
  {
    hide Resolve, Started, Delegated, LeftOpen, Fresh, Validate;
    var result := Result(call.id, parent.identity.taskId, Success, [], JInt(1), None);
    var h := HandedOver(l, events, parent, call, engine, policyJson);
    HandedOverIsActive(l, events, parent, call, engine, policyJson);
    assert DoAll(h, [], call.id, call.policy.maxSteps) == h;
    EveryDelegationIsRecorded(l, events, parent, call, engine, handlers, Conduct([], Returns(result)), policyJson, envelope);
  }

  lemma GrantedIsWrapped(l: Ledger, events: seq<Event>, parent: SessionView, call: Call, engine: Engine,
    handlers: seq<Handler>, conduct: Conduct, policyJson: Policy -> Json, envelope: Result -> Json)
    requires parent.Active() && call.target != "" && call.objective != "" && Fresh(l, events, call.id) && Granted(engine, parent, call, handlers)
    ensures Delegated(l, events, parent, call, engine, handlers, conduct, policyJson, envelope)
      == Wrapped(DoAll(HandedOver(l, events, parent, call, engine, policyJson), conduct.acts, call.id, call.policy.maxSteps),
                 conduct.ending, call.id, parent.identity.taskId, envelope)
  {
    hide Resolve, DoAll, Wrapped;
  }

  /** A failure needs no conversion here: with the same number for a summary it is reported and on record, and
      the result that the caller gets does not convert. */
  lemma FailureIsReportedAnyway(l: Ledger, events: seq<Event>, parent: SessionView, call: Call, engine: Engine,
    handlers: seq<Handler>, policyJson: Policy -> Json, envelope: Result -> Json)
    requires parent.Active() && call.target != "" && call.objective != "" && Fresh(l, events, call.id) && Granted(engine, parent, call, handlers)
    ensures var conduct := Conduct([], Returns(Result(call.id, parent.identity.taskId, Failure, [], JInt(1), None)));
      var rep := Delegated(l, events, parent, call, engine, handlers, conduct, policyJson, envelope);
      OnRecord(rep, call, parent) && rep.result.outcome.Failure? && !Describable(rep.result)
  {
    hide Resolve, Started, LeftOpen, Fresh, Validate, Delegated, Released, Settled, Judge, Ordered, ToldInFull, Merged;
    var result := Result(call.id, parent.identity.taskId, Failure, [], JInt(1), None);
    var h := HandedOver(l, events, parent, call, engine, policyJson);
    assert DoAll(h, [], call.id, call.policy.maxSteps) == h;
    EveryDelegationIsRecorded(l, events, parent, call, engine, handlers, Conduct([], Returns(result)), policyJson, envelope);
    GrantedIsWrapped(l, events, parent, call, engine, handlers, Conduct([], Returns(result)), policyJson, envelope);
    JudgedAsReturned(h, result);
  }

  lemma JudgedAsReturned(h: Hub, result: Result)
    requires result.artifacts == [] && h.raised.None?
    ensures var r := Judge(h, Returns(result), result.id, result.parentTask);
      r.outcome == result.outcome && r.summary == result.summary
  {
  }

  // ---------------------------------------------------------------- who is asked

  predicate Takes(handlers: seq<Handler>, i: nat, target: string) { i < |handlers| && target in handlers[i].targets }

  /** Exactly one registered handler takes the target. */
  ghost predicate OneTaker(handlers: seq<Handler>, target: string) {
    exists i: nat :: Takes(handlers, i, target) && forall j: nat :: Takes(handlers, j, target) ==> j == i
  }

  ghost predicate NoTaker(handlers: seq<Handler>, target: string) { forall i: nat :: !Takes(handlers, i, target) }

  lemma TakesPush(front: seq<Handler>, h: Handler, target: string)
    ensures forall i: nat :: Takes(front + [h], i, target) <==> Takes(front, i, target) || (i == |front| && target in h.targets)
  {
  }

  lemma NoTakerPush(front: seq<Handler>, h: Handler, target: string)
    ensures NoTaker(front + [h], target) <==> NoTaker(front, target) && target !in h.targets
  {
    hide Takes;
    TakesPush(front, h, target);
    if NoTaker(front + [h], target) { assert !Takes(front + [h], |front|, target); }
    forall i: nat | Takes(front, i, target) ensures Takes(front + [h], i, target) {}
  }

  lemma OneTakerPush(front: seq<Handler>, h: Handler, target: string)
    ensures OneTaker(front + [h], target)
      <==> if target in h.targets then NoTaker(front, target) else OneTaker(front, target)
  {
    TakesPush(front, h, target);
    if target in h.targets {
      assert Takes(front + [h], |front|, target);
    } else {
      assert forall i: nat :: Takes(front + [h], i, target) <==> Takes(front, i, target);
    }
  }

  lemma MatchesPush(front: seq<Handler>, h: Handler, target: string)
    ensures |Matches(front + [h], target)| == |Matches(front, target)| + if target in h.targets then 1 else 0
  {
    assert (front + [h])[..|front|] == front;
  }

  lemma {:induction false} MatchesCount(handlers: seq<Handler>, target: string)
    ensures NoTaker(handlers, target) <==> |Matches(handlers, target)| == 0
    ensures OneTaker(handlers, target) <==> |Matches(handlers, target)| == 1
  {
    hide NoTaker, OneTaker, Matches;
    if handlers == [] {
      NobodyTakes(target);
    } else {
      var front, h := handlers[..|handlers| - 1], handlers[|handlers| - 1];
      MatchesCount(front, target);
      assert front + [h] == handlers;
      NoTakerPush(front, h, target);
      OneTakerPush(front, h, target);
      MatchesPush(front, h, target);
    }
  }

  lemma NobodyTakes(target: string)
    ensures NoTaker([], target) && !OneTaker([], target) && Matches([], target) == []
  {
  }

  /** A refused call: on record with this outcome and fault, told of as started and finished, and nothing else. */
  ghost predicate RefusedWith(rep: Report, l: Ledger, events: seq<Event>, call: Call, parent: SessionView, granted: Policy,
    outcome: Outcome, name: string, fault: Fault)
  {
    var result := Result(call.id, parent.identity.taskId, outcome, [], JObj(map[]), Some(fault));
    var request := Request(call.id, parent.identity.sessionId, parent.identity.taskId, call.target, call.objective, granted);
    rep == Reported(Ledger(l.requests[call.id := request], l.progress[call.id := []], l.results[call.id := result]),
                    events + [DelegationStarted(call.id), DelegationFinished(call.id, name)], None, result)
  }

  /** The policy a call is granted. */
  function GrantedPolicy(parent: SessionView, call: Call): Policy {
    Policy(call.policy.maxSteps, call.policy.maxDepth, if call.policy.capabilities == {} then parent.scope else call.policy.capabilities)
  }

  predicate InRange(engine: Engine, p: Policy) { 1 <= p.maxSteps <= engine.maxSteps && 1 <= p.maxDepth <= engine.maxDepth }

  /** Whether anybody is asked depends on the policy and on who takes the target. With a policy in range, not too
      deep and within the parent's scope, a child is made and the handler acts if and only if exactly one
      registered handler takes the target; with none or with several the call fails with that fault, without a
      child and without one act of the handler. Otherwise it is rejected with what is wrong with the policy. */
  lemma HandlerIsAskedIff(l: Ledger, events: seq<Event>, parent: SessionView, call: Call, engine: Engine,
    handlers: seq<Handler>, conduct: Conduct, policyJson: Policy -> Json, envelope: Result -> Json)
    requires parent.Active() && call.target != "" && call.objective != "" && Fresh(l, events, call.id)
    ensures var rep := Delegated(l, events, parent, call, engine, handlers, conduct, policyJson, envelope);
      && (!Sound(engine, parent, call) ==>
            RefusedWith(rep, l, events, call, parent, call.policy, Rejected, "rejected",
                        if !InRange(engine, call.policy) then OutOfPolicy
                        else if parent.identity.depth >= call.policy.maxDepth then BeyondDepth else BeyondScope))
      && (Sound(engine, parent, call) && NoTaker(handlers, call.target) ==>
            RefusedWith(rep, l, events, call, parent, GrantedPolicy(parent, call), Failure, "failed", NoHandler))
      && (Sound(engine, parent, call) && !NoTaker(handlers, call.target) && !OneTaker(handlers, call.target) ==>
            RefusedWith(rep, l, events, call, parent, GrantedPolicy(parent, call), Failure, "failed", Ambiguous))
      && (Sound(engine, parent, call) && OneTaker(handlers, call.target) ==>
            rep == Wrapped(DoAll(HandedOver(l, events, parent, call, engine, policyJson), conduct.acts, call.id, call.policy.maxSteps),
                           conduct.ending, call.id, parent.identity.taskId, envelope))
      && ((forall i :: 0 <= i < |conduct.acts| ==> Foreign(conduct.acts[i], call.id)) ==>
            ((Sound(engine, parent, call) && OneTaker(handlers, call.target)) <==> (rep.Abandoned? || (rep.Reported? && rep.child.Some?))))
  {
    hide Matches, Wrapped, DoAll, SessionView.Active, NoTaker, OneTaker, Fresh, Foreign, Ordered, ToldInFull, Merged, LeftOpen, Inconvertible, HandedOver,
         Granted;
    FreshParts(l, events, call.id);
    GrantedIff(engine, parent, call, handlers);
    if Granted(engine, parent, call, handlers) {
      GrantedIsWrapped(l, events, parent, call, engine, handlers, conduct, policyJson, envelope);
      if forall i :: 0 <= i < |conduct.acts| ==> Foreign(conduct.acts[i], call.id) {
        EveryDelegationIsRecorded(l, events, parent, call, engine, handlers, conduct, policyJson, envelope);
      }
    } else {
      RefusedCall(l, events, parent, call, engine, handlers, conduct, policyJson, envelope);
    }
  }

  predicate Sound(engine: Engine, parent: SessionView, call: Call) {
    InRange(engine, call.policy) && parent.identity.depth < call.policy.maxDepth && GrantedPolicy(parent, call).capabilities <= parent.scope
  }

  lemma GrantedIff(engine: Engine, parent: SessionView, call: Call, handlers: seq<Handler>)
    ensures Granted(engine, parent, call, handlers) <==> Sound(engine, parent, call) && OneTaker(handlers, call.target)
    ensures !(NoTaker(handlers, call.target) && OneTaker(handlers, call.target))
  {
    hide Matches, NoTaker, OneTaker;
    MatchesCount(handlers, call.target);
  }

  lemma RefusedCall(l: Ledger, events: seq<Event>, parent: SessionView, call: Call, engine: Engine,
    handlers: seq<Handler>, conduct: Conduct, policyJson: Policy -> Json, envelope: Result -> Json)
    requires parent.Active() && call.target != "" && call.objective != "" && !Granted(engine, parent, call, handlers)
    requires call.id !in l.requests && call.id !in l.progress && call.id !in l.results
    ensures var rep := Delegated(l, events, parent, call, engine, handlers, conduct, policyJson, envelope);
      if Sound(engine, parent, call)
      then RefusedWith(rep, l, events, call, parent, GrantedPolicy(parent, call), Failure, "failed",
                       if NoTaker(handlers, call.target) then NoHandler else Ambiguous)
      else RefusedWith(rep, l, events, call, parent, call.policy, Rejected, "rejected",
                       if !InRange(engine, call.policy) then OutOfPolicy
                       else if parent.identity.depth >= call.policy.maxDepth then BeyondDepth else BeyondScope)
  {
    hide Matches, Wrapped, DoAll, SessionView.Active, NoTaker, OneTaker;
    MatchesCount(handlers, call.target);
    assert events + [DelegationStarted(call.id)] + [DelegationFinished(call.id, "failed")]
      == events + [DelegationStarted(call.id), DelegationFinished(call.id, "failed")];
    assert events + [DelegationStarted(call.id)] + [DelegationFinished(call.id, "rejected")]
      == events + [DelegationStarted(call.id), DelegationFinished(call.id, "rejected")];
  }

  lemma FreshParts(l: Ledger, events: seq<Event>, id: string)
    requires Fresh(l, events, id)
    ensures id !in l.requests && id !in l.progress && id !in l.results
  {
  }

  /** What the handler of a granted call is given: a child of the parent under the granted policy, which it finds in
      its store, with the delegation on record and told, and nothing done yet. */
  lemma HandedOverIs(l: Ledger, events: seq<Event>, parent: SessionView, call: Call, engine: Engine, policyJson: Policy -> Json)
    requires parent.Active() && Sound(engine, parent, call) && call.id !in l.requests
    ensures Validate(engine, parent.identity.depth, parent.scope, call.policy).Valid?
    ensures var h, granted := HandedOver(l, events, parent, call, engine, policyJson), GrantedPolicy(parent, call);
      var request := Request(call.id, parent.identity.sessionId, parent.identity.taskId, call.target, call.objective, granted);
      && h.ledger == l.(requests := l.requests[call.id := request], progress := l.progress[call.id := []])
      && h.events == events + [DelegationStarted(call.id), TaskAccepted(call.childId)] && h.raised == None
      && h.child.Active() && h.child.scope == granted.capabilities
      && h.child.identity == Identity(call.childId, parent.identity.runId, call.task.taskId, call.target,
                                      Some(parent.identity.sessionId), Some(call.id), parent.identity.depth + 1)
      && h.child.data == map["current_task" := TaskVal(call.task), "delegation_policy" := Plain(policyJson(granted))]
  {
    assert |"current_task"| == 12 && |"delegation_policy"| == 17;
    assert events + [DelegationStarted(call.id)] + [TaskAccepted(call.childId)] == events + [DelegationStarted(call.id), TaskAccepted(call.childId)];
  }

  /** What comes back from a handler that was asked. An exception that gets through, of its acts or its own, or a
      result that names another delegation or another parent, is a failure with the artifacts stored so far; any
      other result comes back as it is, with those artifacts in front of its own that are not among them. A child
      that is still open is closed with that, completed if and only if it is a success, and the end is told last. */
  lemma ResultIsTheHandlers(l: Ledger, events: seq<Event>, parent: SessionView, call: Call, engine: Engine,
    handlers: seq<Handler>, conduct: Conduct, policyJson: Policy -> Json, envelope: Result -> Json)
    requires parent.Active() && call.target != "" && call.objective != "" && Fresh(l, events, call.id)
    requires Sound(engine, parent, call) && OneTaker(handlers, call.target)
    requires Delegated(l, events, parent, call, engine, handlers, conduct, policyJson, envelope).Reported?
    ensures var rep := Delegated(l, events, parent, call, engine, handlers, conduct, policyJson, envelope);
      var h := DoAll(HandedOver(l, events, parent, call, engine, policyJson), conduct.acts, call.id, call.policy.maxSteps);
      var stored, task, e := ArtifactsOf(StoredFor(h.ledger, call.id)), parent.identity.taskId, conduct.ending;
      var failed := Result(call.id, task, Failure, stored, JObj(map[]), h.raised);
      && (h.raised.Some? ==> rep.result == failed)
      && (h.raised.None? && e.Raises? ==> rep.result == failed.(error := Some(Fault.Said(e.text))))
      && (h.raised.None? && e.Returns? && e.result.id != call.id ==> rep.result == failed.(error := Some(ForeignResult)))
      && (h.raised.None? && e.Returns? && e.result.id == call.id && e.result.parentTask != task ==>
            rep.result == failed.(error := Some(WrongParent)))
      && (h.raised.None? && e.Returns? && e.result.id == call.id && e.result.parentTask == task ==>
            rep.result == e.result.(artifacts := stored + Unseen(e.result.artifacts, stored)))
      && rep.child == Some(if h.child.Active() then h.child.Closed(envelope(rep.result)) else h.child)
      && rep.events == h.events
           + (if h.child.Active() then [TaskClosed(h.child.identity.sessionId, if rep.result.outcome.Success? then "completed" else "failed")] else [])
           + [DelegationFinished(call.id, if rep.result.outcome.Success? then "success" else if rep.result.outcome.Failure? then "failed"
                                          else if rep.result.outcome.Rejected? then "rejected" else "timeout")]
      && rep.ledger == h.ledger.(results := h.ledger.results[call.id := rep.result])
  {
    hide DoAll, SessionView.Active, SessionView.Closed, OneTaker, Fresh, HandedOver, Unseen, Describable, Delegated, Resolve;
    GrantedIff(engine, parent, call, handlers);
    GrantedIsWrapped(l, events, parent, call, engine, handlers, conduct, policyJson, envelope);
    JudgeMerges(DoAll(HandedOver(l, events, parent, call, engine, policyJson), conduct.acts, call.id, call.policy.maxSteps),
                conduct.ending, call.id, parent.identity.taskId);
  }

  lemma RefusedOnRecord(l: Ledger, told: seq<Event>, r: Request, res: Result, call: Call, parent: SessionView)
    requires Started(l, r).Some? && r.id == call.id && res.id == call.id && res.parentTask == parent.identity.taskId && res.artifacts == []
    requires var rep := Concluded(Started(l, r).value, told, None, res);
      && rep.Reported? && rep.result == res
      && rep.ledger == Started(l, r).value.(results := Started(l, r).value.results[r.id := res])
      && ToldInFull(rep.events, r.id, [], res.outcome)
    ensures OnRecord(Concluded(Started(l, r).value, told, None, res), call, parent)
    ensures StoredFor(Concluded(Started(l, r).value, told, None, res).ledger, call.id) == []
  {
    hide ToldInFull;
  }

  lemma InvStores(h: Hub, r: Request)
    requires RecordInv(h, r)
    ensures r.id in h.ledger.progress && Ordered(h.ledger.progress[r.id], r.id, r.policy.maxSteps)
    ensures r.id in h.ledger.requests && r.id !in h.ledger.results && Told(h.events, r.id, h.ledger.progress[r.id])
  {
  }

  lemma NothingStored(l: Ledger, r: Request, res: Result)
    requires Started(l, r).Some? && res.artifacts == []
    ensures StoredFor(Started(l, r).value, r.id) == [] && r.id in Started(l, r).value.progress
    ensures Ordered([], r.id, r.policy.maxSteps) && Merged(res, [])
  {
  }

  lemma OperateLocal(l: Ledger, op: StoreOp, id: string)
    requires OpId(op) != id
    ensures SameRows(l, Operate(l, op), id)
  {
  }

  ghost predicate SameRows(l: Ledger, m: Ledger, id: string) {
    && (id in m.requests <==> id in l.requests) && (id in l.requests ==> m.requests[id] == l.requests[id])
    && (id in m.progress <==> id in l.progress) && (id in l.progress ==> m.progress[id] == l.progress[id])
    && (id in m.results <==> id in l.results) && (id in l.results ==> m.results[id] == l.results[id])
  }

  lemma {:induction false} ActsLocal(h: Hub, acts: seq<Act>, id: string, maxSteps: int, other: string)
    requires other != id && forall i :: 0 <= i < |acts| ==> acts[i].Elsewhere? ==> OpId(acts[i].op) != other
    ensures SameRows(h.ledger, DoAll(h, acts, id, maxSteps).ledger, other)
  {
    hide Operate;
    if acts != [] {
      ActsLocal(h, acts[..|acts| - 1], id, maxSteps, other);
      var act := acts[|acts| - 1];
      if act.Elsewhere? { OperateLocal(DoAll(h, acts[..|acts| - 1], id, maxSteps).ledger, act.op, other); }
    }
  }

  lemma StartedLocal(l: Ledger, r: Request, other: string)
    requires other != r.id && Started(l, r).Some?
    ensures SameRows(l, Started(l, r).value, other)
  {
  }

  lemma ConcludedLocal(l: Ledger, m: Ledger, events: seq<Event>, child: Option<SessionView>, r: Result, other: string)
    requires SameRows(l, m, other) && other != r.id
    ensures var rep := Concluded(m, events, child, r); rep.Reported? ==> SameRows(l, rep.ledger, other)
  {
  }

  lemma WrappedLocal(l: Ledger, h: Hub, ending: Ending, id: string, parentTask: string, envelope: Result -> Json, other: string)
    requires SameRows(l, h.ledger, other) && other != id
    ensures var rep := Wrapped(h, ending, id, parentTask, envelope); !rep.AtTheDoor? ==> SameRows(l, rep.ledger, other)
  {
    hide Judge, Concluded, SameRows, Describable;
    JudgeMerges(h, ending, id, parentTask);
    var result := Judge(h, ending, id, parentTask);
    var g := Released(h, result, envelope);
    ConcludedLocal(l, g.ledger, g.events, Some(g.child), result, other);
  }

  /** A delegation, however it ends, leaves every other delegation's rows alone. */
  lemma OthersUntouched(l: Ledger, events: seq<Event>, parent: SessionView, call: Call, engine: Engine,
    handlers: seq<Handler>, conduct: Conduct, policyJson: Policy -> Json, envelope: Result -> Json, other: string)
    requires other != call.id && forall i :: 0 <= i < |conduct.acts| ==> conduct.acts[i].Elsewhere? ==> OpId(conduct.acts[i].op) != other
    ensures var rep := Delegated(l, events, parent, call, engine, handlers, conduct, policyJson, envelope);
      !rep.AtTheDoor? ==> SameRows(l, rep.ledger, other)
  {
    hide DoAll, Judge, Resolve, Validate, SessionView.Active, SameRows, Wrapped, Concluded, Started;
    var verdict := Validate(engine, parent.identity.depth, parent.scope, call.policy);
    var policy := if verdict.Valid? then verdict.policy else call.policy;
    var request := Request(call.id, parent.identity.sessionId, parent.identity.taskId, call.target, call.objective, policy);
    var l1 := Started(l, request);
    if l1.Some? {
      var told := events + [DelegationStarted(call.id)];
      var failed := Result(call.id, parent.identity.taskId, Failure, [], NO_SUMMARY, None);
      StartedLocal(l, request, other);
      ConcludedLocal(l, l1.value, told, None, failed.(outcome := Rejected, error := Some(FaultOf(verdict))), other);
      ConcludedLocal(l, l1.value, told, None, failed.(error := Resolve(handlers, call.target)), other);
      ConcludedLocal(l, l1.value, told, None, failed.(outcome := Rejected, error := Some(NoChild)), other);
      var v := ChildView(parent, call.childId, call.task, call.target, call.id, Some(policy.capabilities));
      if v.Some? {
        var child := v.value.(data := v.value.data[POLICY_KEY := Plain(policyJson(policy))]);
        var h := Hub(l1.value, told + [TaskAccepted(call.childId)], child, None);
        ActsLocal(h, conduct.acts, call.id, policy.maxSteps, other);
        SameRowsTransitive(l, l1.value, DoAll(h, conduct.acts, call.id, policy.maxSteps).ledger, other);
        WrappedLocal(l, DoAll(h, conduct.acts, call.id, policy.maxSteps), conduct.ending, call.id, parent.identity.taskId, envelope, other);
      }
    }
  }

  lemma SameRowsTransitive(a: Ledger, b: Ledger, c: Ledger, other: string)
    requires SameRows(a, b, other) && SameRows(b, c, other)
    ensures SameRows(a, c, other)
  {
  }

  /** What scope a policy gets its child, exactly: a child is made when the numbers are in range and the set is
      within the parent's, and it has precisely that set if and only if the set is not empty or the parent has
      nothing either. An empty set gets everything the parent has, although the session factory, asked for the
      same set, makes a child that may call nothing. */
  lemma EmptyPolicyInherits(engine: Engine, parent: SessionView, p: Policy, sid: string, task: Task, target: string, id: string)
    requires parent.Active()
    ensures var v := DelegateView(engine, parent, p, sid, task, target, id);
      && (v.Some? <==> 1 <= p.maxSteps <= engine.maxSteps && 1 <= p.maxDepth <= engine.maxDepth
                       && parent.identity.depth < p.maxDepth && p.capabilities <= parent.scope)
      && (v.Some? ==>
            && (v.value.scope == p.capabilities <==> p.capabilities != {} || parent.scope == {})
            && (p.capabilities == {} ==> v.value.scope == parent.scope)
            && ChildView(parent, sid, task, target, id, Some(p.capabilities)) == Some(v.value.(scope := p.capabilities)))
  {
    var verdict := Validate(engine, parent.identity.depth, parent.scope, p);
    if verdict.Valid? { assert verdict.policy.capabilities == if p.capabilities == {} then parent.scope else p.capabilities; }
  }

  // ---------------------------------------------------------------- the manager

  function HubOf(store: InMemoryDelegationStore, child: KernelSession, raised: Option<Fault>): Hub
    reads store, child, child.bus
  {
    Hub(store.View(), child.bus.events, child.View(), raised)
  }

  method ProgressSink(store: InMemoryDelegationStore, child: KernelSession, p: Progress, id: string, maxSteps: int)
    returns (raised: Option<Fault>)
    modifies store, child.bus
    ensures HubOf(store, child, raised) == Sink(old(HubOf(store, child, None)), p, id, maxSteps)
  {
    if p.delegationId != id {
      return Some(ForeignProgress);
    }
    if p.sequence > maxSteps {
      return Some(BeyondSteps);
    }
    raised := store.AppendProgress(p);
    if raised.None? {
      if !Dictable(p.artifact.payload) {
        return Some(Undescribable);
      }
      child.bus.Publish(DelegationProgressed(id, p.sequence, p.eventId, p.artifact, p.status));
    }
  }

  method Perform(store: InMemoryDelegationStore, op: StoreOp)
    modifies store
    ensures store.View() == Operate(old(store.View()), op)
  {
    match op {
      case StartOp(r) => var _ := store.Start(r);
      case AppendOp(p) => var _ := store.AppendProgress(p);
      case SettleOp(r) => var _ := store.Finish(r);
    }
  }

  method PerformAct(store: InMemoryDelegationStore, child: KernelSession, act: Act, id: string, maxSteps: int)
    returns (raised: Option<Fault>)
    modifies store, child, child.bus
    ensures HubOf(store, child, raised) == Do(old(HubOf(store, child, None)), act, id, maxSteps)
  {
    hide Sink, Operate, SessionView.Closed;
    raised := None;
    match act {
      case Emit(p, catches) =>
        raised := ProgressSink(store, child, p, id, maxSteps);
        if catches { raised := None; }
      case CloseChild(ending, status, catches) =>
        var ok := child.CompleteTask(ending, status);
        if !ok && !catches { raised := Some(ChildClosed); }
      case Elsewhere(op, told) =>
        Perform(store, op);
        child.bus.events := child.bus.events + told;
    }
  }

  /** `handler.run`, up to its return or the first exception it lets through. */
  method RunHandler(store: InMemoryDelegationStore, child: KernelSession, acts: seq<Act>, id: string, maxSteps: int)
    returns (raised: Option<Fault>)
    modifies store, child, child.bus
    ensures HubOf(store, child, raised) == DoAll(old(HubOf(store, child, None)), acts, id, maxSteps)
  {
    hide Do;
    raised := None;
    var i := 0;
    ghost var h := HubOf(store, child, None);
    while i < |acts| && raised.None?
      invariant 0 <= i <= |acts|
      invariant HubOf(store, child, raised) == DoAll(h, acts[..i], id, maxSteps)
    {
      assert acts[..i + 1][..i] == acts[..i];
      raised := PerformAct(store, child, acts[i], id, maxSteps);
      i := i + 1;
    }
    DoAllStops(h, acts, i, id, maxSteps);
    assert acts[..|acts|] == acts;
  }

  lemma {:induction false} DoAllStops(h: Hub, acts: seq<Act>, k: nat, id: string, maxSteps: int)
    requires k <= |acts| && (k == |acts| || DoAll(h, acts[..k], id, maxSteps).raised.Some?)
    ensures DoAll(h, acts, id, maxSteps) == DoAll(h, acts[..k], id, maxSteps)
  {
    hide Do;
    if k < |acts| {
      assert acts[..|acts| - 1][..k] == acts[..k];
      DoAllStops(h, acts[..|acts| - 1], k, id, maxSteps);
    } else {
      assert acts[..k] == acts;
    }
  }

  method MergeArtifacts(own: seq<Artifact>, stored: seq<Artifact>) returns (merged: seq<Artifact>)
    ensures merged == stored + Unseen(own, stored)
  {
    merged := stored;
    for i := 0 to |own|
      invariant merged == stored + Unseen(own[..i], stored)
    {
      assert own[..i + 1][..i] == own[..i];
      if !exists j :: 0 <= j < |stored| && stored[j].id == own[i].id {
        merged := merged + [own[i]];
      }
    }
    assert own[..|own|] == own;
  }

  method ReadEnding(store: InMemoryDelegationStore, raised: Option<Fault>, ending: Ending, id: string, parentTask: string)
    returns (result: Result)
    ensures forall h: Hub :: h.ledger == store.View() && h.raised == raised ==> result == Judge(h, ending, id, parentTask)
  {
    hide Unseen;
    var stored := ArtifactsOf(if id in store.progress then store.progress[id] else []);
    result := Result(id, parentTask, Failure, stored, NO_SUMMARY, raised);
    if raised.None? {
      match ending {
        case Raises(text) => result := result.(error := Some(Fault.Said(text)));
        case Returns(r) =>
          if r.id != id {
            result := result.(error := Some(ForeignResult));
          } else if r.parentTask != parentTask {
            result := result.(error := Some(WrongParent));
          } else {
            var merged := MergeArtifacts(r.artifacts, stored);
            result := r.(artifacts := merged);
          }
      }
    }
  }

  class Manager {
    const handlers: seq<Handler>
    const factory: SessionFactory
    const store: InMemoryDelegationStore
    const engine: Engine

    constructor (handlers: seq<Handler>, factory: SessionFactory, store: InMemoryDelegationStore, engine: Engine)
      ensures this.handlers == handlers && this.factory == factory && this.store == store && this.engine == engine
    {
      this.handlers, this.factory, this.store, this.engine := handlers, factory, store, engine;
    }

    /** `_finish`; false when the store refuses the result. */
    method Conclude(result: Result, ghost child: Option<SessionView>) returns (ok: bool)
      modifies store, factory.bus
      ensures var rep := Concluded(old(store.View()), old(factory.bus.events), child, result);
        ok == rep.Reported? && (ok ==> rep == Reported(store.View(), factory.bus.events, child, result))
    {
      ok := store.Finish(result);
      if ok {
        factory.bus.Publish(DelegationFinished(result.id, OutcomeName(result.outcome)));
      }
    }

    /** The part after the child exists: run the handler, read its ending, close the child, conclude. */
    method Supervise(child: KernelSession, call: Call, maxSteps: int, parentTask: string, conduct: Conduct, envelope: Result -> Json)
      returns (ok: bool, result: Result)
      requires child.bus == factory.bus
      modifies store, child, factory.bus
      ensures var h := DoAll(old(HubOf(store, child, None)), conduct.acts, call.id, maxSteps);
        var rep := Wrapped(h, conduct.ending, call.id, parentTask, envelope);
        && ok == rep.Reported? && (ok ==> rep == Reported(store.View(), factory.bus.events, Some(child.View()), result))
        && (rep.Abandoned? ==> rep == Abandoned(store.View(), factory.bus.events, child.View()))
    {
      hide DoAll, Judge, SessionView.Closed, Settled, Describable;
      var raised := RunHandler(store, child, conduct.acts, call.id, maxSteps);
      result := ReadEnding(store, raised, conduct.ending, call.id, parentTask);
      if !child.closed && HasTask(child.data) && result.outcome.Success? && !Describable(result) {
        return false, result;
      }
      var _ := child.CompleteTask(envelope(result), if result.outcome.Success? then "completed" else "failed");
      ok := Conclude(result, Some(child.View()));
    }

    /** `delegate`; false when it raises. */
    method Delegate(parent: KernelSession, call: Call, conduct: Conduct, policyJson: Policy -> Json, envelope: Result -> Json)
      returns (ok: bool, result: Result, child: KernelSession?)
      requires parent.bus == factory.bus
      modifies store, factory.bus
      ensures var rep := Delegated(old(store.View()), old(factory.bus.events), old(parent.View()), call, engine, handlers,
                                   conduct, policyJson, envelope);
        && ok == rep.Reported?
        && (ok ==> rep == Reported(store.View(), factory.bus.events, if child == null then None else Some(child.View()), result))
        && (rep.Abandoned? ==> child != null && rep == Abandoned(store.View(), factory.bus.events, child.View()))
    {
      hide DoAll, Judge, Wrapped, Concluded, Resolve, Validate, Started;
      result := Result(call.id, parent.identity.taskId, Failure, [], NO_SUMMARY, None);
      child := null;
      if parent.closed || !HasTask(parent.data) || call.target == "" || call.objective == "" {
        return false, result, null;
      }
      var verdict := Validate(engine, parent.identity.depth, parent.scope, call.policy);
      var policy := if verdict.Valid? then verdict.policy else call.policy;
      ok := store.Start(Request(call.id, parent.identity.sessionId, parent.identity.taskId, call.target, call.objective, policy));
      if !ok {
        return;
      }
      factory.bus.Publish(DelegationStarted(call.id));
      var unresolved := Resolve(handlers, call.target);
      if !verdict.Valid? {
        result := result.(outcome := Rejected, error := Some(FaultOf(verdict)));
        ok := Conclude(result, None);
        return;
      }
      if unresolved.Some? {
        result := result.(error := unresolved);
        ok := Conclude(result, None);
        return;
      }
      child := factory.CreateChild(parent, call.childId, call.task, call.target, call.id, Some(policy.capabilities));
      if child == null {
        assert factory.bus.events == old(factory.bus.events) + [DelegationStarted(call.id)];
        result := result.(outcome := Rejected, error := Some(NoChild));
        ok := Conclude(result, None);
        return;
      }
      child.data := child.data[POLICY_KEY := Plain(policyJson(policy))];
      ok, result := Supervise(child, call, policy.maxSteps, parent.identity.taskId, conduct, envelope);
    }
  }
}
