/** The delegation protocol on values: the durable store, one handler's behaviour, and what is told. */
module Delegation {
  import opened Text
  import opened TaskBoard
  import opened Sessions

  datatype Request = Request(id: string, parentSession: string, parentTask: string, target: string, objective: string, policy: Policy)

  datatype Progress = Progress(delegationId: string, sequence: int, eventId: string, artifact: Artifact, status: string)

  datatype Outcome = Success | Failure | Rejected | Timeout

  datatype Fault =
    | OutOfPolicy | BeyondDepth | BeyondScope
    | NoHandler | Ambiguous | NoChild
    | ForeignProgress | BeyondSteps | UnknownDelegation | OutOfOrder | Undescribable
    | ForeignResult | WrongParent | ChildClosed
    | Said(text: string)

  datatype Result = Result(id: string, parentTask: string, outcome: Outcome, artifacts: seq<Artifact>, summary: Json, error: Option<Fault>)

  /** `result.as_dict()` does not raise. */
  predicate Describable(r: Result) {
    Dictable(r.summary) && forall i :: 0 <= i < |r.artifacts| ==> Dictable(r.artifacts[i].payload)
  }

  const NO_SUMMARY := JObj(map[])

  // ---------------------------------------------------------------- the store

  datatype Ledger = Ledger(requests: map<string, Request>, progress: map<string, seq<Progress>>, results: map<string, Result>)

  datatype Reply = Ok(ledger: Ledger) | Refused(fault: Fault)

  function Started(l: Ledger, r: Request): Option<Ledger> {
    if r.id in l.requests then None
    else Some(l.(requests := l.requests[r.id := r], progress := l.progress[r.id := []]))
  }

  predicate HasEvent(items: seq<Progress>, eventId: string) { exists i :: 0 <= i < |items| && items[i].eventId == eventId }

  /** A repeated event id is accepted and not stored; anything else must be the next in sequence. */
  function Appended(l: Ledger, p: Progress): Reply {
    if p.delegationId !in l.progress then Refused(UnknownDelegation)
    else
      var items := l.progress[p.delegationId];
      if HasEvent(items, p.eventId) then Ok(l)
      else if p.sequence != |items| + 1 then Refused(OutOfOrder)
      else Ok(l.(progress := l.progress[p.delegationId := items + [p]]))
  }

  /** A result is written once; writing the same again is no error. */
  function Settled(l: Ledger, r: Result): Option<Ledger> {
    if r.id !in l.requests || (r.id in l.results && l.results[r.id] != r) then None
    else Some(l.(results := l.results[r.id := r]))
  }

  function StoredFor(l: Ledger, id: string): seq<Progress> { if id in l.progress then l.progress[id] else [] }

  class InMemoryDelegationStore {
    var requests: map<string, Request>
    var progress: map<string, seq<Progress>>
    var results: map<string, Result>

    function View(): Ledger
      reads this
    {
      Ledger(requests, progress, results)
    }

    constructor ()
      ensures View() == Ledger(map[], map[], map[])
    {
      requests, progress, results := map[], map[], map[];
    }

    method Start(r: Request) returns (ok: bool)
      modifies this
      ensures var l := Started(old(View()), r); ok == l.Some? && View() == if ok then l.value else old(View())
    {
      if r.id in requests {
        return false;
      }
      requests := requests[r.id := r];
      progress := progress[r.id := []];
      ok := true;
    }

    method AppendProgress(p: Progress) returns (fault: Option<Fault>)
      modifies this`progress
      ensures match Appended(old(View()), p)
        case Ok(l) => fault.None? && View() == l
        case Refused(f) => fault == Some(f) && View() == old(View())
    {
      if p.delegationId !in progress {
        return Some(UnknownDelegation);
      }
      var items := progress[p.delegationId];
      if exists i :: 0 <= i < |items| && items[i].eventId == p.eventId {
        return None;
      }
      if p.sequence != |items| + 1 {
        return Some(OutOfOrder);
      }
      progress := progress[p.delegationId := items + [p]];
      fault := None;
    }

    method Finish(r: Result) returns (ok: bool)
      modifies this`results
      ensures var l := Settled(old(View()), r); ok == l.Some? && View() == if ok then l.value else old(View())
    {
      if r.id !in requests || (r.id in results && results[r.id] != r) {
        return false;
      }
      results := results[r.id := r];
      ok := true;
    }
  }

  // ---------------------------------------------------------------- what a handler does

  datatype StoreOp = StartOp(request: Request) | AppendOp(progress: Progress) | SettleOp(result: Result)

  /** One act of a handler: emitting progress (it may catch what the sink raises), closing the session it
      was given, or anything that other delegations do to the store and the bus in the meantime. */
  datatype Act =
    | Emit(progress: Progress, catches: bool)
    | CloseChild(ending: Json, status: string, catches: bool)
    | Elsewhere(op: StoreOp, told: seq<Event>)

  datatype Ending = Returns(result: Result) | Raises(text: string)

  /** Everything a handler does in one run. */
  datatype Conduct = Conduct(acts: seq<Act>, ending: Ending)

  datatype Hub = Hub(ledger: Ledger, events: seq<Event>, child: SessionView, raised: Option<Fault>)

  function Operate(l: Ledger, op: StoreOp): Ledger {
    match op
    case StartOp(r) => var m := Started(l, r); if m.Some? then m.value else l
    case AppendOp(p) => var m := Appended(l, p); if m.Ok? then m.ledger else l
    case SettleOp(r) => var m := Settled(l, r); if m.Some? then m.value else l
  }

  function OperateAll(l: Ledger, ops: seq<StoreOp>): Ledger {
    if ops == [] then l else Operate(OperateAll(l, ops[..|ops| - 1]), ops[|ops| - 1])
  }

  /** What the store has is kept, whatever is done to it in whatever order: a request and a result stay as first
      written, and progress grows at its end only. */
  lemma {:induction false} WhatIsStoredStays(l: Ledger, ops: seq<StoreOp>)
    requires l.progress.Keys == l.requests.Keys
    ensures var m := OperateAll(l, ops);
      && m.progress.Keys == m.requests.Keys && l.requests.Keys <= m.requests.Keys && l.results.Keys <= m.results.Keys
      && (forall id :: id in l.requests ==> m.requests[id] == l.requests[id] && l.progress[id] <= m.progress[id])
      && (forall id :: id in l.results ==> m.results[id] == l.results[id])
  {
    hide HasEvent;
    if ops != [] { WhatIsStoredStays(l, ops[..|ops| - 1]); }
  }

  /** A result is accepted if and only if its delegation was started and has no other result yet. */
  lemma ResultIsAcceptedIff(l: Ledger, r: Result)
    ensures Settled(l, r).Some? <==> r.id in l.requests && (r.id in l.results ==> l.results[r.id] == r)
    ensures Settled(l, r).Some? ==> Settled(l, r).value == l.(results := l.results[r.id := r])
  {
  }

  /** A progress as it is published. */
  function Tell(id: string, p: Progress): Event { DelegationProgressed(id, p.sequence, p.eventId, p.artifact, p.status) }

  /** `progress_sink`: identity, budget, durable append, and only then the event, whose payload is a
      dictionary of the artifact's. */
  function Sink(h: Hub, p: Progress, id: string, maxSteps: int): Hub {
    if p.delegationId != id then h.(raised := Some(ForeignProgress))
    else if p.sequence > maxSteps then h.(raised := Some(BeyondSteps))
    else match Appended(h.ledger, p)
      case Refused(f) => h.(raised := Some(f))
      case Ok(l) =>
        if Dictable(p.artifact.payload) then h.(ledger := l, events := h.events + [Tell(id, p)])
        else h.(ledger := l, raised := Some(Undescribable))
  }

  function Caught(h: Hub, catches: bool): Hub { if catches then h.(raised := None) else h }

  function Do(h: Hub, d: Act, id: string, maxSteps: int): Hub {
    match d
    case Emit(p, catches) => Caught(Sink(h, p, id, maxSteps), catches)
    case CloseChild(ending, status, catches) =>
      if h.child.Active()
      then h.(child := h.child.Closed(ending), events := h.events + [TaskClosed(h.child.identity.sessionId, status)])
      else Caught(h.(raised := Some(ChildClosed)), catches)
    case Elsewhere(op, told) => h.(ledger := Operate(h.ledger, op), events := h.events + told)
  }

  /** The handler's acts up to the first exception it does not catch. */
  function DoAll(h: Hub, acts: seq<Act>, id: string, maxSteps: int): Hub {
    if acts == [] then h
    else
      var g := DoAll(h, acts[..|acts| - 1], id, maxSteps);
      if g.raised.Some? then g else Do(g, acts[|acts| - 1], id, maxSteps)
  }

  function ArtifactsOf(items: seq<Progress>): (r: seq<Artifact>) {
    seq(|items|, i requires 0 <= i < |items| => items[i].artifact)
  }

  predicate HasArtifact(arts: seq<Artifact>, id: string) { exists i :: 0 <= i < |arts| && arts[i].id == id }

  /** The result's own artifacts that were not already reported as progress. */
  function Unseen(own: seq<Artifact>, stored: seq<Artifact>): seq<Artifact> {
    if own == [] then []
    else
      var last := own[|own| - 1];
      Unseen(own[..|own| - 1], stored) + if HasArtifact(stored, last.id) then [] else [last]
  }

  /** The manager's reading of how a run ended. */
  function Judge(h: Hub, ending: Ending, id: string, parentTask: string): Result {
    var stored := ArtifactsOf(StoredFor(h.ledger, id));
    if h.raised.Some? then Result(id, parentTask, Failure, stored, NO_SUMMARY, h.raised)
    else match ending
      case Raises(text) => Result(id, parentTask, Failure, stored, NO_SUMMARY, Some(Said(text)))
      case Returns(r) =>
        if r.id != id then Result(id, parentTask, Failure, stored, NO_SUMMARY, Some(ForeignResult))
        else if r.parentTask != parentTask then Result(id, parentTask, Failure, stored, NO_SUMMARY, Some(WrongParent))
        else r.(artifacts := stored + Unseen(r.artifacts, stored))
  }

  /** Acts are performed in order, up to the first exception that gets through. */
  lemma {:induction false} ActsConcat(h: Hub, a: seq<Act>, b: seq<Act>, id: string, maxSteps: int)
    ensures var g := DoAll(h, a, id, maxSteps); a != [] ==>
      DoAll(h, a + b, id, maxSteps) == if g.raised.Some? then g else DoAll(g, b, id, maxSteps)
  {
    hide Do;
    var g := DoAll(h, a, id, maxSteps);
    if b == [] {
      assert a + b == a;
    } else {
      assert (a + b)[..|a + b| - 1] == a + b[..|b| - 1];
      ActsConcat(h, a, b[..|b| - 1], id, maxSteps);
    }
  }

  /** What one act does where nothing has been raised. Progress is stored if it is of this delegation, within the
      budget and next in sequence, and then told; a repeat is told without being stored; anything else raises and
      changes nothing, except that an artifact that does not convert raises when it has been stored. */
  lemma OneAct(h: Hub, act: Act, id: string, maxSteps: int)
    requires h.raised.None? && id in h.ledger.progress
    ensures var g, items := DoAll(h, [act], id, maxSteps), h.ledger.progress[id];
      && (act.Emit? ==>
            var p := act.progress;
            var known := exists i :: 0 <= i < |items| && items[i].eventId == p.eventId;
            var taken := p.delegationId == id && p.sequence <= maxSteps && (known || p.sequence == |items| + 1);
            && g.child == h.child
            && g.ledger == (if taken && !known then h.ledger.(progress := h.ledger.progress[id := items + [p]]) else h.ledger)
            && g.events == h.events + (if taken && Dictable(p.artifact.payload)
                                       then [DelegationProgressed(id, p.sequence, p.eventId, p.artifact, p.status)] else [])
            && (g.raised.Some? <==> !act.catches && !(taken && Dictable(p.artifact.payload))))
      && (act.CloseChild? ==>
            && g.ledger == h.ledger
            && (h.child.Active() ==> g == h.(child := g.child, events := h.events + [TaskClosed(h.child.identity.sessionId, act.status)])
                                     && g.child == h.child.Closed(act.ending))
            && (!h.child.Active() ==> g.child == h.child && g.events == h.events && (g.raised.Some? <==> !act.catches)))
  {
    hide SessionView.Closed;
    assert [act][..0] == [];
  }

  /** The artifacts with an id that is not stored, in their order. */
  lemma {:induction false} UnseenConcat(a: seq<Artifact>, b: seq<Artifact>, stored: seq<Artifact>)
    ensures Unseen(a + b, stored) == Unseen(a, stored) + Unseen(b, stored)
    ensures |b| == 1 ==> Unseen(b, stored) == if exists i :: 0 <= i < |stored| && stored[i].id == b[0].id then [] else b
  {
    if b == [] {
      assert a + b == a;
    } else {
      assert (a + b)[..|a + b| - 1] == a + b[..|b| - 1];
      UnseenConcat(a, b[..|b| - 1], stored);
    }
  }

  // ---------------------------------------------------------------- what is told about one delegation

  predicate AboutId(e: Event, id: string) {
    (e.DelegationStarted? || e.DelegationProgressed? || e.DelegationFinished?) && e.delegationId == id
  }

  function About(es: seq<Event>, id: string): (r: seq<Event>)
    ensures forall i :: 0 <= i < |r| ==> AboutId(r[i], id)
  {
    if es == [] then []
    else About(es[..|es| - 1], id) + if AboutId(es[|es| - 1], id) then [es[|es| - 1]] else []
  }

  lemma AboutPush(es: seq<Event>, e: Event, id: string)
    ensures About(es + [e], id) == About(es, id) + if AboutId(e, id) then [e] else []
  {
    assert (es + [e])[..|es|] == es;
  }

  lemma {:induction false} AboutOthers(es: seq<Event>, more: seq<Event>, id: string)
    requires forall i :: 0 <= i < |more| ==> !AboutId(more[i], id)
    ensures About(es + more, id) == About(es, id)
  {
    if more == [] {
      assert es + more == es;
    } else {
      assert es + more == es + more[..|more| - 1] + [more[|more| - 1]];
      AboutOthers(es, more[..|more| - 1], id);
      AboutPush(es + more[..|more| - 1], more[|more| - 1], id);
    }
  }

  predicate TellsOf(es: seq<Event>, eventId: string) {
    exists i :: 0 <= i < |es| && es[i].DelegationProgressed? && es[i].eventId == eventId
  }

  /** The progress events without the repeats of an event id. */
  function Firsts(es: seq<Event>): seq<Event> {
    if es == [] then []
    else
      var front, last := es[..|es| - 1], es[|es| - 1];
      Firsts(front) + if last.DelegationProgressed? && !TellsOf(front, last.eventId) then [last] else []
  }

  lemma FirstsPush(es: seq<Event>, e: Event)
    requires e.DelegationProgressed?
    ensures Firsts(es + [e]) == Firsts(es) + if TellsOf(es, e.eventId) then [] else [e]
  {
    assert (es + [e])[..|es|] == es;
  }

  lemma {:induction false} FirstsTellTheSame(es: seq<Event>, eventId: string)
    ensures TellsOf(Firsts(es), eventId) <==> TellsOf(es, eventId)
  {
    if es != [] {
      var front, last := es[..|es| - 1], es[|es| - 1];
      FirstsTellTheSame(front, eventId);
      if last.DelegationProgressed? { FirstsTellTheSame(front, last.eventId); }
      TellsPush(front, last, eventId);
      assert front + [last] == es && Firsts(front) + [] == Firsts(front);
      TellsPush(Firsts(front), last, eventId);
    }
  }

  lemma TellsPush(es: seq<Event>, e: Event, eventId: string)
    ensures TellsOf(es + [e], eventId) <==> TellsOf(es, eventId) || (e.DelegationProgressed? && e.eventId == eventId)
  {
    if TellsOf(es, eventId) {
      var i :| 0 <= i < |es| && es[i].DelegationProgressed? && es[i].eventId == eventId;
      assert (es + [e])[i] == es[i];
    }
    if e.DelegationProgressed? && e.eventId == eventId { assert (es + [e])[|es|] == e; }
  }

  /** Stored progress as it is published. */
  function Published(id: string, items: seq<Progress>): seq<Event> {
    seq(|items|, i requires 0 <= i < |items| => Tell(id, items[i]))
  }

  lemma PublishedTells(id: string, items: seq<Progress>, eventId: string)
    ensures TellsOf(Published(id, items), eventId) <==> HasEvent(items, eventId)
  {
    var es := Published(id, items);
    if HasEvent(items, eventId) {
      var i :| 0 <= i < |items| && items[i].eventId == eventId;
      assert es[i].eventId == eventId;
    }
  }

  // ---------------------------------------------------------------- the record of one delegation

  /** Stored progress: numbered 1..n in order, one event id each, all for this delegation. */
  ghost predicate Ordered(items: seq<Progress>, id: string, maxSteps: int) {
    && (forall i :: 0 <= i < |items| ==> items[i].sequence == i + 1 && items[i].delegationId == id)
    && (forall i, j :: 0 <= i < j < |items| ==> items[i].eventId != items[j].eventId)
    && (items != [] ==> |items| <= maxSteps)
  }

  /** Every stored artifact's payload converts to a dictionary. */
  predicate AllDescribable(items: seq<Progress>) { forall i :: 0 <= i < |items| ==> Dictable(items[i].artifact.payload) }

  /** Told as stored: only progress that is stored, and in its order with its content, repeats apart, if and
      only if all of it can be told. */
  ghost predicate ToldAsStored(pubs: seq<Event>, id: string, items: seq<Progress>) {
    && (forall i :: 0 <= i < |pubs| ==>
          pubs[i].DelegationProgressed? && Dictable(pubs[i].artifact.payload) && HasEvent(items, pubs[i].eventId))
    && (Firsts(pubs) == Published(id, items) <==> AllDescribable(items))
  }

  /** Told of a running delegation: started once, then its progress; not finished. */
  ghost predicate Told(es: seq<Event>, id: string, items: seq<Progress>) {
    var mine := About(es, id);
    mine != [] && mine[0] == DelegationStarted(id) && ToldAsStored(mine[1..], id, items)
  }

  ghost predicate RecordInv(h: Hub, r: Request) {
    && r.id in h.ledger.requests && h.ledger.requests[r.id] == r
    && r.id in h.ledger.progress && r.id !in h.ledger.results
    && Ordered(h.ledger.progress[r.id], r.id, r.policy.maxSteps)
    && Told(h.events, r.id, h.ledger.progress[r.id])
  }

  function OpId(op: StoreOp): string {
    match op
    case StartOp(r) => r.id
    case AppendOp(p) => p.delegationId
    case SettleOp(r) => r.id
  }

  /** What other delegations do is not about this one (ids are new for each). */
  predicate Foreign(d: Act, id: string) {
    d.Elsewhere? ==> OpId(d.op) != id && forall i :: 0 <= i < |d.told| ==> !AboutId(d.told[i], id)
  }

  lemma OrderedPush(items: seq<Progress>, p: Progress, id: string, maxSteps: int)
    requires Ordered(items, id, maxSteps) && !HasEvent(items, p.eventId)
    requires p.sequence == |items| + 1 && p.sequence <= maxSteps && p.delegationId == id
    ensures Ordered(items + [p], id, maxSteps)
  {
  }

  /** What is told can be told, first times included. */
  lemma {:induction false} FirstsAreTold(pubs: seq<Event>)
    ensures forall e :: e in Firsts(pubs) ==> e in pubs
  {
    if pubs != [] {
      FirstsAreTold(pubs[..|pubs| - 1]);
      assert pubs == pubs[..|pubs| - 1] + [pubs[|pubs| - 1]];
    }
  }

  /** Something stored that cannot be told is missing among what is told. */
  lemma UntoldIsMissing(pubs: seq<Event>, id: string, items: seq<Progress>)
    requires forall i :: 0 <= i < |pubs| ==> pubs[i].DelegationProgressed? && Dictable(pubs[i].artifact.payload)
    requires !AllDescribable(items)
    ensures Firsts(pubs) != Published(id, items)
  {
    FirstsAreTold(pubs);
    var k :| 0 <= k < |items| && !Dictable(items[k].artifact.payload);
    assert Published(id, items)[k] !in pubs;
  }

  lemma HasEventPush(items: seq<Progress>, p: Progress, eventId: string)
    ensures HasEvent(items + [p], eventId) <==> HasEvent(items, eventId) || p.eventId == eventId
  {
    assert (items + [p])[|items|] == p;
    if HasEvent(items, eventId) {
      var i :| 0 <= i < |items| && items[i].eventId == eventId;
      assert (items + [p])[i] == items[i];
    }
  }

  /** A repeat, told again. */
  lemma RepeatTold(pubs: seq<Event>, e: Event, id: string, items: seq<Progress>)
    requires ToldAsStored(pubs, id, items) && e.DelegationProgressed? && Dictable(e.artifact.payload) && HasEvent(items, e.eventId)
    ensures ToldAsStored(pubs + [e], id, items)
  {
    hide Published, HasEvent, Firsts;
    if AllDescribable(items) {
      FirstsPush(pubs, e);
      FirstsTellTheSame(pubs, e.eventId);
      PublishedTells(id, items, e.eventId);
      assert Firsts(pubs) + [] == Firsts(pubs);
    } else {
      UntoldIsMissing(pubs + [e], id, items);
    }
  }

  /** A new progress that can be told. */
  lemma NewTold(pubs: seq<Event>, p: Progress, id: string, items: seq<Progress>)
    requires ToldAsStored(pubs, id, items) && !HasEvent(items, p.eventId) && Dictable(p.artifact.payload)
    ensures ToldAsStored(pubs + [Tell(id, p)], id, items + [p])
  {
    hide HasEvent, Firsts;
    forall eventId { HasEventPush(items, p, eventId); }
    if AllDescribable(items) {
      FirstsPush(pubs, Tell(id, p));
      FirstsTellTheSame(pubs, p.eventId);
      PublishedTells(id, items, p.eventId);
      assert Published(id, items + [p]) == Published(id, items) + [Tell(id, p)];
    } else {
      assert !AllDescribable(items + [p]) by {
        var k :| 0 <= k < |items| && !Dictable(items[k].artifact.payload);
        assert (items + [p])[k] == items[k];
      }
      UntoldIsMissing(pubs + [Tell(id, p)], id, items + [p]);
    }
  }

  /** A new progress that cannot be told is stored all the same. */
  lemma NewUntold(pubs: seq<Event>, p: Progress, id: string, items: seq<Progress>)
    requires ToldAsStored(pubs, id, items) && !Dictable(p.artifact.payload)
    ensures ToldAsStored(pubs, id, items + [p])
  {
    hide HasEvent, Firsts;
    forall eventId { HasEventPush(items, p, eventId); }
    assert (items + [p])[|items|] == p;
    UntoldIsMissing(pubs, id, items + [p]);
  }

  lemma ToldPush(es: seq<Event>, e: Event, id: string, items: seq<Progress>, later: seq<Progress>)
    requires Told(es, id, items) && AboutId(e, id) && ToldAsStored(About(es, id)[1..] + [e], id, later)
    ensures Told(es + [e], id, later)
  {
    hide ToldAsStored;
    var mine := About(es, id);
    AboutPush(es, e, id);
    assert (mine + [e])[1..] == mine[1..] + [e];
  }

  lemma ToldStays(es: seq<Event>, more: seq<Event>, id: string, items: seq<Progress>)
    requires Told(es, id, items) && forall i :: 0 <= i < |more| ==> !AboutId(more[i], id)
    ensures Told(es + more, id, items)
  {
    AboutOthers(es, more, id);
  }

  lemma SinkKeeps(h: Hub, p: Progress, r: Request)
    requires RecordInv(h, r) && h.raised.None?
    ensures RecordInv(Sink(h, p, r.id, r.policy.maxSteps), r)
  {
    hide Ordered, HasEvent, ToldAsStored, Dictable;
    var id := r.id;
    if p.delegationId == id && p.sequence <= r.policy.maxSteps && Appended(h.ledger, p).Ok? {
      var items := h.ledger.progress[id];
      var pubs := About(h.events, id)[1..];
      if HasEvent(items, p.eventId) {
        if Dictable(p.artifact.payload) {
          RepeatTold(pubs, Tell(id, p), id, items);
          ToldPush(h.events, Tell(id, p), id, items, items);
        }
      } else {
        OrderedPush(items, p, id, r.policy.maxSteps);
        if Dictable(p.artifact.payload) {
          NewTold(pubs, p, id, items);
          ToldPush(h.events, Tell(id, p), id, items, items + [p]);
        } else {
          NewUntold(pubs, p, id, items);
        }
      }
    }
  }

  /** When what is told of a progress is what is stored: a progress that is accepted and told equals the one
      stored under its event id exactly when that id was new or the whole progress repeats a stored one. */
  lemma ToldIsStoredIff(h: Hub, p: Progress, r: Request)
    requires RecordInv(h, r) && h.raised.None? && Sink(h, p, r.id, r.policy.maxSteps).raised.None?
    ensures var before, g := h.ledger.progress[r.id], Sink(h, p, r.id, r.policy.maxSteps);
      && g.events == h.events + [Tell(r.id, p)] && r.id in g.ledger.progress
      && (p in g.ledger.progress[r.id] <==> !HasEvent(before, p.eventId) || p in before)
      && (forall s :: s in g.ledger.progress[r.id] && s.eventId == p.eventId ==> (Tell(r.id, s) == Tell(r.id, p) <==> s == p))
  {
    hide Told;
    var before, g := h.ledger.progress[r.id], Sink(h, p, r.id, r.policy.maxSteps);
    var after := g.ledger.progress[r.id];
    forall s | s in after && s.eventId == p.eventId ensures Tell(r.id, s) == Tell(r.id, p) <==> s == p {
      SinkKeeps(h, p, r);
    }
  }

  /** The difference is real: the same event id sent again with another sequence and artifact is told as
      such, while the store keeps the first. */
  lemma RepeatToldDifferently(l: Ledger, events: seq<Event>, child: SessionView, first: Progress, again: Progress, id: string)
    requires id in l.progress && l.progress[id] == [first] && again == first.(sequence := 7, artifact := again.artifact)
    requires first.delegationId == id && first.sequence == 1 && Dictable(again.artifact.payload)
    ensures var g := Sink(Hub(l, events, child, None), again, id, 7);
      && g.raised.None? && g.ledger == l && g.events == events + [Tell(id, again)] && again !in g.ledger.progress[id]
  {
    assert HasEvent(l.progress[id], again.eventId) by { assert l.progress[id][0].eventId == again.eventId; }
  }

  lemma DoKeeps(h: Hub, d: Act, r: Request)
    requires RecordInv(h, r) && h.raised.None? && Foreign(d, r.id)
    ensures RecordInv(Do(h, d, r.id, r.policy.maxSteps), r)
  {
    hide Ordered, Told, Sink;
    match d
    case Emit(p, catches) => SinkKeeps(h, p, r);
    case CloseChild(ending, status, catches) =>
      ToldStays(h.events, [TaskClosed(h.child.identity.sessionId, status)], r.id, h.ledger.progress[r.id]);
    case Elsewhere(op, told) =>
      ToldStays(h.events, told, r.id, h.ledger.progress[r.id]);
  }

  lemma {:induction false} DoAllKeeps(h: Hub, acts: seq<Act>, r: Request)
    requires RecordInv(h, r) && h.raised.None? && forall i :: 0 <= i < |acts| ==> Foreign(acts[i], r.id)
    ensures RecordInv(DoAll(h, acts, r.id, r.policy.maxSteps), r)
  {
    hide RecordInv, Do, Foreign;
    if acts != [] {
      DoAllKeeps(h, acts[..|acts| - 1], r);
      var g := DoAll(h, acts[..|acts| - 1], r.id, r.policy.maxSteps);
      if g.raised.None? { DoKeeps(g, acts[|acts| - 1], r); }
    }
  }
}
