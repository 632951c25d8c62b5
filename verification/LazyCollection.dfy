/** Lazy creation of the collection by any number of threads: an unlocked flag, an unlocked existence check,
    and a lock with a second look at the flag. Client calls are taken to succeed. */
module LazyCollection {

  /** Where a thread is inside `_ensure_collection`. */
  datatype Pc =
    | Entering      // about to read the ready flag, unlocked
    | Checking      // about to ask the server whether the collection exists, unlocked
    | Noting        // it does: about to set the flag, unlocked
    | Waiting       // it does not: about to take the lock
    | Rechecking    // holding the lock: about to read the flag again
    | Creating      // about to create the collection
    | Indexing      // about to create the payload index
    | Marking       // about to set the flag, still locked
    | Leaving       // about to release the lock
    | Returned

  predicate Locked(pc: Pc) { pc in {Rechecking, Creating, Indexing, Marking, Leaving} }

  /** The store object, the server, and every thread. `creates` and `indexes` count client calls. */
  datatype State = State(
    ready: bool, holder: int, present: bool, index: bool, creates: nat, indexes: nat, pcs: seq<Pc>)

  const FREE := -1

  predicate Blocked(s: State, t: nat)
    requires t < |s.pcs|
  {
    s.pcs[t] == Returned || (s.pcs[t] == Waiting && s.holder != FREE)
  }

  /** The next action of thread `t`; a blocked thread stays where it is. */
  function Step(s: State, t: nat): State {
    if t >= |s.pcs| || Blocked(s, t) then s
    else
      match s.pcs[t]
      case Entering => s.(pcs := s.pcs[t := if s.ready then Returned else Checking])
      case Checking => s.(pcs := s.pcs[t := if s.present then Noting else Waiting])
      case Noting => s.(ready := true, pcs := s.pcs[t := Returned])
      case Waiting => s.(holder := t, pcs := s.pcs[t := Rechecking])
      case Rechecking => s.(pcs := s.pcs[t := if s.ready then Leaving else Creating])
      case Creating => s.(present := true, creates := s.creates + 1, pcs := s.pcs[t := Indexing])
      case Indexing => s.(index := true, indexes := s.indexes + 1, pcs := s.pcs[t := Marking])
      case Marking => s.(ready := true, pcs := s.pcs[t := Leaving])
      case Leaving => s.(holder := FREE, pcs := s.pcs[t := Returned])
      case Returned => s
  }

  /** `n` threads enter, whatever the server already has. */
  function Start(n: nat, had: bool): State { State(false, FREE, had, false, 0, 0, seq(n, _ => Entering)) }

  /** The threads take turns as the schedule says. */
  function Run(s: State, schedule: seq<nat>): State {
    if schedule == [] then s else Step(Run(s, schedule[..|schedule| - 1]), schedule[|schedule| - 1])
  }

  /** At most one thread is past the lock, and it knows how far creation has come. */
  ghost predicate Inv(s: State, had: bool) {
    && (forall t :: 0 <= t < |s.pcs| ==> (Locked(s.pcs[t]) <==> s.holder == t))
    && (s.holder == FREE || 0 <= s.holder < |s.pcs|)
    && s.indexes <= s.creates <= 1
    && (s.creates == 1 || had ==> s.present) && (s.present ==> had || s.creates == 1)
    && (had ==> s.creates == 0 && forall t :: 0 <= t < |s.pcs| ==> s.pcs[t] in {Entering, Checking, Noting, Returned})
    && (s.ready ==> s.present)
    && (s.creates == 1 && !s.ready ==> s.holder != FREE && s.pcs[s.holder] in {Indexing, Marking})
    && (s.holder != FREE && s.pcs[s.holder] == Creating ==> s.creates == 0)
    && (s.holder != FREE && s.pcs[s.holder] == Indexing ==> s.creates == 1 && s.indexes == 0)
    && (s.holder != FREE && s.pcs[s.holder] == Marking ==> s.creates == 1 && s.indexes == 1)
    && (s.creates == 1 && s.indexes == 0 ==> s.holder != FREE && s.pcs[s.holder] == Indexing)
    && (forall t :: 0 <= t < |s.pcs| && s.pcs[t] in {Noting, Returned, Leaving} ==> s.present)
    && (s.index <==> s.indexes == 1)
  }

  lemma StartInv(n: nat, had: bool)
    ensures Inv(Start(n, had), had)
  {
  }

  lemma StepKeeps(s: State, t: nat, had: bool)
    requires Inv(s, had)
    ensures Inv(Step(s, t), had)
  {
    if t < |s.pcs| && !Blocked(s, t) {
      var u := Step(s, t);
      assert forall k :: 0 <= k < |s.pcs| && k != t ==> u.pcs[k] == s.pcs[k];
      assert Locked(s.pcs[t]) <==> s.holder == t;
    }
  }

  lemma {:induction false} RunKeeps(n: nat, had: bool, schedule: seq<nat>)
    ensures Inv(Run(Start(n, had), schedule), had)
  {
    hide Inv, Step;
    if schedule == [] {
      StartInv(n, had);
    } else {
      RunKeeps(n, had, schedule[..|schedule| - 1]);
      StepKeeps(Run(Start(n, had), schedule[..|schedule| - 1]), schedule[|schedule| - 1], had);
    }
  }

  /** For any number of threads and any interleaving: the collection and its index are each created at most
      once, the collection exists once any call has returned, and if it was there to begin with these calls
      create neither of the two. */
  lemma CreatedAtMostOnce(n: nat, had: bool, schedule: seq<nat>)
    ensures var s := Run(Start(n, had), schedule);
      && s.creates <= 1 && s.indexes <= s.creates && (had ==> s.creates == 0 && s.indexes == 0 && !s.index)
      && (forall t :: 0 <= t < |s.pcs| && s.pcs[t] == Returned ==> s.present)
  {
    RunKeeps(n, had, schedule);
  }

  /** Once every call has returned, a missing collection and its index have been created, exactly once. */
  lemma AllReturned(n: nat, schedule: seq<nat>)
    requires n > 0 && forall t :: 0 <= t < |Run(Start(n, false), schedule).pcs| ==> Run(Start(n, false), schedule).pcs[t] == Returned
    ensures var s := Run(Start(n, false), schedule); s.creates == 1 && s.indexes == 1 && s.index && s.holder == FREE
  {
    RunKeeps(n, false, schedule);
    SameThreads(n, false, schedule);
    assert Run(Start(n, false), schedule).pcs[0] == Returned;
  }

  lemma {:induction false} SameThreads(n: nat, had: bool, schedule: seq<nat>)
    ensures |Run(Start(n, had), schedule).pcs| == n
  {
    if schedule != [] { SameThreads(n, had, schedule[..|schedule| - 1]); }
  }

  /** No deadlock: while some call has not returned, some thread can act. */
  lemma SomeoneCanAct(n: nat, had: bool, schedule: seq<nat>)
    requires var s := Run(Start(n, had), schedule); exists t :: 0 <= t < |s.pcs| && s.pcs[t] != Returned
    ensures var s := Run(Start(n, had), schedule); exists t: nat :: t < |s.pcs| && !Blocked(s, t)
  {
    hide Run;
    RunKeeps(n, had, schedule);
    var s := Run(Start(n, had), schedule);
    var t :| 0 <= t < |s.pcs| && s.pcs[t] != Returned;
    if Blocked(s, t) { assert !Blocked(s, s.holder) by { assert Locked(s.pcs[s.holder]); } }
  }

  /** Once the flag is set it stays set, and a call that enters then returns at its first action without having asked
      the server anything. */
  lemma {:induction false} ReadyStays(s: State, schedule: seq<nat>, t: nat)
    requires s.ready && t < |s.pcs|
    ensures var u := Run(s, schedule);
      u.ready && |u.pcs| == |s.pcs| && (u.pcs[t] == Entering ==> Step(u, t) == u.(pcs := u.pcs[t := Returned]))
  {
    if schedule != [] { ReadyStays(s, schedule[..|schedule| - 1], t); }
  }

  /** And every action gets a thread nearer to returning. */
  function Distance(pc: Pc): nat {
    match pc
    case Entering => 8
    case Checking => 7
    case Waiting => 6
    case Rechecking => 5
    case Creating => 4
    case Indexing => 3
    case Marking => 2
    case Leaving => 1
    case Noting => 1
    case Returned => 0
  }

  function Remaining(pcs: seq<Pc>): nat { if pcs == [] then 0 else Remaining(pcs[..|pcs| - 1]) + Distance(pcs[|pcs| - 1]) }

  lemma {:induction false} RemainingUpdate(pcs: seq<Pc>, t: nat, pc: Pc)
    requires t < |pcs|
    ensures Remaining(pcs[t := pc]) == Remaining(pcs) - Distance(pcs[t]) + Distance(pc)
  {
    var n := |pcs| - 1;
    if t < n {
      RemainingUpdate(pcs[..n], t, pc);
      assert pcs[t := pc][..n] == pcs[..n][t := pc];
    } else {
      assert pcs[t := pc][..n] == pcs[..n];
    }
  }

  lemma ActionsAreFinite(s: State, t: nat)
    requires t < |s.pcs| && !Blocked(s, t)
    ensures Remaining(Step(s, t).pcs) < Remaining(s.pcs)
  {
    RemainingUpdate(s.pcs, t, Step(s, t).pcs[t]);
  }

  /** Entries of a schedule at which the thread named does act. */
  function Actions(s: State, schedule: seq<nat>): nat {
    if schedule == [] then 0
    else
      var before, t := Run(s, schedule[..|schedule| - 1]), schedule[|schedule| - 1];
      Actions(s, schedule[..|schedule| - 1]) + if t < |before.pcs| && !Blocked(before, t) then 1 else 0
  }

  /** So however long the schedule, `n` calls take at most 8 n actions between them. */
  lemma {:induction false} ActionsAreBounded(n: nat, had: bool, schedule: seq<nat>)
    ensures Actions(Start(n, had), schedule) + Remaining(Run(Start(n, had), schedule).pcs) <= 8 * n
  {
    hide Step, Blocked;
    if schedule == [] {
      RemainingStart(n);
    } else {
      var front := schedule[..|schedule| - 1];
      ActionsAreBounded(n, had, front);
      var s, t := Run(Start(n, had), front), schedule[|schedule| - 1];
      if t < |s.pcs| && !Blocked(s, t) { ActionsAreFinite(s, t); } else { Idle(s, t); }
    }
  }

  lemma Idle(s: State, t: nat)
    requires t >= |s.pcs| || Blocked(s, t)
    ensures Step(s, t) == s
  {
  }

  lemma {:induction false} RemainingStart(n: nat)
    ensures Remaining(seq(n, _ => Entering)) == 8 * n
  {
    if n > 0 {
      assert seq(n, _ => Entering)[..n - 1] == seq(n - 1, _ => Entering);
      RemainingStart(n - 1);
    }
  }

  // ---------------------------------------------------------------- does a return imply the index?

  ghost predicate IndexedOnReturn(s: State) { forall t :: 0 <= t < |s.pcs| && s.pcs[t] == Returned ==> s.index }

  /** A single thread never finds the collection it has not made. */
  ghost predicate Alone(s: State) {
    && |s.pcs| == 1 && (s.pcs[0] in {Marking, Leaving, Returned} ==> s.index)
    && (s.pcs[0] in {Entering, Checking, Waiting, Rechecking, Creating} ==> !s.ready && !s.present)
    && (s.pcs[0] == Indexing ==> !s.ready) && s.pcs[0] != Noting
  }

  lemma {:induction false} AloneKeeps(schedule: seq<nat>)
    ensures Alone(Run(Start(1, false), schedule))
  {
    if schedule != [] { AloneKeeps(schedule[..|schedule| - 1]); }
  }

  /** Two of `n` threads before all others. */
  function Pair(n: nat, a: Pc, b: Pc): seq<Pc> { seq(n, i => if i == 0 then a else if i == 1 then b else Entering) }

  const RACE: seq<nat> := [0, 0, 0, 0, 0, 1, 1, 1]

  /** From the state after `k` actions to the one after the next. */
  lemma RunNext(n: nat, a: seq<nat>, k: nat, s: State, u: State)
    requires n >= 2 && k < |a| && Run(Start(n, false), a[..k]) == s
    requires u.pcs == Step(s, a[k]).pcs && u == Step(s, a[k]).(pcs := u.pcs)
    ensures Run(Start(n, false), a[..k + 1]) == u
  {
    hide Step;
    assert a[..k + 1][..k] == a[..k];
  }

  /** The first thread has created the collection and not yet the index; the second has not begun. */
  lemma CreatedNotIndexed(n: nat)
    requires n >= 2
    ensures Run(Start(n, false), RACE[..5]) == State(false, 0, true, false, 1, 0, Pair(n, Indexing, Entering))
  {
    hide Run;
    RunNone(Start(n, false), RACE);
    var s0 := State(false, FREE, false, false, 0, 0, Pair(n, Entering, Entering));
    assert Start(n, false).pcs == s0.pcs;
    var s1 := s0.(pcs := Pair(n, Checking, Entering));
    var s2 := s0.(pcs := Pair(n, Waiting, Entering));
    var s3 := s0.(holder := 0, pcs := Pair(n, Rechecking, Entering));
    var s4 := s3.(pcs := Pair(n, Creating, Entering));
    RunNext(n, RACE, 0, s0, s1);
    RunNext(n, RACE, 1, s1, s2);
    RunNext(n, RACE, 2, s2, s3);
    RunNext(n, RACE, 3, s3, s4);
    RunNext(n, RACE, 4, s4, State(false, 0, true, false, 1, 0, Pair(n, Indexing, Entering)));
  }

  lemma RunNone(s: State, a: seq<nat>)
    ensures Run(s, a[..0]) == s
  {
  }

  /** With two threads or more a call may return before the payload index exists: a second thread that asks the
      server between the two creations is told that the collection is there and goes ahead. */
  lemma ReturnBeforeIndex(n: nat)
    requires n >= 2
    ensures Run(Start(n, false), RACE) == State(true, 0, true, false, 1, 0, Pair(n, Indexing, Returned))
  {
    hide Run;
    CreatedNotIndexed(n);
    var s5 := State(false, 0, true, false, 1, 0, Pair(n, Indexing, Entering));
    var s6 := s5.(pcs := Pair(n, Indexing, Checking));
    var s7 := s5.(pcs := Pair(n, Indexing, Noting));
    RunNext(n, RACE, 5, s5, s6);
    RunNext(n, RACE, 6, s6, s7);
    RunNext(n, RACE, 7, s7, State(true, 0, true, false, 1, 0, Pair(n, Indexing, Returned)));
    assert RACE[..8] == RACE;
  }

  /** When a return does imply the index of a collection that was missing: on every schedule if and only if no
      two threads call. */
  lemma ReturnMeansIndexIff(n: nat)
    ensures (forall schedule :: IndexedOnReturn(Run(Start(n, false), schedule))) <==> n <= 1
  {
    if n >= 2 {
      ReturnBeforeIndex(n);
      assert !IndexedOnReturn(Run(Start(n, false), RACE)) by { assert Pair(n, Indexing, Returned)[1] == Returned; }
    } else {
      forall schedule ensures IndexedOnReturn(Run(Start(n, false), schedule)) {
        SameThreads(n, false, schedule);
        if n == 1 { AloneKeeps(schedule); }
      }
    }
  }
}
