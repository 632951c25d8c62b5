/** What a restart costs the rest of a run. A life begins with no signature, no repeat and no parse error counted;
    when that makes two drives of one board differ, exactly, and what it means for a crash anywhere in a life. */
module TaskLoopRestarts {
  import opened Text
  import opened Discipline
  import opened TaskBoard
  import opened Departments
  import opened CommandBridge
  import opened Rounds
  import opened Turns
  import opened BoardInvariants
  import opened TaskLoop
  import opened TaskLoopRuns
  import opened TaskLoopCrashes

  // ---------------------------------------------------------------- two drives of one board

  /** The same rounds, with the same saves, to the same end; how often was asked on the way is not compared. */
  ghost predicate SameRun(r: Drive, s: Drive) { r.board == s.board && r.saves == s.saves && r.escaped == s.escaped && r.records == s.records }

  /** The loop's own reasons for stopping as BLOCKED can be told apart. */
  predicate OwnTexts(text: Wording) {
    text.noProgress != text.repeated && text.noProgress != text.maxRounds && text.repeated != text.maxRounds
  }

  /** One guard counts like the other, except under the other's own signature, where it stands at `n`. */
  ghost predicate Behind(g: Guard, h: Guard, n: int) {
    forall s: string :: Repeats(h, s) == if g.lastSignature == Some(s) then n else 0
  }

  /** These rounds all repeat one decision, and nobody joined in them. */
  predicate AllRepeat(records: seq<RoundRecord>, last: Option<string>) {
    forall i :: 0 <= i < |records| ==> Some(records[i].signature) == last && !records[i].grew
  }

  /** The round is closed and counts as progress. */
  predicate Advances(b: Board, d: Decision, w: World) {
    Closes(b, d, w) && Progressed(b, ClosedOn(BeforeClosing(b, d, w), w))
  }

  /** The drive ends on a repeat, and has decided nothing but that repeat since it stood here: the last round it
      closed moved something, but was one too many on this count, and would not be on one that stands at `n` for
      the next. */
  predicate EndsOnRepeat(e: Entry, w: World, lim: Limits, n: int) {
    var records := DriveOn(e, w, lim).records;
    var k := |records|;
    && k > 0 && AllRepeat(records, e.guard.lastSignature) && Advances(records[k - 1].before, records[k - 1].decision, w)
    && e.guard.repeats + k >= lim.maxRepeats > n + k - 1
  }

  /** The first reply that parses comes too late for one error count and in time for the other. */
  ghost predicate TooLate(w: World, round: int, more: int, fewer: int, maxPe: int) {
    exists i: nat :: Max(1, maxPe - more) <= i < Max(1, maxPe - fewer) && w.decide(round, i).Some? && forall h: nat :: h < i ==> w.decide(round, h).None?
  }

  /** The drive ends at a question on which its error budget runs out, and one with so many errors less would not. */
  ghost predicate EndsOnErrors(e: Entry, w: World, lim: Limits, less: int) {
    var way := RoundAt(e, w, lim, |DriveOn(e, w, lim).records|);
    way.Some? && TooLate(w, way.value.entry.board.round, way.value.entry.parseErrors, way.value.entry.parseErrors - less, lim.maxParseErrors)
  }

  lemma DecisionsDifferIff(w: World, round: int, more: int, fewer: int, maxPe: int)
    requires fewer <= more
    ensures Decide(w, round, 0, more, maxPe).decision != Decide(w, round, 0, fewer, maxPe).decision <==> TooLate(w, round, more, fewer, maxPe)
    ensures Decide(w, round, 0, more, maxPe).decision.Some? ==>
      Decide(w, round, 0, fewer, maxPe).decision == Decide(w, round, 0, more, maxPe).decision
  {
    DecideFindsIff(w, round, 0, more, maxPe);
    DecideFindsIff(w, round, 0, fewer, maxPe);
    if Decide(w, round, 0, more, maxPe).decision.Some? {
      DecideAgain(w, round, 0, fewer, more, maxPe);
    } else if Decide(w, round, 0, fewer, maxPe).decision.Some? {
      var i: nat :| i < Max(1, maxPe - fewer) && w.decide(round, i).Some?;
      FirstParsed(w, round, i);
    }
  }

  /** The same answer costs both budgets the same. */
  lemma {:induction false} SameCost(w: World, round: int, attempt: nat, more: int, fewer: int, maxPe: int)
    requires fewer <= more && Decide(w, round, attempt, more, maxPe).decision.Some?
    ensures Decide(w, round, attempt, more, maxPe).parseErrors - more == Decide(w, round, attempt, fewer, maxPe).parseErrors - fewer >= 0
    decreases maxPe - more
  {
    if w.decide(round, attempt).None? { SameCost(w, round, attempt + 1, more + 1, fewer + 1, maxPe); }
  }

  /** What a round that closes comes to, begun on the board or resumed on one of its turns' saves. */
  lemma RoundCloses(b: Board, d: Decision, w: World, g: Guard, maxRepeats: int, k: nat)
    requires Inv(b) && !b.Terminal() && Closes(b, d, w) && k <= |TurnSaves(b, d, w)|
    ensures var x, c := SaveIn(b, d, w, k), ClosedOn(BeforeClosing(b, d, w), w);
      var e := SaveAndGuard(x, c, |c.roster| > |b.roster|, w.text, Signature(d), Repeats(g, Signature(d)), maxRepeats);
      && Round(x, d, w, g, maxRepeats) == e.(saves := TurnSaves(b, d, w)[k..] + e.saves)
      && Inv(c) && !c.Terminal() && c.round == b.round + 1 && c.maxRounds == b.maxRounds && x.roster == b.roster && |c.roster| >= |b.roster|
  {
    hide Act, EndRound, SaveAndGuard, EnqueueAll, Signature, Inv, Extends, SignatureRaises, ReadingRaises, ClosedOn, Repeats;
    if k > 0 { ActAgain(b, d, w, k); }
    QueuedKeeps(b, d.commands);
    var q := EnqueueAll(b, d.commands).value;
    ActKeeps(q, d, w);
    ActRoster(q, d, w);
    ClosedParts(Act(q, d, w).board, w);
    EndIs(SaveIn(b, d, w, k), Act(q, d, w).board, w, Signature(d), Repeats(g, Signature(d)), maxRepeats);
    assert TurnSaves(b, d, w)[0..] == TurnSaves(b, d, w);
  }

  lemma EndIs(before: Board, b: Board, w: World, signature: string, repeats: int, maxRepeats: int)
    requires Inv(b)
    ensures var c := ClosedOn(b, w);
      EndRound(before, b, w, signature, repeats, maxRepeats) == SaveAndGuard(before, c, |c.roster| > |b.roster|, w.text, signature, repeats, maxRepeats)
  {
    hide Apply, SaveAndGuard, Inv, World.Catalog;
    QueueOf(b);
    ApplyKeepsInv(b, w.types, w.Catalog());
  }

  /** One that does not is left in the same way, whatever the guard. */
  lemma RoundLeaves(b: Board, d: Decision, w: World, g: Guard, h: Guard, maxRepeats: int, k: nat)
    requires Inv(b) && !b.Terminal() && !Closes(b, d, w) && k <= |TurnSaves(b, d, w)|
    ensures var s, t := Round(b, d, w, g, maxRepeats), Round(SaveIn(b, d, w, k), d, w, h, maxRepeats);
      !s.flow.Next? && k <= |s.saves| && t == s.(saves := s.saves[k..])
  {
    hide Act, EndRound, EnqueueAll, Signature, Inv, Extends, SignatureRaises, ReadingRaises;
    if k > 0 { ActAgain(b, d, w, k); }
  }

  function RecordOf(e: Entry, d: Decision, w: World, lim: Limits): RoundRecord {
    RoundRecord(e.board, d, Signature(d), |Round(e.board, d, w, e.guard, lim.maxRepeats).board.roster| > |e.board.roster|)
  }

  /** A drive is its first round and, if that goes on, the drive from there. */
  lemma DriveUnfolds(e: Entry, d: Decision, w: World, lim: Limits)
    requires Running(e.board) && Decide(w, e.board.round, 0, e.parseErrors, lim.maxParseErrors).decision == Some(d)
    ensures var s, r := Round(e.board, d, w, e.guard, lim.maxRepeats), DriveOn(e, w, lim);
      && (OneRound(e, w, lim).Some? <==> s.flow.Next?)
      && (s.flow.Next? ==>
            var next := Entry(s.board, s.flow.guard, Decide(w, e.board.round, 0, e.parseErrors, lim.maxParseErrors).parseErrors);
            var rest := DriveOn(next, w, lim);
            && OneRound(e, w, lim).value == Way(s.saves, next)
            && r.board == rest.board && r.saves == s.saves + rest.saves && r.escaped == rest.escaped
            && r.records == [RecordOf(e, d, w, lim)] + rest.records)
      && (!s.flow.Next? ==> r.board == s.board && r.saves == s.saves && r.escaped == s.flow.Escape? && r.records == [RecordOf(e, d, w, lim)])
  {
    hide Round, Decide, Signature;
  }

  /** The end on errors is the end of the rest of the drive. */
  lemma ErrorsShift(e: Entry, d: Decision, w: World, lim: Limits, less: int)
    requires Running(e.board) && Decide(w, e.board.round, 0, e.parseErrors, lim.maxParseErrors).decision == Some(d)
    ensures EndsOnErrors(e, w, lim, less) <==> OneRound(e, w, lim).Some? && EndsOnErrors(OneRound(e, w, lim).value.entry, w, lim, less)
  {
    hide Round, Decide, Signature, TooLate, OneRound, DriveOn;
    DriveUnfolds(e, d, w, lim);
  }

  lemma AllRepeatShift(first: RoundRecord, rest: seq<RoundRecord>, last: Option<string>)
    ensures AllRepeat([first] + rest, last) <==> Some(first.signature) == last && !first.grew && AllRepeat(rest, last)
  {
    var all := [first] + rest;
    if AllRepeat(all, last) {
      forall i | 0 <= i < |rest| ensures Some(rest[i].signature) == last && !rest[i].grew { assert rest[i] == all[i + 1]; }
      assert all[0] == first;
    }
  }

  lemma GuardAfter(e: Entry, d: Decision, w: World, lim: Limits)
    requires Inv(e.board) && Running(e.board) && Decide(w, e.board.round, 0, e.parseErrors, lim.maxParseErrors).decision == Some(d)
    requires OneRound(e, w, lim).Some?
    ensures var next := OneRound(e, w, lim).value.entry;
      && Inv(next.board) && next.guard.lastSignature == Some(Signature(d)) && next.guard.repeats < lim.maxRepeats
      && |e.board.roster| <= |next.board.roster|
      && (|next.board.roster| == |e.board.roster| ==> next.guard.repeats == Repeats(e.guard, Signature(d)))
      && next.board.round == e.board.round + 1 && next.board.maxRounds == e.board.maxRounds
  {
    hide Round, Decide, Signature, Inv;
    DriveUnfolds(e, d, w, lim);
    RepeatCounter(e.board, d, w, e.guard, lim.maxRepeats);
    RoundKeeps(e.board, d, w, e.guard, lim.maxRepeats);
  }

  /** So is the end on a repeat, if this round is one and nobody joins; or else there is none. */
  lemma RepeatShift(e: Entry, d: Decision, w: World, lim: Limits, n: int)
    requires Inv(e.board) && Running(e.board) && Decide(w, e.board.round, 0, e.parseErrors, lim.maxParseErrors).decision == Some(d)
    requires OneRound(e, w, lim).Some?
    ensures var next := OneRound(e, w, lim).value.entry;
      && EndsOnRepeat(e, w, lim, n) <==>
         Some(Signature(d)) == e.guard.lastSignature && |next.board.roster| <= |e.board.roster| && EndsOnRepeat(next, w, lim, n + 1)
  {
    hide Round, Decide, Signature, OneRound, DriveOn, Advances, Inv, AllRepeat;
    DriveUnfolds(e, d, w, lim);
    GuardAfter(e, d, w, lim);
    var next := OneRound(e, w, lim).value.entry;
    var rest := DriveOn(next, w, lim).records;
    AllRepeatShift(RecordOf(e, d, w, lim), rest, e.guard.lastSignature);
    if rest != [] { assert ([RecordOf(e, d, w, lim)] + rest)[|rest|] == rest[|rest| - 1]; }
  }

  /** A drive that comes to no round at all saves one board, in one of two ways. */
  lemma NoRounds(e: Entry, w: World, lim: Limits)
    requires !e.board.Terminal() && DriveOn(e, w, lim).records == []
    ensures var r := DriveOn(e, w, lim);
      r.board in {Terminated(e.board, Blocked, w.text.maxRounds), Terminated(e.board, Failed, w.text.parseBudget)} && r.saves == [r.board]
  {
    hide Round, Decide, Signature;
  }

  /** What the guards make of a round that moved something, on two counts. */
  lemma TwoCounts(x: Board, c: Board, grew: bool, text: Wording, signature: string, m: int, n: int, maxRepeats: int)
    requires !c.Terminal() && grew == (|c.roster| > |x.roster|)
    ensures var s, t := SaveAndGuard(x, c, grew, text, signature, m, maxRepeats), SaveAndGuard(x, c, grew, text, signature, n, maxRepeats);
      && (!Progressed(x, c) ==> s == t == Step(Terminated(c, Blocked, text.noProgress), [c, Terminated(c, Blocked, text.noProgress)], Stop))
      && (Progressed(x, c) && Tired(grew, m, maxRepeats) ==>
            s == Step(Terminated(c, Blocked, text.repeated), [c, Terminated(c, Blocked, text.repeated)], Stop))
      && (Progressed(x, c) && !Tired(grew, m, maxRepeats) ==> s == Step(c, [c], Next(Guard(Some(signature), if grew then 0 else m))))
      && (Progressed(x, c) && Tired(grew, n, maxRepeats) ==>
            t == Step(Terminated(c, Blocked, text.repeated), [c, Terminated(c, Blocked, text.repeated)], Stop))
      && (Progressed(x, c) && !Tired(grew, n, maxRepeats) ==> t == Step(c, [c], Next(Guard(Some(signature), if grew then 0 else n))))
  {
    hide Board.AcceptanceSnapshot;
  }

  /** A first round that stops the one drive as a repeat, and not the other. */
  lemma RepeatParts(e: Entry, f: Entry, d: Decision, w: World, lim: Limits)
    requires Inv(e.board) && Running(e.board) && f.board == e.board && OwnTexts(w.text) && Closes(e.board, d, w)
    requires Decide(w, e.board.round, 0, e.parseErrors, lim.maxParseErrors).decision == Some(d)
    requires Decide(w, e.board.round, 0, f.parseErrors, lim.maxParseErrors).decision == Some(d)
    requires var c := ClosedOn(BeforeClosing(e.board, d, w), w);
      && Progressed(e.board, c) && |c.roster| == |e.board.roster|
      && Repeats(e.guard, Signature(d)) >= lim.maxRepeats > Repeats(f.guard, Signature(d))
    ensures !SameRun(DriveOn(e, w, lim), DriveOn(f, w, lim))
    ensures var r := DriveOn(e, w, lim); r.records == [RecordOf(e, d, w, lim)] && !RecordOf(e, d, w, lim).grew
  {
    hide Round, Decide, Signature, Closes, Inv, ClosedOn, BeforeClosing, SaveAndGuard, TurnSaves, OneRound, DriveOn, Repeats;
    RoundCloses(e.board, d, w, e.guard, lim.maxRepeats, 0);
    RoundCloses(e.board, d, w, f.guard, lim.maxRepeats, 0);
    var c := ClosedOn(BeforeClosing(e.board, d, w), w);
    TwoCounts(e.board, c, false, w.text, Signature(d), Repeats(e.guard, Signature(d)), Repeats(f.guard, Signature(d)), lim.maxRepeats);
    DriveUnfolds(e, d, w, lim);
    DriveUnfolds(f, d, w, lim);
    var next := OneRound(f, w, lim).value.entry;
    if DriveOn(next, w, lim).records == [] { NoRounds(next, w, lim); }
  }

  /** The round moves something, brings nobody, and is one too many on the one count and not on the other. */
  predicate PartsHere(b: Board, d: Decision, w: World, m: int, n: int, maxRepeats: int) {
    Advances(b, d, w) && |ClosedOn(BeforeClosing(b, d, w), w).roster| == |b.roster| && m >= maxRepeats > n
  }

  /** Otherwise two guards, the second of which counts no more than the first, make no difference to the round, and
      go on with what they counted. */
  lemma SameRound(b: Board, d: Decision, w: World, g: Guard, h: Guard, maxRepeats: int)
    requires Inv(b) && !b.Terminal() && Repeats(h, Signature(d)) <= Repeats(g, Signature(d))
    requires !PartsHere(b, d, w, Repeats(g, Signature(d)), Repeats(h, Signature(d)), maxRepeats)
    ensures var s, t := Round(b, d, w, g, maxRepeats), Round(b, d, w, h, maxRepeats);
      && s.board == t.board && s.saves == t.saves && (s.flow.Next? <==> t.flow.Next?) && (s.flow.Escape? <==> t.flow.Escape?)
      && (s.flow.Next? ==>
            var grew := |s.board.roster| > |b.roster|;
            && s.flow.guard == Guard(Some(Signature(d)), if grew then 0 else Repeats(g, Signature(d)))
            && t.flow.guard == Guard(Some(Signature(d)), if grew then 0 else Repeats(h, Signature(d))))
  {
    hide Round, Signature, Closes, Inv, ClosedOn, BeforeClosing, SaveAndGuard, TurnSaves, Repeats, Progressed;
    if Closes(b, d, w) {
      RoundCloses(b, d, w, g, maxRepeats, 0);
      RoundCloses(b, d, w, h, maxRepeats, 0);
      var c := ClosedOn(BeforeClosing(b, d, w), w);
      TwoCounts(b, c, |c.roster| > |b.roster|, w.text, Signature(d), Repeats(g, Signature(d)), Repeats(h, Signature(d)), maxRepeats);
    } else {
      RoundLeaves(b, d, w, g, h, maxRepeats, 0);
    }
  }

  lemma Cancel<T>(p: seq<T>, a: seq<T>, b: seq<T>)
    ensures p + a == p + b <==> a == b
  {
    assert (p + a)[|p|..] == a && (p + b)[|p|..] == b;
  }

  /** If the first round does not part two drives they run it alike, and then it is up to what is left of them. */
  lemma FirstRoundAlike(e: Entry, f: Entry, d: Decision, w: World, lim: Limits)
    requires Inv(e.board) && Running(e.board) && f.board == e.board && 0 <= f.parseErrors <= e.parseErrors
    requires Decide(w, e.board.round, 0, e.parseErrors, lim.maxParseErrors).decision == Some(d)
    requires Repeats(f.guard, Signature(d)) <= Repeats(e.guard, Signature(d))
    requires !PartsHere(e.board, d, w, Repeats(e.guard, Signature(d)), Repeats(f.guard, Signature(d)), lim.maxRepeats)
    ensures OneRound(e, w, lim).Some? <==> OneRound(f, w, lim).Some?
    ensures OneRound(e, w, lim).None? ==> SameRun(DriveOn(e, w, lim), DriveOn(f, w, lim)) && |DriveOn(e, w, lim).records| == 1
    ensures OneRound(e, w, lim).Some? ==>
      var x, y := OneRound(e, w, lim).value.entry, OneRound(f, w, lim).value.entry;
      var grew := |x.board.roster| > |e.board.roster|;
      && (SameRun(DriveOn(e, w, lim), DriveOn(f, w, lim)) <==> SameRun(DriveOn(x, w, lim), DriveOn(y, w, lim)))
      && x.board == y.board && 0 <= y.parseErrors <= x.parseErrors && x.parseErrors - y.parseErrors == e.parseErrors - f.parseErrors
      && x.guard == Guard(Some(Signature(d)), if grew then 0 else Repeats(e.guard, Signature(d)))
      && y.guard == Guard(Some(Signature(d)), if grew then 0 else Repeats(f.guard, Signature(d)))
  {
    hide Round, Decide, Signature, Inv, OneRound, DriveOn, Repeats, PartsHere;
    DecisionsDifferIff(w, e.board.round, e.parseErrors, f.parseErrors, lim.maxParseErrors);
    SameCost(w, e.board.round, 0, e.parseErrors, f.parseErrors, lim.maxParseErrors);
    SameRound(e.board, d, w, e.guard, f.guard, lim.maxRepeats);
    DriveUnfolds(e, d, w, lim);
    DriveUnfolds(f, d, w, lim);
    if OneRound(e, w, lim).Some? {
      var x, y := OneRound(e, w, lim).value.entry, OneRound(f, w, lim).value.entry;
      Cancel(Round(e.board, d, w, e.guard, lim.maxRepeats).saves, DriveOn(x, w, lim).saves, DriveOn(y, w, lim).saves);
      Cancel([RecordOf(e, d, w, lim)], DriveOn(x, w, lim).records, DriveOn(y, w, lim).records);
    }
  }

  /** Equal guards do not part. */
  lemma NoRepeatParts(e: Entry, w: World, lim: Limits, n: int)
    requires n > e.guard.repeats
    ensures !EndsOnRepeat(e, w, lim, n)
  {
    hide DriveOn, Advances;
  }

  lemma NoEnd(e: Entry, w: World, lim: Limits, n: int, less: int)
    requires !Running(e.board)
    ensures !EndsOnRepeat(e, w, lim, n) && !EndsOnErrors(e, w, lim, less)
  {
  }

  /** Two drives of one board, the second with a guard that lags behind and with fewer errors counted, are the same
      if and only if the first ends neither on a repeat of what its guard had seen last, that the second does not
      count as one too many, nor on a question that the second still gets an answer to. */
  lemma {:induction false} SameRunIff(e: Entry, f: Entry, w: World, lim: Limits, n: int)
    requires Inv(e.board) && f.board == e.board && OwnTexts(w.text)
    requires Behind(e.guard, f.guard, n) && n <= e.guard.repeats + 1 && 0 <= f.parseErrors <= e.parseErrors
    ensures SameRun(DriveOn(e, w, lim), DriveOn(f, w, lim))
      <==> !EndsOnRepeat(e, w, lim, n) && !EndsOnErrors(e, w, lim, e.parseErrors - f.parseErrors)
    decreases e.board.maxRounds - e.board.round
  {
    hide Round, Decide, Signature, Inv, OneRound, DriveOn, PartsHere, EndsOnRepeat, EndsOnErrors, TooLate;
    if !Running(e.board) {
      NoEnd(e, w, lim, n, e.parseErrors - f.parseErrors);
      NotRunning(e, f, w, lim);
    } else if Decide(w, e.board.round, 0, e.parseErrors, lim.maxParseErrors).decision.None? {
      Unanswered(e, f, w, lim, n);
    } else {
      var d := Decide(w, e.board.round, 0, e.parseErrors, lim.maxParseErrors).decision.value;
      var sig, less := Signature(d), e.parseErrors - f.parseErrors;
      if PartsHere(e.board, d, w, Repeats(e.guard, sig), Repeats(f.guard, sig), lim.maxRepeats) {
        PartingEnds(e, f, d, w, lim, n);
      } else {
        FirstRoundAlike(e, f, d, w, lim);
        if OneRound(e, w, lim).None? {
          LastRound(e, d, w, lim, n, less);
        } else {
          var x, y := OneRound(e, w, lim).value.entry, OneRound(f, w, lim).value.entry;
          GuardAfter(e, d, w, lim);
          RepeatShift(e, d, w, lim, n);
          ErrorsShift(e, d, w, lim, less);
          if Some(sig) == e.guard.lastSignature && |x.board.roster| <= |e.board.roster| {
            SameRunIff(x, y, w, lim, n + 1);
          } else {
            SameRunIff(x, y, w, lim, x.guard.repeats + 1);
            NoRepeatParts(x, w, lim, x.guard.repeats + 1);
          }
        }
      }
    }
  }

  lemma NotRunning(e: Entry, f: Entry, w: World, lim: Limits)
    requires !Running(e.board) && f.board == e.board
    ensures SameRun(DriveOn(e, w, lim), DriveOn(f, w, lim))
  {
    hide Round, Decide;
  }

  lemma Unanswered(e: Entry, f: Entry, w: World, lim: Limits, n: int)
    requires Running(e.board) && f.board == e.board && 0 <= f.parseErrors <= e.parseErrors
    requires Decide(w, e.board.round, 0, e.parseErrors, lim.maxParseErrors).decision.None?
    ensures !EndsOnRepeat(e, w, lim, n)
    ensures SameRun(DriveOn(e, w, lim), DriveOn(f, w, lim)) <==> !EndsOnErrors(e, w, lim, e.parseErrors - f.parseErrors)
  {
    hide Round, Decide, Signature, TooLate;
    DecisionsDifferIff(w, e.board.round, e.parseErrors, f.parseErrors, lim.maxParseErrors);
    assert RoundAt(e, w, lim, 0) == Some(Way([], e));
  }

  lemma PartingEnds(e: Entry, f: Entry, d: Decision, w: World, lim: Limits, n: int)
    requires Inv(e.board) && Running(e.board) && f.board == e.board && OwnTexts(w.text) && 0 <= f.parseErrors <= e.parseErrors
    requires Decide(w, e.board.round, 0, e.parseErrors, lim.maxParseErrors).decision == Some(d)
    requires Behind(e.guard, f.guard, n)
    requires PartsHere(e.board, d, w, Repeats(e.guard, Signature(d)), Repeats(f.guard, Signature(d)), lim.maxRepeats)
    ensures !SameRun(DriveOn(e, w, lim), DriveOn(f, w, lim)) && EndsOnRepeat(e, w, lim, n)
  {
    hide Round, Decide, Signature, Inv, OneRound, DriveOn, Closes, ClosedOn, BeforeClosing, Progressed;
    DecisionsDifferIff(w, e.board.round, e.parseErrors, f.parseErrors, lim.maxParseErrors);
    RepeatParts(e, f, d, w, lim);
  }

  lemma LastRound(e: Entry, d: Decision, w: World, lim: Limits, n: int, less: int)
    requires Inv(e.board) && Running(e.board) && OneRound(e, w, lim).None?
    requires Decide(w, e.board.round, 0, e.parseErrors, lim.maxParseErrors).decision == Some(d)
    ensures !EndsOnErrors(e, w, lim, less)
    ensures EndsOnRepeat(e, w, lim, n) ==>
      Some(Signature(d)) == e.guard.lastSignature && PartsHere(e.board, d, w, e.guard.repeats + 1, n, lim.maxRepeats)
  {
    hide Round, Decide, Signature, Inv, DriveOn, OneRound, Closes, ClosedOn, BeforeClosing, Progressed, TooLate, SaveAndGuard, TurnSaves;
    DriveUnfolds(e, d, w, lim);
    if EndsOnRepeat(e, w, lim, n) {
      assert RecordOf(e, d, w, lim) == DriveOn(e, w, lim).records[0];
      RoundCloses(e.board, d, w, e.guard, lim.maxRepeats, 0);
      var c := ClosedOn(BeforeClosing(e.board, d, w), w);
      var m := Repeats(e.guard, Signature(d));
      TwoCounts(e.board, c, |c.roster| > |e.board.roster|, w.text, Signature(d), m, m, lim.maxRepeats);
    }
  }

  /** A life begun anew on the board of a running one: what it forgets makes a difference to the rest of the run if
      and only if that run would have ended on a repeat of the decision its guard had seen last, or on a question
      whose answer the errors counted so far have made too late. */
  lemma RestartIff(e: Entry, w: World, lim: Limits)
    requires Inv(e.board) && OwnTexts(w.text) && e.guard.repeats >= 0 && e.parseErrors >= 0
    ensures SameRun(DriveOn(e, w, lim), DriveOn(Entry(e.board, FRESH, 0), w, lim))
      <==> !EndsOnRepeat(e, w, lim, 0) && !EndsOnErrors(e, w, lim, e.parseErrors)
  {
    hide Inv, DriveOn, EndsOnRepeat, EndsOnErrors;
    SameRunIff(e, Entry(e.board, FRESH, 0), w, lim, 0);
  }

  /** What the two ends are: the run is BLOCKED as repeated, after as many rounds as its count had left, or FAILED
      on its parse errors. */
  lemma {:induction false} EndsAre(e: Entry, w: World, lim: Limits, n: int, less: int)
    requires Inv(e.board) && OwnTexts(w.text) && n <= e.guard.repeats + 1
    ensures var r := DriveOn(e, w, lim); EndsOnRepeat(e, w, lim, n) ==>
      r.board.status == Blocked && r.board.reason == w.text.repeated && |r.records| == Max(1, lim.maxRepeats - e.guard.repeats)
    ensures var r := DriveOn(e, w, lim); EndsOnErrors(e, w, lim, less) ==> r.board.status == Failed && r.board.reason == w.text.parseBudget
    decreases e.board.maxRounds - e.board.round
  {
    hide Round, Decide, Signature, Inv, OneRound, DriveOn, EndsOnRepeat, EndsOnErrors, TooLate, Advances, PartsHere;
    if !Running(e.board) {
      NoEnd(e, w, lim, n, less);
    } else if Decide(w, e.board.round, 0, e.parseErrors, lim.maxParseErrors).decision.None? {
      UnansweredEnds(e, w, lim, n);
    } else {
      var d := Decide(w, e.board.round, 0, e.parseErrors, lim.maxParseErrors).decision.value;
      DriveUnfolds(e, d, w, lim);
      if OneRound(e, w, lim).None? {
        LastRound(e, d, w, lim, n, less);
        if EndsOnRepeat(e, w, lim, n) { RepeatedRound(e, d, w, lim, n); }
      } else {
        GuardAfter(e, d, w, lim);
        RepeatShift(e, d, w, lim, n);
        ErrorsShift(e, d, w, lim, less);
        var next := OneRound(e, w, lim).value.entry;
        EndsAre(next, w, lim, if n <= next.guard.repeats then n + 1 else next.guard.repeats + 1, less);
      }
    }
  }

  lemma UnansweredEnds(e: Entry, w: World, lim: Limits, n: int)
    requires Running(e.board) && Decide(w, e.board.round, 0, e.parseErrors, lim.maxParseErrors).decision.None?
    ensures !EndsOnRepeat(e, w, lim, n)
    ensures DriveOn(e, w, lim).board == Terminated(e.board, Failed, w.text.parseBudget)
    ensures DriveOn(e, w, lim).saves == [Terminated(e.board, Failed, w.text.parseBudget)] && DriveOn(e, w, lim).records == []
  {
    hide Round, Decide, Signature;
  }

  lemma RepeatedRound(e: Entry, d: Decision, w: World, lim: Limits, n: int)
    requires Inv(e.board) && Running(e.board) && Some(Signature(d)) == e.guard.lastSignature
    requires PartsHere(e.board, d, w, e.guard.repeats + 1, n, lim.maxRepeats)
    ensures var s, c := Round(e.board, d, w, e.guard, lim.maxRepeats), ClosedOn(BeforeClosing(e.board, d, w), w);
      s.board == Terminated(c, Blocked, w.text.repeated) && s.saves == TurnSaves(e.board, d, w) + [c, s.board] && s.flow.Stop?
    ensures e.guard.repeats + 1 >= lim.maxRepeats
  {
    hide Round, Signature, Inv, Closes, ClosedOn, BeforeClosing, Progressed, SaveAndGuard, TurnSaves;
    RoundCloses(e.board, d, w, e.guard, lim.maxRepeats, 0);
    StartsWithItself(e.board, d, w);
    var c, m := ClosedOn(BeforeClosing(e.board, d, w), w), Repeats(e.guard, Signature(d));
    TwoCounts(e.board, c, false, w.text, Signature(d), m, m, lim.maxRepeats);
  }

  /** The orchestrator gives one of the loop's own reasons for its own stop. */
  ghost predicate Echoes(w: World) {
    exists round: int, i: nat :: EchoesAt(w, round, i)
  }

  predicate EchoesAt(w: World, round: int, i: nat) {
    var reply := w.decide(round, i);
    reply.Some? && var d := reply.value;
      (d.kind.Block? && OrElse(d.reason, w.text.blocked) == w.text.repeated) || (d.kind.Fail? && OrElse(d.reason, w.text.failed) == w.text.parseBudget)
  }

  /** If a round begins by saving a stop, the decision itself was to stop. */
  lemma FirstSave(b: Board, d: Decision, w: World, g: Guard, maxRepeats: int)
    requires Inv(b) && Running(b)
    ensures var s := Round(b, d, w, g, maxRepeats);
      && (s.flow.Next? ==> s.saves != [])
      && (s.saves != [] && s.saves[0].Terminal() ==>
            || (d.kind.Finish? && s.saves[0].status == Finished)
            || (d.kind.Block? && s.saves[0].status == Blocked && s.saves[0].reason == OrElse(d.reason, w.text.blocked))
            || (d.kind.Fail? && s.saves[0].status == Failed && s.saves[0].reason == OrElse(d.reason, w.text.failed)))
  {
    hide Signature, Inv, Closes, ClosedOn, BeforeClosing, Progressed, SaveAndGuard, TurnSaves, Escapes, EnqueueAll, RunRoundOn, EndRound;
    if TurnSaves(b, d, w) != [] { FirstTurnSave(b, d, w); }
    TurnsAreSaved(b, d, w, g, maxRepeats);
    if Closes(b, d, w) {
      ClosingSave(b, d, w, g, maxRepeats);
    } else {
      RoundLeaves(b, d, w, g, g, maxRepeats, 0);
      EscapesIff(b, d, w, g, maxRepeats);
      if !Round(b, d, w, g, maxRepeats).flow.Escape? { LeavesBy(b, d, w, g, maxRepeats); }
    }
  }

  lemma FirstTurnSave(b: Board, d: Decision, w: World)
    requires Inv(b) && Running(b) && TurnSaves(b, d, w) != []
    ensures !TurnSaves(b, d, w)[0].Terminal()
  {
    hide Inv, TurnSaves;
    SaveRuns(b, d, w, 1);
  }

  lemma ClosingSave(b: Board, d: Decision, w: World, g: Guard, maxRepeats: int)
    requires Inv(b) && Running(b) && Closes(b, d, w)
    ensures var s, n := Round(b, d, w, g, maxRepeats), |TurnSaves(b, d, w)|; |s.saves| > n && !s.saves[n].Terminal()
  {
    hide Round, Signature, Inv, Closes, TurnSaves;
    RoundSaves(b, d, w, g, maxRepeats);
  }

  /** A round that neither closes nor raises is the decision's own stop. */
  lemma LeavesBy(b: Board, d: Decision, w: World, g: Guard, maxRepeats: int)
    requires Inv(b) && Running(b) && !Closes(b, d, w) && !Round(b, d, w, g, maxRepeats).flow.Escape?
    ensures var s := Round(b, d, w, g, maxRepeats); |s.saves| == 1
    ensures var s := Round(b, d, w, g, maxRepeats);
      || (d.kind.Finish? && s.saves[0].status == Finished)
      || (d.kind.Block? && s.saves[0].status == Blocked && s.saves[0].reason == OrElse(d.reason, w.text.blocked))
      || (d.kind.Fail? && s.saves[0].status == Failed && s.saves[0].reason == OrElse(d.reason, w.text.failed))
  {
    hide Signature, Inv, EnqueueAll, RunRoundOn, ToolsUpTo, JudgeRows, ReportRaises, EndRound, ReadingRaises, SignatureRaises;
  }

  /** A run that saves nothing but one of the loop's own stops has come to no round, unless the orchestrator echoes
      the loop. */
  lemma LoneSave(e: Entry, w: World, lim: Limits, t: Board)
    requires Inv(e.board) && !e.board.Terminal() && !Echoes(w) && DriveOn(e, w, lim).saves == [t]
    requires t.Terminal() && (t.status == Blocked ==> t.reason == w.text.repeated) && (t.status == Failed ==> t.reason == w.text.parseBudget)
    requires t.status != Finished
    ensures DriveOn(e, w, lim).records == []
  {
    hide Round, Decide, Signature, Inv, OneRound, DriveOn, Echoes;
    if Running(e.board) && Decide(w, e.board.round, 0, e.parseErrors, lim.maxParseErrors).decision.Some? {
      var d := Decide(w, e.board.round, 0, e.parseErrors, lim.maxParseErrors).decision.value;
      DriveUnfolds(e, d, w, lim);
      DriveBeginsWithRound(e, d, w, lim);
      FirstSave(e.board, d, w, e.guard, lim.maxRepeats);
      NoEcho(e, d, w, lim);
    } else {
      NoRecords(e, w, lim);
    }
  }

  lemma DriveBeginsWithRound(e: Entry, d: Decision, w: World, lim: Limits)
    requires Running(e.board) && Decide(w, e.board.round, 0, e.parseErrors, lim.maxParseErrors).decision == Some(d)
    ensures Round(e.board, d, w, e.guard, lim.maxRepeats).saves <= DriveOn(e, w, lim).saves
  {
    hide Round, Decide, Signature, DriveOn, OneRound;
    DriveUnfolds(e, d, w, lim);
  }

  lemma NoRecords(e: Entry, w: World, lim: Limits)
    requires !Running(e.board) || Decide(w, e.board.round, 0, e.parseErrors, lim.maxParseErrors).decision.None?
    ensures DriveOn(e, w, lim).records == []
  {
    hide Round, Decide;
  }

  lemma {:induction false} Decided(w: World, round: int, attempt: nat, pe: int, maxPe: int) returns (i: nat)
    requires Decide(w, round, attempt, pe, maxPe).decision.Some?
    ensures w.decide(round, i) == Decide(w, round, attempt, pe, maxPe).decision
    decreases maxPe - pe
  {
    i := attempt;
    if w.decide(round, attempt).None? { i := Decided(w, round, attempt + 1, pe + 1, maxPe); }
  }

  lemma NoEcho(e: Entry, d: Decision, w: World, lim: Limits)
    requires !Echoes(w) && Decide(w, e.board.round, 0, e.parseErrors, lim.maxParseErrors).decision == Some(d)
    ensures !(d.kind.Block? && OrElse(d.reason, w.text.blocked) == w.text.repeated)
    ensures !(d.kind.Fail? && OrElse(d.reason, w.text.failed) == w.text.parseBudget)
  {
    hide Decide, OrElse;
    var i := Decided(w, e.board.round, 0, e.parseErrors, lim.maxParseErrors);
    assert !EchoesAt(w, e.board.round, i);
  }

  lemma FailedAlike(e: Entry, f: Entry, w: World, lim: Limits)
    requires Running(e.board) && f.board == e.board && Decide(w, e.board.round, 0, e.parseErrors, lim.maxParseErrors).decision.None?
    requires DriveOn(f, w, lim).records == []
    ensures SameRun(DriveOn(e, w, lim), DriveOn(f, w, lim))
  {
    hide Round, Decide, Signature;
  }

  lemma SavesCancel(e: Entry, f: Entry, d: Decision, w: World, lim: Limits)
    requires Inv(e.board) && Running(e.board) && f.board == e.board && 0 <= f.parseErrors <= e.parseErrors
    requires Decide(w, e.board.round, 0, e.parseErrors, lim.maxParseErrors).decision == Some(d)
    requires Repeats(f.guard, Signature(d)) <= Repeats(e.guard, Signature(d))
    requires !PartsHere(e.board, d, w, Repeats(e.guard, Signature(d)), Repeats(f.guard, Signature(d)), lim.maxRepeats)
    requires OneRound(e, w, lim).Some? && OneRound(f, w, lim).Some?
    ensures DriveOn(e, w, lim).saves == DriveOn(f, w, lim).saves
      <==> DriveOn(OneRound(e, w, lim).value.entry, w, lim).saves == DriveOn(OneRound(f, w, lim).value.entry, w, lim).saves
  {
    hide Round, Decide, Signature, Inv, OneRound, DriveOn, PartsHere, Repeats;
    DecisionsDifferIff(w, e.board.round, e.parseErrors, f.parseErrors, lim.maxParseErrors);
    SameRound(e.board, d, w, e.guard, f.guard, lim.maxRepeats);
    DriveUnfolds(e, d, w, lim);
    DriveUnfolds(f, d, w, lim);
    Cancel(Round(e.board, d, w, e.guard, lim.maxRepeats).saves, DriveOn(OneRound(e, w, lim).value.entry, w, lim).saves,
           DriveOn(OneRound(f, w, lim).value.entry, w, lim).saves);
  }

  lemma SavesPart(e: Entry, f: Entry, d: Decision, w: World, lim: Limits)
    requires Inv(e.board) && Running(e.board) && f.board == e.board && OwnTexts(w.text) && !Echoes(w)
    requires 0 <= f.parseErrors <= e.parseErrors && Decide(w, e.board.round, 0, e.parseErrors, lim.maxParseErrors).decision == Some(d)
    requires PartsHere(e.board, d, w, Repeats(e.guard, Signature(d)), Repeats(f.guard, Signature(d)), lim.maxRepeats)
    ensures DriveOn(e, w, lim).saves != DriveOn(f, w, lim).saves && !SameRun(DriveOn(e, w, lim), DriveOn(f, w, lim))
  {
    hide Round, Decide, Signature, Inv, OneRound, DriveOn, Closes, ClosedOn, BeforeClosing, Progressed, SaveAndGuard, TurnSaves, Echoes, Repeats;
    DecisionsDifferIff(w, e.board.round, e.parseErrors, f.parseErrors, lim.maxParseErrors);
    RepeatParts(e, f, d, w, lim);
    RoundCloses(e.board, d, w, e.guard, lim.maxRepeats, 0);
    RoundCloses(e.board, d, w, f.guard, lim.maxRepeats, 0);
    var c := ClosedOn(BeforeClosing(e.board, d, w), w);
    TwoCounts(e.board, c, false, w.text, Signature(d), Repeats(e.guard, Signature(d)), Repeats(f.guard, Signature(d)), lim.maxRepeats);
    DriveUnfolds(e, d, w, lim);
    DriveUnfolds(f, d, w, lim);
    var next, t := OneRound(f, w, lim).value.entry, Terminated(c, Blocked, w.text.repeated);
    StartsWithItself(e.board, d, w);
    Cancel(TurnSaves(e.board, d, w) + [c], [t], DriveOn(next, w, lim).saves);
    assert TurnSaves(e.board, d, w) + [c, t] == TurnSaves(e.board, d, w) + [c] + [t];
    if DriveOn(next, w, lim).saves == [t] {
      LoneSave(next, w, lim, t);
      NoRounds(next, w, lim);
    }
  }

  /** The saves alone tell the runs apart, unless the orchestrator echoes the loop. */
  lemma {:induction false} SameSavesIff(e: Entry, f: Entry, w: World, lim: Limits, n: int)
    requires Inv(e.board) && f.board == e.board && OwnTexts(w.text) && !Echoes(w)
    requires Behind(e.guard, f.guard, n) && n <= e.guard.repeats + 1 && 0 <= f.parseErrors <= e.parseErrors
    ensures DriveOn(e, w, lim).saves == DriveOn(f, w, lim).saves <==> SameRun(DriveOn(e, w, lim), DriveOn(f, w, lim))
    decreases e.board.maxRounds - e.board.round
  {
    hide Round, Decide, Signature, Inv, OneRound, DriveOn, PartsHere, Echoes;
    if !Running(e.board) {
      NotRunning(e, f, w, lim);
    } else if Decide(w, e.board.round, 0, e.parseErrors, lim.maxParseErrors).decision.None? {
      UnansweredEnds(e, w, lim, n);
      if DriveOn(e, w, lim).saves == DriveOn(f, w, lim).saves {
        LoneSave(f, w, lim, Terminated(e.board, Failed, w.text.parseBudget));
        NoRounds(f, w, lim);
        FailedAlike(e, f, w, lim);
      }
    } else {
      var d := Decide(w, e.board.round, 0, e.parseErrors, lim.maxParseErrors).decision.value;
      var sig := Signature(d);
      if PartsHere(e.board, d, w, Repeats(e.guard, sig), Repeats(f.guard, sig), lim.maxRepeats) {
        SavesPart(e, f, d, w, lim);
      } else {
        FirstRoundAlike(e, f, d, w, lim);
        if OneRound(e, w, lim).Some? {
          var x, y := OneRound(e, w, lim).value.entry, OneRound(f, w, lim).value.entry;
          GuardAfter(e, d, w, lim);
          SavesCancel(e, f, d, w, lim);
          SameSavesIff(x, y, w, lim, if Some(sig) == e.guard.lastSignature && |x.board.roster| <= |e.board.roster| then n + 1 else x.guard.repeats + 1);
        }
      }
    }
  }

  // ---------------------------------------------------------------- a crash, for the rest of the life

  /** The drive `t` is what is left of the drive `r` after `k` saves, which fell into its first round: that round
      once more, from where it was, and then the same rounds to the same end. */
  ghost predicate SameRest(r: Drive, k: nat, t: Drive) {
    && k <= |r.saves| && t.saves == r.saves[k..] && t.board == r.board && t.escaped == r.escaped
    && r.records != [] && t.records != [] && t.records[0] == r.records[0].(before := t.records[0].before)
    && t.records[1..] == r.records[1..]
  }

  lemma DropCancel<T>(p: seq<T>, a: seq<T>, q: seq<T>, b: seq<T>, k: nat)
    requires k <= |p| && q == p[k..]
    ensures q + b == (p + a)[k..] <==> a == b
  {
    assert (p + a)[k..] == q + a;
    Cancel(q, a, b);
  }

  lemma BothGoOn(e: Entry, d: Decision, w: World, lim: Limits, k: nat)
    requires Inv(e.board) && Running(e.board) && OwnTexts(w.text) && e.parseErrors >= 0 && e.guard.repeats >= 0
    requires Decide(w, e.board.round, 0, e.parseErrors, lim.maxParseErrors).decision == Some(d)
    requires Closes(e.board, d, w) && k <= |TurnSaves(e.board, d, w)| && Running(SaveIn(e.board, d, w, k))
    requires SaveIn(e.board, d, w, k).round == e.board.round
    requires Round(e.board, d, w, e.guard, lim.maxRepeats).flow.Next?
    requires Round(SaveIn(e.board, d, w, k), d, w, FRESH, lim.maxRepeats).flow.Next?
    ensures SamePlace(Round(e.board, d, w, e.guard, lim.maxRepeats), Round(SaveIn(e.board, d, w, k), d, w, FRESH, lim.maxRepeats))
    ensures SameRest(DriveOn(e, w, lim), k, DriveOn(Entry(SaveIn(e.board, d, w, k), FRESH, 0), w, lim))
      <==> !EndsOnRepeat(e, w, lim, 0) && !EndsOnErrors(e, w, lim, e.parseErrors)
  {
    hide Round, Decide, Signature, Inv, OneRound, DriveOn, EndsOnRepeat, EndsOnErrors, Closes, ClosedOn, BeforeClosing, Progressed,
         SaveAndGuard, TurnSaves, SaveIn;
    var sig, x := Signature(d), SaveIn(e.board, d, w, k);
    var f := Entry(x, FRESH, 0);
    RoundCloses(e.board, d, w, e.guard, lim.maxRepeats, 0);
    RoundCloses(e.board, d, w, FRESH, lim.maxRepeats, k);
    var c := ClosedOn(BeforeClosing(e.board, d, w), w);
    var grew := |c.roster| > |e.board.roster|;
    var m := Repeats(e.guard, sig);
    StartsWithItself(e.board, d, w);
    TwoCounts(e.board, c, grew, w.text, sig, m, m, lim.maxRepeats);
    TwoCounts(x, c, grew, w.text, sig, 0, 0, lim.maxRepeats);
    DecisionsDifferIff(w, e.board.round, e.parseErrors, 0, lim.maxParseErrors);
    SameCost(w, e.board.round, 0, e.parseErrors, 0, lim.maxParseErrors);
    DriveUnfolds(e, d, w, lim);
    DriveUnfolds(f, d, w, lim);
    var x1, y1 := OneRound(e, w, lim).value.entry, OneRound(f, w, lim).value.entry;
    DropCancel(TurnSaves(e.board, d, w) + [c], DriveOn(x1, w, lim).saves, TurnSaves(e.board, d, w)[k..] + [c], DriveOn(y1, w, lim).saves, k);
    RepeatShift(e, d, w, lim, 0);
    ErrorsShift(e, d, w, lim, e.parseErrors);
    SameRunIff(x1, y1, w, lim, 1);
    if !(Some(sig) == e.guard.lastSignature && !grew) { NoRepeatParts(x1, w, lim, 1); }
  }

  lemma StartsWithItself(b: Board, d: Decision, w: World)
    ensures SaveIn(b, d, w, 0) == b && TurnSaves(b, d, w)[0..] == TurnSaves(b, d, w)
  {
  }

  /** What is left of a run that goes on is not a single stop. */
  lemma OneStops(e: Entry, d: Decision, w: World, lim: Limits, k: nat)
    requires Inv(e.board) && Running(e.board) && OwnTexts(w.text) && e.parseErrors >= 0
    requires Decide(w, e.board.round, 0, e.parseErrors, lim.maxParseErrors).decision == Some(d)
    requires Closes(e.board, d, w) && k <= |TurnSaves(e.board, d, w)| && Running(SaveIn(e.board, d, w, k))
    requires SaveIn(e.board, d, w, k).round == e.board.round
    requires Round(e.board, d, w, e.guard, lim.maxRepeats).flow.Next?
      <==> !Round(SaveIn(e.board, d, w, k), d, w, FRESH, lim.maxRepeats).flow.Next?
    ensures !SameRest(DriveOn(e, w, lim), k, DriveOn(Entry(SaveIn(e.board, d, w, k), FRESH, 0), w, lim))
  {
    hide Round, Decide, Signature, Inv, OneRound, DriveOn, Closes, ClosedOn, BeforeClosing, Progressed, SaveAndGuard, TurnSaves, SaveIn;
    var sig, x := Signature(d), SaveIn(e.board, d, w, k);
    var f := Entry(x, FRESH, 0);
    RoundCloses(e.board, d, w, e.guard, lim.maxRepeats, 0);
    RoundCloses(e.board, d, w, FRESH, lim.maxRepeats, k);
    var c := ClosedOn(BeforeClosing(e.board, d, w), w);
    var grew, m := |c.roster| > |e.board.roster|, Repeats(e.guard, sig);
    StartsWithItself(e.board, d, w);
    TwoCounts(e.board, c, grew, w.text, sig, m, m, lim.maxRepeats);
    TwoCounts(x, c, grew, w.text, sig, 0, 0, lim.maxRepeats);
    DecisionsDifferIff(w, e.board.round, e.parseErrors, 0, lim.maxParseErrors);
    DriveUnfolds(e, d, w, lim);
    DriveUnfolds(f, d, w, lim);
    var on := if OneRound(e, w, lim).Some? then OneRound(e, w, lim).value.entry else OneRound(f, w, lim).value.entry;
    if DriveOn(on, w, lim).records == [] { NoRounds(on, w, lim); }
  }

  lemma BothStop(e: Entry, d: Decision, w: World, lim: Limits, k: nat)
    requires Inv(e.board) && Running(e.board) && OwnTexts(w.text) && e.parseErrors >= 0
    requires Decide(w, e.board.round, 0, e.parseErrors, lim.maxParseErrors).decision == Some(d)
    requires Closes(e.board, d, w) && k <= |TurnSaves(e.board, d, w)| && Running(SaveIn(e.board, d, w, k))
    requires SaveIn(e.board, d, w, k).round == e.board.round
    requires !Round(e.board, d, w, e.guard, lim.maxRepeats).flow.Next?
    requires !Round(SaveIn(e.board, d, w, k), d, w, FRESH, lim.maxRepeats).flow.Next?
    ensures var s, t := Round(e.board, d, w, e.guard, lim.maxRepeats), Round(SaveIn(e.board, d, w, k), d, w, FRESH, lim.maxRepeats);
      && (SamePlace(s, t) <==> SameRest(DriveOn(e, w, lim), k, DriveOn(Entry(SaveIn(e.board, d, w, k), FRESH, 0), w, lim)))
      && (SamePlace(s, t) ==> !EndsOnRepeat(e, w, lim, 0))
    ensures !EndsOnErrors(e, w, lim, e.parseErrors)
  {
    hide Round, Decide, Signature, Inv, OneRound, DriveOn, Closes, ClosedOn, BeforeClosing, Progressed, SaveAndGuard, TurnSaves, SaveIn,
         EndsOnRepeat, EndsOnErrors;
    var sig, x := Signature(d), SaveIn(e.board, d, w, k);
    var f := Entry(x, FRESH, 0);
    RoundCloses(e.board, d, w, e.guard, lim.maxRepeats, 0);
    RoundCloses(e.board, d, w, FRESH, lim.maxRepeats, k);
    var c := ClosedOn(BeforeClosing(e.board, d, w), w);
    var grew, m := |c.roster| > |e.board.roster|, Repeats(e.guard, sig);
    StartsWithItself(e.board, d, w);
    TwoCounts(e.board, c, grew, w.text, sig, m, m, lim.maxRepeats);
    TwoCounts(x, c, grew, w.text, sig, 0, 0, lim.maxRepeats);
    DecisionsDifferIff(w, e.board.round, e.parseErrors, 0, lim.maxParseErrors);
    DriveUnfolds(e, d, w, lim);
    DriveUnfolds(f, d, w, lim);
    LastRound(e, d, w, lim, 0, e.parseErrors);
  }

  /** A round that is left before it closes is left alike. */
  lemma BothLeave(e: Entry, d: Decision, w: World, lim: Limits, k: nat)
    requires Inv(e.board) && Running(e.board) && e.parseErrors >= 0 && !Closes(e.board, d, w)
    requires Decide(w, e.board.round, 0, e.parseErrors, lim.maxParseErrors).decision == Some(d)
    requires k <= |TurnSaves(e.board, d, w)| && Running(SaveIn(e.board, d, w, k))
    requires SaveIn(e.board, d, w, k).round == e.board.round && SaveIn(e.board, d, w, k).roster == e.board.roster
    ensures SamePlace(Round(e.board, d, w, e.guard, lim.maxRepeats), Round(SaveIn(e.board, d, w, k), d, w, FRESH, lim.maxRepeats))
    ensures SameRest(DriveOn(e, w, lim), k, DriveOn(Entry(SaveIn(e.board, d, w, k), FRESH, 0), w, lim))
    ensures !EndsOnRepeat(e, w, lim, 0) && !EndsOnErrors(e, w, lim, e.parseErrors)
  {
    hide Round, Decide, Signature, Inv, OneRound, DriveOn, Closes, ClosedOn, BeforeClosing, Progressed, TurnSaves, SaveIn,
         EndsOnRepeat, EndsOnErrors;
    RoundLeaves(e.board, d, w, e.guard, FRESH, lim.maxRepeats, k);
    DecisionsDifferIff(w, e.board.round, e.parseErrors, 0, lim.maxParseErrors);
    DriveUnfolds(e, d, w, lim);
    DriveUnfolds(Entry(SaveIn(e.board, d, w, k), FRESH, 0), d, w, lim);
    LastRound(e, d, w, lim, 0, e.parseErrors);
  }

  /** A save among a round's turns is a board of that round. */
  lemma SaveRuns(b: Board, d: Decision, w: World, k: nat)
    requires Inv(b) && Running(b) && k <= |TurnSaves(b, d, w)|
    ensures var x := SaveIn(b, d, w, k); Running(x) && x.round == b.round && x.roster == b.roster && Inv(x)
  {
    hide Inv, EnqueueAll, Act;
    if k > 0 { ActAgain(b, d, w, k); }
  }

  /** Where a drive stands in a round, restarted on one of that round's saves. */
  lemma RestIff(e: Entry, d: Decision, w: World, lim: Limits, k: nat)
    requires Inv(e.board) && Running(e.board) && OwnTexts(w.text) && e.parseErrors >= 0 && e.guard.repeats >= 0
    requires Decide(w, e.board.round, 0, e.parseErrors, lim.maxParseErrors).decision == Some(d)
    requires k <= |TurnSaves(e.board, d, w)|
    ensures var x := SaveIn(e.board, d, w, k);
      SameRest(DriveOn(e, w, lim), k, DriveOn(Entry(x, FRESH, 0), w, lim)) <==>
        && SamePlace(Round(e.board, d, w, e.guard, lim.maxRepeats), Round(x, d, w, FRESH, lim.maxRepeats))
        && !EndsOnRepeat(e, w, lim, 0) && !EndsOnErrors(e, w, lim, e.parseErrors)
  {
    hide Round, Decide, Inv, OneRound, DriveOn, Closes, TurnSaves, SaveIn, EndsOnRepeat, EndsOnErrors, SameRest, Running;
    SaveRuns(e.board, d, w, k);
    var s, t := Round(e.board, d, w, e.guard, lim.maxRepeats), Round(SaveIn(e.board, d, w, k), d, w, FRESH, lim.maxRepeats);
    if !Closes(e.board, d, w) {
      BothLeave(e, d, w, lim, k);
    } else if s.flow.Next? && t.flow.Next? {
      BothGoOn(e, d, w, lim, k);
    } else if s.flow.Next? || t.flow.Next? {
      OneStops(e, d, w, lim, k);
    } else {
      BothStop(e, d, w, lim, k);
    }
  }

  /** Counts carried by a drive are never negative. */
  lemma {:induction false} CarriedCounts(e: Entry, w: World, lim: Limits, j: nat)
    requires Inv(e.board) && e.guard.repeats >= 0 && e.parseErrors >= 0 && RoundAt(e, w, lim, j).Some?
    ensures RoundAt(e, w, lim, j).value.entry.guard.repeats >= 0 && RoundAt(e, w, lim, j).value.entry.parseErrors >= 0
    decreases j
  {
    hide Round, Decide, Inv, DriveOn, Extends, Running;
    if j > 0 {
      var d := Decide(w, e.board.round, 0, e.parseErrors, lim.maxParseErrors).decision.value;
      RepeatsNonNegative(e.board, d, w, e.guard, lim.maxRepeats);
      OneRoundSplits(e, w, lim);
      CarriedCounts(OneRound(e, w, lim).value.entry, w, lim, j - 1);
    }
  }

  /** Dying anywhere in a round of a life: the next life saves exactly what the one before would still have saved,
      in the same rounds and to the same end, if and only if the repeated round leaves the loop at the same place,
      and the life would have ended neither on a repeat of what its guard had seen last nor on a question that its
      earlier errors have made too late. */
  lemma CrashIff(b: Board, w: World, lim: Limits, j: nat, way: Way, d: Decision, k: nat)
    requires Inv(b) && OwnTexts(w.text) && Enters(b, w, lim, j, way, d) && k <= |TurnSaves(way.entry.board, d, w)|
    ensures var e, x := way.entry, Survive(b, Life(w, lim, |way.saves| + k));
      var all, rest, again := DriveOn(Entry(b, FRESH, 0), w, lim), DriveOn(e, w, lim), DriveOn(Entry(x, FRESH, 0), w, lim);
      && x == SaveIn(e.board, d, w, k) && all.saves == way.saves + rest.saves
      && (SameRest(rest, k, again) <==>
            && SamePlace(RoundOf(way, d, w, lim), Round(x, d, w, FRESH, lim.maxRepeats))
            && !EndsOnRepeat(e, w, lim, 0) && !EndsOnErrors(e, w, lim, e.parseErrors))
      && (SameRest(rest, k, again) ==>
            |way.saves| + k <= |all.saves| && all.saves == all.saves[..|way.saves| + k] + again.saves)
  {
    hide Round, Decide, Inv, OneRound, DriveOn, TurnSaves, SaveIn, EndsOnRepeat, EndsOnErrors, Running, RoundAt, Survive, Enters, SamePlace;
    EntersParts(b, w, lim, j, way, d);
    DriveSplits(Entry(b, FRESH, 0), w, lim, j);
    CarriedCounts(Entry(b, FRESH, 0), w, lim, j);
    ResumedInRound(b, w, lim, j, way, d, k);
    RestIff(way.entry, d, w, lim, k);
    var all, rest := DriveOn(Entry(b, FRESH, 0), w, lim).saves, DriveOn(way.entry, w, lim).saves;
    if k <= |rest| { assert all[..|way.saves| + k] + rest[k..] == all; }
  }

  /** The same in the decision's own terms, for workers that keep off generated ids. */
  lemma CrashInRoundIff(b: Board, w: World, lim: Limits, j: nat, way: Way, d: Decision, k: nat)
    requires Inv(b) && IdsBounded(b) && CleanWorld(w, {}) && 0 < lim.maxRepeats && OwnTexts(w.text)
    requires Enters(b, w, lim, j, way, d) && d.kind.Continue? && !Escapes(way.entry.board, d, w)
    requires k <= |TurnSaves(way.entry.board, d, w)|
    ensures var e, x := way.entry, Survive(b, Life(w, lim, |way.saves| + k));
      SameRest(DriveOn(e, w, lim), k, DriveOn(Entry(x, FRESH, 0), w, lim)) <==>
        && Unseen(e.board, d, w, e.guard, lim.maxRepeats, k)
        && !EndsOnRepeat(e, w, lim, 0) && !EndsOnErrors(e, w, lim, e.parseErrors)
  {
    hide Round, Decide, Inv, IdsBounded, CleanWorld, OneRound, DriveOn, TurnSaves, SaveIn, EndsOnRepeat, EndsOnErrors, RoundAt, Survive, Enters,
         SamePlace, SameRest, Unseen, Escapes;
    CrashIff(b, w, lim, j, way, d, k);
    RoundEndsAlikeIff(b, w, lim, j, way, d, k);
  }

  /** Where a round that goes on leaves the drive. */
  lemma NextEntry(e: Entry, d: Decision, w: World, lim: Limits)
    requires Inv(e.board) && Running(e.board) && e.guard.repeats >= 0 && e.parseErrors >= 0
    requires Decide(w, e.board.round, 0, e.parseErrors, lim.maxParseErrors).decision == Some(d)
    requires Round(e.board, d, w, e.guard, lim.maxRepeats).flow.Next?
    ensures OneRound(e, w, lim).Some?
    ensures var s, next := Round(e.board, d, w, e.guard, lim.maxRepeats), OneRound(e, w, lim).value.entry;
      && Inv(next.board) && next.guard.repeats >= 0 && next.parseErrors >= 0
      && next.board == s.board && s.saves != [] && s.saves[|s.saves| - 1] == s.board
  {
    hide Round, Decide, Inv, DriveOn, OneRound;
    DriveUnfolds(e, d, w, lim);
    OneRoundSplits(e, w, lim);
    RepeatsNonNegative(e.board, d, w, e.guard, lim.maxRepeats);
  }

  /** Dying between two rounds, with everything saved. */
  lemma CrashBetweenRoundsIff(b: Board, w: World, lim: Limits, j: nat, way: Way, d: Decision)
    requires Inv(b) && OwnTexts(w.text) && Enters(b, w, lim, j, way, d) && RoundOf(way, d, w, lim).flow.Next?
    ensures OneRound(way.entry, w, lim).Some?
    ensures var next, x := OneRound(way.entry, w, lim).value.entry, Survive(b, Life(w, lim, |way.saves| + |RoundOf(way, d, w, lim).saves|));
      && x == next.board
      && (SameRun(DriveOn(next, w, lim), DriveOn(Entry(x, FRESH, 0), w, lim)) <==>
            !EndsOnRepeat(next, w, lim, 0) && !EndsOnErrors(next, w, lim, next.parseErrors))
  {
    hide Round, Decide, Inv, DriveOn, EndsOnRepeat, EndsOnErrors, RoundAt, Survive, Enters, OneRound, SameRun;
    EntersParts(b, w, lim, j, way, d);
    DriveSplits(Entry(b, FRESH, 0), w, lim, j);
    CarriedCounts(Entry(b, FRESH, 0), w, lim, j);
    NextEntry(way.entry, d, w, lim);
    SurviveInRound(b, w, lim, j, way, d, |RoundOf(way, d, w, lim).saves|);
    RestartIff(OneRound(way.entry, w, lim).value.entry, w, lim);
  }

  /** Dying between the closing save of a round and its stop is never invisible: the next life comes to a round, or
      ends otherwise. */
  lemma CrashBeforeStop(b: Board, w: World, lim: Limits, j: nat, way: Way, d: Decision)
    requires Inv(b) && OwnTexts(w.text) && Enters(b, w, lim, j, way, d) && Closes(way.entry.board, d, w)
    requires RoundOf(way, d, w, lim).flow.Stop?
    ensures var s, again := RoundOf(way, d, w, lim),
        DriveOn(Entry(Survive(b, Life(w, lim, |way.saves| + |TurnSaves(way.entry.board, d, w)| + 1)), FRESH, 0), w, lim);
      again.records != [] || again.board != s.board
  {
    hide Round, Decide, Inv, Signature, OneRound, DriveOn, TurnSaves, SaveAndGuard, RoundAt, Survive, Enters, Closes, ClosedOn,
         BeforeClosing, Progressed;
    EntersParts(b, w, lim, j, way, d);
    DriveSplits(Entry(b, FRESH, 0), w, lim, j);
    var e, m := way.entry, Repeats(way.entry.guard, Signature(d));
    RoundCloses(e.board, d, w, e.guard, lim.maxRepeats, 0);
    StartsWithItself(e.board, d, w);
    var c := ClosedOn(BeforeClosing(e.board, d, w), w);
    TwoCounts(e.board, c, |c.roster| > |e.board.roster|, w.text, Signature(d), m, m, lim.maxRepeats);
    SurviveInRound(b, w, lim, j, way, d, |TurnSaves(e.board, d, w)| + 1);
    var again := Entry(c, FRESH, 0);
    if DriveOn(again, w, lim).records == [] { NoRounds(again, w, lim); }
  }

  // ---------------------------------------------------------------- it happens

  /** The plain round under any guard that does not stop it: on to the next board of its kind, one repeat more. */
  lemma PlainStep(b: Board, text: Wording, slips: nat, g: Guard, maxRepeats: int)
    requires Between(b) && OwnTexts(text) && 0 <= Repeats(g, Signature(ONE_CALL)) < maxRepeats
    ensures var d, w := ONE_CALL, PlainWorld(text, slips); var s := Round(b, d, w, g, maxRepeats);
      && s.flow == Next(Guard(Some(Signature(d)), Repeats(g, Signature(d)))) && s.board.roster == b.roster
      && s.board.round == b.round + 1 && s.board.maxRounds == b.maxRounds && (b.round + 1 < b.maxRounds ==> Between(s.board))
  {
    hide Round, Signature, Repeats, Advances, IdsBounded;
    BetweenRuns(b);
    RepeatsOfFresh();
    PlainGoesOn(b, text, slips, maxRepeats);
    SameRound(b, ONE_CALL, PlainWorld(text, slips), g, FRESH, maxRepeats);
  }

  lemma RepeatsOfFresh()
    ensures forall s: string :: Repeats(FRESH, s) == 0
  {
  }

  /** One that stops it. */
  lemma PlainStop(b: Board, text: Wording, slips: nat, maxRepeats: int)
    requires Between(b) && OwnTexts(text) && 0 < maxRepeats
    ensures var d, w := ONE_CALL, PlainWorld(text, slips);
      Advances(b, d, w) && |ClosedOn(BeforeClosing(b, d, w), w).roster| == |b.roster|
  {
    hide Round, Signature, Inv, IdsBounded, Closes, ClosedOn, BeforeClosing, Progressed, SaveAndGuard, TurnSaves, Repeats, Escapes, Recruits, Reports;
    var d, w := ONE_CALL, PlainWorld(text, slips);
    BetweenRuns(b);
    RepeatsOfFresh();
    PlainGoesOn(b, text, slips, maxRepeats);
    PlainRound(b, text, slips);
    SettledRound(b, d, w);
    RoundCloses(b, d, w, FRESH, maxRepeats, 0);
    var c := ClosedOn(BeforeClosing(b, d, w), w);
    TwoCounts(b, c, |c.roster| > |b.roster|, text, Signature(d), 0, 0, maxRepeats);
  }

  lemma PlainDecides(text: Wording, slips: nat, round: int, pe: int, maxPe: int)
    requires pe + slips < maxPe || slips == 0
    ensures Decide(PlainWorld(text, slips), round, 0, pe, maxPe).decision == Some(ONE_CALL)
    ensures slips <= 1 ==> Decide(PlainWorld(text, slips), round, 0, pe, maxPe).parseErrors == pe + slips
  {
    var w := PlainWorld(text, slips);
    DecideFindsIff(w, round, 0, pe, maxPe);
    assert w.decide(round, slips).Some?;
    var i := Decided(w, round, 0, pe, maxPe);
  }

  /** The plain run, from any count on: it ends on a repeat, as many rounds later as the count has left. */
  lemma {:induction false} PlainRunEnds(b: Board, repeats: int, pe: int, text: Wording, lim: Limits, n: int)
    requires Between(b) && OwnTexts(text) && 0 <= repeats < lim.maxRepeats && n <= repeats
    requires b.round + lim.maxRepeats - repeats <= b.maxRounds
    ensures EndsOnRepeat(Entry(b, Guard(Some(Signature(ONE_CALL)), repeats), pe), PlainWorld(text, 0), lim, n)
    decreases lim.maxRepeats - repeats
  {
    hide Round, Signature, Decide, Between, EndsOnRepeat, OneRound, DriveOn, PartsHere, Inv, Advances, ClosedOn, BeforeClosing;
    var d, w := ONE_CALL, PlainWorld(text, 0);
    var e := Entry(b, Guard(Some(Signature(d)), repeats), pe);
    BetweenRuns(b);
    PlainDecides(text, 0, b.round, pe, lim.maxParseErrors);
    if repeats + 1 >= lim.maxRepeats {
      PlainStop(b, text, 0, lim.maxRepeats);
      PlainParts(b, repeats + 1, n, text, lim);
      PartingHere(e, d, w, lim, n);
    } else {
      PlainNext(e, text, 0, lim);
      var next := OneRound(e, w, lim).value.entry;
      PlainRunEnds(next.board, repeats + 1, next.parseErrors, text, lim, n + 1);
      RepeatShift(e, d, w, lim, n);
    }
  }

  lemma PlainParts(b: Board, m: int, n: int, text: Wording, lim: Limits)
    requires Advances(b, ONE_CALL, PlainWorld(text, 0)) && m >= lim.maxRepeats > n
    requires |ClosedOn(BeforeClosing(b, ONE_CALL, PlainWorld(text, 0)), PlainWorld(text, 0)).roster| == |b.roster|
    ensures PartsHere(b, ONE_CALL, PlainWorld(text, 0), m, n, lim.maxRepeats)
  {
  }

  lemma PartingHere(e: Entry, d: Decision, w: World, lim: Limits, n: int)
    requires Inv(e.board) && Running(e.board) && OwnTexts(w.text) && Some(Signature(d)) == e.guard.lastSignature
    requires Decide(w, e.board.round, 0, e.parseErrors, lim.maxParseErrors).decision == Some(d)
    requires PartsHere(e.board, d, w, e.guard.repeats + 1, n, lim.maxRepeats)
    ensures EndsOnRepeat(e, w, lim, n)
  {
    hide Round, Decide, Signature, Inv, OneRound, DriveOn, Closes, ClosedOn, BeforeClosing, Progressed;
    RepeatedRound(e, d, w, lim, n);
    DriveUnfolds(e, d, w, lim);
    assert DriveOn(e, w, lim).records == [RecordOf(e, d, w, lim)];
    RepeatGrowsNobody(e, d, w, lim, n);
  }

  lemma RepeatGrowsNobody(e: Entry, d: Decision, w: World, lim: Limits, n: int)
    requires Inv(e.board) && Running(e.board) && Some(Signature(d)) == e.guard.lastSignature
    requires PartsHere(e.board, d, w, e.guard.repeats + 1, n, lim.maxRepeats)
    ensures !RecordOf(e, d, w, lim).grew
  {
    hide Round, Signature, Inv, Closes, ClosedOn, BeforeClosing, Progressed;
    RepeatedRound(e, d, w, lim, n);
  }

  /** From a first checkpoint: dying after the first round, with everything saved, when the decision may be repeated
      twice. The round that follows ends in both lives on the same board and goes on; the one after it, the last of
      the run that did not die, is not the last of the other. */
  lemma UnseenAtFirst(text: Wording, maxParseErrors: int)
    requires OwnTexts(text)
    ensures var first, d, w, lim := FirstBoard(4), ONE_CALL, PlainWorld(text, 0), Limits(maxParseErrors, 2);
      && Start(first, [CRITERION]) && OneRound(Entry(first, FRESH, 0), w, lim).Some?
      && var way := OneRound(Entry(first, FRESH, 0), w, lim).value;
         var e, x := way.entry, Survive(first, Life(w, lim, |way.saves|));
         var rest, again := DriveOn(e, w, lim), DriveOn(Entry(x, FRESH, 0), w, lim);
         && Enters(first, w, lim, 1, way, d) && x == e.board && Unseen(e.board, d, w, e.guard, lim.maxRepeats, 0)
         && rest.board.status == Blocked && rest.board.reason == text.repeated && |rest.records| == 2
         && again.board.status == Blocked && again.board.reason == text.repeated && |again.records| == 3
  {
    hide Round, Signature, Decide, Between, EndsOnRepeat, OneRound, DriveOn, Start, Inv, Recruits, Reports, Survive, Enters, RoundAt, TurnSaves;
    var first, d, w, lim := FirstBoard(4), ONE_CALL, PlainWorld(text, 0), Limits(maxParseErrors, 2);
    var e0 := Entry(first, FRESH, 0);
    FirstBoardIsBetween(4);
    BetweenRuns(first);
    RepeatsOfFresh();
    PlainNext(e0, text, 0, lim);
    var way := OneRound(e0, w, lim).value;
    var e := way.entry;
    BetweenRuns(e.board);
    PlainDecides(text, 0, e.board.round, e.parseErrors, maxParseErrors);
    PlainDecides(text, 0, first.round, 0, maxParseErrors);
    EntersSecond(first, w, lim, d);
    SurviveInRound(first, w, lim, 1, way, d, 0);
    PlainRunEnds(e.board, 0, e.parseErrors, text, lim, 0);
    EndsAre(e, w, lim, 0, 0);
    var f := Entry(e.board, FRESH, 0);
    PlainNext(f, text, 0, lim);
    PlainDecides(text, 0, e.board.round, 0, maxParseErrors);
    var g := OneRound(f, w, lim).value.entry;
    BetweenRuns(g.board);
    PlainRunEnds(g.board, 0, g.parseErrors, text, lim, 0);
    EndsAre(g, w, lim, 0, 0);
    DriveUnfolds(f, d, w, lim);
    assert Repeats(e.guard, Signature(d)) == 1;
  }

  lemma PlainNext(e: Entry, text: Wording, slips: nat, lim: Limits)
    requires slips <= 1 && (e.parseErrors + slips < lim.maxParseErrors || slips == 0)
    requires Between(e.board) && OwnTexts(text) && 0 <= Repeats(e.guard, Signature(ONE_CALL)) < lim.maxRepeats
    ensures var w := PlainWorld(text, slips);
      && OneRound(e, w, lim).Some?
      && var next := OneRound(e, w, lim).value.entry;
         && next.parseErrors == e.parseErrors + slips && next.guard == Guard(Some(Signature(ONE_CALL)), Repeats(e.guard, Signature(ONE_CALL)))
         && next.board.roster == e.board.roster
         && next.board.round == e.board.round + 1 && next.board.maxRounds == e.board.maxRounds
         && (e.board.round + 1 < e.board.maxRounds ==> Between(next.board))
  {
    hide Round, Signature, Decide, Between, Repeats;
    BetweenRuns(e.board);
    PlainDecides(text, slips, e.board.round, e.parseErrors, lim.maxParseErrors);
    PlainStep(e.board, text, slips, e.guard, lim.maxRepeats);
  }

  lemma EntersSecond(b: Board, w: World, lim: Limits, d: Decision)
    requires Running(b) && OneRound(Entry(b, FRESH, 0), w, lim).Some?
    requires var e := OneRound(Entry(b, FRESH, 0), w, lim).value.entry;
      Running(e.board) && Decide(w, e.board.round, 0, e.parseErrors, lim.maxParseErrors).decision == Some(d)
    ensures Enters(b, w, lim, 1, OneRound(Entry(b, FRESH, 0), w, lim).value, d)
  {
    hide OneRound, Decide;
    var one := OneRound(Entry(b, FRESH, 0), w, lim).value;
    assert RoundAt(one.entry, w, lim, 0) == Some(Way([], one.entry));
    assert one.saves + [] == one.saves;
  }

  /** The other way, too: every question of the run is answered at the second attempt, and three errors are too
      many. The round after the crash ends alike in both lives, and the next question is answered in one of them. */
  lemma UnseenWithErrors(text: Wording)
    requires OwnTexts(text)
    ensures var first, d, w, lim := FirstBoard(3), ONE_CALL, PlainWorld(text, 1), Limits(3, 2);
      && Start(first, [CRITERION]) && OneRound(Entry(first, FRESH, 0), w, lim).Some?
      && var way := OneRound(Entry(first, FRESH, 0), w, lim).value;
         var e, x := way.entry, Survive(first, Life(w, lim, |way.saves|));
         var rest, again := DriveOn(e, w, lim), DriveOn(Entry(x, FRESH, 0), w, lim);
         && Enters(first, w, lim, 1, way, d) && x == e.board && Unseen(e.board, d, w, e.guard, lim.maxRepeats, 0)
         && rest.board.status == Failed && rest.board.reason == text.parseBudget && |rest.records| == 1
         && again.board.status == Blocked && again.board.reason == text.maxRounds && |again.records| == 2
  {
    hide Round, Signature, Decide, Between, OneRound, DriveOn, Start, Inv, Recruits, Reports, Survive, Enters, RoundAt, TurnSaves;
    var first, d, w, lim := FirstBoard(3), ONE_CALL, PlainWorld(text, 1), Limits(3, 2);
    var e0 := Entry(first, FRESH, 0);
    FirstBoardIsBetween(3);
    BetweenRuns(first);
    RepeatsOfFresh();
    PlainNext(e0, text, 1, lim);
    var way := OneRound(e0, w, lim).value;
    var e, f := way.entry, Entry(way.entry.board, FRESH, 0);
    BetweenRuns(e.board);
    PlainDecides(text, 1, e.board.round, e.parseErrors, 3);
    PlainDecides(text, 1, e.board.round, 0, 3);
    PlainDecides(text, 1, first.round, 0, 3);
    EntersSecond(first, w, lim, d);
    SurviveInRound(first, w, lim, 1, way, d, 0);
    assert Repeats(e.guard, Signature(d)) == 1;
    PlainNext(e, text, 1, lim);
    DriveUnfolds(e, d, w, lim);
    var last := OneRound(e, w, lim).value.entry;
    BetweenRuns(last.board);
    OutOfReplies(text, last.board.round);
    UnansweredEnds(last, w, lim, 0);
    PlainNext(f, text, 1, lim);
    DriveUnfolds(f, d, w, lim);
    var g := OneRound(f, w, lim).value.entry;
    BetweenRuns(g.board);
    PlainDecides(text, 1, g.board.round, g.parseErrors, 3);
    PlainNext(g, text, 1, lim);
    DriveUnfolds(g, d, w, lim);
    OutOfRounds(OneRound(g, w, lim).value.entry, g, d, w, lim);
  }

  lemma OutOfReplies(text: Wording, round: int)
    ensures Decide(PlainWorld(text, 1), round, 0, 2, 3).decision.None?
  {
  }

  lemma OutOfRounds(e: Entry, g: Entry, d: Decision, w: World, lim: Limits)
    requires e.board.round >= e.board.maxRounds && Inv(g.board) && Running(g.board)
    requires Decide(w, g.board.round, 0, g.parseErrors, lim.maxParseErrors).decision == Some(d)
    requires Round(g.board, d, w, g.guard, lim.maxRepeats).flow.Next? && e.board == Round(g.board, d, w, g.guard, lim.maxRepeats).board
    ensures DriveOn(e, w, lim).board == Terminated(e.board, Blocked, w.text.maxRounds) && DriveOn(e, w, lim).records == []
  {
    hide Round, Decide, Inv, Extends;
    RoundKeeps(g.board, d, w, g.guard, lim.maxRepeats);
  }
}
