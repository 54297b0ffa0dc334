/**
 * The desktop slot machine (src/Components/Slot.tsx): a 9-symbol catalog,
 * five `Spinner` reels that animate frame by frame and keep their strip
 * position as state, and the `Slot` component that gates spins, plans where
 * every reel stops (random rows on the first spin, the dog house on the
 * second) and aggregates the five reports into a win/lose decision.
 *
 * The strip is centred with an offset of 187.5 px, so positions are counted
 * in half-pixels; targets and reports stay whole pixels.
 */
module Slot {
  import opened SlotCommon

  // ---------------------------------------------------------------------------
  // Configuration
  // ---------------------------------------------------------------------------

  /** The images on a reel; `Path` gives each one's entry in `SYMBOLS`. */
  datatype Symbol = A | K | Q | J | Ten | GoldCoin | Stick | GoldenReef | DogHouse

  function Path(s: Symbol): string
  {
    match s
    case A => "/A.png"
    case K => "/K.png"
    case Q => "/Q.png"
    case J => "/J.png"
    case Ten => "/10.png"
    case GoldCoin => "/goldCoin.png"
    case Stick => "/stick.png"
    case GoldenReef => "/GoldenReef.png"
    case DogHouse => "/dogHouse.png"
  }

  /** `SYMBOLS`, top to bottom of the strip. */
  const Symbols: seq<Symbol> := [A, K, Q, J, Ten, GoldCoin, Stick, GoldenReef, DogHouse]

  const IconHeight: int := 125
  /** `TOTAL_SYMBOLS`, written as a literal next to the catalog. */
  const TotalSymbols: int := 9
  /** One full pass over the catalog, in pixels. */
  const CycleLength: int := IconHeight * TotalSymbols

  /** One catalog cycle, in half-pixels. */
  const HalfCycle: int := 2 * CycleLength
  /** `ICON_HEIGHT * 1.5`, in half-pixels. */
  const HalfCenter: int := 3 * IconHeight
  /** The distance a reel scrolls at `eased == 1`, 25 full cycles, in half-pixels. */
  const HalfTravel: nat := 2 * IconHeight * TotalSymbols * 25

  const ReelCount: int := 5
  /** Reel `i` starts `i * StaggerMs` after the click. */
  const StaggerMs: int := 400
  /** `handleSpin` refuses to run once `spinCount` reaches this. */
  const MaxSpins: int := 2

  /** The (case-sensitive) substring that picks the winning symbol. */
  const WinNeedle: string := "dogHouse.png"

  /** The hard-coded symbol count is the catalog's length. */
  lemma TotalSymbolsIsCatalogLength()
    ensures TotalSymbols == |Symbols| == 9
    ensures CycleLength == 1125 && HalfCycle == 2250 && HalfCenter == 375 && HalfTravel == 56250
  {
  }

  /** The `duration` prop of reel `i`. */
  function ReelDuration(i: int): int
  {
    4800 + i * 400
  }

  // ---------------------------------------------------------------------------
  // Target plan
  // ---------------------------------------------------------------------------

  /** `SYMBOLS.findIndex((s) => s.includes("dogHouse.png"))`. */
  function DogHouseIndex(): int
  {
    FirstIncluding(Symbols, Path, WinNeedle)
  }

  /** Different symbols have different paths: each symbol is identified by its `SYMBOLS` entry. */
  lemma PathInjective(s: Symbol, t: Symbol)
    ensures Path(s) == Path(t) <==> s == t
  {
  }

  /** Only the dog house's path contains the needle. */
  lemma OnlyDogHouseHasNeedle(s: Symbol)
    ensures Includes(Path(s), WinNeedle) <==> s == DogHouse
  {
    match s
    case DogHouse =>
      assert MatchesFrom(Path(DogHouse), WinNeedle, 1, 0);
      assert IncludesFrom(Path(DogHouse), WinNeedle, 1);
    case GoldenReef =>
      assert !IncludesFrom(Path(GoldenReef), WinNeedle, 3);
      assert !IncludesFrom(Path(GoldenReef), WinNeedle, 2);
      assert !IncludesFrom(Path(GoldenReef), WinNeedle, 1);
      assert !IncludesFrom(Path(GoldenReef), WinNeedle, 0);
    case GoldCoin =>
      assert !IncludesFrom(Path(GoldCoin), WinNeedle, 1);
      assert !IncludesFrom(Path(GoldCoin), WinNeedle, 0);
    case A => assert !Includes(Path(A), WinNeedle);
    case K => assert !Includes(Path(K), WinNeedle);
    case Q => assert !Includes(Path(Q), WinNeedle);
    case J => assert !Includes(Path(J), WinNeedle);
    case Ten => assert !Includes(Path(Ten), WinNeedle);
    case Stick => assert !Includes(Path(Stick), WinNeedle);
  }

  /** The search settles on the last entry of the catalog. */
  lemma DogHouseIndexIsLast()
    ensures DogHouseIndex() == 8 && Symbols[8] == DogHouse
  {
    forall j | 0 <= j < |Symbols|
      ensures Includes(Path(Symbols[j]), WinNeedle) <==> j == 8
    {
      OnlyDogHouseHasNeedle(Symbols[j]);
    }
    FirstIncludingIsFirst(Symbols, Path, WinNeedle);
  }

  /** What `Math.floor(Math.random() * SYMBOLS.length)` can yield, once per reel. */
  predicate ValidDraws(draws: seq<int>)
  {
    |draws| == ReelCount && forall i :: 0 <= i < |draws| ==> 0 <= draws[i] < |Symbols|
  }

  /** `targetPositions` in `handleSpin`, for the spin numbered `nextSpin`. */
  function TargetPlan(nextSpin: int, draws: seq<int>): (plan: seq<int>)
    requires ValidDraws(draws)
    ensures |plan| == ReelCount
  {
    if nextSpin == 2 && DogHouseIndex() != -1 then
      seq(ReelCount, _ => -IconHeight * (DogHouseIndex() + 2))
    else
      seq(ReelCount, i requires 0 <= i < ReelCount => draws[i] * -IconHeight)
  }

  /** The second spin: all five reels are sent two rows past the dog house. */
  lemma WinPlan(draws: seq<int>)
    requires ValidDraws(draws)
    ensures forall i :: 0 <= i < ReelCount ==> TargetPlan(2, draws)[i] == -IconHeight * (8 + 2)
    ensures AllSame(TargetPlan(2, draws))
  {
    DogHouseIndexIsLast();
  }

  /** Any other spin: reel `i` gets the whole row `draws[i]` of the catalog. */
  lemma RandomPlan(nextSpin: int, draws: seq<int>)
    requires ValidDraws(draws) && nextSpin != 2
    ensures forall i :: 0 <= i < ReelCount ==>
              TargetPlan(nextSpin, draws)[i] == -IconHeight * draws[i] &&
              -CycleLength < TargetPlan(nextSpin, draws)[i] <= 0
  {
    TotalSymbolsIsCatalogLength();
  }

  /**
   * A random spin is all-equal exactly when the five draws coincide: rows
   * map to targets one to one.
   */
  lemma RandomPlanAllSameIffDrawsAgree(nextSpin: int, draws: seq<int>)
    requires ValidDraws(draws) && nextSpin != 2
    ensures AllSame(TargetPlan(nextSpin, draws)) <==> AllSame(draws)
  {
    var plan := TargetPlan(nextSpin, draws);
    RandomPlan(nextSpin, draws);
    forall i | 0 <= i < ReelCount
      ensures plan[i] == plan[0] <==> draws[i] == draws[0]
    {
      assert plan[i] - plan[0] == -IconHeight * (draws[i] - draws[0]);
    }
  }

  // ---------------------------------------------------------------------------
  // Where a reel is drawn
  // ---------------------------------------------------------------------------

  /**
   * The `position` a frame stores after scrolling `distance` half-pixels
   * towards `target` pixels: the distance reduced to one cycle, shifted by the
   * target and the centring offset, and reduced again with JavaScript's `%`.
   */
  function Position(distance: int, target: int): int
  {
    JsRem(JsRem(distance, HalfCycle) + 2 * target + HalfCenter, HalfCycle)
  }

  /** The `position` of the last frame, at `eased == 1`, in half-pixels. */
  function FinalPosition(target: int): (r: int)
    ensures -HalfCycle < r < HalfCycle
  {
    Position(HalfTravel, target)
  }

  /**
   * The 25 cycles of travel vanish: the reel rests at the target plus the
   * centring offset, reduced with JavaScript's `%`, so the sign follows the
   * shifted target.
   */
  lemma FinalPositionIsShiftedTarget(target: int)
    ensures FinalPosition(target) == JsRem(2 * target + HalfCenter, HalfCycle)
  {
    TotalSymbolsIsCatalogLength();
    assert JsRem(HalfTravel, HalfCycle) == 0;
  }

  /** A target within a cycle of the frame is drawn exactly at its shifted place. */
  lemma FinalPositionInFrame(target: int)
    requires -HalfCycle < 2 * target + HalfCenter < HalfCycle
    ensures FinalPosition(target) == 2 * target + HalfCenter
  {
    FinalPositionIsShiftedTarget(target);
    TotalSymbolsIsCatalogLength();
  }

  /**
   * Every target of every plan lands less than one cycle (1125 px) from the
   * top, at the target shifted by 187.5 px; so two reels show the same row
   * exactly when their targets are equal.
   */
  lemma PlanLandsInFrame(nextSpin: int, draws: seq<int>)
    requires ValidDraws(draws)
    ensures forall i :: 0 <= i < ReelCount ==>
              FinalPosition(TargetPlan(nextSpin, draws)[i]) == 2 * TargetPlan(nextSpin, draws)[i] + HalfCenter &&
              -HalfCycle < FinalPosition(TargetPlan(nextSpin, draws)[i]) < HalfCycle
    ensures forall i, j :: 0 <= i < ReelCount && 0 <= j < ReelCount ==>
              (FinalPosition(TargetPlan(nextSpin, draws)[i]) == FinalPosition(TargetPlan(nextSpin, draws)[j]) <==>
               TargetPlan(nextSpin, draws)[i] == TargetPlan(nextSpin, draws)[j])
  {
    var plan := TargetPlan(nextSpin, draws);
    TotalSymbolsIsCatalogLength();
    if nextSpin == 2 {
      WinPlan(draws);
    } else {
      RandomPlan(nextSpin, draws);
    }
    forall i | 0 <= i < ReelCount
      ensures FinalPosition(plan[i]) == 2 * plan[i] + HalfCenter
    {
      FinalPositionInFrame(plan[i]);
    }
  }

  /** The second spin shows the same row on all five reels, 1062.5 px above the top. */
  lemma WinLandsOnOneRow(draws: seq<int>)
    requires ValidDraws(draws)
    ensures forall i :: 0 <= i < ReelCount ==> FinalPosition(TargetPlan(2, draws)[i]) == -2125
  {
    WinPlan(draws);
    FinalPositionInFrame(-1250);
  }

  // ---------------------------------------------------------------------------
  // One reel: the `Spinner` component
  // ---------------------------------------------------------------------------

  class Reel {
    /** The `duration` prop. */
    const duration: int
    /** `activeRef.current`. */
    var active: bool
    /** `startTimeRef.current`; `None` is `null`. */
    var startTime: Option<int>
    /** `timerRef.current` names a requested frame that has neither run nor been cancelled. */
    var framePending: bool
    /** The `delay` and `targetPos` the current animation's frame callbacks carry. */
    var delay: int
    var target: int
    /** The `position` state, in half-pixels. */
    var position: int

    ghost predicate Valid()
      reads this
    {
      duration > 0 && (framePending ==> active)
    }

    /** A freshly mounted reel: idle, nothing scheduled, `position` 0. */
    constructor (duration: int)
      requires duration > 0
      ensures Valid() && this.duration == duration
      ensures !active && !framePending && startTime == None && position == 0
    {
      this.duration := duration;
      active, framePending, startTime := false, false, None;
      delay, target, position := 0, 0, 0;
    }

    /** The start time a frame at `timestamp` uses: `!startTimeRef.current` also treats 0 as unset. */
    function StartFor(timestamp: int): int
      reads this
    {
      if startTime.None? || startTime.value == 0 then timestamp else startTime.value
    }

    /** The state `spin(delay, targetPos)` leaves behind. */
    predicate Started(d: int, t: int)
      reads this
    {
      active && framePending && startTime == None && delay == d && target == t
    }

    /** `spin`: cancel the pending frame, forget the start time, reactivate and request a fresh frame. */
    method Spin(d: int, t: int)
      requires Valid()
      modifies this
      ensures Valid() && Started(d, t) && position == old(position)
    {
      framePending := false;
      startTime := None;
      active := true;
      delay, target := d, t;
      framePending := true;
    }

    /** The unmount cleanup: the pending frame is cancelled; nothing else changes. */
    method Unmount()
      requires Valid()
      modifies this
      ensures Valid() && !framePending
      ensures active == old(active) && startTime == old(startTime) && position == old(position)
      ensures delay == old(delay) && target == old(target)
    {
      framePending := false;
    }

    /**
     * `spinAnimation`, run by the frame at `timestamp`. `drawn` is the
     * `position` stored by this frame, `report` the value posted to `onFinish`.
     */
    method Step(timestamp: int) returns (drawn: Option<int>, report: Option<int>)
      requires Valid()
      modifies this
      ensures Valid() && delay == old(delay) && target == old(target)
      ensures !old(active) ==> unchanged(this) && drawn == None && report == None
      ensures old(active) ==>
        var start := old(StartFor(timestamp));
        var elapsed := timestamp - start - delay;
        && startTime == Some(start)
        && active == (elapsed < duration)
        && framePending == (elapsed < duration)
        && (elapsed < 0 ==> drawn == None && position == old(position))
        && (elapsed >= 0 ==>
              drawn == Some(position) && position == Position(EasedDistance(HalfTravel, elapsed, duration), target))
        && report == (if elapsed < duration then None else Some(target))
      ensures report.Some? ==> !active && !framePending && position == FinalPosition(target)
    {
      drawn, report := None, None;
      if !active {
        return;
      }
      if startTime.None? || startTime.value == 0 {
        startTime := Some(timestamp);
      }
      var elapsed := timestamp - startTime.value - delay;
      framePending := false;
      if elapsed < 0 {
        framePending := true;
        return;
      }
      position := Position(EasedDistance(HalfTravel, elapsed, duration), target);
      drawn := Some(position);
      if elapsed < duration {
        framePending := true;
      } else {
        active := false;
        report := Some(target);
      }
    }

    /**
     * The browser's frame loop: deliver the pending frame at each timestamp in
     * turn, for as long as the reel keeps requesting frames. The reel reports
     * at most once, and only after storing its landing position; once a frame
     * comes `duration` after the first frame plus the delay, it has reported.
     */
    method RunFrames(timestamps: seq<int>) returns (reports: seq<int>)
      requires Valid()
      modifies this
      ensures Valid() && delay == old(delay) && target == old(target)
      ensures |reports| <= 1
      ensures reports != [] ==> reports == [target] && !active && !framePending && position == FinalPosition(target)
      ensures !old(framePending) ==> reports == [] && unchanged(this)
      ensures (old(framePending) && old(startTime) == None && |timestamps| > 0 && timestamps[0] > 0 &&
               timestamps[|timestamps| - 1] - timestamps[0] - old(delay) >= duration) ==> reports == [target]
    {
      reports := [];
      ghost var fromStart := old(framePending) && old(startTime) == None && |timestamps| > 0 && timestamps[0] > 0;
      var k := 0;
      while k < |timestamps| && framePending
        invariant 0 <= k <= |timestamps|
        invariant Valid() && delay == old(delay) && target == old(target)
        invariant reports == [] || (reports == [target] && !active && !framePending && position == FinalPosition(target))
        invariant !old(framePending) ==> k == 0 && reports == [] && unchanged(this)
        invariant old(framePending) ==> framePending || reports == [target]
        invariant fromStart && k > 0 ==> startTime == Some(timestamps[0])
        invariant fromStart && k == 0 ==> startTime == None
        invariant fromStart && k > 0 && framePending ==> timestamps[k - 1] - timestamps[0] - delay < duration
      {
        var drawn, report := Step(timestamps[k]);
        if report.Some? {
          reports := reports + [report.value];
        }
        k := k + 1;
      }
    }
  }

  // ---------------------------------------------------------------------------
  // The component state: spin budget, collected results, decision
  // ---------------------------------------------------------------------------

  /** The state `Slot` keeps: `spinCount`, `matches` and `winner` (`None` is `null`). */
  datatype Round = Round(spinCount: nat, matches: seq<int>, winner: Option<bool>)

  function Initial(): Round
  {
    Round(0, [], None)
  }

  /** `handleSpin`'s effect on the component state. */
  function Spin(r: Round): Round
  {
    if r.spinCount >= MaxSpins then r
    else Round(r.spinCount + 1, [], None)
  }

  /** `handleFinish(value)`: collect the value; decide at exactly five. */
  function Finish(r: Round, value: int): Round
  {
    var updated := r.matches + [value];
    if |updated| == ReelCount then r.(matches := updated, winner := Some(AllSame(updated)))
    else r.(matches := updated)
  }

  /** A click on the spin button, or a reel's report reaching `handleFinish`. */
  datatype Event = Click | Report(value: int)

  function Apply(r: Round, e: Event): Round
  {
    match e
    case Click => Spin(r)
    case Report(v) => Finish(r, v)
  }

  /** The state after the events, in order. */
  function Run(r: Round, events: seq<Event>): Round
    decreases |events|
  {
    if events == [] then r else Run(Apply(r, events[0]), events[1..])
  }

  function Reports(values: seq<int>): (evs: seq<Event>)
    ensures |evs| == |values|
  {
    seq(|values|, i requires 0 <= i < |values| => Report(values[i]))
  }

  /** The "n SPINS" counter. */
  function SpinsLeft(spinCount: int): int
  {
    MaxSpins - spinCount
  }

  /** The spin button's `disabled` attribute. */
  predicate ButtonDisabled(spinCount: int)
  {
    spinCount >= MaxSpins
  }

  /** What holds of every state the component can reach. */
  predicate Consistent(r: Round)
  {
    r.spinCount <= MaxSpins && (r.winner.None? <==> |r.matches| < ReelCount)
  }

  lemma ApplyKeepsConsistent(r: Round, e: Event)
    requires Consistent(r)
    ensures Consistent(Apply(r, e))
  {
  }

  lemma {:induction false} RunKeepsConsistent(r: Round, events: seq<Event>)
    requires Consistent(r)
    ensures Consistent(Run(r, events))
    decreases |events|
  {
    if events != [] {
      ApplyKeepsConsistent(r, events[0]);
      RunKeepsConsistent(Apply(r, events[0]), events[1..]);
    }
  }

  /**
   * Whatever the clicks and reports, `spinCount` never exceeds two, the
   * counter stays within 0..2 and the button is disabled exactly when no spin
   * is left, at which point a click changes nothing.
   */
  lemma BudgetOverAnyRun(events: seq<Event>)
    ensures var r := Run(Initial(), events);
      && 0 <= SpinsLeft(r.spinCount) <= 2
      && (ButtonDisabled(r.spinCount) <==> SpinsLeft(r.spinCount) == 0)
      && (Spin(r) == r <==> ButtonDisabled(r.spinCount))
  {
    RunKeepsConsistent(Initial(), events);
  }

  /** Reports accumulate in arrival order; the decision is taken when the fifth arrives. */
  lemma {:induction false} ReportsAccumulate(r: Round, values: seq<int>)
    requires |r.matches| + |values| <= ReelCount
    ensures var s := Run(r, Reports(values));
      && s.matches == r.matches + values
      && s.spinCount == r.spinCount
      && (|r.matches| + |values| < ReelCount ==> s.winner == r.winner)
      && (|r.matches| < ReelCount == |r.matches| + |values| ==> s.winner == Some(AllSame(r.matches + values)))
    decreases |values|
  {
    if values != [] {
      var r' := Finish(r, values[0]);
      assert Reports(values)[1..] == Reports(values[1..]);
      ReportsAccumulate(r', values[1..]);
      assert r.matches + [values[0]] + values[1..] == r.matches + values;
    }
  }

  /**
   * A report after the fifth is appended, but `updated.length === 5` no
   * longer holds: the decision stays as it was.
   */
  lemma ReportAfterFifthDecidesNothing(r: Round, value: int)
    requires |r.matches| >= ReelCount
    ensures Finish(r, value).matches == r.matches + [value]
    ensures Finish(r, value).spinCount == r.spinCount
    ensures Finish(r, value).winner == r.winner
  {
  }

  /** Five reports in any order of an emptied round's five targets decide the round on the targets. */
  lemma DecidedOnPlan(r: Round, reports: seq<int>, plan: seq<int>)
    requires r.matches == [] && |plan| == ReelCount && multiset(reports) == multiset(plan)
    ensures var s := Run(r, Reports(reports));
      s.spinCount == r.spinCount && s.winner == Some(AllSame(plan))
  {
    assert |reports| == |multiset(reports)| == |plan|;
    AllSameOrderFree(reports, plan);
    ReportsAccumulate(r, reports);
    assert r.matches + reports == reports;
  }

  /**
   * The first spin, whatever order its reels report in, is won exactly when
   * the five random rows coincide: nothing scripts it to lose.
   */
  lemma FirstSpinWinsIffDrawsAgree(draws: seq<int>, reports: seq<int>)
    requires ValidDraws(draws) && multiset(reports) == multiset(TargetPlan(1, draws))
    ensures var s := Run(Spin(Initial()), Reports(reports));
      s.spinCount == 1 && s.winner == Some(AllSame(draws))
  {
    DecidedOnPlan(Spin(Initial()), reports, TargetPlan(1, draws));
    RandomPlanAllSameIffDrawsAgree(1, draws);
  }

  /**
   * The second spin, from any state the first click can lead to: it is
   * decided as a win, and a further click changes nothing.
   */
  lemma SecondSpinWins(r: Round, draws: seq<int>, reports: seq<int>)
    requires Consistent(r) && r.spinCount == 1
    requires ValidDraws(draws) && multiset(reports) == multiset(TargetPlan(2, draws))
    ensures var s := Run(Spin(r), Reports(reports));
      s.spinCount == 2 && s.winner == Some(true) && Spin(s) == s
  {
    WinPlan(draws);
    DecidedOnPlan(Spin(r), reports, TargetPlan(2, draws));
  }

  /**
   * Nothing stops a click while the reels are still turning: a second click
   * right after the first is accepted, and the first spin is never decided.
   */
  lemma SecondClickMidSpinIsAccepted()
    ensures Run(Initial(), [Click, Click]).spinCount == 2
    ensures Run(Initial(), [Click, Click]).winner == None
  {
  }

  // ---------------------------------------------------------------------------
  // The component: five reels and the handlers
  // ---------------------------------------------------------------------------

  class Session {
    var spinCount: nat
    var matches: seq<int>
    var winner: Option<bool>
    /** The five `Spinner`s, in `spinnerRefs` order. */
    const reels: seq<Reel>

    function State(): Round
      reads this
    {
      Round(spinCount, matches, winner)
    }

    /** Five distinct reels, reel `i` mounted with `ReelDuration(i)`. */
    ghost predicate ReelsValid()
      reads this, reels
    {
      && |reels| == ReelCount
      && (forall i, j :: 0 <= i < j < |reels| ==> reels[i] != reels[j])
      && (forall i :: 0 <= i < |reels| ==> reels[i].Valid() && reels[i].duration == ReelDuration(i))
    }

    ghost predicate Valid()
      reads this, reels
    {
      ReelsValid() && Consistent(State())
    }

    /** The mounted component: no spin yet, five idle reels. */
    constructor ()
      ensures Valid() && State() == Initial()
      ensures forall i :: 0 <= i < ReelCount ==>
                fresh(reels[i]) && !reels[i].active && !reels[i].framePending && reels[i].position == 0
    {
      var r0 := new Reel(ReelDuration(0));
      var r1 := new Reel(ReelDuration(1));
      var r2 := new Reel(ReelDuration(2));
      var r3 := new Reel(ReelDuration(3));
      var r4 := new Reel(ReelDuration(4));
      reels := [r0, r1, r2, r3, r4];
      spinCount, matches, winner := 0, [], None;
    }

    /**
     * `handleSpin`: refused once two spins have been used; otherwise clears the
     * decision and the results, counts the spin and starts reel `i` after
     * `i * 400` ms towards the plan's `i`-th target.
     */
    method HandleSpin(draws: seq<int>)
      requires Valid() && ValidDraws(draws)
      modifies this, reels
      ensures Valid() && State() == Spin(old(State()))
      ensures old(spinCount) >= MaxSpins ==> forall i :: 0 <= i < ReelCount ==> unchanged(reels[i])
      ensures old(spinCount) < MaxSpins ==>
                forall i :: 0 <= i < ReelCount ==>
                  reels[i].Started(i * StaggerMs, TargetPlan(spinCount, draws)[i]) &&
                  reels[i].position == old(reels[i].position)
    {
      if spinCount >= MaxSpins {
        return;
      }
      winner := None;
      matches := [];
      var nextSpin := spinCount + 1;
      spinCount := nextSpin;
      var plan := TargetPlan(nextSpin, draws);
      SpinReels(plan);
      ApplyKeepsConsistent(old(State()), Click);
    }

    /** `spinnerRefs.forEach((ref, i) => ref.current?.spin(i * 400, targetPositions[i]))`. */
    method SpinReels(plan: seq<int>)
      requires ReelsValid() && |plan| == ReelCount
      modifies reels
      ensures ReelsValid()
      ensures forall i :: 0 <= i < ReelCount ==>
                reels[i].Started(i * StaggerMs, plan[i]) && reels[i].position == old(reels[i].position)
    {
      var i := 0;
      while i < |reels|
        invariant 0 <= i <= |reels|
        invariant forall j :: 0 <= j < i ==>
                    reels[j].Valid() && reels[j].Started(j * StaggerMs, plan[j]) &&
                    reels[j].position == old(reels[j].position)
        invariant forall j :: i <= j < |reels| ==> unchanged(reels[j])
      {
        var reel := reels[i];
        reel.Spin(i * StaggerMs, plan[i]);
        assert forall j :: 0 <= j < i ==> reels[j] != reel;
        i := i + 1;
      }
    }

    /** `handleFinish(value)`; `decided` is the `winner` set by this report, if any. */
    method HandleFinish(value: int) returns (decided: Option<bool>)
      requires Valid()
      modifies this
      ensures Valid() && State() == Finish(old(State()), value)
      ensures decided == if |old(matches)| + 1 == ReelCount then winner else None
    {
      var updated := matches + [value];
      matches := updated;
      decided := None;
      if |updated| == ReelCount {
        winner := Some(AllSame(updated));
        decided := winner;
      }
      ApplyKeepsConsistent(old(State()), Report(value));
    }
  }
}
