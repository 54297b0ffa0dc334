/**
 * The mobile slot machine (src/Components/MobileSlot.tsx): a 13-symbol
 * catalog, five `Spinner` reels that animate frame by frame, and the
 * `MobileSlot` component that gates spins, plans where every reel stops,
 * aggregates the five reports into a win/lose decision and opens the win
 * modal on the second spin.
 */
module MobileSlot {
  import opened SlotCommon

  // ---------------------------------------------------------------------------
  // Configuration
  // ---------------------------------------------------------------------------

  /** The images on a reel; `Path` gives each one's entry in `SYMBOLS`. */
  datatype Symbol =
    | A | K | Q | J | Ten | GoldCoin | Stick | GoldenReef
    | GreenDogHouse | BlueDogHouse | PinkDogHouse | RedDogHouse | DogHouse

  function Path(s: Symbol): string
  {
    match s
    case A => "/A.png"
    case K => "/K.png"
    case Q => "/Q.png"
    case J => "/J.png"
    case Ten => "/10.png"
    case GoldCoin => "/goldCoin.png"
    case Stick => "/stick.png"
    case GoldenReef => "/GoldenReef.png"
    case GreenDogHouse => "/greenDogHouse.png"
    case BlueDogHouse => "/blueDogHouse.png"
    case PinkDogHouse => "/pinkDogHouse.png"
    case RedDogHouse => "/redDogHouse.png"
    case DogHouse => "/dogHouse.png"
  }

  /** `SYMBOLS`, top to bottom of the strip. */
  const Symbols: seq<Symbol> := [
    A, K, Q, J, Ten, GoldCoin, Stick, GoldenReef,
    GreenDogHouse, BlueDogHouse, PinkDogHouse, RedDogHouse, DogHouse
  ]

  const IconHeight: int := 120
  const TotalSymbols: int := |Symbols|
  /** One full pass over the catalog, in pixels. */
  const CycleLength: int := IconHeight * TotalSymbols
  /** The distance a reel scrolls at `eased == 1`: 25 full catalog cycles. */
  const Travel: nat := IconHeight * TotalSymbols * 25
  /** `ICON_HEIGHT * 1.0`, added so the intended row sits in the frame. */
  const CenterOffset: int := IconHeight

  const ReelCount: int := 5
  /** Reel `i` starts `i * StaggerMs` after the click. */
  const StaggerMs: int := 400
  /** `handleSpin` refuses to run once `spinCount` reaches this. */
  const MaxSpins: int := 2
  /** The spin whose decision opens the win modal. */
  const WinningSpin: int := 2

  /** The dog houses the first spin stops on, one per reel, in reel order. */
  const NearMissHouses: seq<Symbol> := [PinkDogHouse, GreenDogHouse, RedDogHouse, BlueDogHouse, DogHouse]
  /** The (case-sensitive) substring that picks the winning symbol. */
  const WinNeedle: string := "dogHouse.png"

  /** The catalog's size and the lengths derived from it. */
  lemma CatalogSize()
    ensures TotalSymbols == 13 && CycleLength == 1560 && Travel == 39000
  {
  }

  /** The `duration` prop of reel `i`. */
  function ReelDuration(i: int): int
  {
    4200 + i * 300
  }

  // ---------------------------------------------------------------------------
  // Target plan
  // ---------------------------------------------------------------------------

  /** `SYMBOLS.findIndex((s) => s.includes("dogHouse.png"))`. */
  function DogHouseIndex(): int
  {
    FirstIncluding(Symbols, Path, WinNeedle)
  }

  /** Different symbols have different paths, so `===` on paths is equality of symbols. */
  lemma PathInjective(s: Symbol, t: Symbol)
    ensures Path(s) == Path(t) <==> s == t
  {
  }

  /**
   * Only the plain dog house's path contains the lower-case needle; the
   * coloured variants spell it `DogHouse`.
   */
  lemma OnlyDogHouseHasNeedle(s: Symbol)
    ensures Includes(Path(s), WinNeedle) <==> s == DogHouse
  {
    if s == DogHouse {
      DogHouseHasNeedle();
    } else {
      OthersLackNeedle(s);
    }
  }

  lemma DogHouseHasNeedle()
    ensures Includes(Path(DogHouse), WinNeedle)
  {
    assert MatchesFrom(Path(DogHouse), WinNeedle, 1, 0);
    assert IncludesFrom(Path(DogHouse), WinNeedle, 1);
  }

  /** The coloured houses spell it `DogHouse`; the other paths never contain `dogHouse.png`. */
  lemma OthersLackNeedle(s: Symbol)
    requires s != DogHouse
    ensures !Includes(Path(s), WinNeedle)
  {
    match s
    case GoldenReef =>
      assert !IncludesFrom(Path(GoldenReef), WinNeedle, 3);
      assert !IncludesFrom(Path(GoldenReef), WinNeedle, 2);
      assert !IncludesFrom(Path(GoldenReef), WinNeedle, 1);
      assert !IncludesFrom(Path(GoldenReef), WinNeedle, 0);
    case GreenDogHouse =>
      assert !IncludesFrom(Path(GreenDogHouse), WinNeedle, 6);
      assert !IncludesFrom(Path(GreenDogHouse), WinNeedle, 5);
      assert !IncludesFrom(Path(GreenDogHouse), WinNeedle, 4);
      assert !IncludesFrom(Path(GreenDogHouse), WinNeedle, 3);
      assert !IncludesFrom(Path(GreenDogHouse), WinNeedle, 2);
      assert !IncludesFrom(Path(GreenDogHouse), WinNeedle, 1);
      assert !IncludesFrom(Path(GreenDogHouse), WinNeedle, 0);
    case BlueDogHouse =>
      assert !IncludesFrom(Path(BlueDogHouse), WinNeedle, 5);
      assert !IncludesFrom(Path(BlueDogHouse), WinNeedle, 4);
      assert !IncludesFrom(Path(BlueDogHouse), WinNeedle, 3);
      assert !IncludesFrom(Path(BlueDogHouse), WinNeedle, 2);
      assert !IncludesFrom(Path(BlueDogHouse), WinNeedle, 1);
      assert !IncludesFrom(Path(BlueDogHouse), WinNeedle, 0);
    case PinkDogHouse =>
      assert !IncludesFrom(Path(PinkDogHouse), WinNeedle, 5);
      assert !IncludesFrom(Path(PinkDogHouse), WinNeedle, 4);
      assert !IncludesFrom(Path(PinkDogHouse), WinNeedle, 3);
      assert !IncludesFrom(Path(PinkDogHouse), WinNeedle, 2);
      assert !IncludesFrom(Path(PinkDogHouse), WinNeedle, 1);
      assert !IncludesFrom(Path(PinkDogHouse), WinNeedle, 0);
    case RedDogHouse =>
      assert !IncludesFrom(Path(RedDogHouse), WinNeedle, 4);
      assert !IncludesFrom(Path(RedDogHouse), WinNeedle, 3);
      assert !IncludesFrom(Path(RedDogHouse), WinNeedle, 2);
      assert !IncludesFrom(Path(RedDogHouse), WinNeedle, 1);
      assert !IncludesFrom(Path(RedDogHouse), WinNeedle, 0);
    case GoldCoin =>
      assert !IncludesFrom(Path(GoldCoin), WinNeedle, 1);
      assert !IncludesFrom(Path(GoldCoin), WinNeedle, 0);
    case A => assert !Includes(Path(A), WinNeedle);
    case K => assert !Includes(Path(K), WinNeedle);
    case Q => assert !Includes(Path(Q), WinNeedle);
    case J => assert !Includes(Path(J), WinNeedle);
    case Ten => assert !Includes(Path(Ten), WinNeedle);
    case Stick => assert !Includes(Path(Stick), WinNeedle);
  }

  /** The search settles on the last entry of the catalog. */
  lemma DogHouseIndexIsLast()
    ensures DogHouseIndex() == 12 && Symbols[12] == DogHouse
  {
    forall j | 0 <= j < |Symbols|
      ensures Includes(Path(Symbols[j]), WinNeedle) <==> j == 12
    {
      OnlyDogHouseHasNeedle(Symbols[j]);
    }
    FirstIncludingIsFirst(Symbols, Path, WinNeedle);
  }

  /** What `Math.floor(Math.random() * SYMBOLS.length)` can yield, once per reel. */
  predicate ValidDraws(draws: seq<int>)
  {
    |draws| == ReelCount && forall i :: 0 <= i < |draws| ==> 0 <= draws[i] < TotalSymbols
  }

  /** `dogHouses.map((s) => -ICON_HEIGHT * (SYMBOLS.findIndex((sym) => sym === s) + 5))`. */
  function HouseTargets(houses: seq<Symbol>): (targets: seq<int>)
    ensures |targets| == |houses|
    decreases |houses|
  {
    if houses == [] then []
    else [-IconHeight * (IndexOf(Symbols, houses[0]) + 5)] + HouseTargets(houses[1..])
  }

  /** Element `i` of the mapped list comes from house `i`: the map keeps order and length. */
  lemma {:induction false} HouseTargetsPointwise(houses: seq<Symbol>)
    ensures forall i :: 0 <= i < |houses| ==>
              HouseTargets(houses)[i] == -IconHeight * (IndexOf(Symbols, houses[i]) + 5)
    decreases |houses|
  {
    if houses != [] {
      HouseTargetsPointwise(houses[1..]);
    }
  }

  /** `targetPositions` in `handleSpin`, for the spin numbered `nextSpin`. */
  function TargetPlan(nextSpin: int, draws: seq<int>): (plan: seq<int>)
    requires ValidDraws(draws)
    ensures |plan| == ReelCount
  {
    if nextSpin == 1 then
      HouseTargets(NearMissHouses)
    else if nextSpin == 2 && DogHouseIndex() != -1 then
      seq(ReelCount, _ => -IconHeight * (DogHouseIndex() + 3))
    else
      seq(ReelCount, i requires 0 <= i < ReelCount => draws[i] * -IconHeight)
  }

  /** Where `SYMBOLS.findIndex((sym) => sym === s)` finds each listed dog house. */
  lemma NearMissHousesFound()
    ensures IndexOf(Symbols, NearMissHouses[0]) == 10
    ensures IndexOf(Symbols, NearMissHouses[1]) == 8
    ensures IndexOf(Symbols, NearMissHouses[2]) == 11
    ensures IndexOf(Symbols, NearMissHouses[3]) == 9
    ensures IndexOf(Symbols, NearMissHouses[4]) == 12
  {
    FoundAtRow(PinkDogHouse, 10);
    FoundAtRow(GreenDogHouse, 8);
    FoundAtRow(RedDogHouse, 11);
    FoundAtRow(BlueDogHouse, 9);
    FoundAtRow(DogHouse, 12);
  }

  /** A symbol at row `k` is found at row `k`, since the catalog has no repeats. */
  lemma FoundAtRow(s: Symbol, k: int)
    requires 0 <= k < |Symbols| && Symbols[k] == s
    ensures IndexOf(Symbols, s) == k
  {
    IndexOfIsFirst(Symbols, s);
  }

  /**
   * The first spin: every listed dog house is found in the catalog, reel `i`
   * is sent five rows past the house listed `i`-th, and no two reels share a
   * target.
   */
  lemma NearMissPlan(draws: seq<int>)
    requires ValidDraws(draws)
    ensures forall i :: 0 <= i < ReelCount ==>
              0 <= IndexOf(Symbols, NearMissHouses[i]) < |Symbols| &&
              Symbols[IndexOf(Symbols, NearMissHouses[i])] == NearMissHouses[i] &&
              TargetPlan(1, draws)[i] == -IconHeight * (IndexOf(Symbols, NearMissHouses[i]) + 5)
    ensures TargetPlan(1, draws) == [-1800, -1560, -1920, -1680, -2040]
    ensures forall i, j :: 0 <= i < j < ReelCount ==> TargetPlan(1, draws)[i] != TargetPlan(1, draws)[j]
  {
    NearMissHousesFound();
    NearMissTargets();
    assert TargetPlan(1, draws) == HouseTargets(NearMissHouses);
  }

  /** The mapped list of the five listed dog houses, row by row. */
  lemma NearMissTargets()
    ensures HouseTargets(NearMissHouses) == [-1800, -1560, -1920, -1680, -2040]
  {
    NearMissHousesFound();
    HouseTargetsPointwise(NearMissHouses);
  }

  /** The second spin: all five reels are sent three rows past the plain dog house. */
  lemma WinPlan(draws: seq<int>)
    requires ValidDraws(draws)
    ensures forall i :: 0 <= i < ReelCount ==> TargetPlan(2, draws)[i] == -IconHeight * (12 + 3)
    ensures AllSame(TargetPlan(2, draws))
  {
    DogHouseIndexIsLast();
  }

  /** Any other spin number: each reel gets a random whole row of the catalog. */
  lemma FallbackPlan(nextSpin: int, draws: seq<int>)
    requires ValidDraws(draws) && nextSpin != 1 && nextSpin != 2
    ensures forall i :: 0 <= i < ReelCount ==>
              TargetPlan(nextSpin, draws)[i] == -IconHeight * draws[i] &&
              -CycleLength < TargetPlan(nextSpin, draws)[i] <= 0
  {
  }

  // ---------------------------------------------------------------------------
  // Where a reel is drawn
  // ---------------------------------------------------------------------------

  /** The `translateY` a frame writes after scrolling `distance` towards `target`. */
  function Position(distance: int, target: int): int
  {
    -JsRem(distance + target + CenterOffset, CycleLength)
  }

  /**
   * The `translateY` of the last frame, at `eased == 1`: the 25 cycles of
   * travel vanish, leaving the target (plus the centring row) reduced modulo
   * one catalog cycle.
   */
  function FinalOffset(target: int): (r: int)
    ensures target + CenterOffset + Travel >= 0 ==>
              r == -((target + CenterOffset) % CycleLength) && -CycleLength < r <= 0
  {
    Position(Travel, target)
  }

  /** A whole-row target lands on a row boundary. */
  lemma LandsOnRowBoundary(target: int)
    requires target + CenterOffset + Travel >= 0 && target % IconHeight == 0
    ensures FinalOffset(target) % IconHeight == 0
  {
    var m := (target + CenterOffset) % CycleLength;
    assert target + CenterOffset == ((target + CenterOffset) / CycleLength) * CycleLength + m;
    assert m % IconHeight == 0;
  }

  /** Two targets land on the same offset exactly when they agree modulo a cycle. */
  lemma SameLandingIffSameCycleResidue(t1: int, t2: int)
    requires t1 + CenterOffset + Travel >= 0 && t2 + CenterOffset + Travel >= 0
    ensures FinalOffset(t1) == FinalOffset(t2) <==> (t1 - t2) % CycleLength == 0
  {
    var q1, q2 := (t1 + CenterOffset) / CycleLength, (t2 + CenterOffset) / CycleLength;
    assert t1 + CenterOffset == q1 * CycleLength + (t1 + CenterOffset) % CycleLength;
    assert t2 + CenterOffset == q2 * CycleLength + (t2 + CenterOffset) % CycleLength;
    assert t1 - t2 == (q1 - q2) * CycleLength + ((t1 + CenterOffset) % CycleLength - (t2 + CenterOffset) % CycleLength);
  }

  /** The five first-spin targets land on five different offsets. */
  lemma NearMissOffsetsDiffer(plan: seq<int>)
    requires plan == [-1800, -1560, -1920, -1680, -2040]
    ensures forall i, j :: 0 <= i < j < |plan| ==> FinalOffset(plan[i]) != FinalOffset(plan[j])
  {
    CatalogSize();
    var landed := [-1440, -120, -1320, 0, -1200];
    assert FinalOffset(plan[0]) == landed[0];
    assert FinalOffset(plan[1]) == landed[1];
    assert FinalOffset(plan[2]) == landed[2];
    assert FinalOffset(plan[3]) == landed[3];
    assert FinalOffset(plan[4]) == landed[4];
    forall i, j | 0 <= i < j < |plan|
      ensures FinalOffset(plan[i]) != FinalOffset(plan[j])
    {
      assert FinalOffset(plan[i]) == landed[i] && FinalOffset(plan[j]) == landed[j];
    }
  }

  /** The first spin shows five different rows. */
  lemma NearMissLandsOnFiveRows(draws: seq<int>)
    requires ValidDraws(draws)
    ensures forall i, j :: 0 <= i < j < ReelCount ==>
              FinalOffset(TargetPlan(1, draws)[i]) != FinalOffset(TargetPlan(1, draws)[j])
  {
    NearMissPlan(draws);
    NearMissOffsetsDiffer(TargetPlan(1, draws));
  }

  /** The second spin shows the same row on all five reels. */
  lemma WinLandsOnOneRow(draws: seq<int>)
    requires ValidDraws(draws)
    ensures forall i :: 0 <= i < ReelCount ==> FinalOffset(TargetPlan(2, draws)[i]) == -1440
  {
    WinPlan(draws);
    assert FinalOffset(-1800) == -1440;
  }

  // ---------------------------------------------------------------------------
  // One reel: the `Spinner` component
  // ---------------------------------------------------------------------------

  class Reel {
    /** The `duration` prop. */
    const duration: int
    /** `activeRef.current`. */
    var active: bool
    /** `startTimeRef.current`; `None` is `null`. */
    var startTime: Option<int>
    /** `timerRef.current` names a requested frame that has neither run nor been cancelled. */
    var framePending: bool
    /** The `delay` and `targetPos` the current animation's frame callbacks carry. */
    var delay: int
    var target: int
    /** The `translateY` last written to the strip. */
    var offset: int

    ghost predicate Valid()
      reads this
    {
      duration > 0 && (framePending ==> active)
    }

    /** A freshly mounted reel: idle, nothing scheduled, strip untouched. */
    constructor (duration: int)
      requires duration > 0
      ensures Valid() && this.duration == duration
      ensures !active && !framePending && startTime == None && offset == 0
    {
      this.duration := duration;
      active, framePending, startTime := false, false, None;
      delay, target, offset := 0, 0, 0;
    }

    /** The start time a frame at `timestamp` uses: `!startTimeRef.current` also treats 0 as unset. */
    function StartFor(timestamp: int): int
      reads this
    {
      if startTime.None? || startTime.value == 0 then timestamp else startTime.value
    }

    /** The state `spin(delay, targetPos)` leaves behind. */
    predicate Started(d: int, t: int)
      reads this
    {
      active && framePending && startTime == None && delay == d && target == t
    }

    /** `spin`: cancel the pending frame, forget the start time, reactivate and request a fresh frame. */
    method Spin(d: int, t: int)
      requires Valid()
      modifies this
      ensures Valid() && Started(d, t) && offset == old(offset)
    {
      framePending := false;
      startTime := None;
      active := true;
      delay, target := d, t;
      framePending := true;
    }

    /** The unmount cleanup: the pending frame is cancelled; nothing else changes. */
    method Unmount()
      requires Valid()
      modifies this
      ensures Valid() && !framePending
      ensures active == old(active) && startTime == old(startTime) && offset == old(offset)
      ensures delay == old(delay) && target == old(target)
    {
      framePending := false;
    }

    /**
     * `spinAnimation`, run by the frame at `timestamp`. `drawn` is the
     * `translateY` written by this frame, `report` the value posted to
     * `onFinish`.
     */
    method Step(timestamp: int) returns (drawn: Option<int>, report: Option<int>)
      requires Valid()
      modifies this
      ensures Valid() && delay == old(delay) && target == old(target)
      ensures !old(active) ==> unchanged(this) && drawn == None && report == None
      ensures old(active) ==>
        var start := old(StartFor(timestamp));
        var elapsed := timestamp - start - delay;
        && startTime == Some(start)
        && active == (elapsed < duration)
        && framePending == (elapsed < duration)
        && (elapsed < 0 ==> drawn == None && offset == old(offset))
        && (elapsed >= 0 ==>
              drawn == Some(offset) && offset == Position(EasedDistance(Travel, elapsed, duration), target))
        && report == (if elapsed < duration then None else Some(target))
      ensures report.Some? ==> !active && !framePending && offset == FinalOffset(target)
    {
      drawn, report := None, None;
      if !active {
        return;
      }
      if startTime.None? || startTime.value == 0 {
        startTime := Some(timestamp);
      }
      var elapsed := timestamp - startTime.value - delay;
      framePending := false;
      if elapsed < 0 {
        framePending := true;
        return;
      }
      offset := Position(EasedDistance(Travel, elapsed, duration), target);
      drawn := Some(offset);
      if elapsed < duration {
        framePending := true;
      } else {
        active := false;
        report := Some(target);
      }
    }

    /**
     * The browser's frame loop: deliver the pending frame at each timestamp in
     * turn, for as long as the reel keeps requesting frames. The reel reports
     * at most once, and only after drawing its landing offset; once a frame
     * comes `duration` after the first frame plus the delay, it has reported.
     */
    method RunFrames(timestamps: seq<int>) returns (reports: seq<int>)
      requires Valid()
      modifies this
      ensures Valid() && delay == old(delay) && target == old(target)
      ensures |reports| <= 1
      ensures reports != [] ==> reports == [target] && !active && !framePending && offset == FinalOffset(target)
      ensures !old(framePending) ==> reports == [] && unchanged(this)
      ensures (old(framePending) && old(startTime) == None && |timestamps| > 0 && timestamps[0] > 0 &&
               timestamps[|timestamps| - 1] - timestamps[0] - old(delay) >= duration) ==> reports == [target]
    {
      reports := [];
      ghost var fromStart := old(framePending) && old(startTime) == None && |timestamps| > 0 && timestamps[0] > 0;
      var k := 0;
      while k < |timestamps| && framePending
        invariant 0 <= k <= |timestamps|
        invariant Valid() && delay == old(delay) && target == old(target)
        invariant reports == [] || (reports == [target] && !active && !framePending && offset == FinalOffset(target))
        invariant !old(framePending) ==> k == 0 && reports == [] && unchanged(this)
        invariant old(framePending) ==> framePending || reports == [target]
        invariant fromStart && k > 0 ==> startTime == Some(timestamps[0])
        invariant fromStart && k == 0 ==> startTime == None
        invariant fromStart && k > 0 && framePending ==> timestamps[k - 1] - timestamps[0] - delay < duration
      {
        var drawn, report := Step(timestamps[k]);
        if report.Some? {
          reports := reports + [report.value];
        }
        k := k + 1;
      }
    }
  }

  // ---------------------------------------------------------------------------
  // The component state: spin budget, collected results, decision, modal
  // ---------------------------------------------------------------------------

  /**
   * The state `MobileSlot` keeps: `spinCount`, `matches`, `winner`
   * (`None` is `null`), `showWinModal`, and the `spinCount` that the
   * `handleFinish` closure handed to the reels at the last click sees.
   */
  datatype Round = Round(spinCount: nat, matches: seq<int>, winner: Option<bool>,
                         showWinModal: bool, finishSeesCount: nat)

  function Initial(): Round
  {
    Round(0, [], None, false, 0)
  }

  /** `handleSpin`'s effect on the component state. */
  function Spin(r: Round): Round
  {
    if r.spinCount >= MaxSpins then r
    else r.(spinCount := r.spinCount + 1, matches := [], winner := None,
            finishSeesCount := r.spinCount)
  }

  /** `handleFinish(value)`: collect the value; decide, and maybe open the modal, at exactly five. */
  function Finish(r: Round, value: int): Round
  {
    var updated := r.matches + [value];
    if |updated| == ReelCount then
      r.(matches := updated, winner := Some(AllSame(updated)),
         showWinModal := r.showWinModal || r.finishSeesCount + 1 == WinningSpin)
    else
      r.(matches := updated)
  }

  /** A click on the spin button, or a reel's report reaching `handleFinish`. */
  datatype Event = Click | Report(value: int)

  function Apply(r: Round, e: Event): Round
  {
    match e
    case Click => Spin(r)
    case Report(v) => Finish(r, v)
  }

  /** The state after the events, in order. */
  function Run(r: Round, events: seq<Event>): Round
    decreases |events|
  {
    if events == [] then r else Run(Apply(r, events[0]), events[1..])
  }

  lemma {:induction false} RunConcat(r: Round, a: seq<Event>, b: seq<Event>)
    ensures Run(r, a + b) == Run(Run(r, a), b)
    decreases |a|
  {
    if a == [] {
      assert a + b == b;
    } else {
      assert (a + b)[0] == a[0] && (a + b)[1..] == a[1..] + b;
      RunConcat(Apply(r, a[0]), a[1..], b);
    }
  }

  function Reports(values: seq<int>): (evs: seq<Event>)
    ensures |evs| == |values|
  {
    seq(|values|, i requires 0 <= i < |values| => Report(values[i]))
  }

  /** The "YOU HAVE n SPINS" counter. */
  function SpinsLeft(spinCount: int): int
  {
    MaxSpins - spinCount
  }

  /** The spin button's `disabled` attribute. */
  predicate ButtonDisabled(spinCount: int)
  {
    spinCount >= MaxSpins
  }

  /** What holds of every state the component can reach. */
  predicate Consistent(r: Round)
  {
    && r.spinCount <= MaxSpins
    && (r.spinCount == 0 ==> r.finishSeesCount == 0 && !r.showWinModal)
    && (r.spinCount > 0 ==> r.finishSeesCount == r.spinCount - 1)
    && (r.winner.None? <==> |r.matches| < ReelCount)
    && (r.showWinModal ==> r.spinCount == WinningSpin)
  }

  lemma ApplyKeepsConsistent(r: Round, e: Event)
    requires Consistent(r)
    ensures Consistent(Apply(r, e))
  {
  }

  lemma {:induction false} RunKeepsConsistent(r: Round, events: seq<Event>)
    requires Consistent(r)
    ensures Consistent(Run(r, events))
    decreases |events|
  {
    if events != [] {
      ApplyKeepsConsistent(r, events[0]);
      RunKeepsConsistent(Apply(r, events[0]), events[1..]);
    }
  }

  /**
   * Whatever the clicks and reports, `spinCount` never exceeds two, the
   * counter stays within 0..2, the button is disabled exactly when no spin is
   * left, and the modal is open only after the second spin.
   */
  lemma BudgetOverAnyRun(events: seq<Event>)
    ensures var r := Run(Initial(), events);
      && 0 <= SpinsLeft(r.spinCount) <= 2
      && (ButtonDisabled(r.spinCount) <==> SpinsLeft(r.spinCount) == 0)
      && (Spin(r) == r <==> ButtonDisabled(r.spinCount))
      && (r.showWinModal ==> r.spinCount == WinningSpin)
  {
    RunKeepsConsistent(Initial(), events);
  }

  /** Reports accumulate in arrival order; the decision is taken when the fifth arrives. */
  lemma {:induction false} ReportsAccumulate(r: Round, values: seq<int>)
    requires |r.matches| + |values| <= ReelCount
    ensures var s := Run(r, Reports(values));
      && s.matches == r.matches + values
      && s.spinCount == r.spinCount && s.finishSeesCount == r.finishSeesCount
      && (|r.matches| + |values| < ReelCount ==> s.winner == r.winner && s.showWinModal == r.showWinModal)
      && (|r.matches| < ReelCount == |r.matches| + |values| ==>
            s.winner == Some(AllSame(r.matches + values)) &&
            s.showWinModal == (r.showWinModal || r.finishSeesCount + 1 == WinningSpin))
    decreases |values|
  {
    if values != [] {
      var r' := Finish(r, values[0]);
      assert Reports(values)[1..] == Reports(values[1..]);
      ReportsAccumulate(r', values[1..]);
      assert r.matches + [values[0]] + values[1..] == r.matches + values;
    }
  }

  /**
   * A report after the fifth is appended, but `updated.length === 5` no
   * longer holds: the decision and the modal stay as they were.
   */
  lemma ReportAfterFifthDecidesNothing(r: Round, value: int)
    requires |r.matches| >= ReelCount
    ensures Finish(r, value).matches == r.matches + [value]
    ensures Finish(r, value).spinCount == r.spinCount
    ensures Finish(r, value).winner == r.winner && Finish(r, value).showWinModal == r.showWinModal
  {
  }

  /**
   * Five reports in any order of an emptied round's five targets decide the
   * round on the targets themselves; the modal opens when the reports were
   * bound before the second click's re-render.
   */
  lemma DecidedOnPlan(r: Round, reports: seq<int>, plan: seq<int>)
    requires r.matches == [] && |plan| == ReelCount && multiset(reports) == multiset(plan)
    ensures var s := Run(r, Reports(reports));
      && s.spinCount == r.spinCount
      && s.winner == Some(AllSame(plan))
      && s.showWinModal == (r.showWinModal || r.finishSeesCount + 1 == WinningSpin)
  {
    assert |reports| == |multiset(reports)| == |plan|;
    AllSameOrderFree(reports, plan);
    ReportsAccumulate(r, reports);
    assert r.matches + reports == reports;
  }

  /** Five reports that are the first spin's targets in some order leave it lost, with the modal closed. */
  lemma NearMissReportsLose(reports: seq<int>)
    requires multiset(reports) == multiset([-1800, -1560, -1920, -1680, -2040])
    ensures var s := Run(Spin(Initial()), Reports(reports));
      s.spinCount == 1 && s.winner == Some(false) && !s.showWinModal
  {
    var plan := [-1800, -1560, -1920, -1680, -2040];
    assert plan[1] != plan[0];
    DecidedOnPlan(Spin(Initial()), reports, plan);
  }

  /**
   * The first spin of the session, whatever order its five reels report in:
   * it is decided as a loss and leaves the modal closed.
   */
  lemma FirstSpinLoses(draws: seq<int>, reports: seq<int>)
    requires ValidDraws(draws) && multiset(reports) == multiset(TargetPlan(1, draws))
    ensures var s := Run(Spin(Initial()), Reports(reports));
      s.spinCount == 1 && s.winner == Some(false) && !s.showWinModal
  {
    NearMissPlan(draws);
    NearMissReportsLose(reports);
  }

  /**
   * The second spin, from any state the first click can lead to: it is
   * decided as a win, the modal opens, and a further click changes nothing.
   */
  lemma SecondSpinWins(r: Round, draws: seq<int>, reports: seq<int>)
    requires Consistent(r) && r.spinCount == 1
    requires ValidDraws(draws) && multiset(reports) == multiset(TargetPlan(2, draws))
    ensures var s := Run(Spin(r), Reports(reports));
      s.spinCount == 2 && s.winner == Some(true) && s.showWinModal && Spin(s) == s
  {
    WinPlan(draws);
    DecidedOnPlan(Spin(r), reports, TargetPlan(2, draws));
  }

  /**
   * Nothing stops a click while the reels are still turning: a second click
   * right after the first is accepted, and the first spin is never decided.
   */
  lemma SecondClickMidSpinIsAccepted()
    ensures Run(Initial(), [Click, Click]).spinCount == 2
    ensures Run(Initial(), [Click, Click]).winner == None
  {
  }

  /**
   * Reports carry no spin number: a first-spin report `late` that arrives
   * after the second click is counted with four second-spin reports, the
   * second spin is decided on that mixture, and the modal opens whatever the
   * decision.
   */
  lemma LateReportIsCounted(late: int, second: seq<int>)
    requires |second| == ReelCount - 1
    ensures var s := Run(Initial(), [Click, Click, Report(late)] + Reports(second));
      && s.spinCount == 2
      && s.matches == [late] + second
      && s.winner == Some(AllSame([late] + second))
      && s.showWinModal
  {
    var values := [late] + second;
    var s2 := Run(Initial(), [Click, Click]);
    assert s2 == Round(2, [], None, false, 1) by {
      assert [Click, Click][1..] == [Click];
      assert Run(Initial(), [Click, Click]) == Run(Spin(Initial()), [Click]);
      assert Run(Spin(Initial()), [Click]) == Run(Spin(Spin(Initial())), []);
    }
    assert Reports(values) == [Report(late)] + Reports(second);
    assert [Click, Click, Report(late)] + Reports(second) == [Click, Click] + Reports(values);
    RunConcat(Initial(), [Click, Click], Reports(values));
    ReportsAccumulate(s2, values);
  }

  /** For instance, one stray `-1560` among four `-1800`s turns the winning spin into a loss. */
  lemma LateReportSpoilsWin()
    ensures Run(Initial(), [Click, Click, Report(-1560)] + Reports([-1800, -1800, -1800, -1800])).winner == Some(false)
  {
    LateReportIsCounted(-1560, [-1800, -1800, -1800, -1800]);
    var values := [-1560] + [-1800, -1800, -1800, -1800];
    assert values[1] != values[0];
  }

  // ---------------------------------------------------------------------------
  // Audio cues
  // ---------------------------------------------------------------------------

  /** What the component does to the shared audio element. */
  datatype AudioCue =
    | Keep                    // leave it alone
    | PauseAndRewind          // pause(); currentTime = 0
    | Restart(play: bool)     // currentTime = 0; volume = 0.6; play() when `play`

  /** The cue at the start of an accepted spin. */
  function SpinCue(muted: bool): AudioCue
  {
    Restart(!muted)
  }

  /** The mute effect, run when `muted` changes. */
  function MuteCue(muted: bool, r: Round): AudioCue
  {
    if muted then PauseAndRewind
    else if r.winner == None && r.spinCount > 0 && r.spinCount < 2 then Restart(true)
    else Keep
  }

  /**
   * Muting always silences at once; unmuting resumes the sound only while the
   * first spin is still waiting for its decision.
   */
  lemma ResumeOnlyDuringFirstSpin(r: Round)
    requires Consistent(r)
    ensures MuteCue(true, r) == PauseAndRewind
    ensures MuteCue(false, r) == Restart(true) <==> r.spinCount == 1 && |r.matches| < ReelCount
    ensures MuteCue(false, r) != Restart(true) ==> MuteCue(false, r) == Keep
  {
  }

  // ---------------------------------------------------------------------------
  // The component: five reels and the handlers
  // ---------------------------------------------------------------------------

  class Session {
    var spinCount: nat
    var matches: seq<int>
    var winner: Option<bool>
    var showWinModal: bool
    var finishSeesCount: nat
    /** The five `Spinner`s, in `spinnerRefs` order. */
    const reels: seq<Reel>

    function State(): Round
      reads this
    {
      Round(spinCount, matches, winner, showWinModal, finishSeesCount)
    }

    /** Five distinct reels, reel `i` mounted with `ReelDuration(i)`. */
    ghost predicate ReelsValid()
      reads this, reels
    {
      && |reels| == ReelCount
      && (forall i, j :: 0 <= i < j < |reels| ==> reels[i] != reels[j])
      && (forall i :: 0 <= i < |reels| ==> reels[i].Valid() && reels[i].duration == ReelDuration(i))
    }

    ghost predicate Valid()
      reads this, reels
    {
      ReelsValid() && Consistent(State())
    }

    /** The mounted component: no spin yet, five idle reels. */
    constructor ()
      ensures Valid() && State() == Initial()
      ensures forall i :: 0 <= i < ReelCount ==> fresh(reels[i]) && !reels[i].active && !reels[i].framePending
    {
      var r0 := new Reel(ReelDuration(0));
      var r1 := new Reel(ReelDuration(1));
      var r2 := new Reel(ReelDuration(2));
      var r3 := new Reel(ReelDuration(3));
      var r4 := new Reel(ReelDuration(4));
      reels := [r0, r1, r2, r3, r4];
      spinCount, matches, winner, showWinModal, finishSeesCount := 0, [], None, false, 0;
    }

    /**
     * `handleSpin`: refused once two spins have been used; otherwise clears the
     * decision and the results, counts the spin, cues the audio and starts
     * reel `i` after `i * 400` ms towards the plan's `i`-th target.
     */
    method HandleSpin(muted: bool, draws: seq<int>) returns (cue: Option<AudioCue>)
      requires Valid() && ValidDraws(draws)
      modifies this, reels
      ensures Valid() && State() == Spin(old(State()))
      ensures old(spinCount) >= MaxSpins ==>
                cue == None && forall i :: 0 <= i < ReelCount ==> unchanged(reels[i])
      ensures old(spinCount) < MaxSpins ==>
                && cue == Some(SpinCue(muted))
                && forall i :: 0 <= i < ReelCount ==>
                     reels[i].Started(i * StaggerMs, TargetPlan(spinCount, draws)[i]) &&
                     reels[i].offset == old(reels[i].offset)
    {
      if spinCount >= MaxSpins {
        return None;
      }
      winner := None;
      matches := [];
      var nextSpin := spinCount + 1;
      finishSeesCount := spinCount;
      spinCount := nextSpin;
      cue := Some(SpinCue(muted));
      var plan := TargetPlan(nextSpin, draws);
      SpinReels(plan);
      ApplyKeepsConsistent(old(State()), Click);
    }

    /** `spinnerRefs.forEach((ref, i) => ref.current?.spin(i * 400, plan[i]))`. */
    method SpinReels(plan: seq<int>)
      requires ReelsValid() && |plan| == ReelCount
      modifies reels
      ensures ReelsValid()
      ensures forall i :: 0 <= i < ReelCount ==>
                reels[i].Started(i * StaggerMs, plan[i]) && reels[i].offset == old(reels[i].offset)
    {
      var i := 0;
      while i < |reels|
        invariant 0 <= i <= |reels|
        invariant forall j :: 0 <= j < i ==>
                    reels[j].Valid() && reels[j].Started(j * StaggerMs, plan[j]) &&
                    reels[j].offset == old(reels[j].offset)
        invariant forall j :: i <= j < |reels| ==> unchanged(reels[j])
      {
        var reel := reels[i];
        reel.Spin(i * StaggerMs, plan[i]);
        assert forall j :: 0 <= j < i ==> reels[j] != reel;
        i := i + 1;
      }
    }

    /** `handleFinish(value)`; `decided` is the `winner` set by this report, if any. */
    method HandleFinish(value: int) returns (decided: Option<bool>)
      requires Valid()
      modifies this
      ensures Valid() && State() == Finish(old(State()), value)
      ensures decided == if |old(matches)| + 1 == ReelCount then winner else None
    {
      var updated := matches + [value];
      matches := updated;
      decided := None;
      if |updated| == ReelCount {
        winner := Some(AllSame(updated));
        decided := winner;
        if finishSeesCount + 1 == WinningSpin {
          showWinModal := true;
        }
      }
      ApplyKeepsConsistent(old(State()), Report(value));
    }

    /** The mute effect: the cue it gives the audio element in the current state. */
    method MuteChanged(muted: bool) returns (cue: AudioCue)
      requires Valid()
      ensures cue == MuteCue(muted, State())
      ensures muted ==> cue == PauseAndRewind
      ensures cue == Restart(true) ==> spinCount == 1 && winner == None
    {
      cue := MuteCue(muted, State());
    }
  }
}
