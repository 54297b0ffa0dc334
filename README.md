# Slot machine engine, modelled in Dafny

The repository's slot machine exists twice, as the mobile component
`MobileSlot` (src/Components/MobileSlot.tsx) and the desktop component `Slot`
(src/Components/Slot.tsx). Both copies have four parts:
- a spin budget of two clicks;
- a per-spin target plan that says where each of the five reels stops;
- a `Spinner` reel that animates itself frame by frame through `requestAnimationFrame`;
- a `handleFinish` aggregator that decides win or loss once five reels have reported.

The Dafny project has three modules:

- `SlotCommon` (slot_common.dfy) holds what both components use:
  - JavaScript's `%`, whose remainder takes the sign of the dividend;
  - `String.prototype.includes` as a left-to-right scan, proved equal to "some slice matches";
  - `findIndex`, proved to return -1 exactly when nothing matches and otherwise the first match;
  - the `every(v => v === updated[0])` test, proved independent of arrival order;
  - the ease-out quartic distance, proved to stay in `[0, travel]` and to be exact at both endpoints.
- `MobileSlot` (mobile_slot.dfy) covers the 13-symbol catalog, `ICON_HEIGHT` 120 and `Spinner` as a `Reel` class. The component is a `Session` class holding five reels, specified by the pure `Round` state and its `Spin` and `Finish` transitions:
  - the first spin is a scripted near-miss on five distinct dog houses;
  - the second spin is a scripted win;
  - the win modal is gated on the second spin;
  - a small rule decides when unmuting resumes the audio.
- `Slot` (slot.dfy) covers the 9-symbol catalog and `ICON_HEIGHT` 125, with the same class structure:
  - the first spin draws five random rows;
  - the second spin is the scripted win;
  - there is no modal;
  - the strip is centred with 187.5 px, so positions are counted in half-pixels.

`Math.random()` is modelled as a draw `draws[i]` in `0 .. SYMBOLS.length - 1`, passed in by the caller. Frame timestamps are passed in as a sequence to `Reel.RunFrames`. The audio element is modelled as the cue the component gives it (`AudioCue`).

### Behaviour worth knowing (modelled as written)

- **Any click within the budget starts a spin.** `handleSpin` checks only `spinCount >= 2`, so a second click while the reels still turn is accepted and restarts every reel. `SecondClickMidSpinIsAccepted` shows this in both modules.
- **Reports carry no spin number.** `matches` is emptied at each click, and every report that reaches `handleFinish` afterwards is appended to it.
  - A click cancels each reel's pending frame (MobileSlot.tsx:110), so a late report can only come from a reel whose `setTimeout(() => onFinish(targetPos), 0)` was already queued when the click arrived. The window is narrow.
  - Within that window, a first-spin report is decided together with four second-spin reports. `MobileSlot.LateReportIsCounted` and `MobileSlot.LateReportSpoilsWin` show the second spin decided, and lost, on such a mixture.
  - The second spin's last report then arrives as a sixth, and it changes nothing (`ReportAfterFifthDecidesNothing`).
- **The mobile win modal is gated on the spin, not on the outcome.** The gate is `spinCount + 1 === 2` alone. `MobileSlot.LateReportIsCounted` shows it opening after a lost second spin.
- **`spinCount` as `handleFinish` sees it.** The reels hold the `handleFinish` closure of the render in which the click happened. That closure therefore reads the `spinCount` from before the click. `Round.finishSeesCount` records that value, so `spinCount + 1 === 2` holds exactly when the decision belongs to the second spin. Strictly, the gate reads the closure of whichever report arrives fifth. One value per round is enough because a stale first-spin report can only come from a `setTimeout(…, 0)` already queued at the click, so it fires before any second-spin report, which comes at least 4200 ms later. A stale report therefore never arrives fifth.
- **Desktop spin 1 is random.** It wins exactly when the five random rows coincide (`Slot.FirstSpinWinsIffDrawsAgree`).

### How the spin-level lemmas connect to the reels

`FirstSpinLoses`, `SecondSpinWins` and `FirstSpinWinsIffDrawsAgree` assume that the five reports are the plan's targets in some order. This premise comes from two method contracts, combined by the reader rather than by a lemma:
- `Session.HandleSpin` starts reel `i` with target `plan[i]`.
- `Reel.RunFrames` reports only its own `target`, at most once.

## Model

| member | source | states |
|---|---|---|
| SlotCommon.JsRem | src/Components/MobileSlot.tsx:87-90 | JavaScript `%` by a positive cycle: a non-negative dividend gives a result in `[0, b)`, a negative one a result in `(-b, 0]` |
| SlotCommon.JsRemIsRemainder | src/Components/MobileSlot.tsx:87-90 | the dividend is the quotient truncated towards zero times the divisor plus `JsRem`; with the ranges this fully determines JavaScript's `%` |
| SlotCommon.IncludesIsSubstring | src/Components/MobileSlot.tsx:259 | `s.includes(t)` as a scan holds exactly when `t` equals some slice of `s` |
| SlotCommon.FirstIncludingIsFirst | src/Components/MobileSlot.tsx:259 | `findIndex(s => s.includes(needle))` is -1 exactly when no entry contains the needle, otherwise the first entry that does |
| SlotCommon.IndexOfIsFirst | src/Components/MobileSlot.tsx:271 | `findIndex(sym => sym === s)` is -1 exactly when `s` is absent, otherwise the position of its first occurrence |
| SlotCommon.AllSameIffOneValue | src/Components/MobileSlot.tsx:230 | `every(v => v === updated[0])` holds exactly when at most one value occurs |
| SlotCommon.AllSameOrderFree | src/Components/MobileSlot.tsx:226-236 | the all-equal decision is the same for any arrival order of the same five reports |
| SlotCommon.EasedDistance | src/Components/MobileSlot.tsx:83-85 | the scrolled distance lies in `[0, travel]`, is 0 before the delay ends and is the full 25-cycle travel once `progress` is clamped to 1 |
| MobileSlot.CatalogSize | src/Components/MobileSlot.tsx:17-34 | `TOTAL_SYMBOLS` is 13, one cycle is 1560 px and the full travel is 39000 px |
| MobileSlot.PathInjective | src/Components/MobileSlot.tsx:17-31 | the catalog's paths are pairwise different, so `===` on paths is equality of symbols |
| MobileSlot.OnlyDogHouseHasNeedle | src/Components/MobileSlot.tsx:17-31 | among the catalog's paths only `/dogHouse.png` contains the case-sensitive `dogHouse.png` |
| MobileSlot.DogHouseHasNeedle | src/Components/MobileSlot.tsx:30 | `/dogHouse.png` contains `dogHouse.png` |
| MobileSlot.OthersLackNeedle | src/Components/MobileSlot.tsx:18-29 | no other path, the coloured `DogHouse` variants included, contains `dogHouse.png` |
| MobileSlot.DogHouseIndexIsLast | src/Components/MobileSlot.tsx:259 | `dogHouseIndex` is 12, the plain dog house |
| MobileSlot.HouseTargetsPointwise | src/Components/MobileSlot.tsx:270-273 | the mapped list keeps length and order: target `i` is `-120 * (findIndex(house i) + 5)` |
| MobileSlot.TargetPlan | src/Components/MobileSlot.tsx:268-279 | every spin's plan has one target per reel |
| MobileSlot.NearMissHousesFound | src/Components/MobileSlot.tsx:260-271 | the five listed dog houses are found at rows 10, 8, 11, 9 and 12 |
| MobileSlot.FoundAtRow | src/Components/MobileSlot.tsx:271 | a catalog symbol is found at its own row, since the catalog has no repeats |
| MobileSlot.NearMissTargets | src/Components/MobileSlot.tsx:260-273 | the first spin's mapped list is `[-1800, -1560, -1920, -1680, -2040]` |
| MobileSlot.NearMissPlan | src/Components/MobileSlot.tsx:259-273 | spin 1: every house is found (no -1), reel `i` gets `-120 * (idx + 5)` for house `i`, and the five targets are pairwise distinct |
| MobileSlot.WinPlan | src/Components/MobileSlot.tsx:274-275 | spin 2: all five targets are `-120 * (12 + 3)`, so they are all equal |
| MobileSlot.FallbackPlan | src/Components/MobileSlot.tsx:276-279 | any other spin number: target `i` is `-120 * draws[i]`, a whole row within one cycle |
| MobileSlot.FinalOffset | src/Components/MobileSlot.tsx:83-90 | at `eased == 1` the 25 cycles vanish and the offset is `-((target + 120) % 1560)`, within one cycle |
| MobileSlot.LandsOnRowBoundary | src/Components/MobileSlot.tsx:85-90 | a whole-row target lands on a row boundary |
| MobileSlot.SameLandingIffSameCycleResidue | src/Components/MobileSlot.tsx:85-90 | two targets land on the same offset exactly when they differ by a multiple of a cycle |
| MobileSlot.NearMissOffsetsDiffer | src/Components/MobileSlot.tsx:85-90 | the five first-spin targets land on five different offsets |
| MobileSlot.NearMissLandsOnFiveRows | src/Components/MobileSlot.tsx:268-273 | whatever the draws, the first spin shows five different rows |
| MobileSlot.WinLandsOnOneRow | src/Components/MobileSlot.tsx:274-275 | the second spin lands every reel at offset -1440 |
| MobileSlot.Reel.constructor | src/Components/MobileSlot.tsx:56-61 | a mounted reel is inactive, has no start time and no pending frame |
| MobileSlot.Reel.Spin | src/Components/MobileSlot.tsx:108-118 | `spin` cancels the pending frame, clears the start time, sets the reel active and schedules a fresh frame carrying the new delay and target; the strip is not moved |
| MobileSlot.Reel.Unmount | src/Components/MobileSlot.tsx:122-126 | the unmount cleanup cancels the pending frame and changes nothing else |
| MobileSlot.Reel.Step | src/Components/MobileSlot.tsx:65-106 | an inactive reel does nothing; a falsy start time is set to the timestamp; during the delay only a new frame is requested; otherwise the eased offset is drawn and the reel reschedules while `elapsed < duration`, else deactivates and reports its target once, drawn at `FinalOffset(target)` |
| MobileSlot.Reel.RunFrames | src/Components/MobileSlot.tsx:72-103 | over any frame sequence a reel reports at most once, only its target, after landing at `FinalOffset`; a started reel reports once a frame comes `delay + duration` after its first frame |
| MobileSlot.ApplyKeepsConsistent | src/Components/MobileSlot.tsx:226-247 | a click or a report keeps the reachable-state invariant (budget ≤ 2, decided iff five reports, modal only on spin 2) |
| MobileSlot.RunKeepsConsistent | src/Components/MobileSlot.tsx:226-247 | any sequence of clicks and reports keeps the invariant |
| MobileSlot.BudgetOverAnyRun | src/Components/MobileSlot.tsx:240-247 | `spinCount` never exceeds 2; `2 - spinCount` stays in 0..2; a click is a no-op exactly when the button is disabled; the modal is open only after spin 2 |
| MobileSlot.ReportsAccumulate | src/Components/MobileSlot.tsx:226-237 | up to the fifth report, reports are appended in arrival order; `winner` and the modal change only when the fifth arrives, to `AllSame` of the five and the closure's `spinCount + 1 === 2` |
| MobileSlot.ReportAfterFifthDecidesNothing | src/Components/MobileSlot.tsx:226-237 | a report after the fifth is appended but leaves `winner`, the modal and `spinCount` unchanged |
| MobileSlot.DecidedOnPlan | src/Components/MobileSlot.tsx:226-236 | five reports that are the plan's targets in any order decide the spin as `AllSame(plan)` |
| MobileSlot.NearMissReportsLose | src/Components/MobileSlot.tsx:226-236 | the near-miss targets, in any order, are decided as a loss with the modal closed |
| MobileSlot.FirstSpinLoses | src/Components/MobileSlot.tsx:226-236 | the first spin always loses and never opens the modal |
| MobileSlot.SecondSpinWins | src/Components/MobileSlot.tsx:226-236 | the second spin always wins, opens the modal, and leaves the budget exhausted |
| MobileSlot.SecondClickMidSpinIsAccepted | src/Components/MobileSlot.tsx:240-247 | a second click before any report is accepted: two spins are used and the first is never decided |
| MobileSlot.LateReportIsCounted | src/Components/MobileSlot.tsx:226-247 | a late first-spin report after the second click is decided together with four second-spin reports, and the modal opens whatever the decision |
| MobileSlot.LateReportSpoilsWin | src/Components/MobileSlot.tsx:226-236 | one stray `-1560` among four `-1800`s makes the second spin a loss |
| MobileSlot.ResumeOnlyDuringFirstSpin | src/Components/MobileSlot.tsx:186-203 | muting always pauses and rewinds; unmuting resumes exactly while spin 1 is undecided, and otherwise leaves the audio alone |
| MobileSlot.Session.constructor | src/Components/MobileSlot.tsx:169-174 | the mounted component has no spins, no matches, no winner, a closed modal, and five idle reels with durations `4200 + i * 300` |
| MobileSlot.Session.HandleSpin | src/Components/MobileSlot.tsx:240-283 | refused at `spinCount >= 2` with no reel touched; otherwise the state becomes `Spin(old state)`, the audio is restarted (played unless muted), and reel `i` is started with delay `i * 400` towards plan target `i` |
| MobileSlot.Session.SpinReels | src/Components/MobileSlot.tsx:281-283 | every reel `i` is started with delay `i * 400` and target `plan[i]` |
| MobileSlot.Session.HandleFinish | src/Components/MobileSlot.tsx:226-238 | the state becomes `Finish(old state, value)`; a decision is returned only at the fifth report |
| MobileSlot.Session.MuteChanged | src/Components/MobileSlot.tsx:186-203 | the mute effect's cue: pause on mute, resume only when no winner and `0 < spinCount < 2` |
| Slot.TotalSymbolsIsCatalogLength | src/Components/Slot.tsx:11-31 | the literal `TOTAL_SYMBOLS` 9 equals `SYMBOLS.length`; a cycle is 1125 px; the centring offset is 187.5 px; the travel is 25 cycles |
| Slot.PathInjective | src/Components/Slot.tsx:21-31 | the nine paths are pairwise different, so each symbol is identified by its path |
| Slot.OnlyDogHouseHasNeedle | src/Components/Slot.tsx:21-31 | only `/dogHouse.png` contains `dogHouse.png` |
| Slot.DogHouseIndexIsLast | src/Components/Slot.tsx:232 | `dogHouseIndex` is 8 |
| Slot.TargetPlan | src/Components/Slot.tsx:233-239 | every spin's plan has one target per reel |
| Slot.WinPlan | src/Components/Slot.tsx:232-235 | spin 2: all five targets are `-125 * (8 + 2)` |
| Slot.RandomPlan | src/Components/Slot.tsx:236-239 | any spin but the second: target `i` is `-125 * k` with `0 <= k < 9` |
| Slot.RandomPlanAllSameIffDrawsAgree | src/Components/Slot.tsx:236-239 | random targets are all equal exactly when the five draws are |
| Slot.FinalPosition | src/Components/Slot.tsx:70-79 | the landing position is less than one cycle from 0 in either direction |
| Slot.FinalPositionIsShiftedTarget | src/Components/Slot.tsx:70-79 | at `eased == 1`, `distance % 1125` is 0 and the position is `(target + 187.5) % 1125` with JavaScript's sign rule |
| Slot.FinalPositionInFrame | src/Components/Slot.tsx:73-79 | a target within a cycle of the frame is drawn at exactly `target + 187.5` |
| Slot.PlanLandsInFrame | src/Components/Slot.tsx:70-79 | every planned target lands at `target + 187.5`, with magnitude below 1125 px; two reels land alike exactly when their targets are equal |
| Slot.WinLandsOnOneRow | src/Components/Slot.tsx:233-235 | the second spin lands every reel at -1062.5 px |
| Slot.Reel.constructor | src/Components/Slot.tsx:43-48 | a mounted reel is inactive, has no start time or pending frame, and `position` is 0 |
| Slot.Reel.Spin | src/Components/Slot.tsx:95-105 | `spin` cancels the pending frame, clears the start time, reactivates and schedules a fresh frame with the new delay and target; `position` is kept |
| Slot.Reel.Unmount | src/Components/Slot.tsx:109-113 | the unmount cleanup cancels the pending frame and changes nothing else |
| Slot.Reel.Step | src/Components/Slot.tsx:52-93 | inactive: nothing; during the delay: only a new frame, position unchanged; then the eased position is stored and the reel reschedules while `elapsed < duration`, else deactivates and reports its target once, at `FinalPosition(target)` |
| Slot.Reel.RunFrames | src/Components/Slot.tsx:59-90 | over any frame sequence a reel reports at most once, only its target, after landing at `FinalPosition`; a started reel reports once a frame comes `delay + duration` after its first frame |
| Slot.ApplyKeepsConsistent | src/Components/Slot.tsx:205-228 | a click or a report keeps budget ≤ 2 and "decided iff five reports" |
| Slot.RunKeepsConsistent | src/Components/Slot.tsx:205-228 | any sequence of clicks and reports keeps the invariant |
| Slot.BudgetOverAnyRun | src/Components/Slot.tsx:221-228 | `spinCount` never exceeds 2; the counter stays in 0..2; the button is disabled exactly when no spin is left, and then a click is a no-op |
| Slot.ReportsAccumulate | src/Components/Slot.tsx:205-219 | up to the fifth report, reports are appended in arrival order; `winner` changes only when the fifth arrives, to `AllSame` of the five |
| Slot.ReportAfterFifthDecidesNothing | src/Components/Slot.tsx:205-219 | a report after the fifth is appended but leaves `winner` and `spinCount` unchanged |
| Slot.DecidedOnPlan | src/Components/Slot.tsx:205-211 | five reports that are the plan's targets in any order decide the spin as `AllSame(plan)` |
| Slot.FirstSpinWinsIffDrawsAgree | src/Components/Slot.tsx:205-211 | the first spin is won exactly when the five random rows coincide |
| Slot.SecondSpinWins | src/Components/Slot.tsx:205-211 | the second spin always wins and leaves the budget exhausted |
| Slot.SecondClickMidSpinIsAccepted | src/Components/Slot.tsx:221-228 | a second click before any report is accepted and the first spin is never decided |
| Slot.Session.constructor | src/Components/Slot.tsx:292-300 | the mounted component has no spins, matches or winner, and five idle reels at position 0 with durations `4800 + i * 400` |
| Slot.Session.HandleSpin | src/Components/Slot.tsx:221-244 | refused at `spinCount >= 2` with no reel touched; otherwise the state becomes `Spin(old state)` and reel `i` starts with delay `i * 400` towards plan target `i` |
| Slot.Session.SpinReels | src/Components/Slot.tsx:241-243 | every reel `i` is started with delay `i * 400` and target `plan[i]` |
| Slot.Session.HandleFinish | src/Components/Slot.tsx:205-219 | the state becomes `Finish(old state, value)`; a decision is returned only at the fifth report |

## Left out

- The easing curve's intermediate values are floating point. The model floors `travel * (1 - (1 - p)^4)` to whole units (half-pixels on desktop), which is exact only at `progress` 0 and 1. Frame timestamps are whole milliseconds.
- The audio fade (MobileSlot.tsx:285-302) and the `play`/`pause` calls are left out, because they are timers and browser calls. Only the cue each handler gives is modelled. The desktop component has no audio logic beyond rendering `WinningSound`.
- The modal's 600 ms `setTimeout` is collapsed: the report that decides the spin sets `showWinModal` directly. The gate is evaluated with the same closure value.
- `setTimeout(() => onFinish(targetPos), 0)` delivery, React's state batching and re-rendering are left out. Each handler runs atomically, and a report reaches `handleFinish` as a separate event in any order.
- The loser message (Slot.tsx:14-20, 211-215, and the cleared message in both `handleSpin`s) is left out. It is a random display string with no effect on state that is modelled.
- A `spinnerRefs` entry whose `current` is null is left out: all five reels are assumed mounted.
- The `timerRef` frame id is modelled as a flag saying whether a frame is pending. Frame ids and the browser's frame queue are not modelled.
- Symbols are a datatype whose constructors map to the catalog's path strings, and the paths are proved distinct. The image files themselves are not part of this model.
- JSX layout, styles, `ResizeObserver`, the initial symbols shown before the first spin, src/Components/WinningModal.tsx, src/App.tsx, src/MobileLayout.tsx and src/assets/Speaker.tsx are presentation and are not part of this model.
