# The big gamble — a Dafny model of the game core

"The big gamble" is a prank web page. The player starts a game and must click
through 10 to 15 warnings drawn at random from a pool of 15. They then spin a
wheel weighted 1% win, 10% "reinstall" and 89% "shutdown". A fake full-screen
simulation plays, and finally the page reveals that nothing happened.

This project models the sequential core of that page and proves properties of it:

- **`Draws`** (`draws.dfy`): every `Math.random()` becomes an argument `u` with
  `0 <= u < 1`. `Math.floor(u * k)` then lies in `[0, k)`.
- **`Shuffle`** (`shuffle.dfy`): `shuffleArray`, the Durstenfeld form of the
  Fisher–Yates shuffle (Knuth, *The Art of Computer Programming*, vol. 2,
  section 3.4.2, Algorithm P).
  - The specification function `FisherYates` is the part of the descending loop
    that is still to run.
  - The array method `ShuffleArray` is proved against it.
  - Lemmas prove that the shuffle is a permutation, that it keeps values
    distinct, and what its prefixes are.
- **`Spin`** (`wheel.dfy`): the arithmetic of `spinWheel`.
  - The threshold map from `Math.random() * 100` to an outcome, and the same map
    read as the table of section percentages.
  - The target section and angle, and the final rotation.
  - The angle left under the pointer, read against the 120-degree layout the
    arithmetic assumes, and against the layout the clip paths actually paint
    (see Findings).
  - The tick-sound loop.
  - The wheel's `rotation` state, held in the class `Dial`.
- **`GameSession`** (`index.dfy`): the `Index` page. It is modelled in two layers.
  - A pure layer: a `State` value, one transition function per handler, the
    events the views can deliver, an invariant kept by every enabled event, and
    facts about reachable states.
  - The class `Game`: one method per handler. Each method changes the fields as
    the handler does and ensures the new state is the transition function applied
    to the old one.
  - The wheel's `isSpinning` latch and its delayed result announcement belong to
    the session. `SpinWheel` and `Announce` model them.
- **`WarningDialog`** (`warning_dialog.dfy`): the dialog's icon index, its counter,
  the caption of its confirm button and the width of its progress bar. The caption
  rule is proved to agree with the session's confirm guard.
- **`Reinstall`** (`reinstall.dfy`): the updaters of `progress` and `currentStep`,
  and the class `Installer`, whose methods are the two intervals and two timeouts
  of the reinstall simulation.

Where this model and a prose description of the app could differ, the model
follows the code:

- Cancel, reaching the wheel and restart all leave `shuffledWarnings` as it was.
  Only the next start replaces it. So restart does not return to the exact
  initial state.
- `handleSimulationComplete` sets `reveal` whatever the phase. It only takes
  effect correctly because the simulations that call it are mounted only in
  `shutdown` and `reinstall`. That is modelled as the event being enabled only
  there.
- `handleResult("win")` leaves `resultType` as it was.
- The `spinning` phase is declared but never assigned.

## Model

| member | source | states |
|---|---|---|
| Draws.ScaledFloor | src/pages/Index.tsx:34 | `Math.floor(u * k)` for `u` in [0, 1) and `k > 0` is an index in [0, k) |
| Draws.ScaledBelow | src/pages/Index.tsx:34 | `u * k` lies in [0, k) for `u` in [0, 1) |
| Shuffle.SwapIndex | src/pages/Index.tsx:34 | the partner index `j` of step `i` lies in [0, i] |
| Shuffle.Swap | src/pages/Index.tsx:35 | the destructuring swap exchanges entries i and j and leaves every other entry and the length unchanged |
| Shuffle.SwapPermutes | src/pages/Index.tsx:35 | a swap keeps the multiset of values |
| Shuffle.FisherYates | src/pages/Index.tsx:33-36 | the remaining loop steps keep the length |
| Shuffle.FisherYatesPermutes | src/pages/Index.tsx:31-38 | the shuffle is a permutation: same multiset of values as the input |
| Shuffle.SwapKeepsDistinct | src/pages/Index.tsx:35 | a swap never creates a duplicate |
| Shuffle.FisherYatesKeepsDistinct | src/pages/Index.tsx:31-38 | shuffling a duplicate-free sequence gives a duplicate-free sequence |
| Shuffle.ShuffledSameValues | src/pages/Index.tsx:31-38 | a value is in the shuffle if and only if it is in the input |
| Shuffle.ShuffledPrefix | src/pages/Index.tsx:51 | the first n entries of a shuffle of distinct values are n distinct values of the input |
| Shuffle.ShuffleArray | src/pages/Index.tsx:31-38 | returns a new array, the copy, which after the descending swap loop holds the Fisher–Yates shuffle of the input: same length and same multiset; the input itself is a value and stays unchanged |
| GameSession.WarningMessagesIsPool | src/pages/Index.tsx:12-28 | the message pool has 15 entries, no two alike |
| GameSession.WarningCount | src/pages/Index.tsx:50 | the number of warnings drawn lies in [10, 15] |
| GameSession.ChooseWarnings | src/pages/Index.tsx:50-51 | the warnings chosen are the first `randomCount` entries of the shuffled pool |
| GameSession.DrawWarningsIsWarningSet | src/pages/Index.tsx:50-52 | the chosen warnings number exactly the drawn count (10 to 15), are distinct and all come from the pool |
| GameSession.StepKeepsInv | src/pages/Index.tsx:49-88 | every handler, fired from a view that can fire it, keeps the session invariant: `spinning` never occurs; in `warnings` the set is non-empty and the index is in bounds; the latch is set exactly while an announcement is pending, and only on the wheel; `resultType` is unset in menu, warnings, wheel and win, and matches the simulation in shutdown and reinstall; it is set in reveal |
| GameSession.RunKeepsInv | src/pages/Index.tsx:42-88 | every sequence of enabled events keeps the invariant |
| GameSession.ReachableFacts | src/pages/Index.tsx:40-88 | from the initial state: `spinning` is unreachable; the warning lookup `shuffledWarnings[warningIndex]` is in bounds; the final reveal always has a `resultType` to render; a spin is under way only on the wheel |
| GameSession.ConfirmsReachWheel | src/pages/Index.tsx:57-63 | from warning i of n, each confirm before the last moves to the next warning and stays in `warnings`; the (n - i)-th confirm moves to `wheel`, keeping the index; so n confirms are needed from the first warning |
| GameSession.LeavingWheel | src/pages/Index.tsx:220-223 | the only ways out of `wheel` are the announced spin result and the back button, which is offered only while not spinning |
| GameSession.RestartKeepsWarnings | src/pages/Index.tsx:83-88 | restart restores every initial value except `shuffledWarnings`, which it keeps |
| GameSession.Game.constructor | src/pages/Index.tsx:42-47 | the initial values: menu, index 0, no warnings, not spinning, no result type |
| GameSession.Game.StartGame | src/pages/Index.tsx:49-55 | sets the drawn warning set (exactly the drawn count of distinct pool messages), index 0 and phase `warnings` |
| GameSession.Game.WarningConfirm | src/pages/Index.tsx:57-63 | before the last warning it increments the index and stays in `warnings`; on the last warning it moves to `wheel`; the set is kept |
| GameSession.Game.WarningCancel | src/pages/Index.tsx:65-68 | sets `menu` and index 0 and changes nothing else; the set is kept |
| GameSession.Game.BackToMenu | src/pages/Index.tsx:223 | sets `menu` and changes nothing else |
| GameSession.Game.HandleResult | src/pages/Index.tsx:70-77 | a win sets phase `win` and leaves `resultType` as it was; shutdown or reinstall sets both `resultType` and the phase to that result |
| GameSession.Game.SpinWheel | src/components/Wheel.tsx:52-78 | while the latch is set it changes nothing; otherwise it sets the latch, draws the outcome by threshold, schedules its announcement and turns the dial by exactly the final rotation for that outcome, so the rotation strictly increases |
| GameSession.Game.Announce | src/components/Wheel.tsx:96-103 | the pending result is handed to `handleResult` once, then the latch is released and nothing is pending |
| GameSession.Game.SimulationComplete | src/pages/Index.tsx:79-81 | sets `reveal` unconditionally, changing nothing else |
| GameSession.Game.RestartGame | src/pages/Index.tsx:83-88 | sets menu, index 0, not spinning and no result type; `shuffledWarnings` is kept |
| Spin.SegmentsCoverHundred | src/components/Wheel.tsx:106-110 | the section labels 1%, 10% and 89% add up to 100 |
| Spin.DrawMatchesSegments | src/components/Wheel.tsx:57-70 | for every draw in [0, 100) the threshold chain picks the section that the cumulative reading of the labelled percentages assigns to it |
| Spin.DrawIntervals | src/components/Wheel.tsx:61-69 | win if and only if r < 1, reinstall if and only if 1 <= r < 11, shutdown if and only if r >= 11; the intervals have lengths 1, 10 and 89, the labels' percentages |
| Spin.TargetSection | src/components/Wheel.tsx:61-70 | the target section is the index of the section painted for the outcome: 0 win, 1 reinstall, 2 shutdown |
| Spin.SpinCount | src/components/Wheel.tsx:73 | the number of full spins lies in [8, 11] |
| Spin.TargetAngleCentred | src/components/Wheel.tsx:74-75 | the target angle is the middle of the target section: 60, 180 or 300 degrees |
| Spin.PointerAngle | src/components/Wheel.tsx:143 | the angle of the wheel under the fixed top pointer after a clockwise turn by `rotation` lies in [0, 360) |
| Spin.FinalRotationLands | src/components/Wheel.tsx:73-76 | the final rotation lies in [2940, 4260]; modulo 360 it is 360 - targetAngle; so the pointer sits at targetAngle, which in the 120-degree layout the arithmetic assumes (`SectionAt`) is the middle of the section showing the drawn outcome |
| Spin.PaintedWheelMissesReinstall | src/components/Wheel.tsx:152-159 | on the wheel as the clip paths paint it, a reinstall spin stops at 180 degrees, which shows the shutdown section rather than the reinstall one |
| Spin.Dial.constructor | src/components/Wheel.tsx:11 | a freshly mounted wheel has rotation 0 |
| Spin.TickSounds | src/components/Wheel.tsx:81-93 | the interval plays at most 60 ticks before clearing itself; tick k (counted from 1) is fast exactly when k < 42 = 60 * 0.7 |
| WarningDialog.IconIndex | src/components/WarningDialog.tsx:13-16 | the icon lookup index is in [0, 5) and equals the warning index for the first five warnings |
| WarningDialog.IconsCycle | src/components/WarningDialog.tsx:13-16 | the icons repeat every five warnings, advance by one each warning, and two consecutive warnings never show the same icon |
| WarningDialog.CounterInRange | src/components/WarningDialog.tsx:48 | the counter shows a value in [1, totalWarnings], equal to totalWarnings only on the last warning |
| WarningDialog.LabelMatchesConfirm | src/components/WarningDialog.tsx:72 | the caption is "LANCER LA ROUE" exactly on the last warning, which is exactly when the confirm handler moves to the wheel; otherwise it is "Continuer", and confirming moves to the next warning |
| WarningDialog.ProgressWidthScaled | src/components/WarningDialog.tsx:84 | the width times the set size is 100 times the counter |
| WarningDialog.ProgressWidthBounds | src/components/WarningDialog.tsx:84 | the width lies in (0, 100]; it is 100 exactly on the last warning and strictly increases from one warning to the next |
| Reinstall.Increment | src/components/ReinstallSimulation.tsx:55 | the random increment lies in [0.5, 2.5) |
| Reinstall.NextProgress | src/components/ReinstallSimulation.tsx:50-57 | the updater never returns more than 100; once the bar is at 100 or more it returns exactly 100; below 100 it strictly increases the value, by less than 2.5, and by at least 0.5 unless it stops at 100 |
| Reinstall.ProgressReachesHundred | src/components/ReinstallSimulation.tsx:49-58 | repeated ticks never lower the progress or take it past 100; from p in [0, 100], 2 * (100 - p) ticks bring it to exactly 100 |
| Reinstall.NextStep | src/components/ReinstallSimulation.tsx:62-68 | below the last caption a step tick adds exactly 1; at the cap the step stays where it is; so the step never passes index 6 |
| Reinstall.SteppedFromStart | src/components/ReinstallSimulation.tsx:61-69 | after k ticks from step s the step is s + k, capped at 6, so `installSteps[currentStep]` is in bounds |
| Reinstall.Installer.constructor | src/components/ReinstallSimulation.tsx:9-11 | the mount starts in `loading` with progress 0 and step 0, both intervals and both timers registered |
| Reinstall.Installer.ProgressTick | src/components/ReinstallSimulation.tsx:49-58 | progress becomes the updater's value; the interval clears itself on the tick that finds the bar full; the invariant is kept and nothing else changes |
| Reinstall.Installer.StepTick | src/components/ReinstallSimulation.tsx:61-69 | the step becomes the updater's value; the interval clears itself on the tick that finds the last caption; the invariant is kept and nothing else changes |
| Reinstall.Installer.LoadingTimeout | src/components/ReinstallSimulation.tsx:44-46 | `loading` moves forward to `install` |
| Reinstall.Installer.CompleteTimeout | src/components/ReinstallSimulation.tsx:72-79 | the phase moves forward to `reveal`, and only then is `onComplete` scheduled |
| Reinstall.NeverConfig | src/components/ReinstallSimulation.tsx:9 | the declared `config` phase is never entered, and the install screen's caption lookup is in bounds |

## Left out

- Rendering, animation, styling, icons and the French copy text are not modelled. The 15 messages appear only as the pool's values.
- Audio is not modelled: `AudioContext`, oscillators and the tick, slow-tick and final sounds. `TickSounds` records which kind of tick each firing plays.
- Browser side effects are not modelled: the cursor style, the Fullscreen API and keyboard blocking. They have no state that the core reads.
- `ShutdownSimulation`, `WinScreen` and `FinalReveal` are not part of this model. Their only link to the core is the `onComplete` and `onRestart` callbacks, which are the `SimulationDone` and `Restart` events.
- Probabilities are not modelled. The model does not claim that the shuffle is uniform or that outcomes occur 1/10/89% of the time. Draws are arguments, and the model proves the interval lengths and the permutation facts instead.
- Real time is not modelled: millisecond delays, timer scheduling and React's batching of state updates. Each handler and each timer callback is one atomic step. In the session, the wheel's 8000 + 1000 ms announce timeout is the `AnnounceResult` event. In `Installer`, the fact that the 3000 ms timer fires before the 30000 ms one is a precondition of `CompleteTimeout`.
- `Math.random`, `Math.floor` and `progress` use IEEE-754 doubles in the source. The model uses exact reals and integers, so floating-point rounding is not modelled.
- Spin.TickSounds: how many times the interval fires before the announce timeout clears it is an argument `firings`. The model does not derive it from the 100 ms and 8000 ms delays.
- The wheel's `rotation` lives in a `Dial` separate from `Game`. A new dial stands for a remount of the wheel view.
- The cleanup function run on unmount is not modelled for the simulations. Instead, their `onComplete` event is enabled only while they are mounted, in `shutdown` or `reinstall`.
- The clip paths of the painted sections are not the 120-degree arcs that `targetAngle` assumes. Where the two layouts differ, `FinalRotationLands` speaks only of the arithmetic's layout, and `PaintedWheelMissesReinstall` gives the case the painted wheel gets wrong. The painted layout is read at the rim only, and the wheel's border is not modelled.
- The `Math.floor(progress)` shown as the percentage and the CSS widths are not modelled. They are display only.

## Findings

| source | as written | input that shows it | evidently intended | confidence | as-written member | corrected member |
|---|---|---|---|---|---|---|
| src/components/Wheel.tsx:152-159 | the clip polygons paint section 0 on [0, 90], section 1 (turned 120) on [210, 300] at the rim, and section 2 (turned 240, drawn last) on [60, 195] | any reinstall draw, e.g. `Math.random() * 100 = 5` with 8 spins: the pointer stops at 180 degrees, inside the shutdown section. Win (60) and shutdown (300) stop on section edges | section k spans [120k, 120k + 120), so the pointer lands in the middle of the section of the drawn outcome, as `targetAngle` at lines 74-75 computes | not executed; read from the CSS clip paths | Spin.PaintedWheelMissesReinstall | Spin.FinalRotationLands |
