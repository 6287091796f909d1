/** The game session of the `Index` page (src/pages/Index.tsx): the phase
    machine driven by the menu button, the warning dialogs, the wheel, the
    simulations' completion callbacks and the restart buttons.

    Each handler is a transition function on `State`, and class `Game`
    holds the same fields as the component and has one method per event,
    each proved to perform its transition. `Step` and `Enabled` say which
    view can deliver which event; `Inv` is what every reachable state
    satisfies. */
module GameSession {
  import Draws
  import Shuffle
  import Spin

  datatype Option<T> = None | Some(value: T)

  /** `GamePhase`. `Spinning` is declared by the source but never assigned. */
  datatype GamePhase = Menu | Wheel | Warnings | Spinning | Shutdown | Reinstall | Win | Reveal

  /** `warningMessages`: the pool of 15 warnings. */
  const WarningMessages: seq<string> := [
    "Ce n'est pas un jeu.",
    "La roue ne plaisante pas.",
    "Vous êtes responsable de votre curiosité.",
    "Statistiquement, vous devriez partir.",
    "Dernière chance de faire demi-tour.",
    "Nous déclinons toute responsabilité.",
    "Êtes-vous vraiment sûr de vous ?",
    "Votre destin est entre vos mains.",
    "89% des gens regrettent.",
    "La chance n'existe pas ici.",
    "Ce qui va suivre est irréversible.",
    "Vous avez été averti. Encore.",
    "La roue se souvient de tout.",
    "Dernière confirmation (les précédentes comptaient aussi).",
    "Prêt à assumer les conséquences ?"
  ]

  /** A pool warnings are drawn from: 15 messages, no two alike. */
  predicate IsPool(pool: seq<string>) {
    |pool| == 15 && Shuffle.Distinct(pool)
  }

  /** The `warningMessages` literal is such a pool: no warning occurs twice. */
  lemma WarningMessagesIsPool()
    ensures IsPool(WarningMessages)
  {
  }

  /** `10 + Math.floor(Math.random() * 6)`: how many warnings to show. */
  function WarningCount(u: real): (n: nat)
    requires Draws.IsUnit(u)
    ensures 10 <= n <= 15
  {
    10 + Draws.ScaledFloor(u, 6)
  }

  /** Draws a warning set can be made from: one for the count, one per pool
      entry for the shuffle. */
  predicate ValidDraws(pool: seq<string>, uCount: real, swaps: seq<real>) {
    Draws.IsUnit(uCount) && |swaps| == |pool| && Draws.AllUnit(swaps)
  }

  /** `shuffleArray(warningMessages).slice(0, randomCount)`. */
  function DrawWarnings(pool: seq<string>, uCount: real, swaps: seq<real>): seq<string>
    requires IsPool(pool) && ValidDraws(pool, uCount, swaps)
  {
    Shuffle.Shuffled(pool, swaps)[..WarningCount(uCount)]
  }

  /** The first two statements of `startGame`: the count, then the shuffled
      pool cut to that count. */
  method ChooseWarnings(pool: seq<string>, uCount: real, swaps: seq<real>) returns (warnings: seq<string>)
    requires IsPool(pool) && ValidDraws(pool, uCount, swaps)
    ensures warnings == DrawWarnings(pool, uCount, swaps)
  {
    var randomCount := 10 + Draws.ScaledFloor(uCount, 6);
    var shuffled := Shuffle.ShuffleArray(pool, swaps);
    warnings := shuffled[..randomCount];
  }

  /** A warning set has between 10 and 15 entries, no two alike. */
  predicate IsWarningSet(ws: seq<string>) {
    && 10 <= |ws| <= 15
    && Shuffle.Distinct(ws)
  }

  /** The drawn warnings are a warning set of exactly the drawn count, and
      every one of them is a message of the pool. */
  lemma DrawWarningsIsWarningSet(pool: seq<string>, uCount: real, swaps: seq<real>)
    requires IsPool(pool) && ValidDraws(pool, uCount, swaps)
    ensures |DrawWarnings(pool, uCount, swaps)| == WarningCount(uCount)
    ensures IsWarningSet(DrawWarnings(pool, uCount, swaps))
    ensures forall w :: w in DrawWarnings(pool, uCount, swaps) ==> w in pool
  {
    Shuffle.ShuffledPrefix(pool, swaps, WarningCount(uCount));
  }

  /** The component's state. `pendingResult` is the outcome captured by the
      wheel's announce timeout while a spin is under way (None: no timeout). */
  datatype State = State(
    phase: GamePhase,
    warningIndex: nat,
    shuffledWarnings: seq<string>,
    isSpinning: bool,
    resultType: Option<Spin.Outcome>,
    pendingResult: Option<Spin.Outcome>)

  /** The `useState` initial values. */
  function Initial(): State {
    State(Menu, 0, [], false, None, None)
  }

  /** `startGame`. */
  function AfterStart(s: State, pool: seq<string>, uCount: real, swaps: seq<real>): State
    requires IsPool(pool) && ValidDraws(pool, uCount, swaps)
  {
    s.(shuffledWarnings := DrawWarnings(pool, uCount, swaps), warningIndex := 0, phase := Warnings)
  }

  /** `handleWarningConfirm`. */
  function AfterConfirm(s: State): State {
    if s.warningIndex < |s.shuffledWarnings| - 1 then s.(warningIndex := s.warningIndex + 1)
    else s.(phase := Wheel)
  }

  /** `handleWarningCancel`. */
  function AfterCancel(s: State): State {
    s.(phase := Menu, warningIndex := 0)
  }

  /** The wheel view's back button. */
  function AfterBack(s: State): State {
    s.(phase := Menu)
  }

  /** `handleResult`. */
  function AfterResult(s: State, result: Spin.Outcome): State {
    if result == Spin.Win then s.(phase := Win)
    else s.(resultType := Some(result), phase := if result == Spin.Shutdown then Shutdown else Reinstall)
  }

  /** The session side of `spinWheel`: ignored while spinning, otherwise it
      sets the latch and schedules the announcement of `result`. */
  function AfterSpinRequest(s: State, result: Spin.Outcome): State {
    if s.isSpinning then s
    else s.(isSpinning := true, pendingResult := Some(result))
  }

  /** The announce timeout of `spinWheel`: `onResult(result)` then
      `setIsSpinning(false)`. */
  function AfterAnnounce(s: State): State
    requires s.pendingResult.Some?
  {
    AfterResult(s, s.pendingResult.value).(isSpinning := false, pendingResult := None)
  }

  /** `handleSimulationComplete`. */
  function AfterSimulationComplete(s: State): State {
    s.(phase := Reveal)
  }

  /** `restartGame`. */
  function AfterRestart(s: State): State {
    s.(phase := Menu, warningIndex := 0, isSpinning := false, resultType := None)
  }

  /** The events the views deliver. `WheelClick` carries the draw of `Math.random()`
      that picks the outcome; `Announce` is the wheel's timeout firing. */
  datatype Event =
    | Start(uCount: real, swaps: seq<real>)
    | Confirm
    | Cancel
    | Back
    | WheelClick(uResult: real)
    | AnnounceResult
    | SimulationDone
    | Restart

  /** Whether the view mounted in `s` can deliver `e`: the menu button in
      `menu`; the dialog (rendered only for a non-empty set) in `warnings`;
      the wheel, and its back button while not spinning, in `wheel`; the
      timeout while one is pending; the simulations in `shutdown` and
      `reinstall`; the restart buttons of the win screen and of the final
      reveal (rendered only when `resultType` is set). */
  predicate Enabled(s: State, e: Event) {
    match e
    case Start(uCount, swaps) => s.phase == Menu && ValidDraws(WarningMessages, uCount, swaps)
    case Confirm => s.phase == Warnings && |s.shuffledWarnings| > 0
    case Cancel => s.phase == Warnings && |s.shuffledWarnings| > 0
    case Back => s.phase == Wheel && !s.isSpinning
    case WheelClick(u) => s.phase == Wheel && Draws.IsUnit(u)
    case AnnounceResult => s.pendingResult.Some?
    case SimulationDone => s.phase == Shutdown || s.phase == Reinstall
    case Restart => s.phase == Win || (s.phase == Reveal && s.resultType.Some?)
  }

  function Step(s: State, e: Event): State
    requires Enabled(s, e)
  {
    match e
    case Start(uCount, swaps) =>
      WarningMessagesIsPool();
      AfterStart(s, WarningMessages, uCount, swaps)
    case Confirm => AfterConfirm(s)
    case Cancel => AfterCancel(s)
    case Back => AfterBack(s)
    case WheelClick(u) => AfterSpinRequest(s, Spin.Draw(u * 100.0))
    case AnnounceResult => AfterAnnounce(s)
    case SimulationDone => AfterSimulationComplete(s)
    case Restart => AfterRestart(s)
  }

  /** Each event of `evs` is enabled in the state the previous ones lead to. */
  predicate AllEnabled(s: State, evs: seq<Event>)
    decreases |evs|
  {
    evs == [] || (Enabled(s, evs[0]) && AllEnabled(Step(s, evs[0]), evs[1..]))
  }

  function Run(s: State, evs: seq<Event>): State
    requires AllEnabled(s, evs)
    decreases |evs|
  {
    if evs == [] then s else Run(Step(s, evs[0]), evs[1..])
  }

  /** The outcome stored in `resultType` for a simulation phase. */
  function SimulatedOutcome(p: GamePhase): Option<Spin.Outcome> {
    match p
    case Shutdown => Some(Spin.Shutdown)
    case Reinstall => Some(Spin.Reinstall)
    case _ => None
  }

  /** What every reachable state satisfies. */
  predicate Inv(s: State) {
    && s.phase != Spinning
    && (s.shuffledWarnings == [] || IsWarningSet(s.shuffledWarnings))
    && (s.phase == Warnings ==> s.shuffledWarnings != [] && s.warningIndex < |s.shuffledWarnings|)
    && (s.isSpinning <==> s.pendingResult.Some?)
    && (s.isSpinning ==> s.phase == Wheel)
    && (s.phase in {Menu, Warnings, Wheel, Win} ==> s.resultType == None)
    && (s.phase in {Shutdown, Reinstall} ==> s.resultType == SimulatedOutcome(s.phase))
    && (s.phase == Reveal ==> s.resultType in {Some(Spin.Shutdown), Some(Spin.Reinstall)})
  }

  /** Every enabled event keeps the invariant. */
  lemma StepKeepsInv(s: State, e: Event)
    requires Inv(s) && Enabled(s, e)
    ensures Inv(Step(s, e))
  {
    match e
    case Start(uCount, swaps) =>
      WarningMessagesIsPool();
      DrawWarningsIsWarningSet(WarningMessages, uCount, swaps);
    case Confirm =>
    case Cancel =>
    case Back =>
    case WheelClick(u) =>
    case AnnounceResult =>
    case SimulationDone =>
    case Restart =>
  }

  /** Every state reachable from `s` by enabled events keeps the invariant. */
  lemma {:induction false} RunKeepsInv(s: State, evs: seq<Event>)
    requires Inv(s) && AllEnabled(s, evs)
    ensures Inv(Run(s, evs))
    decreases |evs|
  {
    if evs != [] {
      StepKeepsInv(s, evs[0]);
      RunKeepsInv(Step(s, evs[0]), evs[1..]);
    }
  }

  /** In every reachable state: the `spinning` phase never occurs; a warning
      shown is an in-bounds entry of the set; the final reveal has a result
      type to render; a spin is under way only on the wheel. */
  lemma {:induction false} ReachableFacts(evs: seq<Event>)
    requires AllEnabled(Initial(), evs)
    ensures Run(Initial(), evs).phase != Spinning
    ensures Run(Initial(), evs).phase == Warnings ==>
      Run(Initial(), evs).warningIndex < |Run(Initial(), evs).shuffledWarnings|
    ensures Run(Initial(), evs).phase == Reveal ==> Run(Initial(), evs).resultType.Some?
    ensures Run(Initial(), evs).isSpinning ==> Run(Initial(), evs).phase == Wheel
  {
    RunKeepsInv(Initial(), evs);
  }

  /** `k` confirms in a row. */
  function Confirms(s: State, k: nat): State
    decreases k
  {
    if k == 0 then s else Confirms(AfterConfirm(s), k - 1)
  }

  /** From warning `i` of a set of n, k confirms show warning i + k while
      i + k < n, and reach the wheel exactly at the (n - i)-th confirm: from
      the first warning, n confirms are needed and fewer never suffice. */
  lemma {:induction false} ConfirmsReachWheel(s: State, k: nat)
    requires s.phase == Warnings && s.warningIndex + k <= |s.shuffledWarnings|
    ensures s.warningIndex + k < |s.shuffledWarnings| ==>
      Confirms(s, k) == s.(warningIndex := s.warningIndex + k)
    ensures s.warningIndex + k == |s.shuffledWarnings| && k > 0 ==>
      Confirms(s, k) == s.(warningIndex := |s.shuffledWarnings| - 1, phase := Wheel)
    decreases k
  {
    if k > 0 {
      var t := AfterConfirm(s);
      if s.warningIndex < |s.shuffledWarnings| - 1 {
        ConfirmsReachWheel(t, k - 1);
      } else {
        assert k == 1;
      }
    }
  }

  /** The wheel is left only through a result or through the back button,
      which is offered only while not spinning. */
  lemma LeavingWheel(s: State, e: Event)
    requires Inv(s) && s.phase == Wheel && Enabled(s, e) && Step(s, e).phase != Wheel
    ensures (e == Back && !s.isSpinning) || e == AnnounceResult
  {
  }

  /** Restart returns every field to its initial value except the warning
      set, which is kept until the next start replaces it. */
  lemma RestartKeepsWarnings(s: State)
    requires Inv(s) && !s.isSpinning
    ensures AfterRestart(s) == Initial().(shuffledWarnings := s.shuffledWarnings)
  {
  }

  /** The state of the `Index` component, with the module-level
      `warningMessages` it draws from. */
  class Game {
    const warningMessages: seq<string>
    var phase: GamePhase
    var warningIndex: nat
    var shuffledWarnings: seq<string>
    var isSpinning: bool
    var resultType: Option<Spin.Outcome>
    /** The outcome held by the wheel's pending announce timeout. */
    var pendingResult: Option<Spin.Outcome>

    function Current(): State
      reads this
    {
      State(phase, warningIndex, shuffledWarnings, isSpinning, resultType, pendingResult)
    }

    constructor ()
      ensures Current() == Initial()
      ensures warningMessages == WarningMessages && IsPool(warningMessages)
    {
      warningMessages := WarningMessages;
      WarningMessagesIsPool();
      phase := Menu;
      warningIndex := 0;
      shuffledWarnings := [];
      isSpinning := false;
      resultType := None;
      pendingResult := None;
    }

    method StartGame(uCount: real, swaps: seq<real>)
      requires IsPool(warningMessages) && ValidDraws(warningMessages, uCount, swaps)
      modifies this
      ensures Current() == AfterStart(old(Current()), warningMessages, uCount, swaps)
      ensures phase == Warnings && warningIndex == 0 && |shuffledWarnings| == WarningCount(uCount)
      ensures IsWarningSet(shuffledWarnings)
      ensures forall w :: w in shuffledWarnings ==> w in warningMessages
    {
      var warnings := ChooseWarnings(warningMessages, uCount, swaps);
      DrawWarningsIsWarningSet(warningMessages, uCount, swaps);
      shuffledWarnings := warnings;
      warningIndex := 0;
      phase := Warnings;
    }

    method WarningConfirm()
      modifies this
      ensures Current() == AfterConfirm(old(Current()))
      ensures old(warningIndex) < |shuffledWarnings| - 1 ==>
        phase == old(phase) && warningIndex == old(warningIndex) + 1
      ensures old(warningIndex) >= |shuffledWarnings| - 1 ==>
        phase == Wheel && warningIndex == old(warningIndex)
      ensures shuffledWarnings == old(shuffledWarnings)
    {
      if warningIndex < |shuffledWarnings| - 1 {
        warningIndex := warningIndex + 1;
      } else {
        phase := Wheel;
      }
    }

    method WarningCancel()
      modifies this
      ensures Current() == AfterCancel(old(Current()))
      ensures phase == Menu && warningIndex == 0 && shuffledWarnings == old(shuffledWarnings)
      ensures isSpinning == old(isSpinning) && resultType == old(resultType)
    {
      phase := Menu;
      warningIndex := 0;
    }

    method BackToMenu()
      modifies this
      ensures Current() == AfterBack(old(Current()))
      ensures phase == Menu
    {
      phase := Menu;
    }

    method HandleResult(result: Spin.Outcome)
      modifies this
      ensures Current() == AfterResult(old(Current()), result)
      ensures result == Spin.Win ==> phase == Win && resultType == old(resultType)
      ensures result != Spin.Win ==> resultType == Some(result) && SimulatedOutcome(phase) == Some(result)
    {
      if result == Spin.Win {
        phase := Win;
      } else {
        resultType := Some(result);
        phase := if result == Spin.Shutdown then Shutdown else Reinstall;
      }
    }

    /** `spinWheel`: a no-op while the latch is set; otherwise it sets the
        latch, draws the outcome, turns the dial by the final rotation and
        schedules the announcement. */
    method SpinWheel(dial: Spin.Dial, uResult: real, uSpins: real) returns (result: Option<Spin.Outcome>)
      requires Draws.IsUnit(uResult) && Draws.IsUnit(uSpins)
      modifies this, dial
      ensures Current() == AfterSpinRequest(old(Current()), Spin.Draw(uResult * 100.0))
      ensures old(isSpinning) ==> result == None && dial.rotation == old(dial.rotation)
      ensures !old(isSpinning) ==> result == Some(Spin.Draw(uResult * 100.0)) && isSpinning
      ensures !old(isSpinning) ==>
        dial.rotation == old(dial.rotation) + Spin.FinalRotation(Spin.SpinCount(uSpins), Spin.TargetSection(result.value))
      ensures dial.rotation >= old(dial.rotation)
      ensures !old(isSpinning) ==> dial.rotation > old(dial.rotation)
    {
      if isSpinning {
        return None;
      }
      isSpinning := true;
      var random := uResult * 100.0;
      var outcome := Spin.Draw(random);
      var spins := 8 + Draws.ScaledFloor(uSpins, 4);
      var finalRotation := Spin.FinalRotation(spins, Spin.TargetSection(outcome));
      Spin.FinalRotationLands(spins, outcome);
      dial.rotation := dial.rotation + finalRotation;
      pendingResult := Some(outcome);
      result := Some(outcome);
    }

    /** The announce timeout: `onResult(result)`, then `setIsSpinning(false)`. */
    method Announce()
      requires pendingResult.Some?
      modifies this
      ensures Current() == AfterAnnounce(old(Current()))
      ensures !isSpinning && pendingResult == None
    {
      var result := pendingResult.value;
      HandleResult(result);
      isSpinning := false;
      pendingResult := None;
    }

    method SimulationComplete()
      modifies this
      ensures Current() == AfterSimulationComplete(old(Current()))
      ensures phase == Reveal
    {
      phase := Reveal;
    }

    method RestartGame()
      modifies this
      ensures Current() == AfterRestart(old(Current()))
      ensures phase == Menu && warningIndex == 0 && !isSpinning && resultType == None
      ensures shuffledWarnings == old(shuffledWarnings)
    {
      phase := Menu;
      warningIndex := 0;
      isSpinning := false;
      resultType := None;
    }
  }
}
