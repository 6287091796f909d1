/** The counters and timers of `ReinstallSimulation`
    (src/components/ReinstallSimulation.tsx): a `progress` percentage bumped
    by a random increment every 500 ms, a `currentStep` into the seven
    install captions bumped every 4000 ms, and a `phase` moved forward by
    two one-shot timers. */
module Reinstall {
  import Draws

  /** The internal phases, in the order of their declaration. */
  datatype InstallPhase = Loading | Install | Config | Reveal

  /** Position of a phase in that order. */
  function Rank(p: InstallPhase): nat {
    match p
    case Loading => 0
    case Install => 1
    case Config => 2
    case Reveal => 3
  }

  /** `installSteps.length`. */
  const InstallStepCount: nat := 7

  /** The index of the last caption, where the step counter stops. */
  const LastStep: nat := InstallStepCount - 1

  /** `Math.random() * 2 + 0.5`. */
  function Increment(u: real): (inc: real)
    requires Draws.IsUnit(u)
    ensures 0.5 <= inc < 2.5
  {
    u * 2.0 + 0.5
  }

  /** The `setProgress` updater: 100 once the previous value has reached
      100, otherwise the previous value plus the increment, capped at 100. */
  function NextProgress(prev: real, u: real): (next: real)
    requires Draws.IsUnit(u)
    ensures next <= 100.0
    ensures prev >= 100.0 ==> next == 100.0
    ensures prev < 100.0 ==> prev < next && (next == 100.0 || prev + 0.5 <= next)
    ensures prev < 100.0 ==> next < prev + 2.5
  {
    if prev >= 100.0 then 100.0
    else
      var sum := prev + Increment(u);
      if sum < 100.0 then sum else 100.0
  }

  /** The progress after the updater has run once per draw of `us`. */
  function Progressed(p: real, us: seq<real>): real
    requires Draws.AllUnit(us)
    decreases |us|
  {
    if us == [] then p else Progressed(NextProgress(p, us[0]), us[1..])
  }

  /** Progress never falls back and never passes 100; from a value in
      [0, 100] it stands at exactly 100 after at most 200 ticks, since each
      tick below 100 adds at least 0.5 or completes the bar. */
  lemma {:induction false} ProgressReachesHundred(p: real, us: seq<real>)
    requires 0.0 <= p <= 100.0 && Draws.AllUnit(us)
    ensures p <= Progressed(p, us) <= 100.0
    ensures |us| as real * 0.5 >= 100.0 - p ==> Progressed(p, us) == 100.0
    decreases |us|
  {
    if us != [] {
      var next := NextProgress(p, us[0]);
      assert Draws.AllUnit(us[1..]) by {
        forall k | 0 <= k < |us[1..]| ensures Draws.IsUnit(us[1..][k]) {
          assert us[1..][k] == us[k + 1];
        }
      }
      ProgressReachesHundred(next, us[1..]);
    }
  }

  /** The `setCurrentStep` updater: the previous step once the last caption
      is reached, otherwise the next one. */
  function NextStep(prev: nat): (next: nat)
    ensures prev <= LastStep ==> next <= LastStep
    ensures prev < LastStep ==> next == prev + 1
    ensures prev >= LastStep ==> next == prev
  {
    if prev >= InstallStepCount - 1 then prev else prev + 1
  }

  /** The step after `k` ticks of the updater from `step`. */
  function Stepped(step: nat, k: nat): nat
    decreases k
  {
    if k == 0 then step else Stepped(NextStep(step), k - 1)
  }

  /** Counted from the first caption, the step after k ticks is k until it
      reaches the last caption and stays there, so `installSteps[currentStep]`
      is always in bounds. */
  lemma {:induction false} SteppedFromStart(step: nat, k: nat)
    requires step <= LastStep
    ensures Stepped(step, k) == if step + k < LastStep then step + k else LastStep
    decreases k
  {
    if k > 0 {
      SteppedFromStart(NextStep(step), k - 1);
    }
  }

  /** The component's state and its pending timers and intervals. */
  class Installer {
    var phase: InstallPhase
    var progress: real
    var currentStep: nat
    /** Whether `progressInterval` is still registered. */
    var progressRunning: bool
    /** Whether `stepInterval` is still registered. */
    var stepRunning: bool
    /** Whether `loadingTimer` (3000 ms) has yet to fire. */
    var loadingPending: bool
    /** Whether `completeTimer` (30000 ms) has yet to fire. */
    var completePending: bool
    /** Whether the 4000 ms timer that calls `onComplete` has been set. */
    var onCompleteScheduled: bool

    /** What holds between the callbacks: the counters are in range, an
        interval is cleared only once its counter is at its cap, the phase
        matches the timers that have fired, `onComplete` is scheduled
        exactly when the reveal is shown, and `config` never occurs. */
    predicate Valid()
      reads this
    {
      && 0.0 <= progress <= 100.0
      && currentStep <= LastStep
      && (!progressRunning ==> progress == 100.0)
      && (!stepRunning ==> currentStep == LastStep)
      && (loadingPending ==> completePending && phase == Loading)
      && (!loadingPending && completePending ==> phase == Install)
      && (!completePending ==> phase == Reveal)
      && (onCompleteScheduled <==> phase == Reveal)
    }

    /** The mount: initial state values, both timers and both intervals
        registered. */
    constructor ()
      ensures Valid()
      ensures phase == Loading && progress == 0.0 && currentStep == 0
      ensures progressRunning && stepRunning && loadingPending && completePending
    {
      phase := Loading;
      progress := 0.0;
      currentStep := 0;
      progressRunning := true;
      stepRunning := true;
      loadingPending := true;
      completePending := true;
      onCompleteScheduled := false;
    }

    /** One firing of `progressInterval`, with `u` the draw of
        `Math.random()`; the interval clears itself on the firing that finds
        the bar already full. */
    method ProgressTick(u: real)
      requires Valid() && progressRunning && Draws.IsUnit(u)
      modifies this
      ensures Valid()
      ensures progress == NextProgress(old(progress), u)
      ensures progressRunning <==> old(progress) < 100.0
      ensures phase == old(phase) && currentStep == old(currentStep) && stepRunning == old(stepRunning)
      ensures loadingPending == old(loadingPending) && completePending == old(completePending)
      ensures onCompleteScheduled == old(onCompleteScheduled)
    {
      if progress >= 100.0 {
        progressRunning := false;
        progress := 100.0;
      } else {
        var increment := u * 2.0 + 0.5;
        progress := if progress + increment < 100.0 then progress + increment else 100.0;
      }
    }

    /** One firing of `stepInterval`; it clears itself on the firing that
        finds the last caption already shown. */
    method StepTick()
      requires Valid() && stepRunning
      modifies this
      ensures Valid()
      ensures currentStep == NextStep(old(currentStep))
      ensures stepRunning <==> old(currentStep) < LastStep
      ensures phase == old(phase) && progress == old(progress) && progressRunning == old(progressRunning)
      ensures loadingPending == old(loadingPending) && completePending == old(completePending)
      ensures onCompleteScheduled == old(onCompleteScheduled)
    {
      if currentStep >= InstallStepCount - 1 {
        stepRunning := false;
      } else {
        currentStep := currentStep + 1;
      }
    }

    /** `loadingTimer` firing: the install screen replaces the loading one. */
    method LoadingTimeout()
      requires Valid() && loadingPending
      modifies this
      ensures Valid()
      ensures phase == Install && !loadingPending && Rank(old(phase)) < Rank(phase)
      ensures progress == old(progress) && currentStep == old(currentStep)
      ensures progressRunning == old(progressRunning) && stepRunning == old(stepRunning)
      ensures completePending == old(completePending) && onCompleteScheduled == old(onCompleteScheduled)
    {
      phase := Install;
      loadingPending := false;
    }

    /** `completeTimer` firing, which the 30000 ms delay puts after the
        3000 ms loading timer: the reveal is shown, then `onComplete` is
        scheduled. */
    method CompleteTimeout()
      requires Valid() && completePending && !loadingPending
      modifies this
      ensures Valid()
      ensures phase == Reveal && onCompleteScheduled && !completePending
      ensures Rank(old(phase)) < Rank(phase)
      ensures progress == old(progress) && currentStep == old(currentStep)
      ensures progressRunning == old(progressRunning) && stepRunning == old(stepRunning)
      ensures loadingPending == old(loadingPending)
    {
      phase := Reveal;
      completePending := false;
      onCompleteScheduled := true;
    }
  }

  /** `config` is declared but no callback sets it: a valid installer is in
      `loading`, `install` or `reveal`, and shows the install captions only
      with an in-bounds step. */
  lemma NeverConfig(installer: Installer)
    requires installer.Valid()
    ensures installer.phase != Config
    ensures installer.phase == Install ==> installer.currentStep < InstallStepCount
  {
  }
}
