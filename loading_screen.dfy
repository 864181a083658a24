/**
 * The loading screen (src/components/LoadingScreen.tsx): a fixed schedule of
 * analysis steps, the progress percentage and the step indicator, all as
 * functions of the integer number of milliseconds since the screen mounted.
 */
module LoadingScreen {
  import opened Wrappers

  datatype Icon = Scan | Microscope | Brain | Shield

  datatype Step = Step(icon: Icon, text: string, duration: nat)

  const AnalysisSteps: seq<Step> := [
    Step(Scan, "Analizando imagen dermatológica...", 3000),
    Step(Microscope, "Evaluando características de la lesión...", 3500),
    Step(Brain, "Clasificando patrones dermatológicos...", 2500),
    Step(Shield, "Generando reporte diagnóstico...", 2000)
  ]

  /** The `reduce` over the durations, summing from the left. */
  function TotalDuration(steps: seq<Step>): nat
  {
    if steps == [] then 0 else TotalDuration(steps[..|steps| - 1]) + steps[|steps| - 1].duration
  }

  /** When step `i` is scheduled: the durations of the steps before it, added up. */
  function StartTime(steps: seq<Step>, i: nat): (t: nat)
    requires i <= |steps|
    ensures i == |steps| ==> t == TotalDuration(steps)
  {
    assert i == |steps| ==> steps[..i] == steps;
    TotalDuration(steps[..i])
  }

  /** Each start adds the previous step's duration to the previous start. */
  lemma StartTimeStep(steps: seq<Step>, i: nat)
    requires 0 < i <= |steps|
    ensures StartTime(steps, i) == StartTime(steps, i - 1) + steps[i - 1].duration
  {
    assert steps[..i][..i - 1] == steps[..i - 1];
  }

  /** The four steps start at 0, 3000, 6500 and 9000 ms and take 11000 ms in all. */
  lemma AnalysisSchedule()
    ensures StartTime(AnalysisSteps, 0) == 0
    ensures StartTime(AnalysisSteps, 1) == 3000
    ensures StartTime(AnalysisSteps, 2) == 6500
    ensures StartTime(AnalysisSteps, 3) == 9000
    ensures TotalDuration(AnalysisSteps) == 11000
  {
    StartTimeStep(AnalysisSteps, 1);
    StartTimeStep(AnalysisSteps, 2);
    StartTimeStep(AnalysisSteps, 3);
    StartTimeStep(AnalysisSteps, 4);
    assert AnalysisSteps[..4] == AnalysisSteps;
  }

  /** With positive durations the start times strictly increase. */
  lemma {:induction false} StartTimesIncrease(steps: seq<Step>, i: nat, j: nat)
    requires forall k :: 0 <= k < |steps| ==> steps[k].duration > 0
    requires i < j <= |steps|
    ensures StartTime(steps, i) < StartTime(steps, j)
    decreases j
  {
    StartTimeStep(steps, j);
    if i < j - 1 {
      StartTimesIncrease(steps, i, j - 1);
    }
  }

  /**
   * The scheduling loop: one timer per step at the accumulated time, and the
   * completion call scheduled from the last step, one duration after it starts.
   */
  method ScheduleSteps(steps: seq<Step>) returns (timers: seq<nat>, completion: Option<nat>)
    ensures |timers| == |steps|
    ensures forall i :: 0 <= i < |steps| ==> timers[i] == StartTime(steps, i)
    ensures completion == if steps == [] then None else Some(TotalDuration(steps))
  {
    var accumulatedTime := 0;
    timers := [];
    completion := None;
    for index := 0 to |steps|
      invariant accumulatedTime == StartTime(steps, index)
      invariant |timers| == index
      invariant forall i :: 0 <= i < index ==> timers[i] == StartTime(steps, i)
      invariant completion == if 0 < index == |steps| then Some(TotalDuration(steps)) else None
    {
      StartTimeStep(steps, index + 1);
      timers := timers + [accumulatedTime];
      if index == |steps| - 1 {
        assert steps[..index + 1] == steps;
        completion := Some(accumulatedTime + steps[index].duration);
      }
      accumulatedTime := accumulatedTime + steps[index].duration;
    }
  }

  /** The last step timer that has fired by `elapsed` among steps 0..i (0 before any has). */
  function StepAt(steps: seq<Step>, elapsed: int, i: nat): (k: nat)
    requires i < |steps|
    ensures k <= i
    ensures k == 0 || StartTime(steps, k) <= elapsed
    ensures forall j :: k < j <= i ==> elapsed < StartTime(steps, j)
    decreases i
  {
    if i == 0 || StartTime(steps, i) <= elapsed then i else StepAt(steps, elapsed, i - 1)
  }

  /** `currentStep` after `elapsed` ms: always a valid index into the steps. */
  function CurrentStep(elapsed: int): (k: nat)
    ensures k < |AnalysisSteps|
  {
    StepAt(AnalysisSteps, elapsed, |AnalysisSteps| - 1)
  }

  /** The step shown at each time: 0 until 3000 ms, 1 until 6500, 2 until 9000, then 3. */
  lemma CurrentStepSchedule(elapsed: int)
    ensures elapsed < 3000 ==> CurrentStep(elapsed) == 0
    ensures 3000 <= elapsed < 6500 ==> CurrentStep(elapsed) == 1
    ensures 6500 <= elapsed < 9000 ==> CurrentStep(elapsed) == 2
    ensures 9000 <= elapsed ==> CurrentStep(elapsed) == 3
  {
    AnalysisSchedule();
  }

  /** The current step never goes back as time passes. */
  lemma CurrentStepMonotone(e1: int, e2: int)
    requires e1 <= e2
    ensures CurrentStep(e1) <= CurrentStep(e2)
  {
  }

  /** The icon for the current step, with the source's fallback for a missing step. */
  function CurrentIcon(step: nat): Icon
  {
    if step < |AnalysisSteps| then AnalysisSteps[step].icon else Scan
  }

  /** The fallback icon is never needed: the current step always names a step. */
  lemma IconFallbackUnused(elapsed: int)
    ensures CurrentIcon(CurrentStep(elapsed)) == AnalysisSteps[CurrentStep(elapsed)].icon
  {
  }

  /** The progress percentage, clamped at 100. */
  function Progress(elapsed: int): (p: real)
    ensures p <= 100.0
    ensures elapsed >= 0 ==> p >= 0.0
    ensures p == 100.0 <==> elapsed >= TotalDuration(AnalysisSteps)
  {
    AnalysisSchedule();
    var percent := elapsed as real / TotalDuration(AnalysisSteps) as real * 100.0;
    if percent < 100.0 then percent else 100.0
  }

  /**
   * Completion is scheduled at the last step's start plus its duration, which is
   * the total: the very moment progress first reaches 100.
   */
  lemma CompletionAtFullProgress()
    ensures StartTime(AnalysisSteps, 3) + AnalysisSteps[3].duration == TotalDuration(AnalysisSteps)
    ensures Progress(TotalDuration(AnalysisSteps)) == 100.0
    ensures forall e :: e < TotalDuration(AnalysisSteps) ==> Progress(e) < 100.0
  {
    AnalysisSchedule();
  }

  /** Progress dot `index` is lit when it is at or before the current step. */
  predicate DotLit(index: nat, current: nat)
  {
    index <= current
  }

  /** The number of lit dots among the first `n`. */
  function LitDots(n: nat, current: nat): (c: nat)
    ensures c == if current < n then current + 1 else n
  {
    if n == 0 then 0 else LitDots(n - 1, current) + if DotLit(n - 1, current) then 1 else 0
  }

  /** The indicator lights one dot more than the current step index. */
  lemma LitDotsFollowStep(elapsed: int)
    ensures LitDots(|AnalysisSteps|, CurrentStep(elapsed)) == CurrentStep(elapsed) + 1
  {
  }

  /** The screen's state cells and the two timer callbacks that update them. */
  class ScreenState {
    var currentStep: nat
    var progress: real
    var elapsedMs: int
    var intervalRunning: bool

    ghost predicate Valid()
      reads this
    {
      currentStep < |AnalysisSteps| && progress <= 100.0 && (progress == 100.0 ==> !intervalRunning)
    }

    constructor ()
      ensures Valid()
      ensures currentStep == 0 && progress == 0.0 && elapsedMs == 0 && intervalRunning
    {
      currentStep, progress, elapsedMs, intervalRunning := 0, 0.0, 0, true;
    }

    /** The 100 ms interval callback; it stops itself once progress reaches 100. */
    method Tick(elapsed: int)
      requires Valid() && intervalRunning
      modifies this
      ensures Valid()
      ensures elapsedMs == elapsed && progress == Progress(elapsed) && currentStep == old(currentStep)
      ensures intervalRunning <==> elapsed < TotalDuration(AnalysisSteps)
    {
      var percent := Progress(elapsed);
      elapsedMs := elapsed;
      progress := percent;
      if percent >= 100.0 {
        intervalRunning := false;
      }
    }

    /** The timer of step `index`; the last one also schedules completion one duration later. */
    method StepTimerFired(index: nat) returns (completeAfter: Option<nat>)
      requires Valid() && index < |AnalysisSteps|
      modifies this
      ensures Valid()
      ensures currentStep == index && progress == old(progress) && elapsedMs == old(elapsedMs)
      ensures intervalRunning == old(intervalRunning)
      ensures completeAfter.Some? <==> index == |AnalysisSteps| - 1
      ensures completeAfter.Some? ==> completeAfter.value == AnalysisSteps[index].duration
    {
      currentStep := index;
      completeAfter := if index == |AnalysisSteps| - 1 then Some(AnalysisSteps[index].duration) else None;
    }
  }
}
