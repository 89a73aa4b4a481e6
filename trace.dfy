/**
 * Every start request spawns a new job task on its own thread, and every
 * such thread keeps running error trials for as long as the server lives.
 * What reaches the shared job state is an interleaving of two kinds of
 * step: a task recording its start time, and a task whose random trial
 * succeeded setting the error flag. This module follows the job state along
 * any sequence of such steps. That over-approximates the reachable runs:
 * `job_task` records its start time before its first trial, so no real run
 * has an error step before its first start step, yet the lemmas here hold
 * for every sequence.
 */
module Trace {
  import opened Server

  datatype Option<T> = None | Some(value: T)

  /** One step that changes the shared job state. */
  datatype Step = StartAt(now: real) | ErrorHit

  /** The effect of one step. */
  function Apply(s: JobState, step: Step): JobState
  {
    match step
    case StartAt(now) => Started(s, now)
    case ErrorHit => Errored(s)
  }

  /** The job state after a sequence of steps, in order. */
  function Run(s: JobState, steps: seq<Step>): JobState
    decreases |steps|
  {
    if steps == [] then s else Run(Apply(s, steps[0]), steps[1..])
  }

  /**
   * The time recorded by the last start step, if there is one: the chosen
   * start step is followed by no other start step, and there is no time only
   * when the steps hold no start step at all.
   */
  function LastStart(steps: seq<Step>): (t: Option<real>)
    ensures t.Some? ==>
      (exists i :: 0 <= i < |steps| && steps[i] == StartAt(t.value) &&
        (forall j :: i < j < |steps| ==> !steps[j].StartAt?))
    ensures t.None? ==> forall i :: 0 <= i < |steps| ==> !steps[i].StartAt?
    decreases |steps|
  {
    if steps == [] then None
    else
      var rest := LastStart(steps[1..]);
      assert forall i :: 1 <= i < |steps| ==> steps[i] == steps[1..][i - 1];
      if rest.Some? then rest
      else if steps[0].StartAt? then Some(steps[0].now)
      else None
  }

  /** Once set, the error flag survives every later step, restarts included. */
  lemma {:induction false} ErrorIsSticky(s: JobState, steps: seq<Step>)
    requires s.hasErrored
    ensures Run(s, steps).hasErrored
    decreases |steps|
  {
    if steps != [] {
      ErrorIsSticky(Apply(s, steps[0]), steps[1..]);
    }
  }

  /** The error flag is set after a run exactly when it was set before or some step set it. */
  lemma {:induction false} ErrorFlagAfterRun(s: JobState, steps: seq<Step>)
    ensures Run(s, steps).hasErrored <==> s.hasErrored || ErrorHit in steps
    decreases |steps|
  {
    if steps != [] {
      ErrorFlagAfterRun(Apply(s, steps[0]), steps[1..]);
      assert steps == [steps[0]] + steps[1..];
    }
  }

  /** The start time after a run is that of its last start step, or the old one if it has none. */
  lemma {:induction false} StartAfterRun(s: JobState, steps: seq<Step>)
    ensures Run(s, steps).start ==
      if LastStart(steps).Some? then StartedAt(LastStart(steps).value) else s.start
    ensures LastStart(steps).None? <==> forall i :: 0 <= i < |steps| ==> !steps[i].StartAt?
    decreases |steps|
  {
    if steps != [] {
      StartAfterRun(Apply(s, steps[0]), steps[1..]);
      assert forall i :: 1 <= i < |steps| ==> steps[i] == steps[1..][i - 1];
    }
  }

  /**
   * Once an error has been injected, every later status query answers
   * "error", whatever steps follow and whenever the clock is read: a new
   * start does not clear the flag.
   */
  lemma ErrorIsPermanent(s: JobState, steps: seq<Step>, first: real, second: real, timing: Timing)
    requires s.hasErrored
    ensures GetStatus(Run(s, steps), first, second, timing) == Error
  {
    ErrorIsSticky(s, steps);
  }

  /** From the server's initial state, a run with no start step always answers "error". */
  lemma NeverStartedIsError(steps: seq<Step>, first: real, second: real, timing: Timing)
    requires forall i :: 0 <= i < |steps| ==> !steps[i].StartAt?
    ensures GetStatus(Run(Initial(), steps), first, second, timing) == Error
  {
    StartAfterRun(Initial(), steps);
  }

  /**
   * From the server's initial state, a run answers "pending" or "completed"
   * only if it holds a start step and no error step; the start time used is
   * that of the last start step.
   */
  lemma HealthyAnswerNeedsStartAndNoError(steps: seq<Step>, first: real, second: real, timing: Timing)
    requires GetStatus(Run(Initial(), steps), first, second, timing) != Error
    ensures ErrorHit !in steps
    ensures LastStart(steps).Some?
    ensures Run(Initial(), steps).start == StartedAt(LastStart(steps).value)
  {
    ErrorFlagAfterRun(Initial(), steps);
    StartAfterRun(Initial(), steps);
  }

  /**
   * A restart changes only the start time: the state after a start step
   * keeps the error flag of the state before it.
   */
  lemma RestartKeepsErrorFlag(s: JobState, before: seq<Step>, now: real, after: seq<Step>)
    requires Run(s, before).hasErrored
    ensures Run(s, before + [StartAt(now)] + after).hasErrored
  {
    RunAppend(s, before + [StartAt(now)], after);
    RunAppend(s, before, [StartAt(now)]);
    ErrorIsSticky(Run(s, before + [StartAt(now)]), after);
  }

  /** Running two step sequences one after the other is running their concatenation. */
  lemma {:induction false} RunAppend(s: JobState, xs: seq<Step>, ys: seq<Step>)
    ensures Run(s, xs + ys) == Run(Run(s, xs), ys)
    decreases |xs|
  {
    if xs == [] {
      assert xs + ys == ys;
    } else {
      assert (xs + ys)[1..] == xs[1..] + ys;
      RunAppend(Apply(s, xs[0]), xs[1..], ys);
    }
  }
}
