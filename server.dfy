/**
 * The job simulator of the status server: a job that is started once (or
 * restarted), a background error-injection task that may set an error flag,
 * and the status query that classifies the job as "error", "pending" or
 * "completed" from its state and the clock.
 *
 * Clock readings are `real` timestamps passed in as parameters; the job's
 * timing configuration (TIME_MINIMUM, TIME_RANGE) is a `Timing` value.
 */
module Server {

  /** When the job was started; `NotStarted` stands for the `-1` sentinel. */
  datatype Start = NotStarted | StartedAt(time: real)

  /** A snapshot of the job's two pieces of state. */
  datatype JobState = JobState(start: Start, hasErrored: bool)

  /** TIME_MINIMUM and TIME_RANGE of the server's configuration. */
  datatype Timing = Timing(minimum: real, range: real)

  /** The three answers of the status route. */
  datatype JobStatus = Error | Pending | Completed

  /** The job state the server starts from: not started, no error. */
  function Initial(): (s: JobState)
    ensures !s.start.StartedAt? && !s.hasErrored
  {
    JobState(NotStarted, false)
  }

  /** The string placed in the "result" field of the JSON reply. */
  function ResultString(r: JobStatus): (w: string)
    ensures w in {"error", "pending", "completed"}
    ensures w == "error" <==> r == Error
    ensures w == "pending" <==> r == Pending
    ensures w == "completed" <==> r == Completed
  {
    match r
    case Error => "error"
    case Pending => "pending"
    case Completed => "completed"
  }

  /**
   * The status query. `get_status` reads the clock twice, once for the
   * "pending" test and once for the "completed" test; `first` and `second`
   * are those two readings. The branches are tried in order; whatever
   * falls through every test is an error.
   *
   * The ensures clauses give each answer's condition on its own, with the
   * precedence of the chain made explicit.
   */
  function GetStatus(s: JobState, first: real, second: real, timing: Timing): (r: JobStatus)
    ensures r == Pending <==>
      s.start.StartedAt? && !s.hasErrored && first - s.start.time < timing.minimum
    ensures r == Completed <==>
      s.start.StartedAt? && !s.hasErrored && first - s.start.time >= timing.minimum &&
      second - s.start.time >= timing.minimum + timing.range
    ensures r == Error <==>
      !s.start.StartedAt? || s.hasErrored ||
      (first - s.start.time >= timing.minimum && second - s.start.time < timing.minimum + timing.range)
  {
    match s.start
    case NotStarted => Error
    case StartedAt(t) =>
      if s.hasErrored then Error
      else if first - t < timing.minimum then Pending
      else if second - t >= timing.minimum + timing.range then Completed
      else Error
  }

  /** The status when both clock readings give the same instant. */
  function StatusAt(s: JobState, now: real, timing: Timing): JobStatus
  {
    GetStatus(s, now, now, timing)
  }

  /** Effect of starting the job: the start time is the current time; the error flag is kept. */
  function Started(s: JobState, now: real): (s': JobState)
    ensures s'.start == StartedAt(now) && s'.hasErrored == s.hasErrored
  {
    s.(start := StartedAt(now))
  }

  /** Effect of a successful error trial: the flag is set; the start time is kept. */
  function Errored(s: JobState): (s': JobState)
    ensures s'.hasErrored && s'.start == s.start
  {
    s.(hasErrored := true)
  }

  /** True when some random draw falls below the error probability. */
  predicate AnyTrialHits(draws: seq<real>, probability: real)
  {
    exists i :: 0 <= i < |draws| && draws[i] < probability
  }

  /**
   * The job state held by the server process: the module globals
   * `start_time` and `has_errored`.
   */
  class Job {
    var start: Start
    var hasErrored: bool

    function State(): JobState
      reads this
    {
      JobState(start, hasErrored)
    }

    /** The state at server start-up. */
    constructor ()
      ensures State() == Initial()
    {
      start := NotStarted;
      hasErrored := false;
    }

    /** The first statement of the job task: record the current time. */
    method Start(now: real)
      modifies this`start
      ensures State() == Started(old(State()), now)
    {
      start := StartedAt(now);
    }

    /** A successful error trial of the job task. Nothing clears the flag again. */
    method InjectError()
      modifies this`hasErrored
      ensures State() == Errored(old(State()))
    {
      hasErrored := true;
    }

    /**
     * The job task run alone: record the start time, then one loop iteration
     * per random draw in `draws`, each setting the error flag when the draw
     * is below `probability`. Each draw lies in [0, 1), as `random.random()`
     * returns. `job_task` loops forever; `draws` is the prefix of its draws
     * seen so far.
     */
    method JobTask(now: real, draws: seq<real>, probability: real)
      requires forall i :: 0 <= i < |draws| ==> 0.0 <= draws[i] < 1.0
      modifies this
      ensures start == StartedAt(now)
      ensures hasErrored == (old(hasErrored) || AnyTrialHits(draws, probability))
    {
      Start(now);
      var i := 0;
      while i < |draws|
        invariant 0 <= i <= |draws|
        invariant start == StartedAt(now)
        invariant hasErrored == (old(hasErrored) || AnyTrialHits(draws[..i], probability))
      {
        if draws[i] < probability {
          InjectError();
        }
        assert draws[..i + 1] == draws[..i] + [draws[i]];
        i := i + 1;
      }
      assert draws[..i] == draws;
    }

    /**
     * The status route, answered from the current state and two clock
     * readings: the answer and the string its JSON reply carries.
     */
    method Query(first: real, second: real, timing: Timing) returns (r: JobStatus, result: string)
      ensures r == GetStatus(State(), first, second, timing)
      ensures result == ResultString(r)
    {
      r := GetStatus(State(), first, second, timing);
      result := ResultString(r);
    }
  }

  /** Before any start the answer is an error, whatever the flag or the clock. */
  lemma NotStartedIsError(s: JobState, first: real, second: real, timing: Timing)
    requires s.start == NotStarted
    ensures GetStatus(s, first, second, timing) == Error
  {
  }

  /** An error takes precedence over pending and completed, at every query time. */
  lemma ErroredIsError(s: JobState, first: real, second: real, timing: Timing)
    requires s.hasErrored
    ensures GetStatus(s, first, second, timing) == Error
  {
  }

  /** Between TIME_MINIMUM and TIME_MINIMUM + TIME_RANGE the chain falls through to an error. */
  lemma WindowIsError(s: JobState, now: real, timing: Timing)
    requires s.start.StartedAt? && !s.hasErrored
    requires timing.minimum <= now - s.start.time < timing.minimum + timing.range
    ensures StatusAt(s, now, timing) == Error
  {
  }

  /**
   * With a non-positive TIME_RANGE, a clock that does not go back between its
   * two readings and no start landing during the query (one snapshot of the
   * state), a started job without error is never reported as an error.
   * `RestartDuringQueryCanReportError` shows that the last condition is needed.
   */
  lemma NoWindowWhenRangeNonPositive(s: JobState, first: real, second: real, timing: Timing)
    requires s.start.StartedAt? && !s.hasErrored
    requires timing.range <= 0.0 && first <= second
    ensures GetStatus(s, first, second, timing) in {Pending, Completed}
  {
  }

  /** A "completed" answer stays "completed" at any later pair of readings. */
  lemma CompletedIsStable(s: JobState, first: real, second: real, first': real, second': real, timing: Timing)
    requires GetStatus(s, first, second, timing) == Completed
    requires first <= first' && second <= second'
    ensures GetStatus(s, first', second', timing) == Completed
  {
  }

  /** A "pending" answer was also "pending" at every earlier reading of the first clock. */
  lemma PendingBeforePending(s: JobState, first: real, second: real, first': real, second': real, timing: Timing)
    requires GetStatus(s, first, second, timing) == Pending
    requires first' <= first
    ensures GetStatus(s, first', second', timing) == Pending
  {
  }

  /** Right after a start, with no error and a positive TIME_MINIMUM, the job is pending. */
  lemma FreshStartIsPending(s: JobState, now: real, timing: Timing)
    requires !s.hasErrored && timing.minimum > 0.0
    ensures StatusAt(Started(s, now), now, timing) == Pending
  {
  }

  /** With an error probability of zero or below, no draw in [0, 1) is a hit. */
  lemma NoHitWithoutProbability(draws: seq<real>, probability: real)
    requires forall i :: 0 <= i < |draws| ==> 0.0 <= draws[i] < 1.0
    requires probability <= 0.0
    ensures !AnyTrialHits(draws, probability)
  {
  }

  /** With an error probability of one or more, every draw in [0, 1) is a hit. */
  lemma EveryDrawHitsAtFullProbability(draws: seq<real>, probability: real)
    requires forall i :: 0 <= i < |draws| ==> 0.0 <= draws[i] < 1.0
    requires probability >= 1.0 && |draws| > 0
    ensures forall i :: 0 <= i < |draws| ==> draws[i] < probability
    ensures AnyTrialHits(draws, probability)
  {
    assert draws[0] < probability;
  }

  /**
   * The status route when a job task may assign the start time while the
   * query runs: `get_status` reads the start time again at each test, so the
   * "pending" test sees `startForPending` and the "completed" test sees
   * `startForCompleted`. `s` is the state seen by the first two tests; once
   * started, a job never returns to "not started".
   */
  function StatusDuringRestart(s: JobState, startForPending: real, startForCompleted: real,
                               first: real, second: real, timing: Timing): JobStatus
  {
    match s.start
    case NotStarted => Error
    case StartedAt(_) =>
      if s.hasErrored then Error
      else if first - startForPending < timing.minimum then Pending
      else if second - startForCompleted >= timing.minimum + timing.range then Completed
      else Error
  }

  /**
   * A start landing between the two tests is the same as one snapshot whose
   * start time is the one seen by the "pending" test, with the second clock
   * reading shifted by the change of start time. So `GetStatus`, whose two
   * readings are unordered, covers that race.
   */
  lemma RestartDuringQueryIsShiftedReading(s: JobState, startForPending: real, startForCompleted: real,
                                           first: real, second: real, timing: Timing)
    requires s.start.StartedAt?
    ensures StatusDuringRestart(s, startForPending, startForCompleted, first, second, timing) ==
      GetStatus(JobState(StartedAt(startForPending), s.hasErrored),
                first, second - startForCompleted + startForPending, timing)
  {
  }

  /**
   * With TIME_MINIMUM 5, TIME_RANGE 0 and a clock that only moves forward, a
   * restart during the query still yields "error": started at 0, the
   * "pending" test reads the clock at 10; a restart at 10.5 lands; the
   * "completed" test reads the clock at 11 and sees an elapsed time of 0.5.
   */
  lemma RestartDuringQueryCanReportError()
    ensures StatusDuringRestart(JobState(StartedAt(0.0), false), 0.0, 10.5, 10.0, 11.0, Timing(5.0, 0.0)) == Error
    ensures StatusAt(JobState(StartedAt(0.0), false), 10.0, Timing(5.0, 0.0)) == Completed
  {
  }
}
