# StatusQuery job simulator, in Dafny

This project models the job simulator of the StatusQuery status server:

- the job's state: a start time that is "not started" until a job task records
  the clock, and an error flag;
- the job task that a start request spawns: it records the start time, then
  runs random error trials forever and sets the error flag on a hit;
- the status route: an ordered chain of tests over that state and the clock.
  The chain answers `"error"`, `"pending"` or `"completed"`.

`server.dfy` (module `Server`) holds the state as a class `Job`. Its methods
`Start`, `InjectError`, `JobTask` and `Query` work on that class. The pure
functions `GetStatus`, `Started` and `Errored` specify those methods. Lemmas
state the precedence of the status chain.

`trace.dfy` (module `Trace`) follows the shared state along any interleaving
of the steps that concurrent job tasks can take. The proved properties include
these: the error flag never clears, a restart changes only the start time, and
an answer other than `"error"` needs a start and no error.

Modelling choices:

- Clock readings are `real` timestamps passed in as parameters.
  `TIME_MINIMUM` and `TIME_RANGE` form a `Timing` parameter.
- The status route reads the clock twice: once for the "pending" test and once
  for the "completed" test. `GetStatus` takes both readings, `first` and
  `second`, and one snapshot of the job state. It assumes no order between the
  readings, for two reasons. The wall clock may step back. And a start landing
  between the two tests changes the start time that the second test reads,
  which is the same as shifting the second reading
  (`Server.RestartDuringQueryIsShiftedReading`). Lemmas that need a single
  instant use `StatusAt`, where both readings are equal. Lemmas that need a
  clock that does not go back say so in their `requires` (`first <= second`).
  Every lemma over `GetStatus` works on one snapshot of the job state, so it
  assumes no start during the query.
- The `-1` "not started" sentinel is the `NotStarted` constructor. The two
  differ only if a clock reading were exactly `-1`.
- The random draws of the job task are a parameter: a sequence of draws for
  `JobTask`, and an `ErrorHit` step in the traces.

Behaviour of the code as written that a reader might not expect:

- A new start does not reset the error flag. `job_task` assigns only the start
  time, so after one error every later status query answers `"error"`
  (`Trace.ErrorIsPermanent`, `Trace.RestartKeepsErrorFlag`).
- With an elapsed time in [`TIME_MINIMUM`, `TIME_MINIMUM + TIME_RANGE`),
  `get_status` passes none of its tests and falls through to its final
  `"error"` (`Server.WindowIsError`).
- A start landing between the "pending" test and the "completed" test can make
  the route answer `"error"` even with `TIME_RANGE` 0 and a clock that only
  moves forward (`Server.RestartDuringQueryCanReportError`).

## Model

| member | source | states |
|---|---|---|
| Server.Initial | server/server.py:19-21 | the server starts with the job not started and the error flag clear |
| Server.ResultString | server/server.py:45-53 | the reply's result field is exactly one of "error", "pending", "completed", and each string stands for one answer |
| Server.GetStatus | server/server.py:43-53 | each answer's condition on its own: "pending" iff started, no error and first elapsed time below the minimum; "completed" iff started, no error, first elapsed time at least the minimum and second elapsed time at least minimum plus range; "error" iff not started, errored, or in the window between them |
| Server.Started | server/server.py:28 | a start sets the start time to the current time and keeps the error flag |
| Server.Errored | server/server.py:31-32 | a successful trial sets the error flag and keeps the start time |
| Server.Job.constructor | server/server.py:19-21 | the job object begins in the initial state |
| Server.Job.Start | server/server.py:28 | only the start time changes, to the current time |
| Server.Job.InjectError | server/server.py:32 | only the error flag changes, to set |
| Server.Job.JobTask | server/server.py:24-32 | for draws in [0, 1), after the task's start and its trials so far, the start time is the current time and the flag is set iff it was set before or some draw fell below the error probability |
| Server.Job.Query | server/server.py:42-53 | the status route answers what GetStatus gives for the current state and the two clock readings, and its reply carries that answer's result string |
| Server.NotStartedIsError | server/server.py:45-46 | before any start the answer is "error", whatever the flag and the clock |
| Server.ErroredIsError | server/server.py:47-48 | an error wins over pending and completed at every query time |
| Server.WindowIsError | server/server.py:49-53 | a started job without error whose elapsed time lies in [minimum, minimum + range) is reported as "error" |
| Server.NoWindowWhenRangeNonPositive | server/server.py:49-53 | with range at most zero, a clock that does not go back and no start during the query (one snapshot of the state), a started job without error is only ever "pending" or "completed" |
| Server.CompletedIsStable | server/server.py:51-52 | "completed" stays "completed" at any later clock readings |
| Server.PendingBeforePending | server/server.py:49-50 | "pending" was also "pending" at any earlier first reading |
| Server.FreshStartIsPending | server/server.py:28-50 | right after a start, with no error and a positive minimum, the job is "pending" |
| Server.NoHitWithoutProbability | server/server.py:31-32 | with an error probability of zero or below, no draw of `random.random()` sets the flag |
| Server.EveryDrawHitsAtFullProbability | server/server.py:31-32 | with an error probability of one or more, every draw is a hit, so a task with at least one draw sets the flag |
| Server.RestartDuringQueryIsShiftedReading | server/server.py:45-53 | a start landing between the "pending" and "completed" tests gives the answer of one snapshot with the second clock reading shifted by the change of start time |
| Server.RestartDuringQueryCanReportError | server/server.py:28-53 | with minimum 5 and range 0, a start at 0, readings at 10 and 11 and a restart at 10.5 between them, the route answers "error" although the snapshot at 10 is "completed" |
| Trace.LastStart | server/server.py:28-38 | the start time picked from a trace is recorded by a start step that no later start step follows, and there is none only when the trace has no start step, since each task's assignment of the start time overwrites earlier ones |
| Trace.ErrorIsSticky | server/server.py:29-32 | once set, the error flag survives every later step, restarts included |
| Trace.ErrorFlagAfterRun | server/server.py:20-32 | after any interleaving of steps, the flag is set iff it was set before or some error step occurred |
| Trace.StartAfterRun | server/server.py:21-38 | after any interleaving of steps, the start time is that of the last start step, or unchanged if there was none |
| Trace.ErrorIsPermanent | server/server.py:28-53 | once errored, every later query answers "error", whatever steps follow |
| Trace.NeverStartedIsError | server/server.py:21-46 | from the initial state, a trace without a start step always answers "error" |
| Trace.HealthyAnswerNeedsStartAndNoError | server/server.py:20-53 | from the initial state, an answer other than "error" implies a start step, no error step, and the start time of the last start |
| Trace.RestartKeepsErrorFlag | server/server.py:28-38 | a restart in the middle of a trace does not clear an error flag set before it |

## Left out

- The Flask application, its routes, JSON encoding and configuration loading
  (server/server.py:1-16, 35-39, 56-59) are not modelled. The configuration
  values become parameters. `ERROR_FREQUENCY` only sets the sleep between
  trials, so it has no counterpart.
- Threads, `time.sleep` and the endless loop of the job task are not modelled
  as such. `Server.Job.JobTask` covers one task run alone over a finite prefix
  of its draws. `Trace` covers any interleaving of the steps of any number of
  tasks, but not their timing.
- The distribution of the random draws is not modelled: a draw is any `real`
  in [0, 1), and a hit is a draw below the error probability.
- A status query works on one snapshot of `start_time` and `has_errored`.
  A start landing between the tests of server/server.py:49 and :51 is
  covered only through `GetStatus`'s unordered clock readings, as
  `Server.StatusDuringRestart` and its lemmas show. An error set after the
  flag test at :47 is covered as a snapshot taken before it.
- Floating-point clock arithmetic is not modelled: timestamps are exact `real`s.
- The seeding of the random generator at start-up is not modelled.
- client/client.py defines `VideoClient`, a thin HTTP wrapper with no logic
  worth stating; it is not modelled.
- tests/test_integration.py imports `StatusClient` (with its `WaitArgs`) from
  `client.client`, which client/client.py does not define. The test calls its
  `submit_job`, `wait_complete` and `stats`; `StatusClient` is not part of this
  model.
- server.py at the repository root returns a random choice of the three
  statuses; the only property it has is that ResultString's three values cover it.
