# Trial-phase scheduler of the exoskeleton boot controllers

This project models the scheduler that sequences a timed walking trial on a
pair of ankle exoskeleton boots. The model covers the `Coadaptive` and
`FixedCollins` controller classes. It states and proves what the scheduler
does with each poll from the control loop.

- **Construction.** A controller stores the user's mass and starts its clock.
  It sets the feedback mode to -1. It then sends the fixed Zhang/Collins
  torque profile to the left boot and then to the right boot.
- **`check_time`.** A trial is a list of segment durations in minutes. They
  are converted to seconds and summed cumulatively into end boundaries
  T_0 .. T_{n-1}. The active segment is the first one whose boundary has not
  been passed. The result is -1 once every boundary has been passed. A
  restart first moves the start time to the current clock reading.
- **`trial_handler`.** It records the feedback mode for the external audio
  program and has both boots read their data. It then runs the profile on
  both boots when the torque flag is 1, and zeroes both currents otherwise.
- **The three protocols (free exploration, guided exploration, testing).**
  Each one checks the time, clears both gait estimates on a restart, then
  dispatches the active segment. When the trial has ended, it zeroes both
  boots and reports `False`.

The model works as follows:

- The clock is a `now: real` parameter, in seconds.
- The two boots are one ordered trace of the commands sent to them (`sent`).
- The controllers are classes whose methods update `startTime`,
  `feedbackMode` and `sent`.
- The selection rule is a set of pure functions in module `Schedule`:
  `ToSeconds`, `CumSum` (the cumulative sum), `TimePassed`, `NotPassed` (the
  list comprehension) and `SelectSegment`.
- Every controller keeps the trace invariant `WellFormedTrace`. The two
  profile initialisations come first and are never repeated. Every profile
  run is preceded by a read on the same boot.

Three consequences of the code as written are worth stating:

- **The upper boundary is inclusive.** The test at line 73 of
  `controller_coadaptive.py` is `elapsed > T_i`, so an elapsed time equal to
  T_i still belongs to segment i; a strict `<` in its place would put it in
  segment i+1. In the guided plan, 300 s is still the metronome segment, and
  the trial ends only after 600 s.
- **Nothing is validated.** Durations and profile constants are not checked.
  A poll without a prior restart is not refused: it measures the elapsed
  time from construction.
- **Only guided exploration runs.** `free_training` and `testing` pass a bare
  number (10 or 30) where `check_time` iterates over a list. That raises
  `TypeError` before any boot command is sent or any field changes. Both
  methods are therefore modelled as always raising (`Failure(TypeError)`),
  not as working single-segment trials.

## Model

| member | source | states |
|---|---|---|
| `Boots.ZhangCollins` | Code/controller_coadaptive.py:38-51 | the profile carries the user's mass; ramp-start ≤ onset ≤ peak ≤ stop lie within 0..100 percent of the gait cycle; both torques are positive |
| `Boots.BlocksAreWellFormed` | Code/controller_coadaptive.py:92-103 | the clear, zero and handler command blocks configure no profile and read on a boot before running its profile |
| `Boots.AppendKeepsWellFormed` | Code/controller_coadaptive.py:46-51 | appending such a block keeps a trace well formed: initialisations only at the start, a read before every run |
| `Schedule.CumSum` | Code/controller_coadaptive.py:66 | one running total per element, so a trial has as many boundaries as segments (the value of each total is stated by `CumSumEntry`) |
| `Schedule.CumSumEntry` | Code/controller_coadaptive.py:66 | entry i of the cumulative sum is the sum of the first i+1 elements |
| `Schedule.TimePoints` | Code/controller_coadaptive.py:65-66 | one end boundary per segment (its value in minutes is stated by `TimePointsInMinutes`) |
| `Schedule.NotPassed` | Code/controller_coadaptive.py:74 | every listed index is in range and not passed; the list is empty iff every boundary is passed; every index before the first listed one is passed |
| `Schedule.NotPassedComplete` | Code/controller_coadaptive.py:74 | every index whose boundary is not passed is listed |
| `Schedule.NotPassedIncreasing` | Code/controller_coadaptive.py:74 | the listed indices are strictly increasing, as `enumerate` produces them |
| `Schedule.SelectSegment` | Code/controller_coadaptive.py:73-79 | the result is -1 or a valid index; it is -1 iff every boundary is passed; otherwise it is the least index whose boundary is at or after the elapsed time |
| `Schedule.SelectedSegment` | Code/controller_coadaptive.py:65-79 | the result is -1 or the index of a segment, and a selected segment's boundary is at or after the elapsed time |
| `Schedule.SelectedInMinutes` | Code/controller_coadaptive.py:65-79 | in minutes: the result is -1 iff every running total of the durations, times 60, is below the elapsed time; otherwise it is the least i whose total over the first i+1 durations, times 60, is at least the elapsed time |
| `Schedule.SumScaled` | Code/controller_coadaptive.py:65-66 | summing the durations in seconds gives 60 times the sum in minutes |
| `Schedule.TimePointsInMinutes` | Code/controller_coadaptive.py:65-66 | boundary T_i equals 60 times the sum of the first i+1 durations in minutes |
| `Schedule.TimePointsStep` | Code/controller_coadaptive.py:66 | T_{i+1} = T_i + 60 × duration i+1 |
| `Schedule.TimePointsNondecreasing` | Code/controller_coadaptive.py:65-66 | with no negative duration, i ≤ j implies T_i ≤ T_j |
| `Schedule.TimePointsIncreasing` | Code/controller_coadaptive.py:65-66 | with positive durations, i < j implies T_i < T_j |
| `Schedule.BoundaryIsInclusive` | Code/controller_coadaptive.py:73-79 | with positive durations, an elapsed time of exactly T_i selects segment i (so T_{n-1} still selects n-1, not -1) |
| `Schedule.EndedIffPastTotal` | Code/controller_coadaptive.py:73-79 | with non-negative durations, the trial has ended iff the elapsed time is strictly greater than the last boundary |
| `Schedule.EmptyTrialHasEnded` | Code/controller_coadaptive.py:76-79 | an empty duration list always gives -1 |
| `Schedule.SelectionMonotone` | Code/controller_coadaptive.py:66-79 | for any durations, a later elapsed time never selects an earlier segment, and -1 stays -1 |
| `Schedule.RestartSelectsFirstSegment` | Code/controller_coadaptive.py:68-79 | with a non-empty list of non-negative durations, elapsed time 0 (right after a restart) selects segment 0 |
| `Schedule.GuidedPlanSchedule` | Code/controller_coadaptive.py:148-152 | for durations [5, 5]: segment 0 up to and including 300 s, segment 1 up to and including 600 s, -1 after |
| `CoadaptiveController.Coadaptive.constructor` | Code/controller_coadaptive.py:31-51 | mass stored, start time = now, feedback mode = -1, trace = profile init on left then right with identical parameters; trace well formed |
| `CoadaptiveController.Coadaptive.CheckTime` | Code/controller_coadaptive.py:53-81 | a bare number raises TypeError with the start time untouched; otherwise the start time becomes now iff restarting, and the result is the selected segment for now − start time |
| `CoadaptiveController.Coadaptive.TrialHandler` | Code/controller_coadaptive.py:83-103 | feedback mode set to the argument; start time unchanged; the trace grows by read left, read right, then run-profile on both iff the torque flag is 1, else zero-current on both |
| `CoadaptiveController.Coadaptive.DispatchOrStop` | Code/controller_coadaptive.py:158-164 | index -1 zeroes both boots, keeps the feedback mode and returns False; otherwise the label then the torque flag are looked up, the first failing lookup raises with nothing sent, and on success the segment is dispatched and True returned |
| `CoadaptiveController.Coadaptive.RunProtocol` | Code/controller_coadaptive.py:151-166 | check time first; clear-gait on both boots iff restarting, after the time check and before dispatch; an active segment dispatches its label and torque flag and returns True; -1 zeroes both boots, keeps the feedback mode and returns False; an indexing error propagates |
| `CoadaptiveController.Coadaptive.FreeTraining` | Code/controller_coadaptive.py:105-134 | always raises TypeError; start time, feedback mode and trace unchanged |
| `CoadaptiveController.Coadaptive.GuidedTraining` | Code/controller_coadaptive.py:136-166 | up to 300 s: running, mode 0, torque on; up to 600 s: running, mode 1, torque on; after that: ended, mode unchanged, both boots zeroed; a restart always runs segment 0 |
| `CoadaptiveController.Coadaptive.Testing` | Code/controller_coadaptive.py:168-197 | always raises TypeError; start time, feedback mode and trace unchanged |
| `FixedCollinsController.FixedCollins.constructor` | Code/controller_fixedcollins.py:31-51 | mass stored, start time = now, feedback mode = -1, trace = profile init on left then right with identical Zhang/Collins parameters |
| `FixedCollinsController.FixedCollins.CheckTime` | Code/controller_fixedcollins.py:53-81 | same selection as the co-adaptive controller: start time reset iff restarting, result the first not-passed segment or -1 |
| `FixedCollinsController.FixedCollins.TrialHandler` | Code/controller_fixedcollins.py:83-96 | feedback mode set to the argument; start time unchanged; the new trace begins with the old trace followed by read left, then read right (what the torque decision sends after that is left open) |

## Left out

- The monotonic clock is a parameter. One `now` stands for both clock reads in `check_time` (the restart and the measurement). After a restart the model's elapsed time is therefore exactly 0, where the code's is a tiny non-negative amount.
- The boot driver internals are not modelled: the torque-curve shape, and what reading data, running the profile, zeroing current and clearing the gait estimate do inside a boot. Only which commands are sent, and in what order, is modelled. A failing boot call, which the code would propagate, is not modelled.
- The EMG handle is stored but never used, so it is not modelled. Audio feedback rendering happens in an external program and is not modelled.
- `numpy` floating-point arithmetic is replaced by exact `real` arithmetic. The values are only multiplied by 60, summed and compared.
- Python values other than numbers and lists of numbers are not modelled. For example, strings passed as durations would make `x * 60` behave differently.
- Working 10-minute and 30-minute single-segment protocols are not modelled, because the code never runs them.
- A co-adaptive control law is not modelled, because the code has none.
- FixedCollinsController.FixedCollins.TrialHandler: models the handler only up to the torque decision at line 96. The text of `controller_fixedcollins.py` after that line is not part of this model.
- FixedCollinsController.FixedCollins: its methods after `trial_handler` are not part of this model, for the same reason.
