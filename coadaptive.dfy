/** The co-adaptive controller: configures both boots with the fixed
    Zhang/Collins profile, keeps the trial's start time and the active
    feedback mode, and exposes three trial protocols that an external control
    loop polls once per tick.

    The clock is a parameter (`now`); the boots are the ordered trace `sent`
    of the commands issued to them. Despite its name the controller applies
    the fixed profile only: no adaptive law exists in it.
 */
module CoadaptiveController {
  import opened PyValues
  import opened Boots
  import opened Schedule

  /** The label and torque flag of segment `idx`, looked up in that order,
      as `feedback_mode[current_idx]` then `use_torque[current_idx]`. */
  function SegmentSettings(feedbackModes: Arg<int>, useTorques: Arg<int>, idx: nat): Result<(int, int)> {
    match Subscript(feedbackModes, idx)
    case Failure(e) => Failure(e)
    case Success(fb) =>
      match Subscript(useTorques, idx)
      case Failure(e) => Failure(e)
      case Success(tq) => Success((fb, tq))
  }

  class Coadaptive {
    const userMass: real
    /** Clock reading at which the current trial started. */
    var startTime: real
    /** Feedback mode of the last dispatched segment: -1 none, 0 metronome,
        1 strategy feedback. Read by an external audio program. */
    var feedbackMode: int
    /** Every command issued to the two boots so far, in order. */
    var sent: seq<Command>

    ghost predicate Valid()
      reads this
    {
      WellFormedTrace(sent, userMass)
    }

    /** Stores the user's mass, starts the clock, sets the feedback mode to
        -1 and configures the profile on the left boot, then the right. */
    constructor (userMass: real, now: real)
      ensures Valid()
      ensures this.userMass == userMass && startTime == now && feedbackMode == -1
      ensures sent == InitCommands(userMass)
    {
      this.userMass := userMass;
      startTime := now;
      feedbackMode := -1;
      sent := [InitCollinsProfile(Left, ZhangCollins(userMass))];
      sent := sent + [InitCollinsProfile(Right, ZhangCollins(userMass))];
    }

    /** Index of the active segment of a trial with the given durations in
        minutes, or -1 once the trial has ended. A restart moves the start
        time to `now` first. A bare number where the list is expected raises
        before the start time is touched. */
    method CheckTime(segmentMin: Arg<real>, restartTrial: bool, now: real) returns (currentIdx: Result<int>)
      modifies this`startTime
      ensures segmentMin.Scalar? ==> currentIdx == Failure(TypeError) && startTime == old(startTime)
      ensures segmentMin.List? ==> startTime == (if restartTrial then now else old(startTime))
      ensures segmentMin.List? ==> currentIdx == Success(SelectedSegment(segmentMin.items, now - startTime))
    {
      if segmentMin.Scalar? {
        return Failure(TypeError);
      }
      var timePoints := TimePoints(segmentMin.items);
      if restartTrial {
        startTime := now;
      }
      var timeElapsed := now - startTime;
      currentIdx := Success(SelectSegment(timePoints, timeElapsed));
    }

    /** Runs one segment: records the feedback mode, has both boots read
        their data, then runs the profile on both when `useTorque` is 1 and
        zeroes both currents otherwise. */
    method TrialHandler(feedbackMode: int, useTorque: int)
      requires Valid()
      modifies this`feedbackMode, this`sent
      ensures Valid()
      ensures this.feedbackMode == feedbackMode && startTime == old(startTime)
      ensures sent == old(sent) + HandlerCommands(useTorque)
    {
      BlocksAreWellFormed(false, useTorque);
      AppendKeepsWellFormed(sent, userMass, HandlerCommands(useTorque));
      this.feedbackMode := feedbackMode;
      sent := sent + [ReadData(Left)];
      sent := sent + [ReadData(Right)];
      if useTorque == 1 {
        sent := sent + [RunCollinsProfile(Left, true)];
        sent := sent + [RunCollinsProfile(Right, true)];
      } else {
        sent := sent + [ZeroCurrent(Left)];
        sent := sent + [ZeroCurrent(Right)];
      }
    }

    /** The end of a protocol poll, once the time has been checked: an
        active segment is dispatched with its label and torque flag, looked
        up in that order; an ended trial zeroes both boots. */
    method DispatchOrStop(currentIdx: int, feedbackModes: Arg<int>, useTorques: Arg<int>)
      returns (trialRunning: Result<bool>)
      requires Valid()
      requires -1 <= currentIdx
      modifies this`feedbackMode, this`sent
      ensures Valid()
      ensures currentIdx == -1 ==>
                && trialRunning == Success(false)
                && feedbackMode == old(feedbackMode)
                && sent == old(sent) + ZeroCommands()
      ensures currentIdx != -1 && SegmentSettings(feedbackModes, useTorques, currentIdx).Failure? ==>
                && trialRunning == Failure(SegmentSettings(feedbackModes, useTorques, currentIdx).error)
                && feedbackMode == old(feedbackMode)
                && sent == old(sent)
      ensures currentIdx != -1 && SegmentSettings(feedbackModes, useTorques, currentIdx).Success? ==>
                && trialRunning == Success(true)
                && feedbackMode == SegmentSettings(feedbackModes, useTorques, currentIdx).value.0
                && sent == old(sent) + HandlerCommands(SegmentSettings(feedbackModes, useTorques, currentIdx).value.1)
    {
      if currentIdx != -1 {
        var mode := Subscript(feedbackModes, currentIdx);
        if mode.Failure? {
          return Failure(mode.error);
        }
        var torque := Subscript(useTorques, currentIdx);
        if torque.Failure? {
          return Failure(torque.error);
        }
        TrialHandler(mode.value, torque.value);
        trialRunning := Success(true);
      } else {
        BlocksAreWellFormed(false, 0);
        AppendKeepsWellFormed(sent, userMass, ZeroCommands());
        sent := sent + [ZeroCurrent(Left)];
        sent := sent + [ZeroCurrent(Right)];
        trialRunning := Success(false);
      }
    }

    /** The body the three protocols share: check the time, clear both gait
        estimates on a restart (after the time check, before anything else is
        sent), then dispatch the active segment or stop. */
    method RunProtocol(segmentMin: Arg<real>, feedbackModes: Arg<int>, useTorques: Arg<int>,
                       restartTrial: bool, now: real) returns (trialRunning: Result<bool>)
      requires Valid()
      modifies this
      ensures Valid()
      ensures segmentMin.Scalar? ==>
                && trialRunning == Failure(TypeError)
                && startTime == old(startTime) && feedbackMode == old(feedbackMode) && sent == old(sent)
      ensures segmentMin.List? ==> startTime == (if restartTrial then now else old(startTime))
      ensures segmentMin.List? && SelectedSegment(segmentMin.items, now - startTime) == -1 ==>
                && trialRunning == Success(false)
                && feedbackMode == old(feedbackMode)
                && sent == old(sent) + ClearCommands(restartTrial) + ZeroCommands()
      ensures segmentMin.List? && SelectedSegment(segmentMin.items, now - startTime) != -1 ==>
                var settings := SegmentSettings(feedbackModes, useTorques, SelectedSegment(segmentMin.items, now - startTime));
                if settings.Failure? then
                  && trialRunning == Failure(settings.error)
                  && feedbackMode == old(feedbackMode)
                  && sent == old(sent) + ClearCommands(restartTrial)
                else
                  && trialRunning == Success(true)
                  && feedbackMode == settings.value.0
                  && sent == old(sent) + ClearCommands(restartTrial) + HandlerCommands(settings.value.1)
    {
      var checked := CheckTime(segmentMin, restartTrial, now);
      if checked.Failure? {
        return Failure(checked.error);
      }
      BlocksAreWellFormed(restartTrial, 0);
      AppendKeepsWellFormed(sent, userMass, ClearCommands(restartTrial));
      if restartTrial {
        sent := sent + [ClearGaitEstimate(Left)];
        sent := sent + [ClearGaitEstimate(Right)];
      }
      assert sent == old(sent) + ClearCommands(restartTrial);
      trialRunning := DispatchOrStop(checked.value, feedbackModes, useTorques);
    }

    /** Free exploration. The 10-minute duration is passed as a bare number
        where a list is expected, so the call always raises `TypeError`
        before any boot command is issued or any field changes. */
    method FreeTraining(restartTrial: bool, now: real) returns (trialRunning: Result<bool>)
      requires Valid()
      modifies this
      ensures Valid()
      ensures trialRunning == Failure(TypeError)
      ensures startTime == old(startTime) && feedbackMode == old(feedbackMode) && sent == old(sent)
    {
      trialRunning := RunProtocol(Scalar(10.0), Scalar(-1), Scalar(1), restartTrial, now);
    }

    /** Guided exploration: five minutes with the metronome (mode 0), then
        five minutes with strategy feedback (mode 1), torque on throughout.
        Up to and including 300 s after the start segment 0 runs, up to and
        including 600 s segment 1, after that both boots are zeroed and the
        trial reports that it has ended. */
    method GuidedTraining(restartTrial: bool, now: real) returns (trialRunning: bool)
      requires Valid()
      modifies this
      ensures Valid()
      ensures startTime == (if restartTrial then now else old(startTime))
      ensures now - startTime <= 300.0 ==>
                && trialRunning && feedbackMode == 0
                && sent == old(sent) + ClearCommands(restartTrial) + HandlerCommands(1)
      ensures 300.0 < now - startTime <= 600.0 ==>
                && trialRunning && feedbackMode == 1
                && sent == old(sent) + ClearCommands(restartTrial) + HandlerCommands(1)
      ensures 600.0 < now - startTime ==>
                && !trialRunning && feedbackMode == old(feedbackMode)
                && sent == old(sent) + ClearCommands(restartTrial) + ZeroCommands()
      ensures restartTrial ==> trialRunning && feedbackMode == 0
    {
      var r := RunProtocol(List([5.0, 5.0]), List([0, 1]), List([1, 1]), restartTrial, now);
      GuidedPlanSchedule(now - startTime);
      trialRunning := r.value;
    }

    /** Testing. Like free exploration, the 30-minute duration is passed as
        a bare number, so the call always raises `TypeError` and changes
        nothing. */
    method Testing(restartTrial: bool, now: real) returns (trialRunning: Result<bool>)
      requires Valid()
      modifies this
      ensures Valid()
      ensures trialRunning == Failure(TypeError)
      ensures startTime == old(startTime) && feedbackMode == old(feedbackMode) && sent == old(sent)
    {
      trialRunning := RunProtocol(Scalar(30.0), Scalar(-1), Scalar(1), restartTrial, now);
    }
  }

  /** A guided trial polled at a few instants, using only the contracts
      above: the 300 s boundary still belongs to the metronome segment, and
      once the trial has ended it stays ended until the next restart. */
  method GuidedTrialTimeline(mass: real, t0: real)
  {
    var c := new Coadaptive(mass, t0);
    var running := c.GuidedTraining(true, t0);
    assert running && c.feedbackMode == 0 && c.startTime == t0;
    running := c.GuidedTraining(false, t0 + 300.0);
    assert running && c.feedbackMode == 0;
    running := c.GuidedTraining(false, t0 + 300.5);
    assert running && c.feedbackMode == 1;
    running := c.GuidedTraining(false, t0 + 600.0);
    assert running && c.feedbackMode == 1;
    running := c.GuidedTraining(false, t0 + 601.0);
    assert !running && c.feedbackMode == 1;
    var n := |c.sent|;
    running := c.GuidedTraining(false, t0 + 900.0);
    assert !running && c.sent[n..] == ZeroCommands();
    running := c.GuidedTraining(true, t0 + 900.0);
    assert running && c.feedbackMode == 0;
  }
}
