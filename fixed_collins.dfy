/** The fixed Zhang/Collins controller: the same construction, time check and
    segment handler as the co-adaptive controller, as a class of its own.
    Its handler is modelled up to the torque decision; what follows that
    decision is not part of this model.
 */
module FixedCollinsController {
  import opened PyValues
  import opened Boots
  import opened Schedule

  class FixedCollins {
    const userMass: real
    /** Clock reading at which the current trial started. */
    var startTime: real
    /** Feedback mode of the last dispatched segment. */
    var feedbackMode: int
    /** Every command issued to the two boots so far, in order. */
    var sent: seq<Command>

    ghost predicate Valid()
      reads this
    {
      WellFormedTrace(sent, userMass)
    }

    /** Stores the user's mass, starts the clock, sets the feedback mode to
        -1 and configures the profile on the left boot, then the right. */
    constructor (userMass: real, now: real)
      ensures Valid()
      ensures this.userMass == userMass && startTime == now && feedbackMode == -1
      ensures sent == InitCommands(userMass)
      ensures sent[0].profile == sent[1].profile == ZhangCollins(userMass)
    {
      this.userMass := userMass;
      startTime := now;
      feedbackMode := -1;
      sent := [InitCollinsProfile(Left, ZhangCollins(userMass))];
      sent := sent + [InitCollinsProfile(Right, ZhangCollins(userMass))];
    }

    /** Index of the active segment, or -1 once the trial has ended; a
        restart moves the start time to `now` first. */
    method CheckTime(segmentMin: Arg<real>, restartTrial: bool, now: real) returns (currentIdx: Result<int>)
      modifies this`startTime
      ensures segmentMin.Scalar? ==> currentIdx == Failure(TypeError) && startTime == old(startTime)
      ensures segmentMin.List? ==> startTime == (if restartTrial then now else old(startTime))
      ensures segmentMin.List? ==> currentIdx == Success(SelectedSegment(segmentMin.items, now - startTime))
    {
      if segmentMin.Scalar? {
        return Failure(TypeError);
      }
      var timePoints := TimePoints(segmentMin.items);
      if restartTrial {
        startTime := now;
      }
      var timeElapsed := now - startTime;
      currentIdx := Success(SelectSegment(timePoints, timeElapsed));
    }

    /** The part of the segment handler up to the torque decision: records
        the feedback mode and has the left boot, then the right, read its
        data. The contract says only how the trace begins afterwards: what
        the torque decision then sends is not part of this model, and the
        body stops where it begins. */
    method TrialHandler(feedbackMode: int, useTorque: int)
      requires Valid()
      modifies this`feedbackMode, this`sent
      ensures Valid()
      ensures this.feedbackMode == feedbackMode && startTime == old(startTime)
      ensures |old(sent)| + 2 <= |sent|
      ensures sent[..|old(sent)| + 2] == old(sent) + [ReadData(Left), ReadData(Right)]
    {
      AppendKeepsWellFormed(sent, userMass, [ReadData(Left), ReadData(Right)]);
      this.feedbackMode := feedbackMode;
      sent := sent + [ReadData(Left)];
      sent := sent + [ReadData(Right)];
    }
  }
}
