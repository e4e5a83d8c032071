/** The two exoskeleton boots, seen from the controller.

    The controller never looks inside a boot: it only issues commands to the
    left and the right one. The model records those commands, in the order
    they are issued, as a trace of `Command` values.
 */
module Boots {

  datatype Side = Left | Right

  /** The parameters `init_collins_profile` receives: the user's mass, four
      points of the gait cycle (percent), the onset torque and the peak torque
      normalised by mass. */
  datatype CollinsProfile = CollinsProfile(
    mass: real,
    rampStartPercentGait: real,
    onsetPercentGait: real,
    peakPercentGait: real,
    stopPercentGait: real,
    onsetTorque: real,
    normalizedPeakTorque: real)

  /** One call on one boot. */
  datatype Command =
    | InitCollinsProfile(side: Side, profile: CollinsProfile)
    | ReadData(side: Side)
    | RunCollinsProfile(side: Side, externalRead: bool)
    | ZeroCurrent(side: Side)
    | ClearGaitEstimate(side: Side)

  /** The fixed Zhang/Collins profile both controllers configure, for a user
      of the given mass. The four gait-cycle points are ordered within one
      gait cycle and the torques are positive. */
  function ZhangCollins(mass: real): (p: CollinsProfile)
    ensures p.mass == mass
    ensures 0.0 <= p.rampStartPercentGait <= p.onsetPercentGait <= p.peakPercentGait
            <= p.stopPercentGait <= 100.0
    ensures p.onsetTorque > 0.0 && p.normalizedPeakTorque > 0.0
  {
    CollinsProfile(mass, 0.0, 27.1, 52.4, 62.7, 2.0, 0.175)
  }

  /** What construction sends: the profile to the left boot, then the right. */
  function InitCommands(mass: real): seq<Command> {
    [InitCollinsProfile(Left, ZhangCollins(mass)), InitCollinsProfile(Right, ZhangCollins(mass))]
  }

  /** What a restart sends: both gait estimates cleared, left first. */
  function ClearCommands(restartTrial: bool): seq<Command> {
    if restartTrial then [ClearGaitEstimate(Left), ClearGaitEstimate(Right)] else []
  }

  /** Both boots slack: current set to zero, left first. */
  function ZeroCommands(): seq<Command> {
    [ZeroCurrent(Left), ZeroCurrent(Right)]
  }

  /** What one dispatched segment sends: both boots read their sensors, then
      both run the profile when the torque flag is exactly 1 and go slack
      otherwise. */
  function HandlerCommands(useTorque: int): seq<Command> {
    [ReadData(Left), ReadData(Right)]
    + if useTorque == 1 then [RunCollinsProfile(Left, true), RunCollinsProfile(Right, true)]
      else ZeroCommands()
  }

  /** Every profile run is preceded, two commands earlier, by a sensor read
      on the same boot. */
  ghost predicate ReadBeforeRun(sent: seq<Command>) {
    forall i :: 0 <= i < |sent| && sent[i].RunCollinsProfile? ==>
      2 <= i && sent[i - 2] == ReadData(sent[i].side)
  }

  /** No command in `cmds` configures a profile. */
  ghost predicate NoInit(cmds: seq<Command>) {
    forall i :: 0 <= i < |cmds| ==> !cmds[i].InitCollinsProfile?
  }

  /** The shape of every trace a controller produces: the two profile
      initialisations first and never again, and a read before every run. */
  ghost predicate WellFormedTrace(sent: seq<Command>, mass: real) {
    && |sent| >= 2
    && sent[..2] == InitCommands(mass)
    && NoInit(sent[2..])
    && ReadBeforeRun(sent)
  }

  /** The blocks a controller appends each keep the trace well formed. */
  lemma BlocksAreWellFormed(restartTrial: bool, useTorque: int)
    ensures NoInit(ClearCommands(restartTrial)) && ReadBeforeRun(ClearCommands(restartTrial))
    ensures NoInit(ZeroCommands()) && ReadBeforeRun(ZeroCommands())
    ensures NoInit(HandlerCommands(useTorque)) && ReadBeforeRun(HandlerCommands(useTorque))
  {
  }

  /** Appending a block that configures nothing and reads before it runs
      keeps a well-formed trace well formed. */
  lemma AppendKeepsWellFormed(sent: seq<Command>, mass: real, block: seq<Command>)
    requires WellFormedTrace(sent, mass)
    requires NoInit(block) && ReadBeforeRun(block)
    ensures WellFormedTrace(sent + block, mass)
  {
  }
}
