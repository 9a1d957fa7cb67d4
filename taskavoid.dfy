// The collision check of task_avoid.c: the light-bumper reading from
// sensor packet 100 chooses between turning in place, stopping the base
// and leaving the process, or doing nothing. The Agent method
// Tasks.Agent.Avoid reads the sensors and writes the command.

module TaskAvoid {
  import opened General
  import OI = OpenInterface

  /** What task_avoid does for one light-bumper reading. */
  datatype Avoidance =
    | Carry            // no command
    | Spin(radius: int) // drive at the robot's speed with this radius word
    | Halt             // stop the base and terminate the process

  /** Turning in place counter-clockwise, the base's radius word 1. */
  const SpinLeft: int := 0x0001
  /** Turning in place clockwise, the base's radius word -1. */
  const SpinRight: int := 0xFFFF

  /**
   * The branch task_avoid takes on light-bumper byte `lb`: a hit on the
   * right sensors (8 to 32) turns left in place, one on the left sensors
   * (1 to 4) turns right in place, a reading above 64 is a fault that
   * halts; 0 and the readings in between change nothing.
   */
  function AvoidanceOf(lb: byte): (a: Avoidance)
    ensures a.Spin? ==> a.radius == SpinLeft || a.radius == SpinRight
  {
    if lb > 0 then
      if 8 <= lb <= 32 then Spin(SpinLeft)
      else if lb <= 4 then Spin(SpinRight)
      else if lb > 64 then Halt
      else Carry
    else Carry
  }

  /** The command frames one avoidance writes to the base. */
  function AvoidFrames(a: Avoidance, speed: int): (fs: seq<seq<byte>>)
    ensures a.Carry? <==> fs == []
    ensures a.Spin? ==> fs == [OI.DriveFrame(speed, a.radius)]
    ensures a.Halt? ==> fs == [[OI.CmdStop]]
  {
    match a
    case Carry => []
    case Spin(r) => [OI.DriveFrame(speed, r)]
    case Halt => [[OI.CmdStop]]
  }

  /**
   * The readings in each class, stated from the other side: which bumper
   * bytes turn left, which turn right, which halt and which leave the
   * base alone.
   */
  lemma AvoidanceClasses(lb: byte)
    ensures AvoidanceOf(lb) == Spin(SpinLeft) <==> 8 <= lb <= 32
    ensures AvoidanceOf(lb) == Spin(SpinRight) <==> 1 <= lb <= 4
    ensures AvoidanceOf(lb) == Halt <==> lb > 64
    ensures AvoidanceOf(lb) == Carry <==> lb == 0 || 5 <= lb <= 7 || 33 <= lb <= 64
  {
  }

  /**
   * The two turns go out as the base's turn-in-place radii, opposite ways:
   * 0x00,0x01 for a right-side hit and 0xFF,0xFF for a left-side one, at
   * the robot's speed.
   */
  lemma SpinsTurnInPlace(lb: byte, speed: int)
    requires -32767 <= speed <= 32767
    ensures AvoidanceOf(lb).Spin? ==>
              var f := AvoidFrames(AvoidanceOf(lb), speed)[0];
              f[0] == OI.CmdDrive && Bytes2Int(f[1], f[2]) == speed &&
              (8 <= lb <= 32 ==> f[3..] == [0x00, 0x01]) &&
              (1 <= lb <= 4 ==> f[3..] == [0xFF, 0xFF])
  {
    OI.SpecialRadii(speed);
    OI.DriveFrameRoundTrip(speed, 0);
  }
}
