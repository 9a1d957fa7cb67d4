// The control task of task_control.c: odometry, particle driving, pose
// estimation and the drive command sent to the mobile base for the move
// the navigate task chose. The Agent method Tasks.Agent.Control runs
// ControlStep on the agent's parts.

module TaskControl {
  import opened General
  import opened Records
  import opened TimeLib
  import opened DoublyLinkedList
  import opened ParticleFilter
  import opened Protocol
  import OI = OpenInterface

  /** taskpipe_navigate_control_t: the next move, for the control task. */
  datatype NavigateControl = NavigateControl(event: bool, move: int)

  // The moves pheromone_eval chooses from (pheromone.h).
  const PhLeft: int := 0
  const PhTopLeft: int := 1
  const PhTop: int := 2
  const PhTopRight: int := 3
  const PhRight: int := 4
  const PhNone: int := 5

  /** C's `int / 2`, which truncates toward zero. */
  function HalfSpeed(speed: int): (h: int)
    ensures speed >= 0 ==> 0 <= 2 * h <= speed < 2 * h + 2
    ensures speed < 0 ==> 2 * h - 2 < speed <= 2 * h <= 0
  {
    if speed >= 0 then speed / 2 else -((-speed) / 2)
  }

  /** Odometry may be requested again once more than 300 ms (the elapsed time cast to `int`) have passed. */
  predicate RequestDue(timer: Timeval, now: Timeval)
  {
    Trunc(TimerGet(timer, now)) > OiRequestPeriod
  }

  /**
   * The sensor readings task_control drives the particles by: the reply
   * to a packet-2 request when one is due, else the old readings with
   * distance and angle zeroed.
   */
  function ControlReadings(r: OI.Readings, due: bool, reply: seq<byte>): OI.Readings
    requires |reply| == OI.SensorBufferSize
  {
    if due then OI.Apply(r, 2, reply).value else r.(distance := 0, angle := 0)
  }

  /**
   * When a request is due and the reply carries distance d and angle a,
   * the particles are driven by exactly d and a; otherwise by 0 and 0.
   * Either way no other reading changes.
   */
  lemma ControlReadingsOdometry(r: OI.Readings, due: bool, reply: seq<byte>, d: int, a: int)
    requires |reply| == OI.SensorBufferSize
    requires -32767 <= d <= 32767 && -32767 <= a <= 32767
    requires reply[2] == Int2Bytes(d).0 && reply[3] == Int2Bytes(d).1
    requires reply[4] == Int2Bytes(a).0 && reply[5] == Int2Bytes(a).1
    ensures due ==> ControlReadings(r, due, reply).distance == d && ControlReadings(r, due, reply).angle == a
    ensures !due ==> ControlReadings(r, due, reply).distance == 0 && ControlReadings(r, due, reply).angle == 0
    ensures ControlReadings(r, due, reply).(distance := r.distance, angle := r.angle) == r
  {
    OI.PacketTwoReadsOdometry(r, reply, d, a);
  }

  /** Every particle moved once by the motion model with these odometry values and this uncertainty flag. */
  twostate predicate Driven(f: Filter, distance: int, angle: int, uncertain: int,
                            move: (Robot, int, int, int, nat) -> (int, int, real))
    reads f, f.particles
  {
    forall k :: 0 <= k < f.particles.Length ==>
      var m := move(old(f.particles[k]), distance, angle, uncertain, k);
      f.particles[k] == old(f.particles[k]).(x := m.0, y := m.1, a := m.2)
  }

  /**
   * The odometry part of task_control: when due, sensors_update for
   * packet 2 and pf_drive by the distance and angle read, with
   * uncertainty 0; otherwise distance and angle set to 0 and pf_drive by
   * them with uncertainty 1.
   */
  method DriveParticles(s: OI.Sensors, f: Filter, due: bool, reply: seq<byte>,
                        move: (Robot, int, int, int, nat) -> (int, int, real))
    requires f.Valid() && |reply| == OI.SensorBufferSize
    modifies s, f.particles
    ensures f.Valid()
    ensures s.Current() == ControlReadings(old(s.Current()), due, reply)
    ensures Driven(f, s.distance, s.angle, if due then 0 else 1, move)
  {
    if due {
      var _ := s.Update(2, reply);
      f.Drive(s.distance, s.angle, 0, move);
    } else {
      s.SetOdometry(0, 0);
      f.Drive(0, 0, 1, move);
    }
  }

  /**
   * The localisation part of task_control: the particles driven as
   * DriveParticles says, then the pose estimated from them (pf_estimate,
   * with `heading` for the heading it computes) and pf_accuracy taken.
   */
  method Localise(s: OI.Sensors, f: Filter, due: bool, reply: seq<byte>,
                  move: (Robot, int, int, int, nat) -> (int, int, real),
                  robot: Robot, heading: real, roomWidth: int, roomHeight: int)
    returns (pose: Robot, accuracy: int)
    requires f.Valid() && |reply| == OI.SensorBufferSize && ToInt32(roomWidth * roomHeight) != 0
    modifies s, f.particles
    ensures f.Valid()
    ensures s.Current() == ControlReadings(old(s.Current()), due, reply)
    ensures Driven(f, s.distance, s.angle, if due then 0 else 1, move)
    ensures pose == robot.(x := Trunc(WeightedX(f.particles[..])), y := Trunc(WeightedY(f.particles[..])), a := heading)
    ensures accuracy == Percent(Area(GoodBox(f.particles[..])), ToInt32(roomWidth * roomHeight))
  {
    DriveParticles(s, f, due, reply, move);
    pose := f.Estimate(robot, heading);
    accuracy := f.Accuracy(roomWidth, roomHeight);
  }

  /**
   * The drive command task_control sends the base for a move: at the
   * chosen speed with radius 200 (left), 100 (top left), 0x8000
   * (straight), 0xFFFF - 100 (top right) or 0xFFFF - 200 (right);
   * drive(0, 0) for none; nothing for any other value.
   */
  function MoveCommand(move: int, speed: int): Option<seq<byte>>
  {
    if move == PhLeft then Some(OI.DriveFrame(speed, 200))
    else if move == PhTopLeft then Some(OI.DriveFrame(speed, 100))
    else if move == PhTop then Some(OI.DriveFrame(speed, 0x8000))
    else if move == PhTopRight then Some(OI.DriveFrame(speed, 0xFFFF - 100))
    else if move == PhRight then Some(OI.DriveFrame(speed, 0xFFFF - 200))
    else if move == PhNone then Some(OI.DriveFrame(0, 0))
    else None
  }

  /**
   * What the base receives for each move: a drive command exactly for the
   * six moves; for the five directions the velocity word reads back as
   * the speed and the radius word is 200, 100, 0x8000, 0xFFFF - 100 or
   * 0xFFFF - 200, so the left moves send a word below 0x8000 and the
   * right moves one above it; PH_NONE sends all-zero words.
   */
  lemma MoveCommandWords(move: int, speed: int)
    requires -32767 <= speed <= 32767
    ensures MoveCommand(move, speed).Some? <==> PhLeft <= move <= PhNone
    ensures PhLeft <= move <= PhRight ==>
              var f := MoveCommand(move, speed).value;
              |f| == 5 && f[0] == OI.CmdDrive && Bytes2Int(f[1], f[2]) == speed &&
              Bytes2Uint(f[3], f[4]) == [200, 100, 0x8000, 0xFFFF - 100, 0xFFFF - 200][move]
    ensures move == PhLeft || move == PhTopLeft ==> Bytes2Uint(MoveCommand(move, speed).value[3], MoveCommand(move, speed).value[4]) < 0x8000
    ensures move == PhTopRight || move == PhRight ==> Bytes2Uint(MoveCommand(move, speed).value[3], MoveCommand(move, speed).value[4]) > 0x8000
    ensures move == PhNone ==> MoveCommand(move, speed) == Some([OI.CmdDrive, 0, 0, 0, 0])
  {
    Int2BytesRoundTrip(speed);
  }

  /**
   * One run of the enabled control task, from the request timer, pose,
   * navigate pipe and base output before it to those after it: the
   * timer restarted at `now` exactly when a request was due; the sensors
   * and particles as Localise leaves them; the new pose estimated from
   * the driven particles and appended to the send list; and, when the
   * pipe held an event, the move's drive command sent to the base at
   * half speed (C's truncating `/ 2`) if pf_accuracy is below 30 and at
   * full speed otherwise, and the event cleared.
   */
  twostate predicate ControlStepped(s: OI.Sensors, f: Filter, list: List, now: Timeval, reply: seq<byte>,
                                    move: (Robot, int, int, int, nat) -> (int, int, real), heading: real,
                                    robotSpeed: int, roomWidth: int, roomHeight: int,
                                    timer0: Timeval, pose0: Robot, control0: NavigateControl, base0: seq<seq<byte>>,
                                    timer: Timeval, pose: Robot, control: NavigateControl, base: seq<seq<byte>>)
    reads s, f, f.particles, list
  {
    |reply| == OI.SensorBufferSize && ToInt32(roomWidth * roomHeight) != 0 &&
    var due := RequestDue(timer0, now);
    var speed := if Percent(Area(GoodBox(f.particles[..])), ToInt32(roomWidth * roomHeight)) < AccuracyLimit
                 then HalfSpeed(robotSpeed) else robotSpeed;
    timer == (if due then now else timer0) &&
    s.Current() == ControlReadings(old(s.Current()), due, reply) &&
    Driven(f, s.distance, s.angle, if due then 0 else 1, move) &&
    pose == pose0.(x := Trunc(WeightedX(f.particles[..])), y := Trunc(WeightedY(f.particles[..])), a := heading) &&
    list.items == old(list.items) + [PoseData(pose)] &&
    (control0.event ==> base == base0 + Sent(MoveCommand(control0.move, speed)) && control == control0.(event := false)) &&
    (!control0.event ==> base == base0 && control == control0)
  }

  /** The body of the enabled control task, on the agent's parts. */
  method ControlStep(s: OI.Sensors, f: Filter, list: List, now: Timeval, reply: seq<byte>,
                     move: (Robot, int, int, int, nat) -> (int, int, real), heading: real,
                     robotSpeed: int, roomWidth: int, roomHeight: int,
                     timer0: Timeval, pose0: Robot, control0: NavigateControl, base0: seq<seq<byte>>)
    returns (timer: Timeval, pose: Robot, control: NavigateControl, base: seq<seq<byte>>)
    requires f.Valid() && |reply| == OI.SensorBufferSize && ToInt32(roomWidth * roomHeight) != 0
    requires list.Valid() && forall k :: 0 <= k < |list.items| ==> Sendable(list.items[k])
    modifies s, f.particles, list
    ensures f.Valid() && list.Valid() && forall k :: 0 <= k < |list.items| ==> Sendable(list.items[k])
    ensures ControlStepped(s, f, list, now, reply, move, heading, robotSpeed, roomWidth, roomHeight,
                           timer0, pose0, control0, base0, timer, pose, control, base)
  {
    var due := RequestDue(timer0, now);
    var accuracy;
    pose, accuracy := Localise(s, f, due, reply, move, pose0, heading, roomWidth, roomHeight);
    timer := if due then TimerReset(timer0, now).1 else timer0;
    var speed := if accuracy < AccuracyLimit then HalfSpeed(robotSpeed) else robotSpeed;
    list.InsertEnd(PoseData(pose));
    control, base := control0, base0;
    if control0.event {
      base := base0 + Sent(MoveCommand(control0.move, speed));
      control := control0.(event := false);
    }
  }
}
