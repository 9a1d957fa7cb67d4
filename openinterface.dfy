// The iRobot Create Open Interface commands and sensor-packet decoding of
// openinterface.c.
//
// A command is the fixed byte sequence the source writes to the serial
// port one byte at a time; what each `write` returned is an input, and the
// status is computed from those results as the source does. The bytes of a
// sensor reply are an input buffer of 80 bytes (the size of the buffer the
// source reads into; bytes the base did not send are whatever the buffer
// held).

module OpenInterface {
  import opened General
  import opened Records

  const CmdStop: byte := 0xAD
  const CmdDrive: byte := 0x89
  const CmdDriveDirect: byte := 0x91
  const CmdLeds: byte := 0x8B

  /** The size of the buffer a sensor reply is read into. */
  const SensorBufferSize: int := 80

  /** The sum of the results of a run of one-byte writes. */
  function Sum(wrote: seq<int>): int
  {
    if wrote == [] then 0 else Sum(wrote[..|wrote| - 1]) + wrote[|wrote| - 1]
  }

  /**
   * When each one-byte write returns 1 (written), 0 or -1 (failed), the
   * results sum to their count exactly when every write succeeded.
   */
  lemma {:induction false} SumFull(wrote: seq<int>)
    requires forall i :: 0 <= i < |wrote| ==> -1 <= wrote[i] <= 1
    ensures Sum(wrote) <= |wrote|
    ensures Sum(wrote) >= |wrote| <==> forall i :: 0 <= i < |wrote| ==> wrote[i] == 1
  {
    if wrote != [] {
      var n := |wrote| - 1;
      SumFull(wrote[..n]);
      assert forall i :: 0 <= i < n ==> wrote[..n][i] == wrote[i];
    }
  }

  /** The status of a command of `count` bytes: s_ERROR when the write results sum to less than `count`. */
  function WriteStatus(wrote: seq<int>, count: int): (status: int)
    ensures status == Ok || status == Error
    ensures status == Ok <==> Sum(wrote) >= count
  {
    if Sum(wrote) < count then Error else Ok
  }

  /** A successful write of a whole command: every one-byte write returned 1. */
  predicate AllWritten(wrote: seq<int>)
  {
    forall i :: 0 <= i < |wrote| ==> wrote[i] == 1
  }

  /** With every write result in -1..1, a command succeeds exactly when all of its bytes were written. */
  lemma StatusOkIffAllWritten(wrote: seq<int>)
    requires forall i :: 0 <= i < |wrote| ==> -1 <= wrote[i] <= 1
    ensures WriteStatus(wrote, |wrote|) == Ok <==> AllWritten(wrote)
  {
    SumFull(wrote);
  }

  /** openinterface_drive: the opcode, then velocity and radius as general_int2bytes splits them, high byte first. */
  function DriveFrame(velocity: int, radius: int): (f: seq<byte>)
    ensures |f| == 5 && f[0] == CmdDrive
  {
    [CmdDrive, Int2Bytes(velocity).0, Int2Bytes(velocity).1, Int2Bytes(radius).0, Int2Bytes(radius).1]
  }

  /** openinterface_drive_direct: the opcode, then the right wheel's word, then the left wheel's. */
  function DriveDirectFrame(right: int, left: int): (f: seq<byte>)
    ensures |f| == 5 && f[0] == CmdDriveDirect
  {
    [CmdDriveDirect, Int2Bytes(right).0, Int2Bytes(right).1, Int2Bytes(left).0, Int2Bytes(left).1]
  }

  /** openinterface_drive: the bytes sent and the status from the five write results. */
  function Drive(velocity: int, radius: int, wrote: seq<int>): (r: (int, seq<byte>))
    requires |wrote| == 5
    ensures r.1 == DriveFrame(velocity, radius)
    ensures r.0 == Ok <==> Sum(wrote) >= 5
  {
    (WriteStatus(wrote, 5), DriveFrame(velocity, radius))
  }

  /** openinterface_drive_direct: the bytes sent and the status from the five write results. */
  function DriveDirect(right: int, left: int, wrote: seq<int>): (r: (int, seq<byte>))
    requires |wrote| == 5
    ensures r.1 == DriveDirectFrame(right, left)
    ensures r.0 == Ok <==> Sum(wrote) >= 5
  {
    (WriteStatus(wrote, 5), DriveDirectFrame(right, left))
  }

  /** openinterface_stop: one opcode byte; only a write result of -1 is an error. */
  function Stop(wrote: int): (r: (int, seq<byte>))
    ensures r.1 == [CmdStop]
    ensures r.0 == Error <==> wrote == Error
    ensures r.0 == Ok || r.0 == Error
  {
    if wrote == Error then (Error, [CmdStop]) else (Ok, [CmdStop])
  }

  /** A drive frame read back by general_bytes2int gives the velocity and radius for every value in [-32767, 32767]. */
  lemma DriveFrameRoundTrip(velocity: int, radius: int)
    requires -32767 <= velocity <= 32767 && -32767 <= radius <= 32767
    ensures Bytes2Int(DriveFrame(velocity, radius)[1], DriveFrame(velocity, radius)[2]) == velocity
    ensures Bytes2Int(DriveFrame(velocity, radius)[3], DriveFrame(velocity, radius)[4]) == radius
  {
    Int2BytesRoundTrip(velocity);
    Int2BytesRoundTrip(radius);
  }

  /** A drive-direct frame read back gives the right wheel's and then the left wheel's velocity. */
  lemma DriveDirectFrameRoundTrip(right: int, left: int)
    requires -32767 <= right <= 32767 && -32767 <= left <= 32767
    ensures Bytes2Int(DriveDirectFrame(right, left)[1], DriveDirectFrame(right, left)[2]) == right
    ensures Bytes2Int(DriveDirectFrame(right, left)[3], DriveDirectFrame(right, left)[4]) == left
  {
    Int2BytesRoundTrip(right);
    Int2BytesRoundTrip(left);
  }

  /**
   * The radii the tasks use: 0x8000 goes out as 0x80,0x00 (the base's
   * "straight" value), 0xFFFF as 0xFF,0xFF and 0x0001 as 0x00,0x01 (turn
   * in place one way or the other), and 0 as 0x00,0x00.
   */
  lemma SpecialRadii(velocity: int)
    ensures DriveFrame(velocity, 0x8000)[3..] == [0x80, 0x00]
    ensures DriveFrame(velocity, 0xFFFF)[3..] == [0xFF, 0xFF]
    ensures DriveFrame(velocity, 0x0001)[3..] == [0x00, 0x01]
    ensures DriveFrame(0, 0) == [CmdDrive, 0, 0, 0, 0]
  {
  }

  /** The LED bit byte: 2 when play > 0 plus 8 when advance > 0. */
  function LedBits(play: int, advance: int): (b: byte)
    ensures (b / 2) % 2 == 1 <==> play > 0
    ensures (b / 8) % 2 == 1 <==> advance > 0
    ensures b % 2 == 0 && (b / 4) % 2 == 0 && b < 16
  {
    var leds := if play > 0 then 2 else 0;
    if advance > 0 then leds + 8 else leds
  }

  /** openinterface_LEDs: the opcode, the bit byte, then the power LED's colour and intensity. */
  function LedsFrame(play: int, advance: int, color: byte, intensity: byte): (f: seq<byte>)
    ensures |f| == 4 && f[0] == CmdLeds && f[2] == color && f[3] == intensity
  {
    [CmdLeds, LedBits(play, advance), color, intensity]
  }

  /** openinterface_LEDs: the bytes sent and the status from the four write results. */
  function Leds(play: int, advance: int, color: byte, intensity: byte, wrote: seq<int>): (r: (int, seq<byte>))
    requires |wrote| == 4
    ensures r.1 == LedsFrame(play, advance, color, intensity)
    ensures r.0 == Ok <==> Sum(wrote) >= 4
  {
    (WriteStatus(wrote, 4), LedsFrame(play, advance, color, intensity))
  }

  /** Only whether play and advance are positive reaches the base. */
  lemma LedsDependOnSigns(play1: int, advance1: int, play2: int, advance2: int, color: byte, intensity: byte)
    requires (play1 > 0 <==> play2 > 0) && (advance1 > 0 <==> advance2 > 0)
    ensures LedsFrame(play1, advance1, color, intensity) == LedsFrame(play2, advance2, color, intensity)
  {
  }

  // ---------------------------------------------------------------------
  // Sensor packets
  // ---------------------------------------------------------------------

  /** The fields of openinterface_sensor_t that openinterface_sensors_update writes. */
  datatype Readings = Readings(
    wheeldropBump: byte,
    wall: byte,
    distance: int,
    angle: int,
    wallSignal: int,
    cliffLeftSignal: int,
    cliffFrontLeftSignal: int,
    cliffFrontRightSignal: int,
    cliffRightSignal: int,
    lightBumper: byte)

  /** The packet ids openinterface_sensors_update knows. */
  predicate KnownPacket(id: int)
  {
    0 <= id <= 6 || id == 100
  }

  /** Bump and wall from bytes 0 and 1. */
  function BumpWall(s: Readings, data: seq<byte>): Readings
    requires |data| == SensorBufferSize
  {
    s.(wheeldropBump := data[0], wall := data[1])
  }

  /** Distance and angle from the two's-complement words at bytes `at` and `at + 2`. */
  function Odometry(s: Readings, data: seq<byte>, at: int): Readings
    requires |data| == SensorBufferSize && 0 <= at <= SensorBufferSize - 4
  {
    s.(distance := Bytes2Int(data[at], data[at + 1]), angle := Bytes2Int(data[at + 2], data[at + 3]))
  }

  /** The wall and four cliff signals from the five unsigned words starting at byte `at`. */
  function Signals(s: Readings, data: seq<byte>, at: int): Readings
    requires |data| == SensorBufferSize && 0 <= at <= SensorBufferSize - 10
  {
    s.(wallSignal := Bytes2Uint(data[at], data[at + 1]),
       cliffLeftSignal := Bytes2Uint(data[at + 2], data[at + 3]),
       cliffFrontLeftSignal := Bytes2Uint(data[at + 4], data[at + 5]),
       cliffFrontRightSignal := Bytes2Uint(data[at + 6], data[at + 7]),
       cliffRightSignal := Bytes2Uint(data[at + 8], data[at + 9]))
  }

  /**
   * The readings after a reply to packet `id`, or None for an id the
   * source does not know (it then returns s_ERROR and writes nothing).
   */
  function Apply(s: Readings, id: int, data: seq<byte>): (r: Option<Readings>)
    requires |data| == SensorBufferSize
    ensures r.None? <==> !KnownPacket(id)
  {
    if id == 0 then Some(Odometry(BumpWall(s, data), data, 12))
    else if id == 1 then Some(BumpWall(s, data))
    else if id == 2 then Some(Odometry(s, data, 2))
    else if id == 3 || id == 5 then Some(s)
    else if id == 4 then Some(Signals(s, data, 0))
    else if id == 6 then Some(Signals(Odometry(BumpWall(s, data), data, 12), data, 26))
    else if id == 100 then Some(Signals(Odometry(BumpWall(s, data), data, 12), data, 26).(lightBumper := data[56]))
    else None
  }

  /** Packets 3 and 5 are recognised but change nothing. */
  lemma QuietPackets(s: Readings, data: seq<byte>)
    requires |data| == SensorBufferSize
    ensures Apply(s, 3, data) == Some(s) && Apply(s, 5, data) == Some(s)
  {
  }

  /**
   * Packet 2 carries the odometry: a reply whose bytes 2..5 are the words
   * of d and a gives distance d and angle a, and every other field keeps
   * its value.
   */
  lemma PacketTwoReadsOdometry(s: Readings, data: seq<byte>, d: int, a: int)
    requires |data| == SensorBufferSize
    requires -32767 <= d <= 32767 && -32767 <= a <= 32767
    requires data[2] == Int2Bytes(d).0 && data[3] == Int2Bytes(d).1
    requires data[4] == Int2Bytes(a).0 && data[5] == Int2Bytes(a).1
    ensures Apply(s, 2, data).Some?
    ensures Apply(s, 2, data).value.distance == d && Apply(s, 2, data).value.angle == a
    ensures Apply(s, 2, data).value.(distance := s.distance, angle := s.angle) == s
  {
    Int2BytesRoundTrip(d);
    Int2BytesRoundTrip(a);
  }

  /** Packet 100 updates what packet 6 does, plus the light bumper from byte 56. */
  lemma HundredExtendsSix(s: Readings, data: seq<byte>)
    requires |data| == SensorBufferSize
    ensures Apply(s, 100, data).value == Apply(s, 6, data).value.(lightBumper := data[56])
    ensures Apply(s, 6, data).value.lightBumper == s.lightBumper
  {
  }

  /** Packet 6 writes every field packet 0 writes, from the same offsets. */
  lemma SixCoversZero(s: Readings, data: seq<byte>)
    requires |data| == SensorBufferSize
    ensures Apply(Apply(s, 0, data).value, 6, data) == Apply(s, 6, data)
  {
  }

  /** Every field a packet writes is overwritten from the reply, so applying the same reply twice changes nothing more. */
  lemma ApplyIdempotent(s: Readings, id: int, data: seq<byte>)
    requires |data| == SensorBufferSize
    requires KnownPacket(id)
    ensures Apply(Apply(s, id, data).value, id, data) == Apply(s, id, data)
  {
  }

  /** Whatever the earlier readings, the fields a packet writes depend on the reply alone. */
  lemma ApplyForgets(s1: Readings, s2: Readings, data: seq<byte>)
    requires |data| == SensorBufferSize
    ensures Apply(s1, 100, data) == Apply(s2, 100, data)
  {
  }

  /** openinterface_sensor_t, restricted to the fields the core reads and writes. */
  class Sensors {
    var wheeldropBump: byte
    var wall: byte
    var distance: int
    var angle: int
    var wallSignal: int
    var cliffLeftSignal: int
    var cliffFrontLeftSignal: int
    var cliffFrontRightSignal: int
    var cliffRightSignal: int
    var lightBumper: byte

    function Current(): Readings
      reads this
    {
      Readings(wheeldropBump, wall, distance, angle, wallSignal, cliffLeftSignal,
               cliffFrontLeftSignal, cliffFrontRightSignal, cliffRightSignal, lightBumper)
    }

    /**
     * The sensor structure as openinterface_open allocates it: `malloc`
     * leaves its contents indeterminate, so the readings it starts with
     * are the parameter `start`.
     */
    constructor (start: Readings)
      ensures Current() == start
    {
      wheeldropBump, wall, distance, angle := start.wheeldropBump, start.wall, start.distance, start.angle;
      wallSignal, cliffLeftSignal := start.wallSignal, start.cliffLeftSignal;
      cliffFrontLeftSignal, cliffFrontRightSignal := start.cliffFrontLeftSignal, start.cliffFrontRightSignal;
      cliffRightSignal, lightBumper := start.cliffRightSignal, start.lightBumper;
    }

    /**
     * openinterface_sensors_update: decode the reply in `data` for packet
     * `id` into the fields; s_ERROR, with nothing written, for an id it
     * does not know.
     */
    method Update(id: int, data: seq<byte>) returns (status: int)
      requires |data| == SensorBufferSize
      modifies this
      ensures status == Ok <==> KnownPacket(id)
      ensures status == Ok || status == Error
      ensures KnownPacket(id) ==> Current() == Apply(old(Current()), id, data).value
      ensures !KnownPacket(id) ==> Current() == old(Current())
    {
      status := Ok;
      if id == 0 {
        wheeldropBump, wall := data[0], data[1];
        distance, angle := Bytes2Int(data[12], data[13]), Bytes2Int(data[14], data[15]);
      } else if id == 1 {
        wheeldropBump, wall := data[0], data[1];
      } else if id == 2 {
        distance, angle := Bytes2Int(data[2], data[3]), Bytes2Int(data[4], data[5]);
      } else if id == 3 {
      } else if id == 4 {
        wallSignal := Bytes2Uint(data[0], data[1]);
        cliffLeftSignal := Bytes2Uint(data[2], data[3]);
        cliffFrontLeftSignal := Bytes2Uint(data[4], data[5]);
        cliffFrontRightSignal := Bytes2Uint(data[6], data[7]);
        cliffRightSignal := Bytes2Uint(data[8], data[9]);
      } else if id == 5 {
      } else if id == 6 || id == 100 {
        wheeldropBump, wall := data[0], data[1];
        distance, angle := Bytes2Int(data[12], data[13]), Bytes2Int(data[14], data[15]);
        wallSignal := Bytes2Uint(data[26], data[27]);
        cliffLeftSignal := Bytes2Uint(data[28], data[29]);
        cliffFrontLeftSignal := Bytes2Uint(data[30], data[31]);
        cliffFrontRightSignal := Bytes2Uint(data[32], data[33]);
        cliffRightSignal := Bytes2Uint(data[34], data[35]);
        if id == 100 {
          lightBumper := data[56];
        }
      } else {
        status := Error;
      }
    }

    /** The tasks' direct writes of the odometry fields (task_control zeroes them when it skips a request). */
    method SetOdometry(d: int, a: int)
      modifies this
      ensures Current() == old(Current()).(distance := d, angle := a)
    {
      distance, angle := d, a;
    }
  }
}
