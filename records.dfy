// The records that the tasks exchange and the constants they share
// (def.h, config.h, robot.h, pheromone.h).
//
// Every channel of the agent stores by-value copies of one of five record
// kinds, told apart by a data-type tag 0..4. Here the tag is the
// constructor of `Payload`, and `TagOf` gives back the number the C code
// stores beside the copy.

module Records {
  import opened General

  // Function results.
  const Ok: int := 0
  const Error: int := -1

  // Data-type tags.
  const TagRobot: int := 0
  const TagVictim: int := 1
  const TagPheromone: int := 2
  const TagCmd: int := 3
  const TagStream: int := 4

  // Commands.
  const CmdStart: int := 0
  const CmdStop: int := 1
  const CmdGoAhead: int := 2

  const RfidSenseRadius: int := 50
  /** The id the reader reports when no tag answered. */
  const EmptyTag: seq<char> := "0000000000"
  /** The byte capacity of a pheromone sector. */
  const SectorMaxSize: int := 200
  const VictimMaxCount: int := 100
  /** The byte capacity of a stream record. */
  const StreamSize: int := 20
  /** Stream records per second. */
  const StreamRate: int := 20
  /** How long a go-ahead message stays valid, in ms. */
  const GoAheadTime: int := 2000
  /** Least time between two odometry requests to the mobile base, in ms. */
  const OiRequestPeriod: int := 300
  /** Localisation accuracy (percent) below which the robot slows down and stops leaving pheromones. */
  const AccuracyLimit: int := 30
  const PfDistanceUncertainty: int := 200
  const PfAngleUncertainty: int := 10

  /** A particle, or the pose estimate: robot_t. `float` fields are reals. */
  datatype Robot = Robot(
    x: int, y: int, a: real,
    weight: real,
    moveNoise: int, turnNoise: real, senseTagNoise: int, senseWallNoise: int,
    radius: int,
    tagNum: int)

  /** victim_t: `id` is the C string held in `char id[11]`. */
  datatype Victim = Victim(x: int, y: int, id: seq<char>)

  datatype Command = Command(cmd: int)

  /** stream_t: `data` is the whole `StreamSize`-byte buffer. */
  datatype Stream = Stream(counter: int, size: int, data: seq<byte>)

  /** pheromone_map_sector_t: `data` is the whole `SectorMaxSize`-byte buffer; `size` bytes of it are used. */
  datatype Sector = Sector(num: int, size: int, timestamp: int, data: seq<byte>)

  datatype Payload =
    | PoseData(robot: Robot)
    | VictimData(victim: Victim)
    | SectorData(sector: Sector)
    | CmdData(command: Command)
    | StreamData(stream: Stream)

  /** The data-type tag stored beside a record. */
  function TagOf(p: Payload): (t: int)
    ensures 0 <= t <= 4
    ensures t == TagRobot <==> p.PoseData?
    ensures t == TagVictim <==> p.VictimData?
    ensures t == TagPheromone <==> p.SectorData?
    ensures t == TagCmd <==> p.CmdData?
    ensures t == TagStream <==> p.StreamData?
  {
    match p
    case PoseData(_) => TagRobot
    case VictimData(_) => TagVictim
    case SectorData(_) => TagPheromone
    case CmdData(_) => TagCmd
    case StreamData(_) => TagStream
  }

  /** The fixed-size buffers of a record have their C sizes, and a victim id fits its array with its NUL. */
  predicate WellFormed(p: Payload)
  {
    match p
    case PoseData(_) => true
    case VictimData(v) => |v.id| <= 10
    case SectorData(s) => |s.data| == SectorMaxSize
    case CmdData(_) => true
    case StreamData(s) => |s.data| == StreamSize
  }
}
