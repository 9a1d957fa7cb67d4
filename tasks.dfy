// The agent's shared state and its seven tasks (task.c and tasks/*.c);
// the control task's steps are in module TaskControl.
//
// The C globals of task.c become the fields of one `Agent` object: the
// task enable flags, the mission data, the control data, the three task
// pipes, the message counters, the estimated pose, and references to the
// subsystems (send list, mission and navigate queues, pheromone map,
// particle filter, environment, sensor block, RFID reader). Each task is a
// method that updates them as the C function does.
//
// What the tasks read from the world is passed in: the clock as a
// `Timeval`, the sensor reply as its 80-byte buffer, the bytes the RFID
// reader delivered, the UDP frames waiting to be received, and the
// `rand()` draws. What they send out is recorded: `base` holds, in order,
// the command frames written to the mobile base, and `broadcast` the UDP
// frames sent. The pheromone-map move choice (pheromone_eval) and the
// heading of the pose estimate need trigonometry and are inputs.

module Tasks {
  import opened General
  import opened Records
  import opened TimeLib
  import opened DoublyLinkedList
  import opened Fifo
  import opened Environment
  import opened ParticleFilter
  import opened PheromoneMap
  import opened Protocol
  import OI = OpenInterface
  import Rfid
  import opened TaskControl
  import opened TaskRefine
  import opened TaskCommunicate
  import opened TaskAvoid

  // ---------------------------------------------------------------------
  // Task flags, pipes and moves (task.h, pheromone.h)
  // ---------------------------------------------------------------------

  /** The `enabled` flag of each task_t. */
  datatype Flags = Flags(mission: bool, navigate: bool, control: bool, refine: bool,
                         report: bool, communicate: bool, avoid: bool)

  /** Every task runs (task_init with enable > 0, and the START command). */
  const AllEnabled: Flags := Flags(true, true, true, true, true, true, true)
  /** Only mission and communicate run (task_init otherwise, and the STOP command). */
  const MissionOnly: Flags := Flags(true, false, false, false, false, true, false)

  /** taskpipe_refine_report_t: an unknown tag's id, for the report task. */
  datatype RefineReport = RefineReport(event: bool, victimId: seq<char>)
  /** taskpipe_report_mission_t: a newly found victim, for the mission task. */
  datatype ReportMission = ReportMission(event: bool, victim: Victim)

  /** `time(NULL) / lifetime` with C's truncating division: the clock the pheromone grid stores. */
  function QuantisedTime(sec: int, lifetime: int): int
    requires lifetime > 0
  {
    if sec >= 0 then sec / lifetime else -((-sec) / lifetime)
  }

  /**
   * The quantised clock is the number of whole lifetimes in `sec`,
   * rounded toward zero: the lifetime multiple lies within one lifetime
   * of `sec`, on the side of zero.
   */
  lemma QuantisedTimeTruncates(sec: int, lifetime: int)
    requires lifetime > 0
    ensures var t := QuantisedTime(sec, lifetime);
            (sec >= 0 ==> 0 <= t * lifetime <= sec < t * lifetime + lifetime) &&
            (sec < 0 ==> t * lifetime - lifetime < sec <= t * lifetime <= 0)
  {
    if sec >= 0 {
      DivBounds(sec, lifetime);
    } else {
      DivBounds(-sec, lifetime);
      var q := (-sec) / lifetime;
      assert QuantisedTime(sec, lifetime) * lifetime == -(q * lifetime);
    }
  }

  /** Euclidean division of a non-negative number: the quotient's multiple is at most a, within one divisor. */
  lemma DivBounds(a: int, b: int)
    requires a >= 0 && b > 0
    ensures 0 <= (a / b) * b <= a < (a / b) * b + b
  {
    assert a == (a / b) * b + a % b;
  }

  // ---------------------------------------------------------------------
  // Victims (task_mission.c, task_report.c)
  // ---------------------------------------------------------------------

  /** Some stored victim has this id (the strcmp search finds it). */
  predicate Known(victims: seq<Victim>, id: seq<char>)
  {
    exists i :: 0 <= i < |victims| && victims[i].id == id
  }

  /** No two stored victims share an id. */
  predicate DistinctIds(victims: seq<Victim>)
  {
    forall i, j :: 0 <= i < j < |victims| ==> victims[i].id != victims[j].id
  }

  /** A victim is stored unless one with its id already is. */
  function AddVictim(victims: seq<Victim>, v: Victim): (r: seq<Victim>)
    ensures Known(r, v.id) && victims <= r && |r| <= |victims| + 1
    ensures forall id :: Known(r, id) <==> Known(victims, id) || id == v.id
    ensures DistinctIds(victims) ==> DistinctIds(r)
  {
    if Known(victims, v.id) then victims
    else
      var r := victims + [v];
      assert r[|victims|].id == v.id;
      assert forall id :: Known(victims, id) ==> Known(r, id) by {
        forall id | Known(victims, id) ensures Known(r, id) {
          var i :| 0 <= i < |victims| && victims[i].id == id;
          assert r[i] == victims[i];
        }
      }
      r
  }

  /**
   * The victim search of task_mission and task_report: the first stored
   * victim with this id, or the count when there is none.
   */
  method FindVictim(victims: seq<Victim>, id: seq<char>) returns (i: nat)
    ensures i <= |victims|
    ensures i == |victims| <==> !Known(victims, id)
    ensures i < |victims| ==> victims[i].id == id
    ensures forall j :: 0 <= j < i ==> victims[j].id != id
  {
    i := 0;
    while i < |victims|
      invariant i <= |victims|
      invariant forall j :: 0 <= j < i ==> victims[j].id != id
    {
      if victims[i].id == id {
        return;
      }
      i := i + 1;
    }
  }

  /** The search, then the store at the count when the search came back empty. */
  method StoreVictim(victims: seq<Victim>, v: Victim) returns (r: seq<Victim>)
    ensures r == AddVictim(victims, v)
  {
    var i := FindVictim(victims, v.id);
    r := victims;
    if i == |victims| {
      r := victims + [v];
    }
  }

  // ---------------------------------------------------------------------
  // The mission task's handling of its queue
  // ---------------------------------------------------------------------

  /** What handling the mission queue can change. */
  datatype MissionView = MissionView(victims: seq<Victim>, enabled: Flags, goAhead: int,
                                     goAheadTimer: Timeval, base: seq<seq<byte>>)

  /**
   * One record from the mission queue: a victim is stored when new; START
   * enables every task; STOP leaves only mission and communicate and
   * drives the base at speed 0 ("straight"); GO_AHEAD sets the go-ahead
   * flag and restarts its timer. Other commands and records do nothing.
   */
  function Handle(s: MissionView, p: Payload, now: Timeval): MissionView
  {
    match p
    case VictimData(v) => s.(victims := AddVictim(s.victims, v))
    case CmdData(c) =>
      if c.cmd == CmdStart then s.(enabled := AllEnabled)
      else if c.cmd == CmdStop then s.(enabled := MissionOnly, base := s.base + [OI.DriveFrame(0, 0x8000)])
      else if c.cmd == CmdGoAhead then s.(goAhead := 1, goAheadTimer := now)
      else s
    case _ => s
  }

  /** The records of a queue handled oldest first. */
  function HandleAll(s: MissionView, items: seq<Payload>, now: Timeval): MissionView
    decreases |items|
  {
    if items == [] then s else Handle(HandleAll(s, items[..|items| - 1], now), items[|items| - 1], now)
  }

  /**
   * Draining the queue keeps the stored victims, never stores an id
   * twice, stores every victim it was handed, and stores nothing else.
   */
  lemma {:induction false} HandleAllVictims(s: MissionView, items: seq<Payload>, now: Timeval)
    requires DistinctIds(s.victims)
    ensures var r := HandleAll(s, items, now).victims;
            DistinctIds(r) && s.victims <= r && |r| <= |s.victims| + |items|
    ensures var r := HandleAll(s, items, now).victims;
            forall k :: 0 <= k < |items| && items[k].VictimData? ==> Known(r, items[k].victim.id)
    ensures var r := HandleAll(s, items, now).victims;
            forall id :: Known(r, id) ==>
              Known(s.victims, id) || exists k :: 0 <= k < |items| && items[k].VictimData? && items[k].victim.id == id
    decreases |items|
  {
    if items != [] {
      var front := items[..|items| - 1];
      var last := items[|items| - 1];
      HandleAllVictims(s, front, now);
      var r0 := HandleAll(s, front, now).victims;
      var r := HandleAll(s, items, now).victims;
      assert r == if last.VictimData? then AddVictim(r0, last.victim) else r0;
      forall k | 0 <= k < |items| && items[k].VictimData?
        ensures Known(r, items[k].victim.id)
      {
        if k < |items| - 1 {
          assert items[k] == front[k];
        }
      }
      forall id | Known(r, id)
        ensures Known(s.victims, id) || exists k :: 0 <= k < |items| && items[k].VictimData? && items[k].victim.id == id
      {
        if !Known(r0, id) {
          assert items[|items| - 1].VictimData? && items[|items| - 1].victim.id == id;
        } else if !Known(s.victims, id) {
          var k :| 0 <= k < |front| && front[k].VictimData? && front[k].victim.id == id;
          assert items[k] == front[k];
        }
      }
    }
  }

  /**
   * START and STOP both keep mission and communicate enabled, so once
   * enabled the mission task never switches itself or communication off.
   * The flags end as they were, or as the last START or STOP left them.
   */
  lemma {:induction false} HandleAllFlags(s: MissionView, items: seq<Payload>, now: Timeval)
    ensures var f := HandleAll(s, items, now).enabled;
            f == s.enabled || f == AllEnabled || f == MissionOnly
    ensures s.enabled.mission && s.enabled.communicate ==>
              HandleAll(s, items, now).enabled.mission && HandleAll(s, items, now).enabled.communicate
    ensures (forall k :: 0 <= k < |items| ==> !items[k].CmdData?) ==> HandleAll(s, items, now).enabled == s.enabled
    decreases |items|
  {
    if items != [] {
      var front := items[..|items| - 1];
      HandleAllFlags(s, front, now);
      if forall k :: 0 <= k < |items| ==> !items[k].CmdData? {
        assert forall k :: 0 <= k < |front| ==> front[k] == items[k];
      }
    }
  }

  /** One pass of task_mission's queue loop, on the record `queue_dequeue` handed back with its tag. */
  method HandleRecord(s: MissionView, dataType: int, data: Payload, now: Timeval) returns (r: MissionView)
    requires dataType == TagOf(data)
    ensures r == Handle(s, data, now)
    ensures |r.victims| <= |s.victims| + 1
    ensures DistinctIds(s.victims) ==> DistinctIds(r.victims)
  {
    r := s;
    if dataType == TagVictim {
      var victims := StoreVictim(s.victims, data.victim);
      r := s.(victims := victims);
    } else if dataType == TagCmd {
      if data.command.cmd == CmdStart {
        r := s.(enabled := AllEnabled);
      } else if data.command.cmd == CmdStop {
        r := s.(enabled := MissionOnly, base := s.base + [OI.DriveFrame(0, 0x8000)]);
      } else if data.command.cmd == CmdGoAhead {
        r := s.(goAhead := 1, goAheadTimer := now);
      }
    }
  }

  // ---------------------------------------------------------------------
  // Streams (task_mission.c)
  // ---------------------------------------------------------------------

  /** The bytes of every generated stream record: all ones. */
  const OnesData: seq<byte> := seq(StreamSize, _ => 1)

  /**
   * How many stream records a stream-timer reading of `ms` whole
   * milliseconds calls for: `ms / (1000 / (float)StreamRate)`, truncated.
   */
  function StreamCount(ms: int): int
  {
    Trunc(ms as real / (1000.0 / StreamRate as real))
  }

  /** At 20 records a second, one record is due per whole 50 ms elapsed; none when the clock went back. */
  lemma StreamCountRate(ms: int)
    ensures ms >= 0 ==> StreamCount(ms) == ms / 50
    ensures ms < 0 ==> StreamCount(ms) <= 0
  {
    var c := StreamCount(ms);
    assert 1000.0 / StreamRate as real == 50.0;
    if ms >= 0 {
      assert c as real <= ms as real / 50.0 < c as real + 1.0;
      assert 50 * c <= ms < 50 * c + 50 by {
        assert (50 * c) as real == 50.0 * (c as real);
        assert (50 * c + 50) as real == 50.0 * (c as real + 1.0);
      }
    }
  }

  /** `n` stream records numbered from `counter`. */
  function Streams(counter: int, n: nat): seq<Payload>
  {
    seq(n, k => StreamData(Stream(counter + k, StreamSize, OnesData)))
  }

  /** The generated streams carry consecutive counters, are full, and can be sent. */
  lemma StreamsNumbered(counter: int, n: nat)
    ensures |Streams(counter, n)| == n
    ensures forall k :: 0 <= k < n ==>
              Streams(counter, n)[k].StreamData? && Streams(counter, n)[k].stream.counter == counter + k &&
              Streams(counter, n)[k].stream.size == |Streams(counter, n)[k].stream.data| == StreamSize
    ensures forall k :: 0 <= k < n ==> Sendable(Streams(counter, n)[k]) && WellFormed(Streams(counter, n)[k])
  {
  }

  /** The queue-draining loop of task_mission: every record handled as Handle says, oldest first. */
  method DrainMission(q: Queue, s0: MissionView, now: Timeval) returns (s: MissionView)
    requires q.Valid() && DistinctIds(s0.victims)
    requires forall k :: 0 <= k < |q.items| ==> MissionRecord(q.items[k])
    modifies q
    ensures q.Valid() && q.items == []
    ensures s == HandleAll(s0, old(q.items), now)
    ensures DistinctIds(s.victims) && |s.victims| <= |s0.victims| + old(|q.items|)
  {
    ghost var q0 := q.items;
    ghost var n := 0;
    s := s0;
    while q.count != 0
      invariant q.Valid() && 0 <= n <= |q0| && q.items == q0[n..]
      invariant s == HandleAll(s0, q0[..n], now)
      invariant DistinctIds(s.victims) && |s.victims| <= |s0.victims| + n
      decreases |q.items|
    {
      var dataType, data := q.Dequeue(TagCmd, CmdData(Command(CmdStart)));
      HandleAllStep(s0, q0, n, now);
      s := HandleRecord(s, dataType, data, now);
      n := n + 1;
    }
    assert q0[..n] == q0;
  }

  /** Handling one more record of `items` extends the handled prefix by that record. */
  lemma HandleAllStep(s0: MissionView, items: seq<Payload>, n: nat, now: Timeval)
    requires n < |items|
    ensures HandleAll(s0, items[..n + 1], now) == Handle(HandleAll(s0, items[..n], now), items[n], now)
  {
    assert items[..n + 1][..n] == items[..n];
  }

  /**
   * The victims task_mission holds after draining `items` and taking the
   * report task's victim from `pipe`: what its writes into the 100-entry
   * victim array must fit.
   */
  function MissionVictims(s: MissionView, items: seq<Payload>, now: Timeval, pipe: ReportMission): seq<Victim>
  {
    var r := HandleAll(s, items, now).victims;
    if pipe.event then AddVictim(r, pipe.victim) else r
  }

  /** The number of victim records among `items`. */
  function VictimRecords(items: seq<Payload>): nat
    decreases |items|
  {
    if items == [] then 0
    else VictimRecords(items[..|items| - 1]) + (if items[|items| - 1].VictimData? then 1 else 0)
  }

  /**
   * Only victim records can take a place in the victim array: commands
   * and other records add none, and a victim record adds at most one.
   */
  lemma {:induction false} MissionVictimsBound(s: MissionView, items: seq<Payload>, now: Timeval, pipe: ReportMission)
    ensures s.victims <= MissionVictims(s, items, now, pipe)
    ensures |MissionVictims(s, items, now, pipe)| <= |s.victims| + VictimRecords(items) + (if pipe.event then 1 else 0)
    decreases |items|
  {
    HandledVictimsBound(s, items, now);
  }

  lemma {:induction false} HandledVictimsBound(s: MissionView, items: seq<Payload>, now: Timeval)
    ensures s.victims <= HandleAll(s, items, now).victims
    ensures |HandleAll(s, items, now).victims| <= |s.victims| + VictimRecords(items)
    decreases |items|
  {
    if items != [] {
      HandledVictimsBound(s, items[..|items| - 1], now);
    }
  }

  /** How many stream records task_mission owes for the time since the stream timer was last reset. */
  function StreamsDue(streamTimer: Timeval, now: Timeval): (count: nat)
  {
    var n := StreamCount(Trunc(TimerGet(streamTimer, now)));
    if n > 0 then n else 0
  }

  /** The stream loop of task_mission: `count` records appended, numbered from `counter`; the next counter is returned. */
  method SendStreams(list: List, counter: int, count: nat) returns (next: int)
    requires list.Valid()
    requires forall k :: 0 <= k < |list.items| ==> Sendable(list.items[k])
    modifies list
    ensures list.Valid() && list.items == old(list.items) + Streams(counter, count)
    ensures forall k :: 0 <= k < |list.items| ==> Sendable(list.items[k])
    ensures next == counter + count
  {
    next := counter;
    for i := 0 to count
      invariant list.Valid() && list.items == old(list.items) + Streams(counter, i)
      invariant forall k :: 0 <= k < |list.items| ==> Sendable(list.items[k])
      invariant next == counter + i
    {
      list.InsertEnd(StreamData(Stream(next, StreamSize, OnesData)));
      assert Streams(counter, i + 1) == Streams(counter, i) + [StreamData(Stream(next, StreamSize, OnesData))];
      next := next + 1;
    }
  }

  // ---------------------------------------------------------------------
  // The navigate task's merge of received sectors (task_navigate.c)
  // ---------------------------------------------------------------------

  /**
   * Cell (a, b) of a grid whose sectors are `sectorSize` columns of
   * `yCells` cells, after merging received sector s into a cell holding v:
   * the later of v and the sector's time minus the stored age, for the
   * columns the sector covers.
   */
  function MergeCell(v: int, s: Sector, a: int, b: int, sectorSize: int, yCells: int): int
  {
    var k := (a - s.num * sectorSize) * yCells + b;
    if s.num * sectorSize <= a < s.num * sectorSize + sectorSize && 0 <= k < |s.data|
    then Max(v, s.timestamp - s.data[k])
    else v
  }

  /** A cell after merging the sectors of a navigate queue, oldest first. */
  function MergeAll(v: int, items: seq<Payload>, a: int, b: int, sectorSize: int, yCells: int): int
    decreases |items|
  {
    if items == [] then v
    else
      var w := MergeAll(v, items[..|items| - 1], a, b, sectorSize, yCells);
      var last := items[|items| - 1];
      if last.SectorData? then MergeCell(w, last.sector, a, b, sectorSize, yCells) else w
  }

  /**
   * Merging never makes a cell older, and the merged cell is at least as
   * late as every received sector says it should be: no merge order loses
   * a newer time.
   */
  lemma {:induction false} MergeAllNewest(v: int, items: seq<Payload>, a: int, b: int, sectorSize: int, yCells: int)
    ensures MergeAll(v, items, a, b, sectorSize, yCells) >= v
    ensures forall k :: 0 <= k < |items| && items[k].SectorData? ==>
              MergeAll(v, items, a, b, sectorSize, yCells) >= MergeCell(v, items[k].sector, a, b, sectorSize, yCells)
    decreases |items|
  {
    if items != [] {
      var front := items[..|items| - 1];
      MergeAllNewest(v, front, a, b, sectorSize, yCells);
      var w := MergeAll(v, front, a, b, sectorSize, yCells);
      forall k | 0 <= k < |items| && items[k].SectorData?
        ensures MergeAll(v, items, a, b, sectorSize, yCells) >= MergeCell(v, items[k].sector, a, b, sectorSize, yCells)
      {
        if k < |front| {
          assert front[k] == items[k];
          MergeCellMonotone(v, w, items[|items| - 1], a, b, sectorSize, yCells);
        } else {
          MergeCellMonotone(v, w, items[k], a, b, sectorSize, yCells);
        }
      }
    }
  }

  /** Merging one record keeps a cell at least as late as before, and a later cell stays later. */
  lemma MergeCellMonotone(v: int, w: int, p: Payload, a: int, b: int, sectorSize: int, yCells: int)
    requires v <= w
    ensures p.SectorData? ==> w <= MergeCell(w, p.sector, a, b, sectorSize, yCells)
    ensures p.SectorData? ==> MergeCell(v, p.sector, a, b, sectorSize, yCells) <= MergeCell(w, p.sector, a, b, sectorSize, yCells)
  {
  }

  /**
   * The queue-draining loop of task_navigate: every queued sector merged
   * into the pheromone map, oldest first, until the queue is empty.
   */
  method DrainNavigate(q: Queue, ph: Pheromones)
    requires q.Valid() && ph.Valid()
    requires forall k :: 0 <= k < |q.items| ==> NavigateRecord(q.items[k])
    modifies q, ph.grid
    ensures q.Valid() && q.items == [] && ph.Valid()
    ensures forall a, b :: 0 <= a < ph.xCells && 0 <= b < ph.yCells ==>
              ph.grid[a, b] == MergeAll(old(ph.grid[a, b]), old(q.items), a, b, ph.sectorSize, ph.yCells)
  {
    ghost var q0 := q.items;
    ghost var n := 0;
    while q.count != 0
      invariant q.Valid() && ph.Valid() && 0 <= n <= |q0| && q.items == q0[n..]
      invariant forall a, b :: 0 <= a < ph.xCells && 0 <= b < ph.yCells ==>
                  ph.grid[a, b] == MergeAll(old(ph.grid[a, b]), q0[..n], a, b, ph.sectorSize, ph.yCells)
      decreases |q.items|
    {
      var dataType, data := q.Dequeue(TagCmd, CmdData(Command(CmdStart)));
      assert q0[..n + 1][..n] == q0[..n] && q0[..n + 1][n] == data;
      ph.MapUpdate(data.sector);
      n := n + 1;
    }
    assert q0[..n] == q0;
  }

  /**
   * The grid after task_navigate's map update: a cell the deposit at
   * (x, y) covers holds `stamp` when `deposit` holds; every other cell
   * holds its old time merged with the received sectors `items`.
   */
  twostate predicate MapUpdated(ph: Pheromones, items: seq<Payload>, deposit: bool, x: int, y: int, stamp: int)
    reads ph, ph.grid, ph.pheromoneStencil
  {
    forall a, b :: 0 <= a < ph.grid.Length0 && 0 <= b < ph.grid.Length1 ==>
      ph.grid[a, b] ==
        if deposit && ph.Covered(x, y, a, b) then stamp
        else MergeAll(old(ph.grid[a, b]), items, a, b, ph.sectorSize, ph.yCells)
  }

  /**
   * The map part of task_navigate: the queue drained into the map, then
   * pf_accuracy against the room, and a deposit at (x, y) when it is
   * above the limit.
   */
  method UpdateMap(q: Queue, ph: Pheromones, f: Filter, roomWidth: int, roomHeight: int, x: int, y: int, stamp: int)
    requires q.Valid() && ph.Valid() && f.Valid() && ToInt32(roomWidth * roomHeight) != 0
    requires forall k :: 0 <= k < |q.items| ==> NavigateRecord(q.items[k])
    modifies q, ph.grid
    ensures q.Valid() && q.items == [] && ph.Valid()
    ensures MapUpdated(ph, old(q.items),
                       Percent(Area(GoodBox(f.particles[..])), ToInt32(roomWidth * roomHeight)) > AccuracyLimit,
                       x, y, stamp)
  {
    DrainNavigate(q, ph);
    var accuracy := f.Accuracy(roomWidth, roomHeight);
    if accuracy > AccuracyLimit {
      ph.Put(x, y, stamp);
    }
  }

  /** The sector records task_navigate appends to the send list, numbered 0 on. */
  function SectorRecords(sectors: seq<Sector>): (r: seq<Payload>)
    ensures |r| == |sectors| && forall k :: 0 <= k < |r| ==> r[k] == SectorData(sectors[k])
  {
    seq(|sectors|, k requires 0 <= k < |sectors| => SectorData(sectors[k]))
  }

  /**
   * The sending loop of task_navigate: the extracted sectors appended to
   * the send list in sector order.
   */
  method SendSectors(list: List, sectors: seq<Sector>)
    requires list.Valid()
    requires forall k :: 0 <= k < |list.items| ==> Sendable(list.items[k])
    requires forall k :: 0 <= k < |sectors| ==> 0 <= sectors[k].size <= |sectors[k].data|
    modifies list
    ensures list.Valid() && list.items == old(list.items) + SectorRecords(sectors)
    ensures forall k :: 0 <= k < |list.items| ==> Sendable(list.items[k])
  {
    for i := 0 to |sectors|
      invariant list.Valid() && list.items == old(list.items) + SectorRecords(sectors[..i])
      invariant forall k :: 0 <= k < |list.items| ==> Sendable(list.items[k])
    {
      list.InsertEnd(SectorData(sectors[i]));
      assert SectorRecords(sectors[..i + 1]) == SectorRecords(sectors[..i]) + [SectorData(sectors[i])];
    }
    assert sectors[..|sectors|] == sectors;
  }

  /** `after` is `before` followed by the map's sectors as extracted at time `stamp`, in sector order. */
  ghost predicate SectorsSent(before: seq<Payload>, after: seq<Payload>, ph: Pheromones, stamp: int)
    reads ph, ph.grid, ph.evalStencil, ph.pheromoneStencil
    requires ph.Valid()
  {
    before <= after && |after| == |before| + ph.sectorCount &&
    forall s :: 0 <= s < ph.sectorCount ==> after[|before| + s] == SectorData(ph.ExtractedSector(s, stamp))
  }

  /**
   * The sending part of task_navigate: the map extracted into its
   * sectors, stamped `stamp`, and each appended to the send list in
   * sector order.
   */
  method SendMap(list: List, ph: Pheromones, stamp: int)
    requires list.Valid() && ph.Valid() && ph.xCells > 0
    requires forall k :: 0 <= k < |list.items| ==> Sendable(list.items[k])
    modifies list
    ensures list.Valid() && forall k :: 0 <= k < |list.items| ==> Sendable(list.items[k])
    ensures SectorsSent(old(list.items), list.items, ph, stamp)
  {
    var sectors := ph.Extract(stamp);
    forall s | 0 <= s < ph.sectorCount
      ensures sectors[s] == ph.ExtractedSector(s, stamp)
    {
      assert sectors[s].data == ph.ExtractedSector(s, stamp).data;
    }
    SendSectors(list, sectors);
  }

  // ---------------------------------------------------------------------
  // The agent
  // ---------------------------------------------------------------------

  /** task_mission_t: the found victims (the array and its count) and the mission's counters and timers. */
  datatype MissionData = MissionData(victims: seq<Victim>, streamCounter: int,
                                     streamTimer: Timeval, goAheadTimer: Timeval)

  /**
   * The enabled branch of task_navigate, with `accuracy` pf_accuracy's
   * answer and `pose` the estimated pose: the queue `q` emptied into the
   * map (MapUpdated), with a deposit at the pose when the accuracy
   * exceeds 30; the map's sectors appended to `list` (SectorsSent); and
   * `control` the move handed to the control task. Both are stamped
   * `time(NULL) / lifetime` for the second `now`.
   */
  twostate predicate Navigated(q: Queue, list: List, ph: Pheromones, accuracy: int, pose: Robot, goAhead: int,
                               now: Timeval, evalMove: int, control: NavigateControl)
    reads q, list, ph, ph.grid, ph.evalStencil, ph.pheromoneStencil
  {
    ph.Valid() && ph.lifetime > 0 &&
    var stamp := QuantisedTime(now.sec, ph.lifetime);
    q.items == [] &&
    MapUpdated(ph, old(q.items), accuracy > AccuracyLimit, pose.x, pose.y, stamp) &&
    SectorsSent(old(list.items), list.items, ph, stamp) &&
    control == NavigateControl(true, if goAhead != 0 then evalMove else PhNone)
  }

  /** The body of the enabled navigate task, on the agent's parts. */
  method NavigateStep(q: Queue, list: List, ph: Pheromones, f: Filter, roomWidth: int, roomHeight: int,
                      pose: Robot, goAhead: int, now: Timeval, evalMove: int) returns (control: NavigateControl)
    requires q.Valid() && forall k :: 0 <= k < |q.items| ==> NavigateRecord(q.items[k])
    requires list.Valid() && forall k :: 0 <= k < |list.items| ==> Sendable(list.items[k])
    requires ph.Valid() && ph.xCells > 0 && ph.lifetime > 0 && f.Valid() && ToInt32(roomWidth * roomHeight) != 0
    modifies q, ph.grid, list
    ensures q.Valid() && list.Valid() && forall k :: 0 <= k < |list.items| ==> Sendable(list.items[k])
    ensures Navigated(q, list, ph, Percent(Area(GoodBox(f.particles[..])), ToInt32(roomWidth * roomHeight)),
                      pose, goAhead, now, evalMove, control)
  {
    var stamp := QuantisedTime(now.sec, ph.lifetime);
    UpdateMap(q, ph, f, roomWidth, roomHeight, pose.x, pose.y, stamp);
    SendMap(list, ph, stamp);
    if goAhead != 0 {
      control := NavigateControl(true, evalMove);
    } else {
      control := NavigateControl(true, PhNone);
    }
  }

  /** The globals of task.c, with the configuration values the tasks read. */
  class Agent {
    var enabled: Flags
    var missionData: MissionData
    /** task_control_t: when the mobile base was last asked for odometry. */
    var requestTimer: Timeval
    var refineReport: RefineReport
    var reportMission: ReportMission
    var navigateControl: NavigateControl
    var messageSequenceId: int
    var tdmaSlot: int
    var goAhead: int
    /** g_robot: the estimated pose. */
    var robot: Robot
    /** The command frames written to the mobile base, oldest first. */
    var base: seq<seq<byte>>
    /** The UDP frames broadcast, oldest first. */
    var broadcast: seq<seq<char>>

    const robotId: int
    const robotTeam: int
    const robotSpeed: int

    const sendList: List
    const missionQueue: Queue
    const navigateQueue: Queue
    const pheromones: Pheromones
    const filter: Filter
    const env: Env
    const sensors: OI.Sensors
    const reader: Rfid.Reader

    /**
     * The agent's invariant, part by part: every channel holds what its
     * readers expect, no two found victims share an id, and the pheromone
     * map and the particle filter are ready. Each task requires and keeps
     * the parts it touches; the others it leaves alone.
     */
    ghost predicate Valid()
      reads this`missionData, sendList, missionQueue, navigateQueue
      reads pheromones, pheromones.evalStencil, pheromones.pheromoneStencil, filter, filter.particles, env
    {
      SendReady() && QueuesReady() && VictimsStored() && MapReady() && FilterReady()
    }

    /** No two victims found share an id, and they fit the 100-entry victim array. */
    ghost predicate VictimsStored()
      reads this`missionData
    {
      DistinctIds(missionData.victims) && |missionData.victims| <= VictimMaxCount
    }

    /** The pheromone map is valid, its grid is not empty and its lifetime positive. */
    ghost predicate MapReady()
      reads pheromones, pheromones.evalStencil, pheromones.pheromoneStencil
    {
      pheromones.Valid() && pheromones.xCells > 0 && pheromones.lifetime > 0
    }

    /** The particle filter is valid and the room has an area. */
    ghost predicate FilterReady()
      reads filter, filter.particles, env
    {
      filter.Valid() && env.roomMaxWidth > 0 && env.roomMaxHeight > 0 && RoomArea() != 0
    }

    /** The send list holds only records the encoder can send. */
    ghost predicate SendReady()
      reads sendList
    {
      sendList.Valid() && forall k :: 0 <= k < |sendList.items| ==> Sendable(sendList.items[k])
    }

    /** The two queues are distinct and hold mission and pheromone records respectively. */
    ghost predicate QueuesReady()
      reads missionQueue, navigateQueue
    {
      missionQueue.Valid() && navigateQueue.Valid() && missionQueue != navigateQueue &&
      (forall k :: 0 <= k < |missionQueue.items| ==> MissionRecord(missionQueue.items[k])) &&
      (forall k :: 0 <= k < |navigateQueue.items| ==> NavigateRecord(navigateQueue.items[k]))
    }

    /** The room area in `int`, as pf_accuracy computes it. */
    function RoomArea(): int
      reads env
    {
      ToInt32(env.roomMaxWidth * env.roomMaxHeight)
    }

    /** What the mission task's queue handling reads and writes. */
    function View(): MissionView
      reads this
    {
      MissionView(missionData.victims, enabled, goAhead, missionData.goAheadTimer, base)
    }

    // What each task does to the agent, from the state before its run
    // (`old`) to the state after it.

    /**
     * task_mission: when enabled, the mission queue drained oldest first
     * (HandleAll), the victim the report task passed on stored if it is
     * new and that event cleared, then the stream timer restarted and one
     * stream record appended to the send list per whole 50 ms it had run,
     * numbered on from the stream counter. The go-ahead timer is read but
     * has no effect. When disabled nothing changes.
     */
    twostate predicate MissionRan(now: Timeval)
      reads this, missionQueue, navigateQueue, sendList
    {
      (!old(enabled.mission) ==>
         View() == old(View()) && missionData == old(missionData) && reportMission == old(reportMission) &&
         missionQueue.items == old(missionQueue.items) && sendList.items == old(sendList.items)) &&
      (old(enabled.mission) ==>
         var s := HandleAll(old(View()), old(missionQueue.items), now);
         var count := StreamsDue(old(missionData.streamTimer), now);
         missionQueue.items == [] &&
         enabled == s.enabled && goAhead == s.goAhead && base == s.base &&
         missionData.goAheadTimer == s.goAheadTimer &&
         missionData.victims == MissionVictims(old(View()), old(missionQueue.items), now, old(reportMission)) &&
         reportMission == old(reportMission).(event := false) &&
         missionData.streamTimer == now &&
         missionData.streamCounter == old(missionData.streamCounter) + count &&
         sendList.items == old(sendList.items) + Streams(old(missionData.streamCounter), count)) &&
      navigateQueue.items == old(navigateQueue.items)
    }

    /**
     * task_navigate: when enabled, every queued sector merged into the
     * pheromone map (oldest first), pheromone deposited at the estimated
     * pose when pf_accuracy exceeds 30, the map's sector_count sectors
     * appended to the send list, and a move handed to the control task:
     * pheromone_eval's choice `evalMove` while the go-ahead flag is set,
     * PH_NONE otherwise, with the event set. The deposit and the sectors
     * carry `time(NULL) / lifetime` for the second `now`. When disabled
     * nothing changes.
     */
    twostate predicate NavigateRan(now: Timeval, evalMove: int)
      reads this, navigateQueue, sendList, pheromones, pheromones.grid, pheromones.evalStencil
      reads pheromones.pheromoneStencil, filter, filter.particles, env
    {
      (!old(enabled.navigate) ==>
         navigateControl == old(navigateControl) && navigateQueue.items == old(navigateQueue.items) &&
         sendList.items == old(sendList.items) && unchanged(pheromones.grid)) &&
      (old(enabled.navigate) ==>
         MapReady() && FilterReady() &&
         Navigated(navigateQueue, sendList, pheromones, Percent(Area(GoodBox(filter.particles[..])), RoomArea()),
                   robot, goAhead, now, evalMove, navigateControl))
    }

    /**
     * task_control: when enabled, one ControlStepped run: odometry
     * requested at most every 300 ms and the particles driven by it, the
     * pose estimated and sent, and the navigate task's move passed to the
     * base as a drive command. `reply` is the base's answer to the
     * odometry request, `move` the particle motion model and `heading`
     * the heading pf_estimate computes. When disabled nothing changes.
     */
    twostate predicate ControlRan(now: Timeval, reply: seq<byte>, move: (Robot, int, int, int, nat) -> (int, int, real),
                                  heading: real)
      reads this, sensors, filter, filter.particles, sendList, env
    {
      (!old(enabled.control) ==>
         requestTimer == old(requestTimer) && robot == old(robot) && navigateControl == old(navigateControl) &&
         base == old(base) && sensors.Current() == old(sensors.Current()) &&
         filter.particles[..] == old(filter.particles[..]) && sendList.items == old(sendList.items)) &&
      (old(enabled.control) ==>
         ControlStepped(sensors, filter, sendList, now, reply, move, heading, robotSpeed,
                        env.roomMaxWidth, env.roomMaxHeight,
                        old(requestTimer), old(robot), old(navigateControl), old(base),
                        requestTimer, robot, navigateControl, base))
    }

    /**
     * task_refine: when enabled, the RFID reader read (`ready` and `bytes`
     * as Rfid.Reader.Read takes them) and the id it holds classified. A
     * known, enabled tag refines the particles and the pose as Refined
     * says (`d` the draws consumed, `picks` the resampling wheel's
     * choices, `touched` pf_random's); an unknown one is passed to the
     * report task with the event set; the empty tag and a disabled tag
     * change nothing more. When disabled nothing changes.
     */
    twostate predicate RefineRan(ready: bool, bytes: seq<char>, d: RefineDraws, heading: real,
                                 picks: seq<nat>, touched: seq<nat>)
      reads this, reader, filter, filter.particles, env
    {
      (!old(enabled.refine) ==>
         reader.id == old(reader.id) && reader.lastId == old(reader.lastId) &&
         filter.particles[..] == old(filter.particles[..]) && robot == old(robot) && refineReport == old(refineReport)) &&
      (old(enabled.refine) ==>
         reader.id == Rfid.TagRead(old(reader.id), ready, bytes) &&
         var status := TagStatus(env.tags, reader.id);
         (status >= 0 ==>
            refineReport == old(refineReport) &&
            Refined(filter, status, env.tags[status], env.roomMaxWidth, env.roomMaxHeight, d, heading,
                    old(robot), robot, picks, touched)) &&
         (status == TagUnknown ==>
            refineReport == RefineReport(true, reader.id) &&
            filter.particles[..] == old(filter.particles[..]) && robot == old(robot)) &&
         (status == TagZeros || status == TagDisabled ==>
            refineReport == old(refineReport) &&
            filter.particles[..] == old(filter.particles[..]) && robot == old(robot)))
    }

    /**
     * task_report: when enabled and the refine task left an id, the stored
     * victims searched for it; a new id becomes a victim at the estimated
     * pose, passed to the mission task with the event set and appended to
     * the send list. The refine event is cleared either way. Otherwise
     * nothing changes.
     */
    twostate predicate ReportRan()
      reads this, sendList
    {
      (!(old(enabled.report) && old(refineReport.event)) ==>
         refineReport == old(refineReport) && reportMission == old(reportMission) &&
         sendList.items == old(sendList.items)) &&
      (old(enabled.report) && old(refineReport.event) ==>
         var v := Victim(robot.x, robot.y, old(refineReport.victimId));
         refineReport == old(refineReport).(event := false) &&
         (Known(missionData.victims, v.id) ==>
            reportMission == old(reportMission) && sendList.items == old(sendList.items)) &&
         (!Known(missionData.victims, v.id) ==>
            reportMission == ReportMission(true, v) && sendList.items == old(sendList.items) + [VictimData(v)]))
    }

    /**
     * task_communicate: when enabled, the send list broadcast as data
     * frames (Flushed) and emptied, the frames `received` decoded in
     * arrival order and each routed to the mission or the navigate queue
     * (Routed), and the message sequence id moved on by one. When
     * disabled nothing changes.
     */
    twostate predicate CommunicateRan(now: Timeval, received: seq<seq<char>>)
      reads this, sendList, missionQueue, navigateQueue
    {
      (!old(enabled.communicate) ==>
         sendList.items == old(sendList.items) && missionQueue.items == old(missionQueue.items) &&
         navigateQueue.items == old(navigateQueue.items) && broadcast == old(broadcast) &&
         messageSequenceId == old(messageSequenceId)) &&
      (old(enabled.communicate) ==>
         var routed := Routed(received, robotId, robotTeam);
         old(SendReady()) && sendList.items == [] &&
         broadcast == old(broadcast) + Flushed(old(sendList.items), robotId, robotTeam, now, old(messageSequenceId)) &&
         missionQueue.items == old(missionQueue.items) + routed.0 &&
         navigateQueue.items == old(navigateQueue.items) + routed.1 &&
         messageSequenceId == old(messageSequenceId) + 1)
    }

    /**
     * task_avoid: when enabled, sensor packet 100 read from the base's
     * `reply` and the command AvoidanceOf chooses for its light-bumper
     * byte written to the base; `exit`, the process ending, exactly when
     * that choice is to halt. When disabled nothing changes.
     */
    twostate predicate AvoidRan(reply: seq<byte>, exit: bool)
      reads this, sensors
    {
      |reply| == OI.SensorBufferSize &&
      (!old(enabled.avoid) ==> !exit && base == old(base) && sensors.Current() == old(sensors.Current())) &&
      (old(enabled.avoid) ==>
         var a := AvoidanceOf(reply[56]);
         sensors.Current() == OI.Apply(old(sensors.Current()), 100, reply).value &&
         base == old(base) + AvoidFrames(a, robotSpeed) && exit == a.Halt?)
    }

    /**
     * task_init, given the subsystems it loads and opens: fresh send list
     * and queues; every task enabled when `enable` > 0, else only mission
     * and communicate; no victims, stream counter 0, the three timers set
     * to now; message sequence id 0, TDMA slot robot id - 1, go-ahead 1.
     * The pipes start zeroed, as C globals do.
     */
    constructor (enable: int, robotId: int, robotTeam: int, robotSpeed: int, now: Timeval, robot: Robot,
                 pheromones: Pheromones, filter: Filter, env: Env, sensors: OI.Sensors, reader: Rfid.Reader)
      requires pheromones.Valid() && pheromones.xCells > 0 && pheromones.lifetime > 0 && filter.Valid()
      requires env.roomMaxWidth > 0 && env.roomMaxHeight > 0 && ToInt32(env.roomMaxWidth * env.roomMaxHeight) != 0
      ensures Valid()
      ensures fresh(sendList) && fresh(missionQueue) && fresh(navigateQueue)
      ensures sendList.items == [] && missionQueue.items == [] && navigateQueue.items == []
      ensures enable > 0 ==> enabled == AllEnabled
      ensures enable <= 0 ==> enabled == MissionOnly
      ensures missionData == MissionData([], 0, now, now) && requestTimer == now
      ensures messageSequenceId == 0 && tdmaSlot == robotId - 1 && goAhead == 1
      ensures refineReport == RefineReport(false, []) && reportMission == ReportMission(false, Victim(0, 0, []))
      ensures navigateControl == NavigateControl(false, 0)
      ensures this.robot == robot && base == [] && broadcast == []
      ensures this.robotId == robotId && this.robotTeam == robotTeam && this.robotSpeed == robotSpeed
      ensures this.pheromones == pheromones && this.filter == filter && this.env == env
      ensures this.sensors == sensors && this.reader == reader
    {
      this.robotId, this.robotTeam, this.robotSpeed := robotId, robotTeam, robotSpeed;
      this.robot := robot;
      this.pheromones, this.filter, this.env, this.sensors, this.reader := pheromones, filter, env, sensors, reader;
      sendList := new List();
      missionQueue := new Queue();
      navigateQueue := new Queue();
      if enable > 0 {
        enabled := AllEnabled;
      } else {
        enabled := MissionOnly;
      }
      missionData := MissionData([], 0, now, now);
      requestTimer := now;
      messageSequenceId := 0;
      tdmaSlot := robotId - 1;
      goAhead := 1;
      refineReport := RefineReport(false, []);
      reportMission := ReportMission(false, Victim(0, 0, []));
      navigateControl := NavigateControl(false, 0);
      base, broadcast := [], [];
    }

    /**
     * task_mission, as MissionRan states. The victims it will hold must
     * fit the 100-entry victim array when it runs.
     */
    method Mission(now: Timeval)
      requires SendReady() && QueuesReady() && VictimsStored()
      requires enabled.mission ==> |MissionVictims(View(), missionQueue.items, now, reportMission)| <= VictimMaxCount
      modifies this`enabled, this`missionData, this`reportMission, this`goAhead, this`base, missionQueue, sendList
      ensures SendReady() && QueuesReady() && VictimsStored()
      ensures MissionRan(now)
    {
      if !enabled.mission {
        return;
      }
      var s := DrainMission(missionQueue, View(), now);
      var victims, pipe := s.victims, reportMission;
      if pipe.event {
        victims := StoreVictim(victims, pipe.victim);
        pipe := pipe.(event := false);
      }
      var count := StreamsDue(missionData.streamTimer, now);
      var counter := SendStreams(sendList, missionData.streamCounter, count);
      missionData, reportMission := MissionData(victims, counter, now, s.goAheadTimer), pipe;
      enabled, goAhead, base := s.enabled, s.goAhead, s.base;
    }

    /** task_navigate, as NavigateRan states. */
    method Navigate(now: Timeval, evalMove: int)
      requires SendReady() && QueuesReady() && MapReady() && FilterReady()
      modifies this`navigateControl, navigateQueue, pheromones.grid, sendList
      ensures SendReady() && QueuesReady() && MapReady()
      ensures NavigateRan(now, evalMove)
    {
      if !enabled.navigate {
        return;
      }
      navigateControl := NavigateStep(navigateQueue, sendList, pheromones, filter, env.roomMaxWidth, env.roomMaxHeight,
                                      robot, goAhead, now, evalMove);
    }

    /** task_control, as ControlRan states. */
    method Control(now: Timeval, reply: seq<byte>, move: (Robot, int, int, int, nat) -> (int, int, real), heading: real)
      requires SendReady() && FilterReady() && |reply| == OI.SensorBufferSize
      modifies this`requestTimer, this`robot, this`navigateControl, this`base, sensors, filter.particles, sendList
      ensures SendReady() && FilterReady()
      ensures ControlRan(now, reply, move, heading)
    {
      if !enabled.control {
        return;
      }
      requestTimer, robot, navigateControl, base :=
        ControlStep(sensors, filter, sendList, now, reply, move, heading, robotSpeed, env.roomMaxWidth, env.roomMaxHeight,
                    requestTimer, robot, navigateControl, base);
    }

    /** task_refine, as RefineRan states. */
    method Refine(ready: bool, bytes: seq<char>, d: RefineDraws, heading: real)
      returns (picks: seq<nat>, ghost touched: seq<nat>)
      requires FilterReady() && DrawsFit(d, filter.num)
      modifies reader, filter.particles, this`robot, this`refineReport
      ensures FilterReady()
      ensures RefineRan(ready, bytes, d, heading, picks, touched)
    {
      picks, touched := [], [];
      if !enabled.refine {
        return;
      }
      var _ := reader.Read(ready, bytes);
      var status := env.TagCheck(reader.id);
      if status >= 0 {
        robot, picks, touched := RefineStep(filter, status, env.tags[status], env.roomMaxWidth, env.roomMaxHeight, d, heading, robot);
      } else if status == TagUnknown {
        refineReport := RefineReport(true, reader.id);
      }
    }

    /** task_report, as ReportRan states. */
    method Report()
      requires SendReady()
      modifies this`refineReport, this`reportMission, sendList
      ensures SendReady()
      ensures ReportRan()
    {
      if !enabled.report || !refineReport.event {
        return;
      }
      var i := FindVictim(missionData.victims, refineReport.victimId);
      if i == |missionData.victims| {
        var v := Victim(robot.x, robot.y, refineReport.victimId);
        reportMission := ReportMission(true, v);
        sendList.InsertEnd(VictimData(v));
      }
      refineReport := refineReport.(event := false);
    }

    /** task_communicate, as CommunicateRan states. */
    method Communicate(now: Timeval, received: seq<seq<char>>)
      requires SendReady() && QueuesReady()
      modifies sendList, missionQueue, navigateQueue, this`broadcast, this`messageSequenceId
      ensures SendReady() && QueuesReady()
      ensures CommunicateRan(now, received)
    {
      if !enabled.communicate {
        return;
      }
      var frames := Flush(sendList, robotId, robotTeam, messageSequenceId, now);
      broadcast := broadcast + frames;
      Receive(missionQueue, navigateQueue, received, robotId, robotTeam);
      messageSequenceId := messageSequenceId + 1;
    }

    /** task_avoid, as AvoidRan states. */
    method Avoid(reply: seq<byte>) returns (exit: bool)
      requires |reply| == OI.SensorBufferSize
      modifies sensors, this`base
      ensures AvoidRan(reply, exit)
    {
      exit := false;
      if !enabled.avoid {
        return;
      }
      var _ := sensors.Update(100, reply);
      var bumper := sensors.lightBumper;
      if bumper > 0 {
        if 8 <= bumper <= 32 {
          base := base + [OI.DriveFrame(robotSpeed, SpinLeft)];
          return;
        } else if bumper <= 4 {
          base := base + [OI.DriveFrame(robotSpeed, SpinRight)];
          return;
        } else if bumper > 64 {
          base := base + [[OI.CmdStop]];
          exit := true;
          return;
        }
      }
    }
  }
}
