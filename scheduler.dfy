// The cyclic-executive helpers of scheduler.c: starting the timers,
// waiting for the end of a minor cycle, and running one task by its id.
//
// The clock is read by the caller and passed in as `now`; `usleep` is
// recorded in the `sleeps` trace instead of being performed. The
// scheduling loop itself (scheduler_run) is an empty stub in the source
// and has no counterpart here.

module CyclicExecutive {
  import opened General
  import opened TimeLib
  import opened Records
  import opened TaskRefine
  import opened Tasks
  import opened TaskAvoid
  import OI = OpenInterface

  /** The ids task.h gives the agent tasks; 0 is the no-operation id. */
  const NopId: int := 0
  const MissionId: int := 1
  const NavigateId: int := 2
  const ControlId: int := 3
  const RefineId: int := 4
  const ReportId: int := 5
  const CommunicateId: int := 6
  const AvoidId: int := 7

  /** The seven tasks of the agent. */
  datatype TaskName = MissionTask | NavigateTask | ControlTask | RefineTask | ReportTask | CommunicateTask | AvoidTask

  /** The id task.h gives each task. */
  function IdOf(t: TaskName): (id: int)
    ensures 1 <= id <= 7
  {
    match t
    case MissionTask => MissionId
    case NavigateTask => NavigateId
    case ControlTask => ControlId
    case RefineTask => RefineId
    case ReportTask => ReportId
    case CommunicateTask => CommunicateId
    case AvoidTask => AvoidId
  }

  /** The agent task scheduler_exec_task runs for `id`: one of the seven, or none for every other id. */
  function TaskOf(id: int): (t: Option<TaskName>)
  {
    if id == MissionId then Some(MissionTask)
    else if id == NavigateId then Some(NavigateTask)
    else if id == ControlId then Some(ControlTask)
    else if id == RefineId then Some(RefineTask)
    else if id == ReportId then Some(ReportTask)
    else if id == CommunicateId then Some(CommunicateTask)
    else if id == AvoidId then Some(AvoidTask)
    else None
  }

  /**
   * The dispatch runs exactly the agent task that has the id: every task is
   * reached through its own id and no other, and the ids outside 1..7,
   * the no-operation id among them, run nothing.
   */
  lemma DispatchExact(id: int, t: TaskName)
    ensures TaskOf(IdOf(t)) == Some(t)
    ensures TaskOf(id) == Some(t) <==> id == IdOf(t)
    ensures TaskOf(id).None? <==> !(1 <= id <= 7)
    ensures TaskOf(NopId).None?
  {
  }

  /**
   * What one task run needs from outside the agent: the clock, the
   * navigate task's choice of move, the base's sensor reply, the
   * particle motion model and pf_estimate's heading, the RFID reader's
   * readiness and bytes, the refine task's random draws, and the UDP
   * frames waiting to be received.
   */
  datatype Inputs = Inputs(
    now: Timeval, evalMove: int, reply: seq<byte>, move: (Robot, int, int, int, nat) -> (int, int, real),
    heading: real, ready: bool, bytes: seq<char>, draws: RefineDraws, received: seq<seq<char>>)

  /** The elapsed time since `cycle`, in microseconds, as `(int)(timelib_timer_get(...) * 1000)` stores it. */
  function ElapsedMicros(cycle: Timeval, now: Timeval): int
  {
    ToInt32(Trunc(TimerGet(cycle, now) * 1000.0))
  }

  /**
   * The sleep scheduler_wait_for_timer computes: `minor * 1000` in
   * `unsigned int`, the elapsed microseconds subtracted in `unsigned int`,
   * and the result stored in an `int`.
   */
  function SleepTime(minor: nat, cycle: Timeval, now: Timeval): int
  {
    ToInt32(((minor * 1000) % 0x1_0000_0000 - ElapsedMicros(cycle, now)) % 0x1_0000_0000)
  }

  /** The elapsed microseconds are the exact difference of the two instants, while that fits an `int`. */
  lemma ElapsedExact(cycle: Timeval, now: Timeval)
    requires -0x8000_0000 <= Micros(now) - Micros(cycle) < 0x8000_0000
    ensures ElapsedMicros(cycle, now) == Micros(now) - Micros(cycle)
  {
    var d := Micros(now) - Micros(cycle);
    assert TimerGet(cycle, now) * 1000.0 == d as real;
    assert Trunc(d as real) == d;
  }

  /**
   * While the numbers fit, the sleep lasts exactly until the next minor
   * cycle starts: now plus the sleep is the advanced cycle timer. So the
   * task sleeps exactly when the cycle has not overrun its `minor` ms.
   */
  lemma SleepEndsAtNextCycle(minor: nat, cycle: Timeval, now: Timeval)
    requires minor * 1000 < 0x8000_0000 && 0 <= Micros(now) - Micros(cycle) < 0x8000_0000
    ensures Micros(now) + SleepTime(minor, cycle, now) == Micros(AddMs(cycle, minor))
    ensures SleepTime(minor, cycle, now) > 0 <==> Micros(now) - Micros(cycle) < minor * 1000
  {
    ElapsedExact(cycle, now);
    var d := minor * 1000 - (Micros(now) - Micros(cycle));
    assert (minor * 1000) % 0x1_0000_0000 == minor * 1000;
    if d >= 0 {
      assert d % 0x1_0000_0000 == d;
    } else {
      assert d % 0x1_0000_0000 == d + 0x1_0000_0000;
    }
  }

  /** The cycle timer after n waits from `cycle`. */
  function CycleAfter(cycle: Timeval, minor: nat, n: nat): Timeval
    decreases n
  {
    if n == 0 then cycle else AddMs(CycleAfter(cycle, minor, n - 1), minor)
  }

  /**
   * The cycle timer does not drift: after n waits, overrun or not, it
   * stands exactly n minor cycles after where it started.
   */
  lemma {:induction false} CyclesDoNotDrift(cycle: Timeval, minor: nat, n: nat)
    requires minor * 1000 < 0x1_0000_0000
    ensures Micros(CycleAfter(cycle, minor, n)) == Micros(cycle) + n * minor * 1000
    decreases n
  {
    if n > 0 {
      CyclesDoNotDrift(cycle, minor, n - 1);
      assert n * minor * 1000 == (n - 1) * minor * 1000 + minor * 1000;
    }
  }

  /** scheduler_t: the minor cycle in ms, and the start and cycle timers. */
  class Scheduler {
    var minor: nat
    var started: Timeval
    var cycle: Timeval
    /** The `usleep` calls made, in microseconds, oldest first. */
    var sleeps: seq<int>

    /**
     * scheduler_init, with the minor cycle the caller sets; the timers
     * are not set until Start, and start at zero here.
     */
    constructor (minor: nat)
      requires minor < 0x1_0000_0000
      ensures this.minor == minor && started == Timeval(0, 0) && cycle == Timeval(0, 0) && sleeps == []
    {
      this.minor := minor;
      started, cycle := Timeval(0, 0), Timeval(0, 0);
      sleeps := [];
    }

    /** scheduler_start: both timers set to now. */
    method Start(now: Timeval)
      modifies this`started, this`cycle
      ensures started == now && cycle == now
    {
      started := now;
      cycle := now;
    }

    /**
     * scheduler_wait_for_timer: the time left in the minor cycle is
     * computed, the cycle timer is advanced by exactly `minor` ms whatever
     * the time, and the scheduler sleeps only when the time left is positive.
     */
    method WaitForTimer(now: Timeval) returns (sleep: int)
      modifies this`cycle, this`sleeps
      ensures sleep == SleepTime(minor, old(cycle), now)
      ensures cycle == AddMs(old(cycle), minor)
      ensures sleeps == old(sleeps) + (if sleep > 0 then [sleep] else [])
    {
      sleep := ToInt32(((minor * 1000) % 0x1_0000_0000 - ToInt32(Trunc(TimerGet(cycle, now) * 1000.0))) % 0x1_0000_0000);
      cycle := AddMs(cycle, minor);
      if sleep > 0 {
        sleeps := sleeps + [sleep];
      }
    }

    /**
     * scheduler_exec_task: runs the agent task with id `id` on the agent,
     * with `inputs` as its inputs, and nothing for any other id. `ran`
     * names the task that ran and `exit` says the avoid task ended the
     * process. The task with the id takes effect as TaskRan states, and
     * `exit` is set by the avoid task alone. The agent's invariant holds again afterwards, given room in
     * the victim array for what the mission task will hold, a whole
     * sensor reply for the control and avoid tasks and enough random
     * draws for the refine task.
     */
    method ExecTask(agent: Agent, id: int, inputs: Inputs) returns (ran: Option<TaskName>, exit: bool)
      requires agent.Valid()
      requires id == MissionId && agent.enabled.mission ==>
                 |MissionVictims(agent.View(), agent.missionQueue.items, inputs.now, agent.reportMission)| <= VictimMaxCount
      requires id == ControlId || id == AvoidId ==> |inputs.reply| == OI.SensorBufferSize
      requires id == RefineId ==> DrawsFit(inputs.draws, agent.filter.num)
      modifies agent, agent.sendList, agent.missionQueue, agent.navigateQueue, agent.pheromones.grid
      modifies agent.filter.particles, agent.sensors, agent.reader
      ensures agent.Valid()
      ensures ran == TaskOf(id)
      ensures TaskRan(agent, id, inputs, exit)
      ensures exit <==> id == AvoidId && old(agent.enabled.avoid) && AvoidanceOf(inputs.reply[56]).Halt?
      ensures ran.None? ==>
                unchanged(agent, agent.sendList, agent.missionQueue, agent.navigateQueue, agent.pheromones.grid) &&
                unchanged(agent.filter.particles, agent.sensors, agent.reader)
    {
      ran, exit := None, false;
      if id == MissionId {
        RunMission(agent, inputs.now);
        ran := Some(MissionTask);
      } else if id == NavigateId {
        RunNavigate(agent, inputs.now, inputs.evalMove);
        ran := Some(NavigateTask);
      } else if id == ControlId {
        RunControl(agent, inputs);
        ran := Some(ControlTask);
      } else if id == RefineId {
        RunRefine(agent, inputs);
        ran := Some(RefineTask);
      } else if id == ReportId {
        RunReport(agent);
        ran := Some(ReportTask);
      } else if id == CommunicateId {
        RunCommunicate(agent, inputs.now, inputs.received);
        ran := Some(CommunicateTask);
      } else if id == AvoidId {
        exit := RunAvoid(agent, inputs.reply);
        ran := Some(AvoidTask);
      }
    }
  }

  /**
   * What scheduler_exec_task does to the agent for task id `id`: the task
   * with that id takes effect as its own predicate states, and the parts
   * of the agent it does not write stay as they were.
   */
  twostate predicate TaskRan(agent: Agent, id: int, inputs: Inputs, exit: bool)
    reads agent, agent.sendList, agent.missionQueue, agent.navigateQueue, agent.pheromones, agent.pheromones.grid
    reads agent.pheromones.evalStencil, agent.pheromones.pheromoneStencil, agent.filter, agent.filter.particles, agent.env
    reads agent.sensors, agent.reader
  {
    (id == MissionId ==>
       agent.MissionRan(inputs.now) &&
       unchanged(agent.navigateQueue, agent.pheromones.grid, agent.filter.particles, agent.sensors, agent.reader)) &&
    (id == NavigateId ==>
       agent.NavigateRan(inputs.now, inputs.evalMove) &&
       unchanged(agent.missionQueue, agent.filter.particles, agent.sensors, agent.reader)) &&
    (id == ControlId ==>
       agent.ControlRan(inputs.now, inputs.reply, inputs.move, inputs.heading) &&
       unchanged(agent.missionQueue, agent.navigateQueue, agent.pheromones.grid, agent.reader)) &&
    (id == RefineId ==>
       (exists picks, touched :: agent.RefineRan(inputs.ready, inputs.bytes, inputs.draws, inputs.heading, picks, touched)) &&
       unchanged(agent.sendList, agent.missionQueue, agent.navigateQueue, agent.pheromones.grid, agent.sensors)) &&
    (id == ReportId ==>
       agent.ReportRan() &&
       unchanged(agent.missionQueue, agent.navigateQueue, agent.pheromones.grid, agent.filter.particles) &&
       unchanged(agent.sensors, agent.reader)) &&
    (id == CommunicateId ==>
       agent.CommunicateRan(inputs.now, inputs.received) &&
       unchanged(agent.pheromones.grid, agent.filter.particles, agent.sensors, agent.reader)) &&
    (id == AvoidId ==>
       agent.AvoidRan(inputs.reply, exit) &&
       unchanged(agent.sendList, agent.missionQueue, agent.navigateQueue, agent.pheromones.grid) &&
       unchanged(agent.filter.particles, agent.reader))
  }

  // Each task keeps the parts of the invariant it touches; the parts it
  // does not touch are kept because it does not write what they read.

  method RunMission(agent: Agent, now: Timeval)
    requires agent.Valid()
    requires agent.enabled.mission ==>
               |MissionVictims(agent.View(), agent.missionQueue.items, now, agent.reportMission)| <= VictimMaxCount
    modifies agent, agent.missionQueue, agent.sendList
    ensures agent.Valid() && agent.MissionRan(now)
    ensures unchanged(agent.navigateQueue, agent.pheromones.grid, agent.filter.particles, agent.sensors, agent.reader)
  {
    agent.Mission(now);
  }

  method RunNavigate(agent: Agent, now: Timeval, evalMove: int)
    requires agent.Valid()
    modifies agent, agent.navigateQueue, agent.pheromones.grid, agent.sendList
    ensures agent.Valid() && agent.NavigateRan(now, evalMove)
    ensures unchanged(agent.missionQueue, agent.filter.particles, agent.sensors, agent.reader)
  {
    agent.Navigate(now, evalMove);
  }

  method RunControl(agent: Agent, inputs: Inputs)
    requires agent.Valid() && |inputs.reply| == OI.SensorBufferSize
    modifies agent, agent.sensors, agent.filter.particles, agent.sendList
    ensures agent.Valid() && agent.ControlRan(inputs.now, inputs.reply, inputs.move, inputs.heading)
    ensures unchanged(agent.missionQueue, agent.navigateQueue, agent.pheromones.grid, agent.reader)
  {
    agent.Control(inputs.now, inputs.reply, inputs.move, inputs.heading);
  }

  method RunRefine(agent: Agent, inputs: Inputs)
    requires agent.Valid() && DrawsFit(inputs.draws, agent.filter.num)
    modifies agent, agent.reader, agent.filter.particles
    ensures agent.Valid()
    ensures exists picks, touched :: agent.RefineRan(inputs.ready, inputs.bytes, inputs.draws, inputs.heading, picks, touched)
    ensures unchanged(agent.sendList, agent.missionQueue, agent.navigateQueue, agent.pheromones.grid, agent.sensors)
  {
    var picks, touched := agent.Refine(inputs.ready, inputs.bytes, inputs.draws, inputs.heading);
  }

  method RunReport(agent: Agent)
    requires agent.Valid()
    modifies agent, agent.sendList
    ensures agent.Valid() && agent.ReportRan()
    ensures unchanged(agent.missionQueue, agent.navigateQueue, agent.pheromones.grid, agent.filter.particles)
    ensures unchanged(agent.sensors, agent.reader)
  {
    agent.Report();
  }

  method RunCommunicate(agent: Agent, now: Timeval, received: seq<seq<char>>)
    requires agent.Valid()
    modifies agent, agent.sendList, agent.missionQueue, agent.navigateQueue
    ensures agent.Valid() && agent.CommunicateRan(now, received)
    ensures unchanged(agent.pheromones.grid, agent.filter.particles, agent.sensors, agent.reader)
  {
    agent.Communicate(now, received);
  }

  method RunAvoid(agent: Agent, reply: seq<byte>) returns (exit: bool)
    requires agent.Valid() && |reply| == OI.SensorBufferSize
    modifies agent, agent.sensors
    ensures agent.Valid() && agent.AvoidRan(reply, exit)
    ensures exit <==> old(agent.enabled.avoid) && AvoidanceOf(reply[56]).Halt?
    ensures unchanged(agent.sendList, agent.missionQueue, agent.navigateQueue, agent.pheromones.grid)
    ensures unchanged(agent.filter.particles, agent.reader)
  {
    exit := agent.Avoid(reply);
  }
}
