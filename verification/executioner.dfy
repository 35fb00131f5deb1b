/**
  The control node `motion_executioner`: its readiness flags, the latch
  `successful_init`, the elapsed-time accumulator advanced by the timer
  callback, the command channel (what `publish` receives) and the three
  sensor logs (what `log_values` receives).

  The node's behaviour is first given as functions on a value `NodeState`
  (`Tick` for one timer activation, `Step` for any callback, `Run` for a
  sequence of callbacks); the class `MotionExecutioner` then holds the same
  fields and each of its methods is specified by those functions.
 */
module Executioner {
  import opened MotionProfiles

  /** The fixed timer period, in seconds. */
  const TIME_STEP: real := 0.1

  /** The profile labels the log file names are built from; `type` indexes this list. */
  const MOTION_TYPES: seq<string> := ["circle", "spiral", "line"]

  /** The node can be built only with an index the label list accepts; Python indexing also accepts -3..-1. */
  predicate IndexesMotionTypes(kind: int)
  {
    -|MOTION_TYPES| <= kind < |MOTION_TYPES|
  }

  datatype Sensor = Imu | Odom | Laser

  datatype Vector3 = Vector3(x: real, y: real, z: real)

  /** An inertial sample; `stampNs` is its header stamp already converted to nanoseconds. */
  datatype ImuMsg = ImuMsg(linearAcceleration: Vector3, angularVelocity: Vector3, stampNs: int)

  /** An odometry sample; `yaw` is the heading already extracted from the orientation quaternion. */
  datatype OdomMsg = OdomMsg(position: Vector3, yaw: real, stampNs: int)

  /** A range scan. */
  datatype LaserMsg = LaserMsg(ranges: seq<real>, angleIncrement: real, stampNs: int)

  /** Log rows, column for column as the loggers' headers name them. */
  datatype ImuRow = ImuRow(accX: real, accY: real, angularZ: real, stamp: int)
  datatype OdomRow = OdomRow(x: real, y: real, th: real, stamp: int)
  datatype LaserRow = LaserRow(ranges: seq<real>, angleIncrement: real, stamp: int)

  function ImuRowOf(m: ImuMsg): ImuRow
  {
    ImuRow(m.linearAcceleration.x, m.linearAcceleration.y, m.angularVelocity.z, m.stampNs)
  }

  function OdomRowOf(m: OdomMsg): OdomRow
  {
    OdomRow(m.position.x, m.position.y, m.yaw, m.stampNs)
  }

  function LaserRowOf(m: LaserMsg): LaserRow
  {
    LaserRow(m.ranges, m.angleIncrement, m.stampNs)
  }

  /** Every field of the node that the callbacks read or write. */
  datatype NodeState = NodeState(
    kind: int,
    timeStep: real,
    time: real,
    successfulInit: bool,
    imuInit: bool,
    odomInit: bool,
    laserInit: bool,
    published: seq<Twist>,
    imuLog: seq<ImuRow>,
    odomLog: seq<OdomRow>,
    laserLog: seq<LaserRow>)

  /** What one callback did: nothing visible, published one command, or raised SystemExit. */
  datatype Outcome = Quiet | Sent(cmd: Twist) | Exit

  datatype StepResult = StepResult(state: NodeState, outcome: Outcome)

  /** The outcome of a sequence of callbacks: the final state, and whether the process exited on the way. */
  datatype RunResult = RunResult(state: NodeState, exited: bool)

  /** The callbacks the executor dispatches; `Ready` is not in the node: it stands for the flag update its sensor callbacks never make. */
  datatype Event =
    | TimerTick
    | ImuEvent(imu: ImuMsg)
    | OdomEvent(odom: OdomMsg)
    | LaserEvent(laser: LaserMsg)
    | Ready(sensor: Sensor)

  /** The state right after construction. */
  function Init(kind: int): NodeState
  {
    NodeState(kind, TIME_STEP, 0.0, false, false, false, false, [], [], [], [])
  }

  predicate AllReady(s: NodeState)
  {
    s.imuInit && s.odomInit && s.laserInit
  }

  /** One timer activation: latch readiness, stay quiet while not ready, otherwise compute the command
      from the current time, advance time by one step and publish; an unknown profile raises SystemExit
      with the latch already set and before time or the channel change. */
  function Tick(s: NodeState): (r: StepResult)
    ensures r.state.successfulInit == (s.successfulInit || AllReady(s))
    ensures !r.state.successfulInit ==> r == StepResult(s, Quiet)
    ensures r.outcome.Exit? <==> r.state.successfulInit && ProfileOf(s.kind).None?
    ensures r.outcome.Exit? ==> r.state == s.(successfulInit := true)
    ensures r.outcome.Sent? <==> r.state.successfulInit && ProfileOf(s.kind).Some?
    ensures r.outcome.Sent? ==>
      && r.outcome.cmd == MakeTwist(ProfileOf(s.kind).value, s.time)
      && r.state == s.(successfulInit := true, time := s.time + s.timeStep, published := s.published + [r.outcome.cmd])
  {
    var latched := s.(successfulInit := s.successfulInit || AllReady(s));
    if !latched.successfulInit then
      StepResult(latched, Quiet)
    else
      match ProfileOf(latched.kind)
      case None => StepResult(latched, Exit)
      case Some(p) =>
        var cmd := MakeTwist(p, latched.time);
        StepResult(latched.(time := latched.time + latched.timeStep, published := latched.published + [cmd]), Sent(cmd))
  }

  /** Marks one sensor ready. Not in the node: its sensor callbacks never set a flag. */
  function MarkReady(s: NodeState, sensor: Sensor): NodeState
  {
    match sensor
    case Imu => s.(imuInit := true)
    case Odom => s.(odomInit := true)
    case Laser => s.(laserInit := true)
  }

  /** Any one callback. The sensor callbacks only append a row to their own log. */
  function Step(s: NodeState, e: Event): (r: StepResult)
    ensures e.TimerTick? ==> r == Tick(s)
    ensures !e.TimerTick? ==>
      && r.outcome == Quiet
      && r.state.kind == s.kind && r.state.timeStep == s.timeStep && r.state.time == s.time
      && r.state.successfulInit == s.successfulInit && r.state.published == s.published
    ensures e.ImuEvent? ==> r.state.imuLog == s.imuLog + [ImuRowOf(e.imu)]
    ensures e.OdomEvent? ==> r.state.odomLog == s.odomLog + [OdomRowOf(e.odom)]
    ensures e.LaserEvent? ==> r.state.laserLog == s.laserLog + [LaserRowOf(e.laser)]
    ensures e.ImuEvent? || e.OdomEvent? || e.LaserEvent? ==>
      r.state.(imuLog := s.imuLog, odomLog := s.odomLog, laserLog := s.laserLog) == s
  {
    match e
    case TimerTick => Tick(s)
    case ImuEvent(m) => StepResult(s.(imuLog := s.imuLog + [ImuRowOf(m)]), Quiet)
    case OdomEvent(m) => StepResult(s.(odomLog := s.odomLog + [OdomRowOf(m)]), Quiet)
    case LaserEvent(m) => StepResult(s.(laserLog := s.laserLog + [LaserRowOf(m)]), Quiet)
    case Ready(sensor) => StepResult(MarkReady(s, sensor), Quiet)
  }

  /** Callbacks run one after another, each to completion; SystemExit ends the process. The commands
      published so far stay, each tick adds at most one, and the process can only exit on a tick. */
  function Run(s: NodeState, events: seq<Event>): (r: RunResult)
    ensures s.published <= r.state.published
    ensures |r.state.published| <= |s.published| + CountTicks(events)
    ensures r.exited ==> CountTicks(events) > 0
    decreases |events|
  {
    if events == [] then RunResult(s, false)
    else
      var r := Step(s, events[0]);
      if r.outcome.Exit? then RunResult(r.state, true)
      else
        var rest := Run(r.state, events[1..]);
        assert s.published <= r.state.published <= rest.state.published;
        rest
  }

  function CountTicks(events: seq<Event>): nat
  {
    if events == [] then 0 else (if events[0].TimerTick? then 1 else 0) + CountTicks(events[1..])
  }

  /** Running `a` then `b` is running `a + b`, except that once `a` has raised SystemExit the process is
      gone and no callback of `b` runs: an exit is final. */
  lemma {:induction false} RunAppend(s: NodeState, a: seq<Event>, b: seq<Event>)
    ensures Run(s, a + b) == if Run(s, a).exited then Run(s, a) else Run(Run(s, a).state, b)
    decreases |a|
  {
    if a == [] {
      assert a + b == b;
    } else {
      assert (a + b)[0] == a[0];
      assert (a + b)[1..] == a[1..] + b;
      if !Step(s, a[0]).outcome.Exit? {
        RunAppend(Step(s, a[0]).state, a[1..], b);
      }
    }
  }

  /** How many messages of one sensor the events deliver. */
  function Received(events: seq<Event>, sensor: Sensor): nat
  {
    if events == [] then 0
    else
      var here := match events[0]
        case ImuEvent(_) => sensor == Imu
        case OdomEvent(_) => sensor == Odom
        case LaserEvent(_) => sensor == Laser
        case _ => false;
      (if here then 1 else 0) + Received(events[1..], sensor)
  }

  function LogLength(s: NodeState, sensor: Sensor): nat
  {
    match sensor
    case Imu => |s.imuLog|
    case Odom => |s.odomLog|
    case Laser => |s.laserLog|
  }

  predicate NoReadyEvents(events: seq<Event>)
  {
    forall i :: 0 <= i < |events| ==> !events[i].Ready?
  }

  /** The node's invariant from construction on: the step is fixed, the latch implies all flags, nothing is
      published before the latch, time is the number of published commands times the step, and the k-th
      command is the profile's command at time k * step. */
  ghost predicate Consistent(s: NodeState)
  {
    && s.timeStep == TIME_STEP
    && (s.successfulInit ==> AllReady(s))
    && (s.published != [] ==> s.successfulInit && ProfileOf(s.kind).Some?)
    && s.time == |s.published| as real * TIME_STEP
    && (ProfileOf(s.kind).Some? ==>
          forall k :: 0 <= k < |s.published| ==> s.published[k] == MakeTwist(ProfileOf(s.kind).value, k as real * TIME_STEP))
  }

  lemma InitIsConsistent(kind: int)
    ensures Consistent(Init(kind))
    ensures Init(kind).time == 0.0 && !Init(kind).successfulInit && !Init(kind).imuInit
    ensures !Init(kind).odomInit && !Init(kind).laserInit && Init(kind).published == []
  {
  }

  lemma StepKeepsConsistent(s: NodeState, e: Event)
    requires Consistent(s)
    ensures Consistent(Step(s, e).state)
  {
  }

  /** Every run from a consistent state ends in a consistent state. */
  lemma {:induction false} RunKeepsConsistent(s: NodeState, events: seq<Event>)
    requires Consistent(s)
    ensures Consistent(Run(s, events).state)
    decreases |events|
  {
    if events != [] {
      StepKeepsConsistent(s, events[0]);
      var r := Step(s, events[0]);
      if !r.outcome.Exit? {
        RunKeepsConsistent(r.state, events[1..]);
      }
    }
  }

  /** From construction, after any callbacks: time only moves with emission (time = commands * 0.1), no
      command exists unless all three flags are set, and the k-th command is the profile at time k * 0.1. */
  lemma PublishedFollowProfile(kind: int, events: seq<Event>)
    ensures var s := Run(Init(kind), events).state;
      && s.time == |s.published| as real * TIME_STEP
      && (s.published != [] ==> AllReady(s) && s.successfulInit)
      && (ProfileOf(kind).Some? ==>
            forall k :: 0 <= k < |s.published| ==> s.published[k] == MakeTwist(ProfileOf(kind).value, k as real * TIME_STEP))
  {
    InitIsConsistent(kind);
    RunKeepsConsistent(Init(kind), events);
    assert Run(Init(kind), events).state.kind == kind by {
      RunKeepsFixedFields(Init(kind), events);
    }
  }

  /** No callback changes the profile or the step. */
  lemma {:induction false} RunKeepsFixedFields(s: NodeState, events: seq<Event>)
    ensures Run(s, events).state.kind == s.kind
    ensures Run(s, events).state.timeStep == s.timeStep
    decreases |events|
  {
    if events != [] {
      var r := Step(s, events[0]);
      if !r.outcome.Exit? {
        RunKeepsFixedFields(r.state, events[1..]);
      }
    }
  }

  /** One callback never lowers the latch or a flag and only appends to the channel and the logs. */
  lemma StepIsMonotone(s: NodeState, e: Event)
    ensures var t := Step(s, e).state;
      && (s.successfulInit ==> t.successfulInit)
      && (s.imuInit ==> t.imuInit) && (s.odomInit ==> t.odomInit) && (s.laserInit ==> t.laserInit)
      && s.published <= t.published
      && s.imuLog <= t.imuLog && s.odomLog <= t.odomLog && s.laserLog <= t.laserLog
  {
  }

  /** The latch is one-way and so are the flags; the command channel and the logs are append-only. */
  lemma {:induction false} RunIsMonotone(s: NodeState, events: seq<Event>)
    ensures var t := Run(s, events).state;
      && (s.successfulInit ==> t.successfulInit)
      && (s.imuInit ==> t.imuInit) && (s.odomInit ==> t.odomInit) && (s.laserInit ==> t.laserInit)
      && s.published <= t.published
      && s.imuLog <= t.imuLog && s.odomLog <= t.odomLog && s.laserLog <= t.laserLog
    decreases |events|
  {
    if events != [] {
      var r := Step(s, events[0]);
      StepIsMonotone(s, events[0]);
      if !r.outcome.Exit? {
        RunIsMonotone(r.state, events[1..]);
        assert Run(s, events) == Run(r.state, events[1..]);
      }
    }
  }

  /** As written, no callback sets a readiness flag: while one flag is down and the latch is unset, no
      sequence of sensor messages and ticks publishes, advances time, sets the latch or exits. */
  lemma {:induction false} GateStaysClosed(s: NodeState, events: seq<Event>)
    requires NoReadyEvents(events)
    requires !s.successfulInit && !AllReady(s)
    ensures var r := Run(s, events);
      && !r.exited
      && r.state.published == s.published
      && r.state.time == s.time
      && !r.state.successfulInit
      && !AllReady(r.state)
    decreases |events|
  {
    if events != [] {
      assert !events[0].Ready?;
      assert NoReadyEvents(events[1..]) by {
        forall i | 0 <= i < |events[1..]| ensures !events[1..][i].Ready? {
          assert events[1..][i] == events[i + 1];
        }
      }
      GateStaysClosed(Step(s, events[0]).state, events[1..]);
    }
  }

  /** The node as constructed never moves the robot: time stays 0.0 and nothing is published. */
  lemma AsWrittenNeverPublishes(kind: int, events: seq<Event>)
    requires NoReadyEvents(events)
    ensures !Run(Init(kind), events).exited
    ensures Run(Init(kind), events).state.published == []
    ensures Run(Init(kind), events).state.time == 0.0
  {
    GateStaysClosed(Init(kind), events);
  }

  /** Once all three flags are up (latched or not yet) with a known profile, every tick publishes exactly
      one command and the process never exits. */
  lemma {:induction false} OneCommandPerTick(s: NodeState, events: seq<Event>)
    requires (s.successfulInit || AllReady(s)) && ProfileOf(s.kind).Some?
    ensures !Run(s, events).exited
    ensures |Run(s, events).state.published| == |s.published| + CountTicks(events)
    decreases |events|
  {
    if events != [] {
      var r := Step(s, events[0]);
      OneCommandPerTick(r.state, events[1..]);
    }
  }

  /** SystemExit is raised only for an unknown profile, and a node with an unknown profile never publishes
      nor advances time. */
  lemma {:induction false} ExitOnlyForUnknownProfile(s: NodeState, events: seq<Event>)
    ensures Run(s, events).exited ==> ProfileOf(s.kind).None?
    ensures ProfileOf(s.kind).None? ==> Run(s, events).state.published == s.published && Run(s, events).state.time == s.time
    decreases |events|
  {
    if events != [] {
      var r := Step(s, events[0]);
      if !r.outcome.Exit? {
        ExitOnlyForUnknownProfile(r.state, events[1..]);
      }
    }
  }

  /** Each log holds one row per message its sensor delivered, whatever the readiness or the profile,
      for as long as the process runs. */
  lemma {:induction false} LogRowsMatchMessages(s: NodeState, events: seq<Event>, sensor: Sensor)
    requires !Run(s, events).exited
    ensures LogLength(Run(s, events).state, sensor) == LogLength(s, sensor) + Received(events, sensor)
    decreases |events|
  {
    if events != [] {
      var r := Step(s, events[0]);
      assert !r.outcome.Exit?;
      LogRowsMatchMessages(r.state, events[1..], sensor);
    }
  }

  /** The spiral scenario: one message per sensor, the three flags raised, then three ticks publish
      (0.0, 1.0), (0.01, 1.0), (0.02, 1.0) and leave time at 0.3. */
  lemma SpiralScenario(imu: ImuMsg, odom: OdomMsg, laser: LaserMsg)
    ensures var events := [ImuEvent(imu), OdomEvent(odom), LaserEvent(laser), Ready(Imu), Ready(Odom), Ready(Laser),
                           TimerTick, TimerTick, TimerTick];
      var r := Run(Init(SPIRAL), events);
      && !r.exited
      && r.state.published == [Twist(0.0, 1.0), Twist(0.01, 1.0), Twist(0.02, 1.0)]
      && r.state.time == 0.3
  {
    var events := [ImuEvent(imu), OdomEvent(odom), LaserEvent(laser), Ready(Imu), Ready(Odom), Ready(Laser),
                   TimerTick, TimerTick, TimerTick];
    var s0 := Init(SPIRAL);
    var s1 := Step(s0, events[0]).state;
    var s2 := Step(s1, events[1]).state;
    var s3 := Step(s2, events[2]).state;
    var s4 := Step(s3, events[3]).state;
    var s5 := Step(s4, events[4]).state;
    var s6 := Step(s5, events[5]).state;
    assert AllReady(s6);
    var s7 := Step(s6, events[6]).state;
    var s8 := Step(s7, events[7]).state;
    var s9 := Step(s8, events[8]).state;
    assert s7.published == [Twist(0.0, 1.0)];
    assert s8.published == [Twist(0.0, 1.0), Twist(0.01, 1.0)];
    assert s9.published == [Twist(0.0, 1.0), Twist(0.01, 1.0), Twist(0.02, 1.0)];
    assert Run(s9, events[9..]) == RunResult(s9, false);
    assert Run(s8, events[8..]) == RunResult(s9, false);
    assert Run(s7, events[7..]) == RunResult(s9, false);
    assert Run(s6, events[6..]) == RunResult(s9, false);
    assert Run(s5, events[5..]) == RunResult(s9, false);
    assert Run(s4, events[4..]) == RunResult(s9, false);
    assert Run(s3, events[3..]) == RunResult(s9, false);
    assert Run(s2, events[2..]) == RunResult(s9, false);
    assert Run(s1, events[1..]) == RunResult(s9, false);
    assert Run(s0, events) == RunResult(s9, false);
  }

  /** The node. Its fields are the attributes of `motion_executioner` that the callbacks use; the two
      channels `published` and the logs record what `publish` and `log_values` receive. */
  class MotionExecutioner {
    var kind: int
    var timeStep: real
    var time: real
    var successfulInit: bool
    var imuInit: bool
    var odomInit: bool
    var laserInit: bool
    var published: seq<Twist>
    var imuLog: seq<ImuRow>
    var odomLog: seq<OdomRow>
    var laserLog: seq<LaserRow>

    function State(): NodeState
      reads this
    {
      NodeState(kind, timeStep, time, successfulInit, imuInit, odomInit, laserInit, published, imuLog, odomLog, laserLog)
    }

    /** Construction: time 0.0, step 0.1, every flag and the latch down, nothing published or logged. */
    constructor (motionType: int)
      requires IndexesMotionTypes(motionType)
      ensures State() == Init(motionType)
      ensures Consistent(State())
    {
      kind := motionType;
      time := 0.0;
      timeStep := TIME_STEP;
      successfulInit := false;
      imuInit := false;
      odomInit := false;
      laserInit := false;
      published := [];
      imuLog := [];
      odomLog := [];
      laserLog := [];
      InitIsConsistent(motionType);
    }

    method ImuCallback(msg: ImuMsg)
      modifies this
      ensures State() == Step(old(State()), ImuEvent(msg)).state
      ensures imuLog == old(imuLog) + [ImuRowOf(msg)]
    {
      imuLog := imuLog + [ImuRowOf(msg)];
    }

    method OdomCallback(msg: OdomMsg)
      modifies this
      ensures State() == Step(old(State()), OdomEvent(msg)).state
      ensures odomLog == old(odomLog) + [OdomRowOf(msg)]
    {
      odomLog := odomLog + [OdomRowOf(msg)];
    }

    method LaserCallback(msg: LaserMsg)
      modifies this
      ensures State() == Step(old(State()), LaserEvent(msg)).state
      ensures laserLog == old(laserLog) + [LaserRowOf(msg)]
    {
      laserLog := laserLog + [LaserRowOf(msg)];
    }

    /** Not part of the node: raises one readiness flag, the update its sensor callbacks never make. */
    method MarkSensorReady(sensor: Sensor)
      modifies this
      ensures State() == Step(old(State()), Ready(sensor)).state
    {
      match sensor {
        case Imu => imuInit := true;
        case Odom => odomInit := true;
        case Laser => laserInit := true;
      }
    }

    /** The timer callback. Returns `Exit` where the node raises SystemExit. */
    method TimerCallback() returns (outcome: Outcome)
      modifies this
      ensures StepResult(State(), outcome) == Tick(old(State()))
      ensures Consistent(old(State())) ==> Consistent(State())
    {
      ghost var before := State();
      if odomInit && laserInit && imuInit {
        successfulInit := true;
      }
      if !successfulInit {
        return Quiet;
      }
      var cmd;
      if kind == CIRCLE {
        cmd := CircularTwist();
      } else if kind == SPIRAL {
        cmd := SpiralTwist(time);
      } else if kind == ACC_LINE {
        cmd := AccLineTwist();
      } else {
        return Exit;
      }
      time := time + timeStep;
      published := published + [cmd];
      outcome := Sent(cmd);
      if Consistent(before) {
        StepKeepsConsistent(before, TimerTick);
      }
    }
  }
}
