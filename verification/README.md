# motion_executioner: a Dafny model of the motion node

`motions.py` defines a ROS 2 node, `motion_executioner`. It drives a mobile robot through one of three
open-loop motion profiles: circle, spiral, or "accelerated line". It also logs three sensor streams
(inertial, odometry, laser scan). This project models the part of the node that has behaviour of its own:

- **Profile generator** (`motion_profiles.dfy`, module `MotionProfiles`). The three `make_*_twist`
  functions map a profile and an elapsed time to a two-field command `(linear.x, angular.z)`.
  `ProfileOf` dispatches an integer profile identifier (`CIRCLE=0`, `SPIRAL=1`, `ACC_LINE=2`) to a profile.
- **Control node** (`executioner.dfy`, module `Executioner`). One timer activation is the function `Tick`
  on a value `NodeState`. Any callback is `Step`, and a sequence of callbacks run one at a time is `Run`.
  `Run` stops at `SystemExit`. The class `MotionExecutioner` has the node's fields, and each of its methods
  is specified by `Step`/`Tick`. Publishing appends to the field `published`. `log_values` appends a row
  to the sensor's log field.
- **Entry point** (`launcher.dfy`, module `Launcher`). The `--motion` argument is lower-cased and matched
  against "circle", "line" and "spiral". A match builds a node with that identifier; anything else builds none.

The readiness flags `imu_initialized`, `odom_initialized` and `laser_initialized` start false, and no
callback in the node ever sets them. As written, the gate in the timer callback therefore never opens.
`GateStaysClosed` and `AsWrittenNeverPublishes` prove this: the robot never receives a command and time
stays at 0.0. Some properties only mean something once the gate is open, so the model adds one thing
that is not in the node: an event `Ready(sensor)`, with the method `MotionExecutioner.MarkSensorReady`,
that raises one flag. The sensor callbacks themselves stay as written; they only log.

A node meant to start moving would raise each flag on its sensor's first message. These callbacks do
not, and the model follows the code. The end-to-end spiral scenario (`SpiralScenario`) therefore raises
the three flags explicitly with `Ready` events.

The node's constructor indexes the list `motion_types` with the identifier to name its log files. Python
list indexing accepts -3..2, so the constructor requires `IndexesMotionTypes`. An identifier in -3..-1
builds a node whose first open-gate tick raises `SystemExit`. The model keeps this reachable error path.
In that case the latch `successful_init` is set before the exit, and time and the command channel are
untouched.

## Model

| member | source | states |
|---|---|---|
| MotionProfiles.ProfileOf | motions.py:101-112 | identifiers 0, 1, 2 select circle, spiral and line respectively (each an if-and-only-if); every other identifier selects nothing |
| MotionProfiles.MakeTwist | motions.py:121-140 | the generator: circle gives (1.0, 1.0), spiral gives (time/10, 1.0), line gives (1.0, 0.0) |
| MotionProfiles.CircleIsConstantUnitRadius | motions.py:121-126 | the circle command is (1.0, 1.0) for every time, so the radius linear/angular is 1 |
| MotionProfiles.LineIsConstantAndStraight | motions.py:135-140 | the line command is (1.0, 0.0) at every time: it neither turns nor accelerates |
| MotionProfiles.OnlySpiralDependsOnTime | motions.py:101-108 | circle and line ignore the time; two spiral commands are equal exactly when their times are |
| MotionProfiles.SpiralRamp | motions.py:128-133 | the spiral command is (t/10, 1.0); shifting time by d shifts the forward speed by d/10 and keeps the turn rate |
| MotionProfiles.SpiralIsUnbounded | motions.py:128-133 | there is no clamp: the spiral's forward speed exceeds any bound at some non-negative time |
| Executioner.Tick | motions.py:91-116 | the latch becomes old latch or all three flags; unlatched, the tick changes nothing and publishes nothing; latched with an unknown identifier it exits, with only the latch changed; otherwise it publishes exactly one command, computed from the old time, and then time is old time plus the step, with no other field changed |
| Executioner.Step | motions.py:72-116 | a timer tick is `Tick`; any other callback publishes nothing and leaves the profile, step, time, latch and command channel unchanged; a sensor message appends exactly its row to its own log and changes nothing else (the three readiness flags and the other two logs included) |
| Executioner.Run | motions.py:72-116 | over callbacks run in sequence, earlier commands stay, each tick adds at most one command, and the process exits only if some tick ran; an exit is final (see `RunAppend`) |
| Executioner.RunAppend | motions.py:110-112 | running `a` then `b` equals running `a + b`, unless `a` raised SystemExit: then `a + b` ends exactly where `a` ended, and no later callback runs or changes anything |
| Executioner.InitIsConsistent | motions.py:31-41 | the constructed state has time 0.0, every flag and the latch false, nothing published, and satisfies the node invariant `Consistent` |
| Executioner.StepKeepsConsistent | motions.py:72-116 | every callback preserves `Consistent`: step fixed at 0.1, latch implies all flags, nothing published before the latch, time equals commands times 0.1, and the k-th command is the profile at time k·0.1 |
| Executioner.RunKeepsConsistent | motions.py:72-116 | any sequence of callbacks preserves `Consistent` |
| Executioner.PublishedFollowProfile | motions.py:91-116 | from construction, after any callbacks: time equals the number of published commands times 0.1, any published command implies all flags and the latch are set, and the k-th command is the profile's command at time k·0.1 |
| Executioner.RunKeepsFixedFields | motions.py:31-36 | no callback changes the profile identifier or the time step |
| Executioner.StepIsMonotone | motions.py:72-116 | one callback never lowers the latch or a flag, and only appends to the command channel and to the logs |
| Executioner.RunIsMonotone | motions.py:72-116 | over any callbacks the latch is one-way, the flags never revert, and the channel and logs are append-only |
| Executioner.GateStaysClosed | motions.py:72-97 | with the latch unset, one flag down and no flag-raising event, no callbacks publish, advance time, set the latch or exit |
| Executioner.AsWrittenNeverPublishes | motions.py:35-97 | a constructed node, given any sensor messages and ticks, publishes nothing, keeps time at 0.0 and never exits |
| Executioner.OneCommandPerTick | motions.py:93-116 | once all three flags are up (whether or not the latch is already set) with a known profile, the process never exits and publishes exactly one command per tick, the first such tick included |
| Executioner.ExitOnlyForUnknownProfile | motions.py:110-114 | a run exits only if the identifier is unknown, and a node with an unknown identifier never publishes or advances time |
| Executioner.LogRowsMatchMessages | motions.py:72-89 | while the process runs, each sensor log gains exactly one row per message of that sensor, regardless of readiness or profile |
| Executioner.SpiralScenario | motions.py:91-133 | spiral node, one message per sensor, three flags raised, three ticks: the commands are (0.0, 1.0), (0.01, 1.0), (0.02, 1.0) and time ends at 0.3 |
| Executioner.MotionExecutioner.constructor | motions.py:27-41 | accepts exactly the identifiers the label list can be indexed with; the node starts in `Init`, which is consistent |
| Executioner.MotionExecutioner.ImuCallback | motions.py:72-77 | appends (acc x, acc y, angular z, stamp) to the inertial log and changes nothing else |
| Executioner.MotionExecutioner.OdomCallback | motions.py:79-84 | appends (x, y, yaw, stamp) to the odometry log and changes nothing else |
| Executioner.MotionExecutioner.LaserCallback | motions.py:86-89 | appends (ranges, angle increment, stamp) to the laser log and changes nothing else |
| Executioner.MotionExecutioner.TimerCallback | motions.py:91-116 | the new state and the outcome are exactly `Tick` of the old state, and the node invariant is preserved |
| Launcher.Lower | motions.py:158 | lower-casing keeps the length; its effect on each character is stated by `LowerIsLowerCase` |
| Launcher.LowerIsLowerCase | motions.py:158 | the lower-cased argument has no upper-case ASCII letter; each upper-case ASCII letter becomes its own lower-case letter (code point + 32), and every other character is unchanged |
| Launcher.LowerMatchesIgnoringCase | motions.py:158 | for a capital-free name, lower-casing the argument gives the name exactly when the argument spells the name in any ASCII letter case (`EqualsIgnoringAsciiCase`) |
| Launcher.LowerIsIdempotent | motions.py:158 | lower-casing twice equals lower-casing once |
| Launcher.SelectMotion | motions.py:158-168 | selects CIRCLE, ACC_LINE or SPIRAL exactly when the argument equals "circle", "line" or "spiral" ignoring ASCII letter case (each an if-and-only-if), and nothing otherwise |
| Launcher.CapitalisedNamesSelect | motions.py:158-165 | "CIRCLE", "Line" and "SpIrAl" select CIRCLE, ACC_LINE and SPIRAL |
| Launcher.DefaultOptionSelectsCircle | motions.py:150 | the option's default value "circle" selects CIRCLE |
| Launcher.SelectMotionIsExact | motions.py:158-168 | "circle" selects CIRCLE, "line" selects ACC_LINE and "spiral" selects SPIRAL, each after lower-casing and as an if-and-only-if; every other argument selects nothing |
| Launcher.SelectIsCaseInsensitive | motions.py:158-165 | the selection of an argument equals the selection of its lower-cased form |
| Launcher.SelectedNodeNeverExits | motions.py:22-23 | a selected identifier is a valid label index and a known profile, so its node never raises SystemExit on any callbacks |
| Launcher.Launch | motions.py:158-168 | builds a fresh node in the initial state with the selected identifier exactly when the argument selects one, and otherwise builds none |

## Left out

- The ROS 2 transport is not modelled. This covers the publisher, the three subscriptions, the QoS profile, timer creation, `rclpy.init` and `rclpy.spin`, and the `KeyboardInterrupt` handler (motions.py:44-63, 154, 172-175). Publishing is modelled only by what `publish` receives.
- `Logger` from `utilities` is not part of this model. `log_values` is modelled as appending one row to a per-sensor sequence; file I/O and the CSV header and file names are left out.
- `euler_from_quaternion` and `Time.from_msg(...).nanoseconds` are foreign calls. Their results (the yaw and the stamp in nanoseconds) are fields of the message datatypes.
- Floating point is not modelled. Time, the step and the commands are exact reals, so IEEE rounding drift from repeatedly adding 0.1 is out of scope.
- The message the timer callback prints before `SystemExit` (motions.py:111) is not modelled.
- The else-branch at motions.py:168 builds its message from the undefined name `arg`, so it raises `NameError` before anything is printed and before `spin`. It is modelled only as "no node is built".
- Argument parsing (motions.py:147-156) is not modelled. `Launch` takes the option's value, and a caller that gives no `--motion` passes `"circle"`, argparse's default (`DefaultOptionSelectsCircle`).
- The attribute `radius_` is never read, so it is not modelled. The node name passed to `Node.__init__` is not modelled either.
- Launcher.Lower lower-cases only ASCII letters; Python's `str.lower` maps all of Unicode. No non-ASCII character lower-cases to one of the three profile names, so the selection is not affected.
- The process end at `SystemExit` is modelled as `Run` stopping, with the flag `exited` set.
- Concurrency is not modelled. Callbacks run to completion one after another in a single-threaded executor, so they are modelled as sequential steps.
- A `type` of a non-integer Python value is not modelled; the identifier is an `int`.
- The constructor's default `motion_type=0` (motions.py:27) is not modelled: the entry point always passes an identifier (motions.py:160-165), so the default is never used.
