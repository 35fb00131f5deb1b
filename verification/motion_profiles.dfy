/**
  The motion-profile generator of the `motion_executioner` node: the three
  open-loop velocity commands, the integer profile identifiers the node is
  built with, and the dispatch from an identifier to a profile.
 */
module MotionProfiles {

  datatype Option<+T> = None | Some(value: T)

  /** Profile identifiers, as the node stores them in its `type` attribute. */
  const CIRCLE: int := 0
  const SPIRAL: int := 1
  const ACC_LINE: int := 2

  /** The velocity command published on the command channel: the two fields of a Twist the node fills. */
  datatype Twist = Twist(linearX: real, angularZ: real)

  /** The closed set of motion profiles. */
  datatype Profile = Circle | Spiral | AccLine

  /** Circular motion: unit forward speed and unit turn rate, whatever the time. */
  function CircularTwist(): Twist
  {
    Twist(1.0, 1.0)
  }

  /** Spiral motion: forward speed grows with the elapsed time, turn rate stays 1. No clamp. */
  function SpiralTwist(time: real): Twist
  {
    Twist(time / 10.0, 1.0)
  }

  /** The "accelerated line": despite its name, a constant forward speed and no turning. */
  function AccLineTwist(): Twist
  {
    Twist(1.0, 0.0)
  }

  /** The identifier dispatch of the timer callback: a known identifier selects a profile, any other selects none. */
  function ProfileOf(kind: int): (p: Option<Profile>)
    ensures p.Some? <==> kind == CIRCLE || kind == SPIRAL || kind == ACC_LINE
    ensures p == Some(Circle) <==> kind == CIRCLE
    ensures p == Some(Spiral) <==> kind == SPIRAL
    ensures p == Some(AccLine) <==> kind == ACC_LINE
  {
    if kind == CIRCLE then Some(Circle)
    else if kind == SPIRAL then Some(Spiral)
    else if kind == ACC_LINE then Some(AccLine)
    else None
  }

  /** The command a profile produces for a given elapsed time. */
  function MakeTwist(p: Profile, time: real): (r: Twist)
    ensures p == Circle ==> r == Twist(1.0, 1.0)
    ensures p == Spiral ==> r == Twist(time / 10.0, 1.0)
    ensures p == AccLine ==> r == Twist(1.0, 0.0)
  {
    match p
    case Circle => CircularTwist()
    case Spiral => SpiralTwist(time)
    case AccLine => AccLineTwist()
  }

  /** The circle command is (1.0, 1.0) at every time: a circle of radius linear/angular = 1. */
  lemma CircleIsConstantUnitRadius(t: real)
    ensures MakeTwist(Circle, t) == Twist(1.0, 1.0)
    ensures MakeTwist(Circle, t).linearX / MakeTwist(Circle, t).angularZ == 1.0
  {
  }

  /** The line command is (1.0, 0.0) at every time: it neither turns nor accelerates. */
  lemma LineIsConstantAndStraight(t1: real, t2: real)
    ensures MakeTwist(AccLine, t1) == MakeTwist(AccLine, t2) == Twist(1.0, 0.0)
  {
  }

  /** Only the spiral depends on the time it is given. */
  lemma OnlySpiralDependsOnTime(p: Profile, t1: real, t2: real)
    ensures p != Spiral ==> MakeTwist(p, t1) == MakeTwist(p, t2)
    ensures p == Spiral ==> (MakeTwist(p, t1) == MakeTwist(p, t2) <==> t1 == t2)
  {
  }

  /** The spiral's forward speed is time / 10 and its turn rate 1, for every time, including after any shift d. */
  lemma SpiralRamp(t: real, d: real)
    ensures MakeTwist(Spiral, t) == Twist(t / 10.0, 1.0)
    ensures MakeTwist(Spiral, t + d).linearX == MakeTwist(Spiral, t).linearX + d / 10.0
    ensures MakeTwist(Spiral, t + d).angularZ == MakeTwist(Spiral, t).angularZ
  {
  }

  /** There is no clamp: the spiral's forward speed exceeds every bound at some non-negative time. */
  lemma SpiralIsUnbounded(bound: real)
    ensures exists t: real :: 0.0 <= t && MakeTwist(Spiral, t).linearX > bound
  {
    var t := if bound < 0.0 then 0.0 else 10.0 * bound + 10.0;
    assert MakeTwist(Spiral, t).linearX > bound;
  }
}
