/** The `Odometer` object of Odometer/Odometer.cpp: calibration set once by
    `Setup`, pose and velocity estimates advanced by `Update`, a goal point,
    and the read-only steering helpers computed from them.

    The two wheel encoders, the millisecond clock and the math library are
    collaborators: their readings come in as parameters, and `encoderCount`
    holds what each encoder's count is as far as this object's own
    `write(0)` calls go. Every state-changing method is proved against the
    pure definitions of Kinematics.dfy. */
module Odometry {
  import opened Platform
  import opened Kinematics

  /** Index of each wheel in the per-wheel arrays. */
  const MotorLeft: int := 0
  const MotorRight: int := 1

  class Odometer {
    // per-wheel calibration and encoder state, indexed by MotorLeft and MotorRight
    const encodeFactor: array<int>
    const wheelDiameter: array<real>
    const countsPerRevolution: array<int>
    const distancePerCount: array<real>
    const encoderCount: array<int>

    var trackWidth: real
    var X: real
    var Y: real
    var heading: real
    var goalX: real
    var goalY: real
    var vLeft: real
    var vRight: real
    var omega: real
    var previousLeftEncoderCounts: int
    var previousRightEncoderCounts: int
    var previousUpdateTime: int

    /** Two entries per array, and no two arrays of the same type shared. */
    ghost predicate Valid()
    {
      encodeFactor.Length == 2 && wheelDiameter.Length == 2 && countsPerRevolution.Length == 2 &&
      distancePerCount.Length == 2 && encoderCount.Length == 2 &&
      encodeFactor != countsPerRevolution && encodeFactor != encoderCount &&
      countsPerRevolution != encoderCount && wheelDiameter != distancePerCount
    }

    /** What `Setup` establishes: each encode factor is a sign, each count per
        revolution is positive, and each distance per count is the wheel's
        circumference divided by its counts per revolution. */
    ghost predicate Configured()
      reads encodeFactor, wheelDiameter, countsPerRevolution, distancePerCount
    {
      Valid() &&
      forall i :: 0 <= i < 2 ==>
        (encodeFactor[i] == 1 || encodeFactor[i] == -1) &&
        countsPerRevolution[i] > 0 &&
        distancePerCount[i] == PI * wheelDiameter[i] / countsPerRevolution[i] as real
    }

    /** The calibration `Update` works with. */
    function Cal(): Calibration
      reads this, encodeFactor, distancePerCount
      requires Valid()
    {
      Calibration(encodeFactor[MotorLeft], encodeFactor[MotorRight],
                  distancePerCount[MotorLeft], distancePerCount[MotorRight], trackWidth)
    }

    /** The state `Update` changes, as a value. */
    function State(): Tracking
      reads this, encoderCount
      requires Valid()
    {
      Tracking(Pose(X, Y, heading), vLeft, vRight, omega,
               previousLeftEncoderCounts, previousRightEncoderCounts, previousUpdateTime,
               encoderCount[MotorLeft], encoderCount[MotorRight])
    }

    /** The no-argument constructor: storage only; `Setup` must follow. */
    constructor ()
      ensures Valid()
      ensures fresh(encodeFactor) && fresh(wheelDiameter) && fresh(countsPerRevolution)
      ensures fresh(distancePerCount) && fresh(encoderCount)
    {
      encodeFactor := new int[2];
      wheelDiameter := new real[2];
      countsPerRevolution := new int[2];
      distancePerCount := new real[2];
      encoderCount := new int[2];
    }

    /** setup: calibrate both wheels; zero the pose, the goal and the wheel
        velocities; record the track width; then reset the counters. `omega`
        is not written. */
    method Setup(isEncoderForward: seq<bool>, inWheelDiameter: seq<real>,
                 inCountsPerRevolution: seq<int>, inTrackWidth: real, now: int)
      requires Valid()
      requires |isEncoderForward| == 2 && |inWheelDiameter| == 2 && |inCountsPerRevolution| == 2
      requires forall i :: 0 <= i < 2 ==> inCountsPerRevolution[i] > 0
      modifies encodeFactor, wheelDiameter, countsPerRevolution, distancePerCount
      modifies this`X, this`Y, this`heading, this`goalX, this`goalY, this`vLeft, this`vRight, this`trackWidth
      modifies this`previousLeftEncoderCounts, this`previousRightEncoderCounts, this`previousUpdateTime, encoderCount
      ensures Configured()
      ensures Calibrated(isEncoderForward, inWheelDiameter, inCountsPerRevolution)
      ensures trackWidth == inTrackWidth && goalX == 0.0 && goalY == 0.0
      ensures State() == Tracking(Pose(0.0, 0.0, 0.0), 0.0, 0.0, omega, 0, 0, now, 0, 0)
    {
      Calibrate(isEncoderForward, inWheelDiameter, inCountsPerRevolution);
      Clear(inTrackWidth);
      Reset(now);
    }

    /** The middle of setup (lines 36-46): pose, goal and wheel velocities
        zeroed, track width recorded. */
    method Clear(inTrackWidth: real)
      modifies this`X, this`Y, this`heading, this`goalX, this`goalY, this`vLeft, this`vRight, this`trackWidth
      ensures X == 0.0 && Y == 0.0 && heading == 0.0 && goalX == 0.0 && goalY == 0.0
      ensures vLeft == 0.0 && vRight == 0.0 && trackWidth == inTrackWidth
    {
      X := 0.0;
      Y := 0.0;
      heading := 0.0;
      goalX := 0.0;
      goalY := 0.0;
      vLeft := 0.0;
      vRight := 0.0;

      trackWidth := inTrackWidth;
    }

    /** Each wheel's calibration arrays hold what setup was given. */
    ghost predicate Calibrated(isEncoderForward: seq<bool>, inWheelDiameter: seq<real>, inCountsPerRevolution: seq<int>)
      requires Valid()
      requires |isEncoderForward| == 2 && |inWheelDiameter| == 2 && |inCountsPerRevolution| == 2
      requires forall i :: 0 <= i < 2 ==> inCountsPerRevolution[i] > 0
      reads encodeFactor, wheelDiameter, countsPerRevolution, distancePerCount
    {
      forall i :: 0 <= i < 2 ==>
        wheelDiameter[i] == inWheelDiameter[i] &&
        countsPerRevolution[i] == inCountsPerRevolution[i] &&
        distancePerCount[i] == PI * inWheelDiameter[i] / inCountsPerRevolution[i] as real &&
        encodeFactor[i] == (if isEncoderForward[i] then 1 else -1)
    }

    /** The per-wheel loop of setup (lines 20-34): diameter, counts per
        revolution, distance per count and encode factor of each wheel. */
    method Calibrate(isEncoderForward: seq<bool>, inWheelDiameter: seq<real>, inCountsPerRevolution: seq<int>)
      requires Valid()
      requires |isEncoderForward| == 2 && |inWheelDiameter| == 2 && |inCountsPerRevolution| == 2
      requires forall i :: 0 <= i < 2 ==> inCountsPerRevolution[i] > 0
      modifies encodeFactor, wheelDiameter, countsPerRevolution, distancePerCount
      ensures Configured()
      ensures Calibrated(isEncoderForward, inWheelDiameter, inCountsPerRevolution)
    {
      for i := 0 to 2
        invariant forall k :: 0 <= k < i ==>
          wheelDiameter[k] == inWheelDiameter[k] &&
          countsPerRevolution[k] == inCountsPerRevolution[k] &&
          distancePerCount[k] == PI * inWheelDiameter[k] / inCountsPerRevolution[k] as real &&
          encodeFactor[k] == (if isEncoderForward[k] then 1 else -1)
      {
        wheelDiameter[i] := inWheelDiameter[i];
        countsPerRevolution[i] := inCountsPerRevolution[i];
        distancePerCount[i] := (PI * wheelDiameter[i]) / countsPerRevolution[i] as real;
        if isEncoderForward[i] {
          encodeFactor[i] := 1;
        } else {
          encodeFactor[i] := -1;
        }
      }
    }

    /** reset: zero both encoders and the previous counts and restamp the
        time basis; the pose, velocities, goal and calibration stay. */
    method Reset(now: int)
      requires Valid()
      modifies this`previousLeftEncoderCounts, this`previousRightEncoderCounts, this`previousUpdateTime, encoderCount
      ensures State() == ResetCounters(old(State()), now)
    {
      for i := 0 to 2
        modifies encoderCount
        invariant forall k :: 0 <= k < i ==> encoderCount[k] == 0
      {
        encoderCount[i] := 0;
      }
      previousLeftEncoderCounts := 0;
      previousRightEncoderCounts := 0;
      previousUpdateTime := now;
    }

    /** setCurrentPosition: reset the counters, then overwrite the pose. */
    method SetCurrentPosition(x: real, y: real, inHeading: real, now: int)
      requires Valid()
      modifies this`X, this`Y, this`heading
      modifies this`previousLeftEncoderCounts, this`previousRightEncoderCounts, this`previousUpdateTime, encoderCount
      ensures State() == ResetCounters(old(State()), now).(pose := Pose(x, y, inHeading))
    {
      Reset(now);
      X := x;
      Y := y;
      heading := inHeading;
    }

    /** setGoalPosition: overwrite the goal point and nothing else. */
    method SetGoalPosition(x: real, y: real)
      modifies this`goalX, this`goalY
      ensures goalX == x && goalY == y
    {
      goalX := x;
      goalY := y;
    }

    /** update: one step of dead reckoning from the raw encoder counts and
        the clock reading `now`. The new state is `Step` of the old one. */
    method Update(rawLeft: int, rawRight: int, now: int, m: MathLib)
      requires Valid()
      requires trackWidth != 0.0
      modifies this`X, this`Y, this`heading, this`vLeft, this`vRight, this`omega
      modifies this`previousLeftEncoderCounts, this`previousRightEncoderCounts, this`previousUpdateTime, encoderCount
      ensures State() == Step(old(State()), old(Cal()), Reading(rawLeft, rawRight, now), m)
    {
      ghost var s0, c0, rd := State(), Cal(), Reading(rawLeft, rawRight, now);
      var deltaLeftTicks, deltaRightTicks, deltaTime := CountTicks(rawLeft, rawRight, now);

      var deltaDistanceLeft := TickDistance(deltaLeftTicks, distancePerCount[MotorLeft]);
      var deltaDistanceRight := TickDistance(deltaRightTicks, distancePerCount[MotorRight]);
      assert (deltaDistanceLeft, deltaDistanceRight) == WheelDistances(s0, c0, rd);

      Move(deltaDistanceLeft, deltaDistanceRight, deltaTime, m);
      assert State() == Integrate(s0, c0, rd, m);

      if ResetDue(previousLeftEncoderCounts, previousRightEncoderCounts) {
        Reset(now);
      }
    }

    /** Lines 88-97 of update: the sign-corrected counts become the previous
        counts and `now` the previous time; the tick and time deltas are
        returned. */
    method CountTicks(rawLeft: int, rawRight: int, now: int) returns (deltaLeftTicks: int, deltaRightTicks: int, deltaTime: int)
      requires Valid()
      modifies this`previousLeftEncoderCounts, this`previousRightEncoderCounts, this`previousUpdateTime
      ensures var rd := Reading(rawLeft, rawRight, now);
        (deltaLeftTicks, deltaRightTicks) == TickDeltas(old(State()), Cal(), rd) &&
        State() == old(State()).(previousLeftEncoderCounts := SignCorrected(Cal(), rd).0,
                                 previousRightEncoderCounts := SignCorrected(Cal(), rd).1,
                                 previousUpdateTime := now)
      ensures deltaTime == now - old(previousUpdateTime)
    {
      var leftEncoderCounts := rawLeft * encodeFactor[MotorLeft];
      var rightEncoderCounts := rawRight * encodeFactor[MotorRight];

      deltaLeftTicks := leftEncoderCounts - previousLeftEncoderCounts;
      deltaRightTicks := rightEncoderCounts - previousRightEncoderCounts;
      previousLeftEncoderCounts := leftEncoderCounts;
      previousRightEncoderCounts := rightEncoderCounts;

      var currentTime := now;
      deltaTime := currentTime - previousUpdateTime;
      previousUpdateTime := currentTime;
    }

    /** Lines 103-142 of update: the velocity estimates (only when time has
        elapsed) and the pose move by the interval's wheel distances. */
    method Move(deltaDistanceLeft: real, deltaDistanceRight: real, deltaTime: int, m: MathLib)
      requires Valid()
      requires trackWidth != 0.0
      modifies this`X, this`Y, this`heading, this`vLeft, this`vRight, this`omega
      ensures Pose(X, Y, heading) ==
        Advance(old(Pose(X, Y, heading)), deltaDistanceLeft, deltaDistanceRight, trackWidth, m)
      ensures deltaTime == 0 ==> vLeft == old(vLeft) && vRight == old(vRight) && omega == old(omega)
      ensures deltaTime != 0 ==>
        vLeft == Rate(deltaDistanceLeft, deltaTime) && vRight == Rate(deltaDistanceRight, deltaTime) &&
        omega == Rate(DeltaHeading(deltaDistanceLeft, deltaDistanceRight, trackWidth), deltaTime)
    {
      ghost var p0 := Pose(X, Y, heading);
      var deltaHeading := DeltaHeading(deltaDistanceLeft, deltaDistanceRight, trackWidth);

      var deltas := DeltasCrude(heading, deltaDistanceLeft, deltaDistanceRight, m);

      if deltaTime != 0 {
        vLeft := Rate(deltaDistanceLeft, deltaTime);
        vRight := Rate(deltaDistanceRight, deltaTime);
        omega := Rate(deltaHeading, deltaTime);
      }

      X := X + deltas.0;
      Y := Y + deltas.1;
      heading := heading + deltaHeading;

      heading := Wrap(heading, m);
      assert Pose(X, Y, heading) == Advance(p0, deltaDistanceLeft, deltaDistanceRight, trackWidth, m);
    }

    /** getLinearVelocity: the velocity of the robot's centre, the mean of
        the two wheel velocities; it may be negative. */
    function LinearVelocity(): (v: real)
      reads this
      ensures vLeft <= v <= vRight || vRight <= v <= vLeft
      ensures v - vLeft == vRight - v
      ensures v == 0.0 <==> vLeft == -vRight
    {
      (vLeft + vRight) / 2.0
    }

    /** translateToLeftRightVelocities: an open-loop mixer from normalized
        linear and angular commands to normalized (left, right) wheel
        commands. Angular is taken from the left and added to the right;
        each output is clamped to [-1, 1] on its own. No state is read. */
    static function TranslateToLeftRightVelocities(normedLinearVelocity: real, normedLinearAngularVelocity: real): (norm: (real, real))
      ensures -1.0 <= norm.0 <= 1.0 && -1.0 <= norm.1 <= 1.0
      ensures -1.0 <= normedLinearVelocity - normedLinearAngularVelocity <= 1.0 ==>
        norm.0 == normedLinearVelocity - normedLinearAngularVelocity
      ensures -1.0 <= normedLinearVelocity + normedLinearAngularVelocity <= 1.0 ==>
        norm.1 == normedLinearVelocity + normedLinearAngularVelocity
      ensures normedLinearVelocity - normedLinearAngularVelocity > 1.0 ==> norm.0 == 1.0
      ensures normedLinearVelocity - normedLinearAngularVelocity < -1.0 ==> norm.0 == -1.0
      ensures normedLinearVelocity + normedLinearAngularVelocity > 1.0 ==> norm.1 == 1.0
      ensures normedLinearVelocity + normedLinearAngularVelocity < -1.0 ==> norm.1 == -1.0
    {
      var leftVelocity := normedLinearVelocity - normedLinearAngularVelocity;
      var rightVelocity := normedLinearVelocity + normedLinearAngularVelocity;
      (Constrain(leftVelocity, -1.0, 1.0), Constrain(rightVelocity, -1.0, 1.0))
    }

    /** calculateGoalHeading: the direction from the current position to the
        goal, `atan2(goalY - Y, goalX - X)`. */
    function GoalHeading(m: MathLib): (h: real)
      reads this
      ensures Atan2InRange(m) ==> -PI < h <= PI
    {
      m.Atan2(goalY - Y, goalX - X)
    }

    /** getNormalizedHeadingError(requiredHeading): the wrapped difference
        between the current and the required heading, divided by PI. */
    function NormalizedHeadingErrorTo(requiredHeading: real, m: MathLib): (e: real)
      reads this
      ensures Atan2InRange(m) ==> -1.0 < e <= 1.0
      ensures WrapFixesPrincipal(m) && -PI < heading - requiredHeading <= PI ==>
        e * PI == heading - requiredHeading
    {
      Wrap(heading - requiredHeading, m) / PI
    }

    /** getNormalizedHeadingError(): the error against the heading that
        points at the goal. */
    function NormalizedHeadingError(m: MathLib): (e: real)
      reads this
      ensures Atan2InRange(m) ==> -1.0 < e <= 1.0
    {
      NormalizedHeadingErrorTo(GoalHeading(m), m)
    }

    /** getDistanceToGoal: the Euclidean distance from the position to the goal. */
    function DistanceToGoal(m: MathLib): (d: real)
      reads this
      ensures SqrtIsRoot(m) ==>
        0.0 <= d && d * d == (goalX - X) * (goalX - X) + (goalY - Y) * (goalY - Y)
    {
      m.Sqrt((goalX - X) * (goalX - X) + (goalY - Y) * (goalY - Y))
    }
  }

  /** The error of the current heading against itself is zero. */
  lemma HeadingErrorToOwnHeadingIsZero(o: Odometer, m: MathLib)
    requires WrapFixesPrincipal(m)
    ensures o.NormalizedHeadingErrorTo(o.heading, m) == 0.0
  {
    assert o.heading - o.heading == 0.0;
  }

  /** From (0, 0) the goal (3, 4) is 5 away. */
  lemma DistanceThreeFourFive(o: Odometer, m: MathLib)
    requires SqrtIsRoot(m)
    requires o.X == 0.0 && o.Y == 0.0 && o.goalX == 3.0 && o.goalY == 4.0
    ensures o.DistanceToGoal(m) == 5.0
  {
    var d := o.DistanceToGoal(m);
    assert 0.0 <= d && d * d == 25.0;
    SquareGrows(d, 5.0);
    SquareGrows(5.0, d);
  }

  /** Squaring is strictly increasing on the non-negative reals. */
  lemma SquareGrows(a: real, b: real)
    requires 0.0 <= a && 0.0 <= b
    ensures a < b ==> a * a < b * b
  {
    if a < b {
      var e := b - a;
      assert b * b == a * a + 2.0 * (a * e) + e * e;
      assert a * e >= 0.0;
      assert e * e > 0.0;
    }
  }

  /** The mixer on three command pairs: full forward, full left turn, and
      one whose right wheel saturates. */
  lemma MixerExamples()
    ensures Odometer.TranslateToLeftRightVelocities(1.0, 0.0) == (1.0, 1.0)
    ensures Odometer.TranslateToLeftRightVelocities(0.0, 1.0) == (-1.0, 1.0)
    ensures Odometer.TranslateToLeftRightVelocities(0.5, 0.8) == (-0.3, 1.0)
  {
  }

  /** A caller's view: after setup and setGoalPosition(3, 4), the goal is
      5 away. */
  method SetupThenMeasure(m: MathLib) returns (distance: real)
    requires SqrtIsRoot(m)
    ensures distance == 5.0
  {
    var o := new Odometer();
    o.Setup([true, false], [6.5, 6.5], [64, 64], 14.0, 0);
    o.SetGoalPosition(3.0, 4.0);
    DistanceThreeFourFive(o, m);
    distance := o.DistanceToGoal(m);
  }
}
