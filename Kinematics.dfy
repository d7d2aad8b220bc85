/** Dead reckoning for a differential-drive robot, as pure functions on values.

    `Step` is what one call of `Odometer::update` does to the odometer's
    mutable state (Odometer/Odometer.cpp:87-150): it is `Integrate`, the
    tick bookkeeping and pose integration, followed by `OverflowGuard`, the
    counter reset when a count passes 32000. `Run` folds `Step` over a
    sequence of encoder and clock readings; the lemmas at the end state what
    such runs preserve. The class in Odometry.dfy is proved against `Step`. */
module Kinematics {
  import opened Platform

  /** The count above which update resets the counting basis. */
  const OverflowThreshold: int := 32000

  /** Per-wheel calibration fixed by setup: the sign that corrects a reversed
      encoder, the distance one count stands for, and the track width. */
  datatype Calibration = Calibration(
    encodeFactorLeft: int,
    encodeFactorRight: int,
    distancePerCountLeft: real,
    distancePerCountRight: real,
    trackWidth: real)

  /** The state that update changes: the pose, the velocity estimates, the
      tick and time bookkeeping, and the counts the two encoders hold as far
      as this object's own `write(0)` calls go. */
  datatype Tracking = Tracking(
    pose: Pose,
    vLeft: real,
    vRight: real,
    omega: real,
    previousLeftEncoderCounts: int,
    previousRightEncoderCounts: int,
    previousUpdateTime: int,
    leftEncoderCount: int,
    rightEncoderCount: int)

  /** Position in the world frame and heading in radians. */
  datatype Pose = Pose(x: real, y: real, heading: real)

  /** What one update reads from its collaborators: the two raw encoder
      counts and the millisecond clock. */
  datatype Reading = Reading(rawLeft: int, rawRight: int, now: int)

  /** The raw counts multiplied by each wheel's encode factor. */
  function SignCorrected(c: Calibration, rd: Reading): (counts: (int, int))
  {
    (rd.rawLeft * c.encodeFactorLeft, rd.rawRight * c.encodeFactorRight)
  }

  /** The tick deltas of an update: new sign-corrected count minus the
      previous count, per wheel. */
  function TickDeltas(s: Tracking, c: Calibration, rd: Reading): (deltas: (int, int))
  {
    var counts := SignCorrected(c, rd);
    (counts.0 - s.previousLeftEncoderCounts, counts.1 - s.previousRightEncoderCounts)
  }

  /** The distance a wheel covered over `ticks` counts. */
  function TickDistance(ticks: int, distancePerCount: real): (d: real)
  {
    ticks as real * distancePerCount
  }

  /** A wheel that did not turn covered no distance; with a positive distance
      per count, the distance has the sign of the tick count. */
  lemma TickDistanceSign(ticks: int, distancePerCount: real)
    ensures ticks == 0 ==> TickDistance(ticks, distancePerCount) == 0.0
    ensures 0.0 < distancePerCount ==>
      (0 < ticks <==> 0.0 < TickDistance(ticks, distancePerCount)) &&
      (ticks < 0 <==> TickDistance(ticks, distancePerCount) < 0.0)
  {
  }

  /** The distance each wheel covered: its tick delta times its distance per count. */
  function WheelDistances(s: Tracking, c: Calibration, rd: Reading): (d: (real, real))
    ensures TickDeltas(s, c, rd).0 == 0 ==> d.0 == 0.0
    ensures TickDeltas(s, c, rd).1 == 0 ==> d.1 == 0.0
  {
    var deltas := TickDeltas(s, c, rd);
    (TickDistance(deltas.0, c.distancePerCountLeft), TickDistance(deltas.1, c.distancePerCountRight))
  }

  /** Heading change of an interval from the difference of the wheel distances. */
  function DeltaHeading(deltaDistanceLeft: real, deltaDistanceRight: real, trackWidth: real): (deltaHeading: real)
    requires trackWidth != 0.0
  {
    (deltaDistanceRight - deltaDistanceLeft) / trackWidth
  }

  /** The heading change is the arc the wheel-distance difference subtends
      over the track width; it is zero exactly when both wheels covered the
      same distance. */
  lemma DeltaHeadingTurns(deltaDistanceLeft: real, deltaDistanceRight: real, trackWidth: real)
    requires trackWidth != 0.0
    ensures DeltaHeading(deltaDistanceLeft, deltaDistanceRight, trackWidth) * trackWidth ==
      deltaDistanceRight - deltaDistanceLeft
    ensures DeltaHeading(deltaDistanceLeft, deltaDistanceRight, trackWidth) == 0.0 <==>
      deltaDistanceLeft == deltaDistanceRight
  {
  }

  /** Forward distance of the robot's centre: the mean of the wheel distances. */
  function MeanDistance(deltaDistanceLeft: real, deltaDistanceRight: real): (deltaDistance: real)
  {
    0.5 * (deltaDistanceLeft + deltaDistanceRight)
  }

  /** The centre's distance lies halfway between the wheel distances, and is
      zero exactly when they cancel. */
  lemma MeanDistanceHalfway(deltaDistanceLeft: real, deltaDistanceRight: real)
    ensures var d := MeanDistance(deltaDistanceLeft, deltaDistanceRight);
      (deltaDistanceLeft <= d <= deltaDistanceRight || deltaDistanceRight <= d <= deltaDistanceLeft) &&
      d - deltaDistanceLeft == deltaDistanceRight - d &&
      (d == 0.0 <==> deltaDistanceLeft + deltaDistanceRight == 0.0)
  {
  }

  /** calculateDeltasCrude: the forward distance projected on the current
      heading (Euler approximation), as (deltaX, deltaY). */
  function DeltasCrude(heading: real, deltaDistanceLeft: real, deltaDistanceRight: real, m: MathLib): (delta: (real, real))
  {
    var deltaDistance := MeanDistance(deltaDistanceLeft, deltaDistanceRight);
    (deltaDistance * m.Cos(heading), deltaDistance * m.Sin(heading))
  }

  /** Wheel distances that cancel give no displacement, whatever sin and cos
      return; equal wheel distances move the robot that distance along its
      heading. */
  lemma DeltasCrudeCases(heading: real, deltaDistanceLeft: real, deltaDistanceRight: real, m: MathLib)
    ensures deltaDistanceLeft + deltaDistanceRight == 0.0 ==>
      DeltasCrude(heading, deltaDistanceLeft, deltaDistanceRight, m) == (0.0, 0.0)
    ensures deltaDistanceLeft == deltaDistanceRight ==>
      DeltasCrude(heading, deltaDistanceLeft, deltaDistanceRight, m).0 == deltaDistanceLeft * m.Cos(heading) &&
      DeltasCrude(heading, deltaDistanceLeft, deltaDistanceRight, m).1 == deltaDistanceLeft * m.Sin(heading)
  {
    MeanDistanceHalfway(deltaDistanceLeft, deltaDistanceRight);
  }

  /** A per-second rate from a change over `deltaTime` milliseconds. */
  function Rate(delta: real, deltaTime: int): (rate: real)
    requires deltaTime != 0
  {
    delta * 1000.0 / deltaTime as real
  }

  /** Over `deltaTime` milliseconds the rate accounts for the whole change,
      and it is zero exactly when nothing changed. */
  lemma RateScales(delta: real, deltaTime: int)
    requires deltaTime != 0
    ensures Rate(delta, deltaTime) * deltaTime as real == delta * 1000.0
    ensures Rate(delta, deltaTime) == 0.0 <==> delta == 0.0
  {
  }

  /** `atan2(sin(h), cos(h))`: the heading brought back into (-PI, PI]. */
  function Wrap(h: real, m: MathLib): (w: real)
    ensures Atan2InRange(m) ==> -PI < w <= PI
    ensures WrapFixesPrincipal(m) && -PI < h <= PI ==> w == h
  {
    m.Atan2(m.Sin(h), m.Cos(h))
  }

  /** Pose accumulation of one update (lines 103-116 and 142): the heading
      change from the wheel-distance difference, the position change from the
      mean distance along the current heading, then the heading wrap. */
  function Advance(p: Pose, deltaDistanceLeft: real, deltaDistanceRight: real, trackWidth: real, m: MathLib): (q: Pose)
    requires trackWidth != 0.0
    ensures Atan2InRange(m) ==> -PI < q.heading <= PI
  {
    var deltaHeading := DeltaHeading(deltaDistanceLeft, deltaDistanceRight, trackWidth);
    var delta := DeltasCrude(p.heading, deltaDistanceLeft, deltaDistanceRight, m);
    Pose(p.x + delta.0, p.y + delta.1, Wrap(p.heading + deltaHeading, m))
  }

  /** Turning in place leaves the position; driving straight moves it along
      the heading and only re-wraps the heading. */
  lemma AdvanceCases(p: Pose, deltaDistanceLeft: real, deltaDistanceRight: real, trackWidth: real, m: MathLib)
    requires trackWidth != 0.0
    ensures var q := Advance(p, deltaDistanceLeft, deltaDistanceRight, trackWidth, m);
      deltaDistanceLeft + deltaDistanceRight == 0.0 ==> q.x == p.x && q.y == p.y
    ensures var q := Advance(p, deltaDistanceLeft, deltaDistanceRight, trackWidth, m);
      deltaDistanceLeft == deltaDistanceRight ==>
        q.x == p.x + deltaDistanceLeft * m.Cos(p.heading) &&
        q.y == p.y + deltaDistanceLeft * m.Sin(p.heading) &&
        q.heading == Wrap(p.heading, m)
  {
    DeltasCrudeCases(p.heading, deltaDistanceLeft, deltaDistanceRight, m);
    DeltaHeadingTurns(deltaDistanceLeft, deltaDistanceRight, trackWidth);
  }

  /** Lines 88-142 of update: new previous counts and time, wheel distances,
      velocities (only when time has elapsed) and the pose. */
  function Integrate(s: Tracking, c: Calibration, rd: Reading, m: MathLib): (t: Tracking)
    requires c.trackWidth != 0.0
    // tick bookkeeping: the sign-corrected counts become the previous counts
    ensures (t.previousLeftEncoderCounts, t.previousRightEncoderCounts) == SignCorrected(c, rd)
    ensures t.previousUpdateTime == rd.now
    // no elapsed time: the velocity estimates are held
    ensures rd.now == s.previousUpdateTime ==>
      t.vLeft == s.vLeft && t.vRight == s.vRight && t.omega == s.omega
    // the pose moves by the wheel distances of this interval
    ensures t.pose == Advance(s.pose, WheelDistances(s, c, rd).0, WheelDistances(s, c, rd).1, c.trackWidth, m)
    // the encoders are not written
    ensures t.leftEncoderCount == s.leftEncoderCount && t.rightEncoderCount == s.rightEncoderCount
  {
    var counts := SignCorrected(c, rd);
    var deltaTime := rd.now - s.previousUpdateTime;
    var d := WheelDistances(s, c, rd);
    var deltaHeading := DeltaHeading(d.0, d.1, c.trackWidth);
    var vLeft := if deltaTime != 0 then Rate(d.0, deltaTime) else s.vLeft;
    var vRight := if deltaTime != 0 then Rate(d.1, deltaTime) else s.vRight;
    var omega := if deltaTime != 0 then Rate(deltaHeading, deltaTime) else s.omega;
    s.(pose := Advance(s.pose, d.0, d.1, c.trackWidth, m),
       vLeft := vLeft, vRight := vRight, omega := omega,
       previousLeftEncoderCounts := counts.0, previousRightEncoderCounts := counts.1,
       previousUpdateTime := rd.now)
  }

  /** When time has elapsed, the new estimates are the interval's wheel
      distances and heading change per second. */
  lemma IntegrateRates(s: Tracking, c: Calibration, rd: Reading, m: MathLib)
    requires c.trackWidth != 0.0
    requires rd.now != s.previousUpdateTime
    ensures var t := Integrate(s, c, rd, m);
      var d := WheelDistances(s, c, rd);
      var dt := (rd.now - s.previousUpdateTime) as real;
      t.vLeft * dt == d.0 * 1000.0 && t.vRight * dt == d.1 * 1000.0 &&
      t.omega * dt == DeltaHeading(d.0, d.1, c.trackWidth) * 1000.0
  {
    var d := WheelDistances(s, c, rd);
    var deltaTime := rd.now - s.previousUpdateTime;
    RateScales(d.0, deltaTime);
    RateScales(d.1, deltaTime);
    RateScales(DeltaHeading(d.0, d.1, c.trackWidth), deltaTime);
  }

  /** reset: the encoders are written to zero, the previous counts are zeroed
      and the time basis is restamped. Pose and velocities are not touched. */
  function ResetCounters(t: Tracking, now: int): (r: Tracking)
    ensures r.pose == t.pose
    ensures r.vLeft == t.vLeft && r.vRight == t.vRight && r.omega == t.omega
    ensures r.previousLeftEncoderCounts == 0 && r.previousRightEncoderCounts == 0
    ensures r.leftEncoderCount == 0 && r.rightEncoderCount == 0
    ensures r.previousUpdateTime == now
  {
    t.(previousLeftEncoderCounts := 0, previousRightEncoderCounts := 0,
       previousUpdateTime := now, leftEncoderCount := 0, rightEncoderCount := 0)
  }

  /** The overflow condition: either previous count above the threshold.
      The test is one-sided, so a negative count never meets it. */
  predicate ResetDue(previousLeft: int, previousRight: int)
  {
    previousLeft > OverflowThreshold || previousRight > OverflowThreshold
  }

  /** Lines 146-149 of update: reset the counting basis when a count has
      grown past the threshold. The integrated pose is never touched. */
  function OverflowGuard(t: Tracking, now: int): (r: Tracking)
    ensures r.pose == t.pose
    ensures r.vLeft == t.vLeft && r.vRight == t.vRight && r.omega == t.omega
    ensures ResetDue(t.previousLeftEncoderCounts, t.previousRightEncoderCounts) ==>
      r.previousLeftEncoderCounts == 0 && r.previousRightEncoderCounts == 0 &&
      r.leftEncoderCount == 0 && r.rightEncoderCount == 0 && r.previousUpdateTime == now
    ensures t.previousLeftEncoderCounts <= OverflowThreshold && t.previousRightEncoderCounts <= OverflowThreshold ==>
      r == t
  {
    if ResetDue(t.previousLeftEncoderCounts, t.previousRightEncoderCounts) then ResetCounters(t, now) else t
  }

  /** One call of update. */
  function Step(s: Tracking, c: Calibration, rd: Reading, m: MathLib): (r: Tracking)
    requires c.trackWidth != 0.0
  {
    OverflowGuard(Integrate(s, c, rd, m), rd.now)
  }

  /** Successive calls of update, one per reading. */
  function Run(s: Tracking, c: Calibration, rs: seq<Reading>, m: MathLib): (r: Tracking)
    requires c.trackWidth != 0.0
    decreases |rs|
  {
    if rs == [] then s else Run(Step(s, c, rs[0], m), c, rs[1..], m)
  }

  /** The wheel distances of each update of a run. */
  function Distances(s: Tracking, c: Calibration, rs: seq<Reading>, m: MathLib): (ds: seq<(real, real)>)
    requires c.trackWidth != 0.0
    ensures |ds| == |rs|
    decreases |rs|
  {
    if rs == [] then [] else [WheelDistances(s, c, rs[0])] + Distances(Step(s, c, rs[0], m), c, rs[1..], m)
  }

  /** The pose after accumulating a sequence of (left, right) wheel distances. */
  function Drive(p: Pose, ds: seq<(real, real)>, trackWidth: real, m: MathLib): (q: Pose)
    requires trackWidth != 0.0
    decreases |ds|
  {
    if ds == [] then p else Drive(Advance(p, ds[0].0, ds[0].1, trackWidth, m), ds[1..], trackWidth, m)
  }

  /** Forward distance of the robot's centre over a sequence of wheel distances. */
  function Travel(ds: seq<(real, real)>): (travel: real)
    decreases |ds|
  {
    if ds == [] then 0.0 else MeanDistance(ds[0].0, ds[0].1) + Travel(ds[1..])
  }

  /** Sum of the tick deltas of a run, per wheel. */
  function TickTotals(s: Tracking, c: Calibration, rs: seq<Reading>, m: MathLib): (totals: (int, int))
    requires c.trackWidth != 0.0
    decreases |rs|
  {
    if rs == [] then (0, 0)
    else
      var here := TickDeltas(s, c, rs[0]);
      var rest := TickTotals(Step(s, c, rs[0], m), c, rs[1..], m);
      (here.0 + rest.0, here.1 + rest.1)
  }

  /** One update. The overflow reset fires exactly when a sign-corrected count
      exceeds the threshold. It zeroes the basis, but the pose is the one that
      was integrated. */
  lemma StepResetsOnlyOnOverflow(s: Tracking, c: Calibration, rd: Reading, m: MathLib)
    requires c.trackWidth != 0.0
    ensures var r := Step(s, c, rd, m); var t := Integrate(s, c, rd, m);
      r.pose == t.pose &&
      (ResetDue(SignCorrected(c, rd).0, SignCorrected(c, rd).1) ==>
        r == ResetCounters(t, rd.now)) &&
      (!ResetDue(SignCorrected(c, rd).0, SignCorrected(c, rd).1) ==>
        r == t && (r.previousLeftEncoderCounts, r.previousRightEncoderCounts) == SignCorrected(c, rd))
  {
  }

  /** One update whose wheel distances cancel leaves the position where it
      was, whatever sin and cos return; one whose tick deltas are both zero
      also leaves the heading, up to the wrap. */
  lemma StepStillOrSpinning(s: Tracking, c: Calibration, rd: Reading, m: MathLib)
    requires c.trackWidth != 0.0
    ensures var d := WheelDistances(s, c, rd); var q := Step(s, c, rd, m).pose;
      d.0 + d.1 == 0.0 ==> q.x == s.pose.x && q.y == s.pose.y
    ensures TickDeltas(s, c, rd) == (0, 0) ==>
      Step(s, c, rd, m).pose == s.pose.(heading := Wrap(s.pose.heading, m))
  {
    var d := WheelDistances(s, c, rd);
    AdvanceCases(s.pose, d.0, d.1, c.trackWidth, m);
  }

  /** The pose after a run is the pose accumulated from the run's wheel
      distances: the overflow resets never disturb the integrated pose. */
  lemma {:induction false} RunFollowsDrive(s: Tracking, c: Calibration, rs: seq<Reading>, m: MathLib)
    requires c.trackWidth != 0.0
    ensures Run(s, c, rs, m).pose == Drive(s.pose, Distances(s, c, rs, m), c.trackWidth, m)
    decreases |rs|
  {
    if rs != [] {
      var s1 := Step(s, c, rs[0], m);
      var ds := Distances(s, c, rs, m);
      assert ds[0] == WheelDistances(s, c, rs[0]);
      assert ds[1..] == Distances(s1, c, rs[1..], m);
      assert s1.pose == Advance(s.pose, ds[0].0, ds[0].1, c.trackWidth, m);
      RunFollowsDrive(s1, c, rs[1..], m);
    }
  }

  /** With `Atan2InRange`, the heading is in (-PI, PI] after every run of at
      least one update, whatever the starting heading and the readings. */
  lemma {:induction false} RunKeepsHeadingInRange(s: Tracking, c: Calibration, rs: seq<Reading>, m: MathLib)
    requires c.trackWidth != 0.0
    requires Atan2InRange(m)
    requires rs != []
    ensures -PI < Run(s, c, rs, m).pose.heading <= PI
    decreases |rs|
  {
    var s1 := Step(s, c, rs[0], m);
    if rs[1..] != [] {
      RunKeepsHeadingInRange(s1, c, rs[1..], m);
    }
  }

  /** Readings that all come at the time of the last update leave the
      velocity estimates as they were, through any number of updates. */
  lemma {:induction false} StillClockHoldsVelocities(s: Tracking, c: Calibration, rs: seq<Reading>, m: MathLib)
    requires c.trackWidth != 0.0
    requires forall i :: 0 <= i < |rs| ==> rs[i].now == s.previousUpdateTime
    ensures Run(s, c, rs, m).vLeft == s.vLeft
    ensures Run(s, c, rs, m).vRight == s.vRight
    ensures Run(s, c, rs, m).omega == s.omega
    decreases |rs|
  {
    if rs != [] {
      var s1 := Step(s, c, rs[0], m);
      assert s1.previousUpdateTime == s.previousUpdateTime;
      assert forall i :: 0 <= i < |rs[1..]| ==> rs[1..][i] == rs[i + 1];
      StillClockHoldsVelocities(s1, c, rs[1..], m);
    }
  }

  /** Accumulating equal wheel distances from a heading in (-PI, PI] keeps
      the heading and moves the position along it by the distance travelled. */
  lemma {:induction false} StraightDriveKeepsHeading(p: Pose, ds: seq<(real, real)>, trackWidth: real, m: MathLib)
    requires trackWidth != 0.0
    requires forall i :: 0 <= i < |ds| ==> ds[i].0 == ds[i].1
    requires -PI < p.heading <= PI
    requires WrapFixesPrincipal(m)
    ensures Drive(p, ds, trackWidth, m).heading == p.heading
    ensures Along(p, Drive(p, ds, trackWidth, m), Travel(ds), m)
    decreases |ds|
  {
    if ds != [] {
      var p1 := Advance(p, ds[0].0, ds[0].1, trackWidth, m);
      assert ds[0].0 == ds[0].1;
      StraightStep(p, ds[0].0, trackWidth, m);
      assert forall i :: 0 <= i < |ds[1..]| ==> ds[1..][i] == ds[i + 1];
      StraightDriveKeepsHeading(p1, ds[1..], trackWidth, m);
      var rest := Travel(ds[1..]);
      var last := Drive(p1, ds[1..], trackWidth, m);
      AlongLine(p.x, p1.x, last.x, ds[0].0, rest, m.Cos(p.heading));
      AlongLine(p.y, p1.y, last.y, ds[0].0, rest, m.Sin(p.heading));
    }
  }

  /** One update with equal wheel distances `d` from a heading in (-PI, PI]
      keeps the heading and moves `d` along it. */
  lemma StraightStep(p: Pose, d: real, trackWidth: real, m: MathLib)
    requires trackWidth != 0.0
    requires -PI < p.heading <= PI
    requires WrapFixesPrincipal(m)
    ensures Advance(p, d, d, trackWidth, m).heading == p.heading
    ensures Along(p, Advance(p, d, d, trackWidth, m), d, m)
  {
    AdvanceCases(p, d, d, trackWidth, m);
  }

  /** `q` lies `travel` away from `p` in the direction of `p`'s heading. */
  ghost predicate Along(p: Pose, q: Pose, travel: real, m: MathLib)
  {
    q.x == p.x + travel * m.Cos(p.heading) && q.y == p.y + travel * m.Sin(p.heading)
  }

  /** Two moves along the same direction add up. */
  lemma AlongLine(x0: real, x1: real, x2: real, first: real, rest: real, k: real)
    requires x1 == x0 + first * k
    requires x2 == x1 + rest * k
    ensures x2 == x0 + (first + rest) * k
  {
  }

  /** Accumulating wheel distances that cancel never moves the position,
      whatever sin and cos return. */
  lemma {:induction false} SpinDriveKeepsPosition(p: Pose, ds: seq<(real, real)>, trackWidth: real, m: MathLib)
    requires trackWidth != 0.0
    requires forall i :: 0 <= i < |ds| ==> ds[i].0 + ds[i].1 == 0.0
    ensures Drive(p, ds, trackWidth, m).x == p.x
    ensures Drive(p, ds, trackWidth, m).y == p.y
    decreases |ds|
  {
    if ds != [] {
      assert ds[0].0 + ds[0].1 == 0.0;
      AdvanceCases(p, ds[0].0, ds[0].1, trackWidth, m);
      assert forall i :: 0 <= i < |ds[1..]| ==> ds[1..][i] == ds[i + 1];
      SpinDriveKeepsPosition(Advance(p, ds[0].0, ds[0].1, trackWidth, m), ds[1..], trackWidth, m);
    }
  }

  /** Both wheels report the same sign-corrected count. */
  predicate Straight(c: Calibration, rd: Reading)
  {
    SignCorrected(c, rd).0 == SignCorrected(c, rd).1
  }

  /** With equal distance per count on both wheels, a start where both
      previous counts agree, and readings where both wheels agree, every
      update of the run sees equal wheel distances. */
  lemma {:induction false} StraightReadingsGiveEqualDistances(s: Tracking, c: Calibration, rs: seq<Reading>, m: MathLib)
    requires c.trackWidth != 0.0
    requires c.distancePerCountLeft == c.distancePerCountRight
    requires s.previousLeftEncoderCounts == s.previousRightEncoderCounts
    requires forall i :: 0 <= i < |rs| ==> Straight(c, rs[i])
    ensures forall i :: 0 <= i < |rs| ==> Distances(s, c, rs, m)[i].0 == Distances(s, c, rs, m)[i].1
    decreases |rs|
  {
    if rs != [] {
      assert Straight(c, rs[0]);
      var s1 := Step(s, c, rs[0], m);
      assert s1.previousLeftEncoderCounts == s1.previousRightEncoderCounts;
      assert forall i :: 0 <= i < |rs[1..]| ==> rs[1..][i] == rs[i + 1];
      StraightReadingsGiveEqualDistances(s1, c, rs[1..], m);
      var ds := Distances(s, c, rs, m);
      assert ds[1..] == Distances(s1, c, rs[1..], m);
      forall i | 0 <= i < |rs| ensures ds[i].0 == ds[i].1 {
        if i > 0 {
          assert ds[i] == ds[1..][i - 1];
        }
      }
    }
  }

  /** Driving straight: with equal distance per count on both wheels, a start
      where both previous counts agree and a heading in (-PI, PI], and
      readings where both wheels agree, the heading never changes and the
      position advances along it by the distance the centre travelled. */
  lemma StraightRunKeepsHeading(s: Tracking, c: Calibration, rs: seq<Reading>, m: MathLib)
    requires c.trackWidth != 0.0
    requires c.distancePerCountLeft == c.distancePerCountRight
    requires s.previousLeftEncoderCounts == s.previousRightEncoderCounts
    requires forall i :: 0 <= i < |rs| ==> Straight(c, rs[i])
    requires -PI < s.pose.heading <= PI
    requires WrapFixesPrincipal(m)
    ensures Run(s, c, rs, m).pose.heading == s.pose.heading
    ensures Along(s.pose, Run(s, c, rs, m).pose, Travel(Distances(s, c, rs, m)), m)
  {
    RunFollowsDrive(s, c, rs, m);
    StraightReadingsGiveEqualDistances(s, c, rs, m);
    StraightDriveKeepsHeading(s.pose, Distances(s, c, rs, m), c.trackWidth, m);
  }

  /** The two wheels report opposite sign-corrected counts. */
  predicate Spinning(c: Calibration, rd: Reading)
  {
    SignCorrected(c, rd).0 == -SignCorrected(c, rd).1
  }

  /** With equal distance per count on both wheels, a start where the
      previous counts are opposite, and readings where the wheels are
      opposite, every update of the run sees wheel distances that cancel. */
  lemma {:induction false} SpinReadingsGiveCancellingDistances(s: Tracking, c: Calibration, rs: seq<Reading>, m: MathLib)
    requires c.trackWidth != 0.0
    requires c.distancePerCountLeft == c.distancePerCountRight
    requires s.previousLeftEncoderCounts == -s.previousRightEncoderCounts
    requires forall i :: 0 <= i < |rs| ==> Spinning(c, rs[i])
    ensures forall i :: 0 <= i < |rs| ==> Distances(s, c, rs, m)[i].0 + Distances(s, c, rs, m)[i].1 == 0.0
    decreases |rs|
  {
    if rs != [] {
      assert Spinning(c, rs[0]);
      assert TickDeltas(s, c, rs[0]).0 == -TickDeltas(s, c, rs[0]).1;
      var s1 := Step(s, c, rs[0], m);
      assert s1.previousLeftEncoderCounts == -s1.previousRightEncoderCounts;
      assert forall i :: 0 <= i < |rs[1..]| ==> rs[1..][i] == rs[i + 1];
      SpinReadingsGiveCancellingDistances(s1, c, rs[1..], m);
      var ds := Distances(s, c, rs, m);
      assert ds[1..] == Distances(s1, c, rs[1..], m);
      forall i | 0 <= i < |rs| ensures ds[i].0 + ds[i].1 == 0.0 {
        if i > 0 {
          assert ds[i] == ds[1..][i - 1];
        }
      }
    }
  }

  /** Turning in place: with readings where the wheels are opposite (and a
      start where the previous counts are), the position never changes. */
  lemma SpinRunKeepsPosition(s: Tracking, c: Calibration, rs: seq<Reading>, m: MathLib)
    requires c.trackWidth != 0.0
    requires c.distancePerCountLeft == c.distancePerCountRight
    requires s.previousLeftEncoderCounts == -s.previousRightEncoderCounts
    requires forall i :: 0 <= i < |rs| ==> Spinning(c, rs[i])
    ensures Run(s, c, rs, m).pose.x == s.pose.x
    ensures Run(s, c, rs, m).pose.y == s.pose.y
  {
    RunFollowsDrive(s, c, rs, m);
    SpinReadingsGiveCancellingDistances(s, c, rs, m);
    SpinDriveKeepsPosition(s.pose, Distances(s, c, rs, m), c.trackWidth, m);
  }

  /** No sign-corrected count of the reading passes the threshold. */
  predicate BelowThreshold(c: Calibration, rd: Reading)
  {
    !ResetDue(SignCorrected(c, rd).0, SignCorrected(c, rd).1)
  }

  /** No tick is lost or counted twice between resets: over a run in which
      no count passes the threshold, the tick deltas add up to the last
      sign-corrected count minus the starting previous count, and that last
      count is what the odometer keeps as its previous count. */
  lemma {:induction false} TicksTelescope(s: Tracking, c: Calibration, rs: seq<Reading>, m: MathLib)
    requires c.trackWidth != 0.0
    requires rs != []
    requires forall i :: 0 <= i < |rs| ==> BelowThreshold(c, rs[i])
    ensures TickTotals(s, c, rs, m).0 == SignCorrected(c, rs[|rs| - 1]).0 - s.previousLeftEncoderCounts
    ensures TickTotals(s, c, rs, m).1 == SignCorrected(c, rs[|rs| - 1]).1 - s.previousRightEncoderCounts
    ensures Run(s, c, rs, m).previousLeftEncoderCounts == SignCorrected(c, rs[|rs| - 1]).0
    ensures Run(s, c, rs, m).previousRightEncoderCounts == SignCorrected(c, rs[|rs| - 1]).1
    decreases |rs|
  {
    assert BelowThreshold(c, rs[0]);
    var s1 := Step(s, c, rs[0], m);
    assert (s1.previousLeftEncoderCounts, s1.previousRightEncoderCounts) == SignCorrected(c, rs[0]);
    if rs[1..] != [] {
      assert forall i :: 0 <= i < |rs[1..]| ==> rs[1..][i] == rs[i + 1];
      TicksTelescope(s1, c, rs[1..], m);
      assert rs[1..][|rs[1..]| - 1] == rs[|rs| - 1];
    }
  }
}
