# Odometer — a verified model of differential-drive dead reckoning

This project models the `Odometer` class of Odometer/Odometer.cpp. The class
keeps a two-wheeled robot's pose estimate (`X`, `Y`, `heading`) and its wheel
and turn-rate estimates (`vLeft`, `vRight`, `omega`). It updates them from
the wheel encoders' cumulative tick counts and the millisecond clock. It also
offers a few read-only steering helpers: the heading towards a goal point,
the normalized heading error, the distance to the goal, and an open-loop
mixer from normalized linear/angular commands to wheel commands.

The project has three files, which are verified together:

- `Platform.dfy`:
  - Arduino's `PI` and its `constrain` macro.
  - The math library as an injected `MathLib` value (`sin`, `cos`, `atan2`,
    `sqrt`).
  - Three laws about those functions, stated as predicates. A property that
    needs a law takes it as a hypothesis:
    - `Atan2InRange`: atan2 lands in (-PI, PI].
    - `WrapFixesPrincipal`: `atan2(sin h, cos h) == h` for a principal `h`.
    - `SqrtIsRoot`.
- `Kinematics.dfy`: what one `update` does to the odometer's mutable state, as
  pure functions on values.
  - `Step` is `Integrate` (tick bookkeeping, wheel distances, velocity
    estimates, pose accumulation, heading wrap) followed by `OverflowGuard`
    (the reset of the counting basis past 32000 counts).
  - `Run` folds `Step` over a sequence of readings.
  - The lemmas about runs give the odometer's promises over many updates:
    - driving straight keeps the heading and moves along it;
    - turning in place keeps the position;
    - no tick is lost between resets;
    - the heading stays wrapped;
    - a still clock holds the velocities.
- `Odometry.dfy`: the `Odometer` class itself.
  - The per-wheel arrays `encodeFactor`, `wheelDiameter`,
    `countsPerRevolution` and `distancePerCount` are the class's arrays. The
    source's `encoder` pointer array has no counterpart; the `encoderCount`
    array stands in for the encoders' counts.
  - The scalar members are its fields.
  - `Setup`, `Reset`, `SetCurrentPosition`, `SetGoalPosition` and `Update`
    update them in place, with the source's loops.
  - `Reset`, `SetCurrentPosition`, `Update`, `CountTicks` and `Move` are
    proved against the functions of Kinematics.dfy. For example, `Update`
    ensures `State() == Step(old(State()), old(Cal()), …)`.
  - `Setup`, `Calibrate`, `Clear` and `SetGoalPosition` state their new
    field and array values directly.
  - The getters are functions of the fields.

The collaborators are parameters:

- each raw encoder reading `read()` and the clock reading `millis()` come in
  as arguments of `Update`, `Reset` and so on;
- `getCountsPerRevolution()` comes in as an argument of `Setup`;
- the encoders' `write(0)` is modelled by the `encoderCount` array, which
  holds each encoder's count as far as the odometer's own writes go.

## Model

| member | source | states |
|---|---|---|
| Odometry.Odometer.constructor | Odometer/Odometer.cpp:13-14 | The no-argument constructor allocates the per-wheel storage; setup must follow before use. |
| Odometry.Odometer.Setup | Odometer/Odometer.cpp:19-56 | Both wheels are calibrated: diameter, counts per revolution, distance per count = PI·diameter/counts, encode factor ±1 by direction. Pose, goal and wheel velocities are zero, the track width is recorded, and the counters are reset to the clock reading. omega keeps whatever it held. |
| Odometry.Odometer.Calibrate | Odometer/Odometer.cpp:20-34 | The per-wheel loop leaves every wheel calibrated from its inputs, and the calibration is `Configured`: sign factors, positive counts, distance per count as circumference over counts. |
| Odometry.Odometer.Clear | Odometer/Odometer.cpp:36-46 | Pose, goal and wheel velocities are zero and the track width is the given one; it modifies nothing else. |
| Odometry.Odometer.Reset | Odometer/Odometer.cpp:61-68 | The new state is `ResetCounters` of the old one. Both encoders and both previous counts are zero and the time basis is `now`. Pose and velocities are unchanged, and it modifies nothing else. |
| Odometry.Odometer.SetCurrentPosition | Odometer/Odometer.cpp:70-75 | It resets the counters as `Reset` does, then the pose is exactly (x, y, heading). |
| Odometry.Odometer.SetGoalPosition | Odometer/Odometer.cpp:77-80 | The goal becomes (x, y); its frame is the two goal fields only. |
| Odometry.Odometer.Update | Odometer/Odometer.cpp:87-150 | The new state is exactly `Step` of the old state, calibration and reading. Every property proved of `Step` and `Run` therefore holds of the object. |
| Odometry.Odometer.CountTicks | Odometer/Odometer.cpp:88-98 | The returned tick deltas are `TickDeltas`: the sign-corrected count minus the previous count. The previous counts become the sign-corrected counts, the previous time becomes `now`, and the returned time delta is `now` minus the old previous time. |
| Odometry.Odometer.Move | Odometer/Odometer.cpp:103-142 | The pose becomes `Advance` of the old pose. With no elapsed time the three velocity estimates are unchanged; otherwise they are the per-second rates of the wheel distances and of the heading change. |
| Odometry.Odometer.LinearVelocity | Odometer/Odometer.cpp:178-180 | The centre velocity lies between the two wheel velocities, at equal distance from both. It is zero exactly when they are opposite. |
| Odometry.Odometer.TranslateToLeftRightVelocities | Odometer/Odometer.cpp:187-200 | Both outputs are in [-1, 1]. Left is linear − angular and right is linear + angular whenever that is in range; otherwise each is clamped to the bound it passed. No state is read. |
| Odometry.Odometer.GoalHeading | Odometer/Odometer.cpp:206-209 | Under the atan2 range law, the goal heading is in (-PI, PI]. |
| Odometry.Odometer.NormalizedHeadingErrorTo | Odometer/Odometer.cpp:232-245 | Under the atan2 range law, the error is in (-1, 1]. When the heading difference is already principal and `atan2(sin h, cos h)` fixes principal angles (`WrapFixesPrincipal`), the error times PI is that difference. |
| Odometry.Odometer.NormalizedHeadingError | Odometer/Odometer.cpp:219-222 | Under the atan2 range law, the error of the no-argument overload (against the goal heading) is in (-1, 1]. |
| Odometry.Odometer.DistanceToGoal | Odometer/Odometer.cpp:247-254 | Under the sqrt law, the distance is non-negative and its square is the squared Euclidean distance to the goal. |
| Odometry.HeadingErrorToOwnHeadingIsZero | Odometer/Odometer.cpp:232-245 | When `atan2(sin h, cos h)` fixes principal angles (`WrapFixesPrincipal`), the heading error of the current heading against itself is 0. |
| Odometry.DistanceThreeFourFive | Odometer/Odometer.cpp:247-254 | Under the sqrt law (`SqrtIsRoot`), from (0, 0) the goal (3, 4) is exactly 5 away. |
| Odometry.MixerExamples | Odometer/Odometer.cpp:187-200 | Full forward gives (1, 1), full left turn gives (-1, 1), and (0.5, 0.8) saturates the right wheel: (-0.3, 1). |
| Odometry.SetupThenMeasure | Odometer/Odometer.cpp:19-56 | Under the sqrt law (`SqrtIsRoot`), after setup and setGoalPosition(3, 4), the distance to the goal is 5. |
| Platform.Constrain | Odometer/Odometer.cpp:195-196 | The result is in [low, high]; it is the input when that is in range, and otherwise the bound it passed. |
| Kinematics.TickDistanceSign | Odometer/Odometer.cpp:100-101 | Zero ticks cover zero distance. With a positive distance per count, the distance has the sign of the ticks (both directions). |
| Kinematics.WheelDistances | Odometer/Odometer.cpp:100-101 | A wheel whose tick delta is zero covered no distance. |
| Kinematics.DeltaHeadingTurns | Odometer/Odometer.cpp:103 | Heading change times track width is right distance minus left distance. The heading change is zero exactly when the wheel distances are equal. |
| Kinematics.MeanDistanceHalfway | Odometer/Odometer.cpp:154 | The centre's distance lies halfway between the wheel distances, and is zero exactly when they cancel. |
| Kinematics.DeltasCrudeCases | Odometer/Odometer.cpp:152-158 | Cancelling wheel distances give displacement (0, 0) whatever sin and cos return. Equal wheel distances d give (d·cos h, d·sin h). |
| Kinematics.RateScales | Odometer/Odometer.cpp:108-112 | Rate times elapsed milliseconds is 1000 times the change. The rate is zero exactly when the change is zero. |
| Kinematics.Wrap | Odometer/Odometer.cpp:142 | Under the atan2 range law, the wrapped heading is in (-PI, PI]. A heading that is already principal is kept when `atan2(sin h, cos h)` fixes principal angles. |
| Kinematics.Advance | Odometer/Odometer.cpp:103-142 | Under the atan2 range law, the heading after one update's pose accumulation is in (-PI, PI]. |
| Kinematics.AdvanceCases | Odometer/Odometer.cpp:103-116 | Turning in place (distances cancel) keeps x and y. Driving straight (equal distances d) moves d along the old heading and only re-wraps the heading. |
| Kinematics.Integrate | Odometer/Odometer.cpp:87-142 | The previous counts are the sign-corrected readings and the previous time is `now`. With no elapsed time the velocities are held. The pose is `Advance` by this interval's wheel distances. The encoders are not written. |
| Kinematics.IntegrateRates | Odometer/Odometer.cpp:108-112 | With elapsed time dt, vLeft·dt, vRight·dt and omega·dt are 1000 times the left distance, the right distance and the heading change. |
| Kinematics.ResetCounters | Odometer/Odometer.cpp:61-68 | The encoders and both previous counts are zero and the time basis is `now`. Pose and velocities are kept. |
| Kinematics.OverflowGuard | Odometer/Odometer.cpp:144-149 | Pose and velocities are always kept. Past the threshold, the counting basis is zeroed and restamped. With both counts at or below 32000 (negative counts included), the state is unchanged. |
| Kinematics.StepResetsOnlyOnOverflow | Odometer/Odometer.cpp:146-149 | An update has the integrated pose. It is followed by a reset exactly when a sign-corrected count exceeds 32000. Otherwise the previous counts are the sign-corrected readings. |
| Kinematics.StepStillOrSpinning | Odometer/Odometer.cpp:100-116 | An update whose wheel distances cancel keeps X and Y, whatever sin and cos return. One whose tick deltas are both zero keeps the whole pose up to the heading wrap. |
| Kinematics.RunFollowsDrive | Odometer/Odometer.cpp:87-150 | The pose after any sequence of updates is the pose accumulated from their wheel distances: the overflow resets never disturb it. |
| Kinematics.RunKeepsHeadingInRange | Odometer/Odometer.cpp:141-142 | Under the atan2 range law, the heading is in (-PI, PI] after every non-empty sequence of updates, from any start and any readings. |
| Kinematics.StillClockHoldsVelocities | Odometer/Odometer.cpp:96-112 | Updates that all read the clock at the last update's time keep vLeft, vRight and omega through the whole sequence. |
| Kinematics.StraightStep | Odometer/Odometer.cpp:103-142 | Under `WrapFixesPrincipal`, one update with equal wheel distances d from a principal heading keeps the heading and moves d along it. Without the law the heading becomes `Wrap(h)`. |
| Kinematics.StraightDriveKeepsHeading | Odometer/Odometer.cpp:103-142 | Under `WrapFixesPrincipal`, accumulating equal wheel distances from a principal heading keeps the heading, and the position lies the total centre distance along it. |
| Kinematics.StraightReadingsGiveEqualDistances | Odometer/Odometer.cpp:88-101 | With equal distance per count, equal starting previous counts and readings whose sign-corrected counts agree, every update's wheel distances are equal. This holds across resets too. |
| Kinematics.StraightRunKeepsHeading | Odometer/Odometer.cpp:87-150 | Driving straight, stated of `Run`: with equal distance per count on both wheels, equal starting previous counts, a starting heading in (-PI, PI], readings whose sign-corrected counts agree, and `WrapFixesPrincipal`, the heading never changes and the position advances along it by the centre's total distance. Through `Update`'s contract this carries over to the object. |
| Kinematics.SpinDriveKeepsPosition | Odometer/Odometer.cpp:152-158 | Accumulating wheel distances that cancel never moves the position, whatever sin and cos return. |
| Kinematics.SpinReadingsGiveCancellingDistances | Odometer/Odometer.cpp:88-101 | With equal distance per count, opposite starting previous counts and readings whose sign-corrected counts are opposite, every update's wheel distances cancel. |
| Kinematics.SpinRunKeepsPosition | Odometer/Odometer.cpp:87-150 | Turning in place, stated of `Run`: with equal distance per count on both wheels, opposite starting previous counts and readings whose sign-corrected counts are opposite, X and Y never change over any sequence of updates. |
| Kinematics.TicksTelescope | Odometer/Odometer.cpp:88-94 | Between resets no tick is lost or double-counted. The tick deltas of a sequence add up to the last sign-corrected count minus the starting previous count, and that last count becomes the previous count. |

## Left out

- Serial diagnostics are not modelled. These are the setup prints, the
  "Zero left/right velocity" notices and the reset notice. They are output
  only and do not change state.
- Floating-point rounding: `double` and `float` arithmetic is modelled as
  exact real arithmetic.
- `sin`, `cos`, `atan2` and `sqrt` are injected and otherwise
  uninterpreted. Only the three stated laws are used, always as hypotheses.
  `pow(v, 2)` is written `v * v`.
- `calculateDeltasRefined` (lines 163-173) is not modelled. Update never
  calls it, and it divides by a wheel-distance difference that can be zero.
- C integer widths are not modelled: counts and times are unbounded
  integers. That leaves out `long` overflow of the products and differences
  of counts, and `unsigned long` wrap of `millis()` in the time delta.
  The 32000 threshold is modelled exactly.
- The `reset()` that update calls reads `millis()` again. The model takes
  the same `now` that update read, so any tick of the clock in between is
  not modelled.
- Odometry.Odometer.Update requires a non-zero track width. The source
  divides by it, and a zero track width would give an infinite heading
  change, or NaN (0/0) when the two wheel distances are equal. That NaN
  then survives the wrap on every later update.
- Odometry.Odometer.Setup requires positive counts per revolution. The source
  divides by them; the encoder's `getCountsPerRevolution()` is taken as that
  argument. The encoder pointers themselves are not stored.
- `omega` is not initialized by setup, and the model keeps whatever it held.
  Odometry.Odometer.Setup states the new state with the old `omega`.
- The encoder hardware is not modelled beyond `write(0)`. `encoderCount`
  records only the odometer's own zeroing. The counts the encoders later
  accumulate arrive as `Update`'s raw readings.
- `MOTOR_LEFT` is taken as 0 and `MOTOR_RIGHT` as 1; Motor.h is not part of
  this model.
- Update's body is split into two helpers, CountTicks and Move. Together
  they run the source's statements in the source's order.
- The wrap at Odometer/Odometer.cpp:142 keeps the heading in range only
  through the range of `atan2`, so the range is proved under
  `Atan2InRange`. (-PI, PI] is the range `Atan2InRange` assumes of atan2
  over the reals. C's atan2 returns values in [-π, π], and the comment at
  line 141 allows -Pi. The source's wrap can therefore return -PI (for
  example, `atan2(sin(-PI), cos(-PI))` after setCurrentPosition with
  heading -PI). The model does not capture that value.
- The overflow guard at line 146 tests the sign-corrected previous counts,
  not the raw readings, and the model does the same.
- Setup does not validate its inputs beyond what is required above. The code
  does not validate them either.
