/** The numeric platform the odometer runs on: the Arduino value of PI, the
    `constrain` macro, and the C math library functions the odometer calls.
    The math functions are not defined here; they are injected as a `MathLib`
    value, and the few facts about them that some properties need are stated
    as predicates that a lemma takes as a hypothesis. */
module Platform {

  /** Arduino's `PI` constant. */
  const PI: real := 3.1415926535897932384626433832795

  /** The library functions `sin`, `cos`, `atan2` and `sqrt`, supplied by the
      caller. `pow(v, 2)` is written `v * v` wherever the source uses it. */
  datatype MathLib = MathLib(
    sinFn: real -> real,
    cosFn: real -> real,
    atan2Fn: (real, real) -> real,
    sqrtFn: real -> real)
  {
    function Sin(a: real): real { sinFn(a) }
    function Cos(a: real): real { cosFn(a) }
    function Atan2(y: real, x: real): real { atan2Fn(y, x) }
    function Sqrt(v: real): real { sqrtFn(v) }
  }

  /** The range law assumed of `atan2`: an angle in (-PI, PI]. C's atan2 may
      also return -PI, a value this law leaves out. */
  ghost predicate Atan2InRange(m: MathLib)
  {
    forall y: real, x: real :: -PI < m.Atan2(y, x) <= PI
  }

  /** `atan2(sin(h), cos(h))` gives back `h` when `h` is already in (-PI, PI]. */
  ghost predicate WrapFixesPrincipal(m: MathLib)
  {
    forall h: real :: -PI < h <= PI ==> m.Atan2(m.Sin(h), m.Cos(h)) == h
  }

  /** `sqrt` returns the non-negative square root of a non-negative argument. */
  ghost predicate SqrtIsRoot(m: MathLib)
  {
    forall v: real :: 0.0 <= v ==> 0.0 <= m.Sqrt(v) && m.Sqrt(v) * m.Sqrt(v) == v
  }

  /** Arduino's `constrain(amt, low, high)` macro: `amt` pulled into [low, high]. */
  function Constrain(amt: real, low: real, high: real): (r: real)
    requires low <= high
    ensures low <= r <= high
    ensures low <= amt <= high ==> r == amt
    ensures amt < low ==> r == low
    ensures high < amt ==> r == high
  {
    if amt < low then low else if amt > high then high else amt
  }
}
