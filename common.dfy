/** The optional value used for lookups that can miss. */
module Wrappers {
  datatype Option<T> = None | Some(value: T)
}

/** The game's 2-D and 3-D vectors. Single-precision floats are modelled as reals. */
module Math {
  datatype Vector2 = Vector2(x: real, y: real)
  datatype Vector3 = Vector3(x: real, y: real, z: real)

  const Zero := Vector2(0.0, 0.0)

  function Add(a: Vector2, b: Vector2): Vector2 { Vector2(a.x + b.x, a.y + b.y) }
  function Sub(a: Vector2, b: Vector2): Vector2 { Vector2(a.x - b.x, a.y - b.y) }
  function Scale(a: Vector2, k: real): Vector2 { Vector2(a.x * k, a.y * k) }
  function Dot(a: Vector2, b: Vector2): real { a.x * b.x + a.y * b.y }

  function Abs(r: real): (a: real)
    ensures a >= 0.0 && (a == r || a == -r)
  {
    if r < 0.0 then -r else r
  }

  function Max(a: real, b: real): (m: real)
    ensures m >= a && m >= b && (m == a || m == b)
  {
    if a < b then b else a
  }

  /** `f32::signum` on a non-NaN value: positive zero counts as positive. */
  function Signum(r: real): (s: real)
    ensures s == 1.0 || s == -1.0
    ensures s * r == Abs(r)
  {
    if r < 0.0 then -1.0 else 1.0
  }
}

/** Durations and instants, both counted in whole nanoseconds as `std::time` does. */
module Time {
  type Duration = nat
  type Instant = nat

  const NANOS_PER_MILLI: nat := 1_000_000

  function Millis(ms: nat): (d: Duration)
    ensures d == ms * NANOS_PER_MILLI
  {
    ms * NANOS_PER_MILLI
  }
}

/**
 * The random generator's `gen_range(low, high)` on floats, with the
 * generator's draw `unit` in `[0, 1)` supplied as a parameter. The generator
 * panics on an empty range, hence the requirement `low < high`.
 */
module Sampling {
  function GenRange(low: real, high: real, unit: real): (v: real)
    requires low < high && 0.0 <= unit < 1.0
    ensures low <= v < high
  {
    low + Portion(unit, high - low)
  }

  /** Every value of the range is drawn for some `unit`: the sample covers the whole range. */
  lemma GenRangeReaches(low: real, high: real, wanted: real) returns (unit: real)
    requires low <= wanted < high
    ensures 0.0 <= unit < 1.0
    ensures GenRange(low, high, unit) == wanted
  {
    unit := (wanted - low) / (high - low);
    assert unit * (high - low) == wanted - low;
    assert (unit - 1.0) * (high - low) == wanted - high;
    NegativeFactor(unit - 1.0, high - low);
  }

  lemma NegativeFactor(x: real, y: real)
    requires x * y < 0.0 && y > 0.0
    ensures x < 0.0
  {
  }

  /** A fraction in [0, 1) of a positive amount stays below the amount. */
  function Portion(fraction: real, whole: real): (p: real)
    requires 0.0 <= fraction < 1.0 && whole > 0.0
    ensures 0.0 <= p < whole
  {
    assert (1.0 - fraction) * whole > 0.0;
    fraction * whole
  }
}
