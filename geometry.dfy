/** World-space vectors and the scalar helpers (Math.abs, Math.min, Math.max) the tick uses. */
module Geometry {

  /** A position, velocity or extent in world space; a value with no identity. */
  datatype Vector3 = Vector3(x: real, y: real, z: real)

  function Abs(a: real): (r: real)
    ensures r >= 0.0
    ensures r == a || r == -a
  {
    if a < 0.0 then -a else a
  }

  function Min(a: real, b: real): (r: real)
    ensures r <= a && r <= b
    ensures r == a || r == b
  {
    if a <= b then a else b
  }

  function Max(a: real, b: real): (r: real)
    ensures r >= a && r >= b
    ensures r == a || r == b
  {
    if a >= b then a else b
  }

  /** `a ** 2 + b ** 2`, the radicand of every planar length the tick takes. */
  function SumOfSquares(a: real, b: real): (r: real)
    ensures r >= 0.0
  {
    a * a + b * b
  }
}

/**
 * The host's floating-point library, which the model cannot see: Math.sin,
 * Math.cos and Math.sqrt are supplied by the caller as plain functions.
 */
module JsMath {

  datatype MathLib = MathLib(sin: real -> real, cos: real -> real, sqrt: real -> real)

  function Sin(m: MathLib, a: real): real { m.sin(a) }
  function Cos(m: MathLib, a: real): real { m.cos(a) }
  function Sqrt(m: MathLib, a: real): real { m.sqrt(a) }

  /** The one law of Math.sqrt the model relies on: a non-negative input has a non-negative root. */
  ghost predicate SqrtNonNegative(m: MathLib) {
    forall a: real :: 0.0 <= a ==> 0.0 <= Sqrt(m, a)
  }
}

/** The usual optional value. */
module Options {
  datatype Option<+T> = None | Some(value: T)
}
