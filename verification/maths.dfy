/**
 The transcendental functions the filter designers call. They are left
 uninterpreted: a `Libm` value supplies them, and only the facts listed in
 `Valid` are assumed of it.
 */
module Maths {

  /** pi as the double constant the designers use. */
  const Pi: real := 3.141592653589793

  datatype Libm = Libm(
    tan: real -> real,
    sin: real -> real,
    cos: real -> real,
    sinh: real -> real,
    log2: real -> real,
    log: real -> real,
    exp: real -> real,
    sqrt2: real)
  {
    /** The facts about the library that the proofs rely on. */
    predicate Valid() {
      sqrt2 > 0.0 && sqrt2 * sqrt2 == 2.0 && log(2.0) != 0.0
    }
  }
}
