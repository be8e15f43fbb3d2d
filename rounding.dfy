/**
 * The rounding primitives of the engine: JavaScript's `Math.round`, `Math.floor`
 * (Dafny's `.Floor`), a ceiling, and the project's `roundToTwo` helper
 * (round half up to two decimals). Amounts are exact reals: IEEE-754 doubles
 * are not modelled.
 */
module Rounding {

  /** JavaScript's `Math.round`: the nearest integer, halves rounded up. */
  function JsRound(x: real): (r: int)
    ensures x - 0.5 < r as real <= x + 0.5
  {
    (x + 0.5).Floor
  }

  /** The least integer not below `x`. */
  function Ceil(x: real): (r: int)
    ensures x <= r as real < x + 1.0
  {
    -((-x).Floor)
  }

  function Max(a: real, b: real): real { if a < b then b else a }

  function Min(a: real, b: real): real { if a < b then a else b }

  /** `roundToTwo`: round half up to a whole number of cents. */
  function RoundToTwo(x: real): (r: real)
    ensures x - 0.005 < r <= x + 0.005
  {
    (x * 100.0 + 0.5).Floor as real / 100.0
  }

  /** A value that is a whole number of cents. */
  predicate IsCents(x: real) {
    (x * 100.0).Floor as real == x * 100.0
  }

  lemma FloorMonotone(x: real, y: real)
    requires x <= y
    ensures x.Floor <= y.Floor
  {
  }

  /** roundToTwo never reverses the order of two amounts. */
  lemma RoundToTwoMonotone(x: real, y: real)
    requires x <= y
    ensures RoundToTwo(x) <= RoundToTwo(y)
  {
    FloorMonotone(x * 100.0 + 0.5, y * 100.0 + 0.5);
  }

  /** roundToTwo leaves an amount that is already in whole cents unchanged. */
  lemma {:induction false} RoundToTwoOfCents(k: int)
    ensures RoundToTwo(k as real / 100.0) == k as real / 100.0
  {
    var x := k as real / 100.0;
    assert x * 100.0 == k as real;
    assert (x * 100.0 + 0.5).Floor == k;
  }

  /** Every result of roundToTwo is a whole number of cents, so rounding twice is rounding once. */
  lemma RoundToTwoIdempotent(x: real)
    ensures IsCents(RoundToTwo(x))
    ensures RoundToTwo(RoundToTwo(x)) == RoundToTwo(x)
  {
    var k := (x * 100.0 + 0.5).Floor;
    assert RoundToTwo(x) == k as real / 100.0;
    assert (k as real / 100.0) * 100.0 == k as real;
    RoundToTwoOfCents(k);
  }

  /** roundToTwo of zero is zero. */
  lemma RoundToTwoZero()
    ensures RoundToTwo(0.0) == 0.0
  {
    RoundToTwoOfCents(0);
  }
}
