/** Python's round(x, 3) on exact reals: round half to even at the third
    decimal. */
module Rounding {

  /** The integer nearest to x; a tie goes to the even neighbour. */
  function RoundHalfEven(x: real): (k: int)
    ensures -0.5 <= k as real - x <= 0.5
    ensures k as real - x == 0.5 || x - k as real == 0.5 ==> k % 2 == 0
  {
    var f := x.Floor;
    var frac := x - f as real;
    if frac < 0.5 then f
    else if frac > 0.5 then f + 1
    else if f % 2 == 0 then f
    else f + 1
  }

  /** Rounding to the nearest integer never reverses an order. */
  lemma RoundHalfEvenMonotone(x: real, y: real)
    requires x <= y
    ensures RoundHalfEven(x) <= RoundHalfEven(y)
  {
  }

  /** An integer rounds to itself. */
  lemma RoundHalfEvenOfInt(k: int)
    ensures RoundHalfEven(k as real) == k
  {
  }

  /** round(x, 3): the nearest multiple of 0.001, ties to the even
      thousandth. */
  function Round3(x: real): (r: real)
    ensures (r * 1000.0).Floor as real == r * 1000.0
    ensures -0.0005 <= r - x <= 0.0005
    ensures r - x == 0.0005 || x - r == 0.0005 ==> (r * 1000.0).Floor % 2 == 0
  {
    RoundHalfEven(x * 1000.0) as real / 1000.0
  }

  /** Rounding to three decimals never reverses an order. */
  lemma Round3Monotone(x: real, y: real)
    requires x <= y
    ensures Round3(x) <= Round3(y)
  {
    RoundHalfEvenMonotone(x * 1000.0, y * 1000.0);
  }

  /** A whole number of thousandths is left unchanged. */
  lemma Round3Exact(m: int)
    ensures Round3(m as real / 1000.0) == m as real / 1000.0
  {
    assert m as real / 1000.0 * 1000.0 == m as real;
    RoundHalfEvenOfInt(m);
  }

  /** Rounding is idempotent. */
  lemma Round3Idempotent(x: real)
    ensures Round3(Round3(x)) == Round3(x)
  {
    Round3Exact(RoundHalfEven(x * 1000.0));
  }
}
