/** Exact money arithmetic: amounts are reals, and rounding to two decimals
    is rounding to the nearest cent with ties going to the even cent. */
module Money {

  /** The integer nearest to `x`; when `x` lies exactly halfway between two
      integers, the even one. */
  function RoundHalfEven(x: real): (n: int)
    ensures x - 0.5 <= n as real <= x + 0.5
    ensures (n as real == x - 0.5 || n as real == x + 0.5) ==> n % 2 == 0
  {
    var f := x.Floor;
    var d := x - f as real;
    if d < 0.5 then f
    else if d > 0.5 then f + 1
    else if f % 2 == 0 then f
    else f + 1
  }

  /** The two properties of RoundHalfEven's contract single out one integer. */
  lemma RoundHalfEvenUnique(x: real, m: int)
    requires x - 0.5 <= m as real <= x + 0.5
    requires (m as real == x - 0.5 || m as real == x + 0.5) ==> m % 2 == 0
    ensures m == RoundHalfEven(x)
  {
  }

  /** Rounding is monotone. */
  lemma RoundHalfEvenMonotone(x: real, y: real)
    requires x <= y
    ensures RoundHalfEven(x) <= RoundHalfEven(y)
  {
  }

  /** An integer rounds to itself. */
  lemma RoundHalfEvenOfInteger(k: int)
    ensures RoundHalfEven(k as real) == k
  {
  }

  /** `x` is a whole number of cents. */
  predicate IsCents(x: real) {
    (x * 100.0).Floor as real == x * 100.0
  }

  /** Rounding to two decimals: the nearest whole number of cents, ties to
      the even cent. */
  function Round2(x: real): (y: real)
    ensures IsCents(y)
    ensures x - 0.005 <= y <= x + 0.005
  {
    var c := RoundHalfEven(x * 100.0);
    assert (c as real / 100.0) * 100.0 == c as real;
    assert ((c as real / 100.0) * 100.0).Floor == c;
    c as real / 100.0
  }

  /** An amount that already is a whole number of cents is left unchanged. */
  lemma Round2OfCents(x: real)
    requires IsCents(x)
    ensures Round2(x) == x
  {
    var k := (x * 100.0).Floor;
    RoundHalfEvenOfInteger(k);
    assert RoundHalfEven(x * 100.0) == k;
  }

  /** Rounding twice is rounding once. */
  lemma Round2Idempotent(x: real)
    ensures Round2(Round2(x)) == Round2(x)
  {
    Round2OfCents(Round2(x));
  }

  /** Rounding to two decimals is monotone. */
  lemma Round2Monotone(x: real, y: real)
    requires x <= y
    ensures Round2(x) <= Round2(y)
  {
    RoundHalfEvenMonotone(x * 100.0, y * 100.0);
  }

  /** Rounding never turns a non-negative amount negative, and a difference
      of at most half a cent below zero still rounds to zero. */
  lemma Round2NonNegative(x: real)
    requires x >= -0.005
    ensures Round2(x) >= 0.0
  {
    Round2Monotone(-0.005, x);
    assert RoundHalfEven(-0.5) == 0;
  }
}
