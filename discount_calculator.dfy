/** The discount rules: which percentage a purchase amount earns, and the
    price that remains once a percentage is taken off. */
module DiscountCalculator {
  import opened Money

  /** The outcome of a calculator operation: a value, or the `ValueError`
      the calculator raises for a negative argument. */
  datatype Result<T> = Ok(value: T) | ValueError

  /** One discount band: amounts from `lowerBound` (inclusive) up to the next
      band's lower bound (exclusive) earn `percent`. */
  datatype Tier = Tier(lowerBound: real, percent: int)

  /** The four fixed bands, in ascending order of their lower bounds. */
  const DiscountTiers: seq<Tier> :=
    [Tier(0.0, 0), Tier(100.0, 10), Tier(500.0, 15), Tier(1000.0, 20)]

  /** The discount percentage earned by `amount`. */
  function CalculateDiscount(amount: real): (r: Result<int>)
    ensures r.ValueError? <==> amount < 0.0
    ensures r.Ok? ==> r.value in {0, 10, 15, 20}
  {
    if amount < 0.0 then ValueError
    else if amount < 100.0 then Ok(0)
    else if amount < 500.0 then Ok(10)
    else if amount < 1000.0 then Ok(15)
    else Ok(20)
  }

  /** The price left after taking `discountPercent` percent off `amount`,
      rounded to two decimals. */
  function ApplyDiscount(amount: real, discountPercent: real): (r: Result<real>)
    ensures r.ValueError? <==> amount < 0.0 || discountPercent < 0.0
    ensures r.Ok? ==> IsCents(r.value)
    ensures r.Ok? ==> Discounted(amount, discountPercent) - 0.005 <= r.value
                      <= Discounted(amount, discountPercent) + 0.005
  {
    if amount < 0.0 || discountPercent < 0.0 then ValueError
    else
      var discountAmount := amount * (discountPercent / 100.0);
      Ok(Round2(amount - discountAmount))
  }

  /** The exact discounted price, before rounding. */
  function Discounted(amount: real, discountPercent: real): real {
    amount - amount * (discountPercent / 100.0)
  }

  // ---------------------------------------------------------------------
  // The bands as a table

  /** Lower bounds strictly ascend and percentages never decrease. */
  ghost predicate Ascending(tiers: seq<Tier>) {
    forall i, j :: 0 <= i < j < |tiers| ==>
      tiers[i].lowerBound < tiers[j].lowerBound && tiers[i].percent <= tiers[j].percent
  }

  /** The percentage of the highest band whose lower bound `amount` reaches,
      or 0 when it reaches none. */
  function TierPercent(tiers: seq<Tier>, amount: real): int {
    if tiers == [] then 0
    else if tiers[|tiers| - 1].lowerBound <= amount then tiers[|tiers| - 1].percent
    else TierPercent(tiers[..|tiers| - 1], amount)
  }

  /** A table lookup never exceeds the top band's percentage. */
  lemma {:induction false} TierPercentAtMostTop(tiers: seq<Tier>, amount: real)
    requires tiers != [] && Ascending(tiers) && 0 <= tiers[0].percent
    ensures TierPercent(tiers, amount) <= tiers[|tiers| - 1].percent
  {
    var init := tiers[..|tiers| - 1];
    if tiers[|tiers| - 1].lowerBound > amount && init != [] {
      assert Ascending(init);
      TierPercentAtMostTop(init, amount);
    }
  }

  /** Looking up a larger amount in an ascending table never gives a smaller
      percentage. */
  lemma {:induction false} TierPercentMonotone(tiers: seq<Tier>, a: real, b: real)
    requires Ascending(tiers) && (tiers != [] ==> 0 <= tiers[0].percent)
    requires a <= b
    ensures TierPercent(tiers, a) <= TierPercent(tiers, b)
  {
    if tiers != [] {
      var init := tiers[..|tiers| - 1];
      var top := tiers[|tiers| - 1];
      assert Ascending(init);
      if b < top.lowerBound {
        TierPercentMonotone(init, a, b);
      } else if a < top.lowerBound {
        if init != [] {
          TierPercentAtMostTop(init, a);
          assert init[|init| - 1] == tiers[|tiers| - 2];
        }
      }
    }
  }

  /** The calculator's if-chain is the lookup in the table of bands. */
  lemma CalculateDiscountIsTableLookup(amount: real)
    requires amount >= 0.0
    ensures CalculateDiscount(amount) == Ok(TierPercent(DiscountTiers, amount))
  {
    var t3 := DiscountTiers[..3];
    var t2 := t3[..2];
    var t1 := t2[..1];
    assert t3 == [Tier(0.0, 0), Tier(100.0, 10), Tier(500.0, 15)];
    assert t2 == [Tier(0.0, 0), Tier(100.0, 10)];
    assert t1 == [Tier(0.0, 0)];
    assert TierPercent(t1, amount) == 0;
    assert TierPercent(t2, amount) == if amount < 100.0 then 0 else 10;
    assert TierPercent(t3, amount) == if amount < 500.0 then TierPercent(t2, amount) else 15;
  }

  /** Band `i` covers exactly the half-open interval from its lower bound up
      to the next band's lower bound; the top band is open-ended. */
  lemma CalculateDiscountHalfOpenTiers(amount: real, i: nat)
    requires i < |DiscountTiers|
    requires DiscountTiers[i].lowerBound <= amount
    requires i + 1 < |DiscountTiers| ==> amount < DiscountTiers[i + 1].lowerBound
    ensures CalculateDiscount(amount) == Ok(DiscountTiers[i].percent)
  {
  }

  /** A larger amount never earns a smaller discount. */
  lemma CalculateDiscountMonotone(a: real, b: real)
    requires 0.0 <= a <= b
    ensures CalculateDiscount(a).Ok? && CalculateDiscount(b).Ok?
    ensures CalculateDiscount(a).value <= CalculateDiscount(b).value
  {
    CalculateDiscountIsTableLookup(a);
    CalculateDiscountIsTableLookup(b);
    TierPercentMonotone(DiscountTiers, a, b);
  }

  // ---------------------------------------------------------------------
  // Properties of ApplyDiscount

  /** A zero discount leaves an amount of whole cents unchanged. */
  lemma ApplyZeroDiscount(amount: real)
    requires amount >= 0.0 && IsCents(amount)
    ensures ApplyDiscount(amount, 0.0) == Ok(amount)
  {
    Round2OfCents(amount);
  }

  /** With a percentage between 0 and 100 the final price lies between zero
      and the (rounded) original amount. */
  lemma ApplyDiscountBounds(amount: real, discountPercent: real)
    requires amount >= 0.0 && 0.0 <= discountPercent <= 100.0
    ensures ApplyDiscount(amount, discountPercent).Ok?
    ensures 0.0 <= ApplyDiscount(amount, discountPercent).value <= Round2(amount)
    ensures IsCents(amount) ==> ApplyDiscount(amount, discountPercent).value <= amount
  {
    var discountAmount := amount * (discountPercent / 100.0);
    assert 0.0 <= discountAmount <= amount;
    assert ApplyDiscount(amount, discountPercent) == Ok(Round2(amount - discountAmount));
    Round2Monotone(0.0, amount - discountAmount);
    Round2OfCents(0.0);
    Round2Monotone(amount - discountAmount, amount);
    if IsCents(amount) {
      Round2OfCents(amount);
    }
  }

  /** A larger percentage never leaves a higher price. */
  lemma ApplyDiscountAntitone(amount: real, p: real, q: real)
    requires amount >= 0.0 && 0.0 <= p <= q
    ensures ApplyDiscount(amount, q).Ok? && ApplyDiscount(amount, p).Ok?
    ensures ApplyDiscount(amount, q).value <= ApplyDiscount(amount, p).value
  {
    assert amount * (p / 100.0) <= amount * (q / 100.0);
    Round2Monotone(amount - amount * (q / 100.0), amount - amount * (p / 100.0));
  }

  /** The calculator's worked figures: each band's threshold amount taken
      through its own discount, the rounding of 99.99 at 10%, a zero
      discount, and the two negative arguments. */
  lemma ApplyDiscountExamples()
    ensures ApplyDiscount(100.0, 10.0) == Ok(90.0)
    ensures ApplyDiscount(500.0, 15.0) == Ok(425.0)
    ensures ApplyDiscount(1000.0, 20.0) == Ok(800.0)
    ensures ApplyDiscount(99.99, 10.0) == Ok(89.99)
    ensures ApplyDiscount(100.0, 0.0) == Ok(100.0)
    ensures ApplyDiscount(-100.0, 10.0) == ValueError
    ensures ApplyDiscount(100.0, -10.0) == ValueError
  {
    assert RoundHalfEven(9000.0) == 9000;
    assert RoundHalfEven(42500.0) == 42500;
    assert RoundHalfEven(80000.0) == 80000;
    assert RoundHalfEven(8999.1) == 8999;
    assert RoundHalfEven(10000.0) == 10000;
  }
}
