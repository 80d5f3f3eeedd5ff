/** The purchase pipeline: validate, work out the discount band, apply it,
    and record the completed purchase in an append-only history. */
module Processing {
  import opened Money
  import opened DiscountCalculator
  import opened Validation

  /** What processing one attempt yields. A rejection carries the verdict,
      the amount asked for and zero figures; a completed purchase carries the
      customer and every figure of the sale. */
  datatype PurchaseRecord =
    | Rejected(reason: ValidationResult, originalAmount: real, finalAmount: real, discountPercent: int)
    | Completed(customerName: string, customerAge: int, originalAmount: real,
                discountPercent: int, finalAmount: real, savings: real)
  {
    predicate Success() { Completed? }
  }

  /** `r` is a completed purchase that `v` accepts and whose figures all come
      from its amount: the band's discount, the discounted price, and the
      rounded difference as savings. */
  ghost predicate IsRecordOf(v: PurchaseValidator, r: PurchaseRecord) {
    && r.Completed?
    && v.ValidatePurchase(r.originalAmount, r.customerAge).Valid?
    && CalculateDiscount(r.originalAmount) == Ok(r.discountPercent)
    && ApplyDiscount(r.originalAmount, r.discountPercent as real) == Ok(r.finalAmount)
    && r.savings == Round2(r.originalAmount - r.finalAmount)
  }

  // ---------------------------------------------------------------------
  // Aggregates over a history

  /** The sum of the final amounts of the successful records. */
  function TotalSales(history: seq<PurchaseRecord>): real {
    if history == [] then 0.0
    else (if history[0].Success() then history[0].finalAmount else 0.0) + TotalSales(history[1..])
  }

  /** The number of successful records. */
  function PurchaseCount(history: seq<PurchaseRecord>): nat {
    if history == [] then 0
    else (if history[0].Success() then 1 else 0) + PurchaseCount(history[1..])
  }

  /** Appending a record adds its final amount to the total exactly when it
      is a success. */
  lemma {:induction false} TotalSalesAppend(history: seq<PurchaseRecord>, r: PurchaseRecord)
    ensures TotalSales(history + [r]) == TotalSales(history) + (if r.Success() then r.finalAmount else 0.0)
  {
    if history != [] {
      assert (history + [r])[1..] == history[1..] + [r];
      TotalSalesAppend(history[1..], r);
    }
  }

  /** Appending a record adds one to the count exactly when it is a success. */
  lemma {:induction false} PurchaseCountAppend(history: seq<PurchaseRecord>, r: PurchaseRecord)
    ensures PurchaseCount(history + [r]) == PurchaseCount(history) + (if r.Success() then 1 else 0)
  {
    if history != [] {
      assert (history + [r])[1..] == history[1..] + [r];
      PurchaseCountAppend(history[1..], r);
    }
  }

  /** The count never exceeds the length, and equals it when every record is
      a success. */
  lemma {:induction false} PurchaseCountOfSuccesses(history: seq<PurchaseRecord>)
    ensures PurchaseCount(history) <= |history|
    ensures (forall i :: 0 <= i < |history| ==> history[i].Success()) ==> PurchaseCount(history) == |history|
  {
    if history != [] {
      PurchaseCountOfSuccesses(history[1..]);
      assert forall i :: 0 <= i < |history[1..]| ==> history[1..][i] == history[i + 1];
    }
  }

  /** With no negative final amount in the history, the total is not negative. */
  lemma {:induction false} TotalSalesNonNegative(history: seq<PurchaseRecord>)
    requires forall i :: 0 <= i < |history| ==> history[i].finalAmount >= 0.0
    ensures TotalSales(history) >= 0.0
  {
    if history != [] {
      assert forall i :: 0 <= i < |history[1..]| ==> history[1..][i] == history[i + 1];
      TotalSalesNonNegative(history[1..]);
    }
  }

  // ---------------------------------------------------------------------
  // Properties of a single processed purchase

  /** An accepted attempt can never reach the calculator's ValueError: the
      amount is positive and the band's percentage is not negative. */
  lemma ValidPurchaseRaisesNoError(v: PurchaseValidator, amount: real, customerAge: int)
    requires v.ValidatePurchase(amount, customerAge).Valid?
    ensures CalculateDiscount(amount).Ok?
    ensures ApplyDiscount(amount, CalculateDiscount(amount).value as real).Ok?
  {
  }

  /** The figures of a recorded purchase: a percentage of 0, 10, 15 or 20, a
      final price between zero and the rounded amount, and savings that are
      never negative. */
  lemma RecordedFigures(v: PurchaseValidator, r: PurchaseRecord)
    requires IsRecordOf(v, r)
    ensures r.discountPercent in {0, 10, 15, 20}
    ensures 0.0 <= r.finalAmount <= Round2(r.originalAmount)
    ensures r.savings >= 0.0
  {
    ApplyDiscountBounds(r.originalAmount, r.discountPercent as real);
    Round2NonNegative(r.originalAmount - r.finalAmount);
  }

  // ---------------------------------------------------------------------
  // The processor

  class PurchaseProcessor {
    /** The validator every attempt goes through, built with the default maximum. */
    const validator: PurchaseValidator
    /** The completed purchases, oldest first. */
    var processedPurchases: seq<PurchaseRecord>

    /** Every entry of the history is a completed purchase the validator
        accepts, with figures derived from its amount. */
    ghost predicate Valid()
      reads this
    {
      forall i :: 0 <= i < |processedPurchases| ==> IsRecordOf(validator, processedPurchases[i])
    }

    constructor ()
      ensures validator == PurchaseValidator(DefaultMaxAmount)
      ensures processedPurchases == []
      ensures Valid()
    {
      validator := PurchaseValidator(DefaultMaxAmount);
      processedPurchases := [];
    }

    /** Validates the attempt; a rejection is returned and recorded nowhere,
        an accepted attempt is priced, appended to the history and returned. */
    method ProcessPurchase(amount: real, customerAge: int, customerName: string)
      returns (result: PurchaseRecord)
      requires Valid()
      modifies this
      ensures Valid()
      ensures result.Success() <==> validator.ValidatePurchase(amount, customerAge).Valid?
      ensures !result.Success() ==>
        result == Rejected(validator.ValidatePurchase(amount, customerAge), amount, 0.0, 0)
      ensures result.Success() ==>
        && IsRecordOf(validator, result)
        && result.customerName == customerName
        && result.customerAge == customerAge
        && result.originalAmount == amount
      ensures processedPurchases ==
        if result.Success() then old(processedPurchases) + [result] else old(processedPurchases)
      ensures GetPurchaseCount() == old(GetPurchaseCount()) + if result.Success() then 1 else 0
      ensures GetTotalSales() == old(GetTotalSales()) + if result.Success() then result.finalAmount else 0.0
    {
      var validation := validator.ValidatePurchase(amount, customerAge);
      if !validation.Valid? {
        return Rejected(validation, amount, 0.0, 0);
      }

      ValidPurchaseRaisesNoError(validator, amount, customerAge);
      var discountPercent := CalculateDiscount(amount).value;
      var finalAmount := ApplyDiscount(amount, discountPercent as real).value;

      result := Completed(customerName, customerAge, amount, discountPercent,
                          finalAmount, Round2(amount - finalAmount));
      TotalSalesAppend(processedPurchases, result);
      PurchaseCountAppend(processedPurchases, result);
      processedPurchases := processedPurchases + [result];
    }

    /** The total of the final amounts of the completed purchases; zero for
        an empty history and never negative. */
    function GetTotalSales(): (total: real)
      reads this
      requires Valid()
      ensures total >= 0.0
      ensures processedPurchases == [] ==> total == 0.0
    {
      assert forall i :: 0 <= i < |processedPurchases| ==> processedPurchases[i].finalAmount >= 0.0 by {
        forall i | 0 <= i < |processedPurchases|
          ensures processedPurchases[i].finalAmount >= 0.0
        {
          RecordedFigures(validator, processedPurchases[i]);
        }
      }
      TotalSalesNonNegative(processedPurchases);
      TotalSales(processedPurchases)
    }

    /** The number of completed purchases, which is the length of the history. */
    function GetPurchaseCount(): (count: nat)
      reads this
      requires Valid()
      ensures count == |processedPurchases|
    {
      PurchaseCountOfSuccesses(processedPurchases);
      PurchaseCount(processedPurchases)
    }
  }

  /** Four attempts in a row, the third by a minor: three purchases are
      recorded, for 90 + 425 + 800 in sales, in the order they were made. */
  method MultiplePurchasesTracking() returns (count: nat, total: real, names: seq<string>)
    ensures count == 3
    ensures total == 1315.0
    ensures names == ["Cliente 1", "Cliente 2", "Cliente 4"]
  {
    ApplyDiscountExamples();
    var processor := new PurchaseProcessor();
    var r1 := processor.ProcessPurchase(100.0, 25, "Cliente 1");
    var r2 := processor.ProcessPurchase(500.0, 30, "Cliente 2");
    var r3 := processor.ProcessPurchase(50.0, 16, "Cliente 3");
    var r4 := processor.ProcessPurchase(1000.0, 40, "Cliente 4");
    assert r1.finalAmount == 90.0 && r2.finalAmount == 425.0 && r4.finalAmount == 800.0;
    count := processor.GetPurchaseCount();
    total := processor.GetTotalSales();
    var history := processor.processedPurchases;
    names := [history[0].customerName, history[1].customerName, history[2].customerName];
  }

  /** One adult buying 750 gets the 15% band, 637.50 to pay and 112.50
      saved; then a minor's attempt at 500 is rejected and leaves the count
      and the total as they were. */
  method SuccessfulThenUnderageFlow()
    returns (first: PurchaseRecord, second: PurchaseRecord, count: nat, total: real)
    ensures first == Completed("Juan Pérez", 30, 750.0, 15, 637.5, 112.5)
    ensures second == Rejected(Underage, 500.0, 0.0, 0)
    ensures count == 1
    ensures total == 637.5
  {
    ApplyDiscountExamples();
    var processor := new PurchaseProcessor();
    first := processor.ProcessPurchase(750.0, 30, "Juan Pérez");
    assert RoundHalfEven(63750.0) == 63750;
    assert RoundHalfEven(11250.0) == 11250;
    second := processor.ProcessPurchase(500.0, 17, "María García");
    count := processor.GetPurchaseCount();
    total := processor.GetTotalSales();
  }

  /** A customer of exactly 18 buying exactly the maximum of 10000 is
      accepted, gets the top band and pays 8000. */
  method MinimumAgeMaximumAmountFlow() returns (result: PurchaseRecord)
    ensures result == Completed("Joven Comprador", 18, 10000.0, 20, 8000.0, 2000.0)
  {
    var processor := new PurchaseProcessor();
    result := processor.ProcessPurchase(10000.0, 18, "Joven Comprador");
    assert RoundHalfEven(800000.0) == 800000;
    assert RoundHalfEven(200000.0) == 200000;
  }
}
