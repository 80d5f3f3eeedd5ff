/** The business rules a purchase attempt must pass before it is processed. */
module Validation {

  /** The maximum amount a validator allows unless told otherwise. */
  const DefaultMaxAmount: real := 10000.0

  /** The youngest age at which a customer may buy. */
  const LegalAge: int := 18

  /** The verdict on a purchase attempt: accepted, or the one reason it was
      rejected. A rejection for an excessive amount names the maximum. */
  datatype ValidationResult =
    | Valid
    | NonPositiveAmount
    | ExceedsMaximum(maxAmount: real)
    | Underage

  /** A validator with the maximum amount it was built with; being a value,
      nothing it does can change that maximum. */
  datatype PurchaseValidator = PurchaseValidator(maxAmount: real) {

    /** The verdict on buying `amount` at `customerAge`: the rules are tried
        in order (positive amount, within the maximum, of legal age) and the
        first that fails decides. */
    function ValidatePurchase(amount: real, customerAge: int): (r: ValidationResult)
      ensures r.Valid? <==> 0.0 < amount <= maxAmount && customerAge >= LegalAge
      ensures r.NonPositiveAmount? <==> amount <= 0.0
      ensures r.ExceedsMaximum? <==> 0.0 < amount && maxAmount < amount
      ensures r.ExceedsMaximum? ==> r.maxAmount == maxAmount
      ensures r.Underage? <==> 0.0 < amount <= maxAmount && customerAge < LegalAge
    {
      if amount <= 0.0 then NonPositiveAmount
      else if amount > maxAmount then ExceedsMaximum(maxAmount)
      else if customerAge < LegalAge then Underage
      else Valid
    }

    /** Every rule the attempt breaks, each checked on its own, in the order
        the rules are stated. */
    function Violations(amount: real, customerAge: int): seq<ValidationResult> {
      (if amount <= 0.0 then [NonPositiveAmount] else [])
      + (if amount > maxAmount then [ExceedsMaximum(maxAmount)] else [])
      + (if customerAge < LegalAge then [Underage] else [])
    }
  }

  /** The verdict is the first broken rule, and an attempt is accepted exactly
      when it breaks none: errors are never accumulated. */
  lemma FirstViolationDecides(v: PurchaseValidator, amount: real, customerAge: int)
    ensures var broken := v.Violations(amount, customerAge);
      v.ValidatePurchase(amount, customerAge) == if broken == [] then Valid else broken[0]
  {
  }

  /** Raising the maximum never turns an accepted attempt into a rejected one. */
  lemma RaisingMaximumKeepsAcceptance(v: PurchaseValidator, w: PurchaseValidator,
                                      amount: real, customerAge: int)
    requires v.maxAmount <= w.maxAmount
    requires v.ValidatePurchase(amount, customerAge).Valid?
    ensures w.ValidatePurchase(amount, customerAge).Valid?
  {
  }

  /** The verdicts of the default validator on the rules one at a time, and
      of one built with a maximum of 5000. */
  lemma ValidatePurchaseExamples()
    ensures PurchaseValidator(DefaultMaxAmount).ValidatePurchase(500.0, 25) == Valid
    ensures PurchaseValidator(DefaultMaxAmount).ValidatePurchase(0.0, 25) == NonPositiveAmount
    ensures PurchaseValidator(DefaultMaxAmount).ValidatePurchase(-50.0, 25) == NonPositiveAmount
    ensures PurchaseValidator(DefaultMaxAmount).ValidatePurchase(15000.0, 25) == ExceedsMaximum(10000.0)
    ensures PurchaseValidator(DefaultMaxAmount).ValidatePurchase(500.0, 17) == Underage
    ensures PurchaseValidator(DefaultMaxAmount).ValidatePurchase(500.0, 18) == Valid
    ensures PurchaseValidator(5000.0).ValidatePurchase(6000.0, 25) == ExceedsMaximum(5000.0)
  {
  }

  /** The default validator at the edges: exactly the maximum passes and one
      more fails; exactly 100 at age 18 passes, and so does 99.99. */
  lemma ValidatePurchaseBoundaryExamples()
    ensures PurchaseValidator(DefaultMaxAmount).ValidatePurchase(10000.0, 35) == Valid
    ensures PurchaseValidator(DefaultMaxAmount).ValidatePurchase(10001.0, 35) == ExceedsMaximum(10000.0)
    ensures PurchaseValidator(DefaultMaxAmount).ValidatePurchase(100.0, 18) == Valid
    ensures PurchaseValidator(DefaultMaxAmount).ValidatePurchase(99.99, 25) == Valid
  {
  }
}
