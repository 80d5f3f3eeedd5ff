# Purchase pipeline — a Dafny model

This project models a small purchase pipeline. It validates a purchase attempt,
picks the discount band for its amount, applies the discount, and records the
completed purchase in an in-memory history. It mirrors the three Python
classes of the repository:

- `DiscountCalculator` (module `DiscountCalculator`, `discount_calculator.dfy`)
  holds two pure functions. `CalculateDiscount` maps an amount to 0, 10, 15
  or 20 percent on the half-open bands `[0,100)`, `[100,500)`, `[500,1000)`
  and `[1000,∞)`. `ApplyDiscount` takes a percentage off and rounds to two
  decimals. The `ValueError` both raise for negative arguments is the
  `ValueError` constructor of a `Result` datatype.
- `PurchaseValidator` (module `Validation`, `purchase_validator.dfy`) is an
  immutable value `PurchaseValidator(maxAmount)`. Its `ValidatePurchase` tries
  three rules in order: positive amount, within the maximum, legal age of 18.
  It returns the first verdict that fails, or `Valid`.
- `PurchaseProcessor` (module `Processing`, `purchase_processor.dfy`) is a class.
  It has a fixed validator with the default maximum of 10000 and a `seq` field
  `processedPurchases`. `ProcessPurchase` appends to that field only on success.
  `GetTotalSales` and `GetPurchaseCount` are functions over the history.
  They are defined, as in the source, by filtering the history on success.
  The class invariant `Valid()` says every entry is a completed purchase. It
  also says each entry's figures come from its amount.

Money is exact: amounts are `real`. Python's `round(x, 2)` is modelled by
`Money.Round2`, which gives the nearest whole number of cents with ties going
to the even cent.

## Model

| member | source | states |
|---|---|---|
| `DiscountCalculator.CalculateDiscount` | discount_calculator.py:14-24 | a `ValueError` exactly when the amount is negative; otherwise a percentage in {0, 10, 15, 20} |
| `DiscountCalculator.CalculateDiscountHalfOpenTiers` | discount_calculator.py:17-24 | band i covers exactly [its lower bound, the next band's lower bound), lower bound inclusive; the top band (1000 and above, 20%) is open-ended |
| `DiscountCalculator.CalculateDiscountIsTableLookup` | discount_calculator.py:17-24 | for every non-negative amount the if-chain equals the lookup of the highest band whose lower bound the amount reaches |
| `DiscountCalculator.TierPercentMonotone` | discount_calculator.py:17-24 | in any table with ascending bounds and non-decreasing non-negative percentages, a larger amount never looks up a smaller percentage |
| `DiscountCalculator.TierPercentAtMostTop` | discount_calculator.py:17-24 | a lookup in such a table never exceeds the top band's percentage |
| `DiscountCalculator.CalculateDiscountMonotone` | discount_calculator.py:17-24 | 0 ≤ a ≤ b implies discount(a) ≤ discount(b) |
| `DiscountCalculator.ApplyDiscount` | discount_calculator.py:26-33 | a `ValueError` exactly when the amount or the percentage is negative (no upper bound on the percentage); otherwise a whole number of cents within half a cent of `amount − amount·p/100` |
| `DiscountCalculator.ApplyZeroDiscount` | discount_calculator.py:31-33 | a 0% discount returns an amount of whole cents unchanged |
| `DiscountCalculator.ApplyDiscountBounds` | discount_calculator.py:31-33 | for 0 ≤ p ≤ 100 the result lies between 0 and the rounded amount, and at most the amount itself when that is whole cents |
| `DiscountCalculator.ApplyDiscountAntitone` | discount_calculator.py:31-33 | a larger percentage never leaves a higher price |
| `DiscountCalculator.ApplyDiscountExamples` | tests/test_unit.py:43-66 | (100,10)→90, (500,15)→425, (1000,20)→800, (99.99,10)→89.99, (100,0)→100; a negative amount or a negative percentage gives `ValueError` |
| `Money.RoundHalfEven` | discount_calculator.py:33 | the result is within 0.5 of the input, and even when the input lies exactly halfway |
| `Money.RoundHalfEvenUnique` | discount_calculator.py:33 | those two properties single out exactly one integer, the result |
| `Money.RoundHalfEvenMonotone` | discount_calculator.py:33 | rounding preserves order |
| `Money.Round2` | discount_calculator.py:33 | the result is a whole number of cents within half a cent of the input |
| `Money.Round2OfCents` | discount_calculator.py:33 | an amount that is already whole cents rounds to itself |
| `Money.Round2Idempotent` | discount_calculator.py:33 | rounding twice equals rounding once |
| `Money.Round2Monotone` | discount_calculator.py:33 | rounding to two decimals preserves order |
| `Money.Round2NonNegative` | purchase_processor.py:50 | anything at or above −0.005 rounds to a non-negative amount |
| `Validation.PurchaseValidator.ValidatePurchase` | purchase_validator.py:19-40 | `NonPositiveAmount` iff amount ≤ 0, whatever the age; `ExceedsMaximum(max)` iff 0 < amount and amount > max, carrying the validator's own max; `Underage` iff 0 < amount ≤ max and age < 18; `Valid` iff 0 < amount ≤ max and age ≥ 18 |
| `Validation.FirstViolationDecides` | purchase_validator.py:19-35 | the verdict is the first of the independently checked broken rules, in rule order, and `Valid` exactly when none is broken |
| `Validation.RaisingMaximumKeepsAcceptance` | purchase_validator.py:25-29 | a validator with a larger maximum accepts every attempt a smaller one accepts |
| `Validation.ValidatePurchaseExamples` | tests/test_unit.py:76-116 | with the default maximum of 10000: 500 at age 25 is valid; amounts 0 and −50 are non-positive; 15000 exceeds 10000; age 17 is underage and age 18 is valid; 6000 exceeds a maximum of 5000 |
| `Validation.ValidatePurchaseBoundaryExamples` | tests/test_integration.py:84-143 | with the default maximum: exactly 10000 is valid and 10001 exceeds it; 100 at exactly age 18 is valid; 99.99 is valid |
| `Processing.TotalSalesAppend` | purchase_processor.py:57-59 | appending a record adds its final amount to the total exactly when it is a success |
| `Processing.PurchaseCountAppend` | purchase_processor.py:61-63 | appending a record adds one to the count exactly when it is a success |
| `Processing.PurchaseCountOfSuccesses` | purchase_processor.py:61-63 | the count is at most the history length, and equals it when every entry is a success |
| `Processing.TotalSalesNonNegative` | purchase_processor.py:57-59 | a history with no negative final amount has a non-negative total (0 when empty) |
| `Processing.ValidPurchaseRaisesNoError` | purchase_processor.py:26-39 | for an accepted attempt neither `CalculateDiscount` nor `ApplyDiscount` can raise `ValueError` |
| `Processing.RecordedFigures` | purchase_processor.py:38-50 | a recorded purchase has a percentage in {0, 10, 15, 20}, a final amount between 0 and the rounded original amount, and non-negative savings |
| `Processing.PurchaseProcessor.constructor` | purchase_processor.py:8-11 | a fresh processor has the default validator (maximum 10000) and an empty history |
| `Processing.PurchaseProcessor.ProcessPurchase` | purchase_processor.py:13-55 | succeeds iff the validator accepts; a rejection is `Rejected(verdict, amount, 0, 0)` and leaves the history unchanged; a success is built from the band's discount, the discounted price and the rounded savings, and is appended at the end of the history; the invariant is kept; the count grows by one and the total grows by the final amount exactly on success |
| `Processing.PurchaseProcessor.GetTotalSales` | purchase_processor.py:57-59 | the total is never negative and is 0 for an empty history; as a function it cannot change the history |
| `Processing.PurchaseProcessor.GetPurchaseCount` | purchase_processor.py:61-63 | under the invariant the count of successful entries equals the history length; as a function it cannot change the history |
| `Processing.MultiplePurchasesTracking` | tests/test_e2e.py:79-105 | 100/25, 500/30, 50/16 and 1000/40 give a count of 3, sales of 1315, and the history in call order |
| `Processing.SuccessfulThenUnderageFlow` | tests/test_e2e.py:12-50 | 750 at age 30 gives 15%, 637.5 and savings of 112.5, with count 1 and total 637.5; a later 500 at age 17 is rejected as underage with zero figures and changes neither |
| `Processing.MinimumAgeMaximumAmountFlow` | tests/test_e2e.py:135-146 | exactly 10000 at exactly age 18 is accepted, with 20%, a final amount of 8000 and savings of 2000 |

## Left out

- Floating point: amounts are exact reals. Python floats, their binary representation and its effect on `round` are not modelled. For example, `round(2.675, 2)` gives 2.67 in Python because of binary representation. Ties are resolved half-to-even on the exact value.
- NaN and infinity are not modelled, because reals have neither. In the source every comparison with NaN is false, so `validate_purchase` accepts a NaN amount (purchase_validator.py:19, 25, 31). `calculate_discount` then gives 20%, the final amount is NaN, and so is `get_total_sales`.
- Aliasing of records is not modelled. `process_purchase` returns the same dictionary it appends to the history (purchase_processor.py:53-55), and `processed_purchases` is a public list. A caller can therefore change a recorded entry, for example its `success` or `final_amount`, and so change `get_purchase_count` and `get_total_sales`. In the model records are immutable values, and the invariant `Valid()` assumes nothing outside `ProcessPurchase` changes the history.
- Message texts: the validator's Spanish messages, the f-string that prints `max_amount`, the success message and the exception text are not modelled. The verdict datatype names the reason instead, and `ExceedsMaximum` carries the maximum.
- Python dictionaries become the `PurchaseRecord` datatype. The failure result has its own constructor, `Rejected`, without customer fields.
- `PurchaseValidator.__init__` with a custom maximum is the datatype constructor `PurchaseValidator(maxAmount)`. The processor always uses the default maximum, as the source does.
- The calculator instance that the processor holds is not modelled, because it has no state. Its operations are module-level functions.
- Processing.PurchaseProcessor.GetTotalSales: its contract states only non-negativity and the empty case. How the total changes is stated by `ProcessPurchase` and `TotalSalesAppend`.
- The pytest files are not modelled. They are cited only as evidence for the example lemmas and scenario methods.
