# Debt settlement model (Finance_Tracker)

A Dafny model of the debt record in the Finance_Tracker Android app. The app has
two near-identical entity classes, `Debt` (`Debt.java`) and `debt` (`debt.java`).
A debt holds a principal `amount`, a cumulative `amountPaid`, a `status`
(`PENDING`, `PARTIALLY_PAID`, `PAID`, `OVERDUE`) and an `isSettled` flag.
`setAmountPaid` stores the new cumulative amount and re-derives the status with a
three-way comparison. `setSettled` is a manual override. `getRemainingAmount`
returns the unclamped balance. `debt` also builds a display string with
`getFormattedAmount`.

Modules:

- `DebtTypes` (`debt_types.dfy`): the enumerations, `Nullable<T>` for Java references
  (`Null` is Java's null), `Date` (epoch milliseconds), `Int32` for the id, and the text
  Java's string concatenation gives a possibly-null String.
- `Settlement` (`settlement.dfy`): the rule on values. `PaymentState` holds the four
  fields the rule touches. `RecordPayment` and `MarkSettled` give the effect of the two
  operations. `Consistent` says the status is the derived one and a debt paid in full is
  settled (only that direction: `setAmountPaid` never clears `isSettled`). The lemmas say
  what holds across calls: idempotence, restoring the rule, monotonicity, the payment
  history, and the quirks.
- `MoneyFormat` (`money_format.dfy`): `String.format("%.2f", x)` on an exact amount, with
  a parser for the printed shape as its inverse. `ShowsTwoDecimals` says a text has the
  printed shape and reads back as x rounded; `ShowsTwoDecimalsUnique` proves only one
  text does, so that description pins the output.
- `DebtEntity` (`debt_entity.dfy`): class `Debt`, with a field per column and a method
  per setter. Each method's `modifies` clause names exactly the fields it changes. The
  rule-bearing methods are tied to `Settlement`.
- `LowercaseDebtEntity` (`lowercase_debt_entity.dfy`): class `debt`, the same model plus
  `GetFormattedAmount`.

Amounts are Dafny `real`s, so comparisons and the subtraction are exact. The two
`new Date()` clock reads in the constructor are parameters, `created` and `updated`.

Three facts about the code that the model keeps as they are:

- `isSettled` ("Tracks if the debt has been settled", `Debt.java:75`): `setAmountPaid`
  only ever sets it to true and never clears it; only `setSettled(false)` clears it. Lowering the paid amount
  after settlement leaves a record that is `PARTIALLY_PAID` and settled at once
  (`Settlement.RefundKeepsSettled`).
- `dateUpdated` ("Date when the debt was last updated", `Debt.java:67`) is written by the
  constructor and by its own setter only. No other setter refreshes it.
- Nothing checks that `amount` or `amountPaid` is non-negative, so the model accepts any
  value. With a principal of zero or less, a new debt starts `PENDING` although the
  three-way comparison would derive `PAID` (`Settlement.CreatedConsistentIff`).

## Model

| member | source | states |
|---|---|---|
| `Settlement.StatusForPayment` | app/src/main/java/com/example/finance_tracker/Debt.java:164-173 | PAID iff paid >= amount; PARTIALLY_PAID iff 0 < paid < amount; PENDING iff paid <= 0 and paid < amount; never OVERDUE |
| `Settlement.RecordPayment` | app/src/main/java/com/example/finance_tracker/Debt.java:156-173 | amount kept, amountPaid is the new value, status is the derived one, isSettled becomes true iff it already was or paid >= amount |
| `Settlement.MarkSettled` | app/src/main/java/com/example/finance_tracker/Debt.java:150-153 | isSettled is the argument; true forces PAID; false leaves the status unchanged; amounts untouched |
| `Settlement.RecordPaymentIdempotent` | app/src/main/java/com/example/finance_tracker/Debt.java:156-173 | recording the same amount twice gives the same state as recording it once |
| `Settlement.RecordPaymentRestoresRule` | app/src/main/java/com/example/finance_tracker/Debt.java:156-173 | from any state, even one a raw setter made inconsistent, setAmountPaid yields a state obeying the rule |
| `Settlement.StatusMonotone` | app/src/main/java/com/example/finance_tracker/Debt.java:164-173 | a larger cumulative amount never derives a less advanced status |
| `Settlement.PaymentHistory` | app/src/main/java/com/example/finance_tracker/Debt.java:156-173 | after a series of payments the status depends on the last amount only; settled iff it was already or some payment reached the principal |
| `Settlement.PaymentsKeepRule` | app/src/main/java/com/example/finance_tracker/Debt.java:94-104 | a debt created with a positive principal obeys the rule after any series of payments |
| `Settlement.CreatedConsistentIff` | app/src/main/java/com/example/finance_tracker/Debt.java:94-104 | a freshly created debt obeys the rule iff its principal is positive |
| `Settlement.ManualSettleIgnoresPayment` | app/src/main/java/com/example/finance_tracker/Debt.java:150-153 | setSettled(true) gives PAID and settled whatever was paid, breaking the rule when underpaid |
| `Settlement.UnsettleKeepsPaid` | app/src/main/java/com/example/finance_tracker/Debt.java:150-153 | setSettled(false) on a fully paid debt leaves it PAID but unsettled |
| `Settlement.RefundKeepsSettled` | app/src/main/java/com/example/finance_tracker/Debt.java:164-173 | lowering the paid amount after settlement gives PARTIALLY_PAID while isSettled stays true |
| `Settlement.ChangingAmountSkipsRule` | app/src/main/java/com/example/finance_tracker/Debt.java:117 | raising the principal of a paid debt with setAmount leaves a state that breaks the rule |
| `DebtEntity.Debt.Empty` | app/src/main/java/com/example/finance_tracker/Debt.java:89 | the no-argument constructor leaves every reference null, numbers zero, not settled |
| `DebtEntity.Debt.constructor` | app/src/main/java/com/example/finance_tracker/Debt.java:94-104 | PENDING, not settled, nothing paid, currency KES, both dates from the clock readings, name/amount/type as given |
| `DebtEntity.Debt.SetDebtId` | app/src/main/java/com/example/finance_tracker/Debt.java:110 | stores the id; changes no other field |
| `DebtEntity.Debt.SetPersonName` | app/src/main/java/com/example/finance_tracker/Debt.java:114 | stores the name, null included; changes no other field |
| `DebtEntity.Debt.SetAmount` | app/src/main/java/com/example/finance_tracker/Debt.java:117 | stores the principal only; status and isSettled are not re-derived |
| `DebtEntity.Debt.SetDebtType` | app/src/main/java/com/example/finance_tracker/Debt.java:121 | stores the type; changes no other field |
| `DebtEntity.Debt.SetDateCreated` | app/src/main/java/com/example/finance_tracker/Debt.java:125 | stores the creation date; changes no other field |
| `DebtEntity.Debt.SetDueDate` | app/src/main/java/com/example/finance_tracker/Debt.java:128 | stores the due date; changes no other field |
| `DebtEntity.Debt.SetStatus` | app/src/main/java/com/example/finance_tracker/Debt.java:132 | stores any status (the only way to OVERDUE) without touching amounts or isSettled |
| `DebtEntity.Debt.SetDescription` | app/src/main/java/com/example/finance_tracker/Debt.java:135 | stores the description; changes no other field |
| `DebtEntity.Debt.SetPaymentMethod` | app/src/main/java/com/example/finance_tracker/Debt.java:138 | stores the payment method; changes no other field |
| `DebtEntity.Debt.SetContactInfo` | app/src/main/java/com/example/finance_tracker/Debt.java:141 | stores the contact info; changes no other field |
| `DebtEntity.Debt.SetDateUpdated` | app/src/main/java/com/example/finance_tracker/Debt.java:144 | stores the update date; changes no other field |
| `DebtEntity.Debt.SetCurrency` | app/src/main/java/com/example/finance_tracker/Debt.java:147 | stores the currency; changes no other field |
| `DebtEntity.Debt.SetSettled` | app/src/main/java/com/example/finance_tracker/Debt.java:150-153 | isSettled is the argument; true forces PAID, false keeps the old status; only those two fields change |
| `DebtEntity.Debt.SetAmountPaid` | app/src/main/java/com/example/finance_tracker/Debt.java:156-159 | amountPaid stored, status derived, isSettled sticky-true, rule restored; only these three fields change, dateUpdated untouched |
| `DebtEntity.Debt.UpdateStatusBasedOnPayment` | app/src/main/java/com/example/finance_tracker/Debt.java:164-173 | the new status and isSettled are those of the settlement rule for the current amounts |
| `DebtEntity.Debt.GetRemainingAmount` | app/src/main/java/com/example/finance_tracker/Debt.java:175-177 | paid plus remaining is the principal; negative iff overpaid; at most zero iff the rule derives PAID |
| `LowercaseDebtEntity.debt.Empty` | app/src/main/java/com/example/finance_tracker/debt.java:65 | the no-argument constructor leaves every reference null, numbers zero, not settled |
| `LowercaseDebtEntity.debt.constructor` | app/src/main/java/com/example/finance_tracker/debt.java:67-77 | PENDING, not settled, nothing paid, currency KES, both dates from the clock readings, name/amount/type as given |
| `LowercaseDebtEntity.debt.SetDebtId` | app/src/main/java/com/example/finance_tracker/debt.java:83 | stores the id; changes no other field |
| `LowercaseDebtEntity.debt.SetPersonName` | app/src/main/java/com/example/finance_tracker/debt.java:87 | stores the name, null included; changes no other field |
| `LowercaseDebtEntity.debt.SetAmount` | app/src/main/java/com/example/finance_tracker/debt.java:90 | stores the principal only; status and isSettled are not re-derived |
| `LowercaseDebtEntity.debt.SetDebtType` | app/src/main/java/com/example/finance_tracker/debt.java:94 | stores the type; changes no other field |
| `LowercaseDebtEntity.debt.SetDateCreated` | app/src/main/java/com/example/finance_tracker/debt.java:98 | stores the creation date; changes no other field |
| `LowercaseDebtEntity.debt.SetDueDate` | app/src/main/java/com/example/finance_tracker/debt.java:101 | stores the due date; changes no other field |
| `LowercaseDebtEntity.debt.SetStatus` | app/src/main/java/com/example/finance_tracker/debt.java:105 | stores any status (the only way to OVERDUE) without touching amounts or isSettled |
| `LowercaseDebtEntity.debt.SetDescription` | app/src/main/java/com/example/finance_tracker/debt.java:108 | stores the description; changes no other field |
| `LowercaseDebtEntity.debt.SetPaymentMethod` | app/src/main/java/com/example/finance_tracker/debt.java:111 | stores the payment method; changes no other field |
| `LowercaseDebtEntity.debt.SetContactInfo` | app/src/main/java/com/example/finance_tracker/debt.java:114 | stores the contact info; changes no other field |
| `LowercaseDebtEntity.debt.SetDateUpdated` | app/src/main/java/com/example/finance_tracker/debt.java:117 | stores the update date; changes no other field |
| `LowercaseDebtEntity.debt.SetCurrency` | app/src/main/java/com/example/finance_tracker/debt.java:120 | stores the currency; changes no other field |
| `LowercaseDebtEntity.debt.SetSettled` | app/src/main/java/com/example/finance_tracker/debt.java:124-127 | isSettled is the argument; true forces PAID, false keeps the old status; only those two fields change |
| `LowercaseDebtEntity.debt.SetAmountPaid` | app/src/main/java/com/example/finance_tracker/debt.java:131-134 | amountPaid stored, status derived, isSettled sticky-true, rule restored; only these three fields change, dateUpdated untouched |
| `LowercaseDebtEntity.debt.UpdateStatusBasedOnPayment` | app/src/main/java/com/example/finance_tracker/debt.java:139-148 | the new status and isSettled are those of the settlement rule for the current amounts |
| `LowercaseDebtEntity.debt.GetRemainingAmount` | app/src/main/java/com/example/finance_tracker/debt.java:150-152 | paid plus remaining is the principal; negative iff overpaid; at most zero iff the rule derives PAID |
| `LowercaseDebtEntity.debt.GetFormattedAmount` | app/src/main/java/com/example/finance_tracker/debt.java:155-157 | currency text (or "null") and one space, then the "%.2f" text of the remaining amount: '-' iff it is negative, integer digits without a leading zero, '.', two digits, reading back as it rounded to hundredths (so, by `MoneyFormat.ShowsTwoDecimalsUnique`, exactly the text `MoneyFormat.FormatTwoDecimals` prints) |
| `MoneyFormat.Decimal` | app/src/main/java/com/example/finance_tracker/debt.java:156 | at least one digit, all digits, no leading zero, a single digit iff below ten |
| `MoneyFormat.DecimalRoundTrip` | app/src/main/java/com/example/finance_tracker/debt.java:156 | reading the printed digits back gives the number printed |
| `MoneyFormat.CanonicalDecimal` | app/src/main/java/com/example/finance_tracker/debt.java:156 | every digit string without a leading zero is the printing of its value |
| `MoneyFormat.HalfUpCents` | app/src/main/java/com/example/finance_tracker/debt.java:156 | the hundredths nearest to x, a half rounding up |
| `MoneyFormat.SignedCents` | app/src/main/java/com/example/finance_tracker/debt.java:156 | within half a hundredth of x, with x's sign; a half rounds away from zero (up for x >= 0, down for x < 0) |
| `MoneyFormat.CentsText` | app/src/main/java/com/example/finance_tracker/debt.java:156 | digits, '.', exactly two digits |
| `MoneyFormat.FormatTwoDecimals` | app/src/main/java/com/example/finance_tracker/debt.java:156 | a leading '-' iff x is negative, then integer digits without a leading zero, '.', exactly two fractional digits |
| `MoneyFormat.CentsTextRoundTrip` | app/src/main/java/com/example/finance_tracker/debt.java:156 | parsing the unsigned text gives back the hundredths |
| `MoneyFormat.FormatTwoDecimalsRoundTrip` | app/src/main/java/com/example/finance_tracker/debt.java:156 | parsing "%.2f" output gives the signed, half-up rounded hundredths of x |
| `MoneyFormat.WholeCentsUnrounded` | app/src/main/java/com/example/finance_tracker/debt.java:156 | an amount of whole hundredths is not rounded, so it is shown exactly |
| `MoneyFormat.FormatTwoDecimalsShows` | app/src/main/java/com/example/finance_tracker/debt.java:156 | the printed text has the "%.2f" shape and reads back as x rounded to hundredths |
| `MoneyFormat.CentsTextUnique` | app/src/main/java/com/example/finance_tracker/debt.java:156 | an unsigned text with canonical units, '.', two digits is the only spelling of the hundredths it reads as |
| `MoneyFormat.ShowsTwoDecimalsUnique` | app/src/main/java/com/example/finance_tracker/debt.java:156 | any text with the "%.2f" shape that reads back as x rounded is exactly the text printed for x |
| `MoneyFormat.RenderedBalance` | app/src/main/java/com/example/finance_tracker/debt.java:156 | a balance of 600 prints as "600.00" |
| `MoneyFormat.RenderedOverpayment` | app/src/main/java/com/example/finance_tracker/debt.java:156 | an overpayment of 500 prints as "-500.00" |

## Left out

- Getters: each one returns its field unchanged, and Dafny code reads the fields directly.
- Room persistence: the `@Entity`, `@PrimaryKey(autoGenerate)`, `@ColumnInfo` and `@TypeConverters` annotations are not modelled. The `DateConverter` class is not part of this model. The database assigning `debtId` is not modelled either; `debtId` is an inert field.
- `@NonNull` annotations: Java does not enforce them at run time, so every reference field and parameter may be `Null`.
- IEEE `double`: amounts are exact reals. NaN, infinities and binary rounding of amounts and of `amount - amountPaid` are not modelled.
- `MoneyFormat.FormatTwoDecimals`: rounds the exact real half-up. Java rounds the double's shortest decimal expansion, which can differ at an exact half. The decimal point and the digits are those of a locale that writes '.', such as the root or English locale; other default locales are not modelled.
- The clock: `new Date()` is not read. The three-argument constructor takes two instants, `created` and `updated`, one for each of its two `new Date()` calls (`Debt.java:98` and `Debt.java:103`); `Empty()` reads no clock and takes none.
- The `DebtType`, `PaymentMethod` and `DebtStatus` enum sources are not part of this model. They are declared from the constant names the two classes use.
