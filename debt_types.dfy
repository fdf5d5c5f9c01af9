/** Value types shared by the two debt entity classes: the enumerations, Java's
    nullable references, java.util.Date and the 32-bit id column. */
module DebtTypes {

  /** A Java reference: `Null` is Java's null. Every reference-typed field of the
      entity can hold it (the no-argument constructor leaves them all null, and
      the @NonNull annotations are not enforced at run time). */
  datatype Nullable<T> = Null | NonNull(value: T)

  /** Direction of the debt. */
  datatype DebtType = OWED_TO_ME | I_OWE

  /** Settlement status; OVERDUE is only ever stored through the raw status setter. */
  datatype DebtStatus = PENDING | PARTIALLY_PAID | PAID | OVERDUE

  datatype PaymentMethod = CASH | MOBILE_MONEY | BANK_TRANSFER

  /** A java.util.Date: an instant in milliseconds since the epoch. */
  datatype Date = Date(millis: int)

  /** Java's `int`, the type of the debt_id column. */
  newtype Int32 = x: int | -0x8000_0000 <= x < 0x8000_0000

  /** The text Java's string concatenation produces for a String reference. */
  function JavaText(s: Nullable<string>): string
  {
    match s
    case Null => "null"
    case NonNull(t) => t
  }
}
