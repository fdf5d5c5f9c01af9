/** The settlement rule of a debt record, on values: the four fields that
    setAmountPaid and setSettled read and write, the effect of each operation,
    and what the rule guarantees (and fails to guarantee) across calls. Both
    entity classes tie their state-changing methods to these functions. */
module Settlement {
  import opened DebtTypes

  /** The part of a debt record the payment rule works on. */
  datatype PaymentState = PaymentState(amount: real, amountPaid: real, status: Nullable<DebtStatus>, isSettled: bool)

  /** The state the three-argument constructor leaves behind. */
  function Created(amount: real): PaymentState
  {
    PaymentState(amount, 0.0, NonNull(PENDING), false)
  }

  /** The status the three-way comparison derives from a cumulative paid amount. */
  function StatusForPayment(amountPaid: real, amount: real): (s: DebtStatus)
    ensures s == PAID <==> amountPaid >= amount
    ensures s == PARTIALLY_PAID <==> 0.0 < amountPaid < amount
    ensures s == PENDING <==> amountPaid <= 0.0 && amountPaid < amount
    ensures s != OVERDUE
  {
    if amountPaid >= amount then PAID
    else if amountPaid > 0.0 then PARTIALLY_PAID
    else PENDING
  }

  /** Ranks the statuses the rule derives, from nothing paid to fully paid. */
  function Progress(s: DebtStatus): nat
  {
    match s
    case PENDING => 0
    case PARTIALLY_PAID => 1
    case PAID => 2
    case OVERDUE => 0
  }

  /** setAmountPaid: store the new cumulative amount, then re-derive status;
      only the PAID branch touches isSettled, and it only ever sets it. */
  function RecordPayment(s: PaymentState, amountPaid: real): (t: PaymentState)
    ensures t.amount == s.amount && t.amountPaid == amountPaid
    ensures t.status == NonNull(StatusForPayment(amountPaid, s.amount))
    ensures t.isSettled <==> s.isSettled || amountPaid >= s.amount
  {
    var paid := s.(amountPaid := amountPaid);
    if paid.amountPaid >= paid.amount then paid.(status := NonNull(PAID), isSettled := true)
    else if paid.amountPaid > 0.0 then paid.(status := NonNull(PARTIALLY_PAID))
    else paid.(status := NonNull(PENDING))
  }

  /** setSettled: a manual override; `true` forces PAID, `false` keeps the status. */
  function MarkSettled(s: PaymentState, settled: bool): (t: PaymentState)
    ensures t.amount == s.amount && t.amountPaid == s.amountPaid
    ensures t.isSettled == settled
    ensures settled ==> t.status == NonNull(PAID)
    ensures !settled ==> t.status == s.status
  {
    if settled then s.(isSettled := true, status := NonNull(PAID))
    else s.(isSettled := false)
  }

  /** The status is the one derived from amountPaid, and a debt paid in full is
      marked settled. Only that direction is required: setAmountPaid never clears
      isSettled (see RefundKeepsSettled). */
  predicate Consistent(s: PaymentState)
  {
    s.status == NonNull(StatusForPayment(s.amountPaid, s.amount)) &&
    (s.amountPaid >= s.amount ==> s.isSettled)
  }

  /** Successive setAmountPaid calls, in order. */
  function ApplyPayments(s: PaymentState, payments: seq<real>): PaymentState
    decreases |payments|
  {
    if payments == [] then s
    else ApplyPayments(RecordPayment(s, payments[0]), payments[1..])
  }

  /** Recording the same cumulative amount twice is the same as recording it once. */
  lemma RecordPaymentIdempotent(s: PaymentState, amountPaid: real)
    ensures RecordPayment(RecordPayment(s, amountPaid), amountPaid) == RecordPayment(s, amountPaid)
  {
  }

  /** Whatever state it starts from (even one a raw setter made inconsistent),
      setAmountPaid leaves a state that obeys the rule. */
  lemma RecordPaymentRestoresRule(s: PaymentState, amountPaid: real)
    ensures Consistent(RecordPayment(s, amountPaid))
  {
  }

  /** A larger cumulative amount never derives a less advanced status. */
  lemma StatusMonotone(amount: real, p: real, q: real)
    requires p <= q
    ensures Progress(StatusForPayment(p, amount)) <= Progress(StatusForPayment(q, amount))
  {
  }

  /** After any non-empty series of payments the status depends on the last
      cumulative amount alone, and the debt is settled exactly when it already
      was or some payment in the series reached the principal. */
  lemma {:induction false} PaymentHistory(s: PaymentState, payments: seq<real>)
    requires payments != []
    decreases |payments|
    ensures var t := ApplyPayments(s, payments);
      t.amount == s.amount &&
      t.amountPaid == payments[|payments| - 1] &&
      t.status == NonNull(StatusForPayment(payments[|payments| - 1], s.amount)) &&
      (t.isSettled <==> s.isSettled || exists i :: 0 <= i < |payments| && payments[i] >= s.amount)
  {
    var next := RecordPayment(s, payments[0]);
    if |payments| > 1 {
      PaymentHistory(next, payments[1..]);
      var t := ApplyPayments(s, payments);
      assert t == ApplyPayments(next, payments[1..]);
      if t.isSettled && !s.isSettled && payments[0] < s.amount {
        var i :| 0 <= i < |payments[1..]| && payments[1..][i] >= s.amount;
        assert payments[i + 1] >= s.amount;
      }
      if exists i :: 0 <= i < |payments| && payments[i] >= s.amount {
        var i :| 0 <= i < |payments| && payments[i] >= s.amount;
        if i > 0 {
          assert payments[1..][i - 1] >= s.amount;
        }
      }
    }
  }

  /** Starting from a freshly created debt with a positive principal, any series
      of payments keeps the rule. */
  lemma {:induction false} PaymentsKeepRule(amount: real, payments: seq<real>)
    requires amount > 0.0
    ensures Consistent(ApplyPayments(Created(amount), payments))
  {
    if payments != [] {
      PaymentHistory(Created(amount), payments);
    }
  }

  /** A freshly created debt obeys the rule exactly when its principal is positive:
      a zero or negative principal starts PENDING although nothing is owed. */
  lemma CreatedConsistentIff(amount: real)
    ensures Consistent(Created(amount)) <==> amount > 0.0
  {
  }

  /** setSettled(true) forces PAID and settled whatever has been paid. */
  lemma ManualSettleIgnoresPayment(s: PaymentState)
    ensures MarkSettled(s, true).status == NonNull(PAID) && MarkSettled(s, true).isSettled
    ensures s.amountPaid < s.amount ==> !Consistent(MarkSettled(s, true))
  {
  }

  /** setSettled(false) on a debt paid in full leaves it PAID but not settled. */
  lemma UnsettleKeepsPaid(s: PaymentState)
    requires s.amountPaid >= s.amount
    ensures var t := MarkSettled(RecordPayment(s, s.amountPaid), false);
      t.status == NonNull(PAID) && !t.isSettled && !Consistent(t)
  {
  }

  /** Lowering the cumulative amount after settlement re-derives the status but
      keeps isSettled: the record ends PARTIALLY_PAID and settled at once. */
  lemma RefundKeepsSettled(amount: real, full: real, part: real)
    requires 0.0 < part < amount <= full
    ensures var t := RecordPayment(RecordPayment(Created(amount), full), part);
      t.status == NonNull(PARTIALLY_PAID) && t.isSettled
  {
  }

  /** setAmount stores the principal without re-deriving anything, so it can
      take a record that obeys the rule to one that does not. */
  lemma ChangingAmountSkipsRule(amount: real, newAmount: real)
    requires 0.0 < amount < newAmount
    ensures Consistent(RecordPayment(Created(amount), amount))
    ensures !Consistent(RecordPayment(Created(amount), amount).(amount := newAmount))
  {
  }
}
