/** The `debt` entity, a lower-case copy of `Debt`: the same fields and the
    same settlement rule, plus a display string for the amount still owed (which
    the source says was added so an adapter does not crash). The class keeps the source's lower-case name. */
module LowercaseDebtEntity {
  import opened DebtTypes
  import Settlement
  import MoneyFormat

  class debt {
    var debtId: Int32
    var personName: Nullable<string>
    var amount: real
    var debtType: Nullable<DebtType>
    var dateCreated: Nullable<Date>
    var dueDate: Nullable<Date>
    var status: Nullable<DebtStatus>
    var description: Nullable<string>
    var paymentMethod: Nullable<PaymentMethod>
    var contactInfo: Nullable<string>
    var dateUpdated: Nullable<Date>
    var currency: Nullable<string>
    var isSettled: bool
    var amountPaid: real

    /** The fields the settlement rule reads and writes. */
    function Payment(): Settlement.PaymentState
      reads this
    {
      Settlement.PaymentState(amount, amountPaid, status, isSettled)
    }

    /** The no-argument constructor Room uses to rebuild a row: every reference
        is null, every number zero, and the debt not settled. */
    constructor Empty()
      ensures debtId == 0 && amount == 0.0 && amountPaid == 0.0 && !isSettled
      ensures personName == Null && debtType == Null && dateCreated == Null && dueDate == Null
      ensures status == Null && description == Null && paymentMethod == Null
      ensures contactInfo == Null && dateUpdated == Null && currency == Null
    {
      debtId := 0;
      personName := Null;
      amount := 0.0;
      debtType := Null;
      dateCreated := Null;
      dueDate := Null;
      status := Null;
      description := Null;
      paymentMethod := Null;
      contactInfo := Null;
      dateUpdated := Null;
      currency := Null;
      isSettled := false;
      amountPaid := 0.0;
    }

    /** A new debt: PENDING, nothing paid, not settled, in KES. `created` and
        `updated` are the two clock readings the constructor takes. */
    constructor (personName: Nullable<string>, amount: real, debtType: Nullable<DebtType>, created: Date, updated: Date)
      ensures this.personName == personName && this.amount == amount && this.debtType == debtType
      ensures dateCreated == NonNull(created) && dateUpdated == NonNull(updated)
      ensures status == NonNull(PENDING) && currency == NonNull("KES")
      ensures !isSettled && amountPaid == 0.0
      ensures debtId == 0 && dueDate == Null && description == Null
      ensures paymentMethod == Null && contactInfo == Null
      ensures Payment() == Settlement.Created(amount)
    {
      this.personName := personName;
      this.amount := amount;
      this.debtType := debtType;
      dateCreated := NonNull(created);
      status := NonNull(PENDING);
      currency := NonNull("KES");
      isSettled := false;
      amountPaid := 0.0;
      dateUpdated := NonNull(updated);
      debtId := 0;
      dueDate := Null;
      description := Null;
      paymentMethod := Null;
      contactInfo := Null;
    }

    method SetDebtId(debtId: Int32)
      modifies this`debtId
      ensures this.debtId == debtId
    {
      this.debtId := debtId;
    }

    method SetPersonName(personName: Nullable<string>)
      modifies this`personName
      ensures this.personName == personName
    {
      this.personName := personName;
    }

    /** Stores the principal and nothing else: status and isSettled are not
        re-derived (see Settlement.ChangingAmountSkipsRule). */
    method SetAmount(amount: real)
      modifies this`amount
      ensures this.amount == amount
      ensures Payment() == old(Payment()).(amount := amount)
    {
      this.amount := amount;
    }

    method SetDebtType(debtType: Nullable<DebtType>)
      modifies this`debtType
      ensures this.debtType == debtType
    {
      this.debtType := debtType;
    }

    method SetDateCreated(dateCreated: Nullable<Date>)
      modifies this`dateCreated
      ensures this.dateCreated == dateCreated
    {
      this.dateCreated := dateCreated;
    }

    method SetDueDate(dueDate: Nullable<Date>)
      modifies this`dueDate
      ensures this.dueDate == dueDate
    {
      this.dueDate := dueDate;
    }

    /** The raw status setter: the only way OVERDUE is ever stored. */
    method SetStatus(status: Nullable<DebtStatus>)
      modifies this`status
      ensures this.status == status
      ensures Payment() == old(Payment()).(status := status)
    {
      this.status := status;
    }

    method SetDescription(description: Nullable<string>)
      modifies this`description
      ensures this.description == description
    {
      this.description := description;
    }

    method SetPaymentMethod(paymentMethod: Nullable<PaymentMethod>)
      modifies this`paymentMethod
      ensures this.paymentMethod == paymentMethod
    {
      this.paymentMethod := paymentMethod;
    }

    method SetContactInfo(contactInfo: Nullable<string>)
      modifies this`contactInfo
      ensures this.contactInfo == contactInfo
    {
      this.contactInfo := contactInfo;
    }

    method SetDateUpdated(dateUpdated: Nullable<Date>)
      modifies this`dateUpdated
      ensures this.dateUpdated == dateUpdated
    {
      this.dateUpdated := dateUpdated;
    }

    method SetCurrency(currency: Nullable<string>)
      modifies this`currency
      ensures this.currency == currency
    {
      this.currency := currency;
    }

    /** Manual override: `true` forces PAID whatever has been paid; `false`
        clears the flag and leaves the status as it was. */
    method SetSettled(settled: bool)
      modifies this`isSettled, this`status
      ensures isSettled == settled
      ensures status == if settled then NonNull(PAID) else old(status)
      ensures Payment() == Settlement.MarkSettled(old(Payment()), settled)
    {
      isSettled := settled;
      if settled {
        status := NonNull(PAID);
      }
    }

    /** Stores the new cumulative paid amount and re-derives the status; only
        amountPaid, status and isSettled change (dateUpdated is left alone). */
    method SetAmountPaid(amountPaid: real)
      modifies this`amountPaid, this`status, this`isSettled
      ensures this.amountPaid == amountPaid
      ensures status == NonNull(Settlement.StatusForPayment(amountPaid, amount))
      ensures isSettled == (old(isSettled) || amountPaid >= amount)
      ensures Payment() == Settlement.RecordPayment(old(Payment()), amountPaid)
      ensures Settlement.Consistent(Payment())
    {
      this.amountPaid := amountPaid;
      UpdateStatusBasedOnPayment();
      Settlement.RecordPaymentRestoresRule(old(Payment()), amountPaid);
    }

    /** The three-way comparison of amountPaid against amount. Private in the
        Java class: reached only through SetAmountPaid. */
    method UpdateStatusBasedOnPayment()
      modifies this`status, this`isSettled
      ensures Payment() == Settlement.RecordPayment(old(Payment()), amountPaid)
    {
      if amountPaid >= amount {
        status := NonNull(PAID);
        isSettled := true;
      } else if amountPaid > 0.0 {
        status := NonNull(PARTIALLY_PAID);
      } else {
        status := NonNull(PENDING);
      }
    }

    /** What is still owed, not clamped: negative once the debt is overpaid, and
        at most zero exactly when the payment rule derives PAID. */
    function GetRemainingAmount(): (r: real)
      reads this
      ensures amountPaid + r == amount
      ensures r < 0.0 <==> amountPaid > amount
      ensures r <= 0.0 <==> Settlement.StatusForPayment(amountPaid, amount) == PAID
    {
      amount - amountPaid
    }

    /** The display string: the currency (the text "null" when it is null), one
        space, then "%.2f" of the remaining amount, which reads back as that
        amount rounded half-up to hundredths. */
    function GetFormattedAmount(): (s: string)
      reads this
      ensures var head := JavaText(currency) + " ";
        |s| >= |head| && s[..|head|] == head &&
        MoneyFormat.ShowsTwoDecimals(s[|head|..], GetRemainingAmount())
    {
      var head := JavaText(currency) + " ";
      var shown := MoneyFormat.FormatTwoDecimals(GetRemainingAmount());
      MoneyFormat.FormatTwoDecimalsShows(GetRemainingAmount());
      assert (head + shown)[..|head|] == head && (head + shown)[|head|..] == shown;
      head + shown
    }
  }

  /** A client of the class: the life of one debt, from creation through a
      partial payment, full payment and overpayment, using only the contracts. */
  method LowercaseDebtLifecycle(created: Date, updated: Date)
  {
    var d := new debt(NonNull("Alice"), 1000.0, NonNull(I_OWE), created, updated);
    assert d.status == NonNull(PENDING) && !d.isSettled && d.amountPaid == 0.0;
    assert d.GetRemainingAmount() == 1000.0;
    d.SetAmountPaid(400.0);
    assert d.status == NonNull(PARTIALLY_PAID) && !d.isSettled && d.GetRemainingAmount() == 600.0;
    d.SetAmountPaid(1000.0);
    assert d.status == NonNull(PAID) && d.isSettled && d.GetRemainingAmount() == 0.0;
    d.SetAmountPaid(1500.0);
    assert d.status == NonNull(PAID) && d.isSettled && d.GetRemainingAmount() == -500.0;
    d.SetSettled(false);
    assert d.status == NonNull(PAID) && !d.isSettled;
  }
}
