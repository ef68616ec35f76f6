/** `src/components/modals/AddPaymentModal.tsx`: the new-payment dialog. Its checks are the
    credit dialog's; the payment method starts as cash and goes back to cash after a submit
    and after a close. */
module AddPaymentModal {
  import opened Util
  import opened LedgerData
  import AddBakiModal

  /** `paymentMethods`: the methods offered, with their labels. */
  const PaymentMethods: seq<(PaymentMethod, string)> :=
    [(Cash, "নগদ"), (Bkash, "বিকাশ"), (Nagad, "নগদ (Nagad)")]

  /** The method values of the list, in order. */
  function Offered(): seq<PaymentMethod>
  {
    seq(|PaymentMethods|, i requires 0 <= i < |PaymentMethods| => PaymentMethods[i].0)
  }

  /** The dialog offers every payment method exactly once, each with its own label. */
  lemma PaymentMethodsOffered()
    ensures multiset(Offered()) == multiset{Cash, Bkash, Nagad}
    ensures forall m: PaymentMethod :: m in Offered()
    ensures forall i, j :: 0 <= i < j < |PaymentMethods| ==> PaymentMethods[i].1 != PaymentMethods[j].1
  {
    assert Offered() == [Cash, Bkash, Nagad];
    forall m: PaymentMethod ensures m in Offered() {
      match m
      case Cash => assert Offered()[0] == m;
      case Bkash => assert Offered()[1] == m;
      case Nagad => assert Offered()[2] == m;
    }
  }

  /** The arguments of `onSubmit(customerId, Number(amount), method)`. */
  datatype Submission = Submission(customerId: string, amount: AddBakiModal.JsNumber, paymentMethod: PaymentMethod)

  class Modal {
    var open: bool
    var customerId: string
    var amount: string
    var paymentMethod: PaymentMethod
    var errors: AddBakiModal.Errors

    constructor (open: bool)
      ensures this.open == open && Cleared()
    {
      this.open := open;
      customerId := "";
      amount := "";
      paymentMethod := Cash;
      errors := AddBakiModal.NoErrors;
    }

    /** The initial form, with cash selected. */
    predicate Cleared()
      reads this
    {
      customerId == "" && amount == "" && paymentMethod == Cash && errors == AddBakiModal.NoErrors
    }

    /** `handleSubmit`; `toNumber` is JavaScript's `Number`. */
    method HandleSubmit(toNumber: string -> AddBakiModal.JsNumber) returns (submitted: Option<Submission>)
      modifies this
      ensures AddBakiModal.FormValid(old(customerId), old(amount), toNumber(old(amount))) ==>
        && submitted == Some(Submission(old(customerId), toNumber(old(amount)), old(paymentMethod)))
        && Cleared() && !open
      ensures !AddBakiModal.FormValid(old(customerId), old(amount), toNumber(old(amount))) ==>
        && submitted.None? && open == old(open)
        && customerId == old(customerId) && amount == old(amount) && paymentMethod == old(paymentMethod)
        && errors != AddBakiModal.NoErrors
      ensures errors.customerId == (if old(customerId) == "" then AddBakiModal.CustomerError else "")
      ensures errors.amount ==
        (if AddBakiModal.AmountRejected(old(amount), toNumber(old(amount))) then AddBakiModal.AmountError else "")
    {
      var newErrors, isValid := AddBakiModal.Validate(customerId, amount, toNumber(amount));
      errors := newErrors;
      if !isValid {
        return None;
      }
      submitted := Some(Submission(customerId, toNumber(amount), paymentMethod));
      customerId := "";
      amount := "";
      paymentMethod := Cash;
      errors := AddBakiModal.NoErrors;
      open := false;
    }

    /** `handleClose`: clears (cash again) and closes, submitting nothing. */
    method HandleClose()
      modifies this
      ensures Cleared() && !open
    {
      customerId := "";
      amount := "";
      paymentMethod := Cash;
      errors := AddBakiModal.NoErrors;
      open := false;
    }
  }
}
