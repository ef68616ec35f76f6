/** `src/components/modals/AddBakiModal.tsx`: the new-credit dialog. A customer must be
    chosen and the amount must be given and not `<= 0` as a number; text that is not a number
    (`NaN`) is not caught. A valid submit hands the customer, `Number(amount)` and
    the description (empty becomes `undefined`) to `onSubmit` once, then clears and closes. */
module AddBakiModal {
  import opened Util
  import opened Text
  import opened Forms

  /** `Number(text)`: a number or `NaN`. Amounts are whole here; see the README. */
  datatype JsNumber = NaN | Finite(value: int)

  const CustomerError: string := "গ্রাহক নির্বাচন করুন"
  const AmountError: string := "সঠিক পরিমাণ দিন"

  datatype Errors = Errors(customerId: string, amount: string)

  const NoErrors: Errors := Errors("", "")

  /** `!amount || Number(amount) <= 0` is the amount error; `NaN <= 0` is false. */
  predicate AmountRejected(amount: string, number: JsNumber)
  {
    amount == "" || (number.Finite? && number.value <= 0)
  }

  predicate FormValid(customerId: string, amount: string, number: JsNumber)
  {
    customerId != "" && !AmountRejected(amount, number)
  }

  /** `validate`, with `number` standing for `Number(amount)`. Each error is set exactly when
      its rule fails; valid exactly when neither is. The same checks serve the payment dialog. */
  method Validate(customerId: string, amount: string, number: JsNumber) returns (errors: Errors, isValid: bool)
    ensures errors.customerId == (if customerId == "" then CustomerError else "")
    ensures errors.amount == (if AmountRejected(amount, number) then AmountError else "")
    ensures isValid <==> errors == NoErrors
    ensures isValid <==> FormValid(customerId, amount, number)
  {
    errors := NoErrors;
    isValid := true;
    if customerId == "" {
      errors := errors.(customerId := CustomerError);
      isValid := false;
    }
    if amount == "" || (number.Finite? && number.value <= 0) {
      errors := errors.(amount := AmountError);
      isValid := false;
    }
  }

  /** An amount passes exactly when it is non-empty and is either positive or not a number
      at all: a non-numeric amount reaches `onSubmit` as `NaN`. */
  lemma AmountRule(amount: string, number: JsNumber)
    ensures !AmountRejected(amount, number) <==> amount != "" && (number.NaN? || number.value > 0)
    ensures amount != "" && number.NaN? ==> !AmountRejected(amount, number)
  {
  }

  /** The arguments of `onSubmit(customerId, Number(amount), description || undefined)`. */
  datatype Submission = Submission(customerId: string, amount: JsNumber, description: Option<string>)

  class Modal {
    var open: bool
    var customerId: string
    var amount: string
    var description: string
    var errors: Errors

    constructor (open: bool)
      ensures this.open == open && Cleared()
    {
      this.open := open;
      customerId := "";
      amount := "";
      description := "";
      errors := NoErrors;
    }

    predicate Cleared()
      reads this
    {
      customerId == "" && amount == "" && description == "" && errors == NoErrors
    }

    /** `handleSubmit`; `toNumber` is JavaScript's `Number`. */
    method HandleSubmit(toNumber: string -> JsNumber) returns (submitted: Option<Submission>)
      modifies this
      ensures FormValid(old(customerId), old(amount), toNumber(old(amount))) ==>
        && submitted == Some(Submission(old(customerId), toNumber(old(amount)), OrUndefined(old(description))))
        && Cleared() && !open
      ensures !FormValid(old(customerId), old(amount), toNumber(old(amount))) ==>
        && submitted.None? && open == old(open)
        && customerId == old(customerId) && amount == old(amount) && description == old(description)
        && errors != NoErrors
      ensures errors.customerId == (if old(customerId) == "" then CustomerError else "")
      ensures errors.amount == (if AmountRejected(old(amount), toNumber(old(amount))) then AmountError else "")
    {
      var newErrors, isValid := Validate(customerId, amount, toNumber(amount));
      errors := newErrors;
      if !isValid {
        return None;
      }
      submitted := Some(Submission(customerId, toNumber(amount), OrUndefined(description)));
      customerId := "";
      amount := "";
      description := "";
      errors := NoErrors;
      open := false;
    }

    /** `handleClose`: clears and closes, submitting nothing. */
    method HandleClose()
      modifies this
      ensures Cleared() && !open
    {
      customerId := "";
      amount := "";
      description := "";
      errors := NoErrors;
      open := false;
    }
  }
}
