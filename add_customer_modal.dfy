/** `src/components/modals/AddCustomerModal.tsx`: the new-customer dialog. Both checks run
    and are reported together; a valid submit hands the phone and name to `onSubmit` once
    (returned here), then clears the form and closes; closing clears it without submitting. */
module AddCustomerModal {
  import opened Util
  import opened Text
  import opened Forms

  const PhoneError: string := "সঠিক ফোন নম্বর দিন"
  const NameError: string := "নাম আবশ্যক"

  datatype Errors = Errors(phone: string, name: string)

  const NoErrors: Errors := Errors("", "")

  predicate FormValid(phone: string, name: string)
  {
    IsBdMobile(phone) && !IsBlank(name)
  }

  /** `validate`: each error is set exactly when its rule fails; valid exactly when neither is. */
  method Validate(phone: string, name: string) returns (errors: Errors, isValid: bool)
    ensures errors.phone == (if IsBdMobile(phone) then "" else PhoneError)
    ensures errors.name == (if IsBlank(name) then NameError else "")
    ensures isValid <==> errors == NoErrors
    ensures isValid <==> FormValid(phone, name)
  {
    errors := NoErrors;
    isValid := true;
    if !IsBdMobile(phone) {
      errors := errors.(phone := PhoneError);
      isValid := false;
    }
    if IsBlank(name) {
      errors := errors.(name := NameError);
      isValid := false;
    }
  }

  /** The arguments of `onSubmit(phone, name)`. */
  datatype Submission = Submission(phone: string, name: string)

  class Modal {
    var open: bool
    var phone: string
    var name: string
    var errors: Errors

    constructor (open: bool)
      ensures this.open == open && phone == "" && name == "" && errors == NoErrors
    {
      this.open := open;
      phone := "";
      name := "";
      errors := NoErrors;
    }

    predicate Cleared()
      reads this
    {
      phone == "" && name == "" && errors == NoErrors
    }

    /** `handleSubmit`. */
    method HandleSubmit() returns (submitted: Option<Submission>)
      modifies this
      ensures submitted.Some? <==> FormValid(old(phone), old(name))
      ensures submitted.Some? ==>
        submitted.value == Submission(old(phone), old(name)) && Cleared() && !open
      ensures submitted.None? ==>
        && unchanged(this`phone, this`name, this`open)
        && (errors.phone != "" <==> !IsBdMobile(phone)) && (errors.name != "" <==> IsBlank(name))
    {
      var p, n := phone, name;
      var newErrors, isValid := Validate(p, n);
      ghost var valid := FormValid(p, n);
      assert isValid <==> valid;
      if isValid {
        submitted := Some(Submission(p, n));
        phone, name, errors, open := "", "", NoErrors, false;
      } else {
        submitted := None;
        errors := newErrors;
      }
      assert valid == FormValid(old(phone), old(name));
    }

    /** `handleClose`: clears the form and closes, submitting nothing. */
    method HandleClose()
      modifies this
      ensures Cleared() && !open
    {
      phone := "";
      name := "";
      errors := NoErrors;
      open := false;
    }
  }
}
