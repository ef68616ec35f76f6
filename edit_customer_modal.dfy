/** `src/components/modals/EditCustomerModal.tsx`: the dialog that renames a customer. The
    name must not be blank and is sent trimmed. A submit returns the request body;
    `FinishSubmit` says how the request ended. */
module EditCustomerModal {
  import opened Util
  import opened Text
  import opened Forms

  const NameError: string := "নাম প্রয়োজন"

  datatype Errors = Errors(name: Option<string>)

  const NoErrors: Errors := Errors(None)

  /** The `customer` prop. */
  datatype CustomerProps = CustomerProps(id: int, name: Option<string>, phone: string)

  /** `validate`: the name key is present exactly when the trimmed name is empty. */
  method Validate(name: string) returns (errors: Errors, isValid: bool)
    ensures errors.name.Some? <==> IsBlank(name)
    ensures errors.name.Some? ==> errors.name.value == NameError
    ensures isValid <==> errors == NoErrors
    ensures isValid <==> !AllWhitespace(name)
  {
    errors := NoErrors;
    if |Trim(name)| == 0 {
      errors := errors.(name := Some(NameError));
    }
    isValid := errors.name.None?;
    BlankIffAllWhitespace(name);
  }

  /** The PATCH body. */
  datatype Payload = Payload(name: string)

  /** The body of a valid submit holds a name that is not empty and has no whitespace at either
      end. */
  lemma ValidPayload(name: string)
    requires !IsBlank(name)
    ensures var p := Payload(Trim(name));
      p.name != "" && !IsWhitespace(p.name[0]) && !IsWhitespace(p.name[|p.name| - 1])
  {
    TrimEnds(name);
  }

  class Modal {
    var open: bool
    var name: string
    var isSubmitting: bool
    var errors: Errors

    constructor (customer: CustomerProps, open: bool)
      ensures this.open == open && !isSubmitting && errors == NoErrors
      ensures name == OrEmpty(customer.name)
    {
      this.open := open;
      name := OrEmpty(customer.name);
      isSubmitting := false;
      errors := NoErrors;
    }

    /** The effect on `[open, customer]`: while open, the name is reloaded and the errors
        cleared; while closed nothing changes. */
    method OnOpenOrCustomerChange(customer: CustomerProps)
      modifies this`name, this`errors
      ensures old(open) ==> name == OrEmpty(customer.name) && errors == NoErrors
      ensures !old(open) ==> name == old(name) && errors == old(errors)
    {
      if open {
        name := OrEmpty(customer.name);
        errors := NoErrors;
      }
    }

    /** `handleSubmit` up to the request, for the customer of the current prop: on a valid form
        the request for that customer's id starts with the trimmed name. */
    method HandleSubmit(customer: CustomerProps) returns (request: Option<(int, Payload)>)
      modifies this`errors, this`isSubmitting
      ensures request.Some? <==> !IsBlank(old(name))
      ensures (errors == NoErrors) <==> request.Some?
      ensures request.Some? ==> request.value == (customer.id, Payload(Trim(old(name)))) && isSubmitting
      ensures request.None? ==> isSubmitting == old(isSubmitting)
      ensures errors.name.Some? ==> errors.name.value == NameError
    {
      var n := name;
      var newErrors, isValid := Validate(n);
      errors := newErrors;
      if isValid {
        request := Some((customer.id, Payload(Trim(n))));
        isSubmitting := true;
      } else {
        request := None;
      }
    }

    /** The end of the request: a success closes the dialog; either way submitting stops. */
    method FinishSubmit(succeeded: bool)
      modifies this`open, this`isSubmitting
      ensures !isSubmitting && open == (old(open) && !succeeded)
    {
      if succeeded {
        open := false;
      }
      isSubmitting := false;
    }

    /** `handleClose`: closes, except while a request is under way. */
    method HandleClose()
      modifies this`open
      ensures open == (old(open) && old(isSubmitting))
    {
      if !isSubmitting {
        open := false;
      }
    }
  }
}
