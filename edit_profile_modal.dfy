/** `src/components/modals/EditProfileModal.tsx`: the profile edit dialog. Only the e-mail is
    checked, and only when one is typed; every field is sent trimmed, and an empty one as
    `undefined`. A submit returns the request body; `FinishSubmit` says how the request ended. */
module EditProfileModal {
  import opened Util
  import opened Text
  import opened Forms

  const EmailError: string := "বৈধ ইমেইল ঠিকানা লিখুন"

  /** The error object. `firstName` and `lastName` keys exist in its type but no rule sets
      them, so only the e-mail key is modelled. */
  datatype Errors = Errors(email: Option<string>)

  const NoErrors: Errors := Errors(None)

  /** The `user` prop. */
  datatype UserProps = UserProps(phone: string, firstName: Option<string>, lastName: Option<string>, email: Option<string>)

  /** `email && email.trim()` and then the pattern on the trimmed e-mail, with the pattern
      in its decomposed form (see `EmailRule`). */
  predicate EmailRejected(email: string)
  {
    !IsBlank(email) && !EmailOk(Trim(email))
  }

  /** An e-mail is rejected exactly when it is typed and its trimmed form fails the regular
      expression as written. */
  lemma EmailRule(email: string)
    ensures EmailRejected(email) <==> !IsBlank(email) && !EmailPattern(Trim(email))
  {
    EmailPatternIff(Trim(email));
  }

  /** `validate`: the e-mail key is present exactly when a typed e-mail fails the pattern;
      the names never make the form invalid. */
  method Validate(email: string) returns (errors: Errors, isValid: bool)
    ensures errors.email.Some? <==> EmailRejected(email)
    ensures errors.email.Some? ==> errors.email.value == EmailError
    ensures isValid <==> errors == NoErrors
    ensures isValid <==> !EmailRejected(email)
  {
    errors := NoErrors;
    if email != "" && !IsBlank(email) {
      if !EmailOk(Trim(email)) {
        errors := errors.(email := Some(EmailError));
      }
    }
    isValid := errors.email.None?;
  }

  /** The PATCH body; `None` is an `undefined` field. */
  datatype Payload = Payload(firstName: Option<string>, lastName: Option<string>, email: Option<string>)

  function BuildPayload(firstName: string, lastName: string, email: string): Payload
  {
    Payload(OrUndefined(Trim(firstName)), OrUndefined(Trim(lastName)), OrUndefined(Trim(email)))
  }

  /** Each field of the body is dropped exactly when it is blank and otherwise carries the trimmed
      text, which has no whitespace at either end. When the form is valid, a sent e-mail
      has exactly one '@', no whitespace, and a '.' inside its domain. */
  lemma PayloadSpec(firstName: string, lastName: string, email: string)
    ensures var p := BuildPayload(firstName, lastName, email);
      && (p.firstName.None? <==> IsBlank(firstName))
      && (p.lastName.None? <==> IsBlank(lastName))
      && (p.email.None? <==> IsBlank(email))
      && (p.firstName.Some? ==> p.firstName.value == Trim(firstName))
      && (p.lastName.Some? ==> p.lastName.value == Trim(lastName))
      && (p.email.Some? ==> p.email.value == Trim(email))
    ensures var p := BuildPayload(firstName, lastName, email);
      !EmailRejected(email) && p.email.Some? ==> EmailOk(p.email.value) && NoWhitespace(p.email.value)
  {
  }

  /** `handleSubmit`'s check and body, apart from the component state: a body exactly when
      the email is acceptable, and then no errors. */
  method Prepare(firstName: string, lastName: string, email: string)
    returns (errors: Errors, payload: Option<Payload>)
    ensures payload.Some? <==> !EmailRejected(email)
    ensures (errors == NoErrors) <==> payload.Some?
    ensures payload.Some? ==> payload.value == BuildPayload(firstName, lastName, email)
    ensures errors.email.Some? ==> errors.email.value == EmailError
  {
    var isValid;
    errors, isValid := Validate(email);
    payload := if isValid then Some(BuildPayload(firstName, lastName, email)) else None;
  }

  class Modal {
    var open: bool
    var firstName: string
    var lastName: string
    var email: string
    var isSubmitting: bool
    var errors: Errors

    constructor (user: UserProps, open: bool)
      ensures this.open == open && !isSubmitting && errors == NoErrors
      ensures firstName == OrEmpty(user.firstName) && lastName == OrEmpty(user.lastName) && email == OrEmpty(user.email)
    {
      this.open := open;
      firstName := OrEmpty(user.firstName);
      lastName := OrEmpty(user.lastName);
      email := OrEmpty(user.email);
      isSubmitting := false;
      errors := NoErrors;
    }

    /** The effect on `[open, user]`: while open, the fields are reloaded from `user` and the
        errors cleared; while closed nothing changes. */
    method OnOpenOrUserChange(user: UserProps)
      modifies this`firstName, this`lastName, this`email, this`errors
      ensures old(open) ==>
        && firstName == OrEmpty(user.firstName) && lastName == OrEmpty(user.lastName)
        && email == OrEmpty(user.email) && errors == NoErrors
      ensures !old(open) ==>
        firstName == old(firstName) && lastName == old(lastName) && email == old(email) && errors == old(errors)
    {
      if open {
        firstName := OrEmpty(user.firstName);
        lastName := OrEmpty(user.lastName);
        email := OrEmpty(user.email);
        errors := NoErrors;
      }
    }

    /** `handleSubmit` up to the request: on a valid form the request starts with the body. */
    method HandleSubmit() returns (payload: Option<Payload>)
      modifies this`errors, this`isSubmitting
      ensures payload.Some? <==> !EmailRejected(old(email))
      ensures (errors == NoErrors) <==> payload.Some?
      ensures payload.Some? ==> payload.value == BuildPayload(old(firstName), old(lastName), old(email)) && isSubmitting
      ensures payload.None? ==> isSubmitting == old(isSubmitting)
      ensures errors.email.Some? ==> errors.email.value == EmailError
    {
      var newErrors, request := Prepare(firstName, lastName, email);
      errors := newErrors;
      payload := request;
      if request.Some? {
        isSubmitting := true;
      }
    }

    /** The end of the request: a success closes the dialog; either way submitting stops. */
    method FinishSubmit(succeeded: bool)
      modifies this`open, this`isSubmitting
      ensures !isSubmitting && open == (old(open) && !succeeded)
    {
      if succeeded {
        open := false;
      }
      isSubmitting := false;
    }

    /** `handleClose`: closes, except while a request is under way. */
    method HandleClose()
      modifies this`open
      ensures open == (old(open) && old(isSubmitting))
    {
      if !isSubmitting {
        open := false;
      }
    }
  }
}
