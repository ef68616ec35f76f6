/** `src/components/modals/EditShopModal.tsx`: the shop edit dialog. The name must not be
    blank; a phone, when one is typed, must be 10 or 11 digits once spaces, dashes and '+'
    are removed. The request body carries the trimmed name, the cleaned phone or `null`,
    and the trimmed address only when there is one. The HTTP request itself is outside the
    model: a submit returns the body, and `FinishSubmit` says how the request ended. */
module EditShopModal {
  import opened Util
  import opened Text
  import opened Forms

  const ShopNameError: string := "দোকানের নাম প্রয়োজন"
  const PhoneError: string := "বৈধ ফোন নম্বর লিখুন (১০-১১ সংখ্যা)"

  /** The error object; an absent key is `None`. */
  datatype Errors = Errors(shopName: Option<string>, phoneNumber: Option<string>)

  const NoErrors: Errors := Errors(None, None)

  /** The `shop` prop. */
  datatype ShopProps = ShopProps(name: string, phoneNumber: Option<string>, address: Option<string>)

  /** `phoneNumber && phoneNumber.trim()` and then the digit test on the cleaned phone. */
  predicate PhoneRejected(phoneNumber: string)
  {
    !IsBlank(phoneNumber) && !IsShopPhoneDigits(CleanPhone(phoneNumber))
  }

  predicate FormValid(shopName: string, phoneNumber: string)
  {
    !IsBlank(shopName) && !PhoneRejected(phoneNumber)
  }

  /** `validate`: each key is present exactly when its rule fails, and the form is valid
      exactly when the object has no key. */
  method Validate(shopName: string, phoneNumber: string) returns (errors: Errors, isValid: bool)
    ensures errors.shopName.Some? <==> IsBlank(shopName)
    ensures errors.phoneNumber.Some? <==> PhoneRejected(phoneNumber)
    ensures errors.shopName.Some? ==> errors.shopName.value == ShopNameError
    ensures errors.phoneNumber.Some? ==> errors.phoneNumber.value == PhoneError
    ensures isValid <==> errors == NoErrors
    ensures isValid <==> FormValid(shopName, phoneNumber)
  {
    errors := NoErrors;
    if IsBlank(shopName) {
      errors := errors.(shopName := Some(ShopNameError));
    }
    if phoneNumber != "" && !IsBlank(phoneNumber) {
      var cleanedPhone := CleanPhone(phoneNumber);
      if !IsShopPhoneDigits(cleanedPhone) {
        errors := errors.(phoneNumber := Some(PhoneError));
      }
    }
    isValid := errors.shopName.None? && errors.phoneNumber.None?;
  }

  /** An empty or whitespace-only phone never draws an error; any other phone draws one
      exactly when its cleaned form is not 10 or 11 digits. */
  lemma PhoneRule(phoneNumber: string)
    ensures AllWhitespace(phoneNumber) ==> !PhoneRejected(phoneNumber)
    ensures !AllWhitespace(phoneNumber) ==>
      (PhoneRejected(phoneNumber) <==> !IsShopPhoneDigits(CleanPhone(phoneNumber)))
  {
    BlankIffAllWhitespace(phoneNumber);
  }

  /** The PATCH body; `phoneNumber == None` is `null`, `address == None` an absent key. */
  datatype Payload = Payload(shopName: string, phoneNumber: Option<string>, address: Option<string>)

  function BuildPayload(shopName: string, phoneNumber: string, address: string): Payload
  {
    var cleanedPhone := CleanPhone(Trim(phoneNumber));
    Payload(Trim(shopName), OrUndefined(cleanedPhone),
            if Trim(address) != "" then Some(Trim(address)) else None)
  }

  /** The body's name is trimmed; its phone is the cleaned phone, `null` exactly when
      cleaning leaves nothing; its address is the trimmed address, present exactly when that
      is not blank. */
  lemma PayloadSpec(shopName: string, phoneNumber: string, address: string)
    ensures var p := BuildPayload(shopName, phoneNumber, address);
      && p.shopName == Trim(shopName)
      && (p.phoneNumber.None? <==> CleanPhone(phoneNumber) == "")
      && (p.phoneNumber.Some? ==> p.phoneNumber.value == CleanPhone(phoneNumber))
      && (p.address.Some? <==> !IsBlank(address))
      && (p.address.Some? ==> p.address.value == Trim(address))
  {
    CleanPhoneOfTrim(phoneNumber);
  }

  /** What the checks guarantee about the body that is sent: a non-blank name, and a phone
      that is either `null` or 10 to 11 digits with nothing else in it. */
  lemma ValidPayload(shopName: string, phoneNumber: string, address: string)
    requires FormValid(shopName, phoneNumber)
    ensures var p := BuildPayload(shopName, phoneNumber, address);
      p.shopName != "" && (p.phoneNumber.Some? ==> IsShopPhoneDigits(p.phoneNumber.value))
  {
    PayloadSpec(shopName, phoneNumber, address);
    if IsBlank(phoneNumber) {
      BlankIffAllWhitespace(phoneNumber);
      CleanPhoneWhitespace(phoneNumber);
    }
  }

  /** `handleSubmit`'s checks and body, apart from the component state: a body exactly when
      the form is valid, and then no errors; otherwise the errors are `validate`'s, each key
      present exactly when its rule fails. */
  method Prepare(shopName: string, phoneNumber: string, address: string)
    returns (errors: Errors, payload: Option<Payload>)
    ensures payload.Some? <==> FormValid(shopName, phoneNumber)
    ensures (errors == NoErrors) <==> payload.Some?
    ensures payload.Some? ==> payload.value == BuildPayload(shopName, phoneNumber, address)
    ensures errors.shopName.Some? <==> IsBlank(shopName)
    ensures errors.phoneNumber.Some? <==> PhoneRejected(phoneNumber)
    ensures errors.shopName.Some? ==> errors.shopName.value == ShopNameError
    ensures errors.phoneNumber.Some? ==> errors.phoneNumber.value == PhoneError
  {
    var isValid;
    errors, isValid := Validate(shopName, phoneNumber);
    payload := if isValid then Some(BuildPayload(shopName, phoneNumber, address)) else None;
  }

  class Modal {
    var open: bool
    var shopName: string
    var phoneNumber: string
    var address: string
    var isSubmitting: bool
    var errors: Errors

    constructor (shop: ShopProps, open: bool)
      ensures this.open == open && !isSubmitting && errors == NoErrors
      ensures shopName == shop.name && phoneNumber == OrEmpty(shop.phoneNumber) && address == OrEmpty(shop.address)
    {
      this.open := open;
      shopName := shop.name;
      phoneNumber := OrEmpty(shop.phoneNumber);
      address := OrEmpty(shop.address);
      isSubmitting := false;
      errors := NoErrors;
    }

    /** The effect on `[open, shop]`: while open, the fields are reloaded from `shop` and the
        errors cleared; while closed nothing changes. */
    method OnOpenOrShopChange(shop: ShopProps)
      modifies this`shopName, this`phoneNumber, this`address, this`errors
      ensures old(open) ==>
        && shopName == shop.name && phoneNumber == OrEmpty(shop.phoneNumber)
        && address == OrEmpty(shop.address) && errors == NoErrors
      ensures !old(open) ==>
        shopName == old(shopName) && phoneNumber == old(phoneNumber) && address == old(address) && errors == old(errors)
    {
      if open {
        shopName := shop.name;
        phoneNumber := OrEmpty(shop.phoneNumber);
        address := OrEmpty(shop.address);
        errors := NoErrors;
      }
    }

    /** `handleSubmit` up to the request: on a valid form the request starts with the body. */
    method HandleSubmit() returns (payload: Option<Payload>)
      modifies this`errors, this`isSubmitting
      ensures payload.Some? <==> FormValid(old(shopName), old(phoneNumber))
      ensures (errors == NoErrors) <==> payload.Some?
      ensures payload.Some? ==> payload.value == BuildPayload(old(shopName), old(phoneNumber), old(address)) && isSubmitting
      ensures payload.None? ==> isSubmitting == old(isSubmitting)
      ensures errors.shopName.Some? <==> IsBlank(old(shopName))
      ensures errors.phoneNumber.Some? <==> PhoneRejected(old(phoneNumber))
      ensures errors.shopName.Some? ==> errors.shopName.value == ShopNameError
      ensures errors.phoneNumber.Some? ==> errors.phoneNumber.value == PhoneError
    {
      var newErrors, request := Prepare(shopName, phoneNumber, address);
      errors := newErrors;
      payload := request;
      if request.Some? {
        isSubmitting := true;
      }
    }

    /** The end of the request: a success closes the dialog; either way submitting stops. */
    method FinishSubmit(succeeded: bool)
      modifies this`open, this`isSubmitting
      ensures !isSubmitting && open == (old(open) && !succeeded)
    {
      if succeeded {
        open := false;
      }
      isSubmitting := false;
    }

    /** `handleClose`: closes, except while a request is under way. */
    method HandleClose()
      modifies this`open
      ensures open == (old(open) && old(isSubmitting))
    {
      if !isSubmitting {
        open := false;
      }
    }
  }
}
