/** `src/app/setup/page.tsx`: the shop setup form shown after a shop owner signs up. Both
    checks run and are reported together; a valid submit sets up the shop with the name and
    phone as entered, an empty address becoming `undefined`, and goes to the dashboard. */
module SetupPage {
  import opened Util
  import opened Text
  import opened LedgerData
  import opened Forms
  import AppContext

  const ShopNameError: string := "দোকানের নাম আবশ্যক"

  datatype Errors = Errors(shopName: string, phone: string)

  predicate FormValid(shopName: string, phone: string)
  {
    !IsBlank(shopName) && IsBdMobile(phone)
  }

  /** `validateForm`: each error is set exactly when its rule fails, and the form is valid
      exactly when neither is. */
  method ValidateForm(shopName: string, phone: string) returns (errors: Errors, isValid: bool)
    ensures errors.shopName == (if IsBlank(shopName) then ShopNameError else "")
    ensures errors.phone == (if IsBdMobile(phone) then "" else MobileError)
    ensures isValid <==> errors == Errors("", "")
    ensures isValid <==> FormValid(shopName, phone)
  {
    errors := Errors("", "");
    isValid := true;
    if IsBlank(shopName) {
      errors := errors.(shopName := ShopNameError);
      isValid := false;
    }
    if !IsBdMobile(phone) {
      errors := errors.(phone := MobileError);
      isValid := false;
    }
  }

  /** `handleSubmit`: the errors are those of `validateForm`; an invalid form touches
      nothing, and a valid one sets up the shop and goes to the dashboard. */
  method HandleSubmit(store: AppContext.AppStore, shopName: string, phone: string, address: string)
    returns (errors: Errors, route: Option<Route>)
    requires store.Valid()
    modifies store
    ensures store.Valid()
    ensures errors.shopName == (if IsBlank(shopName) then ShopNameError else "")
    ensures errors.phone == (if IsBdMobile(phone) then "" else MobileError)
    ensures !FormValid(shopName, phone) ==> route.None? && store.State() == old(store.State())
    ensures FormValid(shopName, phone) ==>
      store.State() == SetupShop(old(store.State()), shopName, phone, OrUndefined(address))
      && route == Some(DashboardRoute)
  {
    var isValid;
    errors, isValid := ValidateForm(shopName, phone);
    if !isValid {
      return errors, None;
    }
    store.SetupShop(shopName, phone, OrUndefined(address));
    route := Some(DashboardRoute);
  }

  /** After a valid setup the store has a shop carrying the entered name and phone, with no
      address exactly when none was typed; nothing else in the store moves. */
  lemma SetupResult(s: AppState, shopName: string, phone: string, address: string)
    ensures var t := SetupShop(s, shopName, phone, OrUndefined(address));
      && t.hasShop && t.shop.Some?
      && t.shop.value.name == shopName && t.shop.value.phone == phone
      && (t.shop.value.address.None? <==> address == "")
      && t.customers == s.customers && t.bakiEntries == s.bakiEntries && t.payments == s.payments
      && t.isAuthenticated == s.isAuthenticated && t.userProfile == s.userProfile
  {
  }
}
