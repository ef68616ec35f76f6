/** `src/app/auth/page.tsx`: the combined login and signup form. Every check runs and all
    errors are reported together; a valid login switches the store to the chosen role before
    logging in, a valid signup signs up with that role, and each then picks the next page. */
module AuthPage {
  import opened Util
  import opened Text
  import opened LedgerData
  import opened Forms
  import AppContext

  datatype Mode = LoginMode | SignupMode

  /** `searchParams.get('mode') === 'signup' ? 'signup' : 'login'`. */
  function InitialMode(modeParam: Option<string>): (m: Mode)
    ensures m == SignupMode <==> modeParam == Some("signup")
  {
    if modeParam == Some("signup") then SignupMode else LoginMode
  }

  const PasswordError: string := "পাসওয়ার্ড কমপক্ষে ৬ অক্ষরের হতে হবে"
  const NameError: string := "নাম আবশ্যক"

  datatype Errors = Errors(phone: string, password: string, name: string)

  const NoErrors: Errors := Errors("", "", "")

  /** The form is acceptable: a valid mobile number, a long enough password, and in signup
      mode a name that is not blank. */
  predicate FormValid(mode: Mode, phone: string, password: string, name: string)
  {
    IsBdMobile(phone) && PasswordOk(password) && (mode == SignupMode ==> !IsBlank(name))
  }

  /** The errors a submit leaves on display: each field's message exactly when its rule
      fails, the name's only in signup mode, and "" otherwise. */
  predicate Reported(e: Errors, mode: Mode, phone: string, password: string, name: string)
  {
    && e.phone == (if IsBdMobile(phone) then "" else MobileError)
    && e.password == (if PasswordOk(password) then "" else PasswordError)
    && e.name == (if mode == SignupMode && IsBlank(name) then NameError else "")
  }

  /** `validateForm`: each field's error is set exactly when its rule fails, independently of
      the others, and the form is valid exactly when no error is set. */
  method ValidateForm(mode: Mode, phone: string, password: string, name: string) returns (errors: Errors, isValid: bool)
    ensures errors.phone != "" <==> !IsBdMobile(phone)
    ensures errors.password != "" <==> !PasswordOk(password)
    ensures errors.name != "" <==> mode == SignupMode && IsBlank(name)
    ensures errors.phone in {"", MobileError} && errors.password in {"", PasswordError} && errors.name in {"", NameError}
    ensures Reported(errors, mode, phone, password, name)
    ensures isValid <==> errors == NoErrors
    ensures isValid <==> FormValid(mode, phone, password, name)
  {
    errors := NoErrors;
    isValid := true;
    if !IsBdMobile(phone) {
      errors := errors.(phone := MobileError);
      isValid := false;
    }
    if !PasswordOk(password) {
      errors := errors.(password := PasswordError);
      isValid := false;
    }
    if mode == SignupMode && IsBlank(name) {
      errors := errors.(name := NameError);
      isValid := false;
    }
  }

  /** `handleSubmit`, with `login` seeing the role `switchRole` has just set (`StaleLogin`
      is the login branch as written). An invalid form touches nothing; a login switches
      role, logs in and goes to the dashboard (shop owner) or the customer page; a signup
      goes to the shop setup (shop owner) or the customer page. The errors are those of
      `validateForm`, always. */
  method HandleSubmit(store: AppContext.AppStore, mode: Mode, userType: Role,
                      phone: string, password: string, name: string)
    returns (errors: Errors, route: Option<Route>)
    requires store.Valid()
    modifies store
    ensures store.Valid()
    ensures Reported(errors, mode, phone, password, name)
    ensures errors == NoErrors <==> FormValid(mode, phone, password, name)
    ensures !FormValid(mode, phone, password, name) ==> route.None? && store.State() == old(store.State())
    ensures FormValid(mode, phone, password, name) && mode == LoginMode ==>
      && store.State() == LedgerData.Login(LedgerData.SwitchRole(old(store.State()), userType), phone)
      && route == Some(if userType == DokandarRole then DashboardRoute else CustomerRoute)
    ensures FormValid(mode, phone, password, name) && mode == SignupMode ==>
      && store.State() == LedgerData.Signup(old(store.State()), phone, name, userType)
      && route == Some(if userType == DokandarRole then SetupRoute else CustomerRoute)
  {
    var isValid;
    errors, isValid := ValidateForm(mode, phone, password, name);
    if !isValid {
      return errors, None;
    }
    if mode == LoginMode {
      store.SwitchRole(userType);
      store.Login(phone, password);
      route := Some(if userType == DokandarRole then DashboardRoute else CustomerRoute);
    } else {
      store.Signup(phone, password, name, userType);
      route := Some(if userType == DokandarRole then SetupRoute else CustomerRoute);
    }
  }

  /** The login branch as the page is written. `switchRole` and `login` are both callbacks of
      the render the form was submitted from, so `login` still reads the role from before
      the switch. Its profile replaces the one `switchRole` set, the shop follows the old
      role, and only `currentRole` takes the chosen one. */
  function StaleLogin(s: AppState, userType: Role, phone: string): (t: AppState)
    ensures t.isAuthenticated && t.currentRole == userType
    ensures t.userProfile == Some(UserProfile("u1", DemoName(s.currentRole), phone, s.currentRole))
    ensures t.hasShop == (s.hasShop || s.currentRole == DokandarRole)
    ensures t.customers == s.customers && t.bakiEntries == s.bakiEntries && t.payments == s.payments
  {
    LedgerData.Login(s, phone).(currentRole := userType)
  }

  /** Choosing a role other than the current one leaves, as written, a profile whose role is
      not the store's role; with `login` seeing the switched role the two always agree. */
  lemma StaleLoginMismatch(s: AppState, userType: Role, phone: string)
    requires userType != s.currentRole
    ensures var t := StaleLogin(s, userType, phone);
      t.userProfile.Some? && t.userProfile.value.role != t.currentRole
    ensures var t := LedgerData.Login(LedgerData.SwitchRole(s, userType), phone);
      t.userProfile.Some? && t.userProfile.value.role == t.currentRole
  {
  }

  /** From the first store, a customer who logs in gets, as written, the shop owner's demo
      profile and a shop while being sent to the customer page; with the switch seen, the
      profile is the demo customer's and there is no shop. */
  lemma StaleLoginFromStart()
    ensures var t := StaleLogin(InitialState(), CustomerRole, "01712345678");
      && t.currentRole == CustomerRole && t.hasShop
      && t.userProfile.Some? && t.userProfile.value.role == DokandarRole && t.userProfile.value.name == DemoShopName
    ensures var t := LedgerData.Login(LedgerData.SwitchRole(InitialState(), CustomerRole), "01712345678");
      && t.currentRole == CustomerRole && !t.hasShop
      && t.userProfile.Some? && t.userProfile.value.role == CustomerRole && t.userProfile.value.name == DemoCustomerName
  {
  }

  /** What the submit leaves behind when `login` sees the switched role, as `HandleSubmit`
      models it: a shop owner who logs in has a shop and reaches the dashboard; a shop owner
      who signs up has none yet and reaches the setup page; either way the profile carries
      the chosen role. */
  lemma LandingMatchesStore(s: AppState, userType: Role, phone: string, name: string)
    ensures var t := LedgerData.Login(LedgerData.SwitchRole(s, userType), phone);
      && t.isAuthenticated && t.currentRole == userType
      && t.userProfile.Some? && t.userProfile.value.role == userType && t.userProfile.value.phone == phone
      && (userType == DokandarRole ==> t.hasShop && t.shop.Some?)
    ensures var t := LedgerData.Signup(s, phone, name, userType);
      && t.isAuthenticated && t.currentRole == userType
      && t.userProfile == Some(UserProfile("u1", name, phone, userType))
      && (userType == DokandarRole ==> !t.hasShop)
  {
  }
}
