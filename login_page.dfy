/** `src/app/auth/login/page.tsx`: the stand-alone login form. Its two checks are those of
    the login mode of the combined form (the phone pattern and the password length, reported
    together); a valid submit calls `login` and goes where the answered user type says.
    That `login` answers with a user type, which the store modelled here does not, so the
    call is the method's result and the answer an input of the redirect. */
module LoginPage {
  import opened Util
  import opened Forms
  import AuthPage

  datatype LoginCall = LoginCall(phone: string, password: string)

  /** `handleSubmit` up to the `login` call. */
  method HandleSubmit(phone: string, password: string) returns (errors: AuthPage.Errors, call: Option<LoginCall>)
    ensures AuthPage.Reported(errors, AuthPage.LoginMode, phone, password, "")
    ensures call.None? <==> !(IsBdMobile(phone) && PasswordOk(password))
    ensures call.Some? ==> call.value == LoginCall(phone, password)
  {
    var isValid;
    errors, isValid := AuthPage.ValidateForm(AuthPage.LoginMode, phone, password, "");
    if !isValid {
      return errors, None;
    }
    call := Some(LoginCall(phone, password));
  }

  /** "customer" goes to the customer page and every other answer to the dashboard. */
  function LoginRedirect(userType: string): (r: Route)
    ensures r == CustomerRoute <==> userType == "customer"
    ensures r != SetupRoute
  {
    if userType == "customer" then CustomerRoute else DashboardRoute
  }
}
