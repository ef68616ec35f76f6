/** `src/app/auth/signup/page.tsx`: the stand-alone signup form. Its checks are those of the
    signup mode of the combined form; a valid submit splits the trimmed name into first and
    last names, calls `register`, and picks the next page from the user type `register`
    answers with. `register` is not part of the store modelled here, so its call is the
    method's result. */
module SignupPage {
  import opened Util
  import opened Text
  import opened Forms
  import AuthPage

  datatype UserType = ShopOwner | CustomerUser

  datatype NameParts = NameParts(firstName: string, lastName: string)

  /** `parts = name.trim().split(' ')`, `firstName = parts[0]`, `lastName = parts.slice(1).join(' ')`. */
  function SplitName(name: string): NameParts
  {
    var parts := Split(Trim(name), ' ');
    NameParts(parts[0], Join(parts[1..], ' '))
  }

  lemma {:induction false} JoinLastEmpty(ps: seq<string>, sep: char)
    requires |ps| >= 2 && ps[|ps| - 1] == ""
    ensures |Join(ps, sep)| >= 1 && Join(ps, sep)[|Join(ps, sep)| - 1] == sep
  {
    if |ps| > 2 {
      JoinLastEmpty(ps[1..], sep);
    } else {
      assert ps[1..] == [""];
    }
  }

  /** Splitting text that does not end in whitespace: one part exactly when there is no
      space, and otherwise the parts after the first join to a non-empty text. */
  lemma SplitOnSpace(t: string)
    requires t == [] || !IsWhitespace(t[|t| - 1])
    ensures var parts := Split(t, ' ');
      && (|parts| == 1 <==> ' ' !in t)
      && (|parts| >= 2 ==> Join(parts[1..], ' ') != "")
  {
    var parts := Split(t, ' ');
    if ' ' in t {
      var i := IndexOf(t, ' ');
      assert parts == [t[..i]] + Split(t[i + 1..], ' ');
      var l := parts[|parts| - 1];
      if l == "" {
        JoinLastEmpty(parts, ' ');
        assert false;
      }
      JoinTailNonEmpty(parts, ' ');
    }
  }

  lemma JoinTailNonEmpty(ps: seq<string>, sep: char)
    requires |ps| >= 2 && ps[|ps| - 1] != ""
    ensures Join(ps[1..], sep) != ""
  {
    var r := ps[1..];
    assert r[|r| - 1] == ps[|ps| - 1];
    JoinSuffix(r, sep);
  }

  lemma SplitTrimmed(t: string)
    requires t == [] || !IsWhitespace(t[|t| - 1])
    ensures var parts := Split(t, ' '); var first, last := parts[0], Join(parts[1..], ' ');
      && ' ' !in first
      && (last == "" <==> ' ' !in t)
      && first + (if last != "" then " " + last else "") == t
  {
    var parts := Split(t, ' ');
    SplitOnSpace(t);
    if |parts| >= 2 {
      assert Join(parts, ' ') == parts[0] + [' '] + Join(parts[1..], ' ');
    } else {
      assert parts[1..] == [];
    }
  }

  /** The first name holds no space; the last name is empty exactly for a one-word name;
      and putting the two back together with one space gives the trimmed name. */
  lemma SplitNameSpec(name: string)
    ensures ' ' !in SplitName(name).firstName
    ensures SplitName(name).lastName == "" <==> ' ' !in Trim(name)
    ensures var p := SplitName(name);
      p.firstName + (if p.lastName != "" then " " + p.lastName else "") == Trim(name)
  {
    SplitTrimmed(Trim(name));
  }

  /** `register`'s arguments. */
  datatype RegisterCall = RegisterCall(phone: string, password: string, firstName: string, lastName: string, userType: UserType)

  /** `handleSubmit` up to the `register` call: nothing is registered unless the form is
      valid, and a valid form registers with the split name. */
  method HandleSubmit(userType: UserType, phone: string, password: string, name: string)
    returns (errors: AuthPage.Errors, call: Option<RegisterCall>)
    ensures AuthPage.Reported(errors, AuthPage.SignupMode, phone, password, name)
    ensures call.None? <==> !AuthPage.FormValid(AuthPage.SignupMode, phone, password, name)
    ensures call.Some? ==>
      call.value == RegisterCall(phone, password, SplitName(name).firstName, SplitName(name).lastName, userType)
  {
    var isValid;
    errors, isValid := AuthPage.ValidateForm(AuthPage.SignupMode, phone, password, name);
    if !isValid {
      return errors, None;
    }
    var parts := SplitName(name);
    call := Some(RegisterCall(phone, password, parts.firstName, parts.lastName, userType));
  }

  /** The redirect after `register` answers with a user type. */
  function RegisteredRedirect(registeredUserType: string): (r: Route)
    ensures r == SetupRoute <==> registeredUserType == "shop_owner"
    ensures r == CustomerRoute <==> registeredUserType == "customer"
    ensures r == DashboardRoute <==> registeredUserType !in {"shop_owner", "customer"}
  {
    if registeredUserType == "shop_owner" then SetupRoute
    else if registeredUserType == "customer" then CustomerRoute
    else DashboardRoute
  }
}
