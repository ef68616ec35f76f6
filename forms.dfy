/** The rules the auth, setup and modal forms share: the Bangladeshi mobile pattern
    `^01[3-9]\d{8}$`, the password length, phone cleaning for the shop form, the e-mail
    pattern of the profile form, `text || undefined` when building payloads, and the pages a
    form can send the user to. */
module Forms {
  import opened Util
  import opened Text

  datatype Route = DashboardRoute | CustomerRoute | SetupRoute

  /** `^01[3-9]\d{8}$`: "01", one digit from 3 to 9, then exactly eight digits. */
  predicate IsBdMobile(s: string)
  {
    |s| == 11 && s[..2] == "01" && '3' <= s[2] <= '9' && AllDigits(s[3..])
  }

  /** The pattern read another way: eleven ASCII digits starting with "01" whose third digit
      is at least 3. */
  lemma BdMobileShape(s: string)
    ensures IsBdMobile(s) <==> |s| == 11 && AllDigits(s) && s[0] == '0' && s[1] == '1' && s[2] >= '3'
  {
    if |s| == 11 && AllDigits(s) {
      forall i | 0 <= i < |s[3..]| ensures IsDigit(s[3..][i]) {
        assert s[3..][i] == s[i + 3];
      }
    }
    if IsBdMobile(s) {
      assert s[0] == s[..2][0] && s[1] == s[..2][1];
      forall i | 0 <= i < |s| ensures IsDigit(s[i]) {
        if i >= 3 {
          assert s[i] == s[3..][i - 3];
        }
      }
    }
  }

  lemma BdMobileExamples()
    ensures IsBdMobile("01712345678")
    ensures !IsBdMobile("01234567890") && !IsBdMobile("0171234567") && !IsBdMobile("+8801712345678")
  {
    assert "01712345678"[..2] == "01";
    assert "01712345678"[3..] == "12345678";
    assert "01234567890"[2] == '2';
  }

  /** The phone error of the auth and setup forms. */
  const MobileError: string := "সঠিক ফোন নম্বর দিন (01XXXXXXXXX)"

  /** `password.length < 6` is the password error; the length is counted in UTF-16 code units. */
  predicate PasswordOk(p: string)
  {
    Utf16Length(p) >= 6
  }

  /** Three emoji make a long enough password: JavaScript counts six code units. Five
      digits do not. */
  lemma PasswordExamples()
    ensures PasswordOk("\U{1F600}\U{1F600}\U{1F600}")
    ensures !PasswordOk("12345")
  {
    EmojiLength();
  }

  // ---------------------------------------------------------------------------
  // Phone cleaning: `phone.replace(/[\s\-+]/g, '')`

  predicate IsPhoneJunk(c: char)
  {
    IsWhitespace(c) || c == '-' || c == '+'
  }

  predicate KeptInPhone(c: char)
  {
    !IsPhoneJunk(c)
  }

  /** The phone with every whitespace, '-' and '+' deleted: exactly the other characters of
      `s`, in their order. */
  function CleanPhone(s: string): (r: string)
    ensures r == Filter(s, KeptInPhone)
    ensures forall i :: 0 <= i < |r| ==> !IsPhoneJunk(r[i])
  {
    if s == [] then [] else (if IsPhoneJunk(s[0]) then [] else [s[0]]) + CleanPhone(s[1..])
  }

  /** What cleaning keeps: an order-preserving selection of the phone's characters that
      holds every character other than whitespace, '-' and '+', and is shorter by the
      number of those. */
  lemma CleanPhoneKeeps(s: string)
    ensures IsSubsequence(CleanPhone(s), s)
    ensures forall i :: 0 <= i < |s| && !IsPhoneJunk(s[i]) ==> s[i] in CleanPhone(s)
    ensures |CleanPhone(s)| == |s| - Count(s, IsPhoneJunk)
  {
    FilterIsSubsequence(s, KeptInPhone);
    FilterLength(s, KeptInPhone);
    JunkCount(s);
  }

  lemma {:induction false} JunkCount(s: string)
    ensures Count(s, KeptInPhone) == |s| - Count(s, IsPhoneJunk)
  {
    if s != [] {
      JunkCount(s[1..]);
    }
  }

  /** `^\d{10,11}$`. */
  predicate IsShopPhoneDigits(s: string)
  {
    10 <= |s| <= 11 && AllDigits(s)
  }

  lemma {:induction false} CleanPhoneClean(s: string)
    requires forall i :: 0 <= i < |s| ==> !IsPhoneJunk(s[i])
    ensures CleanPhone(s) == s
  {
    if s != [] {
      CleanPhoneClean(s[1..]);
      assert s == [s[0]] + s[1..];
    }
  }

  /** Cleaning twice is cleaning once. */
  lemma CleanPhoneIdempotent(s: string)
    ensures CleanPhone(CleanPhone(s)) == CleanPhone(s)
  {
    CleanPhoneClean(CleanPhone(s));
  }

  lemma {:induction false} CleanPhoneAppend(a: string, b: string)
    ensures CleanPhone(a + b) == CleanPhone(a) + CleanPhone(b)
  {
    if a == [] {
      assert a + b == b;
    } else {
      assert (a + b)[1..] == a[1..] + b;
      CleanPhoneAppend(a[1..], b);
    }
  }

  lemma {:induction false} CleanPhoneWhitespace(s: string)
    requires AllWhitespace(s)
    ensures CleanPhone(s) == ""
  {
    if s != [] {
      CleanPhoneWhitespace(s[1..]);
    }
  }

  /** Cleaning already drops the whitespace `trim` would, so trimming first changes nothing:
      the phone the shop form checks is the phone it sends. */
  lemma CleanPhoneOfTrim(s: string)
    ensures CleanPhone(Trim(s)) == CleanPhone(s)
  {
    CleanPhoneOfTrimStart(s);
    CleanPhoneOfTrimEnd(TrimStart(s));
  }

  lemma CleanPhoneOfTrimStart(s: string)
    ensures CleanPhone(TrimStart(s)) == CleanPhone(s)
  {
    var a := TrimStart(s);
    var w := s[..|s| - |a|];
    assert s == w + a;
    CleanPhoneAppend(w, a);
    CleanPhoneWhitespace(w);
  }

  lemma CleanPhoneOfTrimEnd(s: string)
    ensures CleanPhone(TrimEnd(s)) == CleanPhone(s)
  {
    var t := TrimEnd(s);
    var w := s[|t|..];
    assert s == t + w;
    CleanPhoneAppend(t, w);
    CleanPhoneWhitespace(w);
  }

  // ---------------------------------------------------------------------------
  // E-mail: `/^[^\s@]+@[^\s@]+\.[^\s@]+$/`

  /** Characters allowed by `[^\s@]`. */
  predicate Plain(t: string)
  {
    forall j :: 0 <= j < |t| ==> !IsWhitespace(t[j]) && t[j] != '@'
  }

  /** The pattern as written: a plain local part, '@', a plain domain in which some '.' has
      at least one character on each side. */
  predicate EmailPattern(s: string)
  {
    exists i, k :: 0 < i && i + 1 < k < |s| - 1 && s[i] == '@' && s[k] == '.'
      && Plain(s[..i]) && Plain(s[i + 1..])
  }

  /** The pattern described by its parts: exactly one '@' and no whitespace, a non-empty
      local part, and a '.' in the domain that is neither its first nor its last character. */
  predicate EmailOk(s: string)
  {
    && NoWhitespace(s)
    && '@' in s
    && var i := IndexOf(s, '@');
       var domain := s[i + 1..];
       && '@' !in domain
       && i > 0
       && |domain| >= 3
       && '.' in domain[1..|domain| - 1]
  }

  lemma EmailPatternIff(s: string)
    ensures EmailPattern(s) <==> EmailOk(s)
  {
    if EmailPattern(s) {
      var i, k :| 0 < i && i + 1 < k < |s| - 1 && s[i] == '@' && s[k] == '.'
        && Plain(s[..i]) && Plain(s[i + 1..]);
      EmailPatternOk(s, i, k);
    }
    if EmailOk(s) {
      EmailOkPattern(s);
    }
  }

  lemma EmailOkPattern(s: string)
    requires EmailOk(s)
    ensures EmailPattern(s)
  {
    var i := IndexOf(s, '@');
    var domain := s[i + 1..];
    var m := IndexOf(domain[1..|domain| - 1], '.');
    var k := i + 2 + m;
    assert domain[1..|domain| - 1][m] == s[k];
    assert Plain(s[..i]) by {
      forall j | 0 <= j < i ensures !IsWhitespace(s[..i][j]) && s[..i][j] != '@' {
        assert s[..i][j] == s[j];
      }
    }
    assert Plain(domain) by {
      forall j | 0 <= j < |domain| ensures !IsWhitespace(domain[j]) && domain[j] != '@' {
        assert domain[j] == s[i + 1 + j];
      }
    }
    assert EmailPattern(s);
  }

  lemma EmailPatternOk(s: string, i: int, k: int)
    requires 0 < i && i + 1 < k < |s| - 1 && s[i] == '@' && s[k] == '.'
    requires Plain(s[..i]) && Plain(s[i + 1..])
    ensures EmailOk(s)
  {
    forall j | 0 <= j < |s| ensures !IsWhitespace(s[j]) {
      if j < i {
        assert s[j] == s[..i][j];
      } else if j > i {
        assert s[j] == s[i + 1..][j - i - 1];
      }
    }
    assert '@' !in s[..i] by {
      forall j | 0 <= j < i ensures s[..i][j] != '@' { }
    }
    assert '@' in s;
    var a := IndexOf(s, '@');
    assert a == i;
    var domain := s[i + 1..];
    assert domain[1..|domain| - 1][k - i - 2] == s[k];
  }

  lemma EmailExamples()
    ensures EmailPattern("a@b.c")
    ensures !EmailPattern("a@b") && !EmailPattern("@b.c") && !EmailPattern("a@.c")
  {
    var s := "a@b.c";
    assert s[..1] == "a" && s[2..] == "b.c";
    assert EmailPattern(s) by {
      assert 0 < 1 && 1 + 1 < 3 < |s| - 1 && s[1] == '@' && s[3] == '.' && Plain(s[..1]) && Plain(s[2..]);
    }
  }

  // ---------------------------------------------------------------------------
  // Payload shaping

  /** `text || undefined`: the empty string is falsy and is sent as `undefined`. */
  function OrUndefined(text: string): (r: Option<string>)
    ensures r.None? <==> text == ""
    ensures r.Some? ==> r.value == text
  {
    if text == "" then None else Some(text)
  }

  /** `value || ""` for an optional value coming in from a prop. */
  function OrEmpty(value: Option<string>): (r: string)
    ensures value.Some? ==> r == value.value
    ensures value.None? ==> r == ""
  {
    if value.Some? then value.value else ""
  }

  /** Reading a form field back from a payload value and sending it again gives the same
      payload value. */
  lemma OrUndefinedRoundTrip(value: Option<string>, text: string)
    ensures OrEmpty(OrUndefined(text)) == text
    ensures value != Some("") ==> OrUndefined(OrEmpty(value)) == value
  {
  }
}
