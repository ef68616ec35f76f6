/** `src/lib/formatters.ts`: relative time, phone display, and the two label tables. */
module Formatters {
  import opened Util
  import opened Text
  import opened LedgerData

  // ---------------------------------------------------------------------------
  // formatRelativeTime

  /** The bucket `formatRelativeTime` picks, with its count. */
  datatype RelativeAge =
    | JustNow
    | Minutes(minutes: int)
    | Hours(hours: int)
    | Days(days: int)
    | Weeks(weeks: int)
    | Months(months: int)
    | Years(years: int)

  /** The ladder of `formatRelativeTime`, as a function of `now - date` in milliseconds.
      Dafny's `/` by a positive number rounds down, as `Math.floor` of the quotient does. */
  function Age(elapsedMs: int): RelativeAge
  {
    var seconds := elapsedMs / 1000;
    if seconds < 60 then JustNow
    else
      var minutes := seconds / 60;
      if minutes < 60 then Minutes(minutes)
      else
        var hours := minutes / 60;
        if hours < 24 then Hours(hours)
        else
          var days := hours / 24;
          if days < 7 then Days(days)
          else
            var weeks := days / 7;
            if weeks < 4 then Weeks(weeks)
            else
              var months := days / 30;
              if months < 12 then Months(months)
              else Years(days / 365)
  }

  function AgeText(a: RelativeAge): string
  {
    match a
    case JustNow => "এইমাত্র"
    case Minutes(n) => IntString(n) + " মিনিট আগে"
    case Hours(n) => IntString(n) + " ঘন্টা আগে"
    case Days(n) => IntString(n) + " দিন আগে"
    case Weeks(n) => IntString(n) + " সপ্তাহ আগে"
    case Months(n) => IntString(n) + " মাস আগে"
    case Years(n) => IntString(n) + " বছর আগে"
  }

  /** `formatRelativeTime(date)` with `now - date` given in milliseconds. */
  function FormatRelativeTime(elapsedMs: int): string
  {
    AgeText(Age(elapsedMs))
  }

  lemma DivUnique(x: int, d: int, q: int, r: int)
    requires d > 0 && x == q * d + r && 0 <= r < d
    ensures x / d == q
  {
    var k := q - x / d;
    assert k * d == x % d - r;
  }

  /** Rounding down twice is rounding down once by the product. */
  lemma DivDiv(x: int, a: int, b: int)
    requires a > 0 && b > 0
    ensures x / a / b == x / (a * b)
  {
    var q, r := x / a, x % a;
    var q2, r2 := q / b, q % b;
    assert x == q * a + r;
    assert q == q2 * b + r2;
    MulSplit(q2, b, r2, a);
    MulBelow(r2, b, a);
    DivUnique(x, a * b, q2, r2 * a + r);
  }

  lemma MulSplit(q2: int, b: int, r2: int, a: int)
    ensures (q2 * b + r2) * a == q2 * (a * b) + r2 * a
  {
  }

  lemma MulBelow(r2: int, b: int, a: int)
    requires 0 <= r2 < b && a > 0
    ensures 0 <= r2 * a && r2 * a + a <= a * b
  {
    assert r2 + 1 <= b;
    assert (r2 + 1) * a <= b * a;
  }

  /** Each bucket holds the whole number of its units that have elapsed, and the count lies in
      the bucket's range. Under a minute, and for any future date, the text is "just now". */
  lemma AgeBuckets(elapsedMs: int)
    ensures var s := elapsedMs / 1000; var days := s / 86400;
      match Age(elapsedMs)
      case JustNow => s < 60
      case Minutes(n) => 60 <= s < 3600 && n == s / 60 && 1 <= n < 60
      case Hours(n) => 3600 <= s < 86400 && n == s / 3600 && 1 <= n < 24
      case Days(n) => 1 <= days < 7 && n == days
      case Weeks(n) => 7 <= days < 28 && n == days / 7 && 1 <= n < 4
      case Months(n) => 28 <= days < 360 && n == days / 30 && 0 <= n < 12
      case Years(n) => days >= 360 && n == days / 365 && n >= 0
  {
    var s := elapsedMs / 1000;
    DivDiv(s, 60, 60);
    DivDiv(s, 3600, 24);
  }

  /** The ladder's gaps: 28 and 29 days give "0 months ago", and 360 to 364 days give
      "0 years ago". */
  lemma ZeroCountQuirks(elapsedMs: int)
    ensures var days := elapsedMs / 1000 / 86400;
      (28 <= days < 30 ==> FormatRelativeTime(elapsedMs) == "0 মাস আগে")
      && (360 <= days < 365 ==> FormatRelativeTime(elapsedMs) == "0 বছর আগে")
  {
    AgeBuckets(elapsedMs);
    var days := elapsedMs / 1000 / 86400;
    if 28 <= days < 30 {
      assert Age(elapsedMs) == Months(0);
    }
    if 360 <= days < 365 {
      assert Age(elapsedMs) == Years(0);
    }
  }

  /** "just now" is shown exactly for elapsed times under a minute (future dates included). */
  lemma JustNowIffUnderAMinute(elapsedMs: int)
    ensures FormatRelativeTime(elapsedMs) == "এইমাত্র" <==> elapsedMs / 1000 < 60
  {
    var a := Age(elapsedMs);
    if !a.JustNow? {
      var n := match a
        case Minutes(n) => n case Hours(n) => n case Days(n) => n case Weeks(n) => n
        case Months(n) => n case Years(n) => n case JustNow => 0;
      var t := FormatRelativeTime(elapsedMs);
      assert IsDigit(t[0]) || t[0] == '-' by {
        if n < 0 {
          assert t[0] == '-';
        } else {
          assert t[0] == NatString(n)[0];
        }
      }
    }
  }

  // ---------------------------------------------------------------------------
  // formatPhone

  /** `formatPhone`: an 11-character number is shown as its first five characters, a dash,
      and the rest; anything else is shown unchanged. */
  function FormatPhone(phone: string): (r: string)
    ensures |phone| == 11 ==> |r| == 12 && r[..5] == phone[..5] && r[5] == '-' && r[6..] == phone[5..]
    ensures |phone| != 11 ==> r == phone
  {
    if |phone| == 11 then phone[..5] + "-" + phone[5..] else phone
  }

  /** Deleting the dash again gives the number back, for any number without dashes of its own. */
  lemma FormatPhoneRoundTrip(phone: string)
    requires '-' !in phone
    ensures RemoveChar(FormatPhone(phone), '-') == phone
  {
    if |phone| == 11 {
      var a, b := phone[..5], phone[5..];
      assert phone == a + b;
      RemoveCharAppend(a + "-", b, '-');
      RemoveCharAppend(a, "-", '-');
      RemoveCharAbsent(a, '-');
      RemoveCharAbsent(b, '-');
    } else {
      RemoveCharAbsent(phone, '-');
    }
  }

  // ---------------------------------------------------------------------------
  // getStatusLabel and getPaymentMethodLabel

  /** The label table of `getStatusLabel`; an unknown key gives the input back. */
  function StatusLabel(status: string): string
  {
    if status == "pending" then "পেন্ডিং"
    else if status == "confirmed" then "নিশ্চিত"
    else if status == "rejected" then "বাতিল"
    else status
  }

  /** The label table of `getPaymentMethodLabel`; an unknown key gives the input back. */
  function PaymentMethodLabel(paymentMethod: string): string
  {
    if paymentMethod == "cash" then "ক্যাশ"
    else if paymentMethod == "bkash" then "বিকাশ"
    else if paymentMethod == "nagad" then "নগদ (Nagad)"
    else paymentMethod
  }

  /** The wire name of each status. */
  function StatusName(s: EntryStatus): (name: string)
    ensures name in {"pending", "confirmed", "rejected"}
  {
    match s
    case Pending => "pending"
    case Confirmed => "confirmed"
    case Rejected => "rejected"
  }

  /** The wire name of each payment method. */
  function MethodName(m: PaymentMethod): (name: string)
    ensures name in {"cash", "bkash", "nagad"}
  {
    match m
    case Cash => "cash"
    case Bkash => "bkash"
    case Nagad => "nagad"
  }

  /** The three statuses get three different labels, none of them the status's own name;
      every other string is returned unchanged. */
  lemma StatusLabelTable(a: EntryStatus, b: EntryStatus, other: string)
    requires other !in {"pending", "confirmed", "rejected"}
    ensures StatusLabel(StatusName(a)) == StatusLabel(StatusName(b)) <==> a == b
    ensures StatusLabel(StatusName(a)) != StatusName(a)
    ensures StatusLabel(other) == other
  {
  }

  /** The same for the payment-method table. */
  lemma PaymentMethodLabelTable(a: PaymentMethod, b: PaymentMethod, other: string)
    requires other !in {"cash", "bkash", "nagad"}
    ensures PaymentMethodLabel(MethodName(a)) == PaymentMethodLabel(MethodName(b)) <==> a == b
    ensures PaymentMethodLabel(MethodName(a)) != MethodName(a)
    ensures PaymentMethodLabel(other) == other
  {
  }
}
