/** `src/components/shared/TrialBanner.tsx`: the trial banner and its dismissal. Dismissing
    stores the time in local storage; on mount the banner stays hidden for three days after
    that time, then shows again and forgets the stored time. Local storage is the `stored`
    field (the one key's value, if any) and `Date.now()` is the `now` parameter. */
module TrialBanner {
  import opened Util
  import opened Text
  import opened LedgerData

  /** Three days in milliseconds. */
  const DismissDuration: int := 3 * 24 * 60 * 60 * 1000

  /** Whether the mount effect shows the banner: nothing stored (or an empty string, which is
      falsy) shows it; otherwise it shows once the window has passed. A stored text that does
      not parse gives `NaN`, for which the comparison is false. */
  predicate VisibleOnMount(stored: Option<string>, now: Time)
  {
    || stored.None? || stored.value == ""
    || (ParseInt(stored.value).Some? && now - ParseInt(stored.value).value >= DismissDuration)
  }

  /** The stored value after the mount effect: removed exactly when a real stored time is
      at least the window old. */
  function StoredAfterMount(stored: Option<string>, now: Time): Option<string>
  {
    if stored.Some? && stored.value != "" && VisibleOnMount(stored, now) then None else stored
  }

  class Banner {
    var isVisible: bool
    var stored: Option<string>

    /** `useState(false)`, with whatever local storage holds. */
    constructor (storage: Option<string>)
      ensures !isVisible && stored == storage
    {
      isVisible := false;
      stored := storage;
    }

    /** The mount effect. */
    method Mount(now: Time)
      modifies this
      ensures isVisible == VisibleOnMount(old(stored), now)
      ensures stored == StoredAfterMount(old(stored), now)
    {
      var dismissedTimestamp := stored;
      if dismissedTimestamp.None? || dismissedTimestamp.value == "" {
        isVisible := true;
        return;
      }
      var dismissedTime := ParseInt(dismissedTimestamp.value);
      if dismissedTime.Some? && now - dismissedTime.value >= DismissDuration {
        isVisible := true;
        stored := None;
      } else {
        isVisible := false;
      }
    }

    /** `handleDismiss`: hide and remember the time of dismissal. */
    method Dismiss(now: Time)
      modifies this
      ensures !isVisible && stored == Some(IntString(now))
    {
      isVisible := false;
      stored := Some(IntString(now));
    }
  }

  /** With nothing stored the banner shows and storage stays empty. */
  lemma NothingStoredShows(now: Time)
    ensures VisibleOnMount(None, now) && StoredAfterMount(None, now) == None
  {
  }

  /** For a stored time `t`: at least three days later the banner shows and the time is
      removed; before that, including a time in the future, it stays hidden and the time
      is kept. At exactly three days it shows. */
  lemma StoredTimeWindow(t: Time, now: Time)
    ensures VisibleOnMount(Some(IntString(t)), now) <==> now - t >= DismissDuration
    ensures now - t >= DismissDuration ==> StoredAfterMount(Some(IntString(t)), now) == None
    ensures now - t < DismissDuration ==> StoredAfterMount(Some(IntString(t)), now) == Some(IntString(t))
    ensures VisibleOnMount(Some(IntString(t)), t + DismissDuration)
    ensures !VisibleOnMount(Some(IntString(t)), t + DismissDuration - 1)
  {
    ParseIntIntString(t);
    assert IntString(t) != "" by {
      assert |NatString(if t < 0 then -t else t)| >= 1;
    }
  }

  /** A stored text with no digits where `parseInt` looks (it gives `NaN`) keeps the banner
      hidden on every mount, and is never removed. */
  lemma UnparsableStaysHidden(text: string, now: Time)
    requires text != "" && ParseInt(text).None?
    ensures !VisibleOnMount(Some(text), now) && StoredAfterMount(Some(text), now) == Some(text)
  {
  }

  /** A concrete such text: "abc". */
  lemma LettersAreUnparsable()
    ensures ParseInt("abc").None?
  {
    assert TrimStart("abc") == "abc";
    assert LeadingDigits("abc") == [];
  }

  /** Dismissing at `t` and mounting again at `now`: the banner shows exactly when at least
      three days have passed. */
  method DismissThenMount(t: Time, now: Time) returns (visible: bool)
    ensures visible <==> now - t >= DismissDuration
  {
    var banner := new Banner(None);
    banner.Dismiss(t);
    banner.Mount(now);
    StoredTimeWindow(t, now);
    visible := banner.isVisible;
  }
}
