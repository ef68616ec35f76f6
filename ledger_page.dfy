/** `src/app/ledger/page.tsx`: the status and date-range filters, the confirmed-only totals,
    and what the page shows from them. Days are counted in UTC from the epoch. */
module LedgerPage {
  import opened Util
  import opened Display
  import opened LedgerData
  import Formatters

  /** The status filter buttons: "all" or one status. */
  datatype StatusFilter = All | Only(status: EntryStatus)

  /** The picker's range; either end may be unset. */
  datatype DateRange = DateRange(from: Option<Time>, to: Option<Time>)

  const NoRange: DateRange := DateRange(None, None)

  /** The day a moment falls on. */
  function DayOf(t: Time): int
  {
    t / MsPerDay
  }

  /** `setHours(0, 0, 0, 0)`. */
  function StartOfDay(t: Time): Time
  {
    DayOf(t) * MsPerDay
  }

  /** `setHours(23, 59, 59, 999)`. */
  function EndOfDay(t: Time): Time
  {
    DayOf(t) * MsPerDay + MsPerDay - 1
  }

  /** `filterByDate(date)`. */
  function FilterByDate(range: DateRange, date: Time): bool
  {
    if range.from.None? && range.to.None? then true
    else if range.from.Some? && range.to.Some? then
      StartOfDay(range.from.value) <= StartOfDay(date) <= EndOfDay(range.to.value)
    else if range.from.Some? then StartOfDay(date) >= StartOfDay(range.from.value)
    else StartOfDay(date) <= EndOfDay(range.to.value)
  }

  lemma StartOfDayOrder(a: Time, b: Time)
    ensures StartOfDay(a) <= StartOfDay(b) <==> DayOf(a) <= DayOf(b)
    ensures StartOfDay(a) <= EndOfDay(b) <==> DayOf(a) <= DayOf(b)
  {
    var da, db := DayOf(a), DayOf(b);
    if da <= db {
      assert da * MsPerDay <= db * MsPerDay;
    } else {
      assert da >= db + 1;
      assert da * MsPerDay >= db * MsPerDay + MsPerDay;
    }
  }

  /** The date filter compares whole days: with no bound everything passes; with both, the
      entry's day must lie between the two days inclusive; with one, on the right side of it. */
  lemma FilterByDateByDay(range: DateRange, date: Time)
    ensures FilterByDate(range, date) <==>
      (range.from.None? || DayOf(range.from.value) <= DayOf(date))
      && (range.to.None? || DayOf(date) <= DayOf(range.to.value))
  {
    if range.from.Some? {
      StartOfDayOrder(range.from.value, date);
    }
    if range.to.Some? {
      StartOfDayOrder(date, range.to.value);
    }
  }

  /** `b.date || b.createdAt`: the date the filter tests. */
  function EntryDate(e: Entry): Time
  {
    if e.date.Some? then e.date.value else e.createdAt
  }

  function StatusMatch(filter: StatusFilter, e: Entry): bool
  {
    filter == All || filter == Only(e.status)
  }

  /** `filteredBaki` and `filteredPayments`. */
  function Filtered(es: seq<Entry>, filter: StatusFilter, range: DateRange): seq<Entry>
  {
    Filter(es, e => StatusMatch(filter, e) && FilterByDate(range, EntryDate(e)))
  }

  /** An entry is kept exactly when its status matches and its date is in the range; the kept
      entries are in their original order; the "all" filter with no range keeps everything. */
  lemma FilteredSpec(es: seq<Entry>, filter: StatusFilter, range: DateRange)
    ensures var r := Filtered(es, filter, range);
      && (forall i :: 0 <= i < |r| ==> r[i] in es && StatusMatch(filter, r[i]) && FilterByDate(range, EntryDate(r[i])))
      && (forall i :: 0 <= i < |es| && StatusMatch(filter, es[i]) && FilterByDate(range, EntryDate(es[i])) ==> es[i] in r)
      && IsSubsequence(r, es)
      && (filter == All && range == NoRange ==> r == es)
  {
    var p := e => StatusMatch(filter, e) && FilterByDate(range, EntryDate(e));
    FilterIsSubsequence(es, p);
    if filter == All && range == NoRange {
      FilterAll(es, p);
    }
  }

  /** A specific status keeps exactly the entries with that status. */
  lemma OnlyKeepsThatStatus(es: seq<Entry>, status: EntryStatus, range: DateRange)
    ensures forall i :: 0 <= i < |Filtered(es, Only(status), range)| ==> Filtered(es, Only(status), range)[i].status == status
  {
  }

  /** `totalBaki` / `totalPayments`: the sum of the confirmed amounts. */
  function TotalConfirmed(es: seq<Entry>): int
  {
    if es == [] then 0 else (if es[0].status == Confirmed then es[0].amount else 0) + TotalConfirmed(es[1..])
  }

  /** The totals look at the whole lists: whatever the filters, they sum the confirmed
      amounts of every entry, and only of confirmed entries. */
  lemma {:induction false} TotalConfirmedIsConfirmedSum(es: seq<Entry>)
    ensures TotalConfirmed(es) == Sum(Filter(es, IsConfirmed), AmountOf)
  {
    if es != [] {
      TotalConfirmedIsConfirmedSum(es[1..]);
      var rest := Filter(es[1..], IsConfirmed);
      if IsConfirmed(es[0]) {
        assert Filter(es, IsConfirmed) == [es[0]] + rest;
        assert ([es[0]] + rest)[1..] == rest;
      } else {
        assert Filter(es, IsConfirmed) == rest;
      }
    }
  }

  predicate IsConfirmed(e: Entry)
  {
    e.status == Confirmed
  }

  function AmountOf(e: Entry): int
  {
    e.amount
  }

  function RunningBalance(baki: seq<Entry>, payments: seq<Entry>): int
  {
    TotalConfirmed(baki) - TotalConfirmed(payments)
  }

  function BalanceTone(runningBalance: int): Tone
  {
    if runningBalance > 0 then Destructive else Success
  }

  /** `hasDateFilter`. */
  predicate HasDateFilter(range: DateRange)
  {
    range.from.Some? || range.to.Some?
  }

  datatype EmptyState = NoEmptyState | EmptyState(message: string)

  /** The empty-state block and its message. */
  function EmptyStateOf(baki: seq<Entry>, payments: seq<Entry>, filter: StatusFilter, range: DateRange): EmptyState
  {
    var fb, fp := Filtered(baki, filter, range), Filtered(payments, filter, range);
    if |fb| == 0 && |fp| == 0 then
      EmptyState(
        if filter == All && !HasDateFilter(range) then "নতুন বাকি বা পেমেন্ট যোগ করুন"
        else if HasDateFilter(range) then "এই তারিখ রেঞ্জে কোনো এন্ট্রি নেই"
        else Formatters.StatusLabel(FilterValue(filter)) + " স্ট্যাটাসের কোনো এন্ট্রি নেই")
    else NoEmptyState
  }

  /** The value of a filter button as the page's string state holds it. */
  function FilterValue(filter: StatusFilter): string
  {
    match filter
    case All => "all"
    case Only(s) => Formatters.StatusName(s)
  }

  /** The filter buttons, in order, with their captions. */
  function FilterButtons(): seq<(StatusFilter, string)>
  {
    [(All, "সব"), (Only(Pending), "পেন্ডিং"), (Only(Confirmed), "নিশ্চিত"), (Only(Rejected), "বাতিল")]
  }

  /** The first button is "all"; each other one is a status button captioned with that
      status's label from the formatters, and no filter value has two buttons. */
  lemma FilterButtonsMatchLabels()
    ensures FilterButtons()[0].0 == All
    ensures forall i, j :: 0 <= i < j < |FilterButtons()| ==> FilterButtons()[i].0 != FilterButtons()[j].0
    ensures forall i :: 1 <= i < |FilterButtons()| ==>
      FilterButtons()[i].0.Only? && FilterButtons()[i].1 == Formatters.StatusLabel(FilterValue(FilterButtons()[i].0))
  {
  }

  /** Where a filter value sits among the buttons: every filter value has its button. */
  function ButtonIndex(f: StatusFilter): (i: nat)
    ensures i < |FilterButtons()| && FilterButtons()[i].0 == f
  {
    match f
    case All => 0
    case Only(Pending) => 1
    case Only(Confirmed) => 2
    case Only(Rejected) => 3
  }

  /** The empty state appears exactly when both filtered lists are empty; with no filter set
      that means both lists are empty. */
  lemma EmptyStateIff(baki: seq<Entry>, payments: seq<Entry>, filter: StatusFilter, range: DateRange)
    ensures EmptyStateOf(baki, payments, filter, range).EmptyState? <==>
      Filtered(baki, filter, range) == [] && Filtered(payments, filter, range) == []
    ensures filter == All && range == NoRange ==>
      (EmptyStateOf(baki, payments, filter, range).EmptyState? <==> baki == [] && payments == [])
  {
    FilteredSpec(baki, filter, range);
    FilteredSpec(payments, filter, range);
  }

  /** The balance a colour and an absolute amount stand for. */
  function BalanceShown(tone: Tone, shown: nat): int
  {
    if tone == Destructive then shown else -(shown as int)
  }

  /** The balance figure is shown as an absolute amount, in the destructive colour exactly
      when it is positive, and the two together give the balance back: different balances
      never look alike. */
  lemma BalanceDisplay(baki: seq<Entry>, payments: seq<Entry>)
    ensures var rb := RunningBalance(baki, payments);
      && (BalanceTone(rb) == Destructive <==> rb > 0)
      && BalanceShown(BalanceTone(rb), Abs(rb)) == rb
  {
  }
}
