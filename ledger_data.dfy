/** The records held by the client-side store of `src/contexts/AppContext.tsx`, and each
    store action as a pure transition on the whole store state. The class `AppContext.AppStore`
    implements these transitions on its fields; the lemmas here state what the actions do to
    balances, entries and notifications. */
module LedgerData {
  import opened Util
  import opened Text

  /** Milliseconds since the epoch (`Date.getTime()`). */
  type Time = int
  type Id = string

  datatype Role = DokandarRole | CustomerRole
  datatype EntryStatus = Pending | Confirmed | Rejected
  datatype PaymentMethod = Cash | Bkash | Nagad
  datatype NotificationKind = BakiNote | PaymentNote | InfoNote

  /** Which of the two entry lists an entry lives in ("baki" or "payment"). */
  datatype Kind = Baki | Payment

  /** The `customer` object that backend data attaches to an entry. */
  datatype CustomerRef = CustomerRef(name: Option<string>, phone: Option<string>)

  datatype Customer = Customer(
    id: Id, phone: string, name: string, balance: int,
    lastTransaction: Option<Time>, createdAt: Time)

  /** The kind-specific part of an entry: a credit's optional description, a payment's method. */
  datatype Detail = BakiDetail(description: Option<string>) | PaymentDetail(paymentMethod: PaymentMethod)

  /** `BakiEntry` and `PaymentEntry`. The last two fields (`date`, `customer`) are not part of
      the store's own interfaces: pages written against backend data read them, and the
      store never sets them. */
  datatype Entry = Entry(
    id: Id, customerId: Id, customerName: string, amount: int, detail: Detail,
    status: EntryStatus, createdAt: Time, confirmedAt: Option<Time>,
    date: Option<Time>, customer: Option<CustomerRef>)

  datatype Notification = Notification(
    id: Id, title: string, message: string, kind: NotificationKind, read: bool, createdAt: Time)

  datatype Shop = Shop(id: Id, name: string, phone: string, address: Option<string>)

  datatype UserProfile = UserProfile(id: Id, name: string, phone: string, role: Role)

  /** Every piece of React state of `AppProvider`, plus the counter that replaces
      `Date.now()` as a source of fresh ids. */
  datatype AppState = AppState(
    isAuthenticated: bool, hasShop: bool, userProfile: Option<UserProfile>, shop: Option<Shop>,
    currentRole: Role,
    customers: seq<Customer>, bakiEntries: seq<Entry>, payments: seq<Entry>,
    notifications: seq<Notification>,
    isSubscribed: bool,
    nextId: nat)

  const TrialDaysLeft: nat := 25

  const DemoShopName: string := "রহিম স্টোর"
  const DemoCustomerName: string := "আব্দুল করিম"
  const DemoShopAddress: string := "মিরপুর, ঢাকা"

  // ---------------------------------------------------------------------------
  // Ids

  /** The id the store gives a new record: a one-letter prefix ('c', 'b', 'p', 'n') and a
      number. */
  function FreshId(prefix: char, n: nat): (id: Id)
    ensures |id| >= 2 && id[0] == prefix && id[1..] == NatString(n)
  {
    [prefix] + NatString(n)
  }

  /** The id has a numeric part below `n`, so it cannot be any id handed out from `n` on. */
  predicate SerialBelow(id: Id, n: nat)
  {
    |id| >= 2 && AllDigits(id[1..]) && DigitsValue(id[1..]) < n
  }

  lemma FreshIdIsNew(prefix: char, n: nat, other: Id)
    requires SerialBelow(other, n)
    ensures other != FreshId(prefix, n)
  {
    DigitsValueOfNatString(n);
  }

  lemma FreshIdSerial(prefix: char, n: nat)
    ensures SerialBelow(FreshId(prefix, n), n + 1)
  {
    DigitsValueOfNatString(n);
  }

  // ---------------------------------------------------------------------------
  // Lookups and list updates (the `find` and `map` calls of the actions)

  /** `customers.find(c => c.id === id)`: the first customer with that id. */
  function FindCustomer(cs: seq<Customer>, id: Id): (r: Option<Customer>)
    ensures r.None? <==> forall i :: 0 <= i < |cs| ==> cs[i].id != id
    ensures r.Some? ==> r.value.id == id && r.value in cs
    ensures r.Some? ==> exists k :: 0 <= k < |cs| && cs[k] == r.value && forall j :: 0 <= j < k ==> cs[j].id != id
  {
    if cs == [] then None
    else if cs[0].id == id then Some(cs[0])
    else
      assert forall k :: 0 <= k < |cs[1..]| ==> cs[1..][k] == cs[k + 1];
      FindCustomer(cs[1..], id)
  }

  /** The position of the first entry with that id. */
  function FirstIndexOf(es: seq<Entry>, id: Id): (r: Option<nat>)
    ensures r.None? <==> forall i :: 0 <= i < |es| ==> es[i].id != id
    ensures r.Some? ==>
              r.value < |es| && es[r.value].id == id && forall j :: 0 <= j < r.value ==> es[j].id != id
  {
    if es == [] then None
    else if es[0].id == id then Some(0)
    else match FirstIndexOf(es[1..], id)
      case None => None
      case Some(i) => Some(i + 1)
  }

  /** `entries.find(e => e.id === id)`: the first entry with that id. */
  function FindEntry(es: seq<Entry>, id: Id): (r: Option<Entry>)
    ensures r.None? <==> forall i :: 0 <= i < |es| ==> es[i].id != id
    ensures r.Some? ==> r.value.id == id && r.value in es
    ensures r.Some? ==> exists k :: 0 <= k < |es| && es[k] == r.value && forall j :: 0 <= j < k ==> es[j].id != id
  {
    match FirstIndexOf(es, id)
    case None => None
    case Some(i) => Some(es[i])
  }

  /** `prev.map(entry => entry.id === id ? { ...entry, status: "confirmed", confirmedAt: now } : entry)`. */
  function MarkConfirmed(es: seq<Entry>, id: Id, now: Time): (r: seq<Entry>)
    ensures |r| == |es|
    ensures forall i :: 0 <= i < |es| ==> r[i] == ConfirmOne(es[i], id, now)
  {
    if es == [] then [] else [ConfirmOne(es[0], id, now)] + MarkConfirmed(es[1..], id, now)
  }

  function ConfirmOne(e: Entry, id: Id, now: Time): Entry
  {
    if e.id == id then e.(status := Confirmed, confirmedAt := Some(now)) else e
  }

  /** `prev.map(entry => entry.id === id ? { ...entry, status: "rejected" } : entry)`. */
  function MarkRejected(es: seq<Entry>, id: Id): (r: seq<Entry>)
    ensures |r| == |es|
    ensures forall i :: 0 <= i < |es| ==> r[i] == RejectOne(es[i], id)
  {
    if es == [] then [] else [RejectOne(es[0], id)] + MarkRejected(es[1..], id)
  }

  function RejectOne(e: Entry, id: Id): Entry
  {
    if e.id == id then e.(status := Rejected) else e
  }

  /** `prev.map(c => c.id === customerId ? { ...c, balance: c.balance + delta, lastTransaction: now } : c)`. */
  function AdjustBalance(cs: seq<Customer>, customerId: Id, delta: int, now: Time): (r: seq<Customer>)
    ensures |r| == |cs|
    ensures forall i :: 0 <= i < |cs| ==> r[i] == AdjustOne(cs[i], customerId, delta, now)
  {
    if cs == [] then [] else [AdjustOne(cs[0], customerId, delta, now)] + AdjustBalance(cs[1..], customerId, delta, now)
  }

  function AdjustOne(c: Customer, customerId: Id, delta: int, now: Time): Customer
  {
    if c.id == customerId then c.(balance := c.balance + delta, lastTransaction := Some(now)) else c
  }

  /** `prev.map(n => n.id === id ? { ...n, read: true } : n)`. */
  function MarkRead(ns: seq<Notification>, id: Id): (r: seq<Notification>)
    ensures |r| == |ns|
    ensures forall i :: 0 <= i < |ns| ==> r[i] == if ns[i].id == id then ns[i].(read := true) else ns[i]
  {
    if ns == [] then [] else [if ns[0].id == id then ns[0].(read := true) else ns[0]] + MarkRead(ns[1..], id)
  }

  /** `prev.map(n => ({ ...n, read: true }))`. */
  function MarkAllRead(ns: seq<Notification>): (r: seq<Notification>)
    ensures |r| == |ns|
    ensures forall i :: 0 <= i < |ns| ==> r[i] == ns[i].(read := true)
  {
    if ns == [] then [] else [ns[0].(read := true)] + MarkAllRead(ns[1..])
  }

  // ---------------------------------------------------------------------------
  // The actions as transitions

  function EntriesOf(s: AppState, kind: Kind): seq<Entry>
  {
    match kind
    case Baki => s.bakiEntries
    case Payment => s.payments
  }

  function WithEntries(s: AppState, kind: Kind, es: seq<Entry>): AppState
  {
    match kind
    case Baki => s.(bakiEntries := es)
    case Payment => s.(payments := es)
  }

  /** A confirmed credit raises the balance by its amount, a confirmed payment lowers it. */
  function Signed(kind: Kind, amount: int): int
  {
    match kind
    case Baki => amount
    case Payment => -amount
  }

  /** The profile name `login` and `switchRole` give each role. */
  function DemoName(role: Role): string
  {
    if role == DokandarRole then DemoShopName else DemoCustomerName
  }

  /** `login(phone, password)`: the password is not looked at. */
  function Login(s: AppState, phone: string): AppState
  {
    var s1 := s.(isAuthenticated := true,
                 userProfile := Some(UserProfile("u1", DemoName(s.currentRole), phone, s.currentRole)));
    if s.currentRole == DokandarRole
    then s1.(hasShop := true, shop := Some(Shop("s1", DemoShopName, phone, Some(DemoShopAddress))))
    else s1
  }

  /** `signup(phone, password, name, role)`. */
  function Signup(s: AppState, phone: string, name: string, role: Role): AppState
  {
    var s1 := s.(isAuthenticated := true, currentRole := role,
                 userProfile := Some(UserProfile("u1", name, phone, role)));
    if role == DokandarRole then s1.(hasShop := false) else s1
  }

  function Logout(s: AppState): AppState
  {
    s.(isAuthenticated := false, hasShop := false, userProfile := None, shop := None)
  }

  function SetupShop(s: AppState, name: string, phone: string, address: Option<string>): AppState
  {
    s.(shop := Some(Shop("s1", name, phone, address)), hasShop := true)
  }

  function SwitchRole(s: AppState, role: Role): AppState
  {
    if s.isAuthenticated && s.userProfile.Some?
    then s.(currentRole := role,
            userProfile := Some(s.userProfile.value.(role := role, name := DemoName(role))))
    else s.(currentRole := role)
  }

  function AddCustomer(s: AppState, phone: string, name: string, now: Time): AppState
  {
    var c := Customer(FreshId('c', s.nextId), phone, name, 0, None, now);
    s.(customers := [c] + s.customers, nextId := s.nextId + 1)
  }

  function NoteTitle(kind: Kind): string
  {
    match kind
    case Baki => "নতুন বাকি"
    case Payment => "নতুন পেমেন্ট"
  }

  function NoteMessage(kind: Kind, customerName: string, amount: int): string
  {
    match kind
    case Baki => customerName + " এর ৳" + IntString(amount) + " বাকি যোগ হয়েছে"
    case Payment => customerName + " এর ৳" + IntString(amount) + " পেমেন্ট পেন্ডিং"
  }

  function NoteKind(kind: Kind): NotificationKind
  {
    match kind
    case Baki => BakiNote
    case Payment => PaymentNote
  }

  function IdPrefix(kind: Kind): char
  {
    match kind
    case Baki => 'b'
    case Payment => 'p'
  }

  /** `addBaki(customerId, amount, description)` for kind Baki with a `BakiDetail`, and
      `addPayment(customerId, amount, method)` for kind Payment with a `PaymentDetail`:
      nothing happens for an unknown customer; otherwise a pending entry and an unread
      notification are put in front. */
  function AddEntry(s: AppState, kind: Kind, customerId: Id, amount: int, detail: Detail, now: Time): AppState
  {
    match FindCustomer(s.customers, customerId)
    case None => s
    case Some(c) =>
      var e := Entry(FreshId(IdPrefix(kind), s.nextId), customerId, c.name, amount, detail,
                     Pending, now, None, None, None);
      var n := Notification(FreshId('n', s.nextId), NoteTitle(kind), NoteMessage(kind, c.name, amount),
                            NoteKind(kind), false, now);
      WithEntries(s, kind, [e] + EntriesOf(s, kind)).(
        notifications := [n] + s.notifications, nextId := s.nextId + 1)
  }

  /** `confirmBaki(id)` / `confirmPayment(id)`: every entry with the id becomes confirmed, and
      the amount of the first such entry (as it was before) is added to, or taken from, the
      customers with its customer id. There is no check that the entry is still pending. */
  function Confirm(s: AppState, kind: Kind, id: Id, now: Time): AppState
  {
    var es := EntriesOf(s, kind);
    var s1 := WithEntries(s, kind, MarkConfirmed(es, id, now));
    match FindEntry(es, id)
    case None => s1
    case Some(e) => s1.(customers := AdjustBalance(s.customers, e.customerId, Signed(kind, e.amount), now))
  }

  /** `Confirm` when no entry has the id: only the (unchanged) list is written back. */
  lemma ConfirmUnknown(s: AppState, kind: Kind, id: Id, now: Time)
    requires FindEntry(EntriesOf(s, kind), id).None?
    ensures Confirm(s, kind, id, now) == WithEntries(s, kind, MarkConfirmed(EntriesOf(s, kind), id, now))
  {
  }

  /** `Confirm` when `e` is the first entry with the id. */
  lemma ConfirmKnown(s: AppState, kind: Kind, id: Id, now: Time, e: Entry)
    requires FindEntry(EntriesOf(s, kind), id) == Some(e)
    ensures Confirm(s, kind, id, now)
      == WithEntries(s, kind, MarkConfirmed(EntriesOf(s, kind), id, now)).(
           customers := AdjustBalance(s.customers, e.customerId, Signed(kind, e.amount), now))
  {
  }

  /** `rejectBaki(id)` / `rejectPayment(id)`: no pending check and no balance change. */
  function Reject(s: AppState, kind: Kind, id: Id): AppState
  {
    WithEntries(s, kind, MarkRejected(EntriesOf(s, kind), id))
  }

  function MarkNotificationRead(s: AppState, id: Id): AppState
  {
    s.(notifications := MarkRead(s.notifications, id))
  }

  function ClearAllNotifications(s: AppState): AppState
  {
    s.(notifications := MarkAllRead(s.notifications))
  }

  function Subscribe(s: AppState): AppState
  {
    s.(isSubscribed := true)
  }

  // ---------------------------------------------------------------------------
  // The store's invariant

  predicate DistinctCustomerIds(cs: seq<Customer>)
  {
    forall i, j :: 0 <= i < j < |cs| ==> cs[i].id != cs[j].id
  }

  predicate DistinctEntryIds(es: seq<Entry>)
  {
    forall i, j :: 0 <= i < j < |es| ==> es[i].id != es[j].id
  }

  predicate HasCustomer(cs: seq<Customer>, id: Id)
  {
    exists i :: 0 <= i < |cs| && cs[i].id == id
  }

  predicate CustomersOk(cs: seq<Customer>, n: nat)
  {
    DistinctCustomerIds(cs) && forall i :: 0 <= i < |cs| ==> SerialBelow(cs[i].id, n)
  }

  /** One entry list: distinct ids below the counter, entries of the list's own kind, and
      every customer id known. */
  predicate EntryListOk(es: seq<Entry>, cs: seq<Customer>, n: nat, isBaki: bool)
  {
    && DistinctEntryIds(es)
    && (forall i :: 0 <= i < |es| ==> es[i].detail.BakiDetail? == isBaki)
    && (forall i :: 0 <= i < |es| ==> SerialBelow(es[i].id, n))
    && (forall i :: 0 <= i < |es| ==> HasCustomer(cs, es[i].customerId))
  }

  /** What the actions keep true: ids are distinct within each list and below the id counter,
      each list holds its own kind of entry, every entry names an existing customer. */
  predicate WellFormed(s: AppState)
  {
    && CustomersOk(s.customers, s.nextId)
    && EntryListOk(s.bakiEntries, s.customers, s.nextId, true)
    && EntryListOk(s.payments, s.customers, s.nextId, false)
  }

  // ---------------------------------------------------------------------------
  // Balances against confirmed entries

  /** The sum of the amounts of confirmed entries of one customer. */
  function ConfirmedAmount(es: seq<Entry>, customerId: Id): int
  {
    if es == [] then 0 else ConfirmedPart(es[0], customerId) + ConfirmedAmount(es[1..], customerId)
  }

  function ConfirmedPart(e: Entry, customerId: Id): int
  {
    if e.status == Confirmed && e.customerId == customerId then e.amount else 0
  }

  /** How far a customer's stored balance is from "confirmed credits minus confirmed payments". */
  function Drift(s: AppState, c: Customer): int
  {
    c.balance - (ConfirmedAmount(s.bakiEntries, c.id) - ConfirmedAmount(s.payments, c.id))
  }

  /** Every customer's balance equals confirmed credits minus confirmed payments. */
  predicate Reconciled(s: AppState)
  {
    forall i :: 0 <= i < |s.customers| ==> Drift(s, s.customers[i]) == 0
  }

  lemma {:induction false} MarkConfirmedAbsent(es: seq<Entry>, id: Id, now: Time)
    requires forall i :: 0 <= i < |es| ==> es[i].id != id
    ensures MarkConfirmed(es, id, now) == es
  {
  }

  lemma {:induction false} MarkRejectedAbsent(es: seq<Entry>, id: Id)
    requires forall i :: 0 <= i < |es| ==> es[i].id != id
    ensures MarkRejected(es, id) == es
  {
  }

  /** `find` on a non-empty list looks at the head first. */
  lemma FindEntryCons(es: seq<Entry>, id: Id)
    requires es != []
    ensures FindEntry(es, id) == if es[0].id == id then Some(es[0]) else FindEntry(es[1..], id)
  {
  }

  lemma DistinctTail(es: seq<Entry>)
    requires es != [] && DistinctEntryIds(es)
    ensures DistinctEntryIds(es[1..])
    ensures forall i :: 0 <= i < |es[1..]| ==> es[1..][i].id != es[0].id
  {
    forall i, j | 0 <= i < j < |es[1..]| ensures es[1..][i].id != es[1..][j].id {
      assert es[1..][i] == es[i + 1] && es[1..][j] == es[j + 1];
    }
    forall i | 0 <= i < |es[1..]| ensures es[1..][i].id != es[0].id {
      assert es[1..][i] == es[i + 1];
    }
  }

  /** Confirming by a (unique) id adds the entry's amount to its customer's confirmed sum,
      unless the entry was already confirmed. */
  lemma {:induction false} ConfirmedAmountAfterConfirm(es: seq<Entry>, id: Id, now: Time, k: Id)
    requires DistinctEntryIds(es) && FindEntry(es, id).Some?
    ensures var e := FindEntry(es, id).value;
      ConfirmedAmount(MarkConfirmed(es, id, now), k)
        == ConfirmedAmount(es, k) + (if e.status != Confirmed && e.customerId == k then e.amount else 0)
  {
    var m := MarkConfirmed(es, id, now);
    assert m == [ConfirmOne(es[0], id, now)] + MarkConfirmed(es[1..], id, now);
    assert m[1..] == MarkConfirmed(es[1..], id, now);
    FindEntryCons(es, id);
    DistinctTail(es);
    if es[0].id == id {
      MarkConfirmedAbsent(es[1..], id, now);
    } else {
      ConfirmedAmountAfterConfirm(es[1..], id, now, k);
    }
  }

  /** Rejecting by a (unique) id takes the entry's amount out of its customer's confirmed sum
      if, and only if, it was confirmed. */
  lemma {:induction false} ConfirmedAmountAfterReject(es: seq<Entry>, id: Id, k: Id)
    requires DistinctEntryIds(es) && FindEntry(es, id).Some?
    ensures var e := FindEntry(es, id).value;
      ConfirmedAmount(MarkRejected(es, id), k)
        == ConfirmedAmount(es, k) - (if e.status == Confirmed && e.customerId == k then e.amount else 0)
  {
    var m := MarkRejected(es, id);
    assert m == [RejectOne(es[0], id)] + MarkRejected(es[1..], id);
    assert m[1..] == MarkRejected(es[1..], id);
    FindEntryCons(es, id);
    DistinctTail(es);
    if es[0].id == id {
      MarkRejectedAbsent(es[1..], id);
    } else {
      ConfirmedAmountAfterReject(es[1..], id, k);
    }
  }

  /** The effect of a confirm on each customer's drift. In terms of the source: confirming a
      pending (or rejected) entry keeps every balance consistent with the confirmed entries,
      while confirming an entry that is already confirmed applies its amount a second time. */
  lemma ConfirmDrift(s: AppState, kind: Kind, id: Id, now: Time, i: nat)
    requires DistinctEntryIds(EntriesOf(s, kind)) && FindEntry(EntriesOf(s, kind), id).Some?
    requires i < |s.customers|
    ensures var t := Confirm(s, kind, id, now); var e := FindEntry(EntriesOf(s, kind), id).value;
      |t.customers| == |s.customers| && t.customers[i].id == s.customers[i].id
      && Drift(t, t.customers[i]) == Drift(s, s.customers[i])
           + (if e.status == Confirmed && e.customerId == s.customers[i].id then Signed(kind, e.amount) else 0)
  {
    var es := EntriesOf(s, kind);
    var k := s.customers[i].id;
    ConfirmedAmountAfterConfirm(es, id, now, k);
  }

  /** The effect of a reject on each customer's drift: rejecting a confirmed entry leaves the
      balance where the confirm put it, so the drift moves by the entry's amount. */
  lemma RejectDrift(s: AppState, kind: Kind, id: Id, i: nat)
    requires DistinctEntryIds(EntriesOf(s, kind)) && FindEntry(EntriesOf(s, kind), id).Some?
    requires i < |s.customers|
    ensures var t := Reject(s, kind, id); var e := FindEntry(EntriesOf(s, kind), id).value;
      t.customers == s.customers
      && Drift(t, t.customers[i]) == Drift(s, s.customers[i])
           + (if e.status == Confirmed && e.customerId == s.customers[i].id then Signed(kind, e.amount) else 0)
  {
    var es := EntriesOf(s, kind);
    var k := s.customers[i].id;
    ConfirmedAmountAfterReject(es, id, k);
  }

  /** Confirm or reject with an id that no entry has changes nothing at all. */
  lemma UnknownIdChangesNothing(s: AppState, kind: Kind, id: Id, now: Time)
    requires FindEntry(EntriesOf(s, kind), id).None?
    ensures Confirm(s, kind, id, now) == s && Reject(s, kind, id) == s
  {
    MarkConfirmedAbsent(EntriesOf(s, kind), id, now);
    MarkRejectedAbsent(EntriesOf(s, kind), id);
  }

  /** Resolving pending entries keeps a reconciled store reconciled. */
  lemma ResolvePendingKeepsReconciled(s: AppState, kind: Kind, id: Id, now: Time)
    requires WellFormed(s) && Reconciled(s)
    requires FindEntry(EntriesOf(s, kind), id).Some? && FindEntry(EntriesOf(s, kind), id).value.status == Pending
    ensures Reconciled(Confirm(s, kind, id, now)) && Reconciled(Reject(s, kind, id))
  {
    var t := Confirm(s, kind, id, now);
    forall i | 0 <= i < |t.customers| ensures Drift(t, t.customers[i]) == 0 {
      ConfirmDrift(s, kind, id, now, i);
    }
    var u := Reject(s, kind, id);
    forall i | 0 <= i < |u.customers| ensures Drift(u, u.customers[i]) == 0 {
      RejectDrift(s, kind, id, i);
    }
  }

  /** The missing pending guard: confirming an already confirmed entry with a non-zero amount
      breaks a reconciled store, because its customer is credited (or debited) twice. */
  lemma DoubleConfirmBreaksReconciled(s: AppState, kind: Kind, id: Id, now: Time)
    requires WellFormed(s) && Reconciled(s)
    requires FindEntry(EntriesOf(s, kind), id).Some?
    requires FindEntry(EntriesOf(s, kind), id).value.status == Confirmed
    requires FindEntry(EntriesOf(s, kind), id).value.amount != 0
    ensures !Reconciled(Confirm(s, kind, id, now))
  {
    var i := EntryCustomer(s, kind, id);
    ConfirmDrift(s, kind, id, now, i);
  }

  /** The same gap on the reject side: rejecting a confirmed entry with a non-zero amount
      leaves its balance change in place and so breaks a reconciled store. */
  lemma RejectConfirmedBreaksReconciled(s: AppState, kind: Kind, id: Id)
    requires WellFormed(s) && Reconciled(s)
    requires FindEntry(EntriesOf(s, kind), id).Some?
    requires FindEntry(EntriesOf(s, kind), id).value.status == Confirmed
    requires FindEntry(EntriesOf(s, kind), id).value.amount != 0
    ensures !Reconciled(Reject(s, kind, id))
  {
    var i := EntryCustomer(s, kind, id);
    RejectDrift(s, kind, id, i);
  }

  /** In a well-formed store, the customer an entry names is at some position. */
  lemma EntryCustomer(s: AppState, kind: Kind, id: Id) returns (i: nat)
    requires WellFormed(s) && FindEntry(EntriesOf(s, kind), id).Some?
    ensures i < |s.customers| && s.customers[i].id == FindEntry(EntriesOf(s, kind), id).value.customerId
  {
    var es := EntriesOf(s, kind);
    var e := FindEntry(es, id).value;
    assert EntryListOk(es, s.customers, s.nextId, kind == Baki);
    var j :| 0 <= j < |es| && es[j] == e;
    assert HasCustomer(s.customers, es[j].customerId);
    i :| 0 <= i < |s.customers| && s.customers[i].id == e.customerId;
  }

  lemma {:induction false} ConfirmedAmountPrependPending(e: Entry, es: seq<Entry>, k: Id)
    requires e.status == Pending
    ensures ConfirmedAmount([e] + es, k) == ConfirmedAmount(es, k)
  {
    assert ([e] + es)[1..] == es;
  }

  /** `addBaki` / `addPayment`: an unknown customer id changes nothing; a known one puts
      exactly one pending entry (with the given customer, amount and detail, and the customer's
      name) in front of its list and one unread notification of the matching type in front of
      the notifications, and changes no customer and no drift. */
  lemma AddEntryEffect(s: AppState, kind: Kind, customerId: Id, amount: int, detail: Detail, now: Time)
    ensures var t := AddEntry(s, kind, customerId, amount, detail, now);
      && (FindCustomer(s.customers, customerId).None? ==> t == s)
      && (FindCustomer(s.customers, customerId).Some? ==>
           var c := FindCustomer(s.customers, customerId).value;
           var es := EntriesOf(t, kind);
           && t.customers == s.customers
           && EntriesOf(t, if kind == Baki then Payment else Baki) == EntriesOf(s, if kind == Baki then Payment else Baki)
           && |es| == |EntriesOf(s, kind)| + 1 && es[1..] == EntriesOf(s, kind)
           && es[0].status == Pending && es[0].customerId == customerId && es[0].amount == amount
           && es[0].detail == detail && es[0].customerName == c.name && es[0].confirmedAt.None?
           && |t.notifications| == |s.notifications| + 1 && t.notifications[1..] == s.notifications
           && !t.notifications[0].read && t.notifications[0].kind == NoteKind(kind)
           && forall i :: 0 <= i < |t.customers| ==> Drift(t, t.customers[i]) == Drift(s, s.customers[i]))
  {
    var t := AddEntry(s, kind, customerId, amount, detail, now);
    if FindCustomer(s.customers, customerId).Some? {
      var es := EntriesOf(t, kind);
      forall i | 0 <= i < |t.customers| ensures Drift(t, t.customers[i]) == Drift(s, s.customers[i]) {
        ConfirmedAmountPrependPending(es[0], EntriesOf(s, kind), s.customers[i].id);
        assert es == [es[0]] + EntriesOf(s, kind);
      }
    }
  }

  /** `addCustomer` puts one customer with balance 0 in front and keeps every other customer. */
  lemma AddCustomerEffect(s: AppState, phone: string, name: string, now: Time)
    requires WellFormed(s)
    ensures var t := AddCustomer(s, phone, name, now);
      && |t.customers| == |s.customers| + 1 && t.customers[1..] == s.customers
      && t.customers[0].balance == 0 && t.customers[0].phone == phone && t.customers[0].name == name
      && t.bakiEntries == s.bakiEntries && t.payments == s.payments
      && FindCustomer(s.customers, t.customers[0].id).None?
  {
    var t := AddCustomer(s, phone, name, now);
    forall i | 0 <= i < |s.customers| ensures s.customers[i].id != t.customers[0].id {
      FreshIdIsNew('c', s.nextId, s.customers[i].id);
    }
  }

  /** mark-as-read touches only the notifications with that id; clearing all marks every one
      read, keeps length and order, and is idempotent. */
  lemma NotificationEffects(s: AppState, id: Id)
    ensures var t := MarkNotificationRead(s, id);
      |t.notifications| == |s.notifications|
      && forall i :: 0 <= i < |s.notifications| ==>
           t.notifications[i].read == (s.notifications[i].read || s.notifications[i].id == id)
           && t.notifications[i].(read := s.notifications[i].read) == s.notifications[i]
    ensures var u := ClearAllNotifications(s);
      |u.notifications| == |s.notifications|
      && (forall i :: 0 <= i < |s.notifications| ==>
           u.notifications[i].read && u.notifications[i].(read := s.notifications[i].read) == s.notifications[i])
      && ClearAllNotifications(u) == u
  {
    var u := ClearAllNotifications(s);
    assert MarkAllRead(u.notifications) == u.notifications;
  }

  /** Session transitions: what login, signup, logout and shop setup promise, and that none of
      them touches customers, entries or notifications. */
  lemma SessionEffects(s: AppState, phone: string, name: string, role: Role, shopName: string, address: Option<string>)
    ensures var t := Logout(s);
      !t.isAuthenticated && !t.hasShop && t.userProfile.None? && t.shop.None?
      && t.customers == s.customers && t.bakiEntries == s.bakiEntries && t.payments == s.payments
      && t.notifications == s.notifications
    ensures var t := Login(s, phone);
      t.isAuthenticated && t.userProfile.Some? && t.userProfile.value.role == s.currentRole
      && t.userProfile.value.phone == phone
      && (s.currentRole == DokandarRole ==> t.hasShop && t.shop.Some? && t.shop.value.phone == phone)
      && (s.currentRole == CustomerRole ==> t.hasShop == s.hasShop && t.shop == s.shop)
      && t.customers == s.customers && t.bakiEntries == s.bakiEntries && t.payments == s.payments
    ensures var t := Signup(s, phone, name, role);
      t.isAuthenticated && t.currentRole == role
      && t.userProfile == Some(UserProfile("u1", name, phone, role))
      && (role == DokandarRole ==> !t.hasShop) && (role == CustomerRole ==> t.hasShop == s.hasShop)
      && t.shop == s.shop && t.customers == s.customers
    ensures var t := SetupShop(s, shopName, phone, address);
      t.hasShop && t.shop == Some(Shop("s1", shopName, phone, address))
      && t.isAuthenticated == s.isAuthenticated && t.userProfile == s.userProfile
      && t.customers == s.customers
  {
  }

  // ---------------------------------------------------------------------------
  // The invariant is kept by every action

  lemma FindCustomerHas(cs: seq<Customer>, id: Id)
    ensures FindCustomer(cs, id).Some? <==> HasCustomer(cs, id)
  {
  }

  /** An entry list stays well formed when customers keep their ids and the counter grows. */
  lemma EntryListOkWiden(es: seq<Entry>, cs: seq<Customer>, cs': seq<Customer>, n: nat, n': nat, isBaki: bool)
    requires EntryListOk(es, cs, n, isBaki) && n <= n'
    requires |cs'| >= |cs| && forall i :: 0 <= i < |cs| ==> cs'[i + (|cs'| - |cs|)].id == cs[i].id
    ensures EntryListOk(es, cs', n', isBaki)
  {
    forall i | 0 <= i < |es| ensures HasCustomer(cs', es[i].customerId) {
      var j :| 0 <= j < |cs| && cs[j].id == es[i].customerId;
      assert cs'[j + (|cs'| - |cs|)].id == es[i].customerId;
    }
  }

  /** Customers with the same ids in the same places leave an entry list well formed. */
  lemma EntryListOkSameIds(es: seq<Entry>, cs: seq<Customer>, cs': seq<Customer>, n: nat, isBaki: bool)
    requires EntryListOk(es, cs, n, isBaki)
    requires |cs'| == |cs| && forall i :: 0 <= i < |cs| ==> cs'[i].id == cs[i].id
    ensures EntryListOk(es, cs', n, isBaki)
  {
    forall i | 0 <= i < |es| ensures HasCustomer(cs', es[i].customerId) {
      var j :| 0 <= j < |cs| && cs[j].id == es[i].customerId;
      assert cs'[j].id == es[i].customerId;
    }
  }

  lemma MarkConfirmedOk(es: seq<Entry>, cs: seq<Customer>, n: nat, isBaki: bool, id: Id, now: Time)
    requires EntryListOk(es, cs, n, isBaki)
    ensures EntryListOk(MarkConfirmed(es, id, now), cs, n, isBaki)
  {
    var m := MarkConfirmed(es, id, now);
    assert forall i :: 0 <= i < |es| ==>
      m[i].id == es[i].id && m[i].customerId == es[i].customerId && m[i].detail == es[i].detail;
  }

  lemma MarkRejectedOk(es: seq<Entry>, cs: seq<Customer>, n: nat, isBaki: bool, id: Id)
    requires EntryListOk(es, cs, n, isBaki)
    ensures EntryListOk(MarkRejected(es, id), cs, n, isBaki)
  {
    var m := MarkRejected(es, id);
    assert forall i :: 0 <= i < |es| ==>
      m[i].id == es[i].id && m[i].customerId == es[i].customerId && m[i].detail == es[i].detail;
  }

  /** Putting an entry with a fresh id in front keeps the list well formed. */
  lemma PrependFreshEntryOk(
    e: Entry, es: seq<Entry>, cs: seq<Customer>, n: nat, isBaki: bool, prefix: char)
    requires EntryListOk(es, cs, n, isBaki)
    requires e.id == FreshId(prefix, n) && e.detail.BakiDetail? == isBaki && HasCustomer(cs, e.customerId)
    ensures EntryListOk([e] + es, cs, n + 1, isBaki)
  {
    var t := [e] + es;
    FreshIdSerial(prefix, n);
    forall i | 0 <= i < |es| ensures es[i].id != e.id {
      FreshIdIsNew(prefix, n, es[i].id);
    }
    forall i, j | 0 <= i < j < |t| ensures t[i].id != t[j].id {
      assert t[j] == es[j - 1];
      if i > 0 {
        assert t[i] == es[i - 1];
      }
    }
    forall i | 0 <= i < |t|
      ensures SerialBelow(t[i].id, n + 1) && t[i].detail.BakiDetail? == isBaki && HasCustomer(cs, t[i].customerId)
    {
      if i > 0 {
        assert t[i] == es[i - 1];
      }
    }
  }

  lemma PrependFreshCustomerOk(c: Customer, cs: seq<Customer>, n: nat)
    requires CustomersOk(cs, n) && c.id == FreshId('c', n)
    ensures CustomersOk([c] + cs, n + 1)
  {
    var t := [c] + cs;
    FreshIdSerial('c', n);
    forall i | 0 <= i < |cs| ensures cs[i].id != c.id {
      FreshIdIsNew('c', n, cs[i].id);
    }
    forall i, j | 0 <= i < j < |t| ensures t[i].id != t[j].id {
      assert t[j] == cs[j - 1];
      if i > 0 {
        assert t[i] == cs[i - 1];
      }
    }
    forall i | 0 <= i < |t| ensures SerialBelow(t[i].id, n + 1) {
      if i > 0 {
        assert t[i] == cs[i - 1];
      }
    }
  }

  lemma AddCustomerKeepsWellFormed(s: AppState, phone: string, name: string, now: Time)
    requires WellFormed(s)
    ensures WellFormed(AddCustomer(s, phone, name, now))
  {
    var c := Customer(FreshId('c', s.nextId), phone, name, 0, None, now);
    var cs := [c] + s.customers;
    PrependFreshCustomerOk(c, s.customers, s.nextId);
    assert forall i :: 0 <= i < |s.customers| ==> cs[i + 1] == s.customers[i];
    EntryListOkWiden(s.bakiEntries, s.customers, cs, s.nextId, s.nextId + 1, true);
    EntryListOkWiden(s.payments, s.customers, cs, s.nextId, s.nextId + 1, false);
    assert AddCustomer(s, phone, name, now) == s.(customers := cs, nextId := s.nextId + 1);
  }

  lemma AddEntryKeepsWellFormed(s: AppState, kind: Kind, customerId: Id, amount: int, detail: Detail, now: Time)
    requires WellFormed(s) && detail.BakiDetail? == (kind == Baki)
    ensures WellFormed(AddEntry(s, kind, customerId, amount, detail, now))
  {
    match kind
    case Baki => AddBakiKeepsWellFormed(s, customerId, amount, detail, now);
    case Payment => AddPaymentKeepsWellFormed(s, customerId, amount, detail, now);
  }

  lemma AddBakiKeepsWellFormed(s: AppState, customerId: Id, amount: int, detail: Detail, now: Time)
    requires WellFormed(s) && detail.BakiDetail? == true
    ensures WellFormed(AddEntry(s, Baki, customerId, amount, detail, now))
  {
    var t := AddEntry(s, Baki, customerId, amount, detail, now);
    var found := FindCustomer(s.customers, customerId);
    if found.Some? {
      FindCustomerHas(s.customers, customerId);
      var cs, n := s.customers, s.nextId;
      var e := Entry(FreshId('b', n), customerId, found.value.name, amount, detail,
                     Pending, now, None, None, None);
      var es := [e] + s.bakiEntries;
      assert t.bakiEntries == es && t.payments == s.payments && t.customers == cs && t.nextId == n + 1;
      CustomersOkWiden(cs, n, n + 1);
      PrependFreshEntryOk(e, s.bakiEntries, cs, n, true, 'b');
      EntryListOkWiden(s.payments, cs, cs, n, n + 1, false);
      WellFormedOfParts(t, cs, es, s.payments, n + 1);
    }
  }

  lemma AddPaymentKeepsWellFormed(s: AppState, customerId: Id, amount: int, detail: Detail, now: Time)
    requires WellFormed(s) && detail.BakiDetail? == false
    ensures WellFormed(AddEntry(s, Payment, customerId, amount, detail, now))
  {
    var t := AddEntry(s, Payment, customerId, amount, detail, now);
    var found := FindCustomer(s.customers, customerId);
    if found.Some? {
      FindCustomerHas(s.customers, customerId);
      var cs, n := s.customers, s.nextId;
      var e := Entry(FreshId('p', n), customerId, found.value.name, amount, detail,
                     Pending, now, None, None, None);
      var es := [e] + s.payments;
      assert t.payments == es && t.bakiEntries == s.bakiEntries && t.customers == cs && t.nextId == n + 1;
      CustomersOkWiden(cs, n, n + 1);
      PrependFreshEntryOk(e, s.payments, cs, n, false, 'p');
      EntryListOkWiden(s.bakiEntries, cs, cs, n, n + 1, true);
      WellFormedOfParts(t, cs, s.bakiEntries, es, n + 1);
    }
  }

  lemma ConfirmKeepsWellFormed(s: AppState, kind: Kind, id: Id, now: Time)
    requires WellFormed(s)
    ensures WellFormed(Confirm(s, kind, id, now))
  {
    match kind
    case Baki => ConfirmBakiKeepsWellFormed(s, id, now);
    case Payment => ConfirmPaymentKeepsWellFormed(s, id, now);
  }

  lemma ConfirmBakiKeepsWellFormed(s: AppState, id: Id, now: Time)
    requires WellFormed(s)
    ensures WellFormed(Confirm(s, Baki, id, now))
  {
    var t := Confirm(s, Baki, id, now);
    var cs, n := s.customers, s.nextId;
    AdjustedCustomersOk(s, Baki, id, now);
    var cs' := t.customers;
    var marked := MarkConfirmed(s.bakiEntries, id, now);
    assert t.bakiEntries == marked && t.payments == s.payments && t.nextId == n;
    MarkConfirmedOk(s.bakiEntries, cs, n, true, id, now);
    EntryListOkSameIds(marked, cs, cs', n, true);
    EntryListOkSameIds(s.payments, cs, cs', n, false);
    WellFormedOfParts(t, cs', marked, s.payments, n);
  }

  lemma ConfirmPaymentKeepsWellFormed(s: AppState, id: Id, now: Time)
    requires WellFormed(s)
    ensures WellFormed(Confirm(s, Payment, id, now))
  {
    var t := Confirm(s, Payment, id, now);
    var cs, n := s.customers, s.nextId;
    AdjustedCustomersOk(s, Payment, id, now);
    var cs' := t.customers;
    var marked := MarkConfirmed(s.payments, id, now);
    assert t.payments == marked && t.bakiEntries == s.bakiEntries && t.nextId == n;
    MarkConfirmedOk(s.payments, cs, n, false, id, now);
    EntryListOkSameIds(marked, cs, cs', n, false);
    EntryListOkSameIds(s.bakiEntries, cs, cs', n, true);
    WellFormedOfParts(t, cs', s.bakiEntries, marked, n);
  }

  lemma CustomersOkWiden(cs: seq<Customer>, n: nat, n': nat)
    requires CustomersOk(cs, n) && n <= n'
    ensures CustomersOk(cs, n')
  {
  }

  /** The invariant of a state whose parts are known to satisfy it. */
  lemma WellFormedOfParts(t: AppState, cs: seq<Customer>, baki: seq<Entry>, payments: seq<Entry>, n: nat)
    requires t.customers == cs && t.bakiEntries == baki && t.payments == payments && t.nextId == n
    requires CustomersOk(cs, n) && EntryListOk(baki, cs, n, true) && EntryListOk(payments, cs, n, false)
    ensures WellFormed(t)
  {
  }

  lemma AdjustedCustomersOk(s: AppState, kind: Kind, id: Id, now: Time)
    requires CustomersOk(s.customers, s.nextId)
    ensures var t := Confirm(s, kind, id, now);
      && t.nextId == s.nextId && CustomersOk(t.customers, s.nextId) && |t.customers| == |s.customers|
      && forall i :: 0 <= i < |s.customers| ==> t.customers[i].id == s.customers[i].id
  {
    match FindEntry(EntriesOf(s, kind), id)
    case None =>
    case Some(e) => AdjustBalanceOk(s.customers, e.customerId, Signed(kind, e.amount), now, s.nextId);
  }

  lemma AdjustBalanceOk(cs: seq<Customer>, customerId: Id, delta: int, now: Time, n: nat)
    requires CustomersOk(cs, n)
    ensures var r := AdjustBalance(cs, customerId, delta, now);
      CustomersOk(r, n) && forall i :: 0 <= i < |cs| ==> r[i].id == cs[i].id
  {
    var r := AdjustBalance(cs, customerId, delta, now);
    assert forall i :: 0 <= i < |cs| ==> r[i].id == cs[i].id;
  }

  lemma RejectKeepsWellFormed(s: AppState, kind: Kind, id: Id)
    requires WellFormed(s)
    ensures WellFormed(Reject(s, kind, id))
  {
    match kind
    case Baki => MarkRejectedOk(s.bakiEntries, s.customers, s.nextId, true, id);
    case Payment => MarkRejectedOk(s.payments, s.customers, s.nextId, false, id);
  }

  // ---------------------------------------------------------------------------
  // The demo data the store starts with

  const MsPerDay: int := 86_400_000

  /** Midnight (UTC) of a day counted from the epoch. */
  function Day(d: int): Time
  {
    d * MsPerDay
  }

  function SeedCustomers(): seq<Customer>
  {
    [ Customer("c1", "01712345678", "আব্দুল করিম", 2500, Some(Day(20467)), Day(20393)),
      Customer("c2", "01812345678", "মোহাম্মদ হাসান", 1800, Some(Day(20466)), Day(20397)),
      Customer("c3", "01912345678", "ফাতেমা বেগম", 3200, Some(Day(20465)), Day(20402)),
      Customer("c4", "01612345678", "রহিম উদ্দিন", 950, Some(Day(20464)), Day(20423)),
      Customer("c5", "01512345678", "সালমা খাতুন", 4100, Some(Day(20463)), Day(20437)) ]
  }

  function SeedBaki(): seq<Entry>
  {
    [ Entry("b1", "c1", "আব্দুল করিম", 500, BakiDetail(Some("চাল ৫ কেজি")), Pending, Day(20468), None, None, None),
      Entry("b2", "c2", "মোহাম্মদ হাসান", 300, BakiDetail(Some("তেল ২ লিটার")), Confirmed, Day(20467), Some(Day(20467)), None, None),
      Entry("b3", "c3", "ফাতেমা বেগম", 1200, BakiDetail(Some("মাসিক বাজার")), Pending, Day(20466), None, None, None),
      Entry("b4", "c1", "আব্দুল করিম", 800, BakiDetail(Some("চিনি, ডাল")), Confirmed, Day(20465), Some(Day(20465)), None, None),
      Entry("b5", "c4", "রহিম উদ্দিন", 450, BakiDetail(Some("দুধ, ডিম")), Rejected, Day(20464), None, None, None) ]
  }

  function SeedPayments(): seq<Entry>
  {
    [ Entry("p1", "c2", "মোহাম্মদ হাসান", 1000, PaymentDetail(Bkash), Pending, Day(20468), None, None, None),
      Entry("p2", "c3", "ফাতেমা বেগম", 500, PaymentDetail(Cash), Confirmed, Day(20467), Some(Day(20467)), None, None),
      Entry("p3", "c1", "আব্দুল করিম", 800, PaymentDetail(Nagad), Confirmed, Day(20466), Some(Day(20466)), None, None) ]
  }

  function SeedNotifications(): seq<Notification>
  {
    [ Notification("n1", "নতুন বাকি", "আব্দুল করিম এর ৳৫০০ বাকি পেন্ডিং", BakiNote, false, Day(20468)),
      Notification("n2", "পেমেন্ট পেন্ডিং", "মোহাম্মদ হাসান ৳১০০০ পেমেন্ট করেছে", PaymentNote, false, Day(20468)),
      Notification("n3", "বাকি নিশ্চিত", "মোহাম্মদ হাসান এর ৳৩০০ বাকি নিশ্চিত হয়েছে", BakiNote, true, Day(20467)) ]
  }

  /** The state `AppProvider` starts in: signed out, demo role "dokandar", the demo data. */
  function InitialState(): AppState
  {
    AppState(false, false, None, None, DokandarRole,
             SeedCustomers(), SeedBaki(), SeedPayments(), SeedNotifications(), false, 6)
  }

  lemma SmallSerial(id: Id)
    requires |id| == 2 && '0' <= id[1] <= '5'
    ensures SerialBelow(id, 6)
  {
    assert id[1..] == [id[1]];
  }

  lemma SeedCustomersOk()
    ensures CustomersOk(SeedCustomers(), 6)
  {
    var cs := SeedCustomers();
    forall i | 0 <= i < |cs| ensures SerialBelow(cs[i].id, 6) {
      SmallSerial(cs[i].id);
    }
  }

  /** The demo credits: ids "b1".."b5", all naming demo customers. */
  lemma SeedBakiOk()
    ensures EntryListOk(SeedBaki(), SeedCustomers(), 6, true)
  {
    var es, cs := SeedBaki(), SeedCustomers();
    assert cs[0].id == "c1" && cs[1].id == "c2" && cs[2].id == "c3" && cs[3].id == "c4";
    forall i | 0 <= i < |es|
      ensures SerialBelow(es[i].id, 6) && HasCustomer(cs, es[i].customerId)
              && es[i].id[1..] == NatString(i + 1) && es[i].detail.BakiDetail? == true
    {
      SmallSerial(es[i].id);
    }
    forall i, j | 0 <= i < j < |es| ensures es[i].id != es[j].id {
      if es[i].id == es[j].id {
        NatStringInjective(i + 1, j + 1);
      }
    }
  }

  /** The demo payments: ids "p1".."p3", all naming demo customers. */
  lemma SeedPaymentsOk()
    ensures EntryListOk(SeedPayments(), SeedCustomers(), 6, false)
  {
    var es, cs := SeedPayments(), SeedCustomers();
    assert cs[0].id == "c1" && cs[1].id == "c2" && cs[2].id == "c3" && cs[3].id == "c4";
    forall i | 0 <= i < |es|
      ensures SerialBelow(es[i].id, 6) && HasCustomer(cs, es[i].customerId)
              && es[i].id[1..] == NatString(i + 1) && es[i].detail.BakiDetail? == false
    {
      SmallSerial(es[i].id);
    }
    forall i, j | 0 <= i < j < |es| ensures es[i].id != es[j].id {
      if es[i].id == es[j].id {
        NatStringInjective(i + 1, j + 1);
      }
    }
  }

  lemma InitialStateWellFormed()
    ensures WellFormed(InitialState())
  {
    SeedCustomersOk();
    SeedBakiOk();
    SeedPaymentsOk();
  }

  /** The demo data is not reconciled: customer c1 has balance 2500 while its confirmed
      credits (800) minus confirmed payments (800) come to 0. */
  lemma InitialStateNotReconciled()
    ensures Drift(InitialState(), InitialState().customers[0]) == 2500
    ensures !Reconciled(InitialState())
  {
    var s := InitialState();
    assert ConfirmedAmount(s.bakiEntries, "c1") == 800;
    assert ConfirmedAmount(s.payments, "c1") == 800;
  }
}
