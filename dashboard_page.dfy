/** `src/app/dashboard/page.tsx`: the shop owner's dashboard. It shows the balance card,
    two tabs (customers, recent activity) with their counts, and three add handlers that
    hand their arguments to the store. */
module DashboardPage {
  import opened Util
  import opened LedgerData
  import opened StoreTotals
  import LedgerPage
  import CustomerList
  import RecentActivity
  import AppContext

  datatype Tab = CustomersTab | ActivityTab

  /** The numbers on the balance card and the two tab labels. */
  datatype Overview = Overview(
    totalDue: int, totalCustomers: nat, pendingEntries: nat,
    customersTabCount: nat, activityTabCount: nat, showsTrialBanner: bool)

  function OverviewOf(s: AppState): Overview
  {
    Overview(TotalDue(s.customers), |s.customers|, PendingCount(s.bakiEntries, s.payments),
             |s.customers|, |s.bakiEntries| + |s.payments|, !s.isSubscribed)
  }

  datatype TabBody = CustomersBody(customers: CustomerList.View) | ActivityBody(activity: RecentActivity.View)

  function TabContent(s: AppState, tab: Tab): TabBody
  {
    if tab == CustomersTab then CustomersBody(CustomerList.Render(s.customers))
    else ActivityBody(RecentActivity.Render(s.bakiEntries, s.payments, false, false, false))
  }

  /** The card counts pending credits and payments; the activity tab counts every entry
      whatever its status, so never fewer; the customers tab counts every customer; and in a
      reconciled store the total due equals the ledger's running balance. */
  lemma OverviewSpec(s: AppState)
    ensures var o := OverviewOf(s);
      && o.pendingEntries == Count(s.bakiEntries, IsPending) + Count(s.payments, IsPending)
      && o.pendingEntries <= o.activityTabCount
      && o.customersTabCount == o.totalCustomers == |s.customers|
      && (o.showsTrialBanner <==> !s.isSubscribed)
      && (WellFormed(s) && Reconciled(s) ==> o.totalDue == LedgerPage.RunningBalance(s.bakiEntries, s.payments))
  {
    PendingOfSpec(s.bakiEntries);
    PendingOfSpec(s.payments);
    if WellFormed(s) && Reconciled(s) {
      ReconciledTotalDue(s);
    }
  }

  /** The activity tab lists every entry and offers no buttons. */
  lemma ActivityTabHasNoActions(s: AppState)
    ensures var b := TabContent(s, ActivityTab);
      b.ActivityBody? && (b.activity.Rows? ==> forall i :: 0 <= i < |b.activity.rows| ==> !b.activity.rows[i].showsActions)
  {
    RecentActivity.RenderSpec(s.bakiEntries, s.payments, false, false, false);
  }

  lemma PendingOfPrepend(e: Entry, es: seq<Entry>)
    requires e.status == Pending
    ensures PendingOf([e] + es) == [e] + PendingOf(es)
  {
    assert ([e] + es)[1..] == es;
  }

  /** Adding a credit or a payment for a known customer raises the pending count by one and
      leaves the total due; for an unknown customer nothing moves. */
  lemma AddEntryMovesOverview(s: AppState, kind: Kind, customerId: Id, amount: int, detail: Detail, now: Time)
    ensures var o, t := OverviewOf(s), OverviewOf(AddEntry(s, kind, customerId, amount, detail, now));
      && t.totalDue == o.totalDue
      && t.pendingEntries == o.pendingEntries + (if FindCustomer(s.customers, customerId).Some? then 1 else 0)
      && t.activityTabCount == o.activityTabCount + (if FindCustomer(s.customers, customerId).Some? then 1 else 0)
      && t.customersTabCount == o.customersTabCount
  {
    AddsKeepTotalDue(s, "", "", kind, customerId, amount, detail, now);
    match FindCustomer(s.customers, customerId)
    case None =>
    case Some(c) =>
      var e := Entry(FreshId(IdPrefix(kind), s.nextId), customerId, c.name, amount, detail,
                     Pending, now, None, None, None);
      PendingOfPrepend(e, EntriesOf(s, kind));
  }

  /** Adding a customer adds one to the customers tab and changes neither the total due nor
      the pending count. */
  lemma AddCustomerMovesOverview(s: AppState, phone: string, name: string, now: Time)
    ensures var o, t := OverviewOf(s), OverviewOf(AddCustomer(s, phone, name, now));
      t.customersTabCount == o.customersTabCount + 1 && t.totalDue == o.totalDue
      && t.pendingEntries == o.pendingEntries && t.activityTabCount == o.activityTabCount
  {
    AddsKeepTotalDue(s, phone, name, Baki, "", 0, BakiDetail(None), now);
  }

  /** `handleAddCustomer(phone, name)`: passes both on unchanged. */
  method HandleAddCustomer(store: AppContext.AppStore, phone: string, name: string, now: Time)
    requires store.Valid()
    modifies store
    ensures store.Valid() && store.State() == AddCustomer(old(store.State()), phone, name, now)
  {
    store.AddCustomer(phone, name, now);
  }

  /** `handleAddBaki(customerId, amount, description)`: passes all three on unchanged. */
  method HandleAddBaki(store: AppContext.AppStore, customerId: Id, amount: int, description: Option<string>, now: Time)
    requires store.Valid()
    modifies store
    ensures store.Valid()
    ensures store.State() == AddEntry(old(store.State()), Baki, customerId, amount, BakiDetail(description), now)
  {
    store.AddBaki(customerId, amount, description, now);
  }

  /** `handleAddPayment(customerId, amount, method)`: passes all three on unchanged. */
  method HandleAddPayment(store: AppContext.AppStore, customerId: Id, amount: int, paymentMethod: PaymentMethod, now: Time)
    requires store.Valid()
    modifies store
    ensures store.Valid()
    ensures store.State() == AddEntry(old(store.State()), Payment, customerId, amount, PaymentDetail(paymentMethod), now)
  {
    store.AddPayment(customerId, amount, paymentMethod, now);
  }
}
