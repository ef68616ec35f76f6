/** `src/app/customer/page.tsx`: the customer's view of the shop. It shows the total due,
    a panel of pending credits and payments with confirm and reject buttons, and the recent
    activity; the buttons dispatch to the store by transaction type. */
module CustomerPage {
  import opened Util
  import opened LedgerData
  import opened StoreTotals
  import RecentActivity
  import AppContext

  /** The pending panel: present only while something is pending, listing the pending
      credits and payments with actions enabled. */
  function PendingPanel(baki: seq<Entry>, payments: seq<Entry>): Option<RecentActivity.View>
  {
    if PendingCount(baki, payments) > 0
    then Some(RecentActivity.Render(PendingOf(baki), PendingOf(payments), true, true, true))
    else None
  }

  /** The panel appears exactly when some entry is pending, and then every row it shows is
      a pending transaction carrying the confirm and reject buttons. */
  lemma PendingPanelSpec(baki: seq<Entry>, payments: seq<Entry>)
    ensures PendingPanel(baki, payments).Some?
      <==> (exists i :: 0 <= i < |baki| && baki[i].status == Pending)
           || (exists i :: 0 <= i < |payments| && payments[i].status == Pending)
    ensures PendingPanel(baki, payments).Some? ==>
      var v := PendingPanel(baki, payments).value;
      v.Rows? && forall i :: 0 <= i < |v.rows| ==>
        v.rows[i].showsActions && v.rows[i].transaction.status == Pending
  {
    PendingCountZero(baki, payments);
    if PendingCount(baki, payments) > 0 {
      var pb, pp := PendingOf(baki), PendingOf(payments);
      RecentActivity.RenderSpec(pb, pp, true, true, true);
      var ts := RecentActivity.Transactions(pb, pp);
      var v := PendingPanel(baki, payments).value;
      forall i | 0 <= i < |v.rows| ensures v.rows[i].showsActions && v.rows[i].transaction.status == Pending {
        assert v.rows[i].transaction == ts[i];
        RecentActivity.TransactionOrigin(pb, pp, ts[i]);
      }
    }
  }

  lemma {:induction false} FindDistinct(es: seq<Entry>, k: nat)
    requires k < |es| && DistinctEntryIds(es)
    ensures FindEntry(es, es[k].id) == Some(es[k])
  {
    var j := FirstIndexOf(es, es[k].id);
    assert j.Some?;
    assert j.value == k;
  }

  lemma PendingMember(es: seq<Entry>, k: nat)
    requires DistinctEntryIds(es) && k < |PendingOf(es)|
    ensures FindEntry(es, PendingOf(es)[k].id) == Some(PendingOf(es)[k])
    ensures PendingOf(es)[k].status == Pending
  {
    var p := PendingOf(es)[k];
    assert p in es;
    var j :| 0 <= j < |es| && es[j] == p;
    FindDistinct(es, j);
  }

  /** A transaction of the panel is the pending entry of its own list with that id. */
  lemma PanelEntry(baki: seq<Entry>, payments: seq<Entry>, t: RecentActivity.Transaction)
    requires DistinctEntryIds(baki) && DistinctEntryIds(payments)
    requires t in RecentActivity.Transactions(PendingOf(baki), PendingOf(payments))
    ensures t.kind == Baki ==> FindEntry(baki, t.id).Some? && FindEntry(baki, t.id).value.status == Pending
    ensures t.kind == Payment ==> FindEntry(payments, t.id).Some? && FindEntry(payments, t.id).value.status == Pending
  {
    var pb, pp := PendingOf(baki), PendingOf(payments);
    RecentActivity.TransactionOrigin(pb, pp, t);
    if t.kind == Baki {
      var k :| 0 <= k < |pb| && t == RecentActivity.BakiTransaction(pb[k]);
      PendingMember(baki, k);
    } else {
      var k :| 0 <= k < |pp| && t == RecentActivity.PaymentTransaction(pp[k]);
      PendingMember(payments, k);
    }
  }

  /** The panel's buttons only ever act on pending entries, so in a reconciled store
      confirming or rejecting from the panel keeps every balance reconciled. */
  lemma PanelActionsKeepReconciled(s: AppState, t: RecentActivity.Transaction, now: Time)
    requires WellFormed(s) && Reconciled(s)
    requires t in RecentActivity.Transactions(PendingOf(s.bakiEntries), PendingOf(s.payments))
    ensures Reconciled(Confirm(s, t.kind, t.id, now)) && Reconciled(Reject(s, t.kind, t.id))
  {
    PanelEntry(s.bakiEntries, s.payments, t);
    ResolvePendingKeepsReconciled(s, t.kind, t.id, now);
  }

  /** `handleConfirm(id, type)`: `confirmBaki` for a credit, `confirmPayment` otherwise. */
  method HandleConfirm(store: AppContext.AppStore, id: Id, kind: Kind, now: Time)
    requires store.Valid()
    modifies store
    ensures store.Valid() && store.State() == Confirm(old(store.State()), kind, id, now)
  {
    if kind == Baki {
      store.ConfirmBaki(id, now);
    } else {
      store.ConfirmPayment(id, now);
    }
  }

  /** `handleReject(id, type)`: `rejectBaki` for a credit, `rejectPayment` otherwise. */
  method HandleReject(store: AppContext.AppStore, id: Id, kind: Kind)
    requires store.Valid()
    modifies store
    ensures store.Valid() && store.State() == Reject(old(store.State()), kind, id)
  {
    if kind == Baki {
      store.RejectBaki(id);
    } else {
      store.RejectPayment(id);
    }
  }
}
