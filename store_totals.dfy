/** The aggregates the dashboard pages compute from the store: the total due
    (`customers.reduce((sum, c) => sum + c.balance, 0)`) and the pending entries
    (`entries.filter(e => e.status === 'pending')`), with how the store's actions move them. */
module StoreTotals {
  import opened Util
  import opened LedgerData
  import LedgerPage

  function TotalDue(cs: seq<Customer>): int
  {
    if cs == [] then 0 else cs[0].balance + TotalDue(cs[1..])
  }

  predicate IsPending(e: Entry)
  {
    e.status == Pending
  }

  function PendingOf(es: seq<Entry>): seq<Entry>
  {
    Filter(es, IsPending)
  }

  function PendingCount(baki: seq<Entry>, payments: seq<Entry>): nat
  {
    |PendingOf(baki)| + |PendingOf(payments)|
  }

  /** The pending list is exactly the pending entries, in their original order. */
  lemma PendingOfSpec(es: seq<Entry>)
    ensures IsSubsequence(PendingOf(es), es)
    ensures forall i :: 0 <= i < |PendingOf(es)| ==> PendingOf(es)[i].status == Pending
    ensures forall i :: 0 <= i < |es| && es[i].status == Pending ==> es[i] in PendingOf(es)
    ensures |PendingOf(es)| == Count(es, IsPending)
  {
    FilterIsSubsequence(es, IsPending);
    FilterLength(es, IsPending);
  }

  /** No pending entries in either list exactly when the count is zero. */
  lemma PendingCountZero(baki: seq<Entry>, payments: seq<Entry>)
    ensures PendingCount(baki, payments) == 0
      <==> (forall i :: 0 <= i < |baki| ==> baki[i].status != Pending)
           && (forall i :: 0 <= i < |payments| ==> payments[i].status != Pending)
  {
    NoPendingIff(baki);
    NoPendingIff(payments);
  }

  lemma NoPendingIff(es: seq<Entry>)
    ensures PendingOf(es) == [] <==> forall i :: 0 <= i < |es| ==> es[i].status != Pending
  {
    var r := PendingOf(es);
    if r != [] {
      assert r[0] in es && r[0].status == Pending;
      var k :| 0 <= k < |es| && es[k] == r[0];
    }
  }

  // ---------------------------------------------------------------------------
  // How the actions move the total due

  lemma {:induction false} TotalDueAdjust(cs: seq<Customer>, customerId: Id, delta: int, now: Time)
    requires DistinctCustomerIds(cs)
    ensures TotalDue(AdjustBalance(cs, customerId, delta, now))
      == TotalDue(cs) + (if HasCustomer(cs, customerId) then delta else 0)
  {
    if cs != [] {
      var tail := cs[1..];
      var r := AdjustBalance(cs, customerId, delta, now);
      assert r[1..] == AdjustBalance(tail, customerId, delta, now);
      CustomersTail(cs, customerId);
      TotalDueAdjust(tail, customerId, delta, now);
    }
  }

  /** A customer list without its head: ids stay distinct, and an id is in the list exactly
      when it is the head's or in the rest (never both). */
  lemma CustomersTail(cs: seq<Customer>, customerId: Id)
    requires cs != [] && DistinctCustomerIds(cs)
    ensures DistinctCustomerIds(cs[1..])
    ensures HasCustomer(cs, customerId) <==> cs[0].id == customerId || HasCustomer(cs[1..], customerId)
    ensures cs[0].id == customerId ==> !HasCustomer(cs[1..], customerId)
  {
    var tail := cs[1..];
    forall i | 0 <= i < |tail| ensures tail[i] == cs[i + 1] { }
    if HasCustomer(cs, customerId) && cs[0].id != customerId {
      var i :| 0 <= i < |cs| && cs[i].id == customerId;
      assert tail[i - 1] == cs[i];
    }
    if HasCustomer(tail, customerId) {
      var i :| 0 <= i < |tail| && tail[i].id == customerId;
      assert cs[i + 1] == tail[i];
    }
  }

  /** Adding a customer, a credit or a payment leaves the total due as it was. */
  lemma AddsKeepTotalDue(s: AppState, phone: string, name: string, kind: Kind, customerId: Id,
                         amount: int, detail: Detail, now: Time)
    ensures TotalDue(AddCustomer(s, phone, name, now).customers) == TotalDue(s.customers)
    ensures TotalDue(AddEntry(s, kind, customerId, amount, detail, now).customers) == TotalDue(s.customers)
  {
    var c := Customer(FreshId('c', s.nextId), phone, name, 0, None, now);
    assert ([c] + s.customers)[1..] == s.customers;
  }

  /** Confirming moves the total due by exactly the signed amount of the entry found, whatever
      that entry's status was. */
  lemma ConfirmMovesTotalDue(s: AppState, kind: Kind, id: Id, now: Time)
    requires WellFormed(s)
    ensures TotalDue(Confirm(s, kind, id, now).customers)
      == TotalDue(s.customers)
         + match FindEntry(EntriesOf(s, kind), id)
           case None => 0
           case Some(e) => Signed(kind, e.amount)
  {
    var es := EntriesOf(s, kind);
    match FindEntry(es, id)
    case None =>
      ConfirmUnknown(s, kind, id, now);
      WithEntriesCustomers(s, kind, MarkConfirmed(es, id, now));
    case Some(e) =>
      ConfirmKnown(s, kind, id, now, e);
      var i :| 0 <= i < |es| && es[i] == e;
      assert HasCustomer(s.customers, es[i].customerId);
      TotalDueAdjust(s.customers, e.customerId, Signed(kind, e.amount), now);
  }

  /** Rejecting never moves the total due. */
  lemma RejectKeepsTotalDue(s: AppState, kind: Kind, id: Id)
    ensures TotalDue(Reject(s, kind, id).customers) == TotalDue(s.customers)
  {
    WithEntriesCustomers(s, kind, MarkRejected(EntriesOf(s, kind), id));
  }

  lemma WithEntriesCustomers(s: AppState, kind: Kind, es: seq<Entry>)
    ensures WithEntries(s, kind, es).customers == s.customers
  {
  }

  // ---------------------------------------------------------------------------
  // Reconciled stores: total due equals the ledger's running balance

  /** The confirmed amounts of `es` summed customer by customer. */
  function PerCustomerConfirmed(cs: seq<Customer>, es: seq<Entry>): int
  {
    if cs == [] then 0 else ConfirmedAmount(es, cs[0].id) + PerCustomerConfirmed(cs[1..], es)
  }

  /** One entry's confirmed amount summed customer by customer. */
  function PerCustomerPart(cs: seq<Customer>, e: Entry): int
  {
    if cs == [] then 0 else ConfirmedPart(e, cs[0].id) + PerCustomerPart(cs[1..], e)
  }

  lemma {:induction false} PerCustomerSplit(cs: seq<Customer>, es: seq<Entry>)
    requires es != []
    ensures PerCustomerConfirmed(cs, es) == PerCustomerPart(cs, es[0]) + PerCustomerConfirmed(cs, es[1..])
  {
    if cs != [] {
      PerCustomerSplit(cs[1..], es);
    }
  }

  lemma {:induction false} PerCustomerPartOnce(cs: seq<Customer>, e: Entry)
    requires DistinctCustomerIds(cs) && HasCustomer(cs, e.customerId)
    ensures PerCustomerPart(cs, e) == if e.status == Confirmed then e.amount else 0
  {
    assert DistinctCustomerIds(cs[1..]) by {
      forall i, j | 0 <= i < j < |cs[1..]| ensures cs[1..][i].id != cs[1..][j].id {
        assert cs[1..][i] == cs[i + 1] && cs[1..][j] == cs[j + 1];
      }
    }
    if cs[0].id == e.customerId {
      assert forall i :: 0 <= i < |cs[1..]| ==> cs[1..][i].id != e.customerId by {
        forall i | 0 <= i < |cs[1..]| ensures cs[1..][i].id != e.customerId {
          assert cs[1..][i] == cs[i + 1];
        }
      }
      PerCustomerPartAbsent(cs[1..], e);
    } else {
      var i :| 0 <= i < |cs| && cs[i].id == e.customerId;
      assert cs[1..][i - 1] == cs[i];
      PerCustomerPartOnce(cs[1..], e);
    }
  }

  lemma {:induction false} PerCustomerPartAbsent(cs: seq<Customer>, e: Entry)
    requires forall i :: 0 <= i < |cs| ==> cs[i].id != e.customerId
    ensures PerCustomerPart(cs, e) == 0
  {
    if cs != [] {
      assert forall i :: 0 <= i < |cs[1..]| ==> cs[1..][i].id != e.customerId by {
        forall i | 0 <= i < |cs[1..]| ensures cs[1..][i].id != e.customerId {
          assert cs[1..][i] == cs[i + 1];
        }
      }
      PerCustomerPartAbsent(cs[1..], e);
    }
  }

  /** When every entry belongs to exactly one customer, summing the confirmed amounts
      customer by customer gives the ledger's confirmed total. */
  lemma {:induction false} PerCustomerIsTotal(cs: seq<Customer>, es: seq<Entry>)
    requires DistinctCustomerIds(cs)
    requires forall i :: 0 <= i < |es| ==> HasCustomer(cs, es[i].customerId)
    ensures PerCustomerConfirmed(cs, es) == LedgerPage.TotalConfirmed(es)
  {
    if es == [] {
      PerCustomerEmpty(cs);
    } else {
      PerCustomerSplit(cs, es);
      assert HasCustomer(cs, es[0].customerId);
      PerCustomerPartOnce(cs, es[0]);
      assert forall i :: 0 <= i < |es[1..]| ==> HasCustomer(cs, es[1..][i].customerId) by {
        forall i | 0 <= i < |es[1..]| ensures HasCustomer(cs, es[1..][i].customerId) {
          assert es[1..][i] == es[i + 1];
        }
      }
      PerCustomerIsTotal(cs, es[1..]);
    }
  }

  lemma {:induction false} PerCustomerEmpty(cs: seq<Customer>)
    ensures PerCustomerConfirmed(cs, []) == 0
  {
    if cs != [] {
      PerCustomerEmpty(cs[1..]);
    }
  }

  lemma {:induction false} TotalDueOfReconciled(cs: seq<Customer>, baki: seq<Entry>, payments: seq<Entry>)
    requires forall i :: 0 <= i < |cs| ==>
      cs[i].balance == ConfirmedAmount(baki, cs[i].id) - ConfirmedAmount(payments, cs[i].id)
    ensures TotalDue(cs) == PerCustomerConfirmed(cs, baki) - PerCustomerConfirmed(cs, payments)
  {
    if cs != [] {
      assert forall i :: 0 <= i < |cs[1..]| ==>
        cs[1..][i].balance == ConfirmedAmount(baki, cs[1..][i].id) - ConfirmedAmount(payments, cs[1..][i].id) by {
        forall i | 0 <= i < |cs[1..]|
          ensures cs[1..][i].balance == ConfirmedAmount(baki, cs[1..][i].id) - ConfirmedAmount(payments, cs[1..][i].id)
        {
          assert cs[1..][i] == cs[i + 1];
        }
      }
      TotalDueOfReconciled(cs[1..], baki, payments);
    }
  }

  /** In a well-formed store whose every balance equals its confirmed credits minus its
      confirmed payments, the dashboard's total due equals the ledger page's running balance. */
  lemma ReconciledTotalDue(s: AppState)
    requires WellFormed(s) && Reconciled(s)
    ensures TotalDue(s.customers) == LedgerPage.RunningBalance(s.bakiEntries, s.payments)
  {
    assert forall i :: 0 <= i < |s.customers| ==>
      s.customers[i].balance
        == ConfirmedAmount(s.bakiEntries, s.customers[i].id) - ConfirmedAmount(s.payments, s.customers[i].id) by {
      forall i | 0 <= i < |s.customers|
        ensures s.customers[i].balance
          == ConfirmedAmount(s.bakiEntries, s.customers[i].id) - ConfirmedAmount(s.payments, s.customers[i].id)
      {
        assert Drift(s, s.customers[i]) == 0;
      }
    }
    TotalDueOfReconciled(s.customers, s.bakiEntries, s.payments);
    PerCustomerIsTotal(s.customers, s.bakiEntries);
    PerCustomerIsTotal(s.customers, s.payments);
  }
}
