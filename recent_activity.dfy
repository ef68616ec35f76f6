/** `src/components/dashboard/RecentActivity.tsx`: credits and payments merged into one list
    of transactions, newest first, with confirm and reject buttons on pending ones.
    `Array.prototype.sort` is stable, so it is modelled as a stable insertion sort. */
module RecentActivity {
  import opened Util
  import opened LedgerData

  const FallbackName: string := "গ্রাহক"

  datatype Transaction = Transaction(
    id: Id, kind: Kind, amount: int, customerName: string, description: Option<string>,
    status: EntryStatus, createdAt: Time)

  /** `e.customer?.name || e.customer?.phone || 'গ্রাহক'`: an empty string counts as missing. */
  function DisplayName(customer: Option<CustomerRef>): string
  {
    if customer.Some? && customer.value.name.Some? && customer.value.name.value != "" then customer.value.name.value
    else if customer.Some? && customer.value.phone.Some? && customer.value.phone.value != "" then customer.value.phone.value
    else FallbackName
  }

  function BakiTransaction(b: Entry): Transaction
  {
    Transaction(b.id, Baki, b.amount, DisplayName(b.customer),
                if b.detail.BakiDetail? then b.detail.description else None, b.status, b.createdAt)
  }

  function PaymentTransaction(p: Entry): Transaction
  {
    Transaction(p.id, Payment, p.amount, DisplayName(p.customer), None, p.status, p.createdAt)
  }

  function BakiTransactions(bs: seq<Entry>): (ts: seq<Transaction>)
    ensures |ts| == |bs| && forall i :: 0 <= i < |bs| ==> ts[i] == BakiTransaction(bs[i])
  {
    if bs == [] then [] else [BakiTransaction(bs[0])] + BakiTransactions(bs[1..])
  }

  function PaymentTransactions(ps: seq<Entry>): (ts: seq<Transaction>)
    ensures |ts| == |ps| && forall i :: 0 <= i < |ps| ==> ts[i] == PaymentTransaction(ps[i])
  {
    if ps == [] then [] else [PaymentTransaction(ps[0])] + PaymentTransactions(ps[1..])
  }

  // ---------------------------------------------------------------------------
  // The stable sort by `createdAt`, newest first

  /** Puts `t` in front of the first element that is not newer than it. */
  function Insert(t: Transaction, ts: seq<Transaction>): (r: seq<Transaction>)
    ensures |r| == |ts| + 1 && multiset(r) == multiset(ts) + multiset{t}
  {
    if ts == [] || ts[0].createdAt <= t.createdAt then [t] + ts
    else
      assert ts == [ts[0]] + ts[1..];
      [ts[0]] + Insert(t, ts[1..])
  }

  function SortNewestFirst(ts: seq<Transaction>): (r: seq<Transaction>)
    ensures |r| == |ts| && multiset(r) == multiset(ts)
  {
    if ts == [] then []
    else
      assert ts == [ts[0]] + ts[1..];
      Insert(ts[0], SortNewestFirst(ts[1..]))
  }

  predicate NewestFirst(ts: seq<Transaction>)
  {
    forall i, j :: 0 <= i < j < |ts| ==> ts[i].createdAt >= ts[j].createdAt
  }

  /** The transactions with one timestamp, in list order. */
  function WithTime(ts: seq<Transaction>, time: Time): seq<Transaction>
  {
    if ts == [] then [] else (if ts[0].createdAt == time then [ts[0]] else []) + WithTime(ts[1..], time)
  }

  lemma {:induction false} InsertSorted(t: Transaction, ts: seq<Transaction>)
    requires NewestFirst(ts)
    ensures NewestFirst(Insert(t, ts))
  {
    if ts != [] && ts[0].createdAt > t.createdAt {
      var tail := ts[1..];
      assert NewestFirst(tail) by {
        forall i, j | 0 <= i < j < |tail| ensures tail[i].createdAt >= tail[j].createdAt {
          assert tail[i] == ts[i + 1] && tail[j] == ts[j + 1];
        }
      }
      assert forall k :: 0 <= k < |tail| ==> tail[k].createdAt <= ts[0].createdAt by {
        forall k | 0 <= k < |tail| ensures tail[k].createdAt <= ts[0].createdAt {
          assert tail[k] == ts[k + 1];
        }
      }
      InsertSorted(t, tail);
      InsertBounded(t, tail, ts[0].createdAt);
      var rest := Insert(t, tail);
      assert Insert(t, ts) == [ts[0]] + rest;
    }
  }

  /** Inserting into a list no newer than `bound` an element no newer than `bound`. */
  lemma {:induction false} InsertBounded(t: Transaction, ts: seq<Transaction>, bound: Time)
    requires t.createdAt <= bound && forall k :: 0 <= k < |ts| ==> ts[k].createdAt <= bound
    ensures forall k :: 0 <= k < |Insert(t, ts)| ==> Insert(t, ts)[k].createdAt <= bound
  {
    if ts != [] && ts[0].createdAt > t.createdAt {
      var tail := ts[1..];
      assert forall k :: 0 <= k < |tail| ==> tail[k].createdAt <= bound by {
        forall k | 0 <= k < |tail| ensures tail[k].createdAt <= bound {
          assert tail[k] == ts[k + 1];
        }
      }
      InsertBounded(t, tail, bound);
      assert Insert(t, ts) == [ts[0]] + Insert(t, tail);
    }
  }

  lemma {:induction false} InsertWithTime(t: Transaction, ts: seq<Transaction>, time: Time)
    ensures WithTime(Insert(t, ts), time)
      == (if t.createdAt == time then [t] else []) + WithTime(ts, time)
  {
    if ts == [] || ts[0].createdAt <= t.createdAt {
      var r := [t] + ts;
      assert Insert(t, ts) == r && r[0] == t && r[1..] == ts;
    } else {
      var rest := Insert(t, ts[1..]);
      var r := [ts[0]] + rest;
      assert Insert(t, ts) == r && r[0] == ts[0] && r[1..] == rest;
      var head := if ts[0].createdAt == time then [ts[0]] else [];
      assert WithTime(r, time) == head + WithTime(rest, time);
      assert WithTime(ts, time) == head + WithTime(ts[1..], time);
      InsertWithTime(t, ts[1..], time);
    }
  }

  /** The sort leaves the list newest first, holds the same transactions, and keeps the
      input order among transactions with the same timestamp. */
  lemma {:induction false} SortSpec(ts: seq<Transaction>)
    ensures NewestFirst(SortNewestFirst(ts))
    ensures multiset(SortNewestFirst(ts)) == multiset(ts)
    ensures forall time :: WithTime(SortNewestFirst(ts), time) == WithTime(ts, time)
  {
    if ts != [] {
      SortSpec(ts[1..]);
      InsertSorted(ts[0], SortNewestFirst(ts[1..]));
      forall time ensures WithTime(SortNewestFirst(ts), time) == WithTime(ts, time) {
        InsertWithTime(ts[0], SortNewestFirst(ts[1..]), time);
      }
    }
  }

  lemma {:induction false} WithTimeAppend(a: seq<Transaction>, b: seq<Transaction>, time: Time)
    ensures WithTime(a + b, time) == WithTime(a, time) + WithTime(b, time)
  {
    if a == [] {
      assert a + b == b;
    } else {
      assert (a + b)[1..] == a[1..] + b;
      WithTimeAppend(a[1..], b, time);
    }
  }

  // ---------------------------------------------------------------------------
  // The merged list

  /** `transactions`: credits then payments, sorted newest first. */
  function Transactions(baki: seq<Entry>, payments: seq<Entry>): seq<Transaction>
  {
    SortNewestFirst(BakiTransactions(baki) + PaymentTransactions(payments))
  }

  /** Every credit and every payment appears exactly once, tagged by the list it came from;
      the list is newest first; and among equal timestamps credits come before payments,
      each in their original order. */
  lemma TransactionsSpec(baki: seq<Entry>, payments: seq<Entry>)
    ensures var r := Transactions(baki, payments);
      && |r| == |baki| + |payments|
      && multiset(r) == multiset(BakiTransactions(baki)) + multiset(PaymentTransactions(payments))
      && NewestFirst(r)
      && forall time :: WithTime(r, time)
           == WithTime(BakiTransactions(baki), time) + WithTime(PaymentTransactions(payments), time)
  {
    var bt, pt := BakiTransactions(baki), PaymentTransactions(payments);
    SortSpec(bt + pt);
    forall time ensures WithTime(bt + pt, time) == WithTime(bt, time) + WithTime(pt, time) {
      WithTimeAppend(bt, pt, time);
    }
  }

  /** Every transaction listed was made from a credit (tagged `Baki`) or from a payment
      (tagged `Payment`) of the inputs. */
  lemma TransactionOrigin(baki: seq<Entry>, payments: seq<Entry>, t: Transaction)
    requires t in Transactions(baki, payments)
    ensures || (t.kind == Baki && exists k :: 0 <= k < |baki| && t == BakiTransaction(baki[k]))
            || (t.kind == Payment && exists k :: 0 <= k < |payments| && t == PaymentTransaction(payments[k]))
  {
    var bt, pt := BakiTransactions(baki), PaymentTransactions(payments);
    var all := bt + pt;
    assert t in multiset(SortNewestFirst(all));
    assert t in multiset(all);
    assert t in all;
    var m :| 0 <= m < |all| && all[m] == t;
    if m < |bt| {
      assert t == bt[m] == BakiTransaction(baki[m]);
    } else {
      assert t == pt[m - |bt|] == PaymentTransaction(payments[m - |bt|]);
    }
  }

  /** Payment transactions never carry a description; credits carry the entry's own. */
  lemma TransactionTags(baki: seq<Entry>, payments: seq<Entry>)
    ensures forall i :: 0 <= i < |PaymentTransactions(payments)| ==>
      PaymentTransactions(payments)[i].kind == Payment && PaymentTransactions(payments)[i].description.None?
    ensures forall i :: 0 <= i < |BakiTransactions(baki)| ==>
      BakiTransactions(baki)[i].kind == Baki
      && (baki[i].detail.BakiDetail? ==> BakiTransactions(baki)[i].description == baki[i].detail.description)
  {
  }

  /** The name shown falls back from the attached customer's name to its phone to a fixed
      word; entries made by the store carry no customer object, so they all show the word. */
  lemma DisplayNameFallback(customer: Option<CustomerRef>)
    ensures customer.None? ==> DisplayName(customer) == FallbackName
    ensures customer.Some? && customer.value.name.Some? && customer.value.name.value != "" ==>
      DisplayName(customer) == customer.value.name.value
    ensures (customer.Some? && (customer.value.name.None? || customer.value.name.value == "")
             && customer.value.phone.Some? && customer.value.phone.value != "")
      ==> DisplayName(customer) == customer.value.phone.value
    ensures DisplayName(customer) != ""
  {
  }

  // ---------------------------------------------------------------------------
  // Rendering

  datatype Row = Row(transaction: Transaction, amountSign: string, showsActions: bool)

  datatype View = EmptyState | Rows(rows: seq<Row>)

  /** `showActions && status === "pending" && onConfirm && onReject`. */
  predicate ShowsActions(showActions: bool, t: Transaction, hasOnConfirm: bool, hasOnReject: bool)
  {
    showActions && t.status == Pending && hasOnConfirm && hasOnReject
  }

  function AmountSign(t: Transaction): string
  {
    if t.kind == Baki then "+" else "-"
  }

  function RowsOf(ts: seq<Transaction>, showActions: bool, hasOnConfirm: bool, hasOnReject: bool): (rows: seq<Row>)
    ensures |rows| == |ts|
    ensures forall i :: 0 <= i < |ts| ==>
      rows[i] == Row(ts[i], AmountSign(ts[i]), ShowsActions(showActions, ts[i], hasOnConfirm, hasOnReject))
  {
    if ts == [] then [] else
    var row := Row(ts[0], AmountSign(ts[0]), ShowsActions(showActions, ts[0], hasOnConfirm, hasOnReject));
    [row] + RowsOf(ts[1..], showActions, hasOnConfirm, hasOnReject)
  }

  function Render(baki: seq<Entry>, payments: seq<Entry>, showActions: bool, hasOnConfirm: bool, hasOnReject: bool): View
  {
    var ts := Transactions(baki, payments);
    if |ts| == 0 then EmptyState else Rows(RowsOf(ts, showActions, hasOnConfirm, hasOnReject))
  }

  /** The empty state appears exactly when both lists are empty; buttons appear only on
      pending transactions, and only with `showActions` and both callbacks; credits are
      signed "+" and payments "-". */
  lemma RenderSpec(baki: seq<Entry>, payments: seq<Entry>, showActions: bool, hasOnConfirm: bool, hasOnReject: bool)
    ensures var v := Render(baki, payments, showActions, hasOnConfirm, hasOnReject);
      && (v.EmptyState? <==> baki == [] && payments == [])
      && (v.Rows? ==> forall i :: 0 <= i < |v.rows| ==>
            (v.rows[i].showsActions <==>
               showActions && hasOnConfirm && hasOnReject && v.rows[i].transaction.status == Pending)
            && (v.rows[i].amountSign == "+" <==> v.rows[i].transaction.kind == Baki))
  {
    TransactionsSpec(baki, payments);
  }
}
