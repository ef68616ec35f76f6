/** `src/components/dashboard/CustomerList.tsx`: one row per customer, with the balance shown
    as an absolute amount, a colour and a word chosen by its sign. */
module CustomerList {
  import opened Display
  import opened LedgerData

  const DueLabel: string := "বাকি"
  const AdvanceLabel: string := "পাওনা"
  const ZeroLabel: string := "শূন্য"

  function BalanceTone(balance: int): Tone
  {
    if balance > 0 then Destructive else if balance < 0 then Success else Muted
  }

  function BalanceLabel(balance: int): string
  {
    if balance > 0 then DueLabel else if balance < 0 then AdvanceLabel else ZeroLabel
  }

  datatype Row = Row(href: string, name: string, phone: string, tone: Tone, amount: nat, balanceLabel: string)

  datatype View = EmptyState | Rows(rows: seq<Row>)

  function CustomerRow(c: Customer): Row
  {
    Row("/customers/" + c.id, c.name, c.phone, BalanceTone(c.balance), Abs(c.balance), BalanceLabel(c.balance))
  }

  function RowsOf(cs: seq<Customer>): (rows: seq<Row>)
    ensures |rows| == |cs| && forall i :: 0 <= i < |cs| ==> rows[i] == CustomerRow(cs[i])
  {
    if cs == [] then [] else [CustomerRow(cs[0])] + RowsOf(cs[1..])
  }

  /** What `CustomerList` renders for a list of customers. */
  function Render(cs: seq<Customer>): View
  {
    if |cs| == 0 then EmptyState else Rows(RowsOf(cs))
  }

  /** Label and colour follow the same three-way split on the sign of the balance. */
  lemma SignSplit(balance: int)
    ensures BalanceLabel(balance) == DueLabel <==> balance > 0
    ensures BalanceLabel(balance) == AdvanceLabel <==> balance < 0
    ensures BalanceLabel(balance) == ZeroLabel <==> balance == 0
    ensures BalanceTone(balance) == Destructive <==> balance > 0
    ensures BalanceTone(balance) == Success <==> balance < 0
    ensures BalanceTone(balance) == Muted <==> balance == 0
  {
  }

  /** The balance read back from what a row shows: the word gives the sign, the amount the size. */
  function BalanceShown(word: string, amount: nat): int
  {
    if word == DueLabel then amount else if word == AdvanceLabel then 0 - amount else 0
  }

  /** What a row shows determines the balance: nothing is lost by showing `|balance|`. */
  lemma RowDeterminesBalance(c: Customer)
    ensures var r := CustomerRow(c); BalanceShown(r.balanceLabel, r.amount) == c.balance
  {
  }

  /** No customers gives the empty state; otherwise one row per customer, in order, each
      linking to that customer's page, and different customer ids give different links. */
  lemma RenderShape(cs: seq<Customer>)
    ensures Render(cs).EmptyState? <==> cs == []
    ensures Render(cs).Rows? ==>
      |Render(cs).rows| == |cs|
      && (forall i :: 0 <= i < |cs| ==> Render(cs).rows[i].href == "/customers/" + cs[i].id)
      && (forall i, j :: 0 <= i < |cs| && 0 <= j < |cs| && cs[i].id != cs[j].id ==>
            Render(cs).rows[i].href != Render(cs).rows[j].href)
  {
    if cs != [] {
      var rows := RowsOf(cs);
      forall i, j | 0 <= i < |cs| && 0 <= j < |cs| && cs[i].id != cs[j].id
        ensures rows[i].href != rows[j].href
      {
        var p := "/customers/";
        assert rows[i].href[|p|..] == cs[i].id;
        assert rows[j].href[|p|..] == cs[j].id;
      }
    }
  }
}
