/** `src/app/customers/page.tsx`: the customer list with a search box. A customer is kept
    when the lower-cased name contains the lower-cased query or the phone contains the query
    as typed. */
module CustomersPage {
  import opened Util
  import opened Text
  import opened LedgerData

  predicate Matches(c: Customer, query: string)
  {
    Includes(Lower(c.name), Lower(query)) || Includes(c.phone, query)
  }

  /** The filter callback `c => matches(c, searchQuery)` for one query. */
  function Matcher(query: string): Customer -> bool
  {
    c => Matches(c, query)
  }

  /** `customers.filter(c => matches(c, searchQuery))`: exactly the matching customers. */
  function Search(cs: seq<Customer>, query: string): (r: seq<Customer>)
    ensures forall i :: 0 <= i < |r| ==> r[i] in cs && Matches(r[i], query)
    ensures forall i :: 0 <= i < |cs| && Matches(cs[i], query) ==> cs[i] in r
  {
    Filter(cs, Matcher(query))
  }

  /** The search keeps customers in the order of the list. */
  lemma SearchIsSubsequence(cs: seq<Customer>, query: string)
    ensures IsSubsequence(Search(cs, query), cs)
  {
    FilterIsSubsequence(cs, Matcher(query));
  }

  /** An empty query keeps every customer. */
  lemma EmptyQueryKeepsAll(cs: seq<Customer>)
    ensures Search(cs, "") == cs
  {
    assert Lower("") == "";
    forall c | c in cs
      ensures Matcher("")(c)
    {
      IncludesEmpty(Lower(c.name));
    }
    FilterAll(cs, Matcher(""));
  }

  lemma LongerQueryMatchesLess(c: Customer, query: string, longer: string)
    requires Includes(longer, query) && Matches(c, longer)
    ensures Matches(c, query)
  {
    if Includes(Lower(c.name), Lower(longer)) {
      LowerPreservesIncludes(longer, query);
      IncludesTransitive(Lower(c.name), Lower(longer), Lower(query));
    } else {
      IncludesTransitive(c.phone, longer, query);
    }
  }

  /** Typing more, so that the old query occurs in the new one, only ever drops customers:
      the new result is an order-preserving part of the old one. */
  lemma LongerQueryNarrows(cs: seq<Customer>, query: string, longer: string)
    requires Includes(longer, query)
    ensures IsSubsequence(Search(cs, longer), Search(cs, query))
  {
    forall c | c in cs && Matcher(longer)(c)
      ensures Matcher(query)(c)
    {
      LongerQueryMatchesLess(c, query, longer);
    }
    FilterStronger(cs, Matcher(query), Matcher(longer));
  }

  datatype EmptyState = EmptyState(title: string, hint: string, offersAdd: bool)

  const NotFoundTitle: string := "কোনো গ্রাহক পাওয়া যায়নি"
  const NotFoundHint: string := "অন্য কিছু দিয়ে খুঁজুন"
  const NoCustomersTitle: string := "কোনো গ্রাহক নেই"
  const NoCustomersHint: string := "নতুন গ্রাহক যোগ করুন শুরু করতে"

  /** The block shown instead of the list when nothing is left; a non-empty query is truthy. */
  function EmptyStateOf(cs: seq<Customer>, query: string): Option<EmptyState>
  {
    if |Search(cs, query)| != 0 then None
    else if query != "" then Some(EmptyState(NotFoundTitle, NotFoundHint, false))
    else Some(EmptyState(NoCustomersTitle, NoCustomersHint, true))
  }

  /** With an empty query the block appears exactly when there are no customers and offers
      to add one; with a non-empty query it appears exactly when no customer matches and
      says nothing was found. */
  lemma EmptyStateSpec(cs: seq<Customer>, query: string)
    ensures query == "" ==>
      (EmptyStateOf(cs, query).Some? <==> cs == [])
      && (EmptyStateOf(cs, query).Some? ==> EmptyStateOf(cs, query).value.title == NoCustomersTitle
                                             && EmptyStateOf(cs, query).value.offersAdd)
    ensures query != "" ==>
      (EmptyStateOf(cs, query).Some? <==> forall i :: 0 <= i < |cs| ==> !Matches(cs[i], query))
      && (EmptyStateOf(cs, query).Some? ==> EmptyStateOf(cs, query).value.title == NotFoundTitle
                                             && !EmptyStateOf(cs, query).value.offersAdd)
  {
    if query == "" {
      EmptyQueryKeepsAll(cs);
    } else {
      var r := Search(cs, query);
      if r != [] {
        assert r[0] in cs;
        var k :| 0 <= k < |cs| && cs[k] == r[0];
      }
    }
  }
}
