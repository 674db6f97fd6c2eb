/** src/components/pages/Customers.jsx: the admin customer list, its search,
    and the "Customer Insights" panel under the table. The outcome of
    `getAllCustomers` is a parameter. */
module CustomersPage {
  import opened Wrappers
  import opened Text
  import opened Seqs
  import opened Entities
  import opened Views

  /** The lower-cased name or email contains the lower-cased term. */
  predicate Matches(c: Customer, term: string)
  {
    Contains(ToLower(c.name), ToLower(term)) || Contains(ToLower(c.email), ToLower(term))
  }

  /** The search effect: every customer for an empty term, otherwise exactly
      the matching ones, in list order. */
  function Search(customers: seq<Customer>, term: string): (shown: seq<Customer>)
    ensures term == "" ==> shown == customers
    ensures term != "" ==> forall c :: c in shown <==> c in customers && Matches(c, term)
    ensures IsSubsequence(shown, customers)
  {
    if term == "" then
      SubsequenceOfItself(customers);
      customers
    else
      FilterIsSubsequence(customers, c => Matches(c, term));
      Filter(customers, c => Matches(c, term))
  }

  /** `c.orders && c.orders.length > 0`. */
  predicate Active(c: Customer)
  {
    c.orders.Some? && |c.orders.value| > 0
  }

  /** `customer.totalSpent || 0`: a missing total counts as 0. */
  function Spent(c: Customer): (v: real)
    ensures c.totalSpent.None? ==> v == 0.0
    ensures c.totalSpent.Some? ==> v == c.totalSpent.value
  {
    if c.totalSpent.Some? then c.totalSpent.value else 0.0
  }

  /** The figures of the panel. */
  datatype Insights = Insights(total: nat, active: nat, average: real, revenue: real)

  /** Total customers, active ones, the average spent and the total revenue.
      The panel only shows with at least one customer, so the average never
      divides by zero. */
  function InsightsOf(customers: seq<Customer>): (s: Insights)
    requires |customers| > 0
    ensures s.total == |customers| && s.active <= s.total
    ensures s.average * (s.total as real) == s.revenue
  {
    var revenue := SumReal(customers, Spent);
    Insights(|customers|, CountIf(customers, Active), revenue / (|customers| as real), revenue)
  }

  /** A customer with nothing spent and no orders, as `createCustomer` returns
      one (`orders: []`, `totalSpent: 0`), put in front of the list, changes
      neither the revenue nor the active count. */
  lemma AddingNewCustomer(customers: seq<Customer>, c: Customer)
    requires Spent(c) == 0.0 && !Active(c)
    ensures SumReal([c] + customers, Spent) == SumReal(customers, Spent)
    ensures CountIf([c] + customers, Active) == CountIf(customers, Active)
  {
    assert ([c] + customers)[1..] == customers;
    FilterAppend([c], customers, Active);
  }

  /** When no recorded total is negative, neither is the revenue. */
  lemma {:induction false} RevenueNonNegative(customers: seq<Customer>)
    requires forall i :: 0 <= i < |customers| ==> Spent(customers[i]) >= 0.0
    ensures SumReal(customers, Spent) >= 0.0
    decreases |customers|
  {
    if customers != [] {
      RevenueNonNegative(customers[1..]);
    }
  }

  /** Nor is the average. */
  lemma AverageNonNegative(customers: seq<Customer>)
    requires |customers| > 0
    requires forall i :: 0 <= i < |customers| ==> Spent(customers[i]) >= 0.0
    ensures InsightsOf(customers).average >= 0.0
  {
    RevenueNonNegative(customers);
  }

  class CustomersAdmin {
    var customers: seq<Customer>
    var filteredCustomers: seq<Customer>
    var loading: bool
    var error: Option<string>
    var searchTerm: string

    /** The search effect has run: the table shows the search over the list. */
    ghost predicate Valid()
      reads this
    {
      filteredCustomers == Search(customers, searchTerm)
    }

    constructor ()
      ensures Valid() && customers == [] && loading && error == None && searchTerm == ""
    {
      customers := [];
      filteredCustomers := [];
      loading := true;
      error := None;
      searchTerm := "";
    }

    /** The table: loading, error, empty or the searched customers. */
    function Table(): View<Customer>
      reads this
    {
      ListView(loading, error, filteredCustomers)
    }

    /** The insights panel shows after loading, without an error, when the
        search leaves at least one customer; it sums the searched customers. */
    function Panel(): (p: Option<Insights>)
      reads this
      ensures p.Some? <==> Table().Showing?
      ensures p.Some? ==> p.value.total == |filteredCustomers| > 0
    {
      if !loading && !ShowsError(error) && |filteredCustomers| > 0 then Some(InsightsOf(filteredCustomers))
      else None
    }

    /** `loadCustomers`, with the outcome of `getAllCustomers` as a parameter. */
    method LoadCustomers(outcome: Result<seq<Customer>>)
      requires Valid()
      modifies this
      ensures Valid() && !loading && searchTerm == old(searchTerm)
      ensures outcome.Ok? ==> error == None && customers == outcome.value
      ensures outcome.Err? ==> error == Some(outcome.error) && customers == old(customers)
    {
      error := None;
      loading := true;
      match outcome {
        case Ok(data) =>
          customers := data;
          filteredCustomers := Search(customers, searchTerm);
        case Err(message) =>
          error := Some(message);
      }
      loading := false;
    }

    /** `handleSearch`, then the search effect. */
    method HandleSearch(term: string)
      modifies this
      ensures Valid() && searchTerm == term
      ensures customers == old(customers) && loading == old(loading) && error == old(error)
    {
      searchTerm := term;
      filteredCustomers := Search(customers, searchTerm);
    }
  }
}
