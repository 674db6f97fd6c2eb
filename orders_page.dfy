/** src/components/pages/Orders.jsx: the admin order list, its search, the
    status change from the table, and the summary under the table. Each service
    call's outcome is a parameter. */
module OrdersPage {
  import opened Wrappers
  import opened Text
  import opened Seqs
  import opened Entities
  import opened Views

  /** The customer's name or email, lower-cased, contains the lower-cased term,
      or the order's `Id` in decimal contains the term as typed. */
  predicate Matches(o: Order, term: string)
  {
    Contains(ToLower(o.customerName), ToLower(term)) ||
    Contains(ToLower(o.customerEmail), ToLower(term)) ||
    Contains(IntToString(o.id), term)
  }

  /** The search effect: every order for an empty term, otherwise exactly the
      matching ones, in list order. */
  function Search(orders: seq<Order>, term: string): (shown: seq<Order>)
    ensures term == "" ==> shown == orders
    ensures term != "" ==> forall o :: o in shown <==> o in orders && Matches(o, term)
    ensures IsSubsequence(shown, orders)
  {
    if term == "" then
      SubsequenceOfItself(orders);
      orders
    else
      FilterIsSubsequence(orders, o => Matches(o, term));
      Filter(orders, o => Matches(o, term))
  }

  /** Typing an order's number finds it. */
  lemma SearchById(orders: seq<Order>, o: Order)
    requires o in orders
    ensures o in Search(orders, IntToString(o.id))
  {
    assert IntToString(o.id)[..|IntToString(o.id)|] == IntToString(o.id);
  }

  /** `orders.map(order => order.Id === orderId ? updatedOrder : order)`. */
  function WithUpdated(orders: seq<Order>, id: int, updated: Order): (r: seq<Order>)
    ensures |r| == |orders|
    ensures forall i :: 0 <= i < |orders| ==> r[i] == if orders[i].id == id then updated else orders[i]
  {
    ReplaceWhere(orders, (o: Order) => o.id == id, (_: Order) => updated)
  }

  /** With unique `Id`s, the update replaces the one order with that `Id`. */
  lemma UpdateIsReplaceAt(orders: seq<Order>, k: nat, updated: Order)
    requires DistinctKeys(orders, OrderId) && k < |orders|
    ensures WithUpdated(orders, orders[k].id, updated) == orders[k := updated]
  {
    var r := WithUpdated(orders, orders[k].id, updated);
    forall i | 0 <= i < |orders|
      ensures r[i] == orders[k := updated][i]
    {
      if i < k {
        assert orders[i].id != orders[k].id;
      } else if i > k {
        assert orders[k].id != orders[i].id;
      }
    }
  }

  /** The figures of the "Order Summary" panel. */
  datatype Summary = Summary(total: nat, delivered: nat, pending: nat, revenue: real)

  predicate Delivered(o: Order) { o.status == "delivered" }

  predicate Pending(o: Order) { o.status == "pending" }

  function Total(o: Order): real { o.total }

  /** Total orders, delivered, pending, and the sum of the order totals. */
  function SummaryOf(orders: seq<Order>): (s: Summary)
    ensures s.delivered + s.pending <= s.total == |orders|
  {
    DisjointCounts(orders, Delivered, Pending);
    Summary(|orders|, CountIf(orders, Delivered), CountIf(orders, Pending), SumReal(orders, Total))
  }

  /** Revenue is not negative when no order total is. */
  lemma {:induction false} RevenueNonNegative(orders: seq<Order>)
    requires forall i :: 0 <= i < |orders| ==> orders[i].total >= 0.0
    ensures SummaryOf(orders).revenue >= 0.0
    decreases |orders|
  {
    if orders != [] {
      RevenueNonNegative(orders[1..]);
    }
  }

  /** A status change that keeps the order's total moves no revenue, and moves
      the delivered and pending counts by the old and new status alone. */
  lemma StatusChangeSummary(orders: seq<Order>, k: nat, status: string)
    requires DistinctKeys(orders, OrderId) && k < |orders|
    ensures var after := SummaryOf(WithUpdated(orders, orders[k].id, orders[k].(status := status)));
      after.total == |orders| &&
      after.revenue == SummaryOf(orders).revenue &&
      after.delivered == SummaryOf(orders).delivered
        - (if Delivered(orders[k]) then 1 else 0) + (if status == "delivered" then 1 else 0) &&
      after.pending == SummaryOf(orders).pending
        - (if Pending(orders[k]) then 1 else 0) + (if status == "pending" then 1 else 0)
  {
    var o := orders[k].(status := status);
    UpdateIsReplaceAt(orders, k, o);
    SumRealUpdate(orders, k, o, Total);
    CountIfUpdate(orders, k, o, Delivered);
    CountIfUpdate(orders, k, o, Pending);
  }

  class OrdersAdmin {
    var orders: seq<Order>
    var filteredOrders: seq<Order>
    var loading: bool
    var error: Option<string>
    var searchTerm: string

    /** The search effect has run: the table shows the search over the list. */
    ghost predicate Valid()
      reads this
    {
      filteredOrders == Search(orders, searchTerm)
    }

    constructor ()
      ensures Valid() && orders == [] && loading && error == None && searchTerm == ""
    {
      orders := [];
      filteredOrders := [];
      loading := true;
      error := None;
      searchTerm := "";
    }

    /** The table: loading, error, empty or the searched orders. */
    function Table(): View<Order>
      reads this
    {
      ListView(loading, error, filteredOrders)
    }

    /** The summary panel shows after loading, without an error, when the
        search leaves at least one order; it sums the searched orders. */
    function Panel(): (p: Option<Summary>)
      reads this
      ensures p.Some? <==> Table().Showing?
      ensures p.Some? ==> p.value.total > 0
    {
      if !loading && !ShowsError(error) && |filteredOrders| > 0 then Some(SummaryOf(filteredOrders))
      else None
    }

    /** `loadOrders`, with the outcome of `getAllOrders` as a parameter. */
    method LoadOrders(outcome: Result<seq<Order>>)
      requires Valid()
      modifies this
      ensures Valid() && !loading && searchTerm == old(searchTerm)
      ensures outcome.Ok? ==> error == None && orders == outcome.value
      ensures outcome.Err? ==> error == Some(outcome.error) && orders == old(orders)
    {
      error := None;
      loading := true;
      match outcome {
        case Ok(data) =>
          orders := data;
          filteredOrders := Search(orders, searchTerm);
        case Err(message) =>
          error := Some(message);
      }
      loading := false;
    }

    /** `handleSearch`, then the search effect. */
    method HandleSearch(term: string)
      modifies this
      ensures Valid() && searchTerm == term
      ensures orders == old(orders) && loading == old(loading) && error == old(error)
    {
      searchTerm := term;
      filteredOrders := Search(orders, searchTerm);
    }

    /** `handleStatusChange`, with the outcome of `updateOrder` as a parameter:
        a success puts the returned order in place of every order with that
        `Id`; a failure changes nothing. */
    method HandleStatusChange(orderId: int, newStatus: string, outcome: Result<Order>)
      requires Valid()
      modifies this
      ensures Valid() && searchTerm == old(searchTerm)
      ensures outcome.Ok? ==> orders == WithUpdated(old(orders), orderId, outcome.value)
      ensures outcome.Err? ==> orders == old(orders)
      ensures loading == old(loading) && error == old(error)
    {
      if outcome.Ok? {
        orders := WithUpdated(orders, orderId, outcome.value);
        filteredOrders := Search(orders, searchTerm);
      }
    }
  }
}
