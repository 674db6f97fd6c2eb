/** src/services/api/dashboardService.js: the statistics cards and the "recent"
    lists. The service reads the imported mock arrays themselves, not the copies
    the other services mutate, and `getRecentOrders`/`getRecentProducts` sort
    those imported arrays in place before taking the first five. */
module DashboardService {
  import opened Text
  import opened Seqs
  import opened Entities

  /** How many entries the "recent" lists hold. */
  const RecentCount: nat := 5

  /** Below this inventory a product counts as low on stock. */
  const LowStockLimit: int := 10

  datatype Trend = Up | Down

  /** The value a card shows: a sum of money or a count. The money is shown with
      `toLocaleString`, a count with `toString`. */
  datatype StatValue = Amount(amount: real) | Count(count: int)

  datatype StatCard = StatCard(title: string, value: StatValue, change: string, trend: Trend, icon: string)

  function OrderTotal(o: Order): real { o.total }

  predicate IsPending(o: Order) { o.status == "pending" }

  predicate IsLowStock(p: Product) { p.inventory < LowStockLimit }

  function TotalRevenue(orders: seq<Order>): real
  {
    SumReal(orders, OrderTotal)
  }

  function PendingCount(orders: seq<Order>): nat
  {
    CountIf(orders, IsPending)
  }

  function LowStockCount(products: seq<Product>): nat
  {
    CountIf(products, IsLowStock)
  }

  /** `getStats`: four cards, in the order Revenue, Orders, Products, Customers. */
  function Stats(orders: seq<Order>, products: seq<Product>, customers: seq<Customer>): (cards: seq<StatCard>)
    ensures |cards| == 4
    ensures cards[0].title == "Total Revenue" && cards[0].value == Amount(TotalRevenue(orders))
    ensures cards[1].title == "Total Orders" && cards[1].value == Count(|orders|)
    ensures cards[2].title == "Products" && cards[2].value == Count(|products|)
    ensures cards[3].title == "Customers" && cards[3].value == Count(|customers|)
    ensures cards[0].trend == cards[1].trend == cards[3].trend == Up
  {
    var low := LowStockCount(products);
    [ StatCard("Total Revenue", Amount(TotalRevenue(orders)), "+12.5%", Up, "DollarSign"),
      StatCard("Total Orders", Count(|orders|), "+8.2%", Up, "ShoppingBag"),
      StatCard("Products", Count(|products|), IntToString(low) + " low stock", if low > 0 then Down else Up, "Package"),
      StatCard("Customers", Count(|customers|), "+15.3%", Up, "Users") ]
  }

  /** The Products card trends down exactly when some product has fewer than ten
      in stock, and its text leads with how many do. */
  lemma ProductsTrend(orders: seq<Order>, products: seq<Product>, customers: seq<Customer>)
    ensures Stats(orders, products, customers)[2].trend == Down <==>
            exists i :: 0 <= i < |products| && products[i].inventory < LowStockLimit
    ensures Stats(orders, products, customers)[2].change == IntToString(LowStockCount(products)) + " low stock"
  {
    if exists i :: 0 <= i < |products| && products[i].inventory < LowStockLimit {
      var i :| 0 <= i < |products| && products[i].inventory < LowStockLimit;
      assert products[i] in Filter(products, IsLowStock);
    }
    if LowStockCount(products) > 0 {
      var p := Filter(products, IsLowStock)[0];
      assert p in products;
    }
  }

  /** The pending count and the low-stock count never exceed the list lengths,
      and the revenue grows by a new order's total. */
  lemma StatBounds(orders: seq<Order>, products: seq<Product>, o: Order)
    ensures PendingCount(orders) <= |orders| && LowStockCount(products) <= |products|
    ensures TotalRevenue(orders + [o]) == TotalRevenue(orders) + o.total
  {
    SumRealAppend(orders, o, OrderTotal);
  }

  // ---------------------------------------------------------------------------
  // The in-place sort of getRecentOrders / getRecentProducts
  // ---------------------------------------------------------------------------

  /** Non-increasing by `key`: newest first when `key` is the creation time. */
  ghost predicate NewestFirst<T>(s: seq<T>, key: T -> int)
  {
    forall i, j :: 0 <= i < j < |s| ==> key(s[i]) >= key(s[j])
  }

  /** `a.sort((x, y) => key(y) - key(x))`, done in place by insertion. */
  method SortNewestFirst<T>(a: array<T>, key: T -> int)
    modifies a
    ensures NewestFirst(a[..], key)
    ensures multiset(a[..]) == multiset(old(a[..]))
  {
    if a.Length == 0 {
      return;
    }
    var i := 1;
    while i < a.Length
      invariant 1 <= i <= a.Length
      invariant NewestFirst(a[..i], key)
      invariant multiset(a[..]) == multiset(old(a[..]))
    {
      InsertNewest(a, i, key);
      i := i + 1;
    }
    assert a[..i] == a[..];
  }

  /** One insertion step: moves `a[i]` left past every newer entry, so that the
      sorted prefix grows by one. */
  method InsertNewest<T>(a: array<T>, i: nat, key: T -> int)
    requires i < a.Length && NewestFirst(a[..i], key)
    modifies a
    ensures NewestFirst(a[..i + 1], key)
    ensures multiset(a[..]) == multiset(old(a[..]))
  {
    var j := i;
    while j > 0 && key(a[j - 1]) < key(a[j])
      invariant 0 <= j <= i
      invariant forall p, q :: 0 <= p < q <= i && q != j ==> key(a[p]) >= key(a[q])
      invariant multiset(a[..]) == multiset(old(a[..]))
    {
      SwapDown(a, j);
      j := j - 1;
    }
  }

  /** Exchanges `a[j - 1]` and `a[j]`. */
  method SwapDown<T>(a: array<T>, j: nat)
    requires 0 < j < a.Length
    modifies a
    ensures a[j - 1] == old(a[j]) && a[j] == old(a[j - 1])
    ensures forall k :: 0 <= k < a.Length && k != j - 1 && k != j ==> a[k] == old(a[k])
    ensures multiset(a[..]) == multiset(old(a[..]))
  {
    a[j - 1], a[j] := a[j], a[j - 1];
  }

  /** After the sort, the first `n` entries are at least as new as every other. */
  lemma PrefixIsNewest<T>(s: seq<T>, key: T -> int, n: nat)
    requires NewestFirst(s, key) && n <= |s|
    ensures forall i, j :: 0 <= i < n <= j < |s| ==> key(s[i]) >= key(s[j])
    ensures NewestFirst(s[..n], key)
  {
  }

  /** The arrays the dashboard service imports. */
  class Dashboard {
    const orders: array<Order>
    const products: array<Product>
    const customers: array<Customer>

    constructor (orders: array<Order>, products: array<Product>, customers: array<Customer>)
      ensures this.orders == orders && this.products == products && this.customers == customers
    {
      this.orders := orders;
      this.products := products;
      this.customers := customers;
    }

    /** `getStats`: reads the three arrays and changes nothing. */
    method GetStats() returns (cards: seq<StatCard>)
      ensures cards == Stats(orders[..], products[..], customers[..])
    {
      cards := Stats(orders[..], products[..], customers[..]);
    }

    /** `getRecentOrders`: sorts the imported orders newest first, in place, and
        returns the first five (all of them when there are fewer). */
    method GetRecentOrders() returns (recent: seq<Order>)
      modifies orders
      ensures multiset(orders[..]) == multiset(old(orders[..]))
      ensures NewestFirst(orders[..], (o: Order) => o.createdAt)
      ensures |recent| == if orders.Length < RecentCount then orders.Length else RecentCount
      ensures recent == orders[..|recent|]
      ensures forall o :: o in recent ==> o in old(orders[..])
    {
      SortNewestFirst(orders, (o: Order) => o.createdAt);
      var n := if orders.Length < RecentCount then orders.Length else RecentCount;
      recent := orders[..n];
      forall o | o in recent ensures o in old(orders[..]) {
        assert o in multiset(orders[..]);
      }
    }

    /** `getRecentProducts`: the same over the imported products. */
    method GetRecentProducts() returns (recent: seq<Product>)
      modifies products
      ensures multiset(products[..]) == multiset(old(products[..]))
      ensures NewestFirst(products[..], (p: Product) => p.createdAt)
      ensures |recent| == if products.Length < RecentCount then products.Length else RecentCount
      ensures recent == products[..|recent|]
      ensures forall p :: p in recent ==> p in old(products[..])
    {
      SortNewestFirst(products, (p: Product) => p.createdAt);
      var n := if products.Length < RecentCount then products.Length else RecentCount;
      recent := products[..n];
      forall p | p in recent ensures p in old(products[..]) {
        assert p in multiset(products[..]);
      }
    }
  }
}
