/** The shopping cart the storefront pages keep: a list of product snapshots,
    each with a `quantity`, one entry per product `Id`. The handlers of
    src/components/pages/Storefront.jsx and src/components/pages/ProductDetail.jsx
    compute the next cart with `find`, `map`, `filter` and spreads; those
    computations are the functions here, and the pages' classes call them. */
module Cart {
  import opened Seqs
  import opened Entities

  /** `{ ...product, quantity }`: the product as it was when added, and how many. */
  datatype CartItem = CartItem(product: Product, quantity: int)

  function Quantity(item: CartItem): int { item.quantity }

  /** `item.price * item.quantity`. */
  function LineTotal(item: CartItem): real { item.product.price * item.quantity as real }

  predicate HasEntry(cart: seq<CartItem>, id: int)
  {
    exists i :: 0 <= i < |cart| && cart[i].product.id == id
  }

  /** At most one entry per product `Id`. */
  predicate OneEntryPerId(cart: seq<CartItem>)
  {
    forall i, j :: 0 <= i < j < |cart| ==> cart[i].product.id != cart[j].product.id
  }

  /** `add(product, n)`: an entry already holding the product's `Id` grows by
      `n` and keeps its snapshot; otherwise the product goes at the end with
      quantity `n`. */
  function Add(cart: seq<CartItem>, p: Product, n: int): (r: seq<CartItem>)
  {
    if HasEntry(cart, p.id) then
      ReplaceWhere(cart, (item: CartItem) => item.product.id == p.id,
                         (item: CartItem) => item.(quantity := item.quantity + n))
    else cart + [CartItem(p, n)]
  }

  /** `cart.map(item => item.Id === id ? { ...item, quantity: q } : item)`. */
  function SetQuantity(cart: seq<CartItem>, id: int, q: int): (r: seq<CartItem>)
  {
    ReplaceWhere(cart, (item: CartItem) => item.product.id == id, (item: CartItem) => item.(quantity := q))
  }

  /** `handleRemoveItem`: `cart.filter(item => item.Id !== id)`. */
  function Remove(cart: seq<CartItem>, id: int): (r: seq<CartItem>)
  {
    Filter(cart, (item: CartItem) => item.product.id != id)
  }

  /** `handleUpdateQuantity`: a quantity of 0 or less removes the entry. */
  function Update(cart: seq<CartItem>, id: int, q: int): (r: seq<CartItem>)
  {
    if q <= 0 then Remove(cart, id) else SetQuantity(cart, id, q)
  }

  /** `cartCount`: the sum of the quantities. */
  function Count(cart: seq<CartItem>): int
  {
    SumInt(cart, Quantity)
  }

  /** The cart total of the sidebar and the checkout subtotal: sum of price times quantity. */
  function Subtotal(cart: seq<CartItem>): real
  {
    SumReal(cart, LineTotal)
  }

  // ---------------------------------------------------------------------------
  // Finding the one entry of a product
  // ---------------------------------------------------------------------------

  /** With one entry per `Id`, the entry holding `id` is the only one. */
  lemma OnlyEntry(cart: seq<CartItem>, k: nat)
    requires OneEntryPerId(cart) && k < |cart|
    ensures forall i :: 0 <= i < |cart| && cart[i].product.id == cart[k].product.id ==> i == k
  {
  }

  /** A `map` that touches only the entries of a product touches exactly one
      position when the cart has one entry per `Id`. */
  lemma ReplaceOne(cart: seq<CartItem>, k: nat, x: CartItem, hit: CartItem -> bool, with: CartItem -> CartItem)
    requires OneEntryPerId(cart) && k < |cart|
    requires forall i :: 0 <= i < |cart| ==> (hit(cart[i]) <==> cart[i].product.id == cart[k].product.id)
    requires with(cart[k]) == x
    ensures ReplaceWhere(cart, hit, with) == cart[k := x]
  {
    OnlyEntry(cart, k);
  }

  /** Leaving out the entries of one product, in a cart with one entry for it at
      `k`, is the splice of position `k`. */
  lemma RemoveIsSplice(cart: seq<CartItem>, k: nat)
    requires OneEntryPerId(cart) && k < |cart|
    ensures Remove(cart, cart[k].product.id) == cart[..k] + cart[k + 1..]
  {
    var id := cart[k].product.id;
    OnlyEntry(cart, k);
    FilterDropsOne(cart, (item: CartItem) => item.product.id != id, k);
  }

  /** A filter whose test fails at exactly one position drops exactly that one. */
  lemma {:induction false} FilterDropsOne<T(!new)>(s: seq<T>, keep: T -> bool, k: nat)
    requires k < |s| && !keep(s[k])
    requires forall i :: 0 <= i < |s| && i != k ==> keep(s[i])
    ensures Filter(s, keep) == s[..k] + s[k + 1..]
    decreases |s|
  {
    if k == 0 {
      FilterKeepsAll(s[1..], keep);
    } else {
      FilterDropsOne(s[1..], keep, k - 1);
      assert s[..k] + s[k + 1..] == [s[0]] + (s[1..][..k - 1] + s[1..][k..]);
    }
  }

  // ---------------------------------------------------------------------------
  // What add, update and remove promise
  // ---------------------------------------------------------------------------

  /** Adding a product already in the cart adds no entry: the entry holding it
      grows by `n` and every other entry is as it was. Adding one not in the cart
      appends one entry with quantity `n`. */
  lemma AddEffect(cart: seq<CartItem>, p: Product, n: int)
    ensures HasEntry(cart, p.id) ==>
      |Add(cart, p, n)| == |cart| &&
      forall i :: 0 <= i < |cart| ==>
        Add(cart, p, n)[i] == if cart[i].product.id == p.id then cart[i].(quantity := cart[i].quantity + n) else cart[i]
    ensures !HasEntry(cart, p.id) ==> Add(cart, p, n) == cart + [CartItem(p, n)]
    ensures HasEntry(Add(cart, p, n), p.id)
  {
    if !HasEntry(cart, p.id) {
      assert (cart + [CartItem(p, n)])[|cart|].product.id == p.id;
    } else {
      var k :| 0 <= k < |cart| && cart[k].product.id == p.id;
      assert Add(cart, p, n)[k].product.id == p.id;
    }
  }

  /** Adding keeps one entry per `Id` and raises the count by exactly `n`. */
  lemma AddKeepsInvariant(cart: seq<CartItem>, p: Product, n: int)
    requires OneEntryPerId(cart)
    ensures OneEntryPerId(Add(cart, p, n))
    ensures Count(Add(cart, p, n)) == Count(cart) + n
  {
    if HasEntry(cart, p.id) {
      var k :| 0 <= k < |cart| && cart[k].product.id == p.id;
      var x := cart[k].(quantity := cart[k].quantity + n);
      ReplaceOne(cart, k, x, (item: CartItem) => item.product.id == p.id,
                             (item: CartItem) => item.(quantity := item.quantity + n));
      SumIntUpdate(cart, k, x, Quantity);
    } else {
      var r := cart + [CartItem(p, n)];
      forall i, j | 0 <= i < j < |r| ensures r[i].product.id != r[j].product.id {
        if j == |cart| {
          assert !(cart[i].product.id == p.id);
        }
      }
      SumIntAppend(cart, CartItem(p, n), Quantity);
    }
  }

  /** A quantity above 0 changes only the quantity of the entry holding `id`;
      with one entry per `Id` the count moves by the difference. */
  lemma UpdateSets(cart: seq<CartItem>, id: int, q: int)
    requires q > 0
    ensures |Update(cart, id, q)| == |cart|
    ensures forall i :: 0 <= i < |cart| ==>
      Update(cart, id, q)[i] == if cart[i].product.id == id then cart[i].(quantity := q) else cart[i]
    ensures OneEntryPerId(cart) ==> OneEntryPerId(Update(cart, id, q))
    ensures forall k :: 0 <= k < |cart| && OneEntryPerId(cart) && cart[k].product.id == id ==>
      Count(Update(cart, id, q)) == Count(cart) - cart[k].quantity + q
  {
    forall k | 0 <= k < |cart| && OneEntryPerId(cart) && cart[k].product.id == id
      ensures Count(Update(cart, id, q)) == Count(cart) - cart[k].quantity + q
    {
      ReplaceOne(cart, k, cart[k].(quantity := q), (item: CartItem) => item.product.id == id,
                 (item: CartItem) => item.(quantity := q));
      SumIntUpdate(cart, k, cart[k].(quantity := q), Quantity);
    }
  }

  /** Removing leaves no entry with `id` and keeps every other entry, in order. */
  lemma RemoveEffect(cart: seq<CartItem>, id: int)
    ensures !HasEntry(Remove(cart, id), id)
    ensures forall x :: x in Remove(cart, id) <==> x in cart && x.product.id != id
    ensures IsSubsequence(Remove(cart, id), cart)
    ensures OneEntryPerId(cart) ==> OneEntryPerId(Remove(cart, id))
    ensures !HasEntry(cart, id) ==> Remove(cart, id) == cart
  {
    var keep := (item: CartItem) => item.product.id != id;
    FilterIsSubsequence(cart, keep);
    if !HasEntry(cart, id) {
      FilterKeepsAll(cart, keep);
    }
    if OneEntryPerId(cart) {
      SubsequenceKeepsOneEntry(Remove(cart, id), cart);
    }
  }

  /** A subsequence of a cart with one entry per `Id` has one entry per `Id`. */
  lemma {:induction false} SubsequenceKeepsOneEntry(r: seq<CartItem>, s: seq<CartItem>)
    requires IsSubsequence(r, s) && OneEntryPerId(s)
    ensures OneEntryPerId(r)
    decreases |s|
  {
    if r != [] {
      assert OneEntryPerId(s[1..]);
      if r[0] == s[0] {
        SubsequenceKeepsOneEntry(r[1..], s[1..]);
        forall j | 0 < j < |r| ensures r[0].product.id != r[j].product.id {
          SubsequenceMembers(r[1..], s[1..]);
          assert r[j] == r[1..][j - 1] && r[j] in r[1..];
          assert r[j] in s[1..];
          var m :| 0 <= m < |s[1..]| && s[1..][m] == r[j];
          assert s[m + 1] == r[j];
        }
      } else {
        SubsequenceKeepsOneEntry(r, s[1..]);
      }
    }
  }

  /** Every element of a subsequence is an element of the whole. */
  lemma {:induction false} SubsequenceMembers<T>(r: seq<T>, s: seq<T>)
    requires IsSubsequence(r, s)
    ensures forall x :: x in r ==> x in s
    decreases |s|
  {
    if r != [] {
      if r[0] == s[0] {
        SubsequenceMembers(r[1..], s[1..]);
        forall x | x in r ensures x in s {
          if x != r[0] {
            assert x in r[1..];
          }
        }
      } else {
        SubsequenceMembers(r, s[1..]);
      }
    }
  }

  /** Removing the one entry of a product lowers the count by its quantity and
      the length by one. */
  lemma RemoveCount(cart: seq<CartItem>, k: nat)
    requires OneEntryPerId(cart) && k < |cart|
    ensures |Remove(cart, cart[k].product.id)| == |cart| - 1
    ensures Count(Remove(cart, cart[k].product.id)) == Count(cart) - cart[k].quantity
  {
    RemoveIsSplice(cart, k);
    SumIntRemove(cart, k, Quantity);
  }

  /** An empty cart counts 0 and totals 0; an appended entry adds its line total. */
  lemma SubtotalFacts(cart: seq<CartItem>, x: CartItem)
    ensures Count([]) == 0 && Subtotal([]) == 0.0
    ensures Subtotal(cart + [x]) == Subtotal(cart) + LineTotal(x)
  {
    SumRealAppend(cart, x, LineTotal);
  }
}
