/** src/components/organisms/CartSidebar.jsx: the cart total, and the quantity
    each entry's minus, plus and trash buttons ask the page for. The page's
    `handleUpdateQuantity` and `handleRemoveItem` then apply `Cart.Update` and
    `Cart.Remove`. */
module CartSidebar {
  import opened Cart

  /** The minus button asks for `Math.max(0, quantity - 1)`. */
  function MinusRequest(item: CartItem): (q: int)
    ensures q >= 0
    ensures item.quantity >= 1 ==> q == item.quantity - 1
    ensures item.quantity <= 1 ==> q == 0
  {
    if item.quantity - 1 >= 0 then item.quantity - 1 else 0
  }

  /** The plus button asks for `quantity + 1`, with no cap by the inventory. */
  function PlusRequest(item: CartItem): int
  {
    item.quantity + 1
  }

  /** The trash button asks to remove the entry's `Id`. */
  function TrashRequest(item: CartItem): int
  {
    item.product.id
  }

  /** The footer with the total and the checkout button shows iff the cart has entries. */
  predicate ShowsFooter(cart: seq<CartItem>)
  {
    |cart| > 0
  }

  /** Minus on an entry at 1 asks for 0, which removes the entry. */
  lemma MinusFromOneRemoves(cart: seq<CartItem>, k: nat)
    requires k < |cart| && cart[k].quantity == 1
    ensures Update(cart, cart[k].product.id, MinusRequest(cart[k])) == Remove(cart, cart[k].product.id)
    ensures !HasEntry(Update(cart, cart[k].product.id, MinusRequest(cart[k])), cart[k].product.id)
  {
    RemoveEffect(cart, cart[k].product.id);
  }

  /** On a cart with one entry per `Id`, minus on an entry of at least 1 lowers
      the count by exactly one, whether or not the entry goes. */
  lemma MinusLowersCount(cart: seq<CartItem>, k: nat)
    requires OneEntryPerId(cart) && k < |cart| && cart[k].quantity >= 1
    ensures Count(Update(cart, cart[k].product.id, MinusRequest(cart[k]))) == Count(cart) - 1
  {
    if cart[k].quantity == 1 {
      RemoveCount(cart, k);
    } else {
      UpdateSets(cart, cart[k].product.id, cart[k].quantity - 1);
    }
  }

  /** Plus on an entry raises the count by exactly one and keeps every other entry. */
  lemma PlusRaisesCount(cart: seq<CartItem>, k: nat)
    requires OneEntryPerId(cart) && k < |cart| && cart[k].quantity >= 0
    ensures Count(Update(cart, cart[k].product.id, PlusRequest(cart[k]))) == Count(cart) + 1
    ensures forall i :: 0 <= i < |cart| && i != k ==> Update(cart, cart[k].product.id, PlusRequest(cart[k]))[i] == cart[i]
  {
    UpdateSets(cart, cart[k].product.id, cart[k].quantity + 1);
  }

  /** Trash removes exactly that entry: one fewer entry, its quantity off the count. */
  lemma TrashRemovesEntry(cart: seq<CartItem>, k: nat)
    requires OneEntryPerId(cart) && k < |cart|
    ensures |Remove(cart, TrashRequest(cart[k]))| == |cart| - 1
    ensures !HasEntry(Remove(cart, TrashRequest(cart[k])), cart[k].product.id)
    ensures Count(Remove(cart, TrashRequest(cart[k]))) == Count(cart) - cart[k].quantity
  {
    RemoveCount(cart, k);
    RemoveEffect(cart, cart[k].product.id);
  }

  /** The total of an empty cart is 0, and the footer then hides. */
  lemma EmptyCart()
    ensures Subtotal([]) == 0.0 && !ShowsFooter([])
  {
  }
}
