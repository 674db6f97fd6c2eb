/** src/components/pages/ProductDetail.jsx: one product, a quantity stepper,
    the stock flags, and the same cart as the storefront. */
module ProductDetail {
  import opened Wrappers
  import opened Entities
  import opened Seqs
  import opened Cart

  /** Below this inventory the page flags low stock. */
  const LowStockLimit: int := 10

  /** `isOutOfStock`. */
  predicate OutOfStock(p: Product) { p.inventory == 0 }

  /** `isLowStock`. */
  predicate LowStock(p: Product) { p.inventory < LowStockLimit }

  /** The "Low Stock" badge shows only for a product low on stock but not out of it. */
  predicate ShowsLowStockBadge(p: Product) { LowStock(p) && !OutOfStock(p) }

  /** The "Out of Stock" badge, and the add button disabled with that label. */
  predicate ShowsOutOfStockBadge(p: Product) { OutOfStock(p) }

  /** At most one stock badge shows; "Low Stock" shows exactly for inventories
      below ten other than 0, and a product out of stock is also low on stock. */
  lemma StockBadges(p: Product)
    ensures !(ShowsLowStockBadge(p) && ShowsOutOfStockBadge(p))
    ensures ShowsLowStockBadge(p) <==> p.inventory < LowStockLimit && p.inventory != 0
    ensures OutOfStock(p) ==> LowStock(p)
  {
  }

  /** What the page shows: the loader, the error (the page's message, or
      "Product not found" when there is no product), or the product. */
  datatype Screen = Loading | Failed(message: string) | Showing(product: Product)

  function Max(a: int, b: int): int { if a >= b then a else b }

  class ProductDetailPage {
    var product: Option<Product>
    var loading: bool
    var error: Option<string>
    var selectedImage: int
    var quantity: int
    var cartItems: seq<CartItem>
    var isCartOpen: bool

    /** The stepper never shows less than 1. */
    ghost predicate Valid()
      reads this
    {
      quantity >= 1
    }

    constructor (savedCart: Option<seq<CartItem>>)
      ensures Valid() && quantity == 1 && selectedImage == 0
      ensures product == None && loading && error == None && !isCartOpen
      ensures cartItems == if savedCart.Some? then savedCart.value else []
    {
      product := None;
      loading := true;
      error := None;
      selectedImage := 0;
      quantity := 1;
      isCartOpen := false;
      cartItems := if savedCart.Some? then savedCart.value else [];
    }

    function CartCount(): int
      reads this
    {
      Count(cartItems)
    }

    /** The render: the loader first, then the error for a failed load or a
        missing product, then the product. */
    function View(): (s: Screen)
      reads this
      ensures s.Loading? <==> loading
      ensures s.Showing? <==> !loading && (error.None? || error.value == "") && product.Some?
      ensures s.Failed? && (error.None? || error.value == "") ==> s.message == "Product not found"
    {
      if loading then Loading
      else if (error.Some? && error.value != "") then Failed(error.value)
      else if product.None? then Failed("Product not found")
      else Showing(product.value)
    }

    /** `loadProduct`, with the outcome of `getProductById` as a parameter. */
    method LoadProduct(outcome: Result<Product>)
      modifies this
      ensures !loading && quantity == old(quantity) && cartItems == old(cartItems)
      ensures outcome.Ok? ==> error == None && product == Some(outcome.value)
      ensures outcome.Err? ==> error == Some(outcome.error) && product == old(product)
      ensures selectedImage == old(selectedImage) && isCartOpen == old(isCartOpen)
    {
      error := None;
      loading := true;
      match outcome {
        case Ok(data) => product := Some(data);
        case Err(message) => error := Some(message);
      }
      loading := false;
    }

    /** `handleAddToCart`: nothing without a product or with inventory 0;
        otherwise the stepper's quantity is added. The combined quantity in the
        cart is not checked against the inventory. */
    method HandleAddToCart()
      modifies this
      ensures product.None? || OutOfStock(product.value) ==> cartItems == old(cartItems)
      ensures product.Some? && !OutOfStock(product.value) ==>
        cartItems == Add(old(cartItems), product.value, quantity)
      ensures product.Some? && !OutOfStock(product.value) && OneEntryPerId(old(cartItems)) ==>
        OneEntryPerId(cartItems) && Count(cartItems) == old(Count(cartItems)) + quantity
      ensures product == old(product) && quantity == old(quantity)
      ensures loading == old(loading) && error == old(error)
      ensures selectedImage == old(selectedImage) && isCartOpen == old(isCartOpen)
    {
      if product.None? || product.value.inventory == 0 {
        return;
      }
      if OneEntryPerId(cartItems) {
        AddKeepsInvariant(cartItems, product.value, quantity);
      }
      cartItems := Add(cartItems, product.value, quantity);
    }

    /** The minus button is disabled at 1 or less. */
    predicate DecrementEnabled()
      reads this
    {
      quantity > 1
    }

    /** The plus button is disabled once the quantity reaches the inventory. */
    predicate IncrementEnabled()
      reads this
      requires product.Some?
    {
      quantity < product.value.inventory
    }

    /** A click on minus: `setQuantity(Math.max(1, quantity - 1))` when enabled. */
    method ClickDecrement()
      requires Valid()
      modifies this
      ensures Valid()
      ensures quantity == if old(quantity) > 1 then old(quantity) - 1 else old(quantity)
      ensures product == old(product) && cartItems == old(cartItems)
      ensures loading == old(loading) && error == old(error)
      ensures selectedImage == old(selectedImage) && isCartOpen == old(isCartOpen)
    {
      if DecrementEnabled() {
        quantity := Max(1, quantity - 1);
      }
    }

    /** A click on plus: `setQuantity(quantity + 1)` when enabled. Starting at or
        under the inventory, the stepper stays at or under it. */
    method ClickIncrement()
      requires Valid() && product.Some?
      modifies this
      ensures Valid() && product == old(product)
      ensures quantity == if old(quantity) < product.value.inventory then old(quantity) + 1 else old(quantity)
      ensures old(quantity) <= Max(1, product.value.inventory) ==> quantity <= Max(1, product.value.inventory)
      ensures cartItems == old(cartItems)
      ensures loading == old(loading) && error == old(error)
      ensures selectedImage == old(selectedImage) && isCartOpen == old(isCartOpen)
    {
      if IncrementEnabled() {
        quantity := quantity + 1;
      }
    }

    /** `handleUpdateQuantity`: 0 or less removes the entry. */
    method HandleUpdateQuantity(productId: int, newQuantity: int)
      modifies this
      ensures cartItems == Update(old(cartItems), productId, newQuantity)
      ensures OneEntryPerId(old(cartItems)) ==> OneEntryPerId(cartItems)
      ensures product == old(product) && quantity == old(quantity)
      ensures loading == old(loading) && error == old(error)
      ensures selectedImage == old(selectedImage) && isCartOpen == old(isCartOpen)
    {
      if newQuantity <= 0 {
        HandleRemoveItem(productId);
        return;
      }
      UpdateSets(cartItems, productId, newQuantity);
      cartItems := SetQuantity(cartItems, productId, newQuantity);
    }

    /** `handleRemoveItem`. */
    method HandleRemoveItem(productId: int)
      modifies this
      ensures cartItems == Remove(old(cartItems), productId)
      ensures !HasEntry(cartItems, productId)
      ensures OneEntryPerId(old(cartItems)) ==> OneEntryPerId(cartItems)
      ensures product == old(product) && quantity == old(quantity)
      ensures loading == old(loading) && error == old(error)
      ensures selectedImage == old(selectedImage) && isCartOpen == old(isCartOpen)
    {
      RemoveEffect(cartItems, productId);
      cartItems := Remove(cartItems, productId);
    }
  }

  /** Nothing bounds the cart by the stock: with 2 in stock and 2 already in the
      cart, adding the stepper's 2 puts 4 in the cart. */
  lemma CartMayExceedStock(p: Product)
    requires p.inventory == 2
    ensures Add([CartItem(p, 2)], p, 2) == [CartItem(p, 4)]
    ensures Count(Add([CartItem(p, 2)], p, 2)) > p.inventory
  {
    assert HasEntry([CartItem(p, 2)], p.id) by {
      assert [CartItem(p, 2)][0].product.id == p.id;
    }
    AddEffect([CartItem(p, 2)], p, 2);
    assert Add([CartItem(p, 2)], p, 2)[0] == CartItem(p, 4);
    assert [CartItem(p, 4)][1..] == [];
    assert Count([CartItem(p, 4)]) == Quantity(CartItem(p, 4)) + SumInt([], Quantity);
  }
}
