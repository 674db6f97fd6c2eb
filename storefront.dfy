/** src/components/pages/Storefront.jsx: the catalog of products for sale and
    the cart handlers. The page's state fields are the class's fields; the cart
    read from and written back to local storage is the `cartItems` field. */
module Storefront {
  import opened Wrappers
  import opened Seqs
  import opened Entities
  import opened Cart
  import opened Views

  /** A product the storefront offers: active, with stock left. */
  predicate ForSale(p: Product)
  {
    p.status == "active" && p.inventory > 0
  }

  /** The catalog: exactly the products for sale, in the order received. */
  function Catalog(data: seq<Product>): (shown: seq<Product>)
    ensures forall p :: p in shown <==> p in data && ForSale(p)
    ensures IsSubsequence(shown, data)
  {
    FilterIsSubsequence(data, ForSale);
    Filter(data, ForSale)
  }

  class StorefrontPage {
    var products: seq<Product>
    var loading: bool
    var error: Option<string>
    var cartItems: seq<CartItem>
    var isCartOpen: bool

    /** The first render, with the saved cart when there is one. */
    constructor (savedCart: Option<seq<CartItem>>)
      ensures products == [] && loading && error == None && !isCartOpen
      ensures cartItems == if savedCart.Some? then savedCart.value else []
    {
      products := [];
      loading := true;
      error := None;
      isCartOpen := false;
      cartItems := if savedCart.Some? then savedCart.value else [];
    }

    /** `cartCount`. */
    function CartCount(): int
      reads this
    {
      Count(cartItems)
    }

    /** The products section: loading, error, "No Products Available" or the grid. */
    function Screen(): View<Product>
      reads this
    {
      ListView(loading, error, products)
    }

    /** `loadProducts`, with the outcome of `getAllProducts` as a parameter. */
    method LoadProducts(outcome: Result<seq<Product>>)
      modifies this
      ensures !loading && cartItems == old(cartItems) && isCartOpen == old(isCartOpen)
      ensures outcome.Ok? ==> error == None && products == Catalog(outcome.value)
      ensures outcome.Err? ==> error == Some(outcome.error) && products == old(products)
    {
      error := None;
      loading := true;
      match outcome {
        case Ok(data) => products := Catalog(data);
        case Err(message) => error := Some(message);
      }
      loading := false;
    }

    /** `handleAddToCart`: one more of the product. */
    method HandleAddToCart(p: Product)
      modifies this
      ensures cartItems == Add(old(cartItems), p, 1)
      ensures OneEntryPerId(old(cartItems)) ==> OneEntryPerId(cartItems) && Count(cartItems) == old(Count(cartItems)) + 1
      ensures products == old(products) && loading == old(loading) && error == old(error) && isCartOpen == old(isCartOpen)
    {
      if OneEntryPerId(cartItems) {
        AddKeepsInvariant(cartItems, p, 1);
      }
      cartItems := Add(cartItems, p, 1);
    }

    /** `handleUpdateQuantity`: 0 or less removes the entry. */
    method HandleUpdateQuantity(productId: int, newQuantity: int)
      modifies this
      ensures cartItems == Update(old(cartItems), productId, newQuantity)
      ensures OneEntryPerId(old(cartItems)) ==> OneEntryPerId(cartItems)
      ensures newQuantity <= 0 ==> !HasEntry(cartItems, productId)
      ensures products == old(products) && loading == old(loading) && error == old(error) && isCartOpen == old(isCartOpen)
    {
      if newQuantity <= 0 {
        HandleRemoveItem(productId);
        return;
      }
      UpdateSets(cartItems, productId, newQuantity);
      cartItems := SetQuantity(cartItems, productId, newQuantity);
    }

    /** `handleRemoveItem`. */
    method HandleRemoveItem(productId: int)
      modifies this
      ensures cartItems == Remove(old(cartItems), productId)
      ensures !HasEntry(cartItems, productId)
      ensures OneEntryPerId(old(cartItems)) ==> OneEntryPerId(cartItems)
      ensures products == old(products) && loading == old(loading) && error == old(error) && isCartOpen == old(isCartOpen)
    {
      RemoveEffect(cartItems, productId);
      cartItems := Remove(cartItems, productId);
    }

    /** `handleCheckout`: closes the sidebar; the navigation is not modelled. */
    method HandleCheckout()
      modifies this
      ensures !isCartOpen
      ensures cartItems == old(cartItems) && products == old(products) && loading == old(loading) && error == old(error)
    {
      isCartOpen := false;
    }
  }
}
