/** src/components/pages/Products.jsx: the admin product list, its search, and
    the local list kept in step with the delete, update and create calls. The
    page's state fields are the class's fields; each service call's outcome is
    a parameter. */
module ProductsPage {
  import opened Wrappers
  import opened Text
  import opened Seqs
  import opened Entities
  import opened Views
  import ProductForm

  /** The lower-cased title or description contains the lower-cased term. */
  predicate Matches(p: Product, term: string)
  {
    Contains(ToLower(p.title), ToLower(term)) || Contains(ToLower(p.description), ToLower(term))
  }

  /** The search effect: every product for an empty term, otherwise exactly the
      matching ones, in list order. */
  function Search(products: seq<Product>, term: string): (shown: seq<Product>)
    ensures term == "" ==> shown == products
    ensures term != "" ==> forall p :: p in shown <==> p in products && Matches(p, term)
    ensures IsSubsequence(shown, products)
  {
    if term == "" then
      SubsequenceOfItself(products);
      products
    else
      FilterIsSubsequence(products, p => Matches(p, term));
      Filter(products, p => Matches(p, term))
  }

  /** The list after a successful delete: the products with another `Id`. */
  function WithoutProduct(products: seq<Product>, id: int): (r: seq<Product>)
    ensures forall p :: p in r <==> p in products && p.id != id
    ensures IsSubsequence(r, products)
  {
    FilterIsSubsequence(products, (p: Product) => p.id != id);
    Filter(products, (p: Product) => p.id != id)
  }

  /** The list after a successful update: the entries with that `Id` become the
      returned product, the rest stay where they were. */
  function WithUpdated(products: seq<Product>, id: int, updated: Product): (r: seq<Product>)
    ensures |r| == |products|
    ensures forall i :: 0 <= i < |products| ==> r[i] == if products[i].id == id then updated else products[i]
  {
    ReplaceWhere(products, (p: Product) => p.id == id, (_: Product) => updated)
  }

  class ProductsAdmin {
    var products: seq<Product>
    var filteredProducts: seq<Product>
    var loading: bool
    var error: Option<string>
    var showForm: bool
    var editingProduct: Option<Product>
    var searchTerm: string

    /** The search effect has run: the grid shows the search over the list. */
    ghost predicate Valid()
      reads this
    {
      filteredProducts == Search(products, searchTerm)
    }

    constructor ()
      ensures Valid() && products == [] && loading && error == None
      ensures !showForm && editingProduct == None && searchTerm == ""
    {
      products := [];
      filteredProducts := [];
      loading := true;
      error := None;
      showForm := false;
      editingProduct := None;
      searchTerm := "";
    }

    /** The grid: loading, error, empty or the searched products. */
    function Screen(): View<Product>
      reads this
    {
      ListView(loading, error, filteredProducts)
    }

    /** `loadProducts`, with the outcome of `getAllProducts` as a parameter. */
    method LoadProducts(outcome: Result<seq<Product>>)
      requires Valid()
      modifies this
      ensures Valid() && !loading && searchTerm == old(searchTerm)
      ensures outcome.Ok? ==> error == None && products == outcome.value
      ensures outcome.Err? ==> error == Some(outcome.error) && products == old(products)
      ensures showForm == old(showForm) && editingProduct == old(editingProduct)
    {
      error := None;
      loading := true;
      match outcome {
        case Ok(data) =>
          products := data;
          filteredProducts := Search(products, searchTerm);
        case Err(message) =>
          error := Some(message);
      }
      loading := false;
    }

    /** `handleSearch`, then the search effect. */
    method HandleSearch(term: string)
      modifies this
      ensures Valid() && searchTerm == term
      ensures products == old(products) && loading == old(loading) && error == old(error)
      ensures showForm == old(showForm) && editingProduct == old(editingProduct)
    {
      searchTerm := term;
      filteredProducts := Search(products, searchTerm);
    }

    /** `handleEdit`: opens the form on the product. */
    method HandleEdit(p: Product)
      requires Valid()
      modifies this
      ensures Valid() && showForm && editingProduct == Some(p)
      ensures products == old(products) && searchTerm == old(searchTerm)
      ensures loading == old(loading) && error == old(error)
    {
      editingProduct := Some(p);
      showForm := true;
    }

    /** The "Add Product" button: opens the form, leaving `editingProduct` as it is. */
    method OpenForm()
      requires Valid()
      modifies this
      ensures Valid() && showForm && editingProduct == old(editingProduct)
      ensures products == old(products) && searchTerm == old(searchTerm)
      ensures loading == old(loading) && error == old(error)
    {
      showForm := true;
    }

    /** `handleDelete`: nothing unless confirmed; after a successful
        `deleteProduct` the list loses the products with that `Id`. */
    method HandleDelete(productId: int, confirmed: bool, outcome: Result<bool>)
      requires Valid()
      modifies this
      ensures Valid() && searchTerm == old(searchTerm)
      ensures confirmed && outcome.Ok? ==> products == WithoutProduct(old(products), productId)
      ensures !confirmed || outcome.Err? ==> products == old(products)
      ensures forall p :: p in products ==> p in old(products)
      ensures showForm == old(showForm) && editingProduct == old(editingProduct)
      ensures loading == old(loading) && error == old(error)
      ensures !confirmed || outcome.Err? ==> Screen() == old(Screen())
    {
      if !confirmed {
        return;
      }
      if outcome.Ok? {
        products := WithoutProduct(products, productId);
        filteredProducts := Search(products, searchTerm);
      }
    }

    /** `handleSubmit`, with the outcome of `updateProduct` (when editing) or
        `createProduct` as a parameter. A success replaces the edited product or
        puts the new one first, and closes the form; a failure changes nothing. */
    method HandleSubmit(productData: ProductForm.ProductInput, outcome: Result<Product>)
      requires Valid()
      modifies this
      ensures Valid() && searchTerm == old(searchTerm)
      ensures outcome.Ok? && old(editingProduct).Some? ==>
        products == WithUpdated(old(products), old(editingProduct).value.id, outcome.value)
      ensures outcome.Ok? && old(editingProduct).None? ==> products == [outcome.value] + old(products)
      ensures outcome.Ok? ==> !showForm && editingProduct == None
      ensures outcome.Err? ==>
        products == old(products) && showForm == old(showForm) && editingProduct == old(editingProduct)
      ensures loading == old(loading) && error == old(error)
    {
      match outcome {
        case Err(_) =>
        case Ok(saved) =>
          if editingProduct.Some? {
            products := WithUpdated(products, editingProduct.value.id, saved);
          } else {
            products := [saved] + products;
          }
          filteredProducts := Search(products, searchTerm);
          showForm := false;
          editingProduct := None;
      }
    }

    /** `handleCloseForm`. */
    method HandleCloseForm()
      requires Valid()
      modifies this
      ensures Valid() && !showForm && editingProduct == None
      ensures products == old(products) && searchTerm == old(searchTerm)
      ensures loading == old(loading) && error == old(error)
    {
      showForm := false;
      editingProduct := None;
    }

    /** The grid's empty message names the search term when there is one. */
    function EmptyMessage(): (m: string)
      reads this
      ensures searchTerm == "" ==> m == "No products found"
      ensures searchTerm != "" ==> m == "No products found for \"" + searchTerm + "\""
    {
      if searchTerm != "" then "No products found for \"" + searchTerm + "\"" else "No products found"
    }
  }

  /** With unique `Id`s, saving an edit replaces exactly the edited product, in
      its place. */
  lemma UpdateIsReplaceAt(products: seq<Product>, k: nat, updated: Product)
    requires DistinctKeys(products, ProductId) && k < |products|
    ensures WithUpdated(products, products[k].id, updated) == products[k := updated]
  {
    var r := WithUpdated(products, products[k].id, updated);
    forall i | 0 <= i < |products|
      ensures r[i] == products[k := updated][i]
    {
      if i < k {
        assert products[i].id != products[k].id;
      } else if i > k {
        assert products[k].id != products[i].id;
      }
    }
  }

  /** With unique `Id`s, a delete removes exactly the deleted product, and
      keeps the `Id`s unique. */
  lemma DeleteIsRemoveAt(products: seq<Product>, k: nat)
    requires DistinctKeys(products, ProductId) && k < |products|
    ensures WithoutProduct(products, products[k].id) == products[..k] + products[k + 1..]
  {
    var id := products[k].id;
    var keep := (p: Product) => p.id != id;
    var before, after := products[..k], products[k + 1..];
    assert products == before + ([products[k]] + after);
    FilterAppend(before, [products[k]] + after, keep);
    FilterAppend([products[k]], after, keep);
    OthersKept(products, k, before, after);
    FilterKeepsAll(before, keep);
    FilterKeepsAll(after, keep);
  }

  lemma OthersKept(products: seq<Product>, k: nat, before: seq<Product>, after: seq<Product>)
    requires DistinctKeys(products, ProductId) && k < |products|
    requires before == products[..k] && after == products[k + 1..]
    ensures forall i :: 0 <= i < |before| ==> before[i].id != products[k].id
    ensures forall i :: 0 <= i < |after| ==> after[i].id != products[k].id
  {
    forall i | 0 <= i < |after|
      ensures after[i].id != products[k].id
    {
      assert after[i] == products[k + 1 + i];
    }
  }

  /** A successful create puts the new product first; when its `Id` is fresh
      the `Id`s stay unique. */
  lemma CreateKeepsUnique(products: seq<Product>, created: Product)
    requires DistinctKeys(products, ProductId) && forall p :: p in products ==> p.id != created.id
    ensures DistinctKeys([created] + products, ProductId)
  {
    var r := [created] + products;
    forall i, j | 0 <= i < j < |r|
      ensures r[i].id != r[j].id
    {
      if i == 0 {
        assert r[j] in products;
      } else {
        assert r[i] == products[i - 1] && r[j] == products[j - 1];
      }
    }
  }
}
