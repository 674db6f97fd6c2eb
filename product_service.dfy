/** src/services/api/productService.js: the module array `productData` and the
    five calls over it. The artificial delay before each call is not modelled;
    the clock that stamps `createdAt` is the parameter `now`. */
module ProductService {
  import opened Json
  import opened Wrappers
  import opened Stores

  const NotFound := "Product not found"

  /** The name of the module-level store. */
  const StoreName := "productData"

  class ProductStore {
    /** The module-level array `productData`. */
    var productData: seq<Record>

    ghost predicate Valid()
      reads this
    {
      Keyed(productData)
    }

    constructor (seed: seq<Record>)
      requires Keyed(seed)
      ensures Valid() && productData == seed
    {
      productData := seed;
    }

    /** `getAllProducts`: the records in store order; the store is not touched. */
    method GetAll() returns (all: seq<Record>)
      ensures all == productData
    {
      all := productData;
    }

    /** `getProductById`: the first record with the `Id`, or "Product not found". */
    method GetById(id: int) returns (r: Result<Record>)
      ensures r.Ok? <==> exists i :: 0 <= i < |productData| && HasId(productData[i], id)
      ensures r.Ok? ==> HasId(r.value, id) && r.value == productData[FindIndex(productData, id)]
      ensures r.Err? ==> r.error == NotFound
    {
      var k := FindIndex(productData, id);
      if k == -1 {
        r := Err(NotFound);
      } else {
        r := Ok(productData[k]);
      }
    }

    /** `createProduct` as intended: the new record, with `Id` one above the
        largest, goes to the front and every old record shifts by one. */
    method Create(input: Record, now: string) returns (created: Record)
      requires Valid() && |productData| > 0
      requires "Id" in input ==> input["Id"].Num?
      modifies this
      ensures Valid()
      ensures created == Created(old(productData), input, now)
      ensures Ok(created) == CreateIn(StoreName, AsArray(old(productData)), input, now, map[])
      ensures productData == [created] + old(productData)
      ensures UniqueIds(old(productData)) && "Id" !in input ==> UniqueIds(productData)
    {
      if UniqueIds(productData) && "Id" !in input {
        CreatePreservesUnique(productData, input, now);
      }
      created := Created(productData, input, now);
      assert Spread(created, map[]) == created;
      productData := [created] + productData;
    }

    /** `updateProduct` as intended: only the record found for `id` changes, to
        its fields overridden by `updates` with `Id` pinned to `id`; an absent
        `id` fails and leaves the store as it was. */
    method Update(id: int, updates: Record) returns (r: Result<Record>)
      requires Valid()
      modifies this
      ensures Valid()
      ensures FindIndex(old(productData), id) == -1 ==> r == Err(NotFound) && productData == old(productData)
      ensures FindIndex(old(productData), id) >= 0 ==>
        var k := FindIndex(old(productData), id);
        r == Ok(Merged(old(productData)[k], updates, id)) && productData == old(productData)[k := r.value]
      ensures UniqueIds(old(productData)) ==> UniqueIds(productData)
      ensures r == UpdateIn(StoreName, AsArray(old(productData)), id, updates, NotFound)
    {
      var k := FindIndex(productData, id);
      if k == -1 {
        r := Err(NotFound);
        return;
      }
      if UniqueIds(productData) {
        UpdatePreservesUnique(productData, id, updates);
      }
      var updated := Merged(productData[k], updates, id);
      productData := productData[k := updated];
      r := Ok(updated);
    }

    /** `deleteProduct`: splices out the first record with `id`; an absent `id`
        fails and leaves the store as it was. */
    method Delete(id: int) returns (r: Result<bool>)
      requires Valid()
      modifies this
      ensures Valid()
      ensures FindIndex(old(productData), id) == -1 ==> r == Err(NotFound) && productData == old(productData)
      ensures FindIndex(old(productData), id) >= 0 ==>
        r == Ok(true) && productData == RemoveAt(old(productData), FindIndex(old(productData), id))
      ensures UniqueIds(old(productData)) ==> UniqueIds(productData) && forall i :: 0 <= i < |productData| ==> !HasId(productData[i], id)
    {
      var k := FindIndex(productData, id);
      if k == -1 {
        r := Err(NotFound);
      } else {
        RemoveAtKeyed(productData, k);
        if UniqueIds(productData) {
          DeleteRemovesId(productData, id);
        }
        productData := RemoveAt(productData, k);
        r := Ok(true);
      }
    }
  }

  /** `createProduct` as written. Its parameter is also named `productData`, so
      inside the function that name is the caller's plain object, not the store:
      the body runs with `productData.map` looked up on an object. */
  function CreateAsWritten(productData: Record, now: string): (r: Result<Record>)
    ensures r == Err(NotAFunction("productData.map"))
  {
    CreateIn(StoreName, Obj(productData), productData, now, map[])
  }

  /** `updateProduct` as written: the parameter `productData` hides the store in
      the same way, so `findIndex` is looked up on the update object. */
  function UpdateAsWritten(id: int, productData: Record): (r: Result<Record>)
    ensures r == Err(NotAFunction("productData.findIndex"))
  {
    UpdateIn(StoreName, Obj(productData), id, productData, NotFound)
  }

  /** The same bodies give the intended result when the name resolves to the
      store, and fail when it resolves to the caller's object as written. */
  lemma ShadowedCallsFail(s: seq<Record>, input: Record, id: int, now: string)
    requires |s| > 0 && Keyed(s)
    ensures CreateIn(StoreName, AsArray(s), input, now, map[]) == Ok(Created(s, input, now))
    ensures CreateAsWritten(input, now).Err?
    ensures FindIndex(s, id) >= 0 ==>
      UpdateIn(StoreName, AsArray(s), id, input, NotFound) == Ok(Merged(s[FindIndex(s, id)], input, id))
    ensures FindIndex(s, id) == -1 ==> UpdateIn(StoreName, AsArray(s), id, input, NotFound) == Err(NotFound)
    ensures UpdateAsWritten(id, input).Err?
  {
    assert Spread(Created(s, input, now), map[]) == Created(s, input, now);
  }
}
