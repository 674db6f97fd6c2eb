/** src/services/api/orderService.js: the module array `orderData` and the
    five calls over it. The artificial delay before each call is not modelled;
    the clock that stamps `createdAt` is the parameter `now`. */
module OrderService {
  import opened Json
  import opened Wrappers
  import opened Stores

  const NotFound := "Order not found"

  /** The name of the module-level store. */
  const StoreName := "orderData"

  class OrderStore {
    /** The module-level array `orderData`. */
    var orderData: seq<Record>

    ghost predicate Valid()
      reads this
    {
      Keyed(orderData)
    }

    constructor (seed: seq<Record>)
      requires Keyed(seed)
      ensures Valid() && orderData == seed
    {
      orderData := seed;
    }

    /** `getAllOrders`: the records in store order; the store is not touched. */
    method GetAll() returns (all: seq<Record>)
      ensures all == orderData
    {
      all := orderData;
    }

    /** `getOrderById`: the first record with the `Id`, or "Order not found". */
    method GetById(id: int) returns (r: Result<Record>)
      ensures r.Ok? <==> exists i :: 0 <= i < |orderData| && HasId(orderData[i], id)
      ensures r.Ok? ==> HasId(r.value, id) && r.value == orderData[FindIndex(orderData, id)]
      ensures r.Err? ==> r.error == NotFound
    {
      var k := FindIndex(orderData, id);
      if k == -1 {
        r := Err(NotFound);
      } else {
        r := Ok(orderData[k]);
      }
    }

    /** `createOrder` as intended: the new record, with `Id` one above the
        largest, goes to the front and every old record shifts by one. */
    method Create(input: Record, now: string) returns (created: Record)
      requires Valid() && |orderData| > 0
      requires "Id" in input ==> input["Id"].Num?
      modifies this
      ensures Valid()
      ensures created == Created(old(orderData), input, now)
      ensures Ok(created) == CreateIn(StoreName, AsArray(old(orderData)), input, now, map[])
      ensures orderData == [created] + old(orderData)
      ensures UniqueIds(old(orderData)) && "Id" !in input ==> UniqueIds(orderData)
    {
      if UniqueIds(orderData) && "Id" !in input {
        CreatePreservesUnique(orderData, input, now);
      }
      created := Created(orderData, input, now);
      assert Spread(created, map[]) == created;
      orderData := [created] + orderData;
    }

    /** `updateOrder`, which works as written: only the record found for `id`
        changes, to its fields overridden by `updates` with `Id` pinned to `id`;
        an absent `id` fails and leaves the store as it was. */
    method Update(id: int, updates: Record) returns (r: Result<Record>)
      requires Valid()
      modifies this
      ensures Valid()
      ensures FindIndex(old(orderData), id) == -1 ==> r == Err(NotFound) && orderData == old(orderData)
      ensures FindIndex(old(orderData), id) >= 0 ==>
        var k := FindIndex(old(orderData), id);
        r == Ok(Merged(old(orderData)[k], updates, id)) && orderData == old(orderData)[k := r.value]
      ensures UniqueIds(old(orderData)) ==> UniqueIds(orderData)
      ensures r == UpdateIn(StoreName, AsArray(old(orderData)), id, updates, NotFound)
    {
      var k := FindIndex(orderData, id);
      if k == -1 {
        r := Err(NotFound);
        return;
      }
      if UniqueIds(orderData) {
        UpdatePreservesUnique(orderData, id, updates);
      }
      var updated := Merged(orderData[k], updates, id);
      orderData := orderData[k := updated];
      r := Ok(updated);
    }

    /** `deleteOrder`: splices out the first record with `id`; an absent `id`
        fails and leaves the store as it was. */
    method Delete(id: int) returns (r: Result<bool>)
      requires Valid()
      modifies this
      ensures Valid()
      ensures FindIndex(old(orderData), id) == -1 ==> r == Err(NotFound) && orderData == old(orderData)
      ensures FindIndex(old(orderData), id) >= 0 ==>
        r == Ok(true) && orderData == RemoveAt(old(orderData), FindIndex(old(orderData), id))
      ensures UniqueIds(old(orderData)) ==> UniqueIds(orderData) && forall i :: 0 <= i < |orderData| ==> !HasId(orderData[i], id)
    {
      var k := FindIndex(orderData, id);
      if k == -1 {
        r := Err(NotFound);
      } else {
        RemoveAtKeyed(orderData, k);
        if UniqueIds(orderData) {
          DeleteRemovesId(orderData, id);
        }
        orderData := RemoveAt(orderData, k);
        r := Ok(true);
      }
    }
  }

  /** `createOrder` as written. Its parameter is also named `orderData`, so
      inside the function that name is the caller's plain object, not the store:
      the body runs with `orderData.map` looked up on an object. */
  function CreateAsWritten(orderData: Record, now: string): (r: Result<Record>)
    ensures r == Err(NotAFunction("orderData.map"))
  {
    CreateIn(StoreName, Obj(orderData), orderData, now, map[])
  }

  /** The same body gives the intended order when the name resolves to the
      store, and fails when it resolves to the order object as written. */
  lemma ShadowedCreateFails(s: seq<Record>, input: Record, now: string)
    requires |s| > 0 && Keyed(s)
    ensures CreateIn(StoreName, AsArray(s), input, now, map[]) == Ok(Created(s, input, now))
    ensures CreateAsWritten(input, now).Err?
  {
    assert Spread(Created(s, input, now), map[]) == Created(s, input, now);
  }
}
