/** src/services/api/customerService.js: the module array `customerData` and the
    five calls over it. The artificial delay before each call is not modelled;
    the clock that stamps `createdAt` is the parameter `now`. */
module CustomerService {
  import opened Json
  import opened Wrappers
  import opened Stores

  const NotFound := "Customer not found"

  /** The name of the module-level store. */
  const StoreName := "customerData"

  /** The keys `createCustomer` writes after the caller's fields. */
  const NewCustomerFields: Record := map["orders" := Arr([]), "totalSpent" := Num(0.0)]

  /** The record `createCustomer` builds: `{ Id: max + 1, ...input, createdAt: now,
      orders: [], totalSpent: 0 }`. The last three keys come after the caller's
      fields, so a new customer always starts with no orders and nothing spent,
      whatever the caller sends; every other key the caller sends is kept. */
  function CreatedCustomer(s: seq<Record>, input: Record, now: string): (r: Record)
    requires |s| > 0 && Keyed(s)
    ensures r.Keys == input.Keys + {"Id", "createdAt", "orders", "totalSpent"}
    ensures r["orders"] == Arr([]) && r["totalSpent"] == Num(0.0) && r["createdAt"] == Str(now)
    ensures r["Id"] == if "Id" in input then input["Id"] else Num(MaxId(s) + 1.0)
    ensures forall k :: k in input && k !in {"createdAt", "orders", "totalSpent"} ==> r[k] == input[k]
  {
    Spread(Created(s, input, now), NewCustomerFields)
  }

  /** Creating a customer keeps the `Id`s unique, unless the caller supplies an `Id`. */
  lemma CreatedCustomerPreservesUnique(s: seq<Record>, input: Record, now: string)
    requires |s| > 0 && UniqueIds(s) && "Id" !in input
    ensures UniqueIds([CreatedCustomer(s, input, now)] + s)
  {
    CreatedIdIsFresh(s, input, now);
    PrependFreshPreservesUnique(s, CreatedCustomer(s, input, now));
  }

  class CustomerStore {
    /** The module-level array `customerData`. */
    var customerData: seq<Record>

    ghost predicate Valid()
      reads this
    {
      Keyed(customerData)
    }

    constructor (seed: seq<Record>)
      requires Keyed(seed)
      ensures Valid() && customerData == seed
    {
      customerData := seed;
    }

    /** `getAllCustomers`: the records in store order; the store is not touched. */
    method GetAll() returns (all: seq<Record>)
      ensures all == customerData
    {
      all := customerData;
    }

    /** `getCustomerById`: the first record with the `Id`, or "Customer not found". */
    method GetById(id: int) returns (r: Result<Record>)
      ensures r.Ok? <==> exists i :: 0 <= i < |customerData| && HasId(customerData[i], id)
      ensures r.Ok? ==> HasId(r.value, id) && r.value == customerData[FindIndex(customerData, id)]
      ensures r.Err? ==> r.error == NotFound
    {
      var k := FindIndex(customerData, id);
      if k == -1 {
        r := Err(NotFound);
      } else {
        r := Ok(customerData[k]);
      }
    }

    /** `createCustomer` as intended: the new customer, with `Id` one above the
        largest, no orders and nothing spent, goes to the front and every old
        record shifts by one. */
    method Create(input: Record, now: string) returns (created: Record)
      requires Valid() && |customerData| > 0
      requires "Id" in input ==> input["Id"].Num?
      modifies this
      ensures Valid()
      ensures created == CreatedCustomer(old(customerData), input, now)
      ensures Ok(created) == CreateIn(StoreName, AsArray(old(customerData)), input, now, NewCustomerFields)
      ensures customerData == [created] + old(customerData)
      ensures UniqueIds(old(customerData)) && "Id" !in input ==> UniqueIds(customerData)
    {
      if UniqueIds(customerData) && "Id" !in input {
        CreatedCustomerPreservesUnique(customerData, input, now);
      }
      created := CreatedCustomer(customerData, input, now);
      customerData := [created] + customerData;
    }

    /** `updateCustomer`, which works as written: only the record found for `id` changes, to
        its fields overridden by `updates` with `Id` pinned to `id`; an absent
        `id` fails and leaves the store as it was. */
    method Update(id: int, updates: Record) returns (r: Result<Record>)
      requires Valid()
      modifies this
      ensures Valid()
      ensures FindIndex(old(customerData), id) == -1 ==> r == Err(NotFound) && customerData == old(customerData)
      ensures FindIndex(old(customerData), id) >= 0 ==>
        var k := FindIndex(old(customerData), id);
        r == Ok(Merged(old(customerData)[k], updates, id)) && customerData == old(customerData)[k := r.value]
      ensures UniqueIds(old(customerData)) ==> UniqueIds(customerData)
      ensures r == UpdateIn(StoreName, AsArray(old(customerData)), id, updates, NotFound)
    {
      var k := FindIndex(customerData, id);
      if k == -1 {
        r := Err(NotFound);
        return;
      }
      if UniqueIds(customerData) {
        UpdatePreservesUnique(customerData, id, updates);
      }
      var updated := Merged(customerData[k], updates, id);
      customerData := customerData[k := updated];
      r := Ok(updated);
    }

    /** `deleteCustomer`: splices out the first record with `id`; an absent `id`
        fails and leaves the store as it was. */
    method Delete(id: int) returns (r: Result<bool>)
      requires Valid()
      modifies this
      ensures Valid()
      ensures FindIndex(old(customerData), id) == -1 ==> r == Err(NotFound) && customerData == old(customerData)
      ensures FindIndex(old(customerData), id) >= 0 ==>
        r == Ok(true) && customerData == RemoveAt(old(customerData), FindIndex(old(customerData), id))
      ensures UniqueIds(old(customerData)) ==> UniqueIds(customerData) && forall i :: 0 <= i < |customerData| ==> !HasId(customerData[i], id)
    {
      var k := FindIndex(customerData, id);
      if k == -1 {
        r := Err(NotFound);
      } else {
        RemoveAtKeyed(customerData, k);
        if UniqueIds(customerData) {
          DeleteRemovesId(customerData, id);
        }
        customerData := RemoveAt(customerData, k);
        r := Ok(true);
      }
    }
  }

  /** `createCustomer` as written. Its parameter is also named `customerData`,
      so inside the function that name is the caller's plain object, not the
      store: the body runs with `customerData.map` looked up on an object. */
  function CreateAsWritten(customerData: Record, now: string): (r: Result<Record>)
    ensures r == Err(NotAFunction("customerData.map"))
  {
    CreateIn(StoreName, Obj(customerData), customerData, now, NewCustomerFields)
  }

  /** The same body gives the intended customer when the name resolves to the
      store, and fails when it resolves to the caller's object as written. */
  lemma ShadowedCreateFails(s: seq<Record>, input: Record, now: string)
    requires |s| > 0 && Keyed(s)
    ensures CreateIn(StoreName, AsArray(s), input, now, NewCustomerFields) == Ok(CreatedCustomer(s, input, now))
    ensures CreateAsWritten(input, now).Err?
  {
  }
}
