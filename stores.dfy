/** What the three mock services (products, orders, customers) share: a table of
    JSON records looked up by their numeric `Id`, with the record that `create`
    builds, the record that `update` stores, and the splice that `delete` does.
    Each service file is a class of its own that uses these definitions. */
module Stores {
  import opened Json
  import opened Wrappers

  /** `r.Id === parseInt(id)`: the record's `Id` is the number `id`. */
  predicate HasId(r: Record, id: int)
  {
    "Id" in r && r["Id"] == Num(id as real)
  }

  /** Every record carries a numeric `Id`, as every record of the mock data does. */
  predicate Keyed(s: seq<Record>)
  {
    forall i :: 0 <= i < |s| ==> "Id" in s[i] && s[i]["Id"].Num?
  }

  /** No two records share an `Id`. */
  predicate UniqueIds(s: seq<Record>)
  {
    Keyed(s) && forall i, j :: 0 <= i < j < |s| ==> s[i]["Id"] != s[j]["Id"]
  }

  /** `findIndex(r => r.Id === id)`: the first position holding `id`, or -1. */
  function FindIndex(s: seq<Record>, id: int): (k: int)
    ensures -1 <= k < |s|
    ensures k == -1 <==> forall i :: 0 <= i < |s| ==> !HasId(s[i], id)
    ensures k >= 0 ==> HasId(s[k], id) && forall i :: 0 <= i < k ==> !HasId(s[i], id)
  {
    if |s| == 0 then -1
    else if HasId(s[0], id) then 0
    else
      var k := FindIndex(s[1..], id);
      assert forall i :: 1 <= i < |s| ==> s[i] == s[1..][i - 1];
      if k == -1 then -1 else k + 1
  }

  /** `Math.max(...s.map(r => r.Id))` over a non-empty table. */
  function MaxId(s: seq<Record>): (m: real)
    requires |s| > 0 && Keyed(s)
    ensures forall i :: 0 <= i < |s| ==> s[i]["Id"].x <= m
    ensures exists i :: 0 <= i < |s| && s[i]["Id"].x == m
  {
    if |s| == 1 then s[0]["Id"].x
    else
      var m := MaxId(s[1..]);
      assert forall i :: 1 <= i < |s| ==> s[i] == s[1..][i - 1];
      if s[0]["Id"].x > m then s[0]["Id"].x else m
  }

  /** The record `create` builds and prepends: `{ Id: max + 1, ...input, createdAt: now }`.
      The `Id` is written before the caller's fields, so a caller-supplied `Id`
      would win; `createdAt` is written after them, so the caller cannot set it. */
  function Created(s: seq<Record>, input: Record, now: string): (r: Record)
    requires |s| > 0 && Keyed(s)
    ensures r.Keys == input.Keys + {"Id", "createdAt"}
    ensures r["createdAt"] == Str(now)
    ensures r["Id"] == if "Id" in input then input["Id"] else Num(MaxId(s) + 1.0)
    ensures forall k :: k in input && k != "createdAt" ==> r[k] == input[k]
  {
    Spread(map["Id" := Num(MaxId(s) + 1.0)], input)["createdAt" := Str(now)]
  }

  /** The record `update` stores: `{ ...current, ...updates, Id: id }`. Keys the
      update names take its values, the others keep theirs, and `Id` stays `id`
      even when the update carries another one. */
  function Merged(current: Record, updates: Record, id: int): (r: Record)
    ensures HasId(r, id)
    ensures r.Keys == current.Keys + updates.Keys + {"Id"}
    ensures forall k :: k in updates && k != "Id" ==> r[k] == updates[k]
    ensures forall k :: k in current && k !in updates && k != "Id" ==> r[k] == current[k]
  {
    Spread(current, updates)["Id" := Num(id as real)]
  }

  /** `s.splice(k, 1)`: the table without position `k`, the rest in order. */
  function RemoveAt(s: seq<Record>, k: nat): (r: seq<Record>)
    requires k < |s|
    ensures |r| == |s| - 1
    ensures forall i :: 0 <= i < k ==> r[i] == s[i]
    ensures forall i :: k <= i < |r| ==> r[i] == s[i + 1]
    ensures multiset(r) + multiset{s[k]} == multiset(s)
  {
    assert s == s[..k] + [s[k]] + s[k + 1..];
    s[..k] + s[k + 1..]
  }

  /** Removing a record keeps every remaining record keyed. */
  lemma RemoveAtKeyed(s: seq<Record>, k: nat)
    requires Keyed(s) && k < |s|
    ensures Keyed(RemoveAt(s, k))
  {
    var t: seq<Record> := RemoveAt(s, k);
    forall i: int | 0 <= i < |t| ensures "Id" in t[i] && t[i]["Id"].Num? {
      var j: nat := if i < k then i else i + 1;
      assert t[i] == s[j];
    }
  }

  // ---------------------------------------------------------------------------
  // What create, update and delete keep
  // ---------------------------------------------------------------------------

  /** Without a caller-supplied `Id`, the new record's `Id` exceeds every existing
      one, so it is fresh. */
  lemma CreatedIdIsFresh(s: seq<Record>, input: Record, now: string)
    requires |s| > 0 && Keyed(s) && "Id" !in input
    ensures Created(s, input, now)["Id"].Num?
    ensures forall i :: 0 <= i < |s| ==> s[i]["Id"].x < Created(s, input, now)["Id"].x
  {
  }

  /** Putting in front a record whose `Id` exceeds every other keeps the `Id`s unique. */
  lemma PrependFreshPreservesUnique(s: seq<Record>, r: Record)
    requires UniqueIds(s) && "Id" in r && r["Id"].Num?
    requires forall i :: 0 <= i < |s| ==> s[i]["Id"].x < r["Id"].x
    ensures UniqueIds([r] + s)
  {
    var t := [r] + s;
    forall i, j | 0 <= i < j < |t| ensures t[i]["Id"] != t[j]["Id"] {
      if i == 0 {
        assert t[j] == s[j - 1];
      } else {
        assert t[i] == s[i - 1] && t[j] == s[j - 1];
      }
    }
  }

  /** Creating keeps the `Id`s unique, unless the caller supplies an `Id` of its own. */
  lemma CreatePreservesUnique(s: seq<Record>, input: Record, now: string)
    requires |s| > 0 && UniqueIds(s) && "Id" !in input
    ensures UniqueIds([Created(s, input, now)] + s)
  {
    CreatedIdIsFresh(s, input, now);
    PrependFreshPreservesUnique(s, Created(s, input, now));
  }

  /** A caller-supplied `Id` survives `create`: nothing stops a duplicate. */
  lemma CreateKeepsCallerId(s: seq<Record>, input: Record, now: string, i: nat)
    requires |s| > 0 && Keyed(s) && i < |s| && "Id" in input && input["Id"] == s[i]["Id"]
    ensures !UniqueIds([Created(s, input, now)] + s)
  {
    var t := [Created(s, input, now)] + s;
    assert t[i + 1] == s[i];
    assert t[0]["Id"] == t[i + 1]["Id"];
  }

  /** Updating the record found for `id` keeps the `Id`s unique. */
  lemma UpdatePreservesUnique(s: seq<Record>, id: int, updates: Record)
    requires UniqueIds(s) && FindIndex(s, id) >= 0
    ensures UniqueIds(s[FindIndex(s, id) := Merged(s[FindIndex(s, id)], updates, id)])
  {
    var k := FindIndex(s, id);
    var t := s[k := Merged(s[k], updates, id)];
    assert t[k]["Id"] == s[k]["Id"];
    forall i, j | 0 <= i < j < |t| ensures t[i]["Id"] != t[j]["Id"] {
      assert t[i]["Id"] == s[i]["Id"] && t[j]["Id"] == s[j]["Id"];
    }
  }

  /** Deleting keeps the `Id`s unique, and with unique `Id`s no record with `id`
      is left: exactly one record went. */
  lemma DeleteRemovesId(s: seq<Record>, id: int)
    requires UniqueIds(s) && FindIndex(s, id) >= 0
    ensures UniqueIds(RemoveAt(s, FindIndex(s, id)))
    ensures forall i :: 0 <= i < |s| - 1 ==> !HasId(RemoveAt(s, FindIndex(s, id))[i], id)
  {
    var k := FindIndex(s, id);
    var t := RemoveAt(s, k);
    forall i, j | 0 <= i < j < |t| ensures t[i]["Id"] != t[j]["Id"] {
      var i', j' := if i < k then i else i + 1, if j < k then j else j + 1;
      assert t[i] == s[i'] && t[j] == s[j'];
    }
    forall i | 0 <= i < |t| ensures !HasId(t[i], id) {
      var i' := if i < k then i else i + 1;
      assert t[i] == s[i'];
      if i' > k {
        assert s[k]["Id"] != s[i']["Id"];
      }
    }
  }

  /** The message JavaScript gives when a missing method is called. */
  function NotAFunction(expression: string): string
  {
    expression + " is not a function"
  }

  // ---------------------------------------------------------------------------
  // create and update over whatever the store's name resolves to
  // ---------------------------------------------------------------------------

  /** An array of objects, as the module-level store is. */
  predicate IsTable(items: seq<Value>)
  {
    forall i :: 0 <= i < |items| ==> items[i].Obj?
  }

  /** The records held by an array of objects. */
  function RecordsOf(items: seq<Value>): (s: seq<Record>)
    requires IsTable(items)
    ensures |s| == |items| && forall i :: 0 <= i < |items| ==> s[i] == items[i].fields
  {
    seq(|items|, i requires 0 <= i < |items| => items[i].fields)
  }

  /** The store as the JavaScript array it is: one object per record, in order. */
  function AsArray(s: seq<Record>): (v: Value)
    ensures v.Arr? && IsTable(v.items) && RecordsOf(v.items) == s
  {
    var v := Arr(seq(|s|, i requires 0 <= i < |s| => Obj(s[i])));
    assert RecordsOf(v.items) == s;
    v
  }

  /** An array `create` can take the largest `Id` of: non-empty, every record keyed. */
  predicate CreatableIn(table: Value)
  {
    table.Arr? ==> IsTable(table.items) && |table.items| > 0 && Keyed(RecordsOf(table.items))
  }

  /** The body of `create` with its store name resolved to `table`: first
      `Math.max(...table.map(r => r.Id)) + 1`, then the record
      `{ Id, ...input, createdAt: now, ...extra }`. Only an array has a `map`
      method, so on anything else the first line throws. */
  function CreateIn(name: string, table: Value, input: Record, now: string, extra: Record): (r: Result<Record>)
    requires CreatableIn(table)
    ensures r.Ok? <==> table.Arr?
    ensures r.Err? ==> r.error == NotAFunction(name + ".map")
    ensures r.Ok? ==> r.value == Spread(Created(RecordsOf(table.items), input, now), extra)
  {
    match table
    case Arr(items) => Ok(Spread(Created(RecordsOf(items), input, now), extra))
    case _ => Err(NotAFunction(name + ".map"))
  }

  /** The body of `update` with its store name resolved to `table`: first
      `table.findIndex(r => r.Id === id)`, then the not-found error or the
      merged record. Only an array has a `findIndex` method, so on anything
      else the first line throws. */
  function UpdateIn(name: string, table: Value, id: int, updates: Record, notFound: string): (r: Result<Record>)
    requires table.Arr? ==> IsTable(table.items)
    ensures !table.Arr? ==> r == Err(NotAFunction(name + ".findIndex"))
    ensures table.Arr? && FindIndex(RecordsOf(table.items), id) == -1 ==> r == Err(notFound)
    ensures table.Arr? && FindIndex(RecordsOf(table.items), id) >= 0 ==>
      r == Ok(Merged(RecordsOf(table.items)[FindIndex(RecordsOf(table.items), id)], updates, id))
  {
    match table
    case Arr(items) =>
      var k := FindIndex(RecordsOf(items), id);
      if k == -1 then Err(notFound) else Ok(Merged(RecordsOf(items)[k], updates, id))
    case _ => Err(NotAFunction(name + ".findIndex"))
  }
}
