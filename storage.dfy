/**
 * The browser-local order store and the start-up choice between it and the remote adapter.
 * The storage slot under `StorageKey` is `None` when it is missing or does not parse, and
 * `Some(orders)` once it holds a serialised list of orders.
 */
module Storage {
  import opened Wrappers
  import opened Types
  import opened Seqs
  import Text
  import opened Stats
  import opened Supabase

  const StorageKey := "service_orders_db"

  // ----- The table and its invariant -----

  predicate UniqueIds(orders: seq<ServiceOrder>) {
    forall i, j :: 0 <= i < |orders| && 0 <= j < |orders| && i != j ==> orders[i].id != orders[j].id
  }

  predicate PositiveIds(orders: seq<ServiceOrder>) {
    forall i :: 0 <= i < |orders| ==> orders[i].id > 0
  }

  /** The invariant the store keeps: ids are unique and positive. */
  predicate ValidTable(orders: seq<ServiceOrder>) {
    UniqueIds(orders) && PositiveIds(orders)
  }

  /** `Math.max(...orders.map(o => o.id))` for a non-empty list. */
  function MaxId(orders: seq<ServiceOrder>): (m: int)
    requires |orders| > 0
    ensures forall i :: 0 <= i < |orders| ==> orders[i].id <= m
    ensures exists i :: 0 <= i < |orders| && orders[i].id == m
  {
    if |orders| == 1 then orders[0].id
    else
      var rest := MaxId(orders[1..]);
      if orders[0].id > rest then orders[0].id else rest
  }

  /** The id `create` assigns: one more than the largest id, or 1 on an empty store. */
  function NextId(orders: seq<ServiceOrder>): (n: int)
    ensures forall i :: 0 <= i < |orders| ==> orders[i].id < n
    ensures orders == [] ==> n == 1
    ensures PositiveIds(orders) ==> n >= 1
    ensures orders != [] ==> exists i :: 0 <= i < |orders| && orders[i].id == n - 1
  {
    (if |orders| > 0 then MaxId(orders) else 0) + 1
  }

  /** `findIndex(o => o.id === id)`: the first position holding `id`, or -1. */
  function FindIndex(orders: seq<ServiceOrder>, id: int): (i: int)
    ensures -1 <= i < |orders|
    ensures i >= 0 ==> orders[i].id == id && forall j :: 0 <= j < i ==> orders[j].id != id
    ensures i == -1 <==> forall j :: 0 <= j < |orders| ==> orders[j].id != id
  {
    if orders == [] then -1
    else if orders[0].id == id then 0
    else
      var k := FindIndex(orders[1..], id);
      if k == -1 then -1 else k + 1
  }

  /** `find(o => o.id === id)`: the first order with that id, if any. */
  function Find(orders: seq<ServiceOrder>, id: int): (r: Option<ServiceOrder>)
    ensures r.None? <==> forall j :: 0 <= j < |orders| ==> orders[j].id != id
    ensures r.Some? ==> r.value.id == id && r.value in orders
    ensures r.Some? ==> exists i :: 0 <= i < |orders| && orders[i] == r.value && forall j :: 0 <= j < i ==> orders[j].id != id
  {
    var i := FindIndex(orders, id);
    if i >= 0 then Some(orders[i]) else None
  }

  /** Under the invariant there is at most one order with a given id, so `Find` returns it. */
  lemma FindUnique(orders: seq<ServiceOrder>, k: nat)
    requires UniqueIds(orders) && k < |orders|
    ensures Find(orders, orders[k].id) == Some(orders[k])
  {
  }

  /** The list after `create`: the old list with the new order appended. */
  function Created(orders: seq<ServiceOrder>, d: Draft): (r: seq<ServiceOrder>)
    ensures |r| == |orders| + 1
    ensures forall i :: 0 <= i < |orders| ==> r[i] == orders[i]
    ensures DraftOf(r[|orders|]) == d
    ensures forall i :: 0 <= i < |orders| ==> orders[i].id < r[|orders|].id
    ensures r[|orders|] == WithId(d, NextId(orders))
  {
    orders + [WithId(d, NextId(orders))]
  }

  /** The list after `update`: the first entry with the order's id replaced, in place. */
  function Replaced(orders: seq<ServiceOrder>, o: ServiceOrder): (r: seq<ServiceOrder>)
    ensures |r| == |orders|
    ensures forall j :: 0 <= j < |orders| && orders[j].id != o.id ==> r[j] == orders[j]
    ensures (exists j :: 0 <= j < |orders| && orders[j].id == o.id) ==> o in r
    ensures FindIndex(orders, o.id) >= 0 ==> r[FindIndex(orders, o.id)] == o
    ensures forall j :: 0 <= j < |orders| && j != FindIndex(orders, o.id) ==> r[j] == orders[j]
    ensures (forall j :: 0 <= j < |orders| ==> orders[j].id != o.id) ==> r == orders
  {
    var i := FindIndex(orders, o.id);
    if i >= 0 then assert orders[i := o][i] == o; orders[i := o] else orders
  }

  /** The list after `delete`: `filter(o => o.id !== id)`. */
  function WithoutId(orders: seq<ServiceOrder>, id: int): (r: seq<ServiceOrder>)
    ensures forall o :: o in r <==> o in orders && o.id != id
    ensures IsSubsequence(r, orders)
    ensures (forall j :: 0 <= j < |orders| ==> orders[j].id != id) ==> r == orders
  {
    if orders == [] then []
    else if orders[0].id == id then WithoutId(orders[1..], id)
    else [orders[0]] + WithoutId(orders[1..], id)
  }

  /** `filter` drops every copy of an order with the id and keeps every copy of the others. */
  lemma {:induction false} WithoutIdMultiset(orders: seq<ServiceOrder>, id: int, x: ServiceOrder)
    ensures multiset(WithoutId(orders, id))[x] == if x.id == id then 0 else multiset(orders)[x]
  {
    if orders != [] {
      assert orders == [orders[0]] + orders[1..];
      WithoutIdMultiset(orders[1..], id, x);
    }
  }

  // ----- What the operations guarantee -----

  /** `create` keeps the invariant, and the new order is the one found under the new id. */
  lemma CreateKeepsValid(orders: seq<ServiceOrder>, d: Draft)
    requires ValidTable(orders)
    ensures ValidTable(Created(orders, d))
    ensures Find(Created(orders, d), NextId(orders)) == Some(WithId(d, NextId(orders)))
  {
    var after := Created(orders, d);
    assert forall j :: 0 <= j < |orders| ==> after[j] == orders[j];
    FindUnique(after, |orders|);
  }

  /** `update` keeps the invariant, and afterwards the order's id finds the new record. */
  lemma ReplaceKeepsValid(orders: seq<ServiceOrder>, o: ServiceOrder)
    requires ValidTable(orders) && FindIndex(orders, o.id) >= 0
    ensures ValidTable(Replaced(orders, o))
    ensures Find(Replaced(orders, o), o.id) == Some(o)
  {
    FindUnique(Replaced(orders, o), FindIndex(orders, o.id));
  }

  /** `update` with an id that is not stored leaves the list as it was. */
  lemma ReplaceAbsent(orders: seq<ServiceOrder>, o: ServiceOrder)
    requires forall j :: 0 <= j < |orders| ==> orders[j].id != o.id
    ensures Replaced(orders, o) == orders
  {
  }

  /** The tail of a valid table is valid, and none of its ids is the head's. */
  lemma ValidTail(orders: seq<ServiceOrder>)
    requires ValidTable(orders) && orders != []
    ensures ValidTable(orders[1..])
    ensures forall o :: o in orders[1..] ==> o.id != orders[0].id
  {
    var rest := orders[1..];
    forall i, j | 0 <= i < |rest| && 0 <= j < |rest| && i != j ensures rest[i].id != rest[j].id {
      assert rest[i] == orders[i + 1] && rest[j] == orders[j + 1];
    }
    forall o | o in rest ensures o.id != orders[0].id {
      var m :| 0 <= m < |rest| && rest[m] == o;
      assert orders[m + 1] == o;
    }
  }

  /** Putting an order with a fresh positive id in front of a valid table keeps it valid. */
  lemma ValidCons(x: ServiceOrder, r: seq<ServiceOrder>)
    requires ValidTable(r) && x.id > 0
    requires forall o :: o in r ==> o.id != x.id
    ensures ValidTable([x] + r)
  {
    var all := [x] + r;
    forall i, j | 0 <= i < |all| && 0 <= j < |all| && i != j ensures all[i].id != all[j].id {
      if i > 0 && j > 0 {
        assert all[i] == r[i - 1] && all[j] == r[j - 1];
      } else if i == 0 {
        assert all[j] == r[j - 1] && r[j - 1] in r;
      } else {
        assert all[i] == r[i - 1] && r[i - 1] in r;
      }
    }
  }

  /** `delete` keeps the invariant, and afterwards the id finds nothing. */
  lemma {:induction false} DeleteKeepsValid(orders: seq<ServiceOrder>, id: int)
    requires ValidTable(orders)
    ensures ValidTable(WithoutId(orders, id))
    ensures Find(WithoutId(orders, id), id) == None
  {
    if orders != [] {
      ValidTail(orders);
      DeleteKeepsValid(orders[1..], id);
      if orders[0].id != id {
        ValidCons(orders[0], WithoutId(orders[1..], id));
      }
    }
  }

  /**
   * Ids are not reserved: on a store numbered 1..n, deleting the newest order and creating
   * another gives the new order the deleted one's id n.
   */
  lemma ReuseAfterDeletingNewest(orders: seq<ServiceOrder>)
    requires NumberedFromOne(orders) && orders != []
    ensures NextId(WithoutId(orders, |orders|)) == |orders|
  {
    var n := |orders|;
    var r := WithoutId(orders, n);
    forall i | 0 <= i < |r| ensures r[i].id < n {
      assert r[i] in r;
    }
    if n > 1 {
      assert orders[n - 2] in orders && orders[n - 2].id == n - 1;
      assert orders[n - 2] in r;
    }
  }

  // ----- Sequential creates number the orders 1, 2, 3, ... -----

  /** The list after `create` is called for each draft of `ds` in turn. */
  function CreateAll(orders: seq<ServiceOrder>, ds: seq<Draft>): seq<ServiceOrder>
    decreases |ds|
  {
    if ds == [] then orders else CreateAll(Created(orders, ds[0]), ds[1..])
  }

  /** The i-th order (from 0) carries id i + 1. */
  predicate NumberedFromOne(orders: seq<ServiceOrder>) {
    forall i :: 0 <= i < |orders| ==> orders[i].id == i + 1
  }

  /** One create on a store numbered 1..n appends the draft as order n + 1. */
  lemma CreateOnNumbered(orders: seq<ServiceOrder>, d: Draft)
    requires NumberedFromOne(orders)
    ensures Created(orders, d) == orders + [WithId(d, |orders| + 1)]
    ensures NumberedFromOne(Created(orders, d))
  {
    assert NextId(orders) == |orders| + 1 by {
      if |orders| > 0 {
        assert orders[|orders| - 1].id == |orders|;
      }
    }
  }

  /** The drafts of `ds` under the consecutive ids `start`, `start + 1`, ... */
  function NumberedFrom(ds: seq<Draft>, start: int): (r: seq<ServiceOrder>)
    ensures |r| == |ds|
    ensures forall j :: 0 <= j < |ds| ==> r[j] == WithId(ds[j], start + j)
  {
    seq(|ds|, j requires 0 <= j < |ds| => WithId(ds[j], start + j))
  }

  lemma NumberedFromStep(ds: seq<Draft>, start: int)
    requires ds != []
    ensures NumberedFrom(ds, start) == [WithId(ds[0], start)] + NumberedFrom(ds[1..], start + 1)
  {
    var a, b := NumberedFrom(ds, start), [WithId(ds[0], start)] + NumberedFrom(ds[1..], start + 1);
    forall j | 0 <= j < |ds| ensures a[j] == b[j] {
      if j > 0 {
        assert b[j] == NumberedFrom(ds[1..], start + 1)[j - 1];
      }
    }
  }

  lemma AppendAssoc(a: seq<ServiceOrder>, b: seq<ServiceOrder>, c: seq<ServiceOrder>)
    ensures a + (b + c) == (a + b) + c
  {
  }

  /** Creates on a store numbered 1..n append the drafts under n + 1, n + 2, ... */
  lemma {:induction false} CreateAllNumbered(orders: seq<ServiceOrder>, ds: seq<Draft>)
    requires NumberedFromOne(orders)
    ensures CreateAll(orders, ds) == orders + NumberedFrom(ds, |orders| + 1)
    decreases |ds|
  {
    if ds == [] {
      assert orders + NumberedFrom(ds, |orders| + 1) == orders;
    } else {
      var next := Created(orders, ds[0]);
      CreateOnNumbered(orders, ds[0]);
      CreateAllNumbered(next, ds[1..]);
      NumberedFromStep(ds, |orders| + 1);
      var w, rest := WithId(ds[0], |orders| + 1), NumberedFrom(ds[1..], |orders| + 2);
      assert next == orders + [w] && |next| + 1 == |orders| + 2;
      AppendAssoc(orders, [w], rest);
    }
  }

  lemma SequentialCreates(orders: seq<ServiceOrder>, ds: seq<Draft>)
    requires NumberedFromOne(orders)
    ensures var after := CreateAll(orders, ds);
      && |after| == |orders| + |ds|
      && after[..|orders|] == orders
      && forall j :: 0 <= j < |ds| ==> after[|orders| + j] == WithId(ds[j], |orders| + j + 1)
  {
    CreateAllNumbered(orders, ds);
    var after, tail := CreateAll(orders, ds), NumberedFrom(ds, |orders| + 1);
    assert after[..|orders|] == orders;
    forall j | 0 <= j < |ds| ensures after[|orders| + j] == WithId(ds[j], |orders| + j + 1) {
      assert after[|orders| + j] == tail[j];
    }
  }

  /** From an empty store, the ids handed out are 1, 2, 3, ... in call order. */
  lemma IdsFromEmptyStore(ds: seq<Draft>)
    ensures |CreateAll([], ds)| == |ds|
    ensures forall j :: 0 <= j < |ds| ==> CreateAll([], ds)[j] == WithId(ds[j], j + 1)
  {
    SequentialCreates([], ds);
  }

  // ----- The store -----

  class LocalStorageService {
    /** The storage slot: `None` when the key is missing or its text does not parse. */
    var slot: Option<seq<ServiceOrder>>

    constructor(stored: Option<seq<ServiceOrder>>)
      ensures slot == stored
    {
      slot := stored;
    }

    /** What `getAll` returns: the stored list, or `[]` for a missing or unparsable slot. */
    function Contents(): seq<ServiceOrder>
      reads this
    {
      slot.GetOr([])
    }

    method GetAll() returns (orders: seq<ServiceOrder>)
      ensures orders == Contents()
      ensures slot.None? ==> orders == []
    {
      match slot
      case None => orders := [];
      case Some(stored) => orders := stored;
    }

    method GetById(id: int) returns (r: Option<ServiceOrder>)
      ensures r == Find(Contents(), id)
      ensures r.None? <==> forall o :: o in Contents() ==> o.id != id
    {
      var orders := GetAll();
      r := Find(orders, id);
    }

    /** Appends the draft under the next id and writes the list back. */
    method Create(d: Draft) returns (o: ServiceOrder)
      modifies this
      ensures o == WithId(d, NextId(old(Contents())))
      ensures slot == Some(old(Contents()) + [o])
      ensures old(ValidTable(Contents())) ==> ValidTable(Contents()) && Find(Contents(), o.id) == Some(o)
    {
      var orders := GetAll();
      var maxId := if |orders| > 0 then MaxId(orders) else 0;
      o := WithId(d, maxId + 1);
      orders := orders + [o];
      slot := Some(orders);
      if ValidTable(old(Contents())) {
        CreateKeepsValid(old(Contents()), d);
      }
    }

    /** Replaces the first entry with the order's id and writes back; with no such entry nothing is written. */
    method Update(o: ServiceOrder)
      modifies this
      ensures var i := FindIndex(old(Contents()), o.id);
        if i >= 0 then slot == Some(old(Contents())[i := o]) else slot == old(slot)
      ensures old(ValidTable(Contents())) && FindIndex(old(Contents()), o.id) >= 0 ==>
        ValidTable(Contents()) && Find(Contents(), o.id) == Some(o)
    {
      var orders := GetAll();
      var index := FindIndex(orders, o.id);
      if index != -1 {
        orders := orders[index := o];
        slot := Some(orders);
        if ValidTable(old(Contents())) {
          ReplaceKeepsValid(old(Contents()), o);
        }
      }
    }

    /** Writes back the list without the orders that carry `id`. */
    method Delete(id: int)
      modifies this
      ensures slot == Some(WithoutId(old(Contents()), id))
      ensures old(ValidTable(Contents())) ==> ValidTable(Contents())
      ensures Find(Contents(), id) == None
    {
      var orders := GetAll();
      var filtered := WithoutId(orders, id);
      slot := Some(filtered);
      if ValidTable(old(Contents())) {
        DeleteKeepsValid(old(Contents()), id);
      }
    }

    method GetStats(now: MonthYear, calendar: string -> Option<MonthYear>) returns (st: DashboardStats)
      ensures st == ComputeStats(Contents(), now, calendar)
    {
      var orders := GetAll();
      st := ComputeStats(orders, now, calendar);
    }
  }

  // ----- Choosing the backend -----

  datatype Backend = LocalBackend | RemoteBackend

  /** `StorageService`: the remote adapter when it is configured, the local store otherwise. */
  function SelectBackend(env: Env): (b: Backend)
    ensures b == RemoteBackend <==> ClientFor(env).Connected?
  {
    if IsConfigured(ConfiguredUrl(env), ConfiguredKey(env)) then RemoteBackend else LocalBackend
  }

  /** A placeholder left in either setting selects the local store. */
  lemma PlaceholderSelectsLocal(env: Env)
    requires Text.Contains(ConfiguredUrl(env), Placeholder) || Text.Contains(ConfiguredKey(env), Placeholder)
    ensures SelectBackend(env) == LocalBackend
  {
    Text.ContainsAt(ConfiguredUrl(env), Placeholder);
    Text.ContainsAt(ConfiguredKey(env), Placeholder);
  }

  /** With no variables set, the built-in defaults select the remote adapter. */
  lemma DefaultsSelectRemote(env: Env)
    requires !IsSet(env, UrlVar) && !IsSet(env, KeyVar)
    ensures SelectBackend(env) == RemoteBackend
  {
    DefaultsAreConfigured(env);
  }
}
