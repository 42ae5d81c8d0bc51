/** The records the fixture store keeps and the invariants its tables
    maintain, stated on the table values themselves: which ids and names a
    table holds, in which order the dicts received them, and what each
    record carries. */
module Tables {
  import opened Json

  datatype Account = Account(username: string, password: string, id: int)

  /** A store record: its id (the stringified store counter), its name and
      the names of the items added to it, in order. */
  datatype Store = Store(uuid: string, name: string, items: seq<string>)

  /** `item_data['name'] == item_name`: only a JSON string equals a route name. */
  predicate HasName(item: Object, name: string)
  {
    "name" in item && item["name"] == Str(name)
  }

  /** The record add_item stores. */
  function NewItem(name: string, data: Object, id: int): Object
  {
    map["name" := Str(name), "price" := Get(data, "price"), "store_id" := Get(data, "store_id"), "itemID" := Int(id)]
  }

  /** The position in order of the first item named name, or |order| if none. */
  function FirstItemNamed(order: seq<int>, items: map<int, Object>, name: string): (k: nat)
    requires forall i :: 0 <= i < |order| ==> order[i] in items
    ensures k <= |order|
    ensures k < |order| ==> HasName(items[order[k]], name)
    ensures forall i :: 0 <= i < k ==> !HasName(items[order[i]], name)
    decreases |order|
  {
    if order == [] then 0
    else if HasName(items[order[0]], name) then 0
    else 1 + FirstItemNamed(order[1..], items, name)
  }

  /** The position in order of the first store whose id is uuid, or |order| if none. */
  function FirstStoreWithUuid(order: seq<string>, stores: map<string, Store>, uuid: string): (k: nat)
    requires forall i :: 0 <= i < |order| ==> order[i] in stores
    ensures k <= |order|
    ensures k < |order| ==> stores[order[k]].uuid == uuid
    ensures forall i :: 0 <= i < k ==> stores[order[i]].uuid != uuid
    decreases |order|
  {
    if order == [] then 0
    else if stores[order[0]].uuid == uuid then 0
    else 1 + FirstStoreWithUuid(order[1..], stores, uuid)
  }

  /** The position of the store add_item links an item to: the first whose
      id equals str(storeId), or |order| if none does. */
  function LinkTarget(order: seq<string>, stores: map<string, Store>, storeId: Value): (k: nat)
    requires forall i :: 0 <= i < |order| ==> order[i] in stores
    ensures k <= |order|
    ensures k < |order| ==> PyStr(storeId) == Some(stores[order[k]].uuid)
    ensures forall i :: 0 <= i < k ==> PyStr(storeId) != Some(stores[order[i]].uuid)
  {
    match PyStr(storeId)
    case Some(t) => FirstStoreWithUuid(order, stores, t)
    case None => |order|
  }

  /** The stores after add_item appends itemName to the store at position k
      of order; a position past the end leaves every store as it was. */
  function AppendToStore(stores: map<string, Store>, order: seq<string>, k: nat, itemName: string): (r: map<string, Store>)
    requires forall i :: 0 <= i < |order| ==> order[i] in stores
    ensures r.Keys == stores.Keys
    ensures forall n :: n in stores && (k >= |order| || n != order[k]) ==> r[n] == stores[n]
    ensures k < |order| ==> r[order[k]] == stores[order[k]].(items := stores[order[k]].items + [itemName])
  {
    if k < |order| then
      var n := order[k];
      stores[n := stores[n].(items := stores[n].items + [itemName])]
    else
      stores
  }

  /** The records of m in the order the ids are listed. */
  function Values(order: seq<int>, m: map<int, Object>): (s: seq<Object>)
    requires forall i :: 0 <= i < |order| ==> order[i] in m
    ensures |s| == |order|
    ensures forall i :: 0 <= i < |order| ==> s[i] == m[order[i]]
    decreases |order|
  {
    if order == [] then [] else [m[order[0]]] + Values(order[1..], m)
  }

  /** order lists the keys in the order the dict received them: the ids
      1, 2, ... handed out by a counter, none ever deleted. */
  ghost predicate InsertionOrder(order: seq<int>, keys: set<int>)
  {
    && (forall i :: 0 <= i < |order| ==> order[i] == i + 1)
    && (forall k :: k in keys <==> 1 <= k <= |order|)
  }

  /** Accounts: ids 1 .. counter-1 in insertion order, each record holding
      its own id, no username twice. */
  ghost predicate UsersValid(users: map<int, Account>, order: seq<int>, counter: nat)
  {
    && InsertionOrder(order, users.Keys) && counter == |order| + 1
    && (forall id :: id in users ==> users[id].id == id)
    && (forall a, b :: a in users && b in users && users[a].username == users[b].username ==> a == b)
  }

  /** Items: ids 1 .. counter-1 in insertion order; every record keeps the
      "name" and "price" keys it was created with. */
  ghost predicate ItemsValid(items: map<int, Object>, order: seq<int>, counter: nat)
  {
    && InsertionOrder(order, items.Keys) && counter == |order| + 1
    && (forall id :: id in items ==> "name" in items[id] && "price" in items[id])
  }

  /** Stores: order lists the store names in insertion order; the k-th
      store created has the id str(k), so no name is listed twice
      (StoreOrderDistinct). */
  ghost predicate StoresValid(stores: map<string, Store>, order: seq<string>, counter: nat)
  {
    && (forall n :: n in stores <==> n in order)
    && counter == |order| + 1
    && (forall i :: 0 <= i < |order| ==> stores[order[i]].uuid == Decimal(i + 1))
    && (forall n :: n in stores ==> stores[n].name == n)
  }

  /** Profiles, balances and tokens all belong to registered users. */
  ghost predicate OwnedBy(users: map<int, Account>, infos: map<int, Object>, balances: map<int, real>, tokens: map<string, int>)
  {
    && infos.Keys <= users.Keys
    && balances.Keys <= users.Keys
    && (forall t :: t in tokens ==> tokens[t] in users)
  }

  /** The empty partitions with every counter at 1 are valid. */
  lemma EmptyValid()
    ensures UsersValid(map[], [], 1) && ItemsValid(map[], [], 1) && StoresValid(map[], [], 1)
  {
  }

  /** Registering a new username under the next id keeps the accounts valid. */
  lemma UsersValidAdd(users: map<int, Account>, order: seq<int>, counter: nat, name: string, password: string)
    requires UsersValid(users, order, counter)
    requires forall id :: id in users ==> users[id].username != name
    ensures UsersValid(users[counter := Account(name, password, counter)], order + [counter], counter + 1)
  {
    assert counter !in users;
  }

  /** Adding a record under the next id keeps the items valid. */
  lemma ItemsValidAdd(items: map<int, Object>, order: seq<int>, counter: nat, item: Object)
    requires ItemsValid(items, order, counter)
    requires "name" in item && "price" in item
    ensures ItemsValid(items[counter := item], order + [counter], counter + 1)
  {
  }

  /** A shallow merge into an existing item keeps the items valid. */
  lemma ItemsValidMerge(items: map<int, Object>, order: seq<int>, counter: nat, id: int, changes: Object)
    requires ItemsValid(items, order, counter) && id in items
    ensures ItemsValid(items[id := Merge(items[id], changes)], order, counter)
  {
  }

  /** Creating a store with a fresh name under the next id keeps the stores valid. */
  lemma StoresValidAdd(stores: map<string, Store>, order: seq<string>, counter: nat, name: string)
    requires StoresValid(stores, order, counter) && name !in stores
    ensures StoresValid(stores[name := Store(Decimal(counter), name, [])], order + [name], counter + 1)
  {
    var stores', order' := stores[name := Store(Decimal(counter), name, [])], order + [name];
    forall i | 0 <= i < |order'|
      ensures stores'[order'[i]].uuid == Decimal(i + 1)
    {
      if i < |order| {
        assert order'[i] == order[i] && order[i] in stores;
      }
    }
  }

  /** Each store name is listed once in the insertion order. */
  lemma StoreOrderDistinct(stores: map<string, Store>, order: seq<string>, counter: nat, i: nat, j: nat)
    requires StoresValid(stores, order, counter) && i < j < |order|
    ensures order[i] != order[j]
  {
    if order[i] == order[j] {
      DecimalInjective(i + 1, j + 1);
    }
  }

  /** Appending an item name to a store keeps the stores valid. */
  lemma StoresValidAppend(stores: map<string, Store>, order: seq<string>, counter: nat, n: string, itemName: string)
    requires StoresValid(stores, order, counter) && n in stores
    ensures StoresValid(stores[n := stores[n].(items := stores[n].items + [itemName])], order, counter)
  {
  }
}
