/** The in-memory fixture store of the mock server: six dicts, three id
    counters, and one method per route handler. Each handler runs its
    precondition checks in the order `app.py` checks them and answers with the status
    code and the JSON body that branch sends. */
module Fixture {
  import opened Json
  import opened Auth
  import opened Tables

  /** The id the profile handlers single out for a user that does not exist. */
  const SENTINEL_USER_ID := 1000

  /** The JSON body of a response. */
  datatype Body =
    | Message(text: string)
    | WithId(message: string, uuid: int)
    | AuthError(description: string, error: string, hasStatusCode: bool)
    | AccessToken(token: string)
    | Profile(phone: Value, email: Value, userId: int, street: Value, city: Value)
    | StoreRecord(store: Store)
    | ItemCreated(itemName: string, itemPrice: Value, itemId: int)
    | ItemRecord(item: Object)
    | ItemList(records: seq<Object>)
    | BalanceMessage(message: string, balance: real)
    | NotEnoughMoney(funds: real, cost: real)
    | Payment(remaining: real, paidName: Value, paidPrice: real)
    | Health(userCount: nat, storeCount: nat, itemCount: nat)
    | ResetComplete
    | InternalServerError

  datatype Reply = Reply(status: int, body: Body)

  /** The outcome of the authorization gate. */
  datatype Gate = Granted(userId: int) | Denied(reply: Reply)

  const AUTH_REQUIRED := Reply(401, AuthError("Request does not contain an access token", "Authorization Required", true))
  const INVALID_TOKEN := Reply(401, AuthError("Invalid credentials", "Bad Request", false))
  const BAD_LOGIN_BODY := Reply(401, AuthError("Invalid credentials", "Bad Request", false))
  const BAD_LOGIN := Reply(401, AuthError("Invalid credentials", "Bad Request", true))
  /** What Flask answers when a handler raises. */
  const SERVER_ERROR := Reply(500, InternalServerError)

  const MISSING_FIELDS := "Username and password are required fields"
  const USER_EXISTS := "User already exists"
  const USER_CREATED := "User created successfully."
  const USER_NOT_FOUND := "User not found"
  const USER_NOT_FOUND_DOT := "User not found."
  const PROFILE_EXISTS := "User info already exists"
  const PROFILE_CREATED := "User info created successfully."
  const PROFILE_NOT_FOUND := "User info not found"
  const PROFILE_NOT_FOUND_DOT := "User info not found."
  const PROFILE_UPDATED := "User info updated successfully."
  const PROFILE_DELETED := "User info deleted."
  const STORE_NAME_REQUIRED := "Store name is required"
  const STORE_NOT_FOUND := "Store not found"
  const ITEM_NOT_FOUND := "Item not found"
  const BALANCE_ADDED := "Balance added successfully"
  const BALANCE_NOT_FOUND := "Balance not found. Add money for user."
  const BALANCE_RETRIEVED := "Balance retrieved successfully"

  function StoreExists(name: string): string
  {
    "A store with name '" + name + "' already exists."
  }

  function ItemExists(name: string): string
  {
    "An item with name '" + name + "' already exists."
  }

  /** Python truthiness of an optional string field: present and non-empty. */
  predicate Filled(field: Option<string>)
  {
    field.Some? && field.value != ""
  }

  /** The projection get_user_info sends back. `info.get("address", {})`
      must be a dict for `.get("street")` to work; anything else raises. */
  function ProfileView(info: Object, userId: int): (r: Reply)
    ensures r.status == 200 <==> "address" !in info || info["address"].Obj?
    ensures r.status == 200 ==>
      r.body.Profile? && r.body.userId == userId && r.body.phone == Get(info, "phone") && r.body.email == Get(info, "email")
    ensures r.status == 200 ==>
      var a := if "address" in info then info["address"].fields else map[];
      r.body.street == Get(a, "street") && r.body.city == Get(a, "city")
    ensures r.status != 200 ==> r == SERVER_ERROR
  {
    var address := if "address" in info then info["address"] else Obj(map[]);
    match address
    case Obj(a) => Reply(200, Profile(Get(info, "phone"), Get(info, "email"), userId, Get(a, "street"), Get(a, "city")))
    case _ => SERVER_ERROR
  }

  class FixtureStore {
    var users: map<int, Account>
    var userOrder: seq<int>
    var userInfos: map<int, Object>
    var stores: map<string, Store>
    var storeOrder: seq<string>
    var items: map<int, Object>
    var itemOrder: seq<int>
    var userBalances: map<int, real>
    var authTokens: map<string, int>
    var userCounter: nat
    var storeCounter: nat
    var itemCounter: nat

    /** The structure every handler relies on and keeps. */
    ghost predicate Valid()
      reads this
    {
      && UsersValid(users, userOrder, userCounter)
      && ItemsValid(items, itemOrder, itemCounter)
      && StoresValid(stores, storeOrder, storeCounter)
    }

    /** Profiles, balances and tokens all belong to registered users. */
    ghost predicate Owned()
      reads this
    {
      OwnedBy(users, userInfos, userBalances, authTokens)
    }

    /** The state at start-up and after a reset. */
    ghost predicate IsReset()
      reads this
    {
      && users == map[] && userOrder == [] && userInfos == map[]
      && stores == map[] && storeOrder == [] && items == map[] && itemOrder == []
      && userBalances == map[] && authTokens == map[]
      && userCounter == 1 && storeCounter == 1 && itemCounter == 1
    }

    ghost predicate UsernameTaken(name: string)
      reads this
    {
      exists id :: id in users && users[id].username == name
    }

    ghost predicate CredentialsMatch(name: string, password: string)
      reads this
    {
      exists id :: id in users && users[id].username == name && users[id].password == password
    }

    constructor ()
      ensures Valid() && Owned() && IsReset()
    {
      users, userOrder, userInfos := map[], [], map[];
      stores, storeOrder, items, itemOrder := map[], [], map[], [];
      userBalances, authTokens := map[], map[];
      userCounter, storeCounter, itemCounter := 1, 1, 1;
      EmptyValid();
    }

    /** verify_auth_header: no header, an unknown token, or the user id the
        token was issued for. */
    function Authenticate(header: Option<string>): (g: Gate)
      reads this
      ensures header.None? ==> g == Denied(AUTH_REQUIRED)
      ensures header.Some? && Token(header.value) !in authTokens ==> g == Denied(INVALID_TOKEN)
      ensures header.Some? && Token(header.value) in authTokens ==> g == Granted(authTokens[Token(header.value)])
    {
      match header
      case None => Denied(AUTH_REQUIRED)
      case Some(h) =>
        var token := Token(h);
        if token in authTokens then Granted(authTokens[token]) else Denied(INVALID_TOKEN)
    }

    /** The items in the order they were added. */
    function ItemsInOrder(): (s: seq<Object>)
      reads this
      requires Valid()
      ensures |s| == |itemOrder| == itemCounter - 1
      ensures forall i :: 0 <= i < |s| ==> s[i] == items[i + 1]
    {
      Values(itemOrder, items)
    }

    /** The by-name scan of add_item, get_item_by_name and
        update_item_by_name: the position of the first item, in insertion
        order, whose "name" is the given string. */
    method FindItemNamed(name: string) returns (k: nat)
      requires Valid()
      ensures k == FirstItemNamed(itemOrder, items, name)
    {
      k := 0;
      while k < |itemOrder| && items[itemOrder[k]]["name"] != Str(name)
        invariant 0 <= k <= |itemOrder|
        invariant forall j :: 0 <= j < k ==> !HasName(items[itemOrder[j]], name)
      {
        k := k + 1;
      }
    }

    /** The store scan of add_item: the position of the first store, in
        insertion order, whose id is uuid. */
    method FindStoreWithUuid(uuid: string) returns (k: nat)
      requires Valid()
      ensures k == FirstStoreWithUuid(storeOrder, stores, uuid)
    {
      k := 0;
      while k < |storeOrder| && stores[storeOrder[k]].uuid != uuid
        invariant 0 <= k <= |storeOrder|
        invariant forall j :: 0 <= j < k ==> stores[storeOrder[j]].uuid != uuid
      {
        k := k + 1;
      }
    }

    // ---------------------------------------------------------------
    // Register and login
    // ---------------------------------------------------------------

    method Register(username: Option<string>, password: Option<string>) returns (r: Reply)
      requires Valid()
      modifies this
      ensures Valid() && (old(Owned()) ==> Owned())
      ensures !Filled(username) || !Filled(password) ==>
        r == Reply(400, Message(MISSING_FIELDS)) && unchanged(this)
      ensures Filled(username) && Filled(password) && old(UsernameTaken(username.value)) ==>
        && unchanged(this)
        && r.status == 400 && r.body.WithId? && r.body.message == USER_EXISTS
        && r.body.uuid in users && users[r.body.uuid].username == username.value
      ensures Filled(username) && Filled(password) && !old(UsernameTaken(username.value)) ==>
        && r == Reply(201, WithId(USER_CREATED, old(userCounter)))
        && users == old(users)[old(userCounter) := Account(username.value, password.value, old(userCounter))]
        && userOrder == old(userOrder) + [old(userCounter)]
        && userCounter == old(userCounter) + 1
        && unchanged(this`userInfos, this`stores, this`storeOrder, this`storeCounter, this`items,
                     this`itemOrder, this`itemCounter, this`userBalances, this`authTokens)
    {
      if !Filled(username) || !Filled(password) {
        return Reply(400, Message(MISSING_FIELDS));
      }
      var name, pass := username.value, password.value;
      var i := 0;
      while i < |userOrder|
        invariant 0 <= i <= |userOrder|
        invariant forall j :: 0 <= j < i ==> users[userOrder[j]].username != name
      {
        var id := userOrder[i];
        if users[id].username == name {
          return Reply(400, WithId(USER_EXISTS, users[id].id));
        }
        i := i + 1;
      }
      assert !UsernameTaken(name) by {
        forall id | id in users
          ensures users[id].username != name
        {
          assert userOrder[id - 1] == id;
        }
      }
      var id := userCounter;
      UsersValidAdd(users, userOrder, userCounter, name, pass);
      users := users[id := Account(name, pass, id)];
      userOrder := userOrder + [id];
      userCounter := userCounter + 1;
      return Reply(201, WithId(USER_CREATED, id));
    }

    /** login, with the fresh uuid4 text passed in as token. */
    method Login(username: Option<string>, password: Option<string>, token: string) returns (r: Reply)
      requires Valid()
      modifies this
      ensures Valid() && (old(Owned()) ==> Owned())
      ensures !Filled(username) || !Filled(password) ==> r == BAD_LOGIN_BODY && unchanged(this)
      ensures Filled(username) && Filled(password) && !old(CredentialsMatch(username.value, password.value)) ==>
        r == BAD_LOGIN && unchanged(this)
      ensures Filled(username) && Filled(password) && old(CredentialsMatch(username.value, password.value)) ==>
        && r == Reply(200, AccessToken(token))
        && token in authTokens && authTokens == old(authTokens)[token := authTokens[token]]
        && authTokens[token] in users
        && users[authTokens[token]].username == username.value
        && users[authTokens[token]].password == password.value
        && (forall b :: b in users && users[b].username == username.value ==> b == authTokens[token])
        && unchanged(this`users, this`userOrder, this`userCounter, this`userInfos, this`stores,
                     this`storeOrder, this`storeCounter, this`items, this`itemOrder, this`itemCounter,
                     this`userBalances)
    {
      if !Filled(username) || !Filled(password) {
        return BAD_LOGIN_BODY;
      }
      var name, pass := username.value, password.value;
      var i := 0;
      while i < |userOrder| && !(users[userOrder[i]].username == name && users[userOrder[i]].password == pass)
        invariant 0 <= i <= |userOrder|
        invariant forall j :: 0 <= j < i ==> !(users[userOrder[j]].username == name && users[userOrder[j]].password == pass)
      {
        i := i + 1;
      }
      if i == |userOrder| {
        assert !CredentialsMatch(name, pass) by {
          forall id | id in users
            ensures !(users[id].username == name && users[id].password == pass)
          {
            assert userOrder[id - 1] == id;
          }
        }
        return BAD_LOGIN;
      }
      var found := users[userOrder[i]];
      authTokens := authTokens[token := found.id];
      return Reply(200, AccessToken(token));
    }

    // ---------------------------------------------------------------
    // Profiles
    // ---------------------------------------------------------------

    method AddUserInfo(header: Option<string>, userId: int, data: Object) returns (r: Reply)
      requires Valid()
      modifies this
      ensures Valid() && (old(Owned()) ==> Owned())
      ensures old(Authenticate(header)).Denied? ==> r == old(Authenticate(header)).reply && unchanged(this)
      ensures old(Authenticate(header)).Granted? && userId !in old(users) ==>
        r == Reply(404, Message(USER_NOT_FOUND)) && unchanged(this)
      ensures old(Authenticate(header)).Granted? && userId in old(users) && userId in old(userInfos) ==>
        r == Reply(400, Message(PROFILE_EXISTS)) && unchanged(this)
      ensures old(Authenticate(header)).Granted? && userId in old(users) && userId !in old(userInfos) ==>
        && r == Reply(200, Message(PROFILE_CREATED))
        && userInfos == old(userInfos)[userId := data]
        && unchanged(this`users, this`userOrder, this`userCounter, this`stores, this`storeOrder,
                     this`storeCounter, this`items, this`itemOrder, this`itemCounter,
                     this`userBalances, this`authTokens)
    {
      var gate := Authenticate(header);
      if gate.Denied? {
        return gate.reply;
      }
      if userId !in users {
        return Reply(404, Message(USER_NOT_FOUND));
      }
      if userId in userInfos {
        return Reply(400, Message(PROFILE_EXISTS));
      }
      userInfos := userInfos[userId := data];
      return Reply(200, Message(PROFILE_CREATED));
    }

    method GetUserInfo(header: Option<string>, userId: int) returns (r: Reply)
      ensures Authenticate(header).Denied? ==> r == Authenticate(header).reply
      ensures Authenticate(header).Granted? && userId !in users && userId == SENTINEL_USER_ID ==>
        r == Reply(404, Message(PROFILE_NOT_FOUND))
      ensures Authenticate(header).Granted? && userId !in users && userId != SENTINEL_USER_ID ==>
        r == Reply(404, Message(USER_NOT_FOUND))
      ensures Authenticate(header).Granted? && userId in users && userId !in userInfos ==>
        r == Reply(404, Message(PROFILE_NOT_FOUND))
      ensures Authenticate(header).Granted? && userId in users && userId in userInfos ==>
        r == ProfileView(userInfos[userId], userId)
    {
      var gate := Authenticate(header);
      if gate.Denied? {
        return gate.reply;
      }
      if userId !in users && userId == SENTINEL_USER_ID {
        return Reply(404, Message(PROFILE_NOT_FOUND));
      }
      if userId !in users {
        return Reply(404, Message(USER_NOT_FOUND));
      }
      if userId !in userInfos {
        return Reply(404, Message(PROFILE_NOT_FOUND));
      }
      return ProfileView(userInfos[userId], userId);
    }

    method UpdateUserInfo(header: Option<string>, userId: int, data: Object) returns (r: Reply)
      requires Valid()
      modifies this
      ensures Valid() && (old(Owned()) ==> Owned())
      ensures old(Authenticate(header)).Denied? ==> r == old(Authenticate(header)).reply && unchanged(this)
      ensures old(Authenticate(header)).Granted? && userId !in old(users) && userId == SENTINEL_USER_ID ==>
        r == Reply(404, Message(PROFILE_NOT_FOUND_DOT)) && unchanged(this)
      ensures old(Authenticate(header)).Granted? && userId !in old(users) && userId != SENTINEL_USER_ID ==>
        r == Reply(404, Message(USER_NOT_FOUND)) && unchanged(this)
      ensures old(Authenticate(header)).Granted? && userId in old(users) && userId !in old(userInfos) ==>
        r == Reply(404, Message(PROFILE_NOT_FOUND_DOT)) && unchanged(this)
      ensures old(Authenticate(header)).Granted? && userId in old(users) && userId in old(userInfos) ==>
        && r == Reply(200, Message(PROFILE_UPDATED))
        && userInfos == old(userInfos)[userId := Merge(old(userInfos)[userId], data)]
        && unchanged(this`users, this`userOrder, this`userCounter, this`stores, this`storeOrder,
                     this`storeCounter, this`items, this`itemOrder, this`itemCounter,
                     this`userBalances, this`authTokens)
    {
      var gate := Authenticate(header);
      if gate.Denied? {
        return gate.reply;
      }
      if userId !in users && userId == SENTINEL_USER_ID {
        return Reply(404, Message(PROFILE_NOT_FOUND_DOT));
      }
      if userId !in users {
        return Reply(404, Message(USER_NOT_FOUND));
      }
      if userId !in userInfos {
        return Reply(404, Message(PROFILE_NOT_FOUND_DOT));
      }
      userInfos := userInfos[userId := Merge(userInfos[userId], data)];
      return Reply(200, Message(PROFILE_UPDATED));
    }

    method DeleteUserInfo(header: Option<string>, userId: int) returns (r: Reply)
      requires Valid()
      modifies this
      ensures Valid() && (old(Owned()) ==> Owned())
      ensures old(Authenticate(header)).Denied? ==> r == old(Authenticate(header)).reply && unchanged(this)
      ensures old(Authenticate(header)).Granted? && userId !in old(users) && userId == SENTINEL_USER_ID ==>
        r == Reply(404, Message(PROFILE_NOT_FOUND_DOT)) && unchanged(this)
      ensures old(Authenticate(header)).Granted? && userId !in old(users) && userId != SENTINEL_USER_ID ==>
        r == Reply(404, Message(USER_NOT_FOUND)) && unchanged(this)
      ensures old(Authenticate(header)).Granted? && userId in old(users) && userId !in old(userInfos) ==>
        r == Reply(404, Message(PROFILE_NOT_FOUND_DOT)) && unchanged(this)
      ensures old(Authenticate(header)).Granted? && userId in old(users) && userId in old(userInfos) ==>
        && r == Reply(200, Message(PROFILE_DELETED))
        && userInfos == old(userInfos) - {userId}
        && unchanged(this`users, this`userOrder, this`userCounter, this`stores, this`storeOrder,
                     this`storeCounter, this`items, this`itemOrder, this`itemCounter,
                     this`userBalances, this`authTokens)
    {
      var gate := Authenticate(header);
      if gate.Denied? {
        return gate.reply;
      }
      if userId !in users && userId == SENTINEL_USER_ID {
        return Reply(404, Message(PROFILE_NOT_FOUND_DOT));
      }
      if userId !in users {
        return Reply(404, Message(USER_NOT_FOUND));
      }
      if userId !in userInfos {
        return Reply(404, Message(PROFILE_NOT_FOUND_DOT));
      }
      userInfos := userInfos - {userId};
      return Reply(200, Message(PROFILE_DELETED));
    }

    // ---------------------------------------------------------------
    // Stores
    // ---------------------------------------------------------------

    method AddStore(header: Option<string>, name: string) returns (r: Reply)
      requires Valid()
      modifies this
      ensures Valid() && (old(Owned()) ==> Owned())
      ensures old(Authenticate(header)).Denied? ==> r == old(Authenticate(header)).reply && unchanged(this)
      ensures old(Authenticate(header)).Granted? && name == "" ==>
        r == Reply(400, Message(STORE_NAME_REQUIRED)) && unchanged(this)
      ensures old(Authenticate(header)).Granted? && name != "" && name in old(stores) ==>
        r == Reply(400, Message(StoreExists(name))) && unchanged(this)
      ensures old(Authenticate(header)).Granted? && name != "" && name !in old(stores) ==>
        && r == Reply(201, StoreRecord(Store(Decimal(old(storeCounter)), name, [])))
        && stores == old(stores)[name := Store(Decimal(old(storeCounter)), name, [])]
        && storeOrder == old(storeOrder) + [name]
        && storeCounter == old(storeCounter) + 1
        && unchanged(this`users, this`userOrder, this`userCounter, this`userInfos, this`items,
                     this`itemOrder, this`itemCounter, this`userBalances, this`authTokens)
    {
      var gate := Authenticate(header);
      if gate.Denied? {
        return gate.reply;
      }
      if name == "" {
        return Reply(400, Message(STORE_NAME_REQUIRED));
      }
      if name in stores {
        return Reply(400, Message(StoreExists(name)));
      }
      var store := Store(Decimal(storeCounter), name, []);
      StoresValidAdd(stores, storeOrder, storeCounter, name);
      stores := stores[name := store];
      storeOrder := storeOrder + [name];
      storeCounter := storeCounter + 1;
      return Reply(201, StoreRecord(store));
    }

    method GetStore(header: Option<string>, name: string) returns (r: Reply)
      ensures Authenticate(header).Denied? ==> r == Authenticate(header).reply
      ensures Authenticate(header).Granted? && name !in stores ==> r == Reply(404, Message(STORE_NOT_FOUND))
      ensures Authenticate(header).Granted? && name in stores ==> r == Reply(200, StoreRecord(stores[name]))
    {
      var gate := Authenticate(header);
      if gate.Denied? {
        return gate.reply;
      }
      if name !in stores {
        return Reply(404, Message(STORE_NOT_FOUND));
      }
      return Reply(200, StoreRecord(stores[name]));
    }

    // ---------------------------------------------------------------
    // Items
    // ---------------------------------------------------------------

    /** The store add_item links a new item to: the first, in insertion
        order, whose id equals str(storeId); |storeOrder| if there is none. */
    method LinkPosition(storeId: Value) returns (j: nat)
      requires Valid()
      ensures j == LinkTarget(storeOrder, stores, storeId)
    {
      j := |storeOrder|;
      var text := PyStr(storeId);
      if text.Some? {
        j := FindStoreWithUuid(text.value);
      }
    }

    /** add_item. The item is created whether or not a store matches its
        store_id; its name goes to the first store, in insertion order,
        whose id equals str(store_id). */
    method AddItem(header: Option<string>, name: string, data: Object) returns (r: Reply)
      requires Valid()
      modifies this`items, this`itemOrder, this`itemCounter, this`stores
      ensures Valid()
      ensures old(Authenticate(header)).Denied? ==> r == old(Authenticate(header)).reply && unchanged(this)
      ensures old(Authenticate(header)).Granted? && FirstItemNamed(old(itemOrder), old(items), name) < |old(itemOrder)| ==>
        r == Reply(400, Message(ItemExists(name))) && unchanged(this)
      ensures old(Authenticate(header)).Granted? && FirstItemNamed(old(itemOrder), old(items), name) == |old(itemOrder)| ==>
        && r == Reply(201, ItemCreated(name, Get(data, "price"), old(itemCounter)))
        && items == old(items)[old(itemCounter) := NewItem(name, data, old(itemCounter))]
        && itemOrder == old(itemOrder) + [old(itemCounter)]
        && itemCounter == old(itemCounter) + 1
        && stores == AppendToStore(old(stores), old(storeOrder), LinkTarget(old(storeOrder), old(stores), Get(data, "store_id")), name)
    {
      var gate := Authenticate(header);
      if gate.Denied? {
        return gate.reply;
      }
      var i := FindItemNamed(name);
      if i < |itemOrder| {
        return Reply(400, Message(ItemExists(name)));
      }
      r := CreateItem(name, data);
    }

    /** The creating half of add_item, once no item has the name: the record
        under the next id, and its name appended to the first store whose id
        is str(store_id). */
    method CreateItem(name: string, data: Object) returns (r: Reply)
      requires Valid()
      modifies this`items, this`itemOrder, this`itemCounter, this`stores
      ensures Valid()
      ensures r == Reply(201, ItemCreated(name, Get(data, "price"), old(itemCounter)))
      ensures items == old(items)[old(itemCounter) := NewItem(name, data, old(itemCounter))]
      ensures itemOrder == old(itemOrder) + [old(itemCounter)]
      ensures itemCounter == old(itemCounter) + 1
      ensures stores == AppendToStore(old(stores), old(storeOrder), LinkTarget(old(storeOrder), old(stores), Get(data, "store_id")), name)
    {
      var id := InsertItem(NewItem(name, data, itemCounter));
      LinkToStore(Get(data, "store_id"), name);
      return Reply(201, ItemCreated(name, Get(data, "price"), id));
    }

    /** `items[item_id] = item_data` under the next id. */
    method InsertItem(item: Object) returns (id: int)
      requires Valid() && "name" in item && "price" in item
      modifies this`items, this`itemOrder, this`itemCounter
      ensures Valid()
      ensures id == old(itemCounter) && itemCounter == id + 1
      ensures items == old(items)[id := item] && itemOrder == old(itemOrder) + [id]
    {
      id := itemCounter;
      ItemsValidAdd(items, itemOrder, itemCounter, item);
      items, itemOrder, itemCounter := items[id := item], itemOrder + [id], itemCounter + 1;
    }

    /** The store loop of add_item: append itemName to the first store whose
        id equals str(storeId), if there is one. */
    method LinkToStore(storeId: Value, itemName: string)
      requires Valid()
      modifies this`stores
      ensures Valid()
      ensures stores == AppendToStore(old(stores), storeOrder, LinkTarget(storeOrder, old(stores), storeId), itemName)
    {
      var j := LinkPosition(storeId);
      if j < |storeOrder| {
        StoresValidAppend(stores, storeOrder, storeCounter, storeOrder[j], itemName);
      }
      stores := AppendToStore(stores, storeOrder, j, itemName);
    }

    method GetItemByName(header: Option<string>, name: string) returns (r: Reply)
      requires Valid()
      ensures Authenticate(header).Denied? ==> r == Authenticate(header).reply
      ensures Authenticate(header).Granted? ==>
        var k := FirstItemNamed(itemOrder, items, name);
        && (k < |itemOrder| ==> r == Reply(200, ItemRecord(items[itemOrder[k]])))
        && (k == |itemOrder| ==> r == Reply(404, Message(ITEM_NOT_FOUND)))
      ensures Authenticate(header).Granted? ==>
        (r.status == 200 <==> exists id :: id in items && HasName(items[id], name))
    {
      var gate := Authenticate(header);
      if gate.Denied? {
        return gate.reply;
      }
      var i := FindItemNamed(name);
      if i < |itemOrder| {
        return Reply(200, ItemRecord(items[itemOrder[i]]));
      }
      assert forall id :: id in items ==> !HasName(items[id], name) by {
        forall id | id in items
          ensures !HasName(items[id], name)
        {
          assert itemOrder[id - 1] == id;
        }
      }
      return Reply(404, Message(ITEM_NOT_FOUND));
    }

    method UpdateItemByName(header: Option<string>, name: string, data: Object) returns (r: Reply)
      requires Valid()
      modifies this
      ensures Valid() && (old(Owned()) ==> Owned())
      ensures old(Authenticate(header)).Denied? ==> r == old(Authenticate(header)).reply && unchanged(this)
      ensures old(Authenticate(header)).Granted? && FirstItemNamed(old(itemOrder), old(items), name) == |old(itemOrder)| ==>
        r == Reply(404, Message(ITEM_NOT_FOUND)) && unchanged(this)
      ensures old(Authenticate(header)).Granted? && FirstItemNamed(old(itemOrder), old(items), name) < |old(itemOrder)| ==>
        var id := old(itemOrder)[FirstItemNamed(old(itemOrder), old(items), name)];
        && items == old(items)[id := Merge(old(items)[id], data)]
        && r == Reply(200, ItemRecord(items[id]))
        && unchanged(this`users, this`userOrder, this`userCounter, this`userInfos, this`stores,
                     this`storeOrder, this`storeCounter, this`itemOrder, this`itemCounter,
                     this`userBalances, this`authTokens)
    {
      var gate := Authenticate(header);
      if gate.Denied? {
        return gate.reply;
      }
      var i := FindItemNamed(name);
      if i == |itemOrder| {
        return Reply(404, Message(ITEM_NOT_FOUND));
      }
      var id := itemOrder[i];
      ItemsValidMerge(items, itemOrder, itemCounter, id, data);
      items := items[id := Merge(items[id], data)];
      return Reply(200, ItemRecord(items[id]));
    }

    method GetItemById(header: Option<string>, itemId: int) returns (r: Reply)
      ensures Authenticate(header).Denied? ==> r == Authenticate(header).reply
      ensures Authenticate(header).Granted? && itemId !in items ==> r == Reply(404, Message(ITEM_NOT_FOUND))
      ensures Authenticate(header).Granted? && itemId in items ==> r == Reply(200, ItemRecord(items[itemId]))
    {
      var gate := Authenticate(header);
      if gate.Denied? {
        return gate.reply;
      }
      if itemId !in items {
        return Reply(404, Message(ITEM_NOT_FOUND));
      }
      return Reply(200, ItemRecord(items[itemId]));
    }

    method UpdateItemById(header: Option<string>, itemId: int, data: Object) returns (r: Reply)
      requires Valid()
      modifies this
      ensures Valid() && (old(Owned()) ==> Owned())
      ensures old(Authenticate(header)).Denied? ==> r == old(Authenticate(header)).reply && unchanged(this)
      ensures old(Authenticate(header)).Granted? && itemId !in old(items) ==>
        r == Reply(404, Message(ITEM_NOT_FOUND)) && unchanged(this)
      ensures old(Authenticate(header)).Granted? && itemId in old(items) ==>
        && items == old(items)[itemId := Merge(old(items)[itemId], data)]
        && r == Reply(200, ItemRecord(items[itemId]))
        && unchanged(this`users, this`userOrder, this`userCounter, this`userInfos, this`stores,
                     this`storeOrder, this`storeCounter, this`itemOrder, this`itemCounter,
                     this`userBalances, this`authTokens)
    {
      var gate := Authenticate(header);
      if gate.Denied? {
        return gate.reply;
      }
      if itemId !in items {
        return Reply(404, Message(ITEM_NOT_FOUND));
      }
      ItemsValidMerge(items, itemOrder, itemCounter, itemId, data);
      items := items[itemId := Merge(items[itemId], data)];
      return Reply(200, ItemRecord(items[itemId]));
    }

    method GetAllItems(header: Option<string>) returns (r: Reply)
      requires Valid()
      ensures Authenticate(header).Denied? ==> r == Authenticate(header).reply
      ensures Authenticate(header).Granted? ==> r.status == 200 && r.body.ItemList?
      ensures Authenticate(header).Granted? ==> |r.body.records| == itemCounter - 1
      ensures Authenticate(header).Granted? ==> forall i :: 0 <= i < |r.body.records| ==> r.body.records[i] == items[i + 1]
    {
      var gate := Authenticate(header);
      if gate.Denied? {
        return gate.reply;
      }
      return Reply(200, ItemList(ItemsInOrder()));
    }

    // ---------------------------------------------------------------
    // Balances and payment
    // ---------------------------------------------------------------

    /** add_user_balance: sets the balance to the given amount (0 if none is
        given), discarding whatever was there. */
    method AddUserBalance(header: Option<string>, userId: int, data: Object) returns (r: Reply)
      requires Valid()
      requires "balance" in data ==> AsNumber(data["balance"]).Some?
      modifies this
      ensures Valid() && (old(Owned()) ==> Owned())
      ensures old(Authenticate(header)).Denied? ==> r == old(Authenticate(header)).reply && unchanged(this)
      ensures old(Authenticate(header)).Granted? && userId !in old(users) ==>
        r == Reply(404, Message(USER_NOT_FOUND_DOT)) && unchanged(this)
      ensures old(Authenticate(header)).Granted? && userId in old(users) ==>
        var amount := if "balance" in data then AsNumber(data["balance"]).value else 0.0;
        && r == Reply(201, BalanceMessage(BALANCE_ADDED, amount))
        && userBalances == old(userBalances)[userId := amount]
        && unchanged(this`users, this`userOrder, this`userCounter, this`userInfos, this`stores,
                     this`storeOrder, this`storeCounter, this`items, this`itemOrder, this`itemCounter,
                     this`authTokens)
    {
      var gate := Authenticate(header);
      if gate.Denied? {
        return gate.reply;
      }
      if userId !in users {
        return Reply(404, Message(USER_NOT_FOUND_DOT));
      }
      var amount := if "balance" in data then AsNumber(data["balance"]).value else 0.0;
      userBalances := userBalances[userId := amount];
      return Reply(201, BalanceMessage(BALANCE_ADDED, amount));
    }

    /** get_user_balance checks for the balance record before the user. */
    method GetUserBalance(header: Option<string>, userId: int) returns (r: Reply)
      ensures Authenticate(header).Denied? ==> r == Authenticate(header).reply
      ensures Authenticate(header).Granted? && userId !in userBalances ==>
        r == Reply(404, Message(BALANCE_NOT_FOUND))
      ensures Authenticate(header).Granted? && userId in userBalances && userId !in users ==>
        r == Reply(404, Message(USER_NOT_FOUND))
      ensures Authenticate(header).Granted? && userId in userBalances && userId in users ==>
        r == Reply(200, BalanceMessage(BALANCE_RETRIEVED, userBalances[userId]))
      ensures Owned() ==> r != Reply(404, Message(USER_NOT_FOUND))
    {
      var gate := Authenticate(header);
      if gate.Denied? {
        return gate.reply;
      }
      if userId !in userBalances {
        return Reply(404, Message(BALANCE_NOT_FOUND));
      }
      if userId !in users {
        return Reply(404, Message(USER_NOT_FOUND));
      }
      return Reply(200, BalanceMessage(BALANCE_RETRIEVED, userBalances[userId]));
    }

    /** pay_for_item: user, item, balance record, then funds; only success
        changes anything, and only the payer's balance. */
    method PayForItem(header: Option<string>, userId: int, data: Object) returns (r: Reply)
      requires Valid()
      modifies this
      ensures Valid() && (old(Owned()) ==> Owned())
      ensures unchanged(this`users, this`userOrder, this`userCounter, this`userInfos, this`stores,
                        this`storeOrder, this`storeCounter, this`items, this`itemOrder, this`itemCounter,
                        this`authTokens)
      ensures r.status != 200 ==> unchanged(this)
      ensures old(Authenticate(header)).Denied? ==> r == old(Authenticate(header)).reply
      ensures old(Authenticate(header)).Granted? && userId !in users ==> r == Reply(404, Message(USER_NOT_FOUND))
      ensures old(Authenticate(header)).Granted? && userId in users && IntKeyOf(Get(data, "itemId")).Unhashable? ==>
        r == SERVER_ERROR
      ensures old(Authenticate(header)).Granted? && userId in users && IntKeyOf(Get(data, "itemId")).NoKey? ==>
        r == Reply(404, Message(ITEM_NOT_FOUND))
      ensures (old(Authenticate(header)).Granted? && userId in users && IntKeyOf(Get(data, "itemId")).Key? &&
               IntKeyOf(Get(data, "itemId")).k !in items) ==>
        r == Reply(404, Message(ITEM_NOT_FOUND))
      ensures old(Authenticate(header)).Granted? && userId in users && IntKeyOf(Get(data, "itemId")).Key? ==>
        var itemId := IntKeyOf(Get(data, "itemId")).k;
        itemId in items ==>
          && (userId !in old(userBalances) ==> r == Reply(404, Message(BALANCE_NOT_FOUND)))
          && (userId in old(userBalances) && AsNumber(items[itemId]["price"]).None? ==> r == SERVER_ERROR)
          && (userId in old(userBalances) && AsNumber(items[itemId]["price"]).Some? ==>
                var balance, price := old(userBalances)[userId], AsNumber(items[itemId]["price"]).value;
                && (balance < price ==> r == Reply(400, NotEnoughMoney(balance, price)))
                && (balance >= price ==>
                      && r == Reply(200, Payment(balance - price, items[itemId]["name"], price))
                      && userBalances == old(userBalances)[userId := balance - price]))
    {
      var gate := Authenticate(header);
      if gate.Denied? {
        return gate.reply;
      }
      if userId !in users {
        return Reply(404, Message(USER_NOT_FOUND));
      }
      var key := IntKeyOf(Get(data, "itemId"));
      if key.Unhashable? {
        return SERVER_ERROR;
      }
      if key.NoKey? || key.k !in items {
        return Reply(404, Message(ITEM_NOT_FOUND));
      }
      var itemId := key.k;
      if userId !in userBalances {
        return Reply(404, Message(BALANCE_NOT_FOUND));
      }
      var item := items[itemId];
      var balance := userBalances[userId];
      var price := AsNumber(item["price"]);
      if price.None? {
        return SERVER_ERROR;
      }
      if balance < price.value {
        return Reply(400, NotEnoughMoney(balance, price.value));
      }
      userBalances := userBalances[userId := balance - price.value];
      return Reply(200, Payment(userBalances[userId], item["name"], price.value));
    }

    // ---------------------------------------------------------------
    // Lifecycle
    // ---------------------------------------------------------------

    method HealthCheck() returns (r: Reply)
      ensures r == Reply(200, Health(|users|, |stores|, |items|))
    {
      return Reply(200, Health(|users|, |stores|, |items|));
    }

    method ResetData() returns (r: Reply)
      modifies this
      ensures Valid() && Owned() && IsReset()
      ensures r == Reply(200, ResetComplete)
    {
      EmptyValid();
      ClearUsers();
      ClearStores();
      ClearItems();
      return Reply(200, ResetComplete);
    }

    /** reset_data, per entity: the users with everything keyed by them. */
    method ClearUsers()
      modifies this`users, this`userOrder, this`userCounter, this`userInfos, this`userBalances, this`authTokens
      ensures users == map[] && userOrder == [] && userCounter == 1
      ensures userInfos == map[] && userBalances == map[] && authTokens == map[]
    {
      users, userOrder, userCounter := map[], [], 1;
      userInfos, userBalances, authTokens := map[], map[], map[];
    }

    method ClearStores()
      modifies this`stores, this`storeOrder, this`storeCounter
      ensures stores == map[] && storeOrder == [] && storeCounter == 1
    {
      stores, storeOrder, storeCounter := map[], [], 1;
    }

    method ClearItems()
      modifies this`items, this`itemOrder, this`itemCounter
      ensures items == map[] && itemOrder == [] && itemCounter == 1
    {
      items, itemOrder, itemCounter := map[], [], 1;
    }
  }

  /** No two stores share an id. */
  lemma StoreIdsDistinct(s: FixtureStore)
    requires s.Valid()
    ensures forall a, b :: a in s.stores && b in s.stores && s.stores[a].uuid == s.stores[b].uuid ==> a == b
  {
    forall a, b | a in s.stores && b in s.stores && s.stores[a].uuid == s.stores[b].uuid
      ensures a == b
    {
      var i :| 0 <= i < |s.storeOrder| && s.storeOrder[i] == a;
      var j :| 0 <= j < |s.storeOrder| && s.storeOrder[j] == b;
      DecimalInjective(i + 1, j + 1);
    }
  }

  /** str(k) names the k-th store created, and no other. */
  lemma StoreIdNamesKthStore(s: FixtureStore, k: nat)
    requires s.Valid() && 1 <= k < s.storeCounter
    ensures FirstStoreWithUuid(s.storeOrder, s.stores, Decimal(k)) == k - 1
  {
    var f := FirstStoreWithUuid(s.storeOrder, s.stores, Decimal(k));
    assert s.stores[s.storeOrder[k - 1]].uuid == Decimal(k);
    assert f < |s.storeOrder|;
    DecimalInjective(f + 1, k);
  }
}
