/** Properties that span several requests to the fixture store: what one
    handler leaves behind for the next. Each method runs the handlers on an
    arbitrary valid store and states what the later replies must be. */
module Scenarios {
  import opened Json
  import opened Auth
  import opened Tables
  import opened Fixture

  /** After reset_data, health reports no users, stores or items. */
  method ResetThenHealth(s: FixtureStore) returns (h: Reply)
    modifies s
    ensures h == Reply(200, Health(0, 0, 0))
  {
    var _ := s.ResetData();
    h := s.HealthCheck();
  }

  /** After reset_data, the first registration gets id 1 again. */
  method ResetThenRegister(s: FixtureStore, name: string, password: string) returns (r: Reply, h: Reply)
    requires name != "" && password != ""
    modifies s
    ensures r == Reply(201, WithId(USER_CREATED, 1))
    ensures h == Reply(200, Health(1, 0, 0))
  {
    var _ := s.ResetData();
    r := s.Register(Some(name), Some(password));
    h := s.HealthCheck();
  }

  /** reset_data clears the token table: every header is refused afterwards. */
  method ResetRevokesTokens(s: FixtureStore)
    modifies s
    ensures forall h :: s.Authenticate(Some(h)) == Denied(INVALID_TOKEN)
    ensures s.Authenticate(None) == Denied(AUTH_REQUIRED)
  {
    var _ := s.ResetData();
  }

  /** Registering the same username twice: the second attempt fails and
      echoes the id the first one created. */
  method RegisterTwice(s: FixtureStore, name: string, password: string, password2: string) returns (r1: Reply, r2: Reply)
    requires s.Valid() && !s.UsernameTaken(name)
    requires name != "" && password != "" && password2 != ""
    modifies s
    ensures r1 == Reply(201, WithId(USER_CREATED, old(s.userCounter)))
    ensures r2 == Reply(400, WithId(USER_EXISTS, old(s.userCounter)))
    ensures s.users == old(s.users)[old(s.userCounter) := Account(name, password, old(s.userCounter))]
  {
    r1 := s.Register(Some(name), Some(password));
    var id := old(s.userCounter);
    assert s.users[id].username == name;
    r2 := s.Register(Some(name), Some(password2));
  }

  /** The token login hands out, sent back as "Bearer t", "JWT t" or plain,
      opens the gate for the user who logged in. */
  method LoginThenAuthenticate(s: FixtureStore, name: string, password: string, token: string) returns (r: Reply)
    requires s.Valid() && s.CredentialsMatch(name, password)
    requires name != "" && password != ""
    requires !Occurs(token, BEARER) && !Occurs(token, JWT)
    modifies s
    ensures r == Reply(200, AccessToken(token))
    ensures s.Authenticate(Some(BEARER + token)) == s.Authenticate(Some(JWT + token)) == s.Authenticate(Some(token))
    ensures s.Authenticate(Some(token)).Granted?
    ensures var id := s.Authenticate(Some(token)).userId; id in s.users && s.users[id].username == name
  {
    r := s.Login(Some(name), Some(password), token);
    TokenOfPlainHeader(token);
  }

  /** Creating a store twice under one name: the second attempt is refused
      and the first store stays as it was created. */
  method AddStoreTwice(s: FixtureStore, header: Option<string>, name: string) returns (r1: Reply, r2: Reply)
    requires s.Valid() && s.Authenticate(header).Granted? && name != "" && name !in s.stores
    modifies s
    ensures r1.status == 201 && r2 == Reply(400, Message(StoreExists(name)))
    ensures name in s.stores && s.stores[name] == Store(Decimal(old(s.storeCounter)), name, [])
  {
    r1 := s.AddStore(header, name);
    r2 := s.AddStore(header, name);
  }

  /** Creating an item twice under one name: the second attempt is refused
      and creates nothing. */
  method AddItemTwice(s: FixtureStore, header: Option<string>, name: string, data: Object, data2: Object) returns (r1: Reply, r2: Reply)
    requires s.Valid() && s.Authenticate(header).Granted?
    requires FirstItemNamed(s.itemOrder, s.items, name) == |s.itemOrder|
    modifies s
    ensures r1 == Reply(201, ItemCreated(name, Get(data, "price"), old(s.itemCounter)))
    ensures r2 == Reply(400, Message(ItemExists(name)))
    ensures s.itemCounter == old(s.itemCounter) + 1
  {
    r1 := s.AddItem(header, name, data);
    var last := |s.itemOrder| - 1;
    assert HasName(s.items[s.itemOrder[last]], name);
    r2 := s.AddItem(header, name, data2);
  }

  /** An item whose store_id is the number k lands in the k-th store
      created, and in no other. */
  method AddItemToKthStore(s: FixtureStore, header: Option<string>, name: string, data: Object, k: nat) returns (r: Reply)
    requires s.Valid() && s.Authenticate(header).Granted?
    requires FirstItemNamed(s.itemOrder, s.items, name) == |s.itemOrder|
    requires 1 <= k < s.storeCounter && Get(data, "store_id") == Int(k)
    modifies s
    ensures r.status == 201
    ensures var n := old(s.storeOrder)[k - 1];
      && n in s.stores && s.stores[n].items == old(s.stores)[n].items + [name]
      && forall m :: m in old(s.stores) && m != n ==> m in s.stores && s.stores[m] == old(s.stores)[m]
  {
    StoreIdNamesKthStore(s, k);
    assert PyStr(Int(k)) == Some(Decimal(k));
    r := s.AddItem(header, name, data);
  }

  /** A store_id that is missing or null: str(None) is "None", which no
      store id made of digits equals, so the item is still created and
      every store stays as it was. */
  method AddItemWithoutStore(s: FixtureStore, header: Option<string>, name: string, data: Object) returns (r: Reply)
    requires s.Valid() && s.Authenticate(header).Granted?
    requires FirstItemNamed(s.itemOrder, s.items, name) == |s.itemOrder|
    requires Get(data, "store_id") == Null
    modifies s
    ensures r.status == 201 && old(s.itemCounter) in s.items
    ensures s.stores == old(s.stores)
  {
    forall i | 0 <= i < |s.storeOrder|
      ensures s.stores[s.storeOrder[i]].uuid != "None"
    {
      assert IsDigits(Decimal(i + 1));
      assert "None"[0] == 'N';
    }
    r := s.AddItem(header, name, data);
  }

  /** A profile just created is what the next read projects. */
  method AddThenGetProfile(s: FixtureStore, header: Option<string>, userId: int, data: Object) returns (r: Reply)
    requires s.Valid() && s.Authenticate(header).Granted?
    requires userId in s.users && userId !in s.userInfos
    modifies s
    ensures r == ProfileView(data, userId)
  {
    var _ := s.AddUserInfo(header, userId, data);
    r := s.GetUserInfo(header, userId);
  }

  /** After a profile is deleted, reading it reports "User info not found". */
  method DeleteThenGetProfile(s: FixtureStore, header: Option<string>, userId: int) returns (r: Reply)
    requires s.Valid() && s.Authenticate(header).Granted?
    requires userId in s.users && userId in s.userInfos
    modifies s
    ensures r == Reply(404, Message(PROFILE_NOT_FOUND))
  {
    var _ := s.DeleteUserInfo(header, userId);
    r := s.GetUserInfo(header, userId);
  }

  /** An item read after an update by id carries every key of the update
      and keeps its other keys. */
  method UpdateThenGetItem(s: FixtureStore, header: Option<string>, itemId: int, data: Object) returns (r: Reply)
    requires s.Valid() && s.Authenticate(header).Granted? && itemId in s.items
    modifies s
    ensures r.status == 200 && r.body.ItemRecord?
    ensures forall k :: k in data ==> k in r.body.item && r.body.item[k] == data[k]
    ensures forall k :: k in old(s.items)[itemId] && k !in data ==> k in r.body.item && r.body.item[k] == old(s.items)[itemId][k]
  {
    var _ := s.UpdateItemById(header, itemId, data);
    r := s.GetItemById(header, itemId);
  }

  /** Setting a balance twice keeps only the second amount. */
  method SetBalanceTwice(s: FixtureStore, header: Option<string>, userId: int, a: real, b: real) returns (r: Reply)
    requires s.Valid() && s.Authenticate(header).Granted? && userId in s.users
    modifies s
    ensures r == Reply(200, BalanceMessage(BALANCE_RETRIEVED, b))
  {
    var _ := s.AddUserBalance(header, userId, map["balance" := Float(a)]);
    var _ := s.AddUserBalance(header, userId, map["balance" := Float(b)]);
    r := s.GetUserBalance(header, userId);
  }

  /** A balance set without an amount is 0. */
  method SetEmptyBalance(s: FixtureStore, header: Option<string>, userId: int) returns (r: Reply)
    requires s.Valid() && s.Authenticate(header).Granted? && userId in s.users
    modifies s
    ensures r == Reply(200, BalanceMessage(BALANCE_RETRIEVED, 0.0))
  {
    var _ := s.AddUserBalance(header, userId, map[]);
    r := s.GetUserBalance(header, userId);
  }

  /** Paying twice debits twice; the read afterwards shows both debits. */
  method PayTwice(s: FixtureStore, header: Option<string>, userId: int, itemId: int) returns (r1: Reply, r2: Reply, r3: Reply)
    requires s.Valid() && s.Authenticate(header).Granted?
    requires userId in s.users && itemId in s.items && userId in s.userBalances
    requires AsNumber(s.items[itemId]["price"]).Some?
    requires var b, p := s.userBalances[userId], AsNumber(s.items[itemId]["price"]).value; b >= p && b - p >= p
    modifies s
    ensures var price := AsNumber(old(s.items)[itemId]["price"]).value;
      && r1.status == 200 && r2.status == 200
      && r3 == Reply(200, BalanceMessage(BALANCE_RETRIEVED, old(s.userBalances)[userId] - 2.0 * price))
  {
    var data := map["itemId" := Int(itemId)];
    r1 := s.PayForItem(header, userId, data);
    r2 := s.PayForItem(header, userId, data);
    r3 := s.GetUserBalance(header, userId);
  }
}
