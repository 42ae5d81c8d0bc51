# Fixture store of the mock API server

The mock server in `mock_server/app.py` keeps all of its data in memory. That data is:

- six module-level dicts:
  - `users`: id to account;
  - `user_infos`: id to profile;
  - `stores`: name to store;
  - `items`: id to item record;
  - `user_balances`: id to amount;
  - `auth_tokens`: token to user id;
- three id counters.

Every route handler checks its preconditions in a fixed order, then reads or mutates those dicts.

This project models the store as one Dafny class, `Fixture.FixtureStore`:

- Each dict is a `map` field and each counter is a `nat` field.
- There are three order sequences: `userOrder`, `itemOrder` and `storeOrder`. They record the insertion order of the Python dicts. Registration, login, the item-name scans, the store scan of `add_item` and `/items` all depend on that order.
- Each handler is a method that returns a `Reply`: a status code plus a JSON body. Each branch's reply and new state are spelled out in `ensures`.

The files are:

- `json.dfy` (module `Json`): JSON values as the handlers receive them. It also holds the Python operations applied to them:
  - `dict.get`;
  - `dict.update` (`Merge`);
  - numeric comparison (`AsNumber`);
  - lookup in an int-keyed dict (`IntKeyOf`);
  - `str()` (`Decimal`, `PyStr`).
- `auth.dfy` (module `Auth`): the token extraction of `verify_auth_header`. The call `str.replace(pattern, '')` is modelled by `RemoveAll`.
- `tables.dfy` (module `Tables`): the records and the table invariants, stated on map and sequence values:
  - ids are handed out 1, 2, … in insertion order and never deleted;
  - the k-th store gets the id `str(k)`;
  - usernames are unique;
  - every item keeps its `name` and `price` keys.

  It also holds the first-match scans, stated as functions.
- `fixture.dfy` (module `Fixture`): the class and one method per handler. The linear scans (register, login, item by name, store by id) are `while` loops. The item and store scans are checked against the scan functions of `Tables`; the register and login scans are checked against the predicates `UsernameTaken` and `CredentialsMatch` of `Fixture`.
- `scenarios.dfy` (module `Scenarios`): chains of requests on an arbitrary valid store. For example:
  - reset and then register;
  - register the same username twice;
  - log in and then use the token;
  - pay twice.

`Valid()` (users, items and stores well formed) is established by the constructor and by `ResetData`, and is required and kept by every handler that scans or mutates the tables. `Owned()` says that profiles, balances and tokens belong to registered users. Every handler that touches those tables keeps it. Under `Owned()`, the "User not found" branch of `get_user_balance` cannot be reached (`GetUserBalance`).

`verify_auth_header` deletes every occurrence of `"Bearer "`, then every occurrence of `"JWT "`, anywhere in the header, not only a leading prefix: `TokenDeletesInside`, `TokenJoinsPasses`, `RemoveAllIsOnePass`.

## Model

| member | source | states |
|---|---|---|
| Json.Merge | mock_server/app.py:178 | `dict.update`: the keys of the result are the union of both key sets; a key of the update maps to its new value; every other stored key maps to its old value |
| Json.MergeIdempotent | mock_server/app.py:322 | sending the same update twice leaves the record as one update left it |
| Json.Decimal | mock_server/app.py:221 | `str(n)` of a store counter is a non-empty string of decimal digits |
| Json.DecimalRoundTrip | mock_server/app.py:221 | reading back the digits of `str(n)` gives n |
| Json.DecimalInjective | mock_server/app.py:221 | two counters with the same text are equal, so store ids never repeat |
| Auth.RemoveAll | mock_server/app.py:30 | `s.replace(pat, '')` never makes the string longer |
| Auth.Token | mock_server/app.py:30 | the token looked up is the header with every "Bearer " and then every "JWT " deleted, and is no longer than the header |
| Auth.RemoveAllIdentity | mock_server/app.py:30 | `replace` leaves the string unchanged exactly when the pattern does not occur in it (both directions) |
| Auth.RemoveAllSkips | mock_server/app.py:30 | a prefix in which no occurrence starts passes through `replace` untouched |
| Auth.TokenOfPlainHeader | mock_server/app.py:30-31 | for a token holding neither pattern, "Bearer t", "JWT t" and "t" all yield t |
| Auth.TokenDeletesInside | mock_server/app.py:30 | "Bearer " is deleted wherever it appears, not only as a prefix |
| Auth.TokenJoinsPasses | mock_server/app.py:30 | a deletion in the first pass can form a "JWT " that the second pass then deletes |
| Auth.RemoveAllIsOnePass | mock_server/app.py:30 | one pass does not rescan text that a deletion joined, so the pattern can remain |
| Tables.FirstItemNamed | mock_server/app.py:262-263 | the position of the first item in insertion order whose "name" equals the route name; none before it matches; the position is the length when no item matches |
| Tables.FirstStoreWithUuid | mock_server/app.py:277-278 | the position of the first store in insertion order with the given id; none before it has that id |
| Tables.LinkTarget | mock_server/app.py:276-280 | the store add_item links to is the first whose id equals `str(store_id)`; no earlier store's id matches; the length when none does |
| Tables.AppendToStore | mock_server/app.py:279 | the name is appended to that one store's items; every other store is unchanged; no store is added or removed; nothing changes when no store matched |
| Tables.Values | mock_server/app.py:363 | `list(items.values())`: the records in the order the ids are listed |
| Tables.EmptyValid | mock_server/app.py:8-18 | the empty tables with every counter at 1 satisfy the invariants |
| Tables.UsersValidAdd | mock_server/app.py:59-65 | registering a username not yet taken, under the next id, keeps the accounts valid |
| Tables.ItemsValidAdd | mock_server/app.py:266-273 | adding a record with name and price under the next id keeps the items valid |
| Tables.ItemsValidMerge | mock_server/app.py:322 | merging an update into an item keeps the items valid (its name and price keys stay) |
| Tables.StoresValidAdd | mock_server/app.py:221-227 | creating a store with a fresh name under id `str(store_counter)` keeps the stores valid |
| Tables.StoreOrderDistinct | mock_server/app.py:218-222 | no store name appears twice in insertion order |
| Tables.StoresValidAppend | mock_server/app.py:279 | appending an item name to a store keeps the stores valid |
| Fixture.ProfileView | mock_server/app.py:149-158 | the reply is 200 exactly when the address is absent or is a dict; it carries phone, email and the user id, and the street and city read from the nested address (none when it is absent); otherwise it is the 500 a failing `.get` causes |
| Fixture.FixtureStore.constructor | mock_server/app.py:8-18 | start-up state: every table empty, every counter 1, valid |
| Fixture.FixtureStore.Authenticate | mock_server/app.py:21-37 | no header gives 401 "Authorization Required"; a stripped token not in the table gives 401 "Invalid credentials"; otherwise the token's user id; reads state only |
| Fixture.FixtureStore.ItemsInOrder | mock_server/app.py:363 | exactly the item records, the i-th one being item id i+1 |
| Fixture.FixtureStore.FindItemNamed | mock_server/app.py:262-263 | the loop finds the first item with the name in insertion order (FirstItemNamed) |
| Fixture.FixtureStore.FindStoreWithUuid | mock_server/app.py:277-278 | the loop finds the first store with the id in insertion order (FirstStoreWithUuid) |
| Fixture.FixtureStore.Register | mock_server/app.py:48-70 | a missing or empty field gives 400; an existing username gives 400 with that user's id and no change; otherwise the new id is the old counter, the counter grows by 1, only `users` gains the entry |
| Fixture.FixtureStore.Login | mock_server/app.py:80-107 | bad body gives 401; no account with both username and password gives 401 and no change; otherwise the token maps to a user with those credentials, the only account with that username, and only the token table changes |
| Fixture.FixtureStore.AddUserInfo | mock_server/app.py:115-130 | gate, then unknown user gives 404, then an existing profile gives 400, with no change on failure; otherwise the body is stored as the profile and nothing else changes |
| Fixture.FixtureStore.GetUserInfo | mock_server/app.py:135-158 | gate; an unregistered 1000 gives "User info not found" before the user check; another unregistered id gives "User not found"; no profile gives "User info not found"; otherwise the projection |
| Fixture.FixtureStore.UpdateUserInfo | mock_server/app.py:163-180 | the same check order as the read (with "User info not found."), no change on failure; on success the profile is shallow-merged and nothing else changes |
| Fixture.FixtureStore.DeleteUserInfo | mock_server/app.py:185-201 | the same check order, no change on failure; on success only that profile entry is removed |
| Fixture.FixtureStore.AddStore | mock_server/app.py:210-233 | gate, empty name, existing name (400, no change); otherwise a store with id `str(store_counter)` and no items, appended in order, counter grows by 1 |
| Fixture.FixtureStore.GetStore | mock_server/app.py:238-246 | gate; unknown name gives 404; otherwise the stored record |
| Fixture.FixtureStore.LinkPosition | mock_server/app.py:276-278 | the scan finds the position LinkTarget names |
| Fixture.FixtureStore.AddItem | mock_server/app.py:255-286 | gate; a name any item has gives 400 and no change; otherwise the record goes in under the old item counter, the counter grows by 1, and the name is appended to the first store whose id is `str(store_id)` and to no other (created even when none matches) |
| Fixture.FixtureStore.CreateItem | mock_server/app.py:266-286 | creating the record under the next id and linking its name to the matching store |
| Fixture.FixtureStore.InsertItem | mock_server/app.py:266-273 | the record is stored under the old counter, which grows by 1, appended in order |
| Fixture.FixtureStore.LinkToStore | mock_server/app.py:276-280 | the stores after the link loop are AppendToStore at the LinkTarget position |
| Fixture.FixtureStore.GetItemByName | mock_server/app.py:291-300 | gate; the first item in insertion order with the name, else 404; 200 exactly when some item has the name |
| Fixture.FixtureStore.UpdateItemByName | mock_server/app.py:305-324 | gate; no item with the name gives 404 and no change; otherwise only the first such item is shallow-merged and the merged record returned |
| Fixture.FixtureStore.GetItemById | mock_server/app.py:329-336 | gate; an unknown id gives 404; otherwise the record |
| Fixture.FixtureStore.UpdateItemById | mock_server/app.py:341-351 | gate; an unknown id gives 404 and no change; otherwise only that item is shallow-merged and returned |
| Fixture.FixtureStore.GetAllItems | mock_server/app.py:359-364 | gate; otherwise every item record in insertion order |
| Fixture.FixtureStore.AddUserBalance | mock_server/app.py:372-388 | gate; unknown user gives 404 and no change; otherwise the balance becomes the given amount (0 when none is given), replacing any earlier one, and nothing else changes |
| Fixture.FixtureStore.GetUserBalance | mock_server/app.py:393-407 | gate; no balance record gives "Balance not found" whether or not the user exists; then the user check; otherwise the balance; under Owned the user check never fails |
| Fixture.FixtureStore.PayForItem | mock_server/app.py:415-452 | the check order is gate, then user, then item, then balance record, then funds; every failure changes nothing; success lowers only the payer's balance, by exactly the price |
| Fixture.FixtureStore.HealthCheck | mock_server/app.py:501-507 | the counts of users, stores and items; changes nothing |
| Fixture.FixtureStore.ResetData | mock_server/app.py:517-532 | every table is empty and every counter is 1 afterwards |
| Fixture.FixtureStore.ClearUsers | mock_server/app.py:517-525 | the users, profiles, balances and tokens are empty and the user counter is 1 |
| Fixture.FixtureStore.ClearStores | mock_server/app.py:519-526 | the stores are empty and the store counter is 1 |
| Fixture.FixtureStore.ClearItems | mock_server/app.py:520-527 | the items are empty and the item counter is 1 |
| Fixture.StoreIdsDistinct | mock_server/app.py:221-227 | no two stores share an id |
| Fixture.StoreIdNamesKthStore | mock_server/app.py:277-278 | `str(k)` finds the k-th store created and no other |
| Scenarios.ResetThenHealth | mock_server/app.py:501-527 | after a reset, health reports 0 users, stores and items |
| Scenarios.ResetThenRegister | mock_server/app.py:59-65 | after a reset, the next registration gets id 1 |
| Scenarios.ResetRevokesTokens | mock_server/app.py:517-522 | after a reset, every header is refused |
| Scenarios.RegisterTwice | mock_server/app.py:55-65 | a second registration of a name fails and echoes the id the first created |
| Scenarios.LoginThenAuthenticate | mock_server/app.py:30-37 | the issued token, bare or after "Bearer " or "JWT ", opens the gate for the user who logged in |
| Scenarios.AddStoreTwice | mock_server/app.py:218-227 | a second store with the same name is refused and the first is kept |
| Scenarios.AddItemTwice | mock_server/app.py:262-273 | a second item with the same name is refused and creates nothing |
| Scenarios.AddItemToKthStore | mock_server/app.py:276-280 | an item with store_id k lands in the k-th store created and no other |
| Scenarios.AddItemWithoutStore | mock_server/app.py:266-280 | with no matching store, the item is created and no store changes |
| Scenarios.AddThenGetProfile | mock_server/app.py:149-158 | the profile just stored is what the next read projects |
| Scenarios.DeleteThenGetProfile | mock_server/app.py:190-201 | after the delete, the read reports "User info not found" |
| Scenarios.UpdateThenGetItem | mock_server/app.py:345-351 | the read after an update has every updated key and keeps the others |
| Scenarios.SetBalanceTwice | mock_server/app.py:381-383 | a second set overwrites the first rather than adding to it |
| Scenarios.SetEmptyBalance | mock_server/app.py:381 | a set without an amount gives a balance of 0 |
| Scenarios.PayTwice | mock_server/app.py:439-445 | repeating a payment debits the price again |

## Left out

- HTTP and JSON plumbing (`request.json`, `jsonify`, routing, `app.run`). Request bodies are parameters of type `Object`, and headers are `Option<string>`. In add_item, add_user_balance and pay_for_item a body that is not a JSON object (`None`, a list) would make `.get` raise; the model admits only objects.
- AddUserInfo, UpdateUserInfo, UpdateItemByName, UpdateItemById: the request body is typed `Object`. In the source, `add_user_info` stores `request.json` as it is, so a null or list body is accepted with 200 and only a later read (`.get`) or update (`.update`) of that profile raises. The three update handlers call `dict.update` on the body, which raises for null and for most lists. None of these non-object bodies is modelled.
- Register and Login take the two fields as `Option<string>`, with Python truthiness as `Filled`. A non-string username or password is left out. The 400/401 reply for a missing body is the same as for a missing field, so it needs no separate case.
- `uuid.uuid4()` in login is randomness. The fresh token is a parameter of `Login`. Its uniqueness is not needed, because an existing entry is simply overwritten.
- `float(...)` and its formatting are left out. Amounts are `real` and prices are JSON values read through `AsNumber`. A float's `str()` text is left out too (`PyStr` returns None for it), because it can never equal a store id made of digits.
- AddUserBalance: requires a given `balance` to be a JSON number or bool. A string amount would be stored and then make `float()` raise or succeed; that case is not modelled.
- `home()` is left out: it returns a fixed discovery document and has no logic.
- There is no concurrency. Flask's threaded serving and the lack of locks are out of scope, and the handlers are modelled as atomic steps.
- Routing between `/item/<int:item_id>` and `/item/<item_name>` is left out. A numeric path goes to the id handlers; both handler families are modelled as they are written.
- GetItemById and UpdateItemById take the path id as `int`, as the `int:` converter supplies it.
- `run_stable_tests.py` and `find_endpoints.py` are left out: they are HTTP, subprocess and filesystem scripting around the server.
