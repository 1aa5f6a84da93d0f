/**
 * The `Mutation` resolvers of packages/server/src/resolvers/resolvers.js over
 * the four tables. The object-relational mapper's `create`, `update`,
 * `findByPk` and `destroy` become edits of sequences held by a `Database`
 * object; each table's auto-increment counter is a field.
 */
module Mutations {
  import opened Wrappers
  import opened Records
  import Search
  import Text

  // ---- Inputs (the GraphQL input types) -----------------------------------------

  datatype AccountInput = AccountInput(
    name: string, phone: string, addressLine1: string, addressLine2: Option<string>,
    country: string, state: string, city: string, zip: string)

  datatype ProductInput = ProductInput(productName: string, manufacturer: string, model: string)

  datatype DataEntryInput = DataEntryInput(
    lifeCycleState: LifeCycleState, serialNumber: string, modified: int,
    productId: int, donorAccountId: int, recipientAccountId: int)

  datatype UserInput = UserInput(email: string, password: string, isAdministrator: Option<bool>)

  /** The `Update*Input` types: every field optional; a supplied field overwrites the column. */
  datatype AccountPatch = AccountPatch(
    name: Option<string>, phone: Option<string>, addressLine1: Option<string>, addressLine2: Option<string>,
    country: Option<string>, state: Option<string>, city: Option<string>, zip: Option<string>)

  datatype ProductPatch = ProductPatch(productName: Option<string>, manufacturer: Option<string>, model: Option<string>)

  datatype DataEntryPatch = DataEntryPatch(
    lifeCycleState: Option<LifeCycleState>, serialNumber: Option<string>, modified: Option<int>,
    productId: Option<int>, donorAccountId: Option<int>, recipientAccountId: Option<int>)

  datatype UserPatch = UserPatch(email: Option<string>, password: Option<string>, isAdministrator: Option<bool>)

  // ---- Responses ----------------------------------------------------------------

  /** `BaseResponse`: the resolvers only ever return `success: true`. */
  datatype Response = Response(success: bool)

  /** `CreateProductResponse` / `CreateAccountResponse`: success and the new key. */
  datatype CreateResponse = CreateResponse(success: bool, id: int)

  /** What a resolver throws. */
  datatype Thrown =
    | Error(message: string)
      /** Evaluating a template literal that names an undeclared variable. */
    | ReferenceError(name: string)

  function NotFound(column: string, id: int): string
  {
    "Record with " + column + " " + Text.IntToString(id) + " was not found."
  }

  // ---- Record construction and patching -------------------------------------------

  function Supplied<T>(field: Option<T>, current: T): T
  {
    if field.Some? then field.value else current
  }

  function AccountOf(id: int, input: AccountInput): Account
  {
    Account(id, input.name, input.phone, input.addressLine1, input.addressLine2,
            input.country, input.state, input.city, input.zip)
  }

  function ProductOf(id: int, input: ProductInput): Product
  {
    Product(id, input.productName, input.manufacturer, input.model)
  }

  /** The enum arrives by name and is stored as the string the resolver map gives it. */
  function DataEntryOf(id: int, input: DataEntryInput): DataEntry
  {
    DataEntry(id, StoredValue(input.lifeCycleState), input.serialNumber, input.modified,
              input.productId, input.donorAccountId, input.recipientAccountId)
  }

  /** `isAdministrator` falls back to the column default, false. */
  function UserOf(id: int, input: UserInput): User
  {
    User(id, input.email, input.password, Supplied(input.isAdministrator, false))
  }

  /** `update` with an `UpdateAccountInput`: a supplied field overwrites its column, an omitted one keeps it. */
  function PatchAccount(a: Account, p: AccountPatch): (r: Account)
    ensures r.accountId == a.accountId
    ensures p.name.Some? ==> r.name == p.name.value
    ensures p.name.None? ==> r.name == a.name
    ensures p.phone.Some? ==> r.phone == p.phone.value
    ensures p.phone.None? ==> r.phone == a.phone
    ensures p.addressLine1.Some? ==> r.addressLine1 == p.addressLine1.value
    ensures p.addressLine1.None? ==> r.addressLine1 == a.addressLine1
    ensures p.addressLine2.Some? ==> r.addressLine2 == p.addressLine2
    ensures p.addressLine2.None? ==> r.addressLine2 == a.addressLine2
    ensures p.country.Some? ==> r.country == p.country.value
    ensures p.country.None? ==> r.country == a.country
    ensures p.state.Some? ==> r.state == p.state.value
    ensures p.state.None? ==> r.state == a.state
    ensures p.city.Some? ==> r.city == p.city.value
    ensures p.city.None? ==> r.city == a.city
    ensures p.zip.Some? ==> r.zip == p.zip.value
    ensures p.zip.None? ==> r.zip == a.zip
  {
    Account(a.accountId, Supplied(p.name, a.name), Supplied(p.phone, a.phone),
            Supplied(p.addressLine1, a.addressLine1),
            if p.addressLine2.Some? then p.addressLine2 else a.addressLine2,
            Supplied(p.country, a.country), Supplied(p.state, a.state),
            Supplied(p.city, a.city), Supplied(p.zip, a.zip))
  }

  /** `update` with an `UpdateProductInput`: a supplied field overwrites its column, an omitted one keeps it. */
  function PatchProduct(x: Product, p: ProductPatch): (r: Product)
    ensures r.productId == x.productId
    ensures p.productName.Some? ==> r.productName == p.productName.value
    ensures p.productName.None? ==> r.productName == x.productName
    ensures p.manufacturer.Some? ==> r.manufacturer == p.manufacturer.value
    ensures p.manufacturer.None? ==> r.manufacturer == x.manufacturer
    ensures p.model.Some? ==> r.model == p.model.value
    ensures p.model.None? ==> r.model == x.model
  {
    Product(x.productId, Supplied(p.productName, x.productName),
            Supplied(p.manufacturer, x.manufacturer), Supplied(p.model, x.model))
  }

  /**
   * `update` with an `UpdateDataEntryInput`: a supplied field overwrites its
   * column (the enum stored as its mapped string), an omitted one keeps it.
   */
  function PatchDataEntry(e: DataEntry, p: DataEntryPatch): (r: DataEntry)
    ensures r.entryId == e.entryId
    ensures p.lifeCycleState.Some? ==> r.lifeCycleState == StoredValue(p.lifeCycleState.value)
    ensures p.lifeCycleState.None? ==> r.lifeCycleState == e.lifeCycleState
    ensures p.serialNumber.Some? ==> r.serialNumber == p.serialNumber.value
    ensures p.serialNumber.None? ==> r.serialNumber == e.serialNumber
    ensures p.modified.Some? ==> r.modified == p.modified.value
    ensures p.modified.None? ==> r.modified == e.modified
    ensures p.productId.Some? ==> r.productId == p.productId.value
    ensures p.productId.None? ==> r.productId == e.productId
    ensures p.donorAccountId.Some? ==> r.donorAccountId == p.donorAccountId.value
    ensures p.donorAccountId.None? ==> r.donorAccountId == e.donorAccountId
    ensures p.recipientAccountId.Some? ==> r.recipientAccountId == p.recipientAccountId.value
    ensures p.recipientAccountId.None? ==> r.recipientAccountId == e.recipientAccountId
  {
    DataEntry(e.entryId,
              if p.lifeCycleState.Some? then StoredValue(p.lifeCycleState.value) else e.lifeCycleState,
              Supplied(p.serialNumber, e.serialNumber), Supplied(p.modified, e.modified),
              Supplied(p.productId, e.productId), Supplied(p.donorAccountId, e.donorAccountId),
              Supplied(p.recipientAccountId, e.recipientAccountId))
  }

  /** `update` with an `UpdateUserInput`: a supplied field overwrites its column, an omitted one keeps it. */
  function PatchUser(u: User, p: UserPatch): (r: User)
    ensures r.userId == u.userId
    ensures p.email.Some? ==> r.email == p.email.value
    ensures p.email.None? ==> r.email == u.email
    ensures p.password.Some? ==> r.password == p.password.value
    ensures p.password.None? ==> r.password == u.password
    ensures p.isAdministrator.Some? ==> r.isAdministrator == p.isAdministrator.value
    ensures p.isAdministrator.None? ==> r.isAdministrator == u.isAdministrator
  {
    User(u.userId, Supplied(p.email, u.email), Supplied(p.password, u.password),
         Supplied(p.isAdministrator, u.isAdministrator))
  }

  /** Patching with no field supplied changes nothing; patching twice is patching once. */
  lemma PatchLaws(a: Account, pa: AccountPatch, x: Product, pp: ProductPatch,
                  e: DataEntry, pe: DataEntryPatch, u: User, pu: UserPatch)
    ensures PatchAccount(a, AccountPatch(None, None, None, None, None, None, None, None)) == a
    ensures PatchProduct(x, ProductPatch(None, None, None)) == x
    ensures PatchDataEntry(e, DataEntryPatch(None, None, None, None, None, None)) == e
    ensures PatchUser(u, UserPatch(None, None, None)) == u
    ensures PatchAccount(PatchAccount(a, pa), pa) == PatchAccount(a, pa)
    ensures PatchProduct(PatchProduct(x, pp), pp) == PatchProduct(x, pp)
    ensures PatchDataEntry(PatchDataEntry(e, pe), pe) == PatchDataEntry(e, pe)
    ensures PatchUser(PatchUser(u, pu), pu) == PatchUser(u, pu)
  {
  }

  function AccountPatcher(p: AccountPatch): Account -> Account { (a: Account) => PatchAccount(a, p) }
  function ProductPatcher(p: ProductPatch): Product -> Product { (x: Product) => PatchProduct(x, p) }
  function DataEntryPatcher(p: DataEntryPatch): DataEntry -> DataEntry { (e: DataEntry) => PatchDataEntry(e, p) }
  function UserPatcher(p: UserPatch): User -> User { (u: User) => PatchUser(u, p) }

  // ---- Table edits ------------------------------------------------------------------

  /** Keys strictly increase along the table: rows sit in the order the counter issued them. */
  ghost predicate Increasing<T(!new)>(table: seq<T>, key: T -> int)
  {
    forall i, j :: 0 <= i < j < |table| ==> key(table[i]) < key(table[j])
  }

  /** Every key is at least 1 and below the next value of the counter. */
  ghost predicate KeysBelow<T(!new)>(table: seq<T>, key: T -> int, next: int)
  {
    forall x :: x in table ==> 1 <= key(x) < next
  }

  ghost predicate TableValid<T(!new)>(table: seq<T>, key: T -> int, next: int)
  {
    Increasing(table, key) && KeysBelow(table, key, next)
  }

  /** Increasing keys are unique keys, the property the grid query's lookups rely on. */
  lemma IncreasingKeysAreUnique<T(!new)>(table: seq<T>, key: T -> int)
    requires Increasing(table, key)
    ensures Search.UniqueKeys(table, key)
  {
  }

  /** `Model.update(input, { where: { key: id } })`: patch every row whose key is `id`. */
  function UpdateWhere<T(!new)>(table: seq<T>, key: T -> int, id: int, patch: T -> T): (r: seq<T>)
    ensures |r| == |table|
    ensures forall i :: 0 <= i < |table| ==> r[i] == if key(table[i]) == id then patch(table[i]) else table[i]
  {
    if table == [] then []
    else [if key(table[0]) == id then patch(table[0]) else table[0]] + UpdateWhere(table[1..], key, id, patch)
  }

  /** An update whose patch keeps the key keeps the table valid. */
  lemma UpdateWhereKeepsValid<T(!new)>(table: seq<T>, key: T -> int, id: int, patch: T -> T, next: int)
    requires TableValid(table, key, next)
    requires forall x :: key(patch(x)) == key(x)
    ensures TableValid(UpdateWhere(table, key, id, patch), key, next)
  {
    var r := UpdateWhere(table, key, id, patch);
    assert forall i :: 0 <= i < |r| ==> key(r[i]) == key(table[i]);
    forall x | x in r ensures 1 <= key(x) < next {
      var i :| 0 <= i < |r| && r[i] == x;
      assert table[i] in table;
    }
  }

  /** `record.destroy()`: drop the rows whose key is `id`. */
  function RemoveKey<T(!new)>(table: seq<T>, key: T -> int, id: int): (r: seq<T>)
    ensures |r| <= |table|
    ensures forall x :: x in r <==> x in table && key(x) != id
  {
    if table == [] then []
    else if key(table[0]) == id then RemoveKey(table[1..], key, id)
    else [table[0]] + RemoveKey(table[1..], key, id)
  }

  /** Removal works row by row, so it distributes over concatenation. */
  lemma {:induction false} RemoveKeyConcat<T(!new)>(a: seq<T>, b: seq<T>, key: T -> int, id: int)
    ensures RemoveKey(a + b, key, id) == RemoveKey(a, key, id) + RemoveKey(b, key, id)
  {
    if a == [] {
      assert a + b == b;
    } else {
      assert (a + b)[1..] == a[1..] + b;
      RemoveKeyConcat(a[1..], b, key, id);
    }
  }

  /** Removing row `i`'s key removes it and acts separately on the rows before and after it. */
  lemma RemoveKeySplit<T(!new)>(table: seq<T>, key: T -> int, i: nat)
    requires i < |table|
    ensures var k := key(table[i]);
      RemoveKey(table, key, k) == RemoveKey(table[..i], key, k) + RemoveKey(table[i + 1..], key, k)
  {
    var k := key(table[i]);
    var rest := table[i..];
    assert table == table[..i] + rest;
    RemoveKeyConcat(table[..i], rest, key, k);
    assert rest[0] == table[i] && rest[1..] == table[i + 1..];
  }

  /** With increasing keys, no other row carries row `i`'s key. */
  lemma KeysAroundDiffer<T(!new)>(table: seq<T>, key: T -> int, i: nat)
    requires i < |table| && Increasing(table, key)
    ensures forall x :: x in table[..i] ==> key(x) != key(table[i])
    ensures forall x :: x in table[i + 1..] ==> key(x) != key(table[i])
  {
    forall x | x in table[..i] ensures key(x) != key(table[i]) {
      var j :| 0 <= j < i && table[..i][j] == x;
      assert table[j] == x;
    }
    forall x | x in table[i + 1..] ensures key(x) != key(table[i]) {
      var j :| 0 <= j < |table| - i - 1 && table[i + 1..][j] == x;
      assert table[i + 1 + j] == x;
    }
  }

  /** With increasing keys, removing a present key removes exactly that one row. */
  lemma RemoveKeyAt<T(!new)>(table: seq<T>, key: T -> int, i: nat)
    requires i < |table| && Increasing(table, key)
    ensures RemoveKey(table, key, key(table[i])) == table[..i] + table[i + 1..]
  {
    RemoveKeySplit(table, key, i);
    KeysAroundDiffer(table, key, i);
    RemoveAbsentKey(table[..i], key, key(table[i]));
    RemoveAbsentKey(table[i + 1..], key, key(table[i]));
  }

  /** Removing a key no row carries changes nothing. */
  lemma {:induction false} RemoveAbsentKey<T(!new)>(table: seq<T>, key: T -> int, id: int)
    requires forall x :: x in table ==> key(x) != id
    ensures RemoveKey(table, key, id) == table
  {
    if table != [] {
      RemoveAbsentKey(table[1..], key, id);
    }
  }

  lemma IncreasingTail<T(!new)>(table: seq<T>, key: T -> int)
    requires table != [] && Increasing(table, key)
    ensures Increasing(table[1..], key)
    ensures forall x :: x in table[1..] ==> key(table[0]) < key(x)
  {
    forall x | x in table[1..] ensures key(table[0]) < key(x) {
      var j :| 0 <= j < |table[1..]| && table[1..][j] == x;
      assert table[j + 1] == x;
    }
  }

  /** A row whose key is below every key of an increasing table can be put in front of it. */
  lemma ConsIncreasing<T(!new)>(x: T, rest: seq<T>, key: T -> int)
    requires Increasing(rest, key)
    requires forall y :: y in rest ==> key(x) < key(y)
    ensures Increasing([x] + rest, key)
  {
    var r := [x] + rest;
    forall i, j | 0 <= i < j < |r| ensures key(r[i]) < key(r[j]) {
      assert r[j] == rest[j - 1];
      if i == 0 {
        assert rest[j - 1] in rest;
      } else {
        assert r[i] == rest[i - 1];
      }
    }
  }

  /** Removing rows keeps the remaining keys increasing. */
  lemma {:induction false} RemoveKeyKeepsIncreasing<T(!new)>(table: seq<T>, key: T -> int, id: int)
    requires Increasing(table, key)
    ensures Increasing(RemoveKey(table, key, id), key)
  {
    if table != [] {
      IncreasingTail(table, key);
      RemoveKeyKeepsIncreasing(table[1..], key, id);
      if key(table[0]) != id {
        var rest := RemoveKey(table[1..], key, id);
        assert forall y :: y in rest ==> key(table[0]) < key(y);
        ConsIncreasing(table[0], rest, key);
      }
    }
  }

  /** Removing rows keeps the rest valid. */
  lemma RemoveKeyKeepsValid<T(!new)>(table: seq<T>, key: T -> int, id: int, next: int)
    requires TableValid(table, key, next)
    ensures TableValid(RemoveKey(table, key, id), key, next)
  {
    RemoveKeyKeepsIncreasing(table, key, id);
  }

  /** Appending a row keyed by the counter keeps the table valid under the bumped counter. */
  lemma AppendKeepsValid<T(!new)>(table: seq<T>, key: T -> int, next: int, x: T)
    requires TableValid(table, key, next) && key(x) == next && next >= 1
    ensures TableValid(table + [x], key, next + 1)
  {
    var r := table + [x];
    forall i, j | 0 <= i < j < |r| ensures key(r[i]) < key(r[j]) {
      if j == |table| {
        assert r[i] == table[i] && table[i] in table;
      }
    }
  }

  // ---- The store ----------------------------------------------------------------------

  class Database {
    var accounts: seq<Account>
    var products: seq<Product>
    var dataEntries: seq<DataEntry>
    var users: seq<User>
    var nextAccountId: int
    var nextProductId: int
    var nextEntryId: int
    var nextUserId: int

    ghost predicate Valid()
      reads this
    {
      && TableValid(accounts, AccountKey, nextAccountId)
      && TableValid(products, ProductKey, nextProductId)
      && TableValid(dataEntries, EntryKey, nextEntryId)
      && TableValid(users, UserKey, nextUserId)
      && nextAccountId >= 1 && nextProductId >= 1 && nextEntryId >= 1 && nextUserId >= 1
    }

    /** A fresh database file, as `sequelize.sync()` creates it: four empty tables, every counter at 1. */
    constructor ()
      ensures Valid()
      ensures accounts == [] && products == [] && dataEntries == [] && users == []
      ensures nextAccountId == 1 && nextProductId == 1 && nextEntryId == 1 && nextUserId == 1
    {
      accounts, products, dataEntries, users := [], [], [], [];
      nextAccountId, nextProductId, nextEntryId, nextUserId := 1, 1, 1, 1;
    }

    // -- DataEntry

    /** `createDataEntry`: append one row under the next key; report success without the key. */
    method CreateDataEntry(input: DataEntryInput) returns (response: Response)
      requires Valid()
      modifies this`dataEntries, this`nextEntryId
      ensures Valid()
      ensures dataEntries == old(dataEntries) + [DataEntryOf(old(nextEntryId), input)]
      ensures nextEntryId == old(nextEntryId) + 1
      ensures response.success
    {
      AppendKeepsValid(dataEntries, EntryKey, nextEntryId, DataEntryOf(nextEntryId, input));
      dataEntries := dataEntries + [DataEntryOf(nextEntryId, input)];
      nextEntryId := nextEntryId + 1;
      response := Response(true);
    }

    /** `updateDataEntry`: patch the row with that key, if any; success either way. */
    method UpdateDataEntry(entryId: int, patch: DataEntryPatch) returns (response: Response)
      requires Valid()
      modifies this`dataEntries
      ensures Valid()
      ensures dataEntries == UpdateWhere(old(dataEntries), EntryKey, entryId, DataEntryPatcher(patch))
      ensures response.success
    {
      UpdateWhereKeepsValid(dataEntries, EntryKey, entryId, DataEntryPatcher(patch), nextEntryId);
      dataEntries := UpdateWhere(dataEntries, EntryKey, entryId, DataEntryPatcher(patch));
      response := Response(true);
    }

    /** `deleteDataEntry`: throw when the key is absent, otherwise remove that row. */
    method DeleteDataEntry(entryId: int) returns (outcome: Result<Response, Thrown>)
      requires Valid()
      modifies this`dataEntries
      ensures Valid()
      ensures Search.FindByKey(old(dataEntries), EntryKey, entryId).None? ==>
        outcome == Failure(Error(NotFound("entryId", entryId))) && dataEntries == old(dataEntries)
      ensures Search.FindByKey(old(dataEntries), EntryKey, entryId).Some? ==>
        outcome == Success(Response(true)) && dataEntries == RemoveKey(old(dataEntries), EntryKey, entryId)
    {
      var record := Search.FindByKey(dataEntries, EntryKey, entryId);
      if record.None? {
        return Failure(Error(NotFound("entryId", entryId)));
      }
      RemoveKeyKeepsValid(dataEntries, EntryKey, entryId, nextEntryId);
      dataEntries := RemoveKey(dataEntries, EntryKey, entryId);
      outcome := Success(Response(true));
    }

    // -- Product

    /** `createProduct`: append one row under the next key; report success and that key. */
    method CreateProduct(input: ProductInput) returns (response: CreateResponse)
      requires Valid()
      modifies this`products, this`nextProductId
      ensures Valid()
      ensures products == old(products) + [ProductOf(old(nextProductId), input)]
      ensures nextProductId == old(nextProductId) + 1
      ensures response == CreateResponse(true, old(nextProductId))
    {
      AppendKeepsValid(products, ProductKey, nextProductId, ProductOf(nextProductId, input));
      products := products + [ProductOf(nextProductId, input)];
      response := CreateResponse(true, nextProductId);
      nextProductId := nextProductId + 1;
    }

    /** `updateProduct`. */
    method UpdateProduct(productId: int, patch: ProductPatch) returns (response: Response)
      requires Valid()
      modifies this`products
      ensures Valid()
      ensures products == UpdateWhere(old(products), ProductKey, productId, ProductPatcher(patch))
      ensures response.success
    {
      UpdateWhereKeepsValid(products, ProductKey, productId, ProductPatcher(patch), nextProductId);
      products := UpdateWhere(products, ProductKey, productId, ProductPatcher(patch));
      response := Response(true);
    }

    /** `deleteProduct`. */
    method DeleteProduct(productId: int) returns (outcome: Result<Response, Thrown>)
      requires Valid()
      modifies this`products
      ensures Valid()
      ensures Search.FindByKey(old(products), ProductKey, productId).None? ==>
        outcome == Failure(Error(NotFound("productId", productId))) && products == old(products)
      ensures Search.FindByKey(old(products), ProductKey, productId).Some? ==>
        outcome == Success(Response(true)) && products == RemoveKey(old(products), ProductKey, productId)
    {
      var record := Search.FindByKey(products, ProductKey, productId);
      if record.None? {
        return Failure(Error(NotFound("productId", productId)));
      }
      RemoveKeyKeepsValid(products, ProductKey, productId, nextProductId);
      products := RemoveKey(products, ProductKey, productId);
      outcome := Success(Response(true));
    }

    // -- Account

    /** `createAccount`: append one row under the next key; report success and that key. */
    method CreateAccount(input: AccountInput) returns (response: CreateResponse)
      requires Valid()
      modifies this`accounts, this`nextAccountId
      ensures Valid()
      ensures accounts == old(accounts) + [AccountOf(old(nextAccountId), input)]
      ensures nextAccountId == old(nextAccountId) + 1
      ensures response == CreateResponse(true, old(nextAccountId))
    {
      AppendKeepsValid(accounts, AccountKey, nextAccountId, AccountOf(nextAccountId, input));
      accounts := accounts + [AccountOf(nextAccountId, input)];
      response := CreateResponse(true, nextAccountId);
      nextAccountId := nextAccountId + 1;
    }

    /** `updateAccount`. */
    method UpdateAccount(accountId: int, patch: AccountPatch) returns (response: Response)
      requires Valid()
      modifies this`accounts
      ensures Valid()
      ensures accounts == UpdateWhere(old(accounts), AccountKey, accountId, AccountPatcher(patch))
      ensures response.success
    {
      UpdateWhereKeepsValid(accounts, AccountKey, accountId, AccountPatcher(patch), nextAccountId);
      accounts := UpdateWhere(accounts, AccountKey, accountId, AccountPatcher(patch));
      response := Response(true);
    }

    /** `deleteAccount`. */
    method DeleteAccount(accountId: int) returns (outcome: Result<Response, Thrown>)
      requires Valid()
      modifies this`accounts
      ensures Valid()
      ensures Search.FindByKey(old(accounts), AccountKey, accountId).None? ==>
        outcome == Failure(Error(NotFound("accountId", accountId))) && accounts == old(accounts)
      ensures Search.FindByKey(old(accounts), AccountKey, accountId).Some? ==>
        outcome == Success(Response(true)) && accounts == RemoveKey(old(accounts), AccountKey, accountId)
    {
      var record := Search.FindByKey(accounts, AccountKey, accountId);
      if record.None? {
        return Failure(Error(NotFound("accountId", accountId)));
      }
      RemoveKeyKeepsValid(accounts, AccountKey, accountId, nextAccountId);
      accounts := RemoveKey(accounts, AccountKey, accountId);
      outcome := Success(Response(true));
    }

    // -- User

    /** `createUser`: append one row under the next key; report success without the key. */
    method CreateUser(input: UserInput) returns (response: Response)
      requires Valid()
      modifies this`users, this`nextUserId
      ensures Valid()
      ensures users == old(users) + [UserOf(old(nextUserId), input)]
      ensures nextUserId == old(nextUserId) + 1
      ensures response.success
    {
      AppendKeepsValid(users, UserKey, nextUserId, UserOf(nextUserId, input));
      users := users + [UserOf(nextUserId, input)];
      nextUserId := nextUserId + 1;
      response := Response(true);
    }

    /** `updateUser`. */
    method UpdateUser(userId: int, patch: UserPatch) returns (response: Response)
      requires Valid()
      modifies this`users
      ensures Valid()
      ensures users == UpdateWhere(old(users), UserKey, userId, UserPatcher(patch))
      ensures response.success
    {
      UpdateWhereKeepsValid(users, UserKey, userId, UserPatcher(patch), nextUserId);
      users := UpdateWhere(users, UserKey, userId, UserPatcher(patch));
      response := Response(true);
    }

    /**
     * `deleteUser`: on an absent key the error message names `optionId`, which
     * is not declared, so evaluating it throws a ReferenceError instead.
     */
    method DeleteUser(userId: int) returns (outcome: Result<Response, Thrown>)
      requires Valid()
      modifies this`users
      ensures Valid()
      ensures Search.FindByKey(old(users), UserKey, userId).None? ==>
        outcome == Failure(ReferenceError("optionId")) && users == old(users)
      ensures Search.FindByKey(old(users), UserKey, userId).Some? ==>
        outcome == Success(Response(true)) && users == RemoveKey(old(users), UserKey, userId)
    {
      var record := Search.FindByKey(users, UserKey, userId);
      if record.None? {
        return Failure(ReferenceError("optionId"));
      }
      RemoveKeyKeepsValid(users, UserKey, userId, nextUserId);
      users := RemoveKey(users, UserKey, userId);
      outcome := Success(Response(true));
    }
  }
}
