/**
 * The `Query` resolvers of packages/server/src/resolvers/resolvers.js that carry
 * logic: the prefix searches, the login lookup and the denormalising grid query.
 * Each takes the rows that `findAll()` returned, in table order.
 */
module Queries {
  import opened Wrappers
  import opened Records
  import Search
  import Async

  // ---- Accounts ---------------------------------------------------------------

  /** `findFirstAccountMatchName`: the first account whose name starts with `name`, ignoring case. */
  function FindFirstAccountMatchName(allAccounts: seq<Account>, fold: char -> char, name: string): (r: Option<Account>)
    ensures var m := Search.Matching(allAccounts, AccountName, fold, name);
      r == if m == [] then None else Some(m[0])
  {
    Search.FindFirstIsHeadOfMatching(allAccounts, AccountName, fold, name);
    Search.FindFirst(allAccounts, AccountName, fold, name)
  }

  /** `findAllAccountsMatchName`: every account whose name starts with `name`, ignoring case, in table order. */
  method FindAllAccountsMatchName(allAccounts: seq<Account>, fold: char -> char, name: string)
    returns (queriedAccounts: seq<Account>)
    ensures forall a :: a in queriedAccounts <==> a in allAccounts && Search.PrefixMatch(fold, a.name, name)
    ensures queriedAccounts == Search.Matching(allAccounts, AccountName, fold, name)
  {
    queriedAccounts := Search.FindAllMatching(allAccounts, AccountName, fold, name);
  }

  // ---- Products ---------------------------------------------------------------

  /** `findFirstProductMatchName`. */
  function FindFirstProductMatchName(allProducts: seq<Product>, fold: char -> char, productName: string): (r: Option<Product>)
    ensures var m := Search.Matching(allProducts, ProductName, fold, productName);
      r == if m == [] then None else Some(m[0])
  {
    Search.FindFirstIsHeadOfMatching(allProducts, ProductName, fold, productName);
    Search.FindFirst(allProducts, ProductName, fold, productName)
  }

  /** `findFirstProductMatchManufacturer`. */
  function FindFirstProductMatchManufacturer(allProducts: seq<Product>, fold: char -> char, manufacturer: string): (r: Option<Product>)
    ensures var m := Search.Matching(allProducts, ProductManufacturer, fold, manufacturer);
      r == if m == [] then None else Some(m[0])
  {
    Search.FindFirstIsHeadOfMatching(allProducts, ProductManufacturer, fold, manufacturer);
    Search.FindFirst(allProducts, ProductManufacturer, fold, manufacturer)
  }

  /** `findFirstProductMatchModel`. */
  function FindFirstProductMatchModel(allProducts: seq<Product>, fold: char -> char, model: string): (r: Option<Product>)
    ensures var m := Search.Matching(allProducts, ProductModel, fold, model);
      r == if m == [] then None else Some(m[0])
  {
    Search.FindFirstIsHeadOfMatching(allProducts, ProductModel, fold, model);
    Search.FindFirst(allProducts, ProductModel, fold, model)
  }

  /** `findAllProductsMatchName`. */
  method FindAllProductsMatchName(allProducts: seq<Product>, fold: char -> char, productName: string)
    returns (queriedProducts: seq<Product>)
    ensures forall p :: p in queriedProducts <==> p in allProducts && Search.PrefixMatch(fold, p.productName, productName)
    ensures queriedProducts == Search.Matching(allProducts, ProductName, fold, productName)
  {
    queriedProducts := Search.FindAllMatching(allProducts, ProductName, fold, productName);
  }

  /** `findAllProductsMatchManufacturer`. */
  method FindAllProductsMatchManufacturer(allProducts: seq<Product>, fold: char -> char, manufacturer: string)
    returns (queriedProducts: seq<Product>)
    ensures forall p :: p in queriedProducts <==> p in allProducts && Search.PrefixMatch(fold, p.manufacturer, manufacturer)
    ensures queriedProducts == Search.Matching(allProducts, ProductManufacturer, fold, manufacturer)
  {
    queriedProducts := Search.FindAllMatching(allProducts, ProductManufacturer, fold, manufacturer);
  }

  /**
   * `findAllProductsMatchModel`. The source does not await its `forEachAsync`;
   * the model gives the array as it stands once every callback has run.
   */
  method FindAllProductsMatchModel(allProducts: seq<Product>, fold: char -> char, model: string)
    returns (queriedProducts: seq<Product>)
    ensures forall p :: p in queriedProducts <==> p in allProducts && Search.PrefixMatch(fold, p.model, model)
    ensures queriedProducts == Search.Matching(allProducts, ProductModel, fold, model)
  {
    queriedProducts := Search.FindAllMatching(allProducts, ProductModel, fold, model);
  }

  // ---- Users ------------------------------------------------------------------

  /** `findFirstUserMatchEmail`. */
  function FindFirstUserMatchEmail(allUsers: seq<User>, fold: char -> char, email: string): (r: Option<User>)
    ensures var m := Search.Matching(allUsers, UserEmail, fold, email);
      r == if m == [] then None else Some(m[0])
  {
    Search.FindFirstIsHeadOfMatching(allUsers, UserEmail, fold, email);
    Search.FindFirst(allUsers, UserEmail, fold, email)
  }

  /** `findUserUsingLogin`: the first user whose email and password both equal the given ones, exactly. */
  function FindUserUsingLogin(users: seq<User>, email: string, password: string): (r: Option<User>)
    ensures r.Some? ==> r.value in users && r.value.email == email && r.value.password == password
    ensures r.None? <==> forall u :: u in users ==> !(u.email == email && u.password == password)
  {
    if users == [] then None
    else if users[0].email == email && users[0].password == password then Some(users[0])
    else FindUserUsingLogin(users[1..], email, password)
  }

  // ---- The grid query -----------------------------------------------------------

  /** The placeholder shown for a reference that holds the sentinel -1. */
  const NotAvailable := "{N/A}"

  /** One denormalised row of `findAllDataEntriesInGridFormat`. */
  datatype GridRow = GridRow(
    entryId: int,
    modified: int,
    serialNumber: string,
    lifeCycleState: string,
    model: string,
    productName: string,
    manufacturer: string,
    donorAccount: string,
    recipientAccount: string)

  /** The JavaScript error raised by calling `getDataValue` on the `null` a failed `findByPk` returns. */
  datatype QueryError = TypeError

  /** A reference the grid query can follow: the sentinel, or the key of an existing row. */
  predicate Resolves<T(!new)>(table: seq<T>, key: T -> int, id: int)
  {
    id == -1 || Search.FindByKey(table, key, id).Some?
  }

  /**
   * The row the `forEachAsync` callback pushes for `entry`, or `None` when a
   * lookup for a non-sentinel reference finds no record and the callback throws.
   */
  function GridRowOf(entry: DataEntry, products: seq<Product>, accounts: seq<Account>): (r: Option<GridRow>)
    ensures r.Some? <==>
      Resolves(products, ProductKey, entry.productId) &&
      Resolves(accounts, AccountKey, entry.donorAccountId) &&
      Resolves(accounts, AccountKey, entry.recipientAccountId)
  {
    var product := Search.FindByKey(products, ProductKey, entry.productId);
    var donor := Search.FindByKey(accounts, AccountKey, entry.donorAccountId);
    var recipient := Search.FindByKey(accounts, AccountKey, entry.recipientAccountId);
    if entry.productId != -1 && product.None? then None
    else if entry.donorAccountId != -1 && donor.None? then None
    else if entry.recipientAccountId != -1 && recipient.None? then None
    else
      Some(GridRow(
        entry.entryId, entry.modified, entry.serialNumber, entry.lifeCycleState,
        if entry.productId != -1 then product.value.model else NotAvailable,
        if entry.productId != -1 then product.value.productName else NotAvailable,
        if entry.productId != -1 then product.value.manufacturer else NotAvailable,
        if entry.donorAccountId != -1 then donor.value.name else NotAvailable,
        if entry.recipientAccountId != -1 then recipient.value.name else NotAvailable))
  }

  /** A grid row carries its entry's id, timestamp, serial number and stored life-cycle string unchanged. */
  lemma GridRowKeepsEntryFields(entry: DataEntry, products: seq<Product>, accounts: seq<Account>)
    requires GridRowOf(entry, products, accounts).Some?
    ensures var row := GridRowOf(entry, products, accounts).value;
      row.entryId == entry.entryId && row.modified == entry.modified &&
      row.serialNumber == entry.serialNumber && row.lifeCycleState == entry.lifeCycleState
  {
  }

  /**
   * A product reference of -1 shows the placeholder in all three product
   * columns; any other copies them from the product with that key.
   */
  lemma GridRowProductColumns(entry: DataEntry, products: seq<Product>, accounts: seq<Account>)
    requires GridRowOf(entry, products, accounts).Some?
    ensures var row := GridRowOf(entry, products, accounts).value;
      if entry.productId == -1 then
        row.model == NotAvailable && row.productName == NotAvailable && row.manufacturer == NotAvailable
      else
        var p := Search.FindByKey(products, ProductKey, entry.productId).value;
        p in products && p.productId == entry.productId &&
        row.model == p.model && row.productName == p.productName && row.manufacturer == p.manufacturer
  {
  }

  /**
   * An account reference of -1 shows the placeholder for that name only; any
   * other copies the name of the account with that key.
   */
  lemma GridRowAccountColumns(entry: DataEntry, products: seq<Product>, accounts: seq<Account>)
    requires GridRowOf(entry, products, accounts).Some?
    ensures var row := GridRowOf(entry, products, accounts).value;
      && (entry.donorAccountId == -1 ==> row.donorAccount == NotAvailable)
      && (entry.donorAccountId != -1 ==>
            var a := Search.FindByKey(accounts, AccountKey, entry.donorAccountId).value;
            a in accounts && a.accountId == entry.donorAccountId && row.donorAccount == a.name)
      && (entry.recipientAccountId == -1 ==> row.recipientAccount == NotAvailable)
      && (entry.recipientAccountId != -1 ==>
            var a := Search.FindByKey(accounts, AccountKey, entry.recipientAccountId).value;
            a in accounts && a.accountId == entry.recipientAccountId && row.recipientAccount == a.name)
  {
  }

  /**
   * The grid query shows a referenced account's name exactly, when account keys
   * are unique: the property that makes the join trustworthy.
   */
  lemma GridShowsReferencedNames(entry: DataEntry, products: seq<Product>, accounts: seq<Account>, d: nat, r: nat)
    requires Search.UniqueKeys(accounts, AccountKey)
    requires d < |accounts| && r < |accounts|
    requires entry.donorAccountId == accounts[d].accountId && entry.recipientAccountId == accounts[r].accountId
    requires entry.donorAccountId != -1 && entry.recipientAccountId != -1
    requires Resolves(products, ProductKey, entry.productId)
    ensures GridRowOf(entry, products, accounts).Some?
    ensures GridRowOf(entry, products, accounts).value.donorAccount == accounts[d].name
    ensures GridRowOf(entry, products, accounts).value.recipientAccount == accounts[r].name
  {
    Search.FindByKeyUnique(accounts, AccountKey, d);
    Search.FindByKeyUnique(accounts, AccountKey, r);
  }

  /** The `forEachAsync` callback of the grid query; a thrown error ends the loop. */
  function PushGridRow(products: seq<Product>, accounts: seq<Account>)
    : (Result<seq<GridRow>, QueryError>, DataEntry, nat) -> Result<seq<GridRow>, QueryError>
  {
    (queried: Result<seq<GridRow>, QueryError>, entry: DataEntry, index: nat) =>
      if queried.Failure? then queried
      else match GridRowOf(entry, products, accounts)
        case None => Failure(TypeError)
        case Some(row) => Success(queried.value + [row])
  }

  /** One application of the grid callback. */
  lemma PushGridRowStep(products: seq<Product>, accounts: seq<Account>,
                        prev: Result<seq<GridRow>, QueryError>, entry: DataEntry, index: nat)
    ensures PushGridRow(products, accounts)(prev, entry, index) ==
      if prev.Failure? then prev
      else if GridRowOf(entry, products, accounts).None? then Failure(TypeError)
      else Success(prev.value + [GridRowOf(entry, products, accounts).value])
  {
  }

  /** Every entry of `dataEntries` yields a row, and `rows` holds those rows in order. */
  ghost predicate RowsOf(dataEntries: seq<DataEntry>, products: seq<Product>, accounts: seq<Account>, rows: seq<GridRow>)
  {
    |rows| == |dataEntries| &&
    forall i :: 0 <= i < |dataEntries| ==> GridRowOf(dataEntries[i], products, accounts) == Some(rows[i])
  }

  /** Some entry of `dataEntries` references a missing record. */
  ghost predicate SomeDangling(dataEntries: seq<DataEntry>, products: seq<Product>, accounts: seq<Account>)
  {
    exists i :: 0 <= i < |dataEntries| && GridRowOf(dataEntries[i], products, accounts).None?
  }

  /** The rows of a prefix, extended by the next entry's row, are the rows of the longer list. */
  lemma RowsOfSnoc(dataEntries: seq<DataEntry>, products: seq<Product>, accounts: seq<Account>,
                   rows: seq<GridRow>, row: GridRow)
    requires dataEntries != []
    requires RowsOf(dataEntries[..|dataEntries| - 1], products, accounts, rows)
    requires GridRowOf(dataEntries[|dataEntries| - 1], products, accounts) == Some(row)
    ensures RowsOf(dataEntries, products, accounts, rows + [row])
  {
    var n := |dataEntries| - 1;
    forall i | 0 <= i < |dataEntries|
      ensures GridRowOf(dataEntries[i], products, accounts) == Some((rows + [row])[i])
    {
      if i < n {
        assert dataEntries[..n][i] == dataEntries[i];
        assert (rows + [row])[i] == rows[i];
      } else {
        assert (rows + [row])[i] == row;
      }
    }
  }

  /** A dangling entry in a prefix is a dangling entry of the longer list. */
  lemma SomeDanglingSnoc(dataEntries: seq<DataEntry>, products: seq<Product>, accounts: seq<Account>)
    requires dataEntries != []
    requires SomeDangling(dataEntries[..|dataEntries| - 1], products, accounts)
    ensures SomeDangling(dataEntries, products, accounts)
  {
    var n := |dataEntries| - 1;
    var i :| 0 <= i < n && GridRowOf(dataEntries[..n][i], products, accounts).None?;
    assert dataEntries[..n][i] == dataEntries[i];
  }

  /** Running the grid callback over some entries yields one row per entry, or the error. */
  lemma {:induction false} RunPushGridRow(dataEntries: seq<DataEntry>, products: seq<Product>, accounts: seq<Account>)
    ensures var r := Async.Run(PushGridRow(products, accounts), Success([]), dataEntries);
      && (r.Success? ==> RowsOf(dataEntries, products, accounts, r.value))
      && (r.Failure? ==> r.error == TypeError && SomeDangling(dataEntries, products, accounts))
    decreases |dataEntries|
  {
    if dataEntries != [] {
      var n := |dataEntries| - 1;
      var prev := Async.Run(PushGridRow(products, accounts), Success([]), dataEntries[..n]);
      RunPushGridRow(dataEntries[..n], products, accounts);
      PushGridRowStep(products, accounts, prev, dataEntries[n], n);
      var row := GridRowOf(dataEntries[n], products, accounts);
      if prev.Failure? {
        SomeDanglingSnoc(dataEntries, products, accounts);
      } else if row.Some? {
        RowsOfSnoc(dataEntries, products, accounts, prev.value, row.value);
      }
    }
  }

  /**
   * `findAllDataEntriesInGridFormat`: one row per data entry, in table order,
   * or the error thrown by the first entry that references a missing record.
   */
  method FindAllDataEntriesInGridFormat(dataEntries: seq<DataEntry>, products: seq<Product>, accounts: seq<Account>)
    returns (result: Result<seq<GridRow>, QueryError>)
    ensures result.Success? <==> forall i :: 0 <= i < |dataEntries| ==> GridRowOf(dataEntries[i], products, accounts).Some?
    ensures result.Success? ==> |result.value| == |dataEntries|
    ensures result.Success? ==>
      forall i :: 0 <= i < |dataEntries| ==> GridRowOf(dataEntries[i], products, accounts) == Some(result.value[i])
    ensures result.Failure? ==> result.error == TypeError
  {
    result := Success([]);
    if |dataEntries| > 0 {
      var visited;
      result, visited := Async.ForEachAsync(dataEntries, result, PushGridRow(products, accounts));
      RunPushGridRow(dataEntries, products, accounts);
    }
  }
}
