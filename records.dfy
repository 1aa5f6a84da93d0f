/**
 * The four tables of the server's store (packages/server/src/model.js) and the
 * `LifeCycleState` enum of the GraphQL schema with its resolver map.
 */
module Records {
  import opened Wrappers

  /** A row of the Account table; `addressLine2` is the only nullable column. */
  datatype Account = Account(
    accountId: int,
    name: string,
    phone: string,
    addressLine1: string,
    addressLine2: Option<string>,
    country: string,
    state: string,
    city: string,
    zip: string)

  /** A row of the Product table. */
  datatype Product = Product(productId: int, productName: string, manufacturer: string, model: string)

  /**
   * A row of the DataEntry table. `lifeCycleState` is stored as a plain string;
   * `modified` is a DATE column, kept here as an opaque instant; the three
   * references are plain integers, -1 meaning "no record".
   */
  datatype DataEntry = DataEntry(
    entryId: int,
    lifeCycleState: string,
    serialNumber: string,
    modified: int,
    productId: int,
    donorAccountId: int,
    recipientAccountId: int)

  /** A row of the User table. */
  datatype User = User(userId: int, email: string, password: string, isAdministrator: bool)

  /** The GraphQL enum `LifeCycleState`. */
  datatype LifeCycleState = Distributed | EWaste | Pending | Problem | Received

  /** The resolver map: the string stored for each enum value. */
  function StoredValue(s: LifeCycleState): string
  {
    match s
    case Distributed => "Distributed"
    case EWaste => "E-Waste Scrapped"
    case Pending => "Pending"
    case Problem => "Problem"
    case Received => "Received"
  }

  /**
   * The reverse direction the server applies when it sends a stored string back
   * as the enum: the value whose stored string it is, if any.
   */
  function EnumOf(stored: string): (r: Option<LifeCycleState>)
    ensures r.Some? ==> StoredValue(r.value) == stored
    ensures r.None? ==> forall s: LifeCycleState :: StoredValue(s) != stored
  {
    if stored == "Distributed" then Some(Distributed)
    else if stored == "E-Waste Scrapped" then Some(EWaste)
    else if stored == "Pending" then Some(Pending)
    else if stored == "Problem" then Some(Problem)
    else if stored == "Received" then Some(Received)
    else None
  }

  /** The map is injective, so every stored string names one enum value and reads back as it. */
  lemma StoredValueRoundTrip(s: LifeCycleState)
    ensures EnumOf(StoredValue(s)) == Some(s)
    ensures forall t: LifeCycleState :: StoredValue(t) == StoredValue(s) ==> t == s
  {
  }

  // Key selectors, so that generic table operations can name a column.
  function AccountKey(a: Account): int { a.accountId }
  function ProductKey(p: Product): int { p.productId }
  function EntryKey(e: DataEntry): int { e.entryId }
  function UserKey(u: User): int { u.userId }

  function AccountName(a: Account): string { a.name }
  function ProductName(p: Product): string { p.productName }
  function ProductManufacturer(p: Product): string { p.manufacturer }
  function ProductModel(p: Product): string { p.model }
  function UserEmail(u: User): string { u.email }
}
