/**
 * What the two add-entry dialogs (packages/client/src/pages/home/AddEntryModal.tsx
 * and packages/client/src/pages/home/DeleteEntryModal.tsx) share: the form
 * records, the mutation responses in the shape the code reads them, the
 * `mapErrors` helper, the `||` id fallback and the mutation requests sent.
 */
module ClientForms {
  import opened Wrappers
  import Text

  /** The client's `Product`: `productId` is present only for a row picked from a search. */
  datatype ProductForm = ProductForm(productId: Option<int>, productName: string, manufacturer: string, model: string)

  /** The client's `Account`. */
  datatype AccountForm = AccountForm(
    accountId: Option<int>, name: string, phone: string, addressLine1: string,
    addressLine2: Option<string>, country: string, state: string, city: string, zip: string)

  /** `initProductState`. */
  const InitProduct := ProductForm(None, "", "", "")

  /** `initAccountState`: empty strings, except the default country and state. */
  const InitAccount := AccountForm(None, "", "", "", Some(""), "United States", "NY", "", "")

  /** `BaseResponseError`. */
  datatype ResponseError = ResponseError(message: string, path: string)

  /**
   * The `data` of a `createProduct` or `createAccount` call as the dialogs read
   * it: `success` and the new key at the top level, `errors` optional.
   */
  datatype CreateData = CreateData(success: string, id: Option<int>, errors: Option<seq<ResponseError>>)

  /** The `data` of a `createDataEntry` call: `BaseResponse`. */
  datatype BaseData = BaseData(success: string, errors: Option<seq<ResponseError>>)

  /** JavaScript truthiness of a `number | undefined` key: undefined and 0 are falsy. */
  predicate Truthy(id: Option<int>)
  {
    id.Some? && id.value != 0
  }

  /** `errors.map((value) => value.message)`. */
  function Messages(errors: seq<ResponseError>): (r: seq<string>)
    ensures |r| == |errors|
    ensures forall i :: 0 <= i < |errors| ==> r[i] == errors[i].message
  {
    if errors == [] then [] else [errors[0].message] + Messages(errors[1..])
  }

  /** `mapErrors`: the messages, in order, joined by CR LF. */
  function MapErrors(errors: seq<ResponseError>): string
  {
    Text.Join(Messages(errors), "\r\n")
  }

  /** One more error adds its message after a CR LF; a single error is its own message. */
  lemma MapErrorsAppend(errors: seq<ResponseError>, e: ResponseError)
    ensures MapErrors(errors + [e]) == if errors == [] then e.message else MapErrors(errors) + "\r\n" + e.message
  {
    assert Messages(errors + [e]) == Messages(errors) + [e.message];
    Text.JoinAppend(Messages(errors), e.message, "\r\n");
  }

  /** The length of the shown text: every message plus one CR LF between neighbours. */
  lemma MapErrorsLength(errors: seq<ResponseError>)
    requires errors != []
    ensures |MapErrors(errors)| == Text.TotalLength(Messages(errors)) + 2 * (|errors| - 1)
  {
    Text.JoinLength(Messages(errors), "\r\n");
  }

  /**
   * `createdId || existingId || -1`: the created key when truthy, else the
   * existing key when truthy, else the sentinel -1. Never 0.
   */
  function FallbackId(created: Option<int>, existing: Option<int>): (r: int)
    ensures r != 0
    ensures Truthy(created) ==> r == created.value
    ensures !Truthy(created) && Truthy(existing) ==> r == existing.value
    ensures !Truthy(created) && !Truthy(existing) ==> r == -1
  {
    if Truthy(created) then created.value
    else if Truthy(existing) then existing.value
    else -1
  }

  /** `data.success === 'true'` yields the key the response carries, if any. */
  function CreatedId(response: Option<CreateData>): (r: Option<int>)
    ensures r.Some? ==> response.Some? && response.value.success == "true"
    ensures response.Some? && response.value.success == "true" ==> r == response.value.id
  {
    if response.Some? && response.value.success == "true" then response.value.id else None
  }

  /** A response that is not a success but carries `errors`. */
  function Rejection(response: Option<CreateData>): (r: Option<seq<ResponseError>>)
    ensures r.Some? <==> response.Some? && response.value.success != "true" && response.value.errors.Some?
  {
    if response.Some? && response.value.success != "true" && response.value.errors.Some?
    then response.value.errors
    else None
  }

  /** A response can yield a key or a rejection, never both. */
  lemma CreatedOrRejected(response: Option<CreateData>)
    ensures !(CreatedId(response).Some? && Rejection(response).Some?)
  {
  }

  /** The variables of `createDataEntry`; `modified` is the clock reading. */
  datatype EntryRequest = EntryRequest(
    lifeCycleState: string, serialNumber: string, modified: int,
    productId: int, donorAccountId: int, recipientAccountId: int)

  /** A mutation a dialog sends. */
  datatype Call =
    | CreateProductCall(product: ProductForm)
    | CreateAccountCall(account: AccountForm)
    | CreateDataEntryCall(request: EntryRequest)

  /** Product calls come first, account calls next, the data-entry call last. */
  function Rank(call: Call): nat
  {
    match call
    case CreateProductCall(_) => 0
    case CreateAccountCall(_) => 1
    case CreateDataEntryCall(_) => 2
  }

  /** The responses the dialog's three create calls and its entry call receive. */
  datatype Responses = Responses(
    product: Option<CreateData>, donor: Option<CreateData>, recipient: Option<CreateData>,
    entry: Option<BaseData>)

  /** One create-or-reuse step: the calls it sends, the key it obtains, and why it stops the submission. */
  datatype Resolution = Resolution(calls: seq<Call>, created: Option<int>, abort: Option<string>)

  /** The mutations a submission sent, in order, and the error text it leaves behind. */
  datatype Submission = Submission(calls: seq<Call>, error: string)
}
