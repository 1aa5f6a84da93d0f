/**
 * `submitDataEntry` of packages/client/src/pages/home/AddEntryModal.tsx:
 * create the product, the donor and the recipient unless each already has a
 * key, then create the data entry that refers to them. Every Apollo response
 * is an input; only the branching on them is modelled.
 */
module AddEntry {
  import opened Wrappers
  import opened ClientForms

  // ---- Specification ------------------------------------------------------------------

  /** A product without a truthy key is created; a failed creation leaves no key but never stops the submission. */
  function ResolveProduct(product: ProductForm, response: Option<CreateData>): (r: Resolution)
    ensures r.abort.None?
    ensures r.calls == [] <==> Truthy(product.productId)
    ensures r.calls != [] ==> r.calls == [CreateProductCall(product)]
    ensures r.created.Some? ==> !Truthy(product.productId) && CreatedId(response) == r.created
  {
    if Truthy(product.productId) then Resolution([], None, None)
    else Resolution([CreateProductCall(product)], CreatedId(response), None)
  }

  /** An account without a truthy key is created; a response carrying `errors` stops the submission with their messages. */
  function ResolveAccount(account: AccountForm, response: Option<CreateData>): (r: Resolution)
    ensures r.calls == [] <==> Truthy(account.accountId)
    ensures r.calls != [] ==> r.calls == [CreateAccountCall(account)]
    ensures r.abort.Some? <==> !Truthy(account.accountId) && Rejection(response).Some?
    ensures r.abort.Some? ==> r.abort.value == MapErrors(Rejection(response).value)
    ensures r.created.Some? ==> !Truthy(account.accountId) && CreatedId(response) == r.created
  {
    if Truthy(account.accountId) then Resolution([], None, None)
    else
      var rejection := Rejection(response);
      Resolution([CreateAccountCall(account)], CreatedId(response),
                 if rejection.Some? then Some(MapErrors(rejection.value)) else None)
  }

  /** The error text once the data-entry call has answered. */
  function EntryOutcome(response: Option<BaseData>): string
  {
    if response.Some? && response.value.success == "true" then ""
    else if response.Some? && response.value.errors.Some? then MapErrors(response.value.errors.value)
    else "Unknown error occured"
  }

  /** The `createDataEntry` variables: each key is the created one, else the existing one, else -1. */
  function EntryRequestOf(
    product: ProductForm, donor: AccountForm, recipient: AccountForm,
    lcState: string, serialNum: string, now: int,
    p: Resolution, d: Resolution, c: Resolution): EntryRequest
  {
    EntryRequest(lcState, serialNum, now,
                 FallbackId(p.created, product.productId),
                 FallbackId(d.created, donor.accountId),
                 FallbackId(c.created, recipient.accountId))
  }

  /** The data-entry request a submission sent, if it got that far. */
  function EntryCall(s: Submission): (r: Option<EntryRequest>)
    ensures r.Some? ==> s.calls != [] && s.calls[|s.calls| - 1] == CreateDataEntryCall(r.value)
  {
    if s.calls != [] && s.calls[|s.calls| - 1].CreateDataEntryCall? then Some(s.calls[|s.calls| - 1].request) else None
  }

  /** A whole submission: the three create-or-reuse steps, then the data-entry call. */
  function Submit(
    product: ProductForm, donor: AccountForm, recipient: AccountForm,
    lcState: string, serialNum: string, now: int, responses: Responses): Submission
  {
    var p := ResolveProduct(product, responses.product);
    var d := ResolveAccount(donor, responses.donor);
    if d.abort.Some? then Submission(p.calls + d.calls, d.abort.value)
    else
      var c := ResolveAccount(recipient, responses.recipient);
      if c.abort.Some? then Submission(p.calls + d.calls + c.calls, c.abort.value)
      else
        var request := EntryRequestOf(product, donor, recipient, lcState, serialNum, now, p, d, c);
        Submission(p.calls + d.calls + c.calls + [CreateDataEntryCall(request)], EntryOutcome(responses.entry))
  }

  // ---- Properties -------------------------------------------------------------------------

  /**
   * The calls go out product first, then accounts, and the data-entry call,
   * when sent, is the last; it is sent exactly when neither account step
   * stopped the submission, whatever the product step did.
   */
  lemma SubmitCallOrder(
    product: ProductForm, donor: AccountForm, recipient: AccountForm,
    lcState: string, serialNum: string, now: int, responses: Responses)
    ensures var s := Submit(product, donor, recipient, lcState, serialNum, now, responses);
      && |s.calls| <= 4
      && (forall i, j :: 0 <= i < j < |s.calls| ==> Rank(s.calls[i]) <= Rank(s.calls[j]))
      && (forall i :: 0 <= i < |s.calls| - 1 ==> !s.calls[i].CreateDataEntryCall?)
      && (EntryCall(s).Some? <==>
            ResolveAccount(donor, responses.donor).abort.None? &&
            ResolveAccount(recipient, responses.recipient).abort.None?)
  {
  }

  /** A product form that already has a key is not created again, and its key is the one sent. */
  lemma SubmitReusesProduct(
    product: ProductForm, donor: AccountForm, recipient: AccountForm,
    lcState: string, serialNum: string, now: int, responses: Responses)
    ensures var s := Submit(product, donor, recipient, lcState, serialNum, now, responses);
      && (Truthy(product.productId) ==> (forall i :: 0 <= i < |s.calls| ==> !s.calls[i].CreateProductCall?))
      && (EntryCall(s).Some? && Truthy(product.productId) ==> EntryCall(s).value.productId == product.productId.value)
  {
  }

  /** Account forms that already have keys are not created again, and their keys are the ones sent. */
  lemma SubmitReusesAccounts(
    product: ProductForm, donor: AccountForm, recipient: AccountForm,
    lcState: string, serialNum: string, now: int, responses: Responses)
    ensures var s := Submit(product, donor, recipient, lcState, serialNum, now, responses);
      && (Truthy(donor.accountId) ==> CreateAccountCall(donor) !in s.calls)
      && (Truthy(recipient.accountId) ==> CreateAccountCall(recipient) !in s.calls)
      && (Truthy(donor.accountId) && Truthy(recipient.accountId) ==>
            forall i :: 0 <= i < |s.calls| ==> !s.calls[i].CreateAccountCall?)
      && (EntryCall(s).Some? && Truthy(donor.accountId) ==> EntryCall(s).value.donorAccountId == donor.accountId.value)
      && (EntryCall(s).Some? && Truthy(recipient.accountId) ==>
            EntryCall(s).value.recipientAccountId == recipient.accountId.value)
  {
  }

  /** The product is resolved first, then the donor, then the recipient. */
  lemma SubmitResolvesInOrder(
    product: ProductForm, donor: AccountForm, recipient: AccountForm,
    lcState: string, serialNum: string, now: int, responses: Responses)
    ensures var s := Submit(product, donor, recipient, lcState, serialNum, now, responses);
      var k := if Truthy(product.productId) then 0 else 1;
      && (!Truthy(product.productId) ==> s.calls[0] == CreateProductCall(product))
      && (!Truthy(donor.accountId) ==> s.calls[k] == CreateAccountCall(donor))
      && (!Truthy(recipient.accountId) && EntryCall(s).Some? ==>
            s.calls[k + (if Truthy(donor.accountId) then 0 else 1)] == CreateAccountCall(recipient))
  {
  }

  /** A rejected donor, or else a rejected recipient, ends the submission with its messages and no data entry. */
  lemma SubmitStopsOnAccountErrors(
    product: ProductForm, donor: AccountForm, recipient: AccountForm,
    lcState: string, serialNum: string, now: int, responses: Responses)
    ensures var s := Submit(product, donor, recipient, lcState, serialNum, now, responses);
      && (!Truthy(donor.accountId) && Rejection(responses.donor).Some? ==>
            EntryCall(s).None? && s.error == MapErrors(Rejection(responses.donor).value))
      && (!(!Truthy(donor.accountId) && Rejection(responses.donor).Some?) &&
          !Truthy(recipient.accountId) && Rejection(responses.recipient).Some? ==>
            EntryCall(s).None? && s.error == MapErrors(Rejection(responses.recipient).value))
  {
  }

  /**
   * The keys sent are never 0. A product whose creation failed and which had no
   * key of its own is sent as -1, and likewise for the two accounts.
   */
  lemma SubmitFallsBackToSentinel(
    product: ProductForm, donor: AccountForm, recipient: AccountForm,
    lcState: string, serialNum: string, now: int, responses: Responses)
    ensures var s := Submit(product, donor, recipient, lcState, serialNum, now, responses);
      EntryCall(s).Some? ==>
        var q := EntryCall(s).value;
        && q.productId != 0 && q.donorAccountId != 0 && q.recipientAccountId != 0
        && q.lifeCycleState == lcState && q.serialNumber == serialNum && q.modified == now
        && (!Truthy(product.productId) && !Truthy(CreatedId(responses.product)) ==> q.productId == -1)
        && (!Truthy(product.productId) && Truthy(CreatedId(responses.product)) ==>
              q.productId == CreatedId(responses.product).value)
        && (!Truthy(donor.accountId) && !Truthy(CreatedId(responses.donor)) ==> q.donorAccountId == -1)
        && (!Truthy(donor.accountId) && Truthy(CreatedId(responses.donor)) ==>
              q.donorAccountId == CreatedId(responses.donor).value)
        && (!Truthy(recipient.accountId) && !Truthy(CreatedId(responses.recipient)) ==> q.recipientAccountId == -1)
        && (!Truthy(recipient.accountId) && Truthy(CreatedId(responses.recipient)) ==>
              q.recipientAccountId == CreatedId(responses.recipient).value)
  {
  }

  /** Once the data entry is sent, success clears the error, `errors` are shown, anything else is unknown. */
  lemma SubmitOutcome(
    product: ProductForm, donor: AccountForm, recipient: AccountForm,
    lcState: string, serialNum: string, now: int, responses: Responses)
    ensures var s := Submit(product, donor, recipient, lcState, serialNum, now, responses);
      EntryCall(s).Some? ==>
        && (responses.entry.Some? && responses.entry.value.success == "true" ==> s.error == "")
        && (responses.entry.Some? && responses.entry.value.success != "true" && responses.entry.value.errors.Some? ==>
              s.error == MapErrors(responses.entry.value.errors.value))
        && (responses.entry.None? || (responses.entry.value.success != "true" && responses.entry.value.errors.None?) ==>
              s.error == "Unknown error occured")
  {
  }

  // ---- The dialog ------------------------------------------------------------------------

  /** The dialog's state: the form being filled in, the error shown, and every mutation sent so far. */
  class AddEntryModal {
    var error: string
    var product: ProductForm
    var lcState: string
    var serialNum: string
    var donor: AccountForm
    var recipient: AccountForm
    var sent: seq<Call>

    /** The state the dialog opens with. */
    constructor ()
      ensures error == "" && product == InitProduct && lcState == "Pending" && serialNum == ""
      ensures donor == InitAccount && recipient == InitAccount && sent == []
    {
      error, product, lcState, serialNum := "", InitProduct, "Pending", "";
      donor, recipient, sent := InitAccount, InitAccount, [];
    }

    /** The product block of `submitDataEntry`: create unless keyed, keep the key of a success. */
    method CreateOrReuseProduct(response: Option<CreateData>) returns (productId: Option<int>)
      modifies this`sent
      ensures var r := ResolveProduct(product, response);
        sent == old(sent) + r.calls && productId == r.created
    {
      productId := None;
      if !Truthy(product.productId) {
        sent := sent + [CreateProductCall(product)];
        var data := response;
        if data.Some? {
          if data.value.success == "true" {
            productId := data.value.id;
          }
        }
      }
    }

    /** The donor or recipient block: create unless keyed; `errors` set the error and stop. */
    method CreateOrReuseAccount(account: AccountForm, response: Option<CreateData>)
      returns (accountId: Option<int>, stop: bool)
      modifies this`sent, this`error
      ensures var r := ResolveAccount(account, response);
        && sent == old(sent) + r.calls && accountId == r.created && stop == r.abort.Some?
        && error == (if stop then r.abort.value else old(error))
    {
      accountId, stop := None, false;
      if !Truthy(account.accountId) {
        sent := sent + [CreateAccountCall(account)];
        var data := response;
        if data.Some? {
          if data.value.success == "true" {
            accountId := data.value.id;
          } else if data.value.errors.Some? {
            error := MapErrors(data.value.errors.value);
            stop := true;
          }
        }
      }
    }

    /** `submitDataEntry`, with `now` for `new Date()` and the answers of the calls it makes. */
    method SubmitDataEntry(responses: Responses, now: int)
      modifies this`error, this`sent
      ensures var s := Submit(product, donor, recipient, lcState, serialNum, now, responses);
        sent == old(sent) + s.calls && error == s.error
    {
      var productId := CreateOrReuseProduct(responses.product);
      var donorAccountId, stop := CreateOrReuseAccount(donor, responses.donor);
      if stop {
        return;
      }
      var recipientAccountId, stop' := CreateOrReuseAccount(recipient, responses.recipient);
      if stop' {
        return;
      }

      var request := EntryRequest(
        lcState, serialNum, now,
        FallbackId(productId, product.productId),
        FallbackId(donorAccountId, donor.accountId),
        FallbackId(recipientAccountId, recipient.accountId));
      sent := sent + [CreateDataEntryCall(request)];
      var data := responses.entry;
      if data.Some? {
        if data.value.success == "true" {
          error := "";
          return;
        } else if data.value.errors.Some? {
          error := MapErrors(data.value.errors.value);
          return;
        }
      }
      error := "Unknown error occured";
    }
  }
}
