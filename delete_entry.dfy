/**
 * packages/client/src/pages/home/DeleteEntryModal.tsx: an earlier version of
 * the add-entry dialog that keeps all of its state in one `ModalState` record
 * updated by partial merges, and that stops with a message naming the
 * sub-entity whenever a create call returns no data.
 */
module DeleteEntry {
  import opened Wrappers
  import opened ClientForms
  import AddEntry

  // ---- Dialog state ---------------------------------------------------------------------

  datatype ModalState = ModalState(
    error: string,
    product: ProductForm, productQueried: bool, productInfoVisible: bool,
    lifeCycleState: string, serialNumber: string,
    donor: AccountForm, donorQueried: bool, donorInfoVisible: bool,
    recipient: AccountForm, recipientQueried: bool, recipientInfoVisible: bool)

  /** `Partial<ModalState>`: the fields an update supplies. */
  datatype PartialState = PartialState(
    error: Option<string>,
    product: Option<ProductForm>, productQueried: Option<bool>, productInfoVisible: Option<bool>,
    lifeCycleState: Option<string>, serialNumber: Option<string>,
    donor: Option<AccountForm>, donorQueried: Option<bool>, donorInfoVisible: Option<bool>,
    recipient: Option<AccountForm>, recipientQueried: Option<bool>, recipientInfoVisible: Option<bool>)

  const NoChange := PartialState(None, None, None, None, None, None, None, None, None, None, None, None)

  /** `initModalState`. */
  const InitModalState := ModalState(
    "", InitProduct, false, false, "Pending", "",
    InitAccount, false, false, InitAccount, false, false)

  function Pick<T>(supplied: Option<T>, current: T): T
  {
    if supplied.Some? then supplied.value else current
  }

  /** `{ ...modalState, ...state }`: every supplied field overwrites, every other field stays. */
  function Merge(s: ModalState, p: PartialState): ModalState
  {
    ModalState(
      Pick(p.error, s.error),
      Pick(p.product, s.product), Pick(p.productQueried, s.productQueried),
      Pick(p.productInfoVisible, s.productInfoVisible),
      Pick(p.lifeCycleState, s.lifeCycleState), Pick(p.serialNumber, s.serialNumber),
      Pick(p.donor, s.donor), Pick(p.donorQueried, s.donorQueried),
      Pick(p.donorInfoVisible, s.donorInfoVisible),
      Pick(p.recipient, s.recipient), Pick(p.recipientQueried, s.recipientQueried),
      Pick(p.recipientInfoVisible, s.recipientInfoVisible))
  }

  /** Two partial updates in a row: a field the second supplies wins over the first. */
  function Then(p: PartialState, q: PartialState): PartialState
  {
    PartialState(
      if q.error.Some? then q.error else p.error,
      if q.product.Some? then q.product else p.product,
      if q.productQueried.Some? then q.productQueried else p.productQueried,
      if q.productInfoVisible.Some? then q.productInfoVisible else p.productInfoVisible,
      if q.lifeCycleState.Some? then q.lifeCycleState else p.lifeCycleState,
      if q.serialNumber.Some? then q.serialNumber else p.serialNumber,
      if q.donor.Some? then q.donor else p.donor,
      if q.donorQueried.Some? then q.donorQueried else p.donorQueried,
      if q.donorInfoVisible.Some? then q.donorInfoVisible else p.donorInfoVisible,
      if q.recipient.Some? then q.recipient else p.recipient,
      if q.recipientQueried.Some? then q.recipientQueried else p.recipientQueried,
      if q.recipientInfoVisible.Some? then q.recipientInfoVisible else p.recipientInfoVisible)
  }

  /** An update that supplies nothing changes nothing. */
  lemma MergeNoChange(s: ModalState)
    ensures Merge(s, NoChange) == s
  {
  }

  /** Applying the same update twice is applying it once. */
  lemma MergeIdempotent(s: ModalState, p: PartialState)
    ensures Merge(Merge(s, p), p) == Merge(s, p)
  {
  }

  /** Two updates in a row equal one update in which the later fields win. */
  lemma MergeThen(s: ModalState, p: PartialState, q: PartialState)
    ensures Merge(Merge(s, p), q) == Merge(s, Then(p, q))
  {
    var a, b := Merge(Merge(s, p), q), Merge(s, Then(p, q));
    assert a.error == b.error && a.product == b.product && a.productQueried == b.productQueried;
    assert a.productInfoVisible == b.productInfoVisible && a.lifeCycleState == b.lifeCycleState;
    assert a.serialNumber == b.serialNumber && a.donor == b.donor && a.donorQueried == b.donorQueried;
    assert a.donorInfoVisible == b.donorInfoVisible && a.recipient == b.recipient;
    assert a.recipientQueried == b.recipientQueried && a.recipientInfoVisible == b.recipientInfoVisible;
  }

  /** An update that supplies only the error leaves the whole form as it was. */
  lemma ErrorUpdateKeepsForm(s: ModalState, e: string)
    ensures Merge(s, NoChange.(error := Some(e))) == s.(error := e)
  {
  }

  // ---- Submission -----------------------------------------------------------------------

  /** Like the other dialog's product step, except that no data at all stops the submission. */
  function ResolveProduct(product: ProductForm, response: Option<CreateData>): (r: Resolution)
    ensures r.abort.Some? <==> !Truthy(product.productId) && response.None?
    ensures r.abort.Some? ==> r.abort.value == "Unknown error occured - Product"
  {
    if !Truthy(product.productId) && response.None?
    then Resolution([CreateProductCall(product)], None, Some("Unknown error occured - Product"))
    else AddEntry.ResolveProduct(product, response)
  }

  /** Like the other dialog's account step, except that no data at all stops it with a message naming `who`. */
  function ResolveAccount(account: AccountForm, response: Option<CreateData>, who: string): (r: Resolution)
    ensures !Truthy(account.accountId) && response.None? ==>
      r.abort == Some("Unknown error occured - " + who)
    ensures response.Some? || Truthy(account.accountId) ==> r == AddEntry.ResolveAccount(account, response)
  {
    if !Truthy(account.accountId) && response.None?
    then Resolution([CreateAccountCall(account)], None, Some("Unknown error occured - " + who))
    else AddEntry.ResolveAccount(account, response)
  }

  function EntryOutcome(response: Option<BaseData>): string
  {
    if response.Some? && response.value.success == "true" then ""
    else if response.Some? && response.value.errors.Some? then MapErrors(response.value.errors.value)
    else "Unknown error occured - Data Entry"
  }

  /** A whole submission from the dialog state `m`. */
  function Submit(m: ModalState, now: int, responses: Responses): Submission
  {
    var p := ResolveProduct(m.product, responses.product);
    if p.abort.Some? then Submission(p.calls, p.abort.value)
    else
      var d := ResolveAccount(m.donor, responses.donor, "Donor");
      if d.abort.Some? then Submission(p.calls + d.calls, d.abort.value)
      else
        var c := ResolveAccount(m.recipient, responses.recipient, "Recipient");
        if c.abort.Some? then Submission(p.calls + d.calls + c.calls, c.abort.value)
        else
          var request := AddEntry.EntryRequestOf(
            m.product, m.donor, m.recipient, m.lifeCycleState, m.serialNumber, now, p, d, c);
          Submission(p.calls + d.calls + c.calls + [CreateDataEntryCall(request)], EntryOutcome(responses.entry))
  }

  /** No data from a create call stops the submission there, with the message naming what was being created. */
  lemma SubmitStopsOnMissingData(m: ModalState, now: int, responses: Responses)
    ensures var s := Submit(m, now, responses);
      && (!Truthy(m.product.productId) && responses.product.None? ==>
            s == Submission([CreateProductCall(m.product)], "Unknown error occured - Product"))
      && (ResolveProduct(m.product, responses.product).abort.None? &&
          !Truthy(m.donor.accountId) && responses.donor.None? ==>
            AddEntry.EntryCall(s).None? && s.error == "Unknown error occured - Donor")
      && (ResolveProduct(m.product, responses.product).abort.None? &&
          ResolveAccount(m.donor, responses.donor, "Donor").abort.None? &&
          !Truthy(m.recipient.accountId) && responses.recipient.None? ==>
            AddEntry.EntryCall(s).None? && s.error == "Unknown error occured - Recipient")
  {
  }

  /**
   * When every create call that is made returns data, both dialogs send the
   * same calls, with the same -1 fallbacks, and show the same error, except
   * that this one names the data entry when its outcome is unknown.
   */
  lemma AgreesWithAddEntry(m: ModalState, now: int, responses: Responses)
    requires Truthy(m.product.productId) || responses.product.Some?
    requires Truthy(m.donor.accountId) || responses.donor.Some?
    requires Truthy(m.recipient.accountId) || responses.recipient.Some?
    ensures var s := Submit(m, now, responses);
      var t := AddEntry.Submit(m.product, m.donor, m.recipient, m.lifeCycleState, m.serialNumber, now, responses);
      && s.calls == t.calls
      && (s.error == t.error ||
          (s.error == "Unknown error occured - Data Entry" && t.error == "Unknown error occured"))
  {
  }

  // ---- The dialog -------------------------------------------------------------------------

  class AddEntryModal {
    var modalState: ModalState
    var sent: seq<Call>

    constructor ()
      ensures modalState == InitModalState && sent == []
    {
      modalState, sent := InitModalState, [];
    }

    /** `updateModalState`. */
    method UpdateModalState(state: PartialState)
      modifies this`modalState
      ensures modalState == Merge(old(modalState), state)
    {
      modalState := Merge(modalState, state);
    }

    /** `setError`. */
    method SetError(error: string)
      modifies this`modalState
      ensures modalState == old(modalState).(error := error)
    {
      UpdateModalState(NoChange.(error := Some(error)));
    }

    /** Picking a product from the search marks it as queried and hides its details. */
    method SelectProduct(option: ProductForm)
      modifies this`modalState
      ensures modalState == old(modalState).(product := option, productQueried := true, productInfoVisible := false)
    {
      UpdateModalState(NoChange.(product := Some(option), productQueried := Some(true),
                                 productInfoVisible := Some(false)));
    }

    /** A failed product search shows the details for manual entry and clears the queried flag. */
    method ProductQueryFailed()
      modifies this`modalState
      ensures modalState == old(modalState).(productInfoVisible := true, productQueried := false)
    {
      UpdateModalState(NoChange.(productInfoVisible := Some(true), productQueried := Some(false)));
    }

    method SelectDonor(option: AccountForm)
      modifies this`modalState
      ensures modalState == old(modalState).(donor := option, donorQueried := true, donorInfoVisible := false)
    {
      UpdateModalState(NoChange.(donor := Some(option), donorQueried := Some(true),
                                 donorInfoVisible := Some(false)));
    }

    method DonorQueryFailed()
      modifies this`modalState
      ensures modalState == old(modalState).(donorInfoVisible := true, donorQueried := false)
    {
      UpdateModalState(NoChange.(donorInfoVisible := Some(true), donorQueried := Some(false)));
    }

    method SelectRecipient(option: AccountForm)
      modifies this`modalState
      ensures modalState == old(modalState).(recipient := option, recipientQueried := true,
                                             recipientInfoVisible := false)
    {
      UpdateModalState(NoChange.(recipient := Some(option), recipientQueried := Some(true),
                                 recipientInfoVisible := Some(false)));
    }

    method RecipientQueryFailed()
      modifies this`modalState
      ensures modalState == old(modalState).(recipientInfoVisible := true, recipientQueried := false)
    {
      UpdateModalState(NoChange.(recipientInfoVisible := Some(true), recipientQueried := Some(false)));
    }

    /** The product block of `submitDataEntry`. */
    method CreateOrReuseProduct(response: Option<CreateData>) returns (productId: Option<int>, stop: bool)
      modifies this`sent, this`modalState
      ensures var r := ResolveProduct(old(modalState).product, response);
        && sent == old(sent) + r.calls && productId == r.created && stop == r.abort.Some?
        && modalState == if stop then old(modalState).(error := r.abort.value) else old(modalState)
    {
      productId, stop := None, false;
      var product := modalState.product;
      if !Truthy(product.productId) {
        sent := sent + [CreateProductCall(product)];
        var data := response;
        if data.Some? {
          if data.value.success == "true" {
            productId := data.value.id;
          }
        } else {
          SetError("Unknown error occured - Product");
          stop := true;
        }
      }
    }

    /** The donor or recipient block; `who` names it in the missing-data message. */
    method CreateOrReuseAccount(account: AccountForm, response: Option<CreateData>, who: string)
      returns (accountId: Option<int>, stop: bool)
      modifies this`sent, this`modalState
      ensures var r := ResolveAccount(account, response, who);
        && sent == old(sent) + r.calls && accountId == r.created && stop == r.abort.Some?
        && modalState == if stop then old(modalState).(error := r.abort.value) else old(modalState)
    {
      accountId, stop := None, false;
      if !Truthy(account.accountId) {
        sent := sent + [CreateAccountCall(account)];
        var data := response;
        if data.Some? {
          if data.value.success == "true" {
            accountId := data.value.id;
          } else if data.value.errors.Some? {
            SetError(MapErrors(data.value.errors.value));
            stop := true;
          }
        } else {
          SetError("Unknown error occured - " + who);
          stop := true;
        }
      }
    }

    /** `submitDataEntry`: only the error of the dialog state changes. */
    method SubmitDataEntry(responses: Responses, now: int)
      modifies this`modalState, this`sent
      ensures var s := Submit(old(modalState), now, responses);
        sent == old(sent) + s.calls && modalState == old(modalState).(error := s.error)
    {
      ghost var m, before := modalState, sent;
      ghost var p := ResolveProduct(m.product, responses.product);
      ghost var d := ResolveAccount(m.donor, responses.donor, "Donor");
      ghost var c := ResolveAccount(m.recipient, responses.recipient, "Recipient");
      var product, donor, recipient := modalState.product, modalState.donor, modalState.recipient;
      ghost var expected := Submit(m, now, responses);
      var productId, stop := CreateOrReuseProduct(responses.product);
      if stop {
        assert expected == Submission(p.calls, p.abort.value);
        return;
      }
      assert sent == before + p.calls && modalState == m;
      var donorAccountId, stop' := CreateOrReuseAccount(donor, responses.donor, "Donor");
      if stop' {
        assert expected == Submission(p.calls + d.calls, d.abort.value);
        return;
      }
      assert sent == before + p.calls + d.calls && modalState == m;
      var recipientAccountId, stop'' := CreateOrReuseAccount(recipient, responses.recipient, "Recipient");
      if stop'' {
        assert expected == Submission(p.calls + d.calls + c.calls, c.abort.value);
        return;
      }
      assert sent == before + p.calls + d.calls + c.calls && modalState == m;

      var request := EntryRequest(
        modalState.lifeCycleState, modalState.serialNumber, now,
        FallbackId(productId, product.productId),
        FallbackId(donorAccountId, donor.accountId),
        FallbackId(recipientAccountId, recipient.accountId));
      assert request == AddEntry.EntryRequestOf(
        m.product, m.donor, m.recipient, m.lifeCycleState, m.serialNumber, now, p, d, c);
      assert expected == Submission(p.calls + d.calls + c.calls + [CreateDataEntryCall(request)],
                                    EntryOutcome(responses.entry));
      CreateEntry(request, responses.entry);
    }

    /** The data-entry block of `submitDataEntry`: send the request, then report its outcome. */
    method CreateEntry(request: EntryRequest, response: Option<BaseData>)
      modifies this`sent, this`modalState
      ensures sent == old(sent) + [CreateDataEntryCall(request)]
      ensures modalState == old(modalState).(error := EntryOutcome(response))
    {
      sent := sent + [CreateDataEntryCall(request)];
      var data := response;
      if data.Some? {
        if data.value.success == "true" {
          SetError("");
          return;
        } else if data.value.errors.Some? {
          SetError(MapErrors(data.value.errors.value));
          return;
        }
      }
      SetError("Unknown error occured - Data Entry");
    }
  }
}
