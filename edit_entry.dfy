/**
 * packages/client/src/pages/home/EditEntryModal.tsx: the dialog that edits the
 * rows selected in the grid. Edits are kept per row and remembered in
 * `updatedRowIds`; closing the dialog walks the grid rows in order, looks up
 * the donor and recipient accounts of each changed row by name, and sends one
 * `updateDataEntry` mutation per row whose two accounts were found.
 */
module EditEntry {
  import opened Wrappers
  import Text
  import Async
  import Search

  /** `DataGridModelRow`: a grid row as the client holds it. */
  datatype GridModelRow = GridModelRow(
    id: int, modified: string, serialNumber: string, lifeCycleState: string,
    model: string, productName: string, manufacturer: string,
    donorAccount: string, recipientAccount: string)

  function RowKey(row: GridModelRow): int { row.id }

  // ---- The changed-row list ---------------------------------------------------------------

  /** `ids.find((id) => rowId === id)`: the first element equal to `rowId`, if any. */
  function FindEqual(ids: seq<int>, rowId: int): (r: Option<int>)
    ensures r.Some? <==> rowId in ids
    ensures r.Some? ==> r.value == rowId
  {
    if ids == [] then None
    else if ids[0] == rowId then Some(ids[0])
    else FindEqual(ids[1..], rowId)
  }

  /** The `find` result tested for truthiness: a listed id other than 0. */
  predicate Changed(ids: seq<int>, rowId: int)
  {
    FindEqual(ids, rowId).Some? && FindEqual(ids, rowId).value != 0
  }

  /** A row counts as changed exactly when its id is listed and is not 0. */
  lemma ChangedIff(ids: seq<int>, rowId: int)
    ensures Changed(ids, rowId) <==> rowId in ids && rowId != 0
  {
  }

  /** The list update of `updateDataGridRow`: prepend the id unless the truthy `find` already finds it. */
  function AddChanged(ids: seq<int>, rowId: int): (r: seq<int>)
    ensures forall x :: x in r <==> x in ids || x == rowId
    ensures rowId != 0 ==> Changed(r, rowId)
    ensures |r| <= |ids| + 1
  {
    if Changed(ids, rowId) then ids else [rowId] + ids
  }

  /** No id other than 0 is listed twice. */
  ghost predicate NonzeroDistinct(ids: seq<int>)
  {
    forall i, j :: 0 <= i < j < |ids| && ids[i] != 0 ==> ids[i] != ids[j]
  }

  /** Nonzero ids are never duplicated by `updateDataGridRow`; 0 is prepended every time. */
  lemma AddChangedKeepsDistinct(ids: seq<int>, rowId: int)
    requires NonzeroDistinct(ids)
    ensures NonzeroDistinct(AddChanged(ids, rowId))
    ensures rowId == 0 ==> AddChanged(ids, rowId) == [0] + ids
  {
    ChangedIff(ids, rowId);
    if !Changed(ids, rowId) {
      var r := [rowId] + ids;
      forall i, j | 0 <= i < j < |r| && r[i] != 0 ensures r[i] != r[j] {
        if i == 0 {
          assert r[j] == ids[j - 1] && ids[j - 1] in ids;
        } else {
          assert r[i] == ids[i - 1] && r[j] == ids[j - 1];
        }
      }
    }
  }

  /** The list after `updateDataGridRow` has run on each of `rows`, first to last. */
  function AddAllChanged(ids: seq<int>, rows: seq<GridModelRow>): seq<int>
    decreases |rows|
  {
    if rows == [] then ids
    else AddChanged(AddAllChanged(ids, rows[..|rows| - 1]), rows[|rows| - 1].id)
  }

  /** However many rows are refreshed, no nonzero id is listed twice, and every refreshed nonzero id is listed. */
  lemma {:induction false} AddAllChangedKeepsDistinct(ids: seq<int>, rows: seq<GridModelRow>)
    requires NonzeroDistinct(ids)
    ensures NonzeroDistinct(AddAllChanged(ids, rows))
    ensures forall i :: 0 <= i < |rows| && rows[i].id != 0 ==> rows[i].id in AddAllChanged(ids, rows)
    ensures forall x :: x in ids ==> x in AddAllChanged(ids, rows)
    decreases |rows|
  {
    if rows != [] {
      var front := rows[..|rows| - 1];
      AddAllChangedKeepsDistinct(ids, front);
      AddChangedKeepsDistinct(AddAllChanged(ids, front), rows[|rows| - 1].id);
      forall i | 0 <= i < |rows| - 1 && rows[i].id != 0 ensures rows[i].id in AddAllChanged(ids, rows) {
        assert front[i] == rows[i];
      }
    }
  }

  // ---- One row of the submission loop -------------------------------------------------------

  /** What a `findFirstAccountMatchName` lookup did: it threw, or it returned a key or nothing. */
  datatype Lookup = LookupThrew | LookupData(accountId: Option<int>)

  /**
   * The `data` of the update mutation as the success test sees it: nothing,
   * data without the payload field it reads, or that field's `success`.
   */
  datatype UpdateData = NoData | NoPayload | Payload(success: string)

  /** What the server sends back for `updateDataEntry`: no data, or the `success` string it selects. */
  datatype UpdateReply = NoReply | Replied(success: string)

  /**
   * As written, the success test reads `data.createDataEntry`, a field the
   * `UpdateDataEntry` document never selects: the payload is never there.
   */
  function ReadAsWritten(reply: UpdateReply): (u: UpdateData)
    ensures !u.Payload?
    ensures u.NoData? <==> reply.NoReply?
  {
    if reply.NoReply? then NoData else NoPayload
  }

  /** As evidently intended, the test reads `data.updateDataEntry`, the field the document selects. */
  function ReadIntended(reply: UpdateReply): (u: UpdateData)
    ensures u.Payload? <==> reply.Replied?
    ensures reply.Replied? ==> u.success == reply.success
  {
    if reply.NoReply? then NoData else Payload(reply.success)
  }

  /**
   * What the world answered for one row: both lookups, the mutation, and the
   * clock (`new Date()` and its display string) at the time of the mutation.
   */
  datatype RowResponses = RowResponses(
    donor: Lookup, recipient: Lookup, update: UpdateData, clock: int, clockText: string)

  /** The `updateDataEntry` variables. */
  datatype UpdateRequest = UpdateRequest(
    entryId: int, modified: int, lifeCycleState: string, serialNumber: string,
    donorAccountId: int, recipientAccountId: int)

  /** What handling one row did: the names looked up, the mutation sent, the error recorded, the row refreshed. */
  datatype RowOutcome = RowOutcome(
    queried: seq<string>, request: Option<UpdateRequest>, error: Option<string>, refresh: Option<GridModelRow>)

  const Untouched := RowOutcome([], None, None, None)

  function Quoted(rowId: int): string
  {
    "ID=\"" + Text.IntToString(rowId) + "\""
  }

  function DonorError(rowId: int): string { "Error finding donor account for " + Quoted(rowId) }
  function RecipientError(rowId: int): string { "Error finding recipient account for " + Quoted(rowId) }
  function UpdateError(rowId: int): string { "Error updating entry " + Quoted(rowId) }

  /** The key a lookup left in its `-1`-initialised variable. */
  function FoundId(l: Lookup): int
  {
    if l.LookupData? && l.accountId.Some? then l.accountId.value else -1
  }

  /**
   * The loop body for one row. `refreshFrom` is the row the success branch
   * copies for the grid refresh (see `Refresh`);
   * with no row selected the model refreshes nothing.
   */
  function RowOutcomeOf(ids: seq<int>, refreshFrom: Option<GridModelRow>, entry: GridModelRow, r: RowResponses): (o: RowOutcome)
    ensures !Changed(ids, entry.id) ==> o == Untouched
    ensures o.request.Some? <==>
      Changed(ids, entry.id) && r.donor.LookupData? && r.recipient.LookupData? &&
      FoundId(r.donor) != -1 && FoundId(r.recipient) != -1
    ensures o.request.Some? ==>
      o.request.value == UpdateRequest(entry.id, r.clock, entry.lifeCycleState, entry.serialNumber,
                                       FoundId(r.donor), FoundId(r.recipient))
    ensures Changed(ids, entry.id) && r.donor.LookupThrew? ==>
      o == RowOutcome([entry.donorAccount], None, Some(DonorError(entry.id)), None)
    ensures Changed(ids, entry.id) && r.donor.LookupData? && r.recipient.LookupThrew? ==>
      o == RowOutcome([entry.donorAccount, entry.recipientAccount], None, Some(RecipientError(entry.id)), None)
    ensures o.request.Some? ==>
      (o.error.Some? <==> r.update != Payload("true")) && (o.error.Some? ==> o.error.value == UpdateError(entry.id))
    ensures o.refresh.Some? ==> o.request.Some? && o.error.None?
  {
    if !Changed(ids, entry.id) then Untouched
    else if r.donor.LookupThrew? then RowOutcome([entry.donorAccount], None, Some(DonorError(entry.id)), None)
    else if r.recipient.LookupThrew? then
      RowOutcome([entry.donorAccount, entry.recipientAccount], None, Some(RecipientError(entry.id)), None)
    else
      var queried := [entry.donorAccount, entry.recipientAccount];
      var donorAccountId, recipientAccountId := FoundId(r.donor), FoundId(r.recipient);
      if donorAccountId != -1 && recipientAccountId != -1 then
        var request := UpdateRequest(entry.id, r.clock, entry.lifeCycleState, entry.serialNumber,
                                     donorAccountId, recipientAccountId);
        if r.update != Payload("true") then RowOutcome(queried, Some(request), Some(UpdateError(entry.id)), None)
        else if refreshFrom.Some? then
          RowOutcome(queried, Some(request), None, Some(refreshFrom.value.(modified := r.clockText)))
        else RowOutcome(queried, Some(request), None, None)
      else RowOutcome(queried, None, None, None)
  }

  // ---- The whole loop --------------------------------------------------------------------------

  /** What the loop has accumulated: lookups, mutations, the `errors` array, and the refreshed rows. */
  datatype EditRun = EditRun(
    queried: seq<string>, issued: seq<UpdateRequest>, errors: seq<string>, refreshed: seq<GridModelRow>)

  const EmptyRun := EditRun([], [], [], [])

  function Listed<T>(o: Option<T>): seq<T>
  {
    if o.Some? then [o.value] else []
  }

  function Apply(run: EditRun, o: RowOutcome): EditRun
  {
    EditRun(run.queried + o.queried, run.issued + Listed(o.request),
            run.errors + Listed(o.error), run.refreshed + Listed(o.refresh))
  }

  /**
   * Which row a successful update refreshes the grid with: as written, a copy
   * of the row shown when the submission started; as evidently intended, a
   * copy of the row just updated.
   */
  datatype Refresh = CopyShown(shown: Option<GridModelRow>) | CopyUpdated

  function SourceFor(refresh: Refresh, entry: GridModelRow): Option<GridModelRow>
  {
    match refresh
    case CopyShown(shown) => shown
    case CopyUpdated => Some(entry)
  }

  /** The `forEachAsync` callback, over the changed ids the closure captured when the submission started. */
  function EditStep(ids: seq<int>, refresh: Refresh, responses: nat -> RowResponses)
    : (EditRun, GridModelRow, nat) -> EditRun
  {
    (run: EditRun, entry: GridModelRow, index: nat) =>
      Apply(run, RowOutcomeOf(ids, SourceFor(refresh, entry), entry, responses(index)))
  }

  /** The outcome of row `i`, as the loop computes it. */
  function OutcomeAt(ids: seq<int>, refresh: Refresh, responses: nat -> RowResponses,
                     entries: seq<GridModelRow>, i: nat): RowOutcome
    requires i < |entries|
  {
    RowOutcomeOf(ids, SourceFor(refresh, entries[i]), entries[i], responses(i))
  }

  /** The loop appends what each row produced: the state after one more row. */
  lemma RunStep(ids: seq<int>, refresh: Refresh, responses: nat -> RowResponses,
                entries: seq<GridModelRow>)
    requires entries != []
    ensures var n := |entries| - 1;
      Async.Run(EditStep(ids, refresh, responses), EmptyRun, entries) ==
      Apply(Async.Run(EditStep(ids, refresh, responses), EmptyRun, entries[..n]),
            OutcomeAt(ids, refresh, responses, entries, n))
  {
  }

  /** Row `i` of a prefix is handled as row `i` of the whole table. */
  lemma OutcomeOfPrefix(ids: seq<int>, refresh: Refresh, responses: nat -> RowResponses,
                        entries: seq<GridModelRow>, n: nat, i: nat)
    requires i < n <= |entries|
    ensures OutcomeAt(ids, refresh, responses, entries[..n], i) == OutcomeAt(ids, refresh, responses, entries, i)
  {
    assert entries[..n][i] == entries[i];
  }

  /** At most one lookup pair, one mutation and one error per row; a refresh only after a mutation. */
  lemma {:induction false} EditRunSizes(ids: seq<int>, refresh: Refresh,
                                        responses: nat -> RowResponses, entries: seq<GridModelRow>)
    ensures var run := Async.Run(EditStep(ids, refresh, responses), EmptyRun, entries);
      |run.queried| <= 2 * |entries| && |run.issued| <= |entries| && |run.errors| <= |entries| &&
      |run.refreshed| <= |run.issued|
    decreases |entries|
  {
    if entries != [] {
      RunStep(ids, refresh, responses, entries);
      EditRunSizes(ids, refresh, responses, entries[..|entries| - 1]);
    }
  }

  /** The outcome of each row, in order. */
  function Outcomes(ids: seq<int>, refresh: Refresh, responses: nat -> RowResponses,
                    entries: seq<GridModelRow>): (os: seq<RowOutcome>)
    ensures |os| == |entries|
    decreases |entries|
  {
    if entries == [] then []
    else
      var n := |entries| - 1;
      Outcomes(ids, refresh, responses, entries[..n]) + [OutcomeAt(ids, refresh, responses, entries, n)]
  }

  /** Entry `i` of `Outcomes` is the outcome of row `i`. */
  lemma {:induction false} OutcomesAt(ids: seq<int>, refresh: Refresh, responses: nat -> RowResponses,
                                      entries: seq<GridModelRow>, i: nat)
    requires i < |entries|
    ensures Outcomes(ids, refresh, responses, entries)[i] == OutcomeAt(ids, refresh, responses, entries, i)
    decreases |entries|
  {
    var n := |entries| - 1;
    if i < n {
      OutcomesAt(ids, refresh, responses, entries[..n], i);
      OutcomeOfPrefix(ids, refresh, responses, entries, n, i);
    }
  }

  /** What the loop accumulates from a list of row outcomes, first to last. */
  function Total(os: seq<RowOutcome>): EditRun
    decreases |os|
  {
    if os == [] then EmptyRun else Apply(Total(os[..|os| - 1]), os[|os| - 1])
  }

  /** The loop's result is the total of the rows' outcomes. */
  lemma {:induction false} RunIsTotal(ids: seq<int>, refresh: Refresh, responses: nat -> RowResponses,
                                      entries: seq<GridModelRow>)
    ensures Async.Run(EditStep(ids, refresh, responses), EmptyRun, entries) ==
      Total(Outcomes(ids, refresh, responses, entries))
    decreases |entries|
  {
    if entries != [] {
      var n := |entries| - 1;
      RunStep(ids, refresh, responses, entries);
      RunIsTotal(ids, refresh, responses, entries[..n]);
      var front := Outcomes(ids, refresh, responses, entries[..n]);
      var os := Outcomes(ids, refresh, responses, entries);
      assert os[..n] == front;
    }
  }

  /** A mutation is in the total exactly when some outcome names it: nothing dropped, nothing added. */
  lemma {:induction false} TotalIssued(os: seq<RowOutcome>, q: UpdateRequest)
    ensures q in Total(os).issued <==> exists i :: 0 <= i < |os| && os[i].request == Some(q)
    decreases |os|
  {
    if os != [] {
      var n := |os| - 1;
      var front := os[..n];
      TotalIssued(front, q);
      assert Total(os).issued == Total(front).issued + Listed(os[n].request);
      if q in Total(front).issued {
        var i :| 0 <= i < n && front[i].request == Some(q);
        assert front[i] == os[i];
      } else if os[n].request != Some(q) {
        forall i | 0 <= i < |os| ensures os[i].request != Some(q) {
          if i < n {
            assert front[i] == os[i];
          }
        }
      }
    }
  }

  /** A error is in the total exactly when some outcome names it: nothing dropped, nothing added. */
  lemma {:induction false} TotalErrors(os: seq<RowOutcome>, m: string)
    ensures m in Total(os).errors <==> exists i :: 0 <= i < |os| && os[i].error == Some(m)
    decreases |os|
  {
    if os != [] {
      var n := |os| - 1;
      var front := os[..n];
      TotalErrors(front, m);
      assert Total(os).errors == Total(front).errors + Listed(os[n].error);
      if m in Total(front).errors {
        var i :| 0 <= i < n && front[i].error == Some(m);
        assert front[i] == os[i];
      } else if os[n].error != Some(m) {
        forall i | 0 <= i < |os| ensures os[i].error != Some(m) {
          if i < n {
            assert front[i] == os[i];
          }
        }
      }
    }
  }

  /** A refreshed row is in the total exactly when some outcome names it: nothing dropped, nothing added. */
  lemma {:induction false} TotalRefreshed(os: seq<RowOutcome>, row: GridModelRow)
    ensures row in Total(os).refreshed <==> exists i :: 0 <= i < |os| && os[i].refresh == Some(row)
    decreases |os|
  {
    if os != [] {
      var n := |os| - 1;
      var front := os[..n];
      TotalRefreshed(front, row);
      assert Total(os).refreshed == Total(front).refreshed + Listed(os[n].refresh);
      if row in Total(front).refreshed {
        var i :| 0 <= i < n && front[i].refresh == Some(row);
        assert front[i] == os[i];
      } else if os[n].refresh != Some(row) {
        forall i | 0 <= i < |os| ensures os[i].refresh != Some(row) {
          if i < n {
            assert front[i] == os[i];
          }
        }
      }
    }
  }

  /** A mutation is sent exactly when some row's handling produced it: the loop drops none. */
  lemma IssuedCollects(ids: seq<int>, refresh: Refresh,
                       responses: nat -> RowResponses, entries: seq<GridModelRow>)
    ensures var run := Async.Run(EditStep(ids, refresh, responses), EmptyRun, entries);
      forall q :: q in run.issued <==>
        exists i :: 0 <= i < |entries| && OutcomeAt(ids, refresh, responses, entries, i).request == Some(q)
  {
    RunIsTotal(ids, refresh, responses, entries);
    var os := Outcomes(ids, refresh, responses, entries);
    forall q ensures q in Total(os).issued <==> exists i :: 0 <= i < |os| && os[i].request == Some(q) {
      TotalIssued(os, q);
    }
    forall i | 0 <= i < |entries| ensures os[i] == OutcomeAt(ids, refresh, responses, entries, i) {
      OutcomesAt(ids, refresh, responses, entries, i);
    }
  }

  /** An error is recorded exactly when some row's handling produced it: the loop drops none. */
  lemma ErrorsCollect(ids: seq<int>, refresh: Refresh,
                      responses: nat -> RowResponses, entries: seq<GridModelRow>)
    ensures var run := Async.Run(EditStep(ids, refresh, responses), EmptyRun, entries);
      forall m :: m in run.errors <==>
        exists i :: 0 <= i < |entries| && OutcomeAt(ids, refresh, responses, entries, i).error == Some(m)
  {
    RunIsTotal(ids, refresh, responses, entries);
    var os := Outcomes(ids, refresh, responses, entries);
    forall m ensures m in Total(os).errors <==> exists i :: 0 <= i < |os| && os[i].error == Some(m) {
      TotalErrors(os, m);
    }
    forall i | 0 <= i < |entries| ensures os[i] == OutcomeAt(ids, refresh, responses, entries, i) {
      OutcomesAt(ids, refresh, responses, entries, i);
    }
  }

  /**
   * Every mutation the loop sends is for a changed row (so never for id 0)
   * and carries two account keys that were found (so never -1).
   */
  lemma IssuedOnlyForChangedRows(ids: seq<int>, refresh: Refresh,
                                 responses: nat -> RowResponses, entries: seq<GridModelRow>)
    ensures var run := Async.Run(EditStep(ids, refresh, responses), EmptyRun, entries);
      forall q :: q in run.issued ==>
        q.entryId in ids && q.entryId != 0 && q.donorAccountId != -1 && q.recipientAccountId != -1
  {
    IssuedCollects(ids, refresh, responses, entries);
    var run := Async.Run(EditStep(ids, refresh, responses), EmptyRun, entries);
    forall q | q in run.issued
      ensures q.entryId in ids && q.entryId != 0 && q.donorAccountId != -1 && q.recipientAccountId != -1
    {
      var i :| 0 <= i < |entries| && OutcomeAt(ids, refresh, responses, entries, i).request == Some(q);
      ChangedIff(ids, entries[i].id);
    }
  }

  /** With nothing changed, closing the dialog looks nothing up, sends nothing and records no error. */
  lemma {:induction false} NothingChangedSendsNothing(refresh: Refresh,
                                                      responses: nat -> RowResponses, entries: seq<GridModelRow>)
    ensures Async.Run(EditStep([], refresh, responses), EmptyRun, entries) == EmptyRun
    decreases |entries|
  {
    if entries != [] {
      var n := |entries| - 1;
      RunStep([], refresh, responses, entries);
      NothingChangedSendsNothing(refresh, responses, entries[..n]);
      assert OutcomeAt([], refresh, responses, entries, n) == Untouched;
      assert Apply(EmptyRun, Untouched) == EmptyRun;
    }
  }

  // ---- The refresh after a successful update ------------------------------------------------

  /**
   * As written, the success branch refreshes the grid with a copy of the row
   * shown when the submission started, not of the row it updated: with rows 1
   * and 2 in the grid, row 1 shown and only row 2 changed, the loop updates
   * row 2 and refreshes row 1.
   */
  lemma RefreshCopiesSelectedRow(row1: GridModelRow, row2: GridModelRow, clock: int, clockText: string)
    requires row1.id == 1 && row2.id == 2
    ensures var r := RowResponses(LookupData(Some(7)), LookupData(Some(8)), Payload("true"), clock, clockText);
      var run := Async.Run(EditStep([2], CopyShown(Some(row1)), (_: nat) => r), EmptyRun, [row1, row2]);
      && run.issued == [UpdateRequest(2, clock, row2.lifeCycleState, row2.serialNumber, 7, 8)]
      && run.refreshed == [row1.(modified := clockText)]
  {
    var r := RowResponses(LookupData(Some(7)), LookupData(Some(8)), Payload("true"), clock, clockText);
    var step := EditStep([2], CopyShown(Some(row1)), (_: nat) => r);
    assert [row1, row2][..1] == [row1];
    assert [row1][..0] == [];
    RunStep([2], CopyShown(Some(row1)), (_: nat) => r, [row1, row2]);
    RunStep([2], CopyShown(Some(row1)), (_: nat) => r, [row1]);
  }

  /** The row was changed, both its accounts were found, and its update reported success. */
  predicate Succeeded(ids: seq<int>, entry: GridModelRow, r: RowResponses)
  {
    Changed(ids, entry.id) && r.donor.LookupData? && r.recipient.LookupData? &&
    FoundId(r.donor) != -1 && FoundId(r.recipient) != -1 && r.update == Payload("true")
  }

  /** With the intended refresh, a row is refreshed exactly when its own update succeeded. */
  lemma IntendedRowRefresh(ids: seq<int>, entry: GridModelRow, r: RowResponses)
    ensures RowOutcomeOf(ids, Some(entry), entry, r).refresh ==
      if Succeeded(ids, entry, r) then Some(entry.(modified := r.clockText)) else None
  {
  }

  /** The refresh row `i` should cause: its own copy with the new time, when its update succeeded. */
  function IntendedRefreshAt(ids: seq<int>, responses: nat -> RowResponses, entries: seq<GridModelRow>, i: nat)
    : Option<GridModelRow>
    requires i < |entries|
  {
    if Succeeded(ids, entries[i], responses(i)) then Some(entries[i].(modified := responses(i).clockText)) else None
  }

  /**
   * With the intended refresh, the refreshed rows are exactly the rows whose
   * update succeeded, each with its new modification time.
   */
  lemma IntendedRefreshesUpdatedRows(ids: seq<int>, responses: nat -> RowResponses, entries: seq<GridModelRow>)
    ensures var run := Async.Run(EditStep(ids, CopyUpdated, responses), EmptyRun, entries);
      forall row :: row in run.refreshed <==>
        exists i :: 0 <= i < |entries| && IntendedRefreshAt(ids, responses, entries, i) == Some(row)
  {
    RunIsTotal(ids, CopyUpdated, responses, entries);
    var os := Outcomes(ids, CopyUpdated, responses, entries);
    forall row ensures row in Total(os).refreshed <==> exists i :: 0 <= i < |os| && os[i].refresh == Some(row) {
      TotalRefreshed(os, row);
    }
    forall i | 0 <= i < |entries| ensures os[i].refresh == IntendedRefreshAt(ids, responses, entries, i) {
      OutcomesAt(ids, CopyUpdated, responses, entries, i);
      IntendedRowRefresh(ids, entries[i], responses(i));
    }
  }

  // ---- The payload field the success test reads -------------------------------------------

  /**
   * As written, a row the server updated is still reported as failed: with
   * row 2 changed, both accounts found and the server answering
   * `success: 'true'`, the row records its update error and refreshes nothing.
   */
  lemma SuccessfulUpdateReportedAsFailed(row: GridModelRow, clock: int, clockText: string)
    requires row.id == 2
    ensures var r := RowResponses(LookupData(Some(7)), LookupData(Some(8)), ReadAsWritten(Replied("true")), clock, clockText);
      var o := RowOutcomeOf([2], Some(row), row, r);
      && o.request == Some(UpdateRequest(2, clock, row.lifeCycleState, row.serialNumber, 7, 8))
      && o.error == Some(UpdateError(2))
      && o.refresh == None
  {
    ChangedIff([2], 2);
  }

  lemma FirstIsMember<T>(s: seq<T>)
    ensures s != [] ==> s[0] in s
  {
  }

  /** As written, whatever the server answers, the loop refreshes no row. */
  lemma AsWrittenReadRefreshesNothing(ids: seq<int>, refresh: Refresh, replies: nat -> UpdateReply,
                                      responses: nat -> RowResponses, entries: seq<GridModelRow>)
    requires forall i: nat :: responses(i).update == ReadAsWritten(replies(i))
    ensures Async.Run(EditStep(ids, refresh, responses), EmptyRun, entries).refreshed == []
  {
    RunIsTotal(ids, refresh, responses, entries);
    var os := Outcomes(ids, refresh, responses, entries);
    forall i | 0 <= i < |entries| ensures os[i].refresh.None? {
      OutcomesAt(ids, refresh, responses, entries, i);
      assert !responses(i).update.Payload?;
    }
    forall row ensures row !in Total(os).refreshed {
      TotalRefreshed(os, row);
    }
    FirstIsMember(Total(os).refreshed);
  }

  /** As written, whatever the server answers, every row whose update was sent records its update error. */
  lemma AsWrittenReadReportsEveryUpdate(ids: seq<int>, refresh: Refresh, replies: nat -> UpdateReply,
                                        responses: nat -> RowResponses, entries: seq<GridModelRow>)
    requires forall i: nat :: responses(i).update == ReadAsWritten(replies(i))
    ensures var run := Async.Run(EditStep(ids, refresh, responses), EmptyRun, entries);
      forall i :: 0 <= i < |entries| && OutcomeAt(ids, refresh, responses, entries, i).request.Some? ==>
        UpdateError(entries[i].id) in run.errors
  {
    ErrorsCollect(ids, refresh, responses, entries);
    forall i | 0 <= i < |entries| && OutcomeAt(ids, refresh, responses, entries, i).request.Some?
      ensures OutcomeAt(ids, refresh, responses, entries, i).error == Some(UpdateError(entries[i].id))
    {
      assert !responses(i).update.Payload?;
    }
  }

  /**
   * As evidently intended, a row whose update was sent reports an error
   * exactly when the server did not answer `'true'`, and with the corrected
   * refresh a `'true'` answer refreshes that row with its new time.
   */
  lemma IntendedReadReportsServerOutcome(ids: seq<int>, entry: GridModelRow, r: RowResponses, reply: UpdateReply)
    requires r.update == ReadIntended(reply)
    ensures var o := RowOutcomeOf(ids, Some(entry), entry, r);
      && (o.request.Some? ==> (o.error.None? <==> reply == Replied("true")))
      && (o.request.Some? && reply == Replied("true") ==> o.refresh == Some(entry.(modified := r.clockText)))
  {
    IntendedRowRefresh(ids, entry, r);
  }

  // ---- Drawer order ----------------------------------------------------------------------------

  ghost predicate SortedAscending(s: seq<int>)
  {
    forall i, j :: 0 <= i < j < |s| ==> s[i] <= s[j]
  }

  /** Insert `x` into a sorted list; the head is the smaller of `x` and the old head. */
  function Insert(x: int, s: seq<int>): (r: seq<int>)
    requires SortedAscending(s)
    ensures |r| == |s| + 1
    ensures r[0] == if s == [] || x <= s[0] then x else s[0]
    ensures SortedAscending(r)
    ensures multiset(r) == multiset(s) + multiset{x}
  {
    if s == [] || x <= s[0] then [x] + s
    else
      var rest := Insert(x, s[1..]);
      assert s == [s[0]] + s[1..];
      assert s[0] <= rest[0];
      [s[0]] + rest
  }

  /** `selectionModel.sort((a, d) => a - d)`: ascending numeric order, the same ids. */
  function SortAscending(s: seq<int>): (r: seq<int>)
    ensures SortedAscending(r)
    ensures multiset(r) == multiset(s)
  {
    if s == [] then []
    else
      assert s == [s[0]] + s[1..];
      Insert(s[0], SortAscending(s[1..]))
  }

  // ---- The dialog ----------------------------------------------------------------------------

  class EditEntryModal {
    /** The `entries` prop: the grid rows. */
    var entries: seq<GridModelRow>
    /** The `selectionModel` prop: the ids selected in the grid. */
    var selectionModel: seq<int>
    var error: string
    var dataEntry: Option<GridModelRow>
    var updatedRowIds: seq<int>
    /** Every row handed to the parent's `updateDataEntry`, in order. */
    var gridUpdates: seq<GridModelRow>
    /** Every name sent to `findFirstAccountMatchName`, in order. */
    var lookups: seq<string>
    /** Every `updateDataEntry` mutation sent, in order. */
    var mutations: seq<UpdateRequest>

    constructor (entries: seq<GridModelRow>, selectionModel: seq<int>)
      ensures this.entries == entries && this.selectionModel == selectionModel
      ensures error == "" && dataEntry == None && updatedRowIds == []
      ensures gridUpdates == [] && lookups == [] && mutations == []
    {
      this.entries, this.selectionModel := entries, selectionModel;
      error, dataEntry, updatedRowIds := "", None, [];
      gridUpdates, lookups, mutations := [], [], [];
    }

    /** `selectDataGridRow`: a truthy id selects the first grid row with that id, if there is one. */
    method SelectDataGridRow(row: Option<int>)
      modifies this`dataEntry
      ensures row.Some? && row.value != 0 && Search.FindByKey(entries, RowKey, row.value).Some? ==>
        dataEntry == Search.FindByKey(entries, RowKey, row.value)
      ensures !(row.Some? && row.value != 0 && Search.FindByKey(entries, RowKey, row.value).Some?) ==>
        dataEntry == old(dataEntry)
    {
      if row.Some? && row.value != 0 {
        var entry := Search.FindByKey(entries, RowKey, row.value);
        if entry.Some? {
          dataEntry := entry;
        }
      }
    }

    /** At render time, with no row shown yet, show the first selected one. */
    method SelectInitialRow()
      modifies this`dataEntry
      ensures old(dataEntry).Some? ==> dataEntry == old(dataEntry)
      ensures old(dataEntry).None? && selectionModel != [] && selectionModel[0] != 0 ==>
        dataEntry == Search.FindByKey(entries, RowKey, selectionModel[0])
      ensures old(dataEntry).None? && (selectionModel == [] || selectionModel[0] == 0) ==> dataEntry == None
    {
      if dataEntry.None? {
        SelectDataGridRow(if selectionModel == [] then None else Some(selectionModel[0]));
      }
    }

    /** `updateDataGridRow`: hand the row to the grid, show it, and remember its id as changed. */
    method UpdateDataGridRow(row: GridModelRow)
      modifies this`gridUpdates, this`dataEntry, this`updatedRowIds
      ensures gridUpdates == old(gridUpdates) + [row]
      ensures dataEntry == Some(row)
      ensures updatedRowIds == AddChanged(old(updatedRowIds), row.id)
    {
      gridUpdates := gridUpdates + [row];
      dataEntry := Some(row);
      if !Changed(updatedRowIds, row.id) {
        updatedRowIds := [row.id] + updatedRowIds;
      }
    }

    /** The life-cycle select: edit a copy of the shown row. */
    method EditLifeCycleState(value: string)
      requires dataEntry.Some?
      modifies this`gridUpdates, this`dataEntry, this`updatedRowIds
      ensures var row := old(dataEntry).value.(lifeCycleState := value);
        gridUpdates == old(gridUpdates) + [row] && dataEntry == Some(row) &&
        updatedRowIds == AddChanged(old(updatedRowIds), row.id)
    {
      UpdateDataGridRow(dataEntry.value.(lifeCycleState := value));
    }

    /** The serial-number field: the typed text, upper-cased. */
    method EditSerialNumber(value: string, upper: char -> char)
      requires dataEntry.Some?
      modifies this`gridUpdates, this`dataEntry, this`updatedRowIds
      ensures var row := old(dataEntry).value.(serialNumber := Text.FoldCase(upper, value));
        gridUpdates == old(gridUpdates) + [row] && dataEntry == Some(row) &&
        updatedRowIds == AddChanged(old(updatedRowIds), row.id)
    {
      UpdateDataGridRow(dataEntry.value.(serialNumber := Text.FoldCase(upper, value)));
    }

    /** The donor select: the chosen account's name. */
    method EditDonorAccount(name: string)
      requires dataEntry.Some?
      modifies this`gridUpdates, this`dataEntry, this`updatedRowIds
      ensures var row := old(dataEntry).value.(donorAccount := name);
        gridUpdates == old(gridUpdates) + [row] && dataEntry == Some(row) &&
        updatedRowIds == AddChanged(old(updatedRowIds), row.id)
    {
      UpdateDataGridRow(dataEntry.value.(donorAccount := name));
    }

    /** The recipient select: the chosen account's name. */
    method EditRecipientAccount(name: string)
      requires dataEntry.Some?
      modifies this`gridUpdates, this`dataEntry, this`updatedRowIds
      ensures var row := old(dataEntry).value.(recipientAccount := name);
        gridUpdates == old(gridUpdates) + [row] && dataEntry == Some(row) &&
        updatedRowIds == AddChanged(old(updatedRowIds), row.id)
    {
      UpdateDataGridRow(dataEntry.value.(recipientAccount := name));
    }

    /** The drawer sorts the selection in place before listing it. */
    method SortSelection()
      modifies this`selectionModel
      ensures selectionModel == SortAscending(old(selectionModel))
    {
      selectionModel := SortAscending(selectionModel);
    }

    /**
     * `submitEntryUpdates`, with the corrected refresh: each successful update
     * refreshes the row it updated. The loop reads the changed ids captured
     * when the submission started; the grid refreshes it requests take effect
     * afterwards, in order. Errors are shown only if there are any.
     */
    method SubmitEntryUpdates(responses: nat -> RowResponses)
      modifies this`error, this`lookups, this`mutations, this`gridUpdates, this`dataEntry, this`updatedRowIds
      ensures var run := Async.Run(EditStep(old(updatedRowIds), CopyUpdated, responses), EmptyRun, entries);
        && lookups == old(lookups) + run.queried
        && mutations == old(mutations) + run.issued
        && error == (if run.errors == [] then old(error) else Text.Join(run.errors, "\r\n"))
        && gridUpdates == old(gridUpdates) + run.refreshed
        && dataEntry == (if run.refreshed == [] then old(dataEntry) else Some(run.refreshed[|run.refreshed| - 1]))
        && updatedRowIds == AddAllChanged(old(updatedRowIds), run.refreshed)
    {
      var run, visited := Async.ForEachAsync(entries, EmptyRun, EditStep(updatedRowIds, CopyUpdated, responses));
      lookups := lookups + run.queried;
      mutations := mutations + run.issued;
      if |run.errors| > 0 {
        error := Text.Join(run.errors, "\r\n");
      }

      ApplyRefreshes(run.refreshed);
    }

    /** The grid refreshes a submission requested, applied in order through `updateDataGridRow`. */
    method ApplyRefreshes(rows: seq<GridModelRow>)
      modifies this`gridUpdates, this`dataEntry, this`updatedRowIds
      ensures gridUpdates == old(gridUpdates) + rows
      ensures dataEntry == if rows == [] then old(dataEntry) else Some(rows[|rows| - 1])
      ensures updatedRowIds == AddAllChanged(old(updatedRowIds), rows)
    {
      var k := 0;
      while k < |rows|
        invariant 0 <= k <= |rows|
        invariant gridUpdates == old(gridUpdates) + rows[..k]
        invariant dataEntry == if k == 0 then old(dataEntry) else Some(rows[k - 1])
        invariant updatedRowIds == AddAllChanged(old(updatedRowIds), rows[..k])
      {
        assert rows[..k + 1][..k] == rows[..k];
        UpdateDataGridRow(rows[k]);
        k := k + 1;
      }
      assert rows[..k] == rows;
    }
  }
}
