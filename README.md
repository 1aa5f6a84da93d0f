# Inventory tracker core, modelled in Dafny

The inventory tracker keeps four tables: accounts (donors and recipients), products, data entries (one device each, with a serial number and a life-cycle state) and users. A GraphQL server answers queries and mutations over them. A React client lets a user log in, add a data entry and edit entries shown in a grid.

This project models the server's resolvers and the client workflows that drive them. It proves what they guarantee.

Modules:

- `Wrappers`: `Option` and `Result`.
- `Text`: JavaScript's `indexOf`, `join`, case mapping over a character mapping, and decimal rendering.
- `Async`: the sequential `forEachAsync` helper, which appears in both the server and the edit dialog. It is written once, as a loop over a state-transforming callback. It is specified by `Async.Run`, a fold in index order.
- `Records`: the stored rows and the GraphQL `LifeCycleState` enum with its stored strings.
- `Search`: the case-insensitive prefix match that every `findFirst…`/`findAll…` resolver uses. It also holds the by-key lookup that stands in for `findByPk`.
- `Queries`: the query resolvers, including the grid join `findAllDataEntriesInGridFormat`. A dangling product or account key there ends in a `TypeError`, as the property read on `null` does.
- `Mutations`: the class `Database`. It holds the four tables in insertion order, plus one auto-increment counter per table. Its invariant keeps each table's keys strictly increasing and below its counter. The create, update and delete resolvers are its methods. `deleteUser` builds its message from an undeclared `optionId`, so it raises a `ReferenceError` instead of the not-found error.
- `ClientForms`: the client's form records and Apollo response shapes. It also holds `mapErrors` and the `x || y || -1` key fallback.
- `AddEntry` and `DeleteEntry`: the two "add data entry" dialogs.
  - `AddEntryModal.tsx` keeps one state variable per field.
  - `DeleteEntryModal.tsx` keeps a single `ModalState` record, merged with partial updates.
  - Each submission is specified by a pure `Submit` function, computed from the form and the responses that the create mutations return.
  - A lemma shows that the two dialogs agree whenever every create call returns data.
- `EditEntry`: the edit dialog. It covers the changed-row list and the per-row submission (two account lookups, then one update mutation). It also covers the selection drawer's sort, and the field editors that replace the shown row.
- `Login`, `Quantity` and `Session`: the login page's validation and submit logic, the quantity stepper (including JavaScript's `~~` 32-bit truncation), and the Redux user slice.

Things outside the program are parameters:

- the GraphQL/Apollo responses;
- the clock;
- `toLowerCase`/`toUpperCase`, as a `char -> char` mapping;
- the e-mail regular expression, as a `string -> bool` predicate;
- the result of `parseFloat`.

## Model

| member | source | states |
|---|---|---|
| Text.FoldCase | packages/server/src/resolvers/resolvers.js:42-46 | the mapped string has the same length and maps each character independently |
| Text.IndexOf | packages/server/src/resolvers/resolvers.js:42-46 | `indexOf` returns the first position of the query or -1 when it is absent; it is 0 exactly when the query is a prefix |
| Text.JoinAppend | packages/client/src/pages/home/EditEntryModal.tsx:147 | joining one more part adds the separator and the part (the single part alone when the list was empty) |
| Text.JoinLength | packages/client/src/pages/home/AddEntryModal.tsx:103-104 | a joined string is as long as its parts plus one separator between each pair |
| Async.ForEachAsync | packages/server/src/resolvers/resolvers.js:9-13 | the callback runs once per element in index order (indices 0 … n-1), and the final state is the in-order fold `Run` |
| Records.EnumOf | packages/server/src/resolvers/resolvers.js:16-22 | maps a stored string back to the enum value that stores it, or to nothing when no value stores it |
| Records.StoredValueRoundTrip | packages/server/src/resolvers/resolvers.js:16-22 | each enum value's stored string maps back to it, and no two values share a stored string |
| Search.PrefixMatch | packages/server/src/resolvers/resolvers.js:42-46 | a record matches exactly when the lower-cased query is a prefix of the lower-cased field |
| Search.Matching | packages/server/src/resolvers/resolvers.js:49-65 | the matches are exactly the matching records of the table, never more than the table |
| Search.MatchingAppend | packages/server/src/resolvers/resolvers.js:49-65 | matching distributes over concatenation, so table order is kept |
| Search.EmptyQueryMatchesAll | packages/server/src/resolvers/resolvers.js:49-65 | the empty query returns the whole table |
| Search.FindFirst | packages/server/src/resolvers/resolvers.js:40-48 | `find` returns nothing exactly when no record matches, and otherwise a matching record of the table |
| Search.FindFirstIsEarliest | packages/server/src/resolvers/resolvers.js:40-48 | `find` returns the earliest matching record |
| Search.FindFirstIsHeadOfMatching | packages/server/src/resolvers/resolvers.js:40-65 | the find-first result is the head of the find-all result |
| Search.RunPushIfMatch | packages/server/src/resolvers/resolvers.js:53-62 | pushing each matching record in a `forEachAsync` callback builds exactly `Matching` |
| Search.FindAllMatching | packages/server/src/resolvers/resolvers.js:49-65 | the loop returns exactly the matching records in table order |
| Search.FindByKey | packages/server/src/resolvers/resolvers.js:228-232 | `findByPk` finds nothing exactly when no row has the key, and otherwise a row with that key |
| Search.FindByKeyUnique | packages/server/src/resolvers/resolvers.js:92-99 | with unique keys, looking up a row's key finds that very row |
| Queries.FindFirstAccountMatchName | packages/server/src/resolvers/resolvers.js:40-48 | the first account whose name starts with the query, case-insensitively; nothing when there is none |
| Queries.FindAllAccountsMatchName | packages/server/src/resolvers/resolvers.js:49-65 | all accounts whose name starts with the query, case-insensitively, in table order |
| Queries.FindFirstProductMatchName | packages/server/src/resolvers/resolvers.js:119-127 | the first product whose name starts with the query |
| Queries.FindFirstProductMatchManufacturer | packages/server/src/resolvers/resolvers.js:128-136 | the first product whose manufacturer starts with the query |
| Queries.FindFirstProductMatchModel | packages/server/src/resolvers/resolvers.js:137-145 | the first product whose model starts with the query |
| Queries.FindAllProductsMatchName | packages/server/src/resolvers/resolvers.js:146-162 | all products whose name starts with the query, in table order |
| Queries.FindAllProductsMatchManufacturer | packages/server/src/resolvers/resolvers.js:163-179 | all products whose manufacturer starts with the query, in table order |
| Queries.FindAllProductsMatchModel | packages/server/src/resolvers/resolvers.js:180-196 | all products whose model starts with the query, in table order |
| Queries.FindFirstUserMatchEmail | packages/server/src/resolvers/resolvers.js:198-206 | the first user whose e-mail starts with the query |
| Queries.FindUserUsingLogin | packages/server/src/resolvers/resolvers.js:207-210 | a user with exactly that e-mail and password, or nothing exactly when there is none |
| Queries.GridRowOf | packages/server/src/resolvers/resolvers.js:74-112 | an entry yields a row exactly when each key that is not -1 resolves to a stored product or account |
| Queries.GridRowKeepsEntryFields | packages/server/src/resolvers/resolvers.js:102-112 | the row copies the entry's key, modification time, serial number and life-cycle state |
| Queries.GridRowProductColumns | packages/server/src/resolvers/resolvers.js:79-90 | product key -1 shows `{N/A}` in all three product columns; otherwise the referenced product's fields are shown |
| Queries.GridRowAccountColumns | packages/server/src/resolvers/resolvers.js:82-100 | account key -1 shows `{N/A}`; otherwise the referenced account's name is shown |
| Queries.GridShowsReferencedNames | packages/server/src/resolvers/resolvers.js:92-100 | with unique account keys, the donor and recipient columns show the names of exactly the referenced accounts |
| Queries.RunPushGridRow | packages/server/src/resolvers/resolvers.js:73-114 | the loop yields one row per entry in order, or the `TypeError` when some entry has a dangling key |
| Queries.FindAllDataEntriesInGridFormat | packages/server/src/resolvers/resolvers.js:69-117 | succeeds exactly when every entry resolves, then with one row per entry in order; otherwise it fails with `TypeError` |
| Mutations.PatchAccount | packages/server/src/resolvers/resolvers.js:274-279 | an account update never changes the key; each supplied field, `addressLine2` included, takes the supplied value and each omitted field keeps its old one |
| Mutations.PatchProduct | packages/server/src/resolvers/resolvers.js:248-253 | a product update never changes the key; each supplied field takes the supplied value and each omitted field keeps its old one |
| Mutations.PatchDataEntry | packages/server/src/resolvers/resolvers.js:222-227 | a data-entry update never changes the key; each supplied field (the life-cycle state as its stored string, the time, the three references, the serial number) takes the supplied value and each omitted field keeps its old one |
| Mutations.PatchUser | packages/server/src/resolvers/resolvers.js:299-304 | a user update never changes the key; each supplied field takes the supplied value and each omitted field keeps its old one |
| Mutations.PatchLaws | packages/server/src/resolvers/resolvers.js:222-304 | an empty input changes nothing, and applying the same input twice is the same as once |
| Mutations.IncreasingKeysAreUnique | packages/server/src/model.js:13-16 | strictly increasing keys are unique, which the grid query's lookups rely on |
| Mutations.UpdateWhere | packages/server/src/resolvers/resolvers.js:223 | `update … where key = id` patches exactly the rows with that key and keeps every other row and the order |
| Mutations.UpdateWhereKeepsValid | packages/server/src/resolvers/resolvers.js:222-227 | an update that keeps keys keeps the table's key invariant |
| Mutations.RemoveKey | packages/server/src/resolvers/resolvers.js:233 | removal keeps exactly the rows with another key |
| Mutations.RemoveKeyAt | packages/server/src/resolvers/resolvers.js:228-237 | in a table with increasing keys, deleting a row's key removes that one row and nothing else |
| Mutations.RemoveAbsentKey | packages/server/src/resolvers/resolvers.js:228-232 | removing a key that is not present leaves the table unchanged |
| Mutations.RemoveKeyKeepsValid | packages/server/src/resolvers/resolvers.js:233 | deletion keeps the table's key invariant |
| Mutations.AppendKeepsValid | packages/server/src/resolvers/resolvers.js:214-217 | appending a row keyed by the counter, then bumping the counter, keeps the invariant |
| Mutations.Database.constructor | packages/server/src/model.js:10-79 | a fresh database file, as `sync()` creates it: four empty tables and every counter at 1 |
| Mutations.Database.CreateDataEntry | packages/server/src/resolvers/resolvers.js:213-221 | appends the entry under the next key, bumps the counter, keeps the invariant and reports success |
| Mutations.Database.UpdateDataEntry | packages/server/src/resolvers/resolvers.js:222-227 | patches the entries with that key, keeps the invariant and reports success even when no row matched |
| Mutations.Database.DeleteDataEntry | packages/server/src/resolvers/resolvers.js:228-237 | a missing key throws `Record with entryId <id> was not found.` with the table unchanged; otherwise the row is removed and success is reported |
| Mutations.Database.CreateProduct | packages/server/src/resolvers/resolvers.js:238-247 | appends the product under the next key and returns that key with success |
| Mutations.Database.UpdateProduct | packages/server/src/resolvers/resolvers.js:248-253 | patches the products with that key and reports success |
| Mutations.Database.DeleteProduct | packages/server/src/resolvers/resolvers.js:254-263 | a missing key throws the productId not-found error; otherwise the row is removed |
| Mutations.Database.CreateAccount | packages/server/src/resolvers/resolvers.js:264-273 | appends the account under the next key and returns that key with success |
| Mutations.Database.UpdateAccount | packages/server/src/resolvers/resolvers.js:274-279 | patches the accounts with that key and reports success |
| Mutations.Database.DeleteAccount | packages/server/src/resolvers/resolvers.js:280-289 | a missing key throws the accountId not-found error; otherwise the row is removed |
| Mutations.Database.CreateUser | packages/server/src/resolvers/resolvers.js:290-298 | appends the user under the next key; `isAdministrator` defaults to false |
| Mutations.Database.UpdateUser | packages/server/src/resolvers/resolvers.js:299-304 | patches the users with that key and reports success |
| Mutations.Database.DeleteUser | packages/server/src/resolvers/resolvers.js:305-314 | a missing key raises a `ReferenceError` for `optionId`, with the table unchanged; otherwise the row is removed |
| ClientForms.MapErrorsAppend | packages/client/src/pages/home/AddEntryModal.tsx:103-104 | one more error appends CR LF and its message |
| ClientForms.MapErrorsLength | packages/client/src/pages/home/AddEntryModal.tsx:103-104 | the shown text is the messages plus two characters per separator |
| ClientForms.FallbackId | packages/client/src/pages/home/AddEntryModal.tsx:150-152 | the key sent is the created key if truthy, else the form's key if truthy, else -1; it is never 0 |
| ClientForms.CreatedId | packages/client/src/pages/home/AddEntryModal.tsx:114-118 | a created key is taken exactly from data whose `success` is `'true'`, and it is the key that data carries |
| ClientForms.Rejection | packages/client/src/pages/home/AddEntryModal.tsx:124-129 | errors are reported exactly when data arrived, `success` is not `'true'` and `errors` is present |
| ClientForms.CreatedOrRejected | packages/client/src/pages/home/AddEntryModal.tsx:124-129 | no response both creates and rejects |
| AddEntry.ResolveProduct | packages/client/src/pages/home/AddEntryModal.tsx:111-119 | the product is created exactly when the form has no truthy key; this step never stops the submission |
| AddEntry.ResolveAccount | packages/client/src/pages/home/AddEntryModal.tsx:121-131 | the account is created exactly when the form has no truthy key; the submission stops, showing the mapped errors, exactly when the response rejects |
| AddEntry.SubmitCallOrder | packages/client/src/pages/home/AddEntryModal.tsx:106-166 | at most four calls, in the order product, accounts, entry; the entry comes last and is sent exactly when neither account step stopped |
| AddEntry.SubmitReusesProduct | packages/client/src/pages/home/AddEntryModal.tsx:111-152 | a product form with a truthy key is not created again, and its key is the one sent |
| AddEntry.SubmitReusesAccounts | packages/client/src/pages/home/AddEntryModal.tsx:111-152 | a donor form with a truthy key is not created, nor is a recipient form with one, each independently; their keys are the ones sent |
| AddEntry.SubmitResolvesInOrder | packages/client/src/pages/home/AddEntryModal.tsx:111-143 | product first, then donor, then recipient |
| AddEntry.SubmitStopsOnAccountErrors | packages/client/src/pages/home/AddEntryModal.tsx:121-143 | a rejected donor (or else a rejected recipient) stops the submission with its messages and no entry |
| AddEntry.SubmitFallsBackToSentinel | packages/client/src/pages/home/AddEntryModal.tsx:145-154 | the entry carries the form's state, serial and time; keys are never 0; for the product, the donor and the recipient alike, an unkeyed form sends the newly created key, or -1 when none was created |
| AddEntry.SubmitOutcome | packages/client/src/pages/home/AddEntryModal.tsx:156-165 | success clears the error, returned errors are shown joined, and anything else shows `Unknown error occured` |
| AddEntry.AddEntryModal.constructor | packages/client/src/pages/home/AddEntryModal.tsx:44-82 | empty forms, country `United States`, state `NY`, life-cycle `Pending`, no error |
| AddEntry.AddEntryModal.CreateOrReuseProduct | packages/client/src/pages/home/AddEntryModal.tsx:111-119 | sends the create call and returns the created key exactly as `ResolveProduct` says |
| AddEntry.AddEntryModal.CreateOrReuseAccount | packages/client/src/pages/home/AddEntryModal.tsx:121-143 | sends the create call, returns the key, and stops with the error exactly as `ResolveAccount` says |
| AddEntry.AddEntryModal.SubmitDataEntry | packages/client/src/pages/home/AddEntryModal.tsx:106-166 | the calls sent and the error shown are those of `Submit` |
| DeleteEntry.MergeNoChange | packages/client/src/pages/home/DeleteEntryModal.tsx:108-110 | merging an empty partial state changes nothing |
| DeleteEntry.MergeIdempotent | packages/client/src/pages/home/DeleteEntryModal.tsx:108-110 | merging the same partial state twice is merging it once |
| DeleteEntry.MergeThen | packages/client/src/pages/home/DeleteEntryModal.tsx:108-110 | two merges are one merge of the later-wins combination |
| DeleteEntry.ErrorUpdateKeepsForm | packages/client/src/pages/home/DeleteEntryModal.tsx:112 | `setError` changes only the error |
| DeleteEntry.ResolveProduct | packages/client/src/pages/home/DeleteEntryModal.tsx:123-133 | stops with `Unknown error occured - Product` exactly when a create returns no data |
| DeleteEntry.ResolveAccount | packages/client/src/pages/home/DeleteEntryModal.tsx:135-161 | no data stops with `Unknown error occured - <Donor/Recipient>`; otherwise it behaves as in the other dialog |
| DeleteEntry.SubmitStopsOnMissingData | packages/client/src/pages/home/DeleteEntryModal.tsx:123-161 | a create that returns no data stops the submission before the entry, naming the step |
| DeleteEntry.AgreesWithAddEntry | packages/client/src/pages/home/DeleteEntryModal.tsx:116-187 | when every create call returns data, the two dialogs send the same calls and show the same error, except that the unknown outcome names the data entry |
| DeleteEntry.AddEntryModal.constructor | packages/client/src/pages/home/DeleteEntryModal.tsx:78-94 | starts from the initial modal state with nothing sent |
| DeleteEntry.AddEntryModal.UpdateModalState | packages/client/src/pages/home/DeleteEntryModal.tsx:108-110 | the new state is the old one with the supplied fields replaced |
| DeleteEntry.AddEntryModal.SetError | packages/client/src/pages/home/DeleteEntryModal.tsx:112 | only the error changes |
| DeleteEntry.AddEntryModal.SelectProduct | packages/client/src/pages/home/DeleteEntryModal.tsx:211-222 | stores the chosen product, marks it queried and hides its fields |
| DeleteEntry.AddEntryModal.ProductQueryFailed | packages/client/src/pages/home/DeleteEntryModal.tsx:229-234 | shows the product fields and clears the queried mark |
| DeleteEntry.AddEntryModal.SelectDonor | packages/client/src/pages/home/DeleteEntryModal.tsx:343-354 | stores the chosen donor, marks it queried and hides its fields |
| DeleteEntry.AddEntryModal.DonorQueryFailed | packages/client/src/pages/home/DeleteEntryModal.tsx:361-363 | shows the donor fields and clears the queried mark |
| DeleteEntry.AddEntryModal.SelectRecipient | packages/client/src/pages/home/DeleteEntryModal.tsx:531-542 | stores the chosen recipient, marks it queried and hides its fields |
| DeleteEntry.AddEntryModal.RecipientQueryFailed | packages/client/src/pages/home/DeleteEntryModal.tsx:549-554 | shows the recipient fields and clears the queried mark |
| DeleteEntry.AddEntryModal.CreateOrReuseProduct | packages/client/src/pages/home/DeleteEntryModal.tsx:123-133 | sends, returns and stops exactly as `ResolveProduct` says |
| DeleteEntry.AddEntryModal.CreateOrReuseAccount | packages/client/src/pages/home/DeleteEntryModal.tsx:135-161 | sends, returns and stops exactly as `ResolveAccount` says |
| DeleteEntry.AddEntryModal.CreateEntry | packages/client/src/pages/home/DeleteEntryModal.tsx:163-186 | sends the entry and shows its outcome |
| DeleteEntry.AddEntryModal.SubmitDataEntry | packages/client/src/pages/home/DeleteEntryModal.tsx:116-187 | the calls sent and the error shown are those of `Submit` |
| EditEntry.FindEqual | packages/client/src/pages/home/EditEntryModal.tsx:87 | finds the id exactly when it is listed |
| EditEntry.ChangedIff | packages/client/src/pages/home/EditEntryModal.tsx:87 | a row counts as changed exactly when its id is listed and is not 0, because `find` returns a falsy 0 |
| EditEntry.AddChanged | packages/client/src/pages/home/EditEntryModal.tsx:161-163 | the list grows by at most the new id, loses nothing, and afterwards marks a nonzero id as changed |
| EditEntry.AddChangedKeepsDistinct | packages/client/src/pages/home/EditEntryModal.tsx:161-163 | nonzero ids stay listed once; id 0 is always prepended again |
| EditEntry.AddAllChangedKeepsDistinct | packages/client/src/pages/home/EditEntryModal.tsx:158-164 | after a series of refreshes, every nonzero refreshed id is listed once and no earlier id is lost |
| EditEntry.RowOutcomeOf | packages/client/src/pages/home/EditEntryModal.tsx:86-144 | an unchanged row is skipped; a throwing lookup records its message and stops the row; the update is sent exactly when both keys were found; a failed update records its message; a refresh happens only on success |
| EditEntry.EditRunSizes | packages/client/src/pages/home/EditEntryModal.tsx:86-145 | at most two lookups, one mutation and one error per row, and no more refreshes than mutations |
| EditEntry.RunIsTotal | packages/client/src/pages/home/EditEntryModal.tsx:86-145 | the loop over the grid rows accumulates, in row order, exactly what each row's handling produced |
| EditEntry.IssuedCollects | packages/client/src/pages/home/EditEntryModal.tsx:86-145 | the mutations sent are exactly the ones produced by the rows |
| EditEntry.ErrorsCollect | packages/client/src/pages/home/EditEntryModal.tsx:84-145 | the errors recorded are exactly the ones produced by the rows |
| EditEntry.IssuedOnlyForChangedRows | packages/client/src/pages/home/EditEntryModal.tsx:87-131 | every mutation targets a changed nonzero row and carries two account keys that were found |
| EditEntry.NothingChangedSendsNothing | packages/client/src/pages/home/EditEntryModal.tsx:86-87 | with no changed rows the submission looks nothing up and sends nothing |
| EditEntry.RefreshCopiesSelectedRow | packages/client/src/pages/home/EditEntryModal.tsx:139-143 | as written, with row 1 shown and only row 2 changed, the loop updates row 2 but refreshes row 1 |
| EditEntry.IntendedRowRefresh | packages/client/src/pages/home/EditEntryModal.tsx:139-143 | refreshing from the updated row gives that row with the new time, exactly when its update succeeded |
| EditEntry.IntendedRefreshesUpdatedRows | packages/client/src/pages/home/EditEntryModal.tsx:139-143 | with the corrected refresh, the rows refreshed are exactly the rows whose update succeeded, each with its new time |
| EditEntry.ReadAsWritten | packages/client/src/pages/home/EditEntryModal.tsx:133-137 | as written, the field the success test reads is never in the reply, whatever the server sends |
| EditEntry.ReadIntended | packages/client/src/pages/home/EditEntryModal.tsx:133-137 | as intended, the test sees the payload exactly when the server replied, with the server's `success` string |
| EditEntry.SuccessfulUpdateReportedAsFailed | packages/client/src/pages/home/EditEntryModal.tsx:124-143 | as written, a changed row with both accounts found and a server reply of `'true'` still sends its update, records `Error updating entry`, and refreshes nothing |
| EditEntry.AsWrittenReadRefreshesNothing | packages/client/src/pages/home/EditEntryModal.tsx:133-143 | as written, whatever the server replies, the loop refreshes no row |
| EditEntry.AsWrittenReadReportsEveryUpdate | packages/client/src/pages/home/EditEntryModal.tsx:133-138 | as written, every row whose update was sent records its update error |
| EditEntry.IntendedReadReportsServerOutcome | packages/client/src/pages/home/EditEntryModal.tsx:133-143 | as intended, a sent update reports an error exactly when the server did not answer `'true'`, and a `'true'` answer refreshes the updated row with its new time |
| EditEntry.SortAscending | packages/client/src/pages/home/EditEntryModal.tsx:204-207 | the drawer's ids come out sorted ascending and are a permutation of the selection |
| EditEntry.EditEntryModal.constructor | packages/client/src/pages/home/EditEntryModal.tsx:66-74 | no error, no shown row and no changed ids |
| EditEntry.EditEntryModal.SelectDataGridRow | packages/client/src/pages/home/EditEntryModal.tsx:150-156 | a truthy id that names a row shows that row (the first with that id); anything else changes nothing |
| EditEntry.EditEntryModal.SelectInitialRow | packages/client/src/pages/home/EditEntryModal.tsx:166 | with no shown row, the first selected id is shown; an existing shown row is kept |
| EditEntry.EditEntryModal.UpdateDataGridRow | packages/client/src/pages/home/EditEntryModal.tsx:158-164 | passes the row to the grid, shows it, and records its id as changed |
| EditEntry.EditEntryModal.EditLifeCycleState | packages/client/src/pages/home/EditEntryModal.tsx:247-253 | refreshes the shown row with the new life-cycle state |
| EditEntry.EditEntryModal.EditSerialNumber | packages/client/src/pages/home/EditEntryModal.tsx:272-277 | refreshes the shown row with the upper-cased serial number |
| EditEntry.EditEntryModal.EditDonorAccount | packages/client/src/pages/home/EditEntryModal.tsx:293-297 | refreshes the shown row with the chosen donor name |
| EditEntry.EditEntryModal.EditRecipientAccount | packages/client/src/pages/home/EditEntryModal.tsx:314-318 | refreshes the shown row with the chosen recipient name |
| EditEntry.EditEntryModal.SortSelection | packages/client/src/pages/home/EditEntryModal.tsx:204-207 | the selection is sorted in place, ascending |
| EditEntry.EditEntryModal.ApplyRefreshes | packages/client/src/pages/home/EditEntryModal.tsx:158-164 | each requested refresh goes to the grid in order, the last one is shown, and every refreshed id is recorded as changed |
| EditEntry.EditEntryModal.SubmitEntryUpdates | packages/client/src/pages/home/EditEntryModal.tsx:83-148 | lookups, mutations and refreshes are those of the row-by-row run with the corrected refresh; the errors are shown joined by CR LF only when there are some |
| Login.ValidateEmail | packages/client/src/pages/login/index.tsx:26-29 | shorter than 6 characters is invalid; otherwise valid exactly when the regular expression matches |
| Login.ValidatePassword | packages/client/src/pages/login/index.tsx:31-34 | valid exactly when it has at least 8 characters |
| Login.SubmitCheck | packages/client/src/pages/login/index.tsx:62-67 | the login request is made exactly when both checks pass; the e-mail error takes precedence over the password error |
| Login.EmailCheckedFirst | packages/client/src/pages/login/index.tsx:63-64 | with an invalid e-mail, the password plays no part |
| Login.FailureMessage | packages/client/src/pages/login/index.tsx:71 | a non-empty server message is shown as is, and otherwise `Invalid credentials` |
| Login.LoginPage.constructor | packages/client/src/pages/login/index.tsx:41-45 | empty fields, no error, not loading |
| Login.LoginPage.SetErrClrPasswd | packages/client/src/pages/login/index.tsx:55-58 | shows the message and clears the password |
| Login.LoginPage.LoginSubmit | packages/client/src/pages/login/index.tsx:62-77 | an invalid field shows its error and clears the password; otherwise one request is sent and loading starts |
| Login.LoginPage.LoginSettled | packages/client/src/pages/login/index.tsx:69-74 | a settled failure shows the message, clears the password and stops loading; anything else changes nothing |
| Quantity.AddStep | packages/client/src/components/QuantityField.tsx:32 | one more below the maximum; the maximum itself at or above it |
| Quantity.RemoveStep | packages/client/src/components/QuantityField.tsx:49 | one less above 0; 0 itself at or below it |
| Quantity.StepsStayInRange | packages/client/src/components/QuantityField.tsx:30-50 | from a quantity in range, both buttons keep it in range |
| Quantity.AddLowersTypedExcess | packages/client/src/components/QuantityField.tsx:30-44 | a typed quantity above the maximum drops to the maximum on the next add |
| Quantity.ToInt32 | packages/client/src/components/QuantityField.tsx:41 | `~~` gives the 32-bit two's-complement value congruent to its input, and changes nothing in range |
| Quantity.TypedQuantity | packages/client/src/components/QuantityField.tsx:39-41 | `NaN` and infinities become 0; every result is a 32-bit integer |
| Quantity.QuantityField.constructor | packages/client/src/components/QuantityField.tsx:19-21 | starts at 0 with nothing reported |
| Quantity.QuantityField.AddEnabled | packages/client/src/components/QuantityField.tsx:31 | add is enabled exactly when the field is enabled and not at the maximum |
| Quantity.QuantityField.RemoveEnabled | packages/client/src/components/QuantityField.tsx:48 | remove is enabled exactly when the field is enabled and not at 0 |
| Quantity.QuantityField.UpdateQuantity | packages/client/src/components/QuantityField.tsx:23-26 | reports the desired quantity and stores it |
| Quantity.QuantityField.AddClicked | packages/client/src/components/QuantityField.tsx:30-33 | stores and reports `AddStep`, keeping an in-range quantity in range |
| Quantity.QuantityField.RemoveClicked | packages/client/src/components/QuantityField.tsx:47-50 | stores and reports `RemoveStep`, keeping an in-range quantity in range |
| Quantity.QuantityField.Typed | packages/client/src/components/QuantityField.tsx:38-44 | stores and reports the truncated typed number |
| Session.AfterLogin | packages/client/src/state/user.ts:12-14 | the session holds exactly the payload |
| Session.AfterLogout | packages/client/src/state/user.ts:15-17 | the session is empty |
| Session.SessionLaws | packages/client/src/state/user.ts:4-17 | logout is idempotent, logout after login is the initial state, and the last login wins |
| Session.UserSlice.constructor | packages/client/src/state/user.ts:4 | no one is logged in |
| Session.UserSlice.Login | packages/client/src/state/user.ts:12-14 | the state becomes `AfterLogin` |
| Session.UserSlice.Logout | packages/client/src/state/user.ts:15-17 | the state becomes `AfterLogout` |

## Left out

- Queries.FindAllProductsMatchModel: `resolvers.js:184` does not await its `forEachAsync`, so which matches are in the array when the result is read depends on how JavaScript interleaves microtasks. The model returns every match, as the sibling resolvers do.
- The resolvers at `resolvers.js:24-38` (`findAll…`, `find…ById`) are direct calls into the database library. Each query takes the `findAll()` result as a parameter, and `findByPk` is `Search.FindByKey`.
- Queries.FindFirstProductMatchManufacturer: the schema declares the argument as `productName` (packages/server/src/typeDefs/typeDefs.js:32), but the resolver destructures `manufacturer` (resolvers.js:128). Through the API that variable is therefore always undefined. `manufacturer.toLowerCase()` throws a TypeError on any non-empty table, and an empty table gives null. The model takes `manufacturer` as the body destructures it, so it states what the body does with a defined query.
- Queries.FindAllProductsMatchManufacturer: the same argument mismatch (typeDefs.js:28 against resolvers.js:163). Through the API it throws a TypeError on any non-empty table and returns [] on an empty one. The model takes `manufacturer` as the body destructures it.
- Mutations.Database.constructor: models only a fresh database file. `model.js:3` opens `./data/mock-db.sqlite` and `model.js:79` calls `sync()` without `force`, so an existing file keeps its rows and its auto-increment sequences. Starting from such a file is an arbitrary `Valid()` state. Every operation requires only `Valid()` and keeps it, but no member builds that state.
- Mutations.Database.CreateDataEntry: the `complete: false` spread is ignored, because none of the four tables has that column. The same holds for CreateProduct, CreateAccount and CreateUser.
- Column types, lengths and `allowNull` checks done by the database are not modelled. Neither is the `DateTime` scalar; times are integers.
- Login.ValidateEmail: the e-mail regular expression is a `matchesRegex` parameter, and `toLowerCase`/`toUpperCase` are character mappings. Locale-dependent case mapping that changes length is not captured.
- Quantity.Typed: `parseFloat` is an input (`Parsed`), not modelled from the text.
- String lengths are counted in characters, not UTF-16 code units.
- The client's `setTimeout(…, 0)` deferrals are not modelled as delays. They run in order; in particular the login page's cleared password is applied at once.
- `alert`, rendering, labels, visibility effects (`useEffect`), navigation, the "remember me" box and the `Router`/`Loading` components are left out.
- Rejected mutation or query promises are left out, except the edit dialog's lookups, whose `try`/`catch` is modelled. In the add dialogs an exception simply propagates.
- The `!product`, `!donor` and `!recipient` branches of the add dialogs are left out, because those state variables are never undefined.
- EditEntry.EditEntryModal.SubmitEntryUpdates: it uses the corrected refresh described under Findings. The as-written callback is `EditStep` with `CopyShown`. The loop reads the changed ids as captured when the submission started, as the component's closure does. The grid refreshes it requests are applied after the loop, in order. In the as-written callback, when no row is shown, the refresh of `{ ...undefined }` is not pushed. Its `RowResponses.update` oracle is the reply as the intended reading sees it (`ReadIntended`). As written the payload is never there (`ReadAsWritten`; see Findings), so as written only `NoData` and `NoPayload` occur. The `Payload` case the oracle admits is what the corrected dialog reads.
- EditEntry.EditEntryModal.EditLifeCycleState: the four field editors require a shown row, because the drawer renders them only then. The same holds for EditSerialNumber, EditDonorAccount and EditRecipientAccount.

## Findings

| source | as written | input that shows it | evidently intended | confidence | as-written member | corrected member |
|---|---|---|---|---|---|---|
| packages/client/src/pages/home/EditEntryModal.tsx:140-142 | after a successful update, the grid is refreshed with a copy of the currently shown row `dataEntry` | once lines 135-136 read `updateDataEntry` (next row): rows 1 and 2 in the grid, row 1 shown, only row 2 changed, both lookups and the update succeed; row 1 is refreshed and row 2 is not | refresh a copy of the row just updated (`entry`), with its new modification time | not executed | EditEntry.RefreshCopiesSelectedRow | EditEntry.IntendedRefreshesUpdatedRows |
| packages/client/src/pages/home/EditEntryModal.tsx:133-137 | the success test reads `data.createDataEntry`, but the `UpdateDataEntry` document (packages/client/src/modules/entries/mutations.ts:24-30) selects only `updateDataEntry { success }`, so that field is always missing | row 2 changed, both accounts found, the server applies the update and answers `success: 'true'`: the dialog records `Error updating entry ID="2"` and refreshes nothing; this masks the line-140 defect | read `data.updateDataEntry.success` | not executed | EditEntry.AsWrittenReadRefreshesNothing | EditEntry.IntendedReadReportsServerOutcome |
