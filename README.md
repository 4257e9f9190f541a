# Cumulus dashboard: decision code of the granule, execution and collection views

This project models, in Dafny, the small pieces of decision logic inside the operations
dashboard's view code, and proves what they promise:

- **Granule bulk actions** (`Granules`, granules.js). The confirmation message of each bulk
  action for a selection of `d` granules, with singular/plural wording. The rewrite of the
  current path to the base of a collection's granule list (`determineCollectionsBase`). Where
  the completion dialog's confirm button navigates (`setOnConfirm`), modelled as data: a no-op,
  or a redirect whose effects are a history push and then, when `closeModal` is a function, a
  call to it. The options the reingest dialog gets at each step (`granuleModalJourney`). The
  "selection contains published granules" guard, and the bulk action list in which that
  guard switches the Delete entry.
- **Execution status page** (`ExecutionStatusView`, execution-status.js). A class with the two
  dialog flags that `openModal`/`closeModal` set and clear, keyed by a type string. The
  requests issued on mount. The Logs link, which goes to Kibana or to the internal logs route.
  The guard that renders nothing until the execution is in the store.
- **Collection edit page** (`CollectionEdit`, collections/edit.js). A class with the editor
  text, the error, the props (route name and the `collectionDetail` cache) and the list of
  dispatched fetches. A fetch happens only when nothing is cached. A route change fetches the
  new collection and touches nothing else. An unchanged route refreshes the text when it is
  empty or when the cached record names another collection.
- **Providers reducer** (`ProvidersReducer`). The UPDATE_PROVIDER transition: what the
  reducer's test asserts from the initial state, over an assumed plain key-update body.

`Js` holds the JavaScript semantics these rely on. Truthiness of an optional string.
The decimal text of a count, with its reading back. `includes` and the leftmost match of a
non-global regular expression. Where a regular expression's `.*` stops.

Behaviour of the code that the model keeps, although a reader might not expect it:

- `determineCollectionsBase` tests `includes('granules')` but rewrites only `/granules…`. So a
  path that holds `granules` but never `/granules` comes back unchanged. The regular
  expression's `.` does not match line terminators, so text from the first line terminator
  after the match is kept.
- With nothing selected and no error, the single-granule redirect is
  `/granules/granule/undefined`.
- `granuleModalJourney` passes `errorMessage`, not `error`, to `setOnConfirm`. The handler
  therefore always sees no error. Nothing changes because of this: the handler is only built
  when there is no error message.
- On a route change, the collection page's `get(newName)` checks the old props' cache. React
  replaces `this.props` only after the hook returns.
- When the text is truthy and the record is missing, `record.data` throws a TypeError out of
  `componentWillReceiveProps`. The model reports this as `ThrewTypeError` and then keeps the
  old props. When the text is empty and the record is missing, the same TypeError is thrown
  inside the `try` and caught.
- An error recorded in the `catch` is overwritten with `null` by the next `setState`. After a
  refresh the error is therefore always `null`.

## Model

| member | source | states |
|---|---|---|
| Js.Decimal | app/src/js/utils/table-config/granules.js:179 | the count as a template literal shows it: non-empty, digits only, no leading zero |
| Js.DecimalRoundTrip | app/src/js/utils/table-config/granules.js:179 | reading the rendered count back gives the count |
| Granules.ConfirmRecover | app/src/js/utils/table-config/granules.js:170 | no ensures of its own: its meaning is given by CountIndependentWording (the fixed " granule(s)?" ending) and RecoverShowsCount (the count is readable back) |
| Granules.ConfirmReingest | app/src/js/utils/table-config/granules.js:179 | no ensures of its own: PluralExactlyAboveOne, SingularForOnePluralForTwo and ReingestShowsCount give its wording and count |
| Granules.ConfirmApply | app/src/js/utils/table-config/granules.js:180 | no ensures of its own: PluralExactlyAboveOne, SingularForOnePluralForTwo and ApplyShowsCount give its wording and count |
| Granules.ConfirmRemove | app/src/js/utils/table-config/granules.js:181 | no ensures of its own: PluralExactlyAboveOne, SingularForOnePluralForTwo and RemoveShowsCount give its wording and count, for any locale |
| Granules.ConfirmDelete | app/src/js/utils/table-config/granules.js:182 | no ensures of its own: PluralExactlyAboveOne, SingularForOnePluralForTwo and DeleteShowsCount give its wording and count |
| Granules.ConfirmRemoveFromCmr | app/src/js/utils/table-config/granules.js:183 | no ensures of its own: CountIndependentWording states it is the same text for every argument |
| Granules.PluralExactlyAboveOne | app/src/js/utils/table-config/granules.js:179-182 | reingest, apply, remove and delete messages say "granules"/"Granules" exactly when d > 1 and the singular exactly when d <= 1 |
| Granules.SingularForOnePluralForTwo | app/src/js/utils/table-config/granules.js:179-182 | the exact messages for d = 1 (singular) and d = 2 (plural) |
| Granules.CountIndependentWording | app/src/js/utils/table-config/granules.js:170-183 | the recover message ends in " granule(s)?" for every count; the remove-from-CMR message is the same for every argument |
| Granules.RecoverShowsCount | app/src/js/utils/table-config/granules.js:170 | different counts give different recover messages |
| Granules.ReingestShowsCount | app/src/js/utils/table-config/granules.js:179 | different counts give different reingest messages |
| Granules.ApplyShowsCount | app/src/js/utils/table-config/granules.js:180 | different counts give different run-workflow messages |
| Granules.RemoveShowsCount | app/src/js/utils/table-config/granules.js:181 | different counts give different remove messages |
| Granules.DeleteShowsCount | app/src/js/utils/table-config/granules.js:182 | different counts give different delete messages |
| Granules.DetermineCollectionsBase | app/src/js/utils/table-config/granules.js:189-194 | no ensures of its own: the case lemmas BaseCutsAtFirstSlashGranules, BaseAppendsWithoutGranules and BaseKeepsBareGranules, and BaseIdempotent, give its meaning |
| Granules.BaseCutsAtFirstSlashGranules | app/src/js/utils/table-config/granules.js:189-194 | a path holding `/granules` becomes what precedes its first occurrence plus `/granules` (plus any text from a line terminator on) |
| Granules.BaseAppendsWithoutGranules | app/src/js/utils/table-config/granules.js:189-194 | a path without `granules` gets `/granules` appended |
| Granules.BaseKeepsBareGranules | app/src/js/utils/table-config/granules.js:189-194 | a path holding `granules` but no `/granules` is returned unchanged |
| Granules.BaseIdempotent | app/src/js/utils/table-config/granules.js:189-194 | applying the rewrite to its own result returns that result |
| Granules.GranulePageExample | app/src/js/utils/table-config/granules.js:189-194 | `/granules/granule/abc` gives `/granules` |
| Granules.CollectionsPageExample | app/src/js/utils/table-config/granules.js:189-194 | `/collections` gives `/collections/granules` |
| Granules.BareGranulesExample | app/src/js/utils/table-config/granules.js:189-194 | `granules` and `mygranules/x` come back unchanged |
| Granules.RunOnConfirm | app/src/js/utils/table-config/granules.js:213-216 | a no-op has no effects; a redirect pushes its target exactly once, first, and then calls closeModal exactly when it is a function (two effects then, one otherwise) |
| Granules.SetOnConfirm | app/src/js/utils/table-config/granules.js:212-223 | no-op exactly when the error is truthy; otherwise base + `/processing` for more than one selected granule, else `/granules/granule/<first>` |
| Granules.GranuleModalJourney | app/src/js/utils/table-config/granules.js:225-256 | size always 'lg'; initial entry sets only the confirm content; confirm step alone sets nothing; completion sets complete content, hasConfirmButton = !errorMessage, cancel text 'Close'; without error also 'View Running'/'View Granule', button classes and the redirect handler |
| Granules.ConfirmLabelMatchesDestination | app/src/js/utils/table-config/granules.js:248-252 | "View Granule" pushes that granule's page, "View Running" the processing overview of the base path |
| Granules.PublishedRows | app/src/js/utils/table-config/granules.js:262 | the filter keeps every row whose published is true, each as often as it occurs in the selection, and no other row |
| Granules.ContainsPublishedGranules | app/src/js/utils/table-config/granules.js:258-270 | no ensures of its own: ContainsPublishedExactly states when it holds |
| Granules.ContainsPublishedExactly | app/src/js/utils/table-config/granules.js:258-270 | the guard holds exactly for a non-empty array with a row whose published is true |
| Granules.RecoverAction | app/src/js/utils/table-config/granules.js:171-177 | the recover entry's text, config action, slice, clear-error action and message generator; no confirm options and no dialog hook |
| Granules.ReingestAction | app/src/js/utils/table-config/granules.js:272-280 | the reingest entry's text, action, slice, clear-error action, message, class and dialog hook; no confirm options |
| Granules.BulkActions | app/src/js/utils/table-config/granules.js:282-324 | six entries in order; Execute and remove-from-CMR given field by field (slice, clear-error action, class, Execute's confirm options); Delete uses removeAndDeleteGranule with the remove-from-CMR message exactly when the guard holds, else deleteGranule with confirmDelete |
| Granules.OnlyDeleteDependsOnSelection | app/src/js/utils/table-config/granules.js:282-324 | the first five entries, and Delete apart from its action and message, are the same for every selection |
| Granules.DeleteMessageForSelection | app/src/js/utils/table-config/granules.js:317-323 | the Delete entry's message is the remove-from-CMR text when the guard holds and the delete count message otherwise |
| ExecutionStatusView.Open | app/src/js/components/Executions/execution-status.js:37-48 | 'input' sets only showInputModal, 'output' only showOutputModal, any other type neither |
| ExecutionStatusView.Close | app/src/js/components/Executions/execution-status.js:50-61 | clears only the flag named by the type; any other type clears neither |
| ExecutionStatusView.UnknownTypeChangesNothing | app/src/js/components/Executions/execution-status.js:37-61 | another type string leaves both flags unchanged for open and close |
| ExecutionStatusView.OpenCloseIdempotent | app/src/js/components/Executions/execution-status.js:37-61 | opening twice equals opening once; closing twice equals closing once |
| ExecutionStatusView.CloseAfterOpen | app/src/js/components/Executions/execution-status.js:37-61 | close after open of the same type makes that flag false and keeps the other |
| ExecutionStatusView.DifferentTypesCommute | app/src/js/components/Executions/execution-status.js:37-61 | operations on different types commute |
| ExecutionStatusView.LogsTarget | app/src/js/components/Executions/execution-status.js:211-233 | the Kibana link exactly when it is a non-empty string, else the route `/executions/execution/<arn>/logs` titled `<arn>/logs` |
| ExecutionStatusView.MatchLogsRoute | app/src/js/components/Executions/index.js:35 | a pathname in the link's canonical form (exact, case-sensitive) is rebuilt by its one non-empty, slash-free segment |
| ExecutionStatusView.LogsLinkReachesLogsRoute | app/src/js/components/Executions/execution-status.js:222-233 | the internal logs link matches the logs route for the same execution |
| ExecutionStatusView.ExecutionStatus.constructor | app/src/js/components/Executions/execution-status.js:20-28 | both dialog flags start false |
| ExecutionStatusView.ExecutionStatus.ComponentDidMount | app/src/js/components/Executions/execution-status.js:30-35 | dispatches the execution's status request, then the instance metadata request |
| ExecutionStatusView.ExecutionStatus.OpenModal | app/src/js/components/Executions/execution-status.js:37-48 | the new flags are Open of the old flags |
| ExecutionStatusView.ExecutionStatus.CloseModal | app/src/js/components/Executions/execution-status.js:50-61 | the new flags are Close of the old flags |
| ExecutionStatusView.ExecutionStatus.Render | app/src/js/components/Executions/execution-status.js:63-245 | nothing exactly when the execution is absent; otherwise the heading, the Logs target and the dialog flags |
| ExecutionStatusView.OpenAndCloseInput | app/src/js/components/Executions/execution-status.js:37-61 | a fresh page shows no dialog again after "Show Input" and close |
| CollectionEdit.Lookup | app/scripts/components/collections/edit.js:25-28 | a record exactly when the name is cached with a non-null entry |
| CollectionEdit.RefreshWanted | app/scripts/components/collections/edit.js:48-49 | refresh exactly when the text is falsy or the cached data names another collection; a TypeError exactly when the text is truthy and the record missing |
| CollectionEdit.RefreshedText | app/scripts/components/collections/edit.js:51-55 | the new text is the serialiser's text, and undefined when it gave undefined, threw, or the record was missing |
| CollectionEdit.Refresh | app/scripts/components/collections/edit.js:48-57 | a TypeError leaves the state as it was; a wanted refresh sets the serialised text and a null error; otherwise nothing changes |
| CollectionEdit.RefreshClearsError | app/scripts/components/collections/edit.js:51-56 | after a refresh the error is null even when serialisation threw |
| CollectionEdit.RefreshConditions | app/scripts/components/collections/edit.js:49 | an empty text always refreshes; a truthy one only for data naming another collection, never for a record without data |
| CollectionEdit.RefreshSettles | app/scripts/components/collections/edit.js:48-57 | once a record naming this collection has been delivered, receiving it again changes nothing, whatever the serialiser gives |
| CollectionEdit.EditCollection.constructor | app/scripts/components/collections/edit.js:18-23 | an empty text and a null error, no fetch yet |
| CollectionEdit.EditCollection.CachedRecord | app/scripts/components/collections/edit.js:25-28 | a record exactly when the name is cached with a non-null entry, and then that entry |
| CollectionEdit.EditCollection.Get | app/scripts/components/collections/edit.js:30-34 | one fetch of the name exactly when nothing is cached for it |
| CollectionEdit.EditCollection.ComponentWillMount | app/scripts/components/collections/edit.js:36-39 | get for the route's collection name |
| CollectionEdit.EditCollection.ComponentWillReceiveProps | app/scripts/components/collections/edit.js:41-58 | a new name: get against the old cache, text and error untouched; the same name: the state and outcome of Refresh on the new props' record, no fetch |
| CollectionEdit.EditCollection.OnChange | app/scripts/components/collections/edit.js:60-62 | changes nothing |
| CollectionEdit.EditCollection.OnSubmit | app/scripts/components/collections/edit.js:64-66 | changes nothing |
| CollectionEdit.EditCollection.Render | app/scripts/components/collections/edit.js:68-96 | an empty element exactly when no record is cached; otherwise the editor labelled "Edit <name>" with the text and error |
| CollectionEdit.MountUncached | app/scripts/components/collections/edit.js:36-39 | mounting on an uncached name fetches it once, renders empty and keeps the initial state |
| ProvidersReducer.Reduce | test/reducers/providers.js:8-22 | from the initial state, `map` is exactly {id: {data}} and `updated` exactly {id: {status: 'success'}}; for the assumed key-update body also: the rest of the state is unchanged and no key other than id is added |
| ProvidersReducer.UpdateProviderFromInitialState | test/reducers/providers.js:8-22 | the test's expected state equals the reducer's result |

## Left out

- Rendering in every file: the table column definitions, `executeDialog`, `simpleDropdownOption`, the granule inventory and bulk components, and the `Metadata`/`DefaultModal` markup. This is presentation built on components and formatters that are not part of this model.
- `JSON.parse`/`JSON.stringify`/`parseJson`: the async operation id, the parent execution link, the Input/Output cells and `defaultWorkflowMeta`. The collection editor's serialiser is a function parameter (`serialise`). The serialisation of a caught TypeError is the constant `{}`, and it is overwritten at once.
- `Blob` and `window.URL.createObjectURL` (the output download link): browser calls.
- `kibanaExecutionLink`: its result is an input of `LogsTarget`.
- `historyPushWithQueryParams` and `getPersistentQueryParams`: the push is an `Effect`, and the query parameters it carries over are not modelled.
- Redux `dispatch`, the action creators, `connect` and `withRouter`. Dispatched requests are recorded as data (`fetched`, `dispatched`). The store slices, config actions and clear-error actions an entry names are enumerations.
- Locale strings: `strings.cmr` and `strings.remove_from_cmr` are inputs (`Locale`).
- `granuleModalJourney`'s `history`: only `history.location.pathname` is used, and it is an input. A missing `history` would throw; this is not modelled.
- `selected = []`, the hook's default for a missing selection: the model always takes a selection.
- `published === true`: every non-boolean value is modelled as absent, because none of them is `=== true`. A `null` or `undefined` element of the selection, on which the filter throws a TypeError, cannot be expressed by `GranuleRow`; that error is not modelled.
- The providers reducer's other actions, and its behaviour beyond what the test asserts. The reducer's source is not part of this model.
- ProvidersReducer.Reduce: the test pins only the result from the initial state. The model assumes a plain key-update body over an initial state whose two tables are empty; the test overwrites `map` and `updated` whatever the initial state holds, so that emptiness is not pinned by it. The second and third ensures (the rest unchanged, no key other than id added, for every state) are properties of that assumed body, not of anything the test checks, and the contract says nothing more about states other than the initial one.
- Js.Decimal: renders an unbounded `nat`. A JavaScript count is a double, which `${d}` prints as plain digits only below 10^21 (exponent form above) and which loses precision past 2^53; neither is modelled. Strings are sequences of Unicode scalar values, not UTF-16 code units as in JavaScript; for these paths this makes no difference, because every pattern searched for is ASCII.
- The polling on the home page, the fake backend, the route tables (apart from the canonical logs route `MatchLogsRoute` states), the provider edit wiring and the end-to-end tests: these are timers, HTTP I/O and framework plumbing, not decision code.
