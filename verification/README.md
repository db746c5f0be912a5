# Confectionary app, modelled in Dafny

This project models the logic of a small confectionary catalogue:

- an Ionic/React client that keeps working offline;
- two Koa REST servers;
- the client's login session.

It covers five parts.

- **Reducer** (`reducer.dfy`, module `Reducer`). The client's record store and its reducer. Twelve action types act on the list, the flags and the offline count.
- **Offline engine** (`offline_sync.dfy`, module `OfflineSync`). The class `ConfectionaryProvider` holds three things:
  - the reducer state;
  - Capacitor Preferences, as a map from key to stored list;
  - the session token.

  Its methods cover saving online or buffering a record offline, buffering a delete, and deleting a local-only record. They also cover the live delete, the list fetch with its cancel flag, and the web-socket message handler. `SyncOfflineItems` replays both persisted logs (`offlineDeletes`, then `offlineItems`) when connectivity returns. Each replay loop is proved against a recursive specification function. Lemmas then prove what the source promises about those functions.
- **List screen** (`list_view.dfy`, module `ListView`). Search and rating filtering, plus infinite scrolling four records at a time. The class `PagedList` holds the screen's paging state.
- **Session** (`auth_session.dfy`, module `AuthSession`). The class `AuthProvider` covers the login flow, logout, restoring the token on mount, and synchronising the token across tabs through local storage.
- **Unauthenticated server** (`rest_server.dfy`, module `RestServer`). The class `ConfectionaryServer` holds the in-memory list and `lastId`. With ids modelled as unbounded naturals, it proves that ids stay unique: every id is the decimal numeral of a strictly increasing number.
- **Authenticated server** (`owner_routes.dfy`, module `OwnerRoutes`). The nedb datastore is modelled as a map from `_id` to document (`ConfectionaryStore`). The route handlers decide ownership and status codes.

Helper modules:

- `Common` holds `Option`, `Truthy` (a present, non-empty string) and `OrEmpty` (`xs || []`).
- `Seqs` holds an order-preserving `Filter`, which models `Array.prototype.filter`, with its lemmas.

Server replies, connectivity checks, `Date.now()`, `new Date()`, identifiers generated by nedb, and `localStorage` are all inputs or fields.

## Model

| member | source | states |
|---|---|---|
| Reducer.Reduce | my-ionic-app/myApp/src/confectionary/ConfectionaryProvider.tsx:60-108 | Only the five list actions (fetch succeeded, save succeeded, delete succeeded, offline save, local removal) change the list. Only UPDATE_OFFLINE_COUNT changes the count, to its payload. An unknown action returns the state unchanged. |
| Reducer.ReduceInventsNothing | my-ionic-app/myApp/src/confectionary/ConfectionaryProvider.tsx:60-108 | Every record in the list after any action was already in the list, or came with the action: the fetched list, the saved record or the buffered record. |
| Reducer.FindIndex | my-ionic-app/myApp/src/confectionary/ConfectionaryProvider.tsx:75 | The result is the first position whose `_id` equals the key, or -1 exactly when no position holds it. Two absent ids count as equal. |
| Reducer.Upsert | my-ionic-app/myApp/src/confectionary/ConfectionaryProvider.tsx:72-81 | SAVE_SUCCEEDED keeps the list's length or grows it by exactly one. |
| Reducer.UpsertMembers | my-ionic-app/myApp/src/confectionary/ConfectionaryProvider.tsx:72-81 | After an upsert the saved record is present. Every record was there before or is the saved one. Every record with a different `_id` survives. |
| Reducer.SaveSucceededUpserts | my-ionic-app/myApp/src/confectionary/ConfectionaryProvider.tsx:72-81 | With no record of the same `_id`, SAVE_SUCCEEDED prepends the record. Otherwise it overwrites the first match in place: same length, other positions untouched, `saving` cleared, nothing else changed. |
| Reducer.UpsertIdempotent | my-ionic-app/myApp/src/confectionary/ConfectionaryProvider.tsx:72-81 | Upserting the same record twice gives the same list as upserting it once. |
| Reducer.SaveSucceededIdempotent | my-ionic-app/myApp/src/confectionary/ConfectionaryProvider.tsx:444-446 | A duplicated created/updated event leaves the state exactly as the first one did. |
| Reducer.DeleteSucceededRemovesExactly | my-ionic-app/myApp/src/confectionary/ConfectionaryProvider.tsx:86-89 | DELETE_SUCCEEDED keeps a record if and only if it was present and has a different `_id`. It clears `deleting`. An id that is not in the list leaves the list unchanged. |
| Reducer.DeleteSucceededKeepsCounts | my-ionic-app/myApp/src/confectionary/ConfectionaryProvider.tsx:86-89 | Every record with a different `_id` survives DELETE_SUCCEEDED exactly as many times as it occurred. |
| Reducer.WithoutIdKeepsOrder | my-ionic-app/myApp/src/confectionary/ConfectionaryProvider.tsx:89 | Removing by `_id` distributes over concatenation, so survivors keep their relative order. |
| Reducer.RemoveLocalItemRemovesExactly | my-ionic-app/myApp/src/confectionary/ConfectionaryProvider.tsx:99-103 | REMOVE_LOCAL_ITEM keeps a record if and only if it was present and has a different `localId`. An absent `localId` leaves the list unchanged. |
| Reducer.RemoveLocalItemKeepsCounts | my-ionic-app/myApp/src/confectionary/ConfectionaryProvider.tsx:99-103 | Every record with a different `localId` survives REMOVE_LOCAL_ITEM exactly as many times as it occurred. |
| Reducer.WithoutLocalIdKeepsOrder | my-ionic-app/myApp/src/confectionary/ConfectionaryProvider.tsx:102 | Removing by `localId` keeps the survivors' relative order. |
| Reducer.SaveOfflineAppends | my-ionic-app/myApp/src/confectionary/ConfectionaryProvider.tsx:92-106 | SAVE_CONFECTIONARY_OFFLINE appends the record at the end and changes nothing else. An unknown action returns the state unchanged. |
| Reducer.FetchSucceededReplaces | my-ionic-app/myApp/src/confectionary/ConfectionaryProvider.tsx:66-67 | FETCH_SUCCEEDED replaces the list wholesale and clears `fetching`. A local-only record that is absent from the reply is dropped. |
| Reducer.FailuresResetFetching | my-ionic-app/myApp/src/confectionary/ConfectionaryProvider.tsx:82-91 | SAVE_FAILED and DELETE_FAILED record the error and clear `fetching`. They leave `saving`, `deleting` and the list as they were. |
| Seqs.Filter | my-ionic-app/myApp/src/confectionary/ConfectionaryProvider.tsx:89 | `filter` never lengthens the list, and every value it returns was in the input and passes the predicate. |
| Seqs.FilterMembers | my-ionic-app/myApp/src/confectionary/ConfectionaryProvider.tsx:89 | A value survives `filter` if and only if it was present and passes the predicate. |
| Seqs.FilterAppend | my-ionic-app/myApp/src/confectionary/ConfectionaryProvider.tsx:102 | `filter` distributes over concatenation. |
| Seqs.FilterMultiset | my-ionic-app/myApp/src/confectionary/ConfectionaryProvider.tsx:89 | `filter` keeps each kept value as many times as it occurred and drops every other value. |
| Seqs.FilterTwice | my-ionic-app/myApp/src/confectionary/ConfectionaryProvider.tsx:150-153 | Two filters in a row equal one filter by the conjunction of their predicates. |
| OfflineSync.Payload | my-ionic-app/myApp/src/confectionary/ConfectionaryProvider.tsx:179 | The request body has no `localId`. Putting the `localId` back gives the buffered record. |
| OfflineSync.Payloads | my-ionic-app/myApp/src/confectionary/ConfectionaryProvider.tsx:177-180 | One request body per buffered record, in log order. |
| OfflineSync.ConfectionaryProvider.Dispatch | my-ionic-app/myApp/src/confectionary/ConfectionaryProvider.tsx:117 | The new state is the reducer applied to the old state. |
| OfflineSync.ConfectionaryProvider.constructor | my-ionic-app/myApp/src/confectionary/ConfectionaryProvider.tsx:117-118 | The provider starts from the initial state, the given Preferences and the given token. |
| OfflineSync.ConfectionaryProvider.CheckOfflineCount | my-ionic-app/myApp/src/confectionary/ConfectionaryProvider.tsx:138-142 | The offline count becomes the length of the create log, which is 0 when the key is absent. |
| OfflineSync.ConfectionaryProvider.StoreOfflineItem | my-ionic-app/myApp/src/confectionary/ConfectionaryProvider.tsx:261-267 | The create log grows by exactly this record at its end. The offline count equals the new length. Nothing else changes. |
| OfflineSync.ConfectionaryProvider.SaveLocally | my-ionic-app/myApp/src/confectionary/ConfectionaryProvider.tsx:275-283 | The record is stamped with `localId = now`, appended to the create log and shown at the end of the list. The offline count equals the log length. |
| OfflineSync.ConfectionaryProvider.Save | my-ionic-app/myApp/src/confectionary/ConfectionaryProvider.tsx:270-313 | Offline, nothing is sent and the record is buffered. Online, update is sent if and only if `_id` is truthy, otherwise create. A success upserts the reply. A failure buffers the record when connectivity dropped. Otherwise the failure dispatches SAVE_FAILED with the list and both logs unchanged. |
| OfflineSync.ConfectionaryProvider.DeleteLocalOffline | my-ionic-app/myApp/src/confectionary/ConfectionaryProvider.tsx:317-331 | The record with this `localId` leaves the list and the create log. The key is written even when empty. The offline count equals the new log length. |
| OfflineSync.ConfectionaryProvider.StoreOfflineDelete | my-ionic-app/myApp/src/confectionary/ConfectionaryProvider.tsx:424-431 | The id is appended to the delete log and the record leaves the list at once. |
| OfflineSync.ConfectionaryProvider.DeleteConfectionary | my-ionic-app/myApp/src/confectionary/ConfectionaryProvider.tsx:410-420 | A successful call removes the id from the list. A failed call records the error and clears `fetching`. There is no offline path. |
| OfflineSync.ConfectionaryProvider.FetchConfectionaries | my-ionic-app/myApp/src/confectionary/ConfectionaryProvider.tsx:235-258 | `fetching` is set. A reply that arrives after cancellation is discarded. Otherwise the list is replaced, or the error is recorded. |
| OfflineSync.ConfectionaryProvider.OnSocketMessage | my-ionic-app/myApp/src/confectionary/ConfectionaryProvider.tsx:434-458 | "created" and "updated" upsert the record. "deleted" removes its `_id`. Other events, or a cancelled socket, change nothing. |
| OfflineSync.ConfectionaryProvider.ReplayDeletes | my-ionic-app/myApp/src/confectionary/ConfectionaryProvider.tsx:148-158 | The loop returns the failed ids in stored order. The state is DELETE_SUCCEEDED applied for each successful id, in order. |
| OfflineSync.ConfectionaryProvider.DrainDeleteLog | my-ionic-app/myApp/src/confectionary/ConfectionaryProvider.tsx:146-164 | The delete log afterwards holds exactly the failed ids, or its key is removed when none failed. The state is as for ReplayDeletes. |
| OfflineSync.ConfectionaryProvider.ReplayCreates | my-ionic-app/myApp/src/confectionary/ConfectionaryProvider.tsx:175-187 | The loop sends every buffered record without its `localId`, in log order, and returns the failed records in log order. Each success applies REMOVE_LOCAL_ITEM and then SAVE_SUCCEEDED. |
| OfflineSync.ConfectionaryProvider.DrainCreateLog | my-ionic-app/myApp/src/confectionary/ConfectionaryProvider.tsx:166-195 | The create log afterwards holds exactly the failures, or its key is removed. The offline count equals the number of failures. |
| OfflineSync.ConfectionaryProvider.SyncOfflineItems | my-ionic-app/myApp/src/confectionary/ConfectionaryProvider.tsx:144-198 | Deletes are drained first. With no token or an empty create log, nothing is sent and the offline count is not updated. Otherwise creates are drained. In both cases a refetch follows. |
| OfflineSync.DrainStep | my-ionic-app/myApp/src/confectionary/ConfectionaryProvider.tsx:150-158 | Replaying one more id extends exactly one of the succeeded and failed lists. |
| OfflineSync.AfterCreatesIsReplay | my-ionic-app/myApp/src/confectionary/ConfectionaryProvider.tsx:177-187 | The create replay changes only the list and `saving`. With no success it changes nothing. |
| OfflineSync.DrainPartitionsIds | my-ionic-app/myApp/src/confectionary/ConfectionaryProvider.tsx:150-158 | Every stored id ends up among the successes or the failures: none is lost, none is invented, as a multiset and by count. |
| OfflineSync.FailedEmptyIffAllSucceeded | my-ionic-app/myApp/src/confectionary/ConfectionaryProvider.tsx:160-164 | The delete log's key is removed if and only if every replayed delete succeeded. |
| OfflineSync.WithoutIdsIsFilter | my-ionic-app/myApp/src/confectionary/ConfectionaryProvider.tsx:150-153 | Removing the successful ids one by one equals one order-preserving filter by "`_id` not among them". |
| OfflineSync.DeleteDrainRemovesSucceeded | my-ionic-app/myApp/src/confectionary/ConfectionaryProvider.tsx:150-153 | After the delete drain a record is listed if and only if it was listed before and its `_id` was not successfully deleted. |
| OfflineSync.FailedCreatesEmptyIffAllCreated | my-ionic-app/myApp/src/confectionary/ConfectionaryProvider.tsx:189-191 | The create log's key is removed if and only if every replayed create succeeded. |
| OfflineSync.FailedCreatesAppend | my-ionic-app/myApp/src/confectionary/ConfectionaryProvider.tsx:177-187 | The failures of two consecutive stretches of the log are the first stretch's failures followed by the second's, so failures keep their order. |
| OfflineSync.FailedCreatesFromLog | my-ionic-app/myApp/src/confectionary/ConfectionaryProvider.tsx:184-193 | The rewritten create log contains only buffered records, each no more often than before. |
| OfflineSync.ReplayedNothing | my-ionic-app/myApp/src/confectionary/ConfectionaryProvider.tsx:184-186 | When every create fails, the list is unchanged. |
| OfflineSync.ReplayKeepsServerRecords | my-ionic-app/myApp/src/confectionary/ConfectionaryProvider.tsx:182-183 | After replay, each server record returned by a successful create has its `_id` in the list, on a record without `localId`. |
| OfflineSync.ReplayDropsLocalCopies | my-ionic-app/myApp/src/confectionary/ConfectionaryProvider.tsx:182-183 | After replay, no record carries the `localId` of a buffered record whose create succeeded. |
| ListView.LowerChar | my-ionic-app/myApp/src/confectionary/ConfectionaryList.tsx:45-46 | An ASCII capital maps to the lower-case letter 32 code points above it. Every other character is unchanged. |
| ListView.Lower | my-ionic-app/myApp/src/confectionary/ConfectionaryList.tsx:45-46 | `toLowerCase` keeps the length and lower-cases position by position. |
| ListView.FilteredMembers | my-ionic-app/myApp/src/confectionary/ConfectionaryList.tsx:44-72 | A record is selected if and only if it is in the store and passes a non-blank search. With a blank search it must have the active rating; with no active rating, every record passes. |
| ListView.Filtered | my-ionic-app/myApp/src/confectionary/ConfectionaryList.tsx:44-51 | The selection is never longer than the store and holds only stored records. With a non-blank search every selected name contains the search; with a blank search and an active rating every selected record has that rating; with neither, the selection is the whole store. |
| ListView.BlankSearchFallsBackToRating | my-ionic-app/myApp/src/confectionary/ConfectionaryList.tsx:44-51 | A whitespace-only search selects exactly what an empty search box selects: the records with the active rating, or every record when no rating is chosen. |
| ListView.SearchIgnoresCase | my-ionic-app/myApp/src/confectionary/ConfectionaryList.tsx:45-46 | A query and its lower-cased form select the same records. |
| ListView.Take | my-ionic-app/myApp/src/confectionary/ConfectionaryList.tsx:52 | `slice(0, n)` is a prefix of length min(n, length). |
| ListView.Slice | my-ionic-app/myApp/src/confectionary/ConfectionaryList.tsx:74 | `slice(start, end)` is the exact subrange within bounds and empty past the end. |
| ListView.NextPageExtendsPrefix | my-ionic-app/myApp/src/confectionary/ConfectionaryList.tsx:74-76 | The first k records followed by the next page are the first k + size records. |
| ListView.PagedList.constructor | my-ionic-app/myApp/src/confectionary/ConfectionaryList.tsx:30-37 | The screen starts with nothing visible, page 1, scrolling enabled, no search and no filter. |
| ListView.PagedList.Refresh | my-ionic-app/myApp/src/confectionary/ConfectionaryList.tsx:40-56 | With a non-empty list, the first 4 selected records are visible and the page is 1. Scrolling is disabled if and only if at most 4 are selected. An empty or missing list changes nothing. |
| ListView.PagedList.SearchNext | my-ionic-app/myApp/src/confectionary/ConfectionaryList.tsx:58-84 | The next page is appended, clipped to the selection, and the page advances. Scrolling becomes disabled once the page end reaches the count. The screen keeps showing exactly the first 4·page selected records. |
| ListView.PagedList.OnSearchInput | my-ionic-app/myApp/src/confectionary/ConfectionaryList.tsx:105-106 | Typing sets the search and clears the filter. If either changed and the store is non-empty, the first page of the search's selection is shown, the page is 1 and scrolling stops exactly when the selection fits in one page. With no records, or nothing changed, the paging state is untouched. |
| ListView.PagedList.OnFilterChange | my-ionic-app/myApp/src/confectionary/ConfectionaryList.tsx:108-109 | Choosing a rating sets the filter and clears the search. If either changed and the store is non-empty, the first page of the rating's selection is shown, the page is 1 and scrolling stops exactly when the selection fits in one page. With no records, or nothing changed, the paging state is untouched. |
| AuthSession.TokenOf | my-ionic-app/myApp/src/auth/AuthProvider.tsx:58-59 | The token `newValue` stands for is non-empty if and only if the stored value is truthy, and then it is that value. |
| AuthSession.AuthProvider.constructor | my-ionic-app/myApp/src/auth/AuthProvider.tsx:22-37 | The session starts in the initial state: no token, not authenticated, not pending. |
| AuthSession.AuthProvider.Mount | my-ionic-app/myApp/src/auth/AuthProvider.tsx:42-51 | A truthy stored token sets the token and authentication and changes nothing else. On the initial state, the session afterwards matches storage. |
| AuthSession.AuthProvider.OnStorageEvent | my-ionic-app/myApp/src/auth/AuthProvider.tsx:53-61 | A `token` event sets the token to the new value or `''`. The session is authenticated if and only if that value is non-empty. Other keys are ignored. |
| AuthSession.AuthProvider.Logout | my-ionic-app/myApp/src/auth/AuthProvider.tsx:77-80 | The stored token is removed and the state returns to the initial state. |
| AuthSession.AuthProvider.Login | my-ionic-app/myApp/src/auth/AuthProvider.tsx:82-90 | Login records the credentials and sets `pendingAuthentication`, leaving the token and authentication as they were. |
| AuthSession.AuthProvider.Authenticate | my-ionic-app/myApp/src/auth/AuthProvider.tsx:92-136 | Without a pending request nothing happens. Otherwise the credentials are sent. A cancelled run changes nothing after the reply. A token is stored, marks the session authenticated and clears pending and authenticating. An error is recorded, clears pending and authenticating, and leaves authentication unchanged. |
| RestServer.Decimal | node-server/src/index.js:99 | `${n}` is a non-empty string of digits. |
| RestServer.ParseDecimal | node-server/src/index.js:99 | `parseInt` of a numeral gives back its number. |
| RestServer.DecimalInjective | node-server/src/index.js:99 | Distinct numbers have distinct numerals. |
| RestServer.IndexOf | node-server/src/index.js:140 | The result is the first position holding the id, or -1 if and only if the id is absent. |
| RestServer.NumberedIdsDistinct | node-server/src/index.js:99-108 | No two stored confectionaries share an id. |
| RestServer.NextIdFresh | node-server/src/index.js:99 | The id after `lastId` belongs to no stored confectionary. |
| RestServer.NumberedRemove | node-server/src/index.js:167 | Removing one element keeps the id numbering of the rest. |
| RestServer.ConfectionaryServer.constructor | node-server/src/index.js:44-58 | The store is seeded with three confectionaries, ids "0" to "2", one millisecond apart. `lastId` is "2". |
| RestServer.ConfectionaryServer.ListAll | node-server/src/index.js:69-72 | Returns 200 with the whole array. |
| RestServer.ConfectionaryServer.Get | node-server/src/index.js:74-84 | Returns 200 if and only if some element has the id, and then that element. Otherwise 404 with the message. |
| RestServer.RatingOutOfRange | node-server/src/index.js:94-98 | A body is refused for its rating exactly when a rating is present and lies outside 0..5; a missing rating passes. |
| RestServer.ConfectionaryServer.Create | node-server/src/index.js:86-112 | A missing name or `inCluj`, or a rating outside 0..5, gives 400 and leaves the array and `lastId` unchanged. Otherwise the new record gets id `lastId + 1`, fresh among the stored ids, and is appended; the result is 201 and a created notice. |
| RestServer.ConfectionaryServer.Put | node-server/src/index.js:118-160 | A body id that differs from the path id gives 400, as does a bad rating; nothing changes. Without a body id, Put creates. An unknown id gives 400. Otherwise the element is replaced at the same index with the path id, `lastUpdated` is set, and the result is 200. |
| RestServer.ConfectionaryServer.Delete | node-server/src/index.js:162-172 | The first element with the id is removed, if any, and the id is then absent. The result is 204 either way. |
| OwnerRoutes.NewDoc | node-server-auth/src/confectionary.js:18-24 | The inserted document carries the body's fields, the owner and the time. Its `_id` is the body's, else the generated one. |
| OwnerRoutes.Merged | node-server-auth/src/confectionary.js:26-32 | `$set` overwrites name, `inCluj`, owner and time, and keeps the stored rating when the body has none. |
| OwnerRoutes.Rejected | node-server-auth/src/confectionary.js:18-32 | The store refuses a record exactly when its name is missing or empty or its `inCluj` flag is not a boolean. |
| OwnerRoutes.ConfectionaryStore.constructor | node-server-auth/src/confectionary.js:6-8 | The store holds the given documents, each under its own `_id`. |
| OwnerRoutes.ConfectionaryStore.Find | node-server-auth/src/confectionary.js:10-12 | `find({ userId })` returns exactly the stored documents with that owner. |
| OwnerRoutes.ConfectionaryStore.FindOne | node-server-auth/src/confectionary.js:14-16 | `findOne({ _id })` finds the document if and only if it is stored. |
| OwnerRoutes.ConfectionaryStore.Insert | node-server-auth/src/confectionary.js:18-24 | A missing name or `inCluj` throws and inserts nothing. A taken `_id` is refused. Otherwise exactly the new document is added. |
| OwnerRoutes.ConfectionaryStore.Update | node-server-auth/src/confectionary.js:26-32 | An invalid body throws and changes nothing. An unknown `_id` changes nothing and counts 0. Otherwise the document is merged and the count is 1. |
| OwnerRoutes.ConfectionaryStore.Remove | node-server-auth/src/confectionary.js:34-36 | The `_id` is removed, and the count says whether it was there. |
| OwnerRoutes.ListRoute | node-server-auth/src/confectionary.js:46-50 | Returns 200 with exactly the caller's documents. |
| OwnerRoutes.GetRoute | node-server-auth/src/confectionary.js:52-68 | Returns 200 with the document when the caller owns it, 403 when someone else owns it, and 404 when it is missing. |
| OwnerRoutes.CreateRoute | node-server-auth/src/confectionary.js:70-89 | The caller is stamped as owner. Success gives 201 with exactly the new document added. Any error gives 400 with its message and inserts nothing. No other user's document changes. |
| OwnerRoutes.PutRoute | node-server-auth/src/confectionary.js:96-121 | A mismatched body `_id` gives 400 and no change. Without a body `_id`, PUT creates. Otherwise one update gives 200 and the caller becomes the owner; none gives 405; an invalid body escapes as a thrown error. |
| OwnerRoutes.DeleteRoute | node-server-auth/src/confectionary.js:123-133 | A record owned by someone else gives 403 and no change. Otherwise the id is removed, which is a no-op if it is missing, and the result is 204. No other user's document changes. |
| OwnerRoutes.ForeignPutTakesOver | node-server-auth/src/confectionary.js:106-119 | On a concrete store, a PUT by a non-owner answers 200 and transfers ownership of the record. |
| OwnerRoutes.PutRouteOwnerChecked | node-server-auth/src/confectionary.js:96-121 | PUT with the ownership check that GET and DELETE make: a record owned by someone else gives 403 and no change. No other user's document ever changes. |

## Left out

- The REST and web-socket client (`confectionaryApi.tsx`) is not part of this model. Each call's outcome is a parameter: a reply, or a failure. The web-socket `broadcast` of the first server is returned as a `Notice` value. The second server's broadcasts are not modelled.
- Capacitor `Network` and `Preferences` are modelled as a connectivity flag and a map from key to list. JSON serialisation and parse errors of the stored lists are not modelled.
- `Date.now()`, `new Date()`, nedb's generated ids and `localStorage` are parameters or fields. Dates are integers.
- Async interleavings, React effect scheduling and stale `useCallback` closures are not modelled. Each operation runs start to finish on the current state. This applies in particular to `loginCallback`, which the source creates once, so the spread `state` is the state of the first render. The effect that `isOnline` and `token` trigger is modelled as a direct call of the operation.
- `null` and `undefined` are both `None`. JSON bodies are assumed to carry fields of the expected types. A non-boolean `inCluj` is modelled as an absent one, and a non-numeric rating is not modelled.
- ListView.LowerChar: lower-cases ASCII letters only, not the full Unicode mapping of `toLowerCase`.
- ListView.PagedList.SearchNext: the `$event.target.complete()` call is not modelled.
- The rating select's value is a number, a label, or unset. The client's `rating` is an integer.
- The commented-out code is not live behaviour and is not modelled: the old fetch effect and offline-aware delete in `ConfectionaryProvider.tsx`, the interval generator in `node-server/src/index.js`, and `useConfectionary.tsx`.
- The UI files, `usePhotos.ts`, server middleware (logging, delay, CORS, the 500 wrapper), `server.listen` and nedb's file persistence are outside the model.
- OwnerRoutes.ConfectionaryStore.Find: nedb returns an unordered array; the model returns the set of documents.
- OwnerRoutes.PutRoute: the thrown error escapes the handler and the framework answers it. The model stops at `Threw`, with the store unchanged.
- The authenticated PUT body may carry fields beyond name, `inCluj` and rating. `$set` would store them too; the model keeps only these fields.
- The authenticated PUT has no ownership check, although GET `/:id` (confectionary.js:59) and DELETE `/:id` (confectionary.js:126) answer 403 on an owner mismatch. `PutRoute` follows the code; see Findings.
- RestServer.ConfectionaryServer.Create: ids are unbounded naturals. JavaScript's `parseInt(lastId) + 1` is a double, so past 2^53 it repeats ids, and past 1e21 the numeral switches to exponent form, which `parseInt` reads back as 1.

## Findings

| source | as written | input that shows it | evidently intended | confidence | as-written member | corrected member |
|---|---|---|---|---|---|---|
| node-server-auth/src/confectionary.js:106-119 | PUT with a matching body `_id` updates the record and stamps the caller as owner, without checking who owned it | A record "7" owned by "alice"; "mallory" sends PUT `/7` with body `_id` "7": the answer is 200 and "7" now belongs to "mallory" | 403 and no change when the record exists and belongs to someone else, as GET `/:id` and DELETE `/:id` do | not executed | OwnerRoutes.ForeignPutTakesOver | OwnerRoutes.PutRouteOwnerChecked |
