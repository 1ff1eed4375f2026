# Client-side state of the organization/supplier admin console

This project models the client-side state rules of a React/Redux admin console that sits on a remote
REST API. Each Redux slice keeps a cached collection (or one record) and a status surface (`loading`,
`error`, `successMessage`). Every asynchronous operation (a `createAsyncThunk`) reaches the slice as an
action: `pending`, then `fulfilled` with the server's value or `rejected` with a message. The model
covers the slices for suppliers, users, the organization, search and authentication. It also covers
three pure view helpers: the actor-name and actor-email resolvers of the activity log, the user
status toggle, and the rule that a blank search query clears the search.

Layout, one module per file:

- `js_values.dfy` (`JsValues`): `Option`, truthiness of an optional string, and `a || b`.
- `text.dfy` (`Text`): `String.prototype.trim`, with the exact ECMAScript whitespace set.
- `collections.dfy` (`Collections`): the array operations the reducers use on records keyed by
  `_id`. These are `findIndex` followed by an indexed write, `map` with a by-key replacement, `filter`
  on the key, `unshift` and `push`. The module also holds the lemmas about them, including the
  invariant that identifiers are unique.
- `thunks.dfy` (`Thunks`): the thunk phases, the abstract HTTP outcome, and the rule that builds a
  rejection message (the server's message if truthy, else the thunk's fixed fallback).
- `suppliers.dfy`, `users.dfy`, `org.dfy`, `search.dfy`, `auth.dfy`, `logs.dfy`: one module per core file.

Every slice module has the same shape:

- a datatype snapshot of the state;
- an `Action` datatype with one constructor per thunk, carrying its phase;
- a pure reference reducer `Next`;
- a class holding the slice's fields. Its `Dispatch` method updates those fields case by case, as the
  case reducers do. It is proved to end in `Next(old(State()), a)`.

The lemmas next to `Next` state what each case promises: what changes and what stays the same.

Authentication also models the browser's storage, as a `Storage` class over a `map<string, string>`.
The JSON encoding of the stored user is an opaque `UserCodec` pair. Its round-trip law (`RoundTrips`)
is assumed only as a lemma hypothesis.

The slices do not all follow one pattern. The differences, as the code has them:

- Only `fetchOrg.pending`, `performSearch.pending` and the two auth `pending` cases clear `error`.
  The supplier and `getUsers` pending cases leave it as it is.
- `updateSupplier`, `deleteSupplier` and `fetchSupplierById` have no `pending` case.
  `fetchSupplierById` has no `rejected` case either, so its failure reaches no state. Its
  `fulfilled` case sets only `currentSupplier`; it leaves `loading`, both messages and the list as
  they were.
- In the users slice, only `getUsers` touches `loading`. The add, update and delete rejections set
  `error` only.
- Supplier updates replace the first match (`findIndex`). User updates replace every match (`map`).
  Deletes remove every match (`filter`). With unique identifiers the two kinds of update agree, and a
  delete of a present identifier removes exactly one record (lemmas `UniqueReplaceEveryIsReplaceFirst`
  and `RemoveUniquePresent`).
- `logout` removes only the `"token"` and `"user"` storage keys. Any other key, such as `"orgId"`, is
  left in place. Login stores no organization identifier.
- `getUserName` tries six candidate fields: `userId.name`, `details.userName`, the request body's
  name and email, and the response user's name and email.

## Model

| member | source | states |
|---|---|---|
| `Thunks.RejectReason` | src/features/suppliers/supplierSlice.js:23 | A rejection reason is the server's message when it is truthy, otherwise the fixed fallback; it is one of the two, and it is never empty when the fallback is not |
| `Thunks.Settle` | src/features/suppliers/supplierSlice.js:16-26 | A thunk settles as fulfilled with the body exactly when its call succeeded, otherwise as rejected with the reason built by the fallback rule; a settled thunk is never pending |
| `Text.SkipForward` | src/Components/DasbhaordComponent/SubDashboardComponent/Search.jsx:14 | The forward scan stops at the first non-whitespace character at or after its start, or at the end of the string; everything it passed over is whitespace |
| `Text.SkipBackward` | src/Components/DasbhaordComponent/SubDashboardComponent/Search.jsx:14 | The backward scan stops just past the last non-whitespace character, never going below its lower bound; everything it passed over is whitespace |
| `Text.Trim` | src/Components/DasbhaordComponent/SubDashboardComponent/Search.jsx:14 | `trim()` returns the contiguous piece of the input between its leading and its trailing whitespace; the piece neither starts nor ends with whitespace, and it is empty exactly when the input is all whitespace |
| `Text.TrimIdempotent` | src/Components/DasbhaordComponent/MainDashboardComponent/Logs.jsx:133 | Trimming twice is the same as trimming once |
| `Collections.FindIndex` | src/features/suppliers/supplierSlice.js:132 | `findIndex` returns -1 exactly when no record has the key; otherwise it returns the first index whose record has the key |
| `Collections.ReplaceFirst` | src/features/suppliers/supplierSlice.js:132-133 | Length is kept; the first matching position now holds the payload; every other position is unchanged |
| `Collections.ReplaceEvery` | src/features/users/usersSlice.js:114-116 | Length is kept; every position whose key matches holds the payload; every other position is unchanged |
| `Collections.CountKey` | src/features/suppliers/supplierSlice.js:144 | The number of records with a key is at most the length, and it is zero exactly when no record has that key |
| `Collections.RemoveKey` | src/features/suppliers/supplierSlice.js:144 | `filter` leaves no record with the key; every kept record comes from the input; every record with another key is kept; the length drops by the number of matches |
| `Collections.ReplaceFirstByIndex` | src/features/suppliers/supplierSlice.js:132-133 | Replacing the first match is the same as `findIndex` followed by an indexed write when the index is not -1 |
| `Collections.ReplaceNoMatch` | src/features/suppliers/supplierSlice.js:133 | When no record matches, both replacements leave the list unchanged |
| `Collections.ReplaceFirstIdempotent` | src/features/suppliers/supplierSlice.js:130-135 | Applying the same first-match update twice gives the same list as applying it once |
| `Collections.UniqueReplaceEveryIsReplaceFirst` | src/features/users/usersSlice.js:113-118 | With distinct identifiers, the replace-all update of the users slice equals the first-match update of the supplier slice |
| `Collections.DuplicateKeysSeparateReplacements` | src/features/users/usersSlice.js:114-116 | With a repeated key, the first-match update leaves the second duplicate stale, but the replace-all update does not |
| `Collections.RemoveAbsentKey` | src/features/suppliers/supplierSlice.js:144 | Deleting an identifier that no record has leaves the list unchanged |
| `Collections.RemoveKeyAppend` | src/features/suppliers/supplierSlice.js:144 | Filtering distributes over concatenation, so the kept records stay in their original order |
| `Collections.RemoveKeyIdempotent` | src/features/suppliers/supplierSlice.js:144 | Deleting the same identifier twice gives the same list as deleting it once |
| `Collections.CountUniquePresent` | src/features/suppliers/supplierSlice.js:144 | With distinct identifiers, an identifier that is present occurs exactly once |
| `Collections.RemoveUniquePresent` | src/features/suppliers/supplierSlice.js:142-146 | With distinct identifiers, deleting a present identifier shortens the list by exactly one |
| `Collections.ReplaceKeepsUnique` | src/features/suppliers/supplierSlice.js:130-135 | Both updates keep identifiers distinct |
| `Collections.RemoveKeepsUnique` | src/features/suppliers/supplierSlice.js:142-146 | Deleting keeps identifiers distinct |
| `Collections.InsertKeepsUnique` | src/features/suppliers/supplierSlice.js:121 | Adding a record with `unshift` or `push` keeps identifiers distinct exactly when its identifier is new |
| `Suppliers.SupplierSlice.constructor` | src/features/suppliers/supplierSlice.js:82-88 | The slice starts with no suppliers, no current supplier, loading off and no messages |
| `Suppliers.SupplierSlice.Dispatch` | src/features/suppliers/supplierSlice.js:89-151 | The case reducers, applied field by field (the update uses `findIndex` and an indexed write), end in the state the reference reducer gives |
| `Suppliers.ClearMessagesOnlyClears` | src/features/suppliers/supplierSlice.js:90-93 | `clearSupplierMessages` nulls `error` and `successMessage`; `suppliers`, `currentSupplier` and `loading` are unchanged; doing it again changes nothing |
| `Suppliers.FetchFulfilledIdempotent` | src/features/suppliers/supplierSlice.js:101-104 | `fetchSuppliers.fulfilled` installs the payload list and ends loading, and touches nothing else; a second identical fulfilment changes nothing |
| `Suppliers.CreatePrepends` | src/features/suppliers/supplierSlice.js:119-123 | `createSupplier.fulfilled` gives the payload followed by the old list in its old order, one record longer, with "Supplier added successfully" |
| `Suppliers.UpdateReplacesFirstMatch` | src/features/suppliers/supplierSlice.js:130-135 | `updateSupplier.fulfilled` keeps the length, writes the payload at the first index with its `_id`, and leaves every other index unchanged; with no match the list is unchanged; the success message is set |
| `Suppliers.DeleteRemovesMatches` | src/features/suppliers/supplierSlice.js:142-146 | `deleteSupplier.fulfilled` leaves no record with the deleted `_id`; every record it keeps came from the old list, and every record with another `_id` is kept |
| `Suppliers.DeleteLength` | src/features/suppliers/supplierSlice.js:144 | The delete shortens the list by the number of records with the `_id`: by one when identifiers are unique and the `_id` is present; when it is absent the list is unchanged |
| `Suppliers.DeleteStatus` | src/features/suppliers/supplierSlice.js:142-146 | The delete ends loading and sets "Supplier deleted successfully"; `error` and `currentSupplier` are unchanged |
| `Suppliers.FetchByIdSetsCurrent` | src/features/suppliers/supplierSlice.js:111-113 | `fetchSupplierById.fulfilled` puts the payload in the current-supplier slot and changes nothing else: the list, `loading`, `error` and `successMessage` are unchanged |
| `Suppliers.RejectionsKeepRecords` | src/features/suppliers/supplierSlice.js:105-150 | Each of the four rejected cases only ends loading and sets `error` to the payload; `fetchSupplierById.rejected` changes nothing |
| `Suppliers.FailedCallsReported` | src/features/suppliers/supplierSlice.js:23-75 | A failed call of each thunk sets `error` to the server's message if it is truthy, otherwise to that thunk's own fallback string |
| `Suppliers.PendingRules` | src/features/suppliers/supplierSlice.js:98-118 | The fetch and create pending cases only set `loading` and keep `error`; update, delete and fetch-by-id have no pending case and change nothing |
| `Suppliers.NextKeepsIdsUnique` | src/features/suppliers/supplierSlice.js:95-151 | Unique `_id`s are kept by every action, provided a fetched list has unique ids and a created record has a new one |
| `Users.UserSlice.constructor` | src/features/users/usersSlice.js:78-83 | The slice starts with no users, loading off and no messages |
| `Users.UserSlice.Dispatch` | src/features/users/usersSlice.js:84-142 | The case reducers, applied field by field, end in the state the reference reducer gives |
| `Users.GetUsersRules` | src/features/users/usersSlice.js:93-97 | `getUsers.pending` sets loading; `getUsers.fulfilled` installs the payload, ends loading and keeps the messages; a second identical fulfilment changes nothing |
| `Users.AddAppends` | src/features/users/usersSlice.js:104-107 | `addSubUser.fulfilled` gives the old list followed by the payload, sets the success message, and leaves `loading` and `error` unchanged |
| `Users.UpdatesReplaceAllMatches` | src/features/users/usersSlice.js:113-129 | Both updates replace every user with the payload's `_id` by the payload and keep every other user in place. Each sets its own success message; `loading` and `error` are unchanged |
| `Users.UpdateWithoutMatch` | src/features/users/usersSlice.js:113-129 | An update whose `_id` no user has leaves the list unchanged |
| `Users.UniqueUpdateReplacesOne` | src/features/users/usersSlice.js:113-129 | With distinct identifiers, both user updates give the same list as the supplier slice's first-match replacement |
| `Users.DeleteRemovesMatches` | src/features/users/usersSlice.js:135-138 | `deleteSubUser.fulfilled` leaves no user with the deleted `_id`; every user it keeps came from the old list, and every user with another `_id` is kept |
| `Users.DeleteLength` | src/features/users/usersSlice.js:136 | The delete shortens the list by the number of users with the `_id`: by one when identifiers are unique and the `_id` is present; when it is absent the list is unchanged |
| `Users.DeleteStatus` | src/features/users/usersSlice.js:135-138 | The delete sets "Sub-user deleted" and leaves `loading` and `error` unchanged |
| `Users.RejectionsSetOnlyError` | src/features/users/usersSlice.js:98-141 | The add, update and delete rejections set only `error`; `getUsers.rejected` also ends loading; no rejection changes `users` |
| `Users.FailedCallsReported` | src/features/users/usersSlice.js:22-70 | A failed call of each thunk sets `error` to the server's message if it is truthy, otherwise to that thunk's fallback |
| `Users.ClearMessagesOnlyClears` | src/features/users/usersSlice.js:85-88 | `clearMessages` nulls both messages and leaves `users` and `loading` unchanged |
| `Users.OnlyGetUsersTouchesLoading` | src/features/users/usersSlice.js:90-142 | No action other than a `getUsers` phase changes `loading` |
| `Users.StatusToggleScenario` | src/features/users/usersSlice.js:113-118 | When the server echoes `u1` as "inactive", the `u1` entry shows "inactive" and every other entry is unchanged |
| `Users.ToggleStatus` | src/Components/DasbhaordComponent/MainDashboardComponent/Users.jsx:49-52 | The status sent is always "active" or "inactive", and it is "inactive" exactly when the current status is "active" |
| `Users.ToggleTwice` | src/Components/DasbhaordComponent/MainDashboardComponent/Users.jsx:50 | Toggling "active" or "inactive" twice gives back the original; any value other than "active" becomes "active" |
| `Users.NextKeepsIdsUnique` | src/features/users/usersSlice.js:90-142 | Unique `_id`s are kept by every action, provided a fetched list has unique ids and an added user has a new one |
| `Org.OrgSlice.constructor` | src/features/org/orgSlice.js:80-85 | The slice starts with no organization, loading off and no messages |
| `Org.OrgSlice.Dispatch` | src/features/org/orgSlice.js:86-155 | The case reducers, applied field by field, end in the state the reference reducer gives |
| `Org.PendingRules` | src/features/org/orgSlice.js:101-145 | `fetchOrg.pending` sets loading and clears `error`; the other three pending cases only set loading |
| `Org.FetchInstallsOrg` | src/features/org/orgSlice.js:105-108 | `fetchOrg.fulfilled` installs the payload and ends loading; it touches neither `successMessage` nor `error` |
| `Org.UpdatesReplaceWholesale` | src/features/org/orgSlice.js:118-136 | Both updates replace the organization with the payload, whatever was cached before (no merge); each sets its own success message |
| `Org.DeleteDropsOrg` | src/features/org/orgSlice.js:146-150 | `deleteOrg.fulfilled` gives the same state whatever the payload: no organization, loading off, "Organization deleted successfully" |
| `Org.RejectionsKeepOrg` | src/features/org/orgSlice.js:109-154 | Each rejected case ends loading, sets `error` to the payload, and leaves `org` and `successMessage` unchanged |
| `Org.FailedCallsReported` | src/features/org/orgSlice.js:18-75 | A failed call of each thunk sets `error` to the server's message if it is truthy, otherwise to that thunk's fallback |
| `Org.ResetIsInitial` | src/features/org/orgSlice.js:91-96 | `resetOrg` turns any state into the initial state, so it is idempotent |
| `Org.ClearMessagesOnlyClears` | src/features/org/orgSlice.js:87-90 | `clearOrgMessages` changes only `error` and `successMessage` |
| `Org.SettlingEndsLoading` | src/features/org/orgSlice.js:105-154 | Every fulfilled or rejected case leaves loading off |
| `Search.SettleSearch` | src/features/search/searchSlice.jsx:15-27 | A body is fulfilled only when its success flag is set. A falsy flag or a failed call is a rejection with the message if truthy, else "Search failed" |
| `Search.SearchSlice.constructor` | src/features/search/searchSlice.jsx:31-37 | The slice starts with an empty query, three empty result lists, empty counts, loading off and no error |
| `Search.SearchSlice.Dispatch` | src/features/search/searchSlice.jsx:38-62 | The case reducers, applied field by field, end in the state the reference reducer gives |
| `Search.PendingKeepsResults` | src/features/search/searchSlice.jsx:48-51 | Pending sets loading, clears `error`, and leaves query, results and counts unchanged |
| `Search.FulfilledReplacesTogether` | src/features/search/searchSlice.jsx:52-57 | Fulfilled takes query, results and counts from the one payload and ends loading; apart from `error`, the result does not depend on the earlier cache |
| `Search.RejectedKeepsResults` | src/features/search/searchSlice.jsx:58-61 | Rejected only ends loading and sets `error`; a body with a falsy success flag therefore keeps the last results |
| `Search.ClearSearchResets` | src/features/search/searchSlice.jsx:39-44 | `clearSearch` empties query, results, counts and error, leaves loading unchanged, is idempotent, and gives the initial state when not loading |
| `Search.SubmitIntent` | src/Components/DasbhaordComponent/SubDashboardComponent/Search.jsx:12-16 | A submit clears exactly when the query is all whitespace; otherwise it searches for the query as typed, without trimming it |
| `Search.SubmitActions` | src/Components/DasbhaordComponent/SubDashboardComponent/Search.jsx:14-15 | A blank query dispatches only `clearSearch`, with no request; any other query starts `performSearch` |
| `Auth.GetItem` | src/features/auth/authSlice.js:9 | `getItem` finds a value exactly when the key is stored, and returns the stored string |
| `Auth.Storage.constructor` | src/features/auth/authSlice.js:8-9 | The storage holds the given items |
| `Auth.Storage.Get` | src/features/auth/authSlice.js:8-9 | Reading a key returns what is stored under it, or null |
| `Auth.Storage.SetItem` | src/features/auth/authSlice.js:69-70 | Writing a key sets that key and leaves every other key as it was |
| `Auth.Storage.RemoveItem` | src/features/auth/authSlice.js:54-55 | Removing a key drops that key only |
| `Auth.AuthSlice.constructor` | src/features/auth/authSlice.js:7-12 | The initial state is built from what storage holds when the store is created |
| `Auth.AuthSlice.Dispatch` | src/features/auth/authSlice.js:44-88 | The reducers, including their storage writes, end in the state (storage included) the reference reducer gives |
| `Auth.AuthSlice.RestoreSession` | src/Components/DasbhaordComponent/MainDashboardComponent/MainDashboardComponent.jsx:24-36 | The mount effect ends in the state the reference restore gives |
| `Auth.PendingRules` | src/features/auth/authSlice.js:60-80 | Both `pending` cases set loading and clear `error`; user, token and storage are unchanged |
| `Auth.InitialReadsStorage` | src/features/auth/authSlice.js:8-9 | The initial user is the parsed stored user, or null when none is stored. The initial token is the stored token when it is non-empty, else null. Loading is off and there is no error |
| `Auth.SetCredentialsMemoryOnly` | src/features/auth/authSlice.js:45-48 | `setCredentials` sets user and token from the payload; storage, loading and error are unchanged |
| `Auth.LogoutRemovesExactlySession` | src/features/auth/authSlice.js:51-56 | `logout` nulls user and token and removes exactly the "token" and "user" keys; every other key keeps its value |
| `Auth.LoginStoresSession` | src/features/auth/authSlice.js:64-71 | `loginUser.fulfilled` sets user and token from the reply; storage "token" holds the token and "user" the encoded user; other keys are untouched |
| `Auth.RejectionsKeepSession` | src/features/auth/authSlice.js:72-87 | Both rejections only end loading and set `error`; user, token and storage are unchanged |
| `Auth.FailedCallsReported` | src/features/auth/authSlice.js:22-35 | A failed login or registration reports the server's message if it is truthy, else "Login failed" or "Register failed" |
| `Auth.RegisterNeverLogsIn` | src/features/auth/authSlice.js:81-83 | `registerUser.fulfilled` only ends loading |
| `Auth.NoResurrectionAfterLogout` | src/features/auth/authSlice.js:51-56 | After logout, a reload gives null user and token, and the dashboard's restore changes nothing |
| `Auth.RestoreOnlyWhenBothStored` | src/Components/DasbhaordComponent/MainDashboardComponent/MainDashboardComponent.jsx:28-32 | Restore changes the state only when there is no user in memory and storage has a truthy user and a truthy token; it never changes storage, and it changes nothing while a user is logged in |
| `Auth.RestoreRehydrates` | src/Components/DasbhaordComponent/MainDashboardComponent/MainDashboardComponent.jsx:28-32 | When no user is in memory and storage has a truthy user and a truthy token, restore sets the user to the parsed stored user and the token to the stored token, changing nothing else. With a round-tripping encoding and a stored user that is some user's encoding, the user is restored |
| `Auth.RestoreIdempotent` | src/Components/DasbhaordComponent/MainDashboardComponent/MainDashboardComponent.jsx:24-36 | Running the restore effect a second time, as happens when `user` changes, changes nothing more than the first run did |
| `Auth.RestoreAfterReloadIsNoOp` | src/Components/DasbhaordComponent/MainDashboardComponent/MainDashboardComponent.jsx:28-32 | On the state a reload builds from any storage, restore changes nothing |
| `Auth.ReloadAfterLogin` | src/features/auth/authSlice.js:64-71 | When the encoding round-trips and the token is non-empty, a reload after login rebuilds exactly the session that login set |
| `Auth.NextKeepsInStep` | src/features/auth/authSlice.js:44-88 | Every reducer except `setCredentials` keeps memory and storage in step, and so does restore, given a round-tripping encoding and a non-empty login token |
| `Auth.LoginScenario` | src/features/auth/authSlice.js:64-71 | A reply with role "main" and token "t1" gives a session with role "main" and a stored token "t1" |
| `Logs.FirstTruthy` | src/Components/DasbhaordComponent/MainDashboardComponent/Logs.jsx:28-38 | The resolver returns the fallback when no candidate is truthy. Otherwise it returns the first truthy candidate's value, so its result is always the fallback or one of the truthy candidates |
| `Logs.FirstTruthyInValues` | src/Components/DasbhaordComponent/MainDashboardComponent/Logs.jsx:28-38 | When some candidate is truthy, the resolver never falls back: its result is one of the truthy candidate values |
| `Logs.GetUserName` | src/Components/DasbhaordComponent/MainDashboardComponent/Logs.jsx:28-38 | The name shown is "—" or one of the truthy candidate field values |
| `Logs.GetUserEmail` | src/Components/DasbhaordComponent/MainDashboardComponent/Logs.jsx:40-47 | The email shown is "" or one of the truthy candidate field values |
| `Logs.UserNameIsOrChain` | src/Components/DasbhaordComponent/MainDashboardComponent/Logs.jsx:29-37 | The name resolver is the `||` chain `userId.name`, `details.userName`, `request.body.name`, `request.body.email`, `response.user.name`, `response.user.email`, "—", in that order |
| `Logs.UserEmailIsOrChain` | src/Components/DasbhaordComponent/MainDashboardComponent/Logs.jsx:41-46 | The email resolver is the `||` chain `userId.email`, `response.user.email`, `request.body.email`, "", in that order |
| `Logs.UserNameDash` | src/Components/DasbhaordComponent/MainDashboardComponent/Logs.jsx:36 | When all six candidates are absent or empty the name is "—". A "—" result means either that, or that a truthy candidate is itself "—" |
| `Logs.UserIdNameWins` | src/Components/DasbhaordComponent/MainDashboardComponent/Logs.jsx:30 | A truthy `userId.name` is the name shown, whatever `details` contains |
| `Logs.EmailOrdersDiffer` | src/Components/DasbhaordComponent/MainDashboardComponent/Logs.jsx:33-44 | With only a request email and a response email set, the name shows the request email and the email line shows the response email |
| `Logs.StatusBadge` | src/Components/DasbhaordComponent/MainDashboardComponent/Logs.jsx:118-128 | A badge is shown exactly when `status` is truthy. It reads "Success" (green) exactly when `status` is "success", and "Failed" otherwise |
| `Logs.MessageText` | src/Components/DasbhaordComponent/MainDashboardComponent/Logs.jsx:133 | The message cell is the trimmed message; it is empty exactly when the message is missing or blank |

## Left out

- The axios instances, their request interceptors (which attach the bearer token from storage) and the HTTP calls are network I/O. Only their outcome is modelled: a body, or a failure with an optional server message.
- Overlapping in-flight requests, and the last-settled-wins behaviour of the status fields, are left out. The model applies one action at a time.
- JSX markup, Formik/Yup validation, the input and button components, routing, and the 300 ms loader timer in the dashboard are user-interface and third-party behaviour.
- `formatDateTime` in the log table depends on `Date` and locale formatting.
- The configs slice is an empty stub with no reducers; the store wiring and the counter and logs slices are not part of this model.
- JSON encoding of the stored user is abstract (`UserCodec`). A parse failure reads as no user, both when the store is created (authSlice.js:8) and in the dashboard's restore (MainDashboardComponent.jsx:29). There `Restore` dispatches `setCredentials` with the failed parse as a null user. `JSON.parse` on malformed stored text would throw in both places instead.
- Records are modelled with string `_id`s that are always present; a payload missing `_id`, or a response missing a field (which makes the field `undefined` in the slice), is not modelled. Server values of other JavaScript types (numbers, objects where strings are expected) are not modelled either.
- The populated `userId` of a log entry is a record or missing; an unpopulated identifier string behaves like a record with neither name nor email.
- The dashboard's own `removeItem` calls after `logout`, and its local `currentUser` copy, repeat what the slice already does and are not modelled separately.
