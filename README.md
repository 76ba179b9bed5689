# Radio advertisement booking client: stores and route guard

This project models, in Dafny, the client-side state of a web client for a
radio-advertisement booking platform. Advertisers upload audio and reserve
broadcast slots on radio stations. Administrators manage stations, cities,
placements and balance transactions.

What is modelled:

- **Resource stores**, one per resource: broadcast slots, audio recordings,
  placements, transactions, radio stations and cities. Each store is a Dafny
  class with the same four fields as the source: a cached list, a selected
  entity, `loading` and `error`. Each action is a method that takes the
  outcome of its remote call (`Remote.Outcome`: `Ok(value)` or a `Failure`
  with the response body and the message). The synchronous `select…`
  actions change only the selection. Every action that makes a remote call
  first sets `loading` and clears `error`. On success it changes the cache.
  On failure it records `e.response?.data || e.message` (`Remote.Reported`)
  and returns `[]` or `null`. It always ends with `loading` false. Several
  load actions differ only in the endpoint they read, and they are one
  `Load` method per store; a query datatype names the endpoint.
- **Cache operations**, as pure functions in `Cache`. `IndexOf` is
  `findIndex` by id. `ReplaceFirst` is `findIndex` followed by
  `splice(idx, 1, x)`. `Keep` and `RemoveKey` are `filter`. Lemmas cover
  length, order (`Subseq`), membership and idempotence.
- **The audio cache's two entry shapes**. The audio store finds entries by
  a nested `r.recording.id`, as if its cache held
  `{recording, fileContentBase64}` envelopes. Only `getAudioRecordingById`
  is declared to return an envelope (src/services/audio_recording.js:33).
  The list endpoints (src/services/audio_recording.js:22, 44, 55) and the
  create and update endpoints are declared to return bare recordings. The
  model keeps both shapes (`AudioRecordings.Entry = Envelope | Bare`), and
  a load's reply may hold either. Reading `r.recording` of a `Bare` entry
  throws a TypeError, and the action's own `catch` turns that into an
  error. So while a bare entry is in the cache, every `deleteRecording`
  fails locally (`BareEntryBlocksDelete`); a load that replaces the cache
  with envelopes, or with `[]`, lifts the block. With lists shaped as those
  declarations say, deletes throw after a non-empty list load, until a load
  replaces the cache, and a non-admin `loadAllowedRecordings` throws on
  every non-empty list (`OwnedBy`). The envelope-only lemmas (`OwnedByIsFilter`,
  `AllowedForNonAdmin`, `DeleteFromEntriesKeepsOrder`,
  `DeleteFromEntriesIdempotent`) describe the case where the server does
  send envelopes.
- **The session store** (`Users.UserStore`). It covers login, registration
  and logout, plus the session invariant "authenticated iff a profile is
  present".
- **The router**. It covers the route table, path resolution with the
  catch-all redirect, and the guard's decision (`Router.Decide`). The guard
  itself (`Router.BeforeEach`) bootstraps the session only when it is not
  authenticated.

Remote calls, including the per-slot lookups of `loadPlacementsFromSlots`,
are inputs to the actions. The session bootstrap `init()` is an input too:
an arbitrary function from session state to session state.

Three behaviours of the code worth noting:

- `doLogout` does not reset the other stores, and it leaves `error` alone.
- `deleteSlotsAfterStartTime` keeps slots that start exactly at the cutoff.
  It removes only slots of the station that start strictly after it.
- src/stores/user.js defines no `init`, although the route guard calls it
  (src/router/index.js:47).
- `loadStationsByName` stores the single station its endpoint is declared
  to return (src/services/radio_station.js:44-53), so the radio-station
  cache then holds an object, not an array (`RadioStations.Stations`).

## Model

| member | source | states |
|---|---|---|
| `Remote.Reported` | src/stores/broadcast_slot.js:23 | the recorded error is the response body when there is one and it is truthy; otherwise it is the failure's message |
| `Cache.IndexOf` | src/stores/broadcast_slot.js:190 | returns -1 exactly when no entry has the id; otherwise it returns the first position whose entry has it |
| `Cache.ReplaceFirst` | src/stores/broadcast_slot.js:190-191 | keeps the length and the id at every position. The first entry with the returned id becomes the returned value and all other positions are unchanged. With no match the list is unchanged |
| `Cache.Keep` | src/stores/broadcast_slot.js:289 | `filter` keeps exactly the elements that pass, each as often as in the input, and never grows the list |
| `Cache.KeepIsSubseq` | src/stores/broadcast_slot.js:289 | the elements `filter` keeps stay in their original order |
| `Cache.KeepIdempotent` | src/stores/broadcast_slot.js:209 | filtering twice by the same predicate is filtering once |
| `Cache.RemoveKey` | src/stores/broadcast_slot.js:209 | delete-by-id leaves no entry with the id, keeps every other entry with its multiplicity, and never grows the list |
| `Cache.RemoveKeyIsSubseq` | src/stores/broadcast_slot.js:209 | delete-by-id keeps the other entries in their original order |
| `Cache.RemoveAbsentKey` | src/stores/broadcast_slot.js:209 | deleting an id no entry carries leaves the list unchanged |
| `Cache.RemoveKeyIdempotent` | src/stores/broadcast_slot.js:204-215 | deleting the same id twice leaves the list as deleting it once |
| `BroadcastSlots.StrLessIrreflexive` | src/stores/broadcast_slot.js:289 | JavaScript string `<=` is reflexive: no string is below itself |
| `BroadcastSlots.StrLessTrichotomy` | src/stores/broadcast_slot.js:289 | of two different strings exactly one is below the other |
| `BroadcastSlots.AfterStartTimeDeletion` | src/stores/broadcast_slot.js:289 | a slot survives iff it is cached and belongs to another station or starts at or before the cutoff; each survivor keeps its multiplicity |
| `BroadcastSlots.AfterStartTimeDeletionKeeps` | src/stores/broadcast_slot.js:284-295 | survivors keep their order; slots starting exactly at the cutoff and slots of other stations are kept |
| `BroadcastSlots.AfterStartTimeDeletionDrops` | src/stores/broadcast_slot.js:289 | a slot of the station that starts strictly after the cutoff is removed |
| `BroadcastSlots.AfterStartTimeDeletionSplits` | src/stores/broadcast_slot.js:289 | a slot of the station survives iff it starts strictly before the cutoff or exactly at it |
| `BroadcastSlots.BroadcastSlotStore.constructor` | src/stores/broadcast_slot.js:5-10 | empty cache, no selection, not loading, no error |
| `BroadcastSlots.BroadcastSlotStore.Load` | src/stores/broadcast_slot.js:16-140 | success: the server list becomes the cache and is returned. Failure: returns `[]` with the cache unchanged and the error recorded. Either way the selection is untouched and `loading` ends false |
| `BroadcastSlots.BroadcastSlotStore.LoadSlotById` | src/stores/broadcast_slot.js:34-47 | only the selection changes, never the cache; failure returns `null`; `loading` ends false |
| `BroadcastSlots.BroadcastSlotStore.CreateSlotsFromExcel` | src/stores/broadcast_slot.js:147-160 | the created slots replace the whole cache; failure returns `[]` with the cache unchanged |
| `BroadcastSlots.BroadcastSlotStore.CreateSlot` | src/stores/broadcast_slot.js:166-179 | success appends the slot: the length grows by one and earlier entries are unchanged. Failure returns `null` with the cache unchanged |
| `BroadcastSlots.BroadcastSlotStore.ApplyReturnedSlot` | src/stores/broadcast_slot.js:188-192 | the returned slot replaces the first cached slot with its id (`ReplaceFirst`) and is returned even with no match |
| `BroadcastSlots.BroadcastSlotStore.UpdateSlot` | src/stores/broadcast_slot.js:185-199 | as `ApplyReturnedSlot`; failure returns `null` with the cache unchanged |
| `BroadcastSlots.BroadcastSlotStore.UpdateSlotStatus` | src/stores/broadcast_slot.js:222-236 | as `ApplyReturnedSlot`; failure returns `null` with the cache unchanged |
| `BroadcastSlots.BroadcastSlotStore.UpdateSlotEndTime` | src/stores/broadcast_slot.js:243-257 | as `ApplyReturnedSlot`; failure returns `null` with the cache unchanged |
| `BroadcastSlots.BroadcastSlotStore.SplitSlot` | src/stores/broadcast_slot.js:264-278 | as `ApplyReturnedSlot`; failure returns `null` with the cache unchanged |
| `BroadcastSlots.BroadcastSlotStore.DeleteSlot` | src/stores/broadcast_slot.js:204-215 | success removes every slot with the id (`RemoveKey`); failure leaves the cache unchanged and records the error |
| `BroadcastSlots.BroadcastSlotStore.DeleteSlotsAfterStartTime` | src/stores/broadcast_slot.js:284-295 | success applies `AfterStartTimeDeletion` to the cache; failure leaves it unchanged |
| `BroadcastSlots.BroadcastSlotStore.SelectSlot` | src/stores/broadcast_slot.js:300-302 | only the selection changes; `loading` and `error` are untouched |
| `AudioRecordings.FindRecording` | src/stores/audio_recording.js:114 | `findIndex` on `r.recording.id`. It finds the first envelope with the id, or reports none when every entry is a non-matching envelope. It throws only when it reaches a bare entry before a match |
| `AudioRecordings.SpliceReturned` | src/stores/audio_recording.js:113-116 | keeps the length. The matched envelope becomes the bare returned recording and every other position is unchanged. With no match the list is unchanged. It throws exactly when the search throws |
| `AudioRecordings.DeleteFromEntries` | src/stores/audio_recording.js:133 | throws iff some entry is bare. Otherwise it keeps exactly the entries whose recording id differs, each as often as in the cache, and never grows the list |
| `AudioRecordings.DeleteFromEntriesIsFilter` | src/stores/audio_recording.js:133 | on a cache of envelopes, deleting is `filter` on `recording.id !== id` |
| `AudioRecordings.DeleteFromEntriesKeepsOrder` | src/stores/audio_recording.js:133 | on envelopes, deleting keeps the rest in their original order |
| `AudioRecordings.DeleteFromEntriesIdempotent` | src/stores/audio_recording.js:128-139 | on envelopes, deleting the same id twice is deleting it once |
| `AudioRecordings.BareEntryBlocksDelete` | src/stores/audio_recording.js:95 | with a bare entry anywhere in the cache, every delete throws locally |
| `AudioRecordings.UpdateThenDeleteFails` | src/stores/audio_recording.js:115 | an update that matched leaves a bare entry, after which every delete throws |
| `AudioRecordings.OwnedBy` | src/stores/audio_recording.js:182 | throws iff the approved list is non-empty and the profile is null or some entry is bare. Otherwise it keeps exactly the approved entries the user owns |
| `AudioRecordings.OwnedByIsFilter` | src/stores/audio_recording.js:182 | for a signed-in user and envelopes only, the ownership filter is a plain `filter` on `recording.userId == profile.id` |
| `AudioRecordings.Allowed` | src/stores/audio_recording.js:178-183 | an ADMIN gets the whole approved list; anyone else, including a null profile, gets the ownership filter |
| `AudioRecordings.AllowedForNonAdmin` | src/stores/audio_recording.js:177-184 | for a non-admin the result keeps the server's order and holds exactly their own approved entries. A null profile throws on a non-empty list and yields `[]` on an empty one |
| `AudioRecordings.AudioRecordingStore.constructor` | src/stores/audio_recording.js:6-11 | empty cache, no selection, not loading, no error |
| `AudioRecordings.AudioRecordingStore.Load` | src/stores/audio_recording.js:17-84 | success: the server list becomes the cache and is returned. Failure: returns `[]` with the cache unchanged and the error recorded. `loading` ends false |
| `AudioRecordings.AudioRecordingStore.LoadRecordingById` | src/stores/audio_recording.js:35-48 | only the selection changes; failure returns `null` |
| `AudioRecordings.AudioRecordingStore.CreateRecording` | src/stores/audio_recording.js:90-103 | success appends the returned recording, bare, at the end; failure leaves the cache unchanged |
| `AudioRecordings.AudioRecordingStore.ApplyReturnedRecording` | src/stores/audio_recording.js:112-122 | success applies `SpliceReturned` and returns the recording. If the search throws, the cache is unchanged, a TypeError description is recorded and `null` is returned |
| `AudioRecordings.AudioRecordingStore.UpdateRecording` | src/stores/audio_recording.js:109-123 | as `ApplyReturnedRecording`; failure returns `null` with the cache unchanged |
| `AudioRecordings.AudioRecordingStore.UpdateRecordingStatus` | src/stores/audio_recording.js:146-160 | as `ApplyReturnedRecording`; failure returns `null` with the cache unchanged |
| `AudioRecordings.AudioRecordingStore.DeleteRecording` | src/stores/audio_recording.js:128-139 | success applies `DeleteFromEntries`. If that throws, the cache is unchanged and a TypeError description is recorded. Failure leaves the cache unchanged |
| `AudioRecordings.AudioRecordingStore.SelectRecording` | src/stores/audio_recording.js:165-167 | only the selection changes |
| `AudioRecordings.AudioRecordingStore.LoadAllowedRecordings` | src/stores/audio_recording.js:171-191 | reads the session's profile. The cache becomes `Allowed(profile, approved)` and is returned. On a fetch failure or a thrown filter it returns `[]`, leaves the cache unchanged and records the error. `loading` ends false |
| `Placements.Present` | src/stores/placement.js:61-64 | a lookup contributes one placement iff it succeeded with a non-null body |
| `Placements.Gathered` | src/stores/placement.js:59-64 | one placement at most per slot: the result is never longer than the slot list |
| `Placements.GatheredMembers` | src/stores/placement.js:59-64 | a placement is in the result iff the lookup of some slot's id found it |
| `Placements.GatheredAppend` | src/stores/placement.js:59-64 | gathering over two slot lists is the two results concatenated, in order |
| `Placements.FailedLookupIsDropped` | src/stores/placement.js:61 | a slot whose lookup failed contributes nothing and does not change what the other slots contribute |
| `Placements.AllLookupsPresent` | src/stores/placement.js:59-64 | when every lookup finds a placement, the result lists them slot by slot |
| `Placements.GatheredUsesSlotIds` | src/stores/placement.js:59-60 | the result depends on the server only through one lookup per slot, keyed by that slot's id |
| `Placements.PlacementStore.constructor` | src/stores/placement.js:5-11 | empty cache, no selection, not loading, no error |
| `Placements.PlacementStore.LoadAllPlacements` | src/stores/placement.js:16-28 | success: the server list becomes the cache and is returned. Failure: returns `[]` with the cache unchanged |
| `Placements.PlacementStore.LoadPlacementById` | src/stores/placement.js:35-48 | looks up by broadcast-slot id. Only the selection changes; failure returns `null` |
| `Placements.PlacementStore.LoadPlacementsFromSlots` | src/stores/placement.js:55-72 | the cache becomes `Gathered(slots, lookup)` and is returned. No error is recorded and `loading` ends false |
| `Placements.PlacementStore.CreatePlacement` | src/stores/placement.js:79-93 | success appends the placement and selects it; failure changes neither |
| `Placements.PlacementStore.UpdatePlacement` | src/stores/placement.js:100-115 | success applies `ReplaceFirst` and selects the returned placement even without a match; failure changes neither |
| `Placements.PlacementStore.DeletePlacement` | src/stores/placement.js:121-132 | success removes every placement with the id; failure leaves the cache unchanged |
| `Placements.PlacementStore.SelectPlacement` | src/stores/placement.js:138-140 | only the selection changes |
| `Transactions.TransactionStore.constructor` | src/stores/transaction.js:6-11 | empty cache, no selection, not loading, no error |
| `Transactions.TransactionStore.Load` | src/stores/transaction.js:17-121 | success: the server list becomes the cache and is returned. Failure: returns `[]` with the cache and selection unchanged |
| `Transactions.TransactionStore.LoadTransactionById` | src/stores/transaction.js:35-48 | only the selection changes; failure returns `null` with both unchanged |
| `Transactions.TransactionStore.Create` | src/stores/transaction.js:127-159 | both creation endpoints append the returned transaction at the end; failure leaves the cache unchanged |
| `Transactions.TransactionStore.DeleteTransaction` | src/stores/transaction.js:164-175 | success removes every transaction with the id, keeping the rest in order (`RemoveKey`); failure leaves the cache unchanged |
| `RadioStations.RadioStationStore.constructor` | src/stores/radio_station.js:5-10 | empty array cache, no selection, not loading, no error |
| `RadioStations.RadioStationStore.Load` | src/stores/radio_station.js:16-120 | all, by frequency or by city: success makes the server list the cache and returns it. Failure returns `[]` with the cache unchanged |
| `RadioStations.RadioStationStore.LoadByName` | src/stores/radio_station.js:72-84 | success makes the cache the lone station the endpoint returns, not a list, and returns it. Failure returns `[]` with the cache unchanged and the error recorded |
| `RadioStations.RadioStationStore.LoadOne` | src/stores/radio_station.js:34-66 | by id or by representative: only the selection changes, never the cache; failure returns `null` |
| `RadioStations.RadioStationStore.SelectStation` | src/stores/radio_station.js:125-127 | only the selection changes |
| `RadioStations.RadioStationStore.CreateStation` | src/stores/radio_station.js:133-148 | success makes the cache the one-element array of the new station and selects it. Failure returns `null` with the cache and selection unchanged |
| `Cities.CityStore.constructor` | src/stores/city.js:5-10 | empty cache, no selection, not loading, no error |
| `Cities.CityStore.Load` | src/stores/city.js:16-103 | success: the server list becomes the cache. Failure: returns `[]` with the cache unchanged and the error recorded |
| `Cities.CityStore.LoadOne` | src/stores/city.js:34-67 | by id or by name and region: only the selection changes; failure returns `null` with it unchanged |
| `Cities.CityStore.SelectCity` | src/stores/city.js:108-110 | only the selection changes |
| `Users.RoleOf` | src/router/index.js:50 | `profile?.role` is present exactly when a profile is, and is then that profile's role |
| `Users.UserStore.constructor` | src/stores/user.js:6-11 | signed out: no profile, not authenticated, so consistent |
| `Users.UserStore.Init` | src/router/index.js:47 | the bootstrap is an arbitrary transition of the session state |
| `Users.UserStore.DoLogin` | src/stores/user.js:14-29 | returns true iff the call succeeded. Success stores the reply body as the profile, sets `isAuth` and leaves no error. Failure records the error and clears the profile and `isAuth`. Either way the session stays consistent unless the reply body is null. `loading` ends false |
| `Users.UserStore.DoRegister` | src/stores/user.js:31-43 | returns true iff the call succeeded and never changes `profile` or `isAuth` |
| `Users.UserStore.DoLogout` | src/stores/user.js:45-55 | whatever the server answers: no profile, not authenticated, not loading, `error` untouched |
| `Router.LowerKeepsLowercase` | src/router/index.js:18-36 | a path without upper-case ASCII letters matches itself |
| `Router.SelectFrom` | src/router/index.js:16-37 | the selected record matches the path and no earlier record does; the catch-all guarantees a match |
| `Router.Select` | src/router/index.js:16-37 | the first record of the table that matches the path |
| `Router.HomePathIsHome` | src/router/index.js:26 | `/home` selects the Home page |
| `Router.Resolve` | src/router/index.js:34-36 | after at most one redirect every path ends on a page of the table |
| `Router.UnknownPathsGoHome` | src/router/index.js:34-36 | `/` and every path that no page declares end on Home |
| `Router.Decide` | src/router/index.js:52-58 | a protected page while signed out goes to Login, before any role check. A role-restricted page whose role is absent or not listed goes to Home. Navigation proceeds exactly when both checks pass |
| `Router.PublicPagesProceed` | src/router/index.js:18-24 | Login, ForgotPassword, ResetPassword and Register proceed in every session state |
| `Router.AudioAccess` | src/router/index.js:30 | `/audio` sends a signed-out visit to Login and a RADIO_REPRESENTATIVE to Home, and admits ADMIN and ADVERTISER |
| `Router.NoDoubleRedirect` | src/router/index.js:52-58 | every redirect target exists and admits the next navigation, whatever a bootstrap does to a signed-out session |
| `Router.BeforeEach` | src/router/index.js:44-59 | bootstraps exactly when the session is not authenticated, leaves it untouched otherwise, and returns `Decide` on the settled session |

## Left out

- The service modules under src/services/: each becomes the `Outcome` an action receives. URL building, query parameters, multipart upload and file download are not modelled.
- The HTTP client `./http` is not part of this model.
- Asynchronous interleaving: each action is one atomic step. So `loading` being true while a call is in flight is not observable, and neither is last-write-wins between overlapping actions. The `Promise.all` fan-out of `loadPlacementsFromSlots` is a function from slot id to lookup outcome.
- `Placements.Gathered`: because the lookup is a function of the slot id, two slots with the same id always get the same outcome. The source sends one request per slot (src/stores/placement.js:59-62), and two requests for the same id could answer differently.
- Arrays as values: every cache is a `seq` that the methods reassign, so aliasing is not modelled. In the source a load returns the very array the store keeps (e.g. src/stores/broadcast_slot.js:21, 152-153). A later in-place `push` or `splice` changes that array for the caller too: src/stores/broadcast_slot.js:171, 191, 228, 249, 270; src/stores/audio_recording.js:95, 115, 152; src/stores/placement.js:84, 106; src/stores/transaction.js:132, 151. A `filter` reassigns the field instead (src/stores/broadcast_slot.js:209, 289), so an array a caller already holds goes stale. The model states only the store's new contents.
- `Placements.PlacementStore.LoadPlacementsFromSlots`: the outer `catch` is not modelled. With a list of slot objects nothing in that `try` can throw.
- `Users.UserStore.Init`: src/stores/user.js defines no `init`, so the bootstrap is an arbitrary function of the session state. As the file stands, calling the missing `init` would throw.
- Resetting the other stores on logout: the logout action does not do it.
- `Router.Resolve`: the router's path handling is reduced to ASCII case-folding and one optional trailing slash. Percent-decoding, query strings, hashes and non-ASCII case folding are not modelled. Only the one redirect the table needs is followed.
- `Router.BeforeEach`: only the guard's decision is modelled. The `next()` callback, history and lazy component loading are not.
- `BroadcastSlots.StrLess`: this compares Unicode scalar values, whereas JavaScript compares UTF-16 code units. The two orders differ only above U+FFFF, which never occurs in ISO 8601 timestamps.
- `Remote.Reported`: truthiness is modelled for text and JSON bodies only. Numeric and boolean bodies are not modelled.
- `Remote.PropertyReadError`: the exact text of the TypeError depends on the JavaScript engine.
- Numbers (`balance`, `amount`, `cost`, `frequency`) are integers here; floating point is not modelled.
- `toLocalISOString` in src/utils/date.js: it depends on the host clock and timezone.
- Build configuration, application mounting and component rendering are not modelled.
- The radio-station store imports its service as `@/services/radioStation`, while the service file is named radio_station.js. Module resolution is not part of this model.
