# Offline-first note synchronisation engine, in Dafny

This project models the synchronisation engine of a notes application
(`SyncService` in `src/services/sync.ts`) and proves properties of it.
The engine keeps notes in a local key-value store. It replicates every
create, update and delete to a remote note service when it is online. When it
is offline, or when the remote request fails, it records the change in an
in-memory FIFO retry queue. It replays that queue head first when connectivity
returns, and the replay stops at the first failure.

Modules, one per part of the program:

- `Wrappers` (`wrappers.dfy`): `Option`, `Result` and `Outcome`.
- `Notes` (`note.dfy`): the `Note` record of `src/types/Note.ts`, with its
  optional four-valued `syncStatus` and its `synced` flag. Also `NotePatch`
  (a `Partial<Note>`) and `Merge`, the object spread `{ ...note, ...updates }`.
- `LocalStore` (`local_store.dfy`): the local database of `src/services/db.ts`
  as a `map<string, Note>` keyed by each note's own id. It has get, put (an
  upsert) and delete.
- `Remote` (`remote.dfy`): the requests of `src/services/api.ts` and their
  outcome.
- `SyncSpec` (`sync_spec.dfy`): each engine operation as a pure transition on
  an `Engine` value (connectivity flag, retry queue, store). Each transition
  returns the next state, the operation's reply and an effect log. The log
  lists every local write, local delete and remote request, in order.
- `Sync` (`sync_service.dfy`): the class `SyncService` with fields
  `isOnline`, `syncQueue` and `store`. Its methods update these fields step by
  step, like the source does. `SyncChanges` is a `while` loop that shifts the
  queue and breaks at the first failure. `CreateNote`, `UpdateNote` and
  `DeleteNote` are proved to produce exactly the state, reply and effects of
  the `SyncSpec` transition of the same name. `SyncChanges` is proved to end
  with the queue and the sent requests of `SyncSpec.Drain`, and with the state
  and effect log of `SyncSpec.SyncChanges`. `HandleOnline`
  matches the state and sent requests of `SyncSpec.HandleOnline`, and
  `HandleOffline` the state of `SyncSpec.HandleOffline`. The class keeps the
  invariant that every record is stored under its own id.
- `SyncLaws` (`sync_laws.dfy`): properties that need a proof or that relate
  several operations.

These outside inputs are method parameters:

- the fresh uuid, with `id !in store` on `Sync.SyncService.CreateNote`;
- the clock reading;
- the remote service's reply (`Succeeded(note)` or `Failed` for create and
  update, a `bool` for delete);
- the outcome of each request the drain sends, as a `seq<bool>`. A request
  with no outcome in the sequence counts as failed.

The `online` and `offline` window events become calls of `HandleOnline` and
`HandleOffline`.

## Behaviour kept from the code

The model keeps these behaviours of the code as they are:

- A drained create is not marked `synced` locally: `syncChanges` sends the
  request and writes nothing back to the store. A drain writes nothing to the
  store, so every local record is what it was just before the reconnect
  (`SyncLaws.DrainWritesNothing`). In particular, a note created offline still
  reads `unsynced` after its create is drained
  (`SyncLaws.CreateOfflineThenReconnect`).
- On an online success, the stored note is the service's reply with
  `syncStatus` set to `synced`. Its `synced` flag is whatever the service
  returned; the engine does not set it.
- On an online create, if the service returns a different id, the note is
  saved under the returned id. The `syncing` record under the local id stays
  in the store. `SyncSpec.CreateNote` states this store as two writes, and
  `SyncLaws.CreateOnlineSameId` covers the case where the ids match.
- `updateNote` spreads the updates over the existing note, so an update that
  carries an `id` field writes the merged note under that new id. The old
  record stays, and the remote update is still addressed to the original id.
  The editor only ever sends `{ title }` or `{ content }`.

## Model

| member | source | states |
|---|---|---|
| `Notes.Merge` | src/services/sync.ts:59-61 | every field present in the updates replaces the note's field; every absent field keeps its value |
| `Notes.WithStatus` | src/services/sync.ts:37-44 | the copy has the given `syncStatus`, and no other field changes |
| `LocalStore.Get` | src/services/db.ts:32-35 | returns the record exactly when the id is present, and then it is the stored record |
| `LocalStore.Put` | src/services/db.ts:37-40 | the upsert adds the note's id to the keys and stores the whole note under its own id |
| `LocalStore.PutKeepsOthers` | src/services/db.ts:37-40 | a write leaves every record under another id unchanged |
| `LocalStore.PutKeepsWellKeyed` | src/services/db.ts:21 | writing a note keeps every record stored under its own id (key path `id`) |
| `LocalStore.PutOverwrites` | src/services/db.ts:37-40 | a second write under the same id fully replaces the first |
| `LocalStore.Remove` | src/services/db.ts:42-45 | removes exactly that id, leaves the other records unchanged, does nothing for an absent id, and keeps records under their own ids |
| `SyncSpec.FreshNote` | src/services/sync.ts:25-32 | a new note has the given id, title, content and timestamp, `synced = false` and status `unsynced` |
| `SyncSpec.Updated` | src/services/sync.ts:59-65 | the updates override the existing fields, then `updatedAt` becomes the new time, `synced` false and the status `unsynced` |
| `SyncSpec.CreateNote` | src/services/sync.ts:24-53 | the fresh note is saved first. Offline: the fresh note is stored and returned, exactly one `{create, note}` is appended, and no remote request is made. Online: the `syncing` copy is saved and then sent. On success the reply is the service's note marked `synced`, it is the last save, and the queue is unchanged. On failure the `error` copy is stored, saved last, returned and appended as `{create, errorNote}` |
| `SyncSpec.UpdateNote` | src/services/sync.ts:55-86 | fails with not-found exactly when the id is absent, and then changes nothing and does nothing. Otherwise the merged note is saved first and then follows the same offline, online-success and online-failure cases as create, with `{update, ...}` entries, a request addressed to the original id, and the returned note as the last save |
| `SyncSpec.DeleteNote` | src/services/sync.ts:88-102 | fails with not-found exactly when the id is absent, and then changes nothing. Otherwise the record is removed in every branch. The pre-deletion snapshot is appended as `{delete, note}` when offline or when the remote delete fails, and the queue is unchanged when it succeeds. A delete request for the id is sent exactly when online |
| `SyncSpec.CreateKeepsWellKeyed` | src/services/sync.ts:34-45 | `createNote` keeps every record under its own id |
| `SyncSpec.UpdateKeepsWellKeyed` | src/services/sync.ts:67-78 | `updateNote` keeps every record under its own id, even when the updates carry another id |
| `SyncSpec.Dispatch` | src/services/sync.ts:108-118 | each change tag selects its own request: a create sends the note, an update sends the note addressed to the note's id, and a delete sends only the note's id |
| `SyncSpec.Calls` | src/services/sync.ts:108-118 | the i-th request replays the i-th change, dispatched on its tag |
| `SyncSpec.Drain` | src/services/sync.ts:105-124 | offline the drain sends nothing and leaves the queue as it is. Its online behaviour is stated by `SyncSpec.DrainKeepsSuffix`, `SyncSpec.DrainHeadSucceeds`, `SyncSpec.DrainHeadFails`, `SyncLaws.DrainHalts` and `SyncLaws.DrainEmptiesIff` |
| `SyncSpec.DrainKeepsSuffix` | src/services/sync.ts:104-124 | the drain only removes entries from the head, so what remains is a suffix of the queue. The requests sent are the removed entries replayed in order, plus the entry it stopped at if it stopped on a failure |
| `SyncSpec.DrainHeadSucceeds` | src/services/sync.ts:106-119 | a successful head request is sent, the head alone is shifted off, and the drain continues |
| `SyncSpec.DrainHeadFails` | src/services/sync.ts:106-123 | a failed head request is the only request sent, and the queue stays as it was |
| `SyncSpec.SyncChanges` | src/services/sync.ts:104-125 | draining leaves the store and the flag unchanged, and the queue ends as a suffix of what it was |
| `SyncSpec.HandleOffline` | src/services/sync.ts:20-22 | only the flag changes, to offline |
| `SyncSpec.HandleOnline` | src/services/sync.ts:15-18 | the flag becomes online, the store is unchanged, and the queue is what an online drain leaves |
| `Sync.SyncService.constructor` | src/services/sync.ts:6-13 | a new service starts with the given connectivity, an empty queue and the persisted store |
| `Sync.SyncService.CreateNote` | src/services/sync.ts:24-53 | the in-place update yields exactly the state, returned note and effects of `SyncSpec.CreateNote`, and keeps the store keyed by id |
| `Sync.SyncService.UpdateNote` | src/services/sync.ts:55-86 | the in-place update yields exactly the state, result and effects of `SyncSpec.UpdateNote`, and keeps the store keyed by id |
| `Sync.SyncService.DeleteNote` | src/services/sync.ts:88-102 | the in-place update yields exactly the state, result and effects of `SyncSpec.DeleteNote` |
| `Sync.SyncService.SyncChanges` | src/services/sync.ts:104-125 | the loop leaves `isOnline` and the store unchanged, and ends with the queue and the sent requests that `SyncSpec.Drain` gives, which is the state and effect log of `SyncSpec.SyncChanges` |
| `Sync.SyncService.HandleOnline` | src/services/sync.ts:15-18 | sets the flag, then drains, as `SyncSpec.HandleOnline` |
| `Sync.SyncService.HandleOffline` | src/services/sync.ts:20-22 | only sets the flag to offline |
| `SyncLaws.DrainHalts` | src/services/sync.ts:105-123 | drain-halt law: if the first k requests succeed and the (k+1)-th fails, exactly the first k entries are removed. The failed entry and all later ones stay in order, and exactly the first k+1 entries were sent, head first |
| `SyncLaws.DrainEmptiesIff` | src/services/sync.ts:105-119 | online, the queue ends empty if and only if every entry has a successful outcome, and then every entry was sent once, in order |
| `SyncLaws.SendsWriteNothing` | src/services/sync.ts:104-125 | remote requests do not write the local store |
| `SyncLaws.CreateReplaysItsWrites` | src/services/sync.ts:34-51 | the store after `createNote` is the old store with the operation's own writes replayed in order |
| `SyncLaws.UpdateReplaysItsWrites` | src/services/sync.ts:56-84 | the same for `updateNote` |
| `SyncLaws.DeleteReplaysItsWrites` | src/services/sync.ts:89-101 | the same for `deleteNote` |
| `SyncLaws.DrainWritesNothing` | src/services/sync.ts:15-18 | reconnecting and draining only send requests, so the store is unchanged |
| `SyncLaws.CreatePassesThroughSyncing` | src/services/sync.ts:35-42 | a note is saved as `synced` only after the `syncing` copy of the first saved note (the fresh `unsynced` one) is saved, and right after that a create-or-update request carrying exactly that copy is sent |
| `SyncLaws.UpdatePassesThroughSyncing` | src/services/sync.ts:68-75 | the same status order for `updateNote`: the `syncing` copy of the merged `unsynced` note is saved, then a create-or-update request carrying it is sent, before any `synced` save |
| `SyncLaws.CreateOnlineSameId` | src/services/sync.ts:39-41 | when the service echoes the local id, the online create leaves one record, marked `synced` |
| `SyncLaws.MutationsOnlyAppend` | src/services/sync.ts:46-100 | over any run of create, update and delete calls, whatever the replies: the old queue is a prefix of the new one, at most one entry is added per call, and connectivity does not change |
| `SyncLaws.Logged` | src/services/sync.ts:49-100 | an offline call logs at most one change, and logs none exactly when it is an update or delete of a missing note |
| `SyncLaws.OfflineStepLogs` | src/services/sync.ts:49-100 | one offline call keeps the engine offline and appends exactly its logged change to the queue |
| `SyncLaws.OfflineRunQueuesEachCall` | src/services/sync.ts:49-100 | offline, the queue ends as the old queue followed by each call's logged change, once and in call order |
| `SyncLaws.UpdateThenDeleteInOrder` | src/services/sync.ts:82-119 | ordering law: an offline update that keeps the note's id, then a delete of that note, queues `{update, u}` then `{delete, u}`. On reconnect the update request goes out first, the delete goes out right after it or not at all, and an unsent delete stays at the tail |
| `SyncLaws.CreateOfflineThenReconnect` | src/services/sync.ts:49-119 | a note created offline is queued once. A successful reconnect empties the queue and sends that note, and the local record still reads `unsynced` |

## Left out

- Network and JSON (`src/services/api.ts`): each request is one outcome
  passed in by the caller. Its status detail and error message are not
  modelled.
- `getAllNotes` of `src/services/api.ts` and `src/services/db.ts` is not
  modelled. It is a read the engine never calls, and its `by-updatedAt` order
  comes from the database library.
- The lazy `init` of the local database is not modelled; it is library
  behaviour.
- Local store failures are not modelled: every local write succeeds. In the
  source, a failing `db.saveNote` inside the `try` block of an online create
  or update lands in the same `catch` as a remote failure.
- Asynchronous interleaving is not modelled. Each operation is one atomic
  step. `handleOnline` does not await `syncChanges`, so a second reconnect or
  a mutation could interleave with a running drain; the model does not show
  this. The drain loop re-reads `isOnline` before every request, and in the
  model the flag cannot change during a drain.
- The service singleton and its registration of window event listeners are
  not modelled. The environment calls `HandleOnline` and `HandleOffline`
  instead.
- The `console.error` logging of a failed drain is not modelled; it is output
  only.
- `Notes.NotePatch` cannot hold a key that is present with the value
  `undefined`. Such a key would overwrite a field with `undefined` in the
  spread.
- The React UI (`src/App.tsx`, `src/components/`) is not part of this model.
  That covers the debounce timer, search filtering and preview truncation.
