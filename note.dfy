/** The one entity of the application: a note with its synchronisation metadata
    (src/types/Note.ts). */
module Notes {
  import opened Wrappers

  /** Where a note stands in the replication pipeline. */
  datatype SyncStatus = Synced | Syncing | Unsynced | Error

  /** A note record. `syncStatus` is an optional field, so it may be absent. */
  datatype Note = Note(
    id: string,
    title: string,
    content: string,
    updatedAt: string,
    synced: bool,
    syncStatus: Option<SyncStatus>)

  /** A `Partial<Note>`: every field may be present or absent. */
  datatype NotePatch = NotePatch(
    id: Option<string>,
    title: Option<string>,
    content: Option<string>,
    updatedAt: Option<string>,
    synced: Option<bool>,
    syncStatus: Option<SyncStatus>)

  /** The value of a field after a spread: the patch's value when present. */
  function Overlay<T>(field: Option<T>, base: T): T {
    match field
    case Some(v) => v
    case None => base
  }

  /** `{ ...note, ...updates }`: every field present in the patch replaces the
      note's, every absent field keeps the note's value. */
  function Merge(note: Note, updates: NotePatch): (r: Note)
    ensures updates.id.None? ==> r.id == note.id
    ensures updates.id.Some? ==> r.id == updates.id.value
    ensures updates.title.None? ==> r.title == note.title
    ensures updates.title.Some? ==> r.title == updates.title.value
    ensures updates.content.None? ==> r.content == note.content
    ensures updates.content.Some? ==> r.content == updates.content.value
    ensures updates.updatedAt.None? ==> r.updatedAt == note.updatedAt
    ensures updates.updatedAt.Some? ==> r.updatedAt == updates.updatedAt.value
    ensures updates.synced.None? ==> r.synced == note.synced
    ensures updates.synced.Some? ==> r.synced == updates.synced.value
    ensures updates.syncStatus.None? ==> r.syncStatus == note.syncStatus
    ensures updates.syncStatus.Some? ==> r.syncStatus == updates.syncStatus
  {
    Note(
      Overlay(updates.id, note.id),
      Overlay(updates.title, note.title),
      Overlay(updates.content, note.content),
      Overlay(updates.updatedAt, note.updatedAt),
      Overlay(updates.synced, note.synced),
      if updates.syncStatus.Some? then updates.syncStatus else note.syncStatus)
  }

  /** The same note with its status field set. */
  function WithStatus(note: Note, status: SyncStatus): (r: Note)
    ensures r.syncStatus == Some(status)
    ensures r.(syncStatus := note.syncStatus) == note
  {
    note.(syncStatus := Some(status))
  }
}
