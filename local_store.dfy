/** The local database of notes (src/services/db.ts), seen as a map from a
    note's id to the note. `saveNote` is an upsert keyed by the note's own id
    and `deleteNote` is a no-op for an absent id. */
module LocalStore {
  import opened Wrappers
  import opened Notes

  type Store = map<string, Note>

  /** Every record is stored under its own id (the object store's key path). */
  predicate WellKeyed(s: Store) {
    forall k :: k in s ==> s[k].id == k
  }

  /** `db.getNote(id)`. */
  function Get(s: Store, id: string): (r: Option<Note>)
    ensures r.Some? <==> id in s
    ensures r.Some? ==> r.value == s[id]
  {
    if id in s then Some(s[id]) else None
  }

  /** `db.saveNote(note)`: insert or replace the whole record under `note.id`. */
  function Put(s: Store, note: Note): (r: Store)
    ensures r.Keys == s.Keys + {note.id}
    ensures r[note.id] == note
  {
    s[note.id := note]
  }

  /** A write leaves every other record as it was. */
  lemma PutKeepsOthers(s: Store, note: Note, k: string)
    requires k in s && k != note.id
    ensures Put(s, note)[k] == s[k]
  {
  }

  /** Writing a note under its own id keeps every record under its own id. */
  lemma PutKeepsWellKeyed(s: Store, note: Note)
    requires WellKeyed(s)
    ensures WellKeyed(Put(s, note))
  {
  }

  /** `db.deleteNote(id)`: drop the record, if any; the others stay. */
  function Remove(s: Store, id: string): (r: Store)
    ensures r.Keys == s.Keys - {id}
    ensures forall k :: k in r ==> r[k] == s[k]
    ensures WellKeyed(s) ==> WellKeyed(r)
  {
    s - {id}
  }

  /** A second write under the same id replaces the first entirely. */
  lemma PutOverwrites(s: Store, first: Note, second: Note)
    requires first.id == second.id
    ensures Put(Put(s, first), second) == Put(s, second)
  {
  }
}
