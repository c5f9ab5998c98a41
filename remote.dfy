/** The remote note service (src/services/api.ts), seen only through the requests
    the engine sends and the outcome each one has. */
module Remote {
  import opened Notes

  /** `api.createNote(note)`, `api.updateNote(id, note)` and `api.deleteNote(id)`. */
  datatype RemoteCall =
    | CreateRequest(note: Note)
    | UpdateRequest(id: string, note: Note)
    | DeleteRequest(id: string)

  /** What a create or update request yields: the note the service returns, or
      a failure (a network error or a non-2xx response). */
  datatype RemoteOutcome = Succeeded(returned: Note) | Failed
}
