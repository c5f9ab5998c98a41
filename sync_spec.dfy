/** The synchronisation engine of src/services/sync.ts as pure transitions on an
    engine value. The class Sync.SyncService is proved against these functions;
    each function's contract states what the operation promises in each of its
    branches (online success, online failure, offline, missing id). */
module SyncSpec {
  import opened Wrappers
  import opened Notes
  import opened LocalStore
  import opened Remote

  /** The tag of a queued change. */
  datatype ChangeType = CreateChange | UpdateChange | DeleteChange

  /** An entry `{ type, note }` of the retry queue. */
  datatype Change = Change(kind: ChangeType, note: Note)

  /** One input/output action, in the order the engine performs it: a local
      write (`db.saveNote`), a local delete (`db.deleteNote`) or a remote request. */
  datatype Effect = Save(note: Note) | Erase(id: string) | Send(call: RemoteCall)

  /** The engine's state: the connectivity flag, the retry queue and the local store. */
  datatype Engine = Engine(isOnline: bool, syncQueue: seq<Change>, store: Store)

  /** `throw new Error('Note not found')`. */
  datatype SyncError = NoteNotFound

  /** The state after an operation, what it returned and what it did, in order. */
  datatype Step<R> = Step(next: Engine, reply: R, effects: seq<Effect>)

  /** The store after replaying the local writes of an effect log. */
  function ApplyWrites(s: Store, effects: seq<Effect>): Store
    decreases |effects|
  {
    if effects == [] then s
    else
      var last := effects[|effects| - 1];
      var before := ApplyWrites(s, effects[..|effects| - 1]);
      match last
      case Save(n) => Put(before, n)
      case Erase(id) => Remove(before, id)
      case Send(_) => before
  }

  /** The remote requests of an effect log, in order. */
  function Sent(effects: seq<Effect>): seq<RemoteCall>
    decreases |effects|
  {
    if effects == [] then []
    else
      var before := Sent(effects[..|effects| - 1]);
      match effects[|effects| - 1]
      case Send(c) => before + [c]
      case _ => before
  }

  /** A log whose first action saves an `unsynced` note records a `synced`
      note only after it saved the `syncing` copy of that first note and then
      sent a create or update request carrying exactly that copy. */
  ghost predicate SyncedOnlyAfterSyncing(effects: seq<Effect>) {
    forall i :: 0 <= i < |effects| && effects[i].Save? && effects[i].note.syncStatus == Some(Synced) ==>
      exists j ::
        && 1 <= j && j + 1 < i
        && effects[0].Save? && effects[0].note.syncStatus == Some(Unsynced)
        && effects[j] == Save(WithStatus(effects[0].note, Syncing))
        && effects[j + 1].Send? && !effects[j + 1].call.DeleteRequest?
        && effects[j + 1].call.note == effects[j].note
  }

  /** The record `createNote` builds from a fresh id and timestamp. */
  function FreshNote(id: string, title: string, content: string, now: string): (r: Note)
    ensures r.id == id && r.title == title && r.content == content && r.updatedAt == now
    ensures !r.synced && r.syncStatus == Some(Unsynced)
  {
    Note(id, title, content, now, false, Some(Unsynced))
  }

  /** The record `updateNote` builds: the updates override the existing fields,
      and then the timestamp, `synced` and `syncStatus` are reset. */
  function Updated(existing: Note, updates: NotePatch, now: string): (r: Note)
    ensures r.id == Overlay(updates.id, existing.id)
    ensures r.title == Overlay(updates.title, existing.title)
    ensures r.content == Overlay(updates.content, existing.content)
    ensures r.updatedAt == now && !r.synced && r.syncStatus == Some(Unsynced)
  {
    Merge(existing, updates).(updatedAt := now, synced := false, syncStatus := Some(Unsynced))
  }

  /** `createNote(title, content)`, with the fresh id, the timestamp and the
      outcome of the remote request given as inputs. */
  function CreateNote(e: Engine, id: string, title: string, content: string, now: string,
                      remote: RemoteOutcome): (r: Step<Note>)
    ensures r.next.isOnline == e.isOnline
    ensures |r.effects| > 0 && r.effects[0] == Save(FreshNote(id, title, content, now))
    ensures !e.isOnline ==>
      && r.reply == FreshNote(id, title, content, now)
      && r.next.store == Put(e.store, r.reply)
      && r.next.syncQueue == e.syncQueue + [Change(CreateChange, r.reply)]
      && r.effects == [Save(r.reply)]
      && Sent(r.effects) == []
    ensures e.isOnline ==>
      && |r.effects| == 4
      && r.effects[1] == Save(WithStatus(FreshNote(id, title, content, now), Syncing))
      && r.effects[2] == Send(CreateRequest(WithStatus(FreshNote(id, title, content, now), Syncing)))
      && r.effects[3] == Save(r.reply)
    ensures e.isOnline && remote.Succeeded? ==>
      && r.reply == WithStatus(remote.returned, Synced)
      && r.next.syncQueue == e.syncQueue
      && r.next.store == Put(Put(e.store, WithStatus(FreshNote(id, title, content, now), Syncing)), r.reply)
    ensures e.isOnline && remote.Failed? ==>
      && r.reply == WithStatus(FreshNote(id, title, content, now), Error)
      && r.next.store == Put(e.store, r.reply)
      && r.next.syncQueue == e.syncQueue + [Change(CreateChange, r.reply)]
  {
    var note := FreshNote(id, title, content, now);
    if !e.isOnline then
      Step(e.(store := Put(e.store, note), syncQueue := e.syncQueue + [Change(CreateChange, note)]),
           note, [Save(note)])
    else
      var syncingNote := WithStatus(note, Syncing);
      var written := Put(Put(e.store, note), syncingNote);
      var attempt := [Save(note), Save(syncingNote), Send(CreateRequest(syncingNote))];
      match remote
      case Succeeded(syncedNote) =>
        var finalNote := WithStatus(syncedNote, Synced);
        Step(e.(store := Put(written, finalNote)), finalNote, attempt + [Save(finalNote)])
      case Failed =>
        var errorNote := WithStatus(note, Error);
        PutOverwrites(e.store, note, syncingNote);
        PutOverwrites(e.store, syncingNote, errorNote);
        Step(e.(store := Put(written, errorNote), syncQueue := e.syncQueue + [Change(CreateChange, errorNote)]),
             errorNote, attempt + [Save(errorNote)])
  }

  /** `updateNote(id, updates)`, with the timestamp and the outcome of the
      remote request given as inputs. */
  function UpdateNote(e: Engine, id: string, updates: NotePatch, now: string,
                      remote: RemoteOutcome): (r: Step<Result<Note, SyncError>>)
    ensures r.reply == Failure(NoteNotFound) <==> id !in e.store
    ensures id !in e.store ==> r.next == e && r.effects == []
    ensures r.next.isOnline == e.isOnline
    ensures id in e.store ==> |r.effects| > 0 && r.effects[0] == Save(Updated(e.store[id], updates, now))
    ensures id in e.store && !e.isOnline ==>
      && r.reply == Success(Updated(e.store[id], updates, now))
      && r.next.store == Put(e.store, r.reply.value)
      && r.next.syncQueue == e.syncQueue + [Change(UpdateChange, r.reply.value)]
      && r.effects == [Save(r.reply.value)]
      && Sent(r.effects) == []
    ensures id in e.store && e.isOnline ==>
      && |r.effects| == 4
      && r.effects[1] == Save(WithStatus(Updated(e.store[id], updates, now), Syncing))
      && r.effects[2] == Send(UpdateRequest(id, WithStatus(Updated(e.store[id], updates, now), Syncing)))
      && r.reply.Success? && r.effects[3] == Save(r.reply.value)
    ensures id in e.store && e.isOnline && remote.Succeeded? ==>
      && r.reply == Success(WithStatus(remote.returned, Synced))
      && r.next.syncQueue == e.syncQueue
      && r.next.store == Put(Put(e.store, WithStatus(Updated(e.store[id], updates, now), Syncing)), r.reply.value)
    ensures id in e.store && e.isOnline && remote.Failed? ==>
      && r.reply == Success(WithStatus(Updated(e.store[id], updates, now), Error))
      && r.next.store == Put(e.store, r.reply.value)
      && r.next.syncQueue == e.syncQueue + [Change(UpdateChange, r.reply.value)]
  {
    match Get(e.store, id)
    case None => Step(e, Failure(NoteNotFound), [])
    case Some(existing) =>
      var updatedNote := Updated(existing, updates, now);
      if !e.isOnline then
        Step(e.(store := Put(e.store, updatedNote), syncQueue := e.syncQueue + [Change(UpdateChange, updatedNote)]),
             Success(updatedNote), [Save(updatedNote)])
      else
        var syncingNote := WithStatus(updatedNote, Syncing);
        var written := Put(Put(e.store, updatedNote), syncingNote);
        var attempt := [Save(updatedNote), Save(syncingNote), Send(UpdateRequest(id, syncingNote))];
        match remote
        case Succeeded(syncedNote) =>
          var finalNote := WithStatus(syncedNote, Synced);
          Step(e.(store := Put(written, finalNote)), Success(finalNote), attempt + [Save(finalNote)])
        case Failed =>
          var errorNote := WithStatus(updatedNote, Error);
          PutOverwrites(e.store, updatedNote, syncingNote);
          PutOverwrites(e.store, syncingNote, errorNote);
          Step(e.(store := Put(written, errorNote), syncQueue := e.syncQueue + [Change(UpdateChange, errorNote)]),
               Success(errorNote), attempt + [Save(errorNote)])
  }

  /** `deleteNote(id)`, with the outcome of the remote request given as input. */
  function DeleteNote(e: Engine, id: string, remoteOk: bool): (r: Step<Outcome<SyncError>>)
    ensures r.reply == Fail(NoteNotFound) <==> id !in e.store
    ensures id !in e.store ==> r.next == e && r.effects == []
    ensures r.next.isOnline == e.isOnline
    ensures id in e.store ==>
      && r.next.store == Remove(e.store, id)
      && r.effects == (if e.isOnline then [Erase(id), Send(DeleteRequest(id))] else [Erase(id)])
      && Sent(r.effects) == (if e.isOnline then [DeleteRequest(id)] else [])
      && r.next.syncQueue ==
           (if e.isOnline && remoteOk then e.syncQueue
            else e.syncQueue + [Change(DeleteChange, e.store[id])])
  {
    match Get(e.store, id)
    case None => Step(e, Fail(NoteNotFound), [])
    case Some(note) =>
      var removed := e.(store := Remove(e.store, id));
      assert [Erase(id), Send(DeleteRequest(id))][..1] == [Erase(id)] && [Erase(id)][..0] == [];
      assert Sent([Erase(id)]) == [];
      assert Sent([Erase(id), Send(DeleteRequest(id))]) == [DeleteRequest(id)];
      if e.isOnline && remoteOk then
        Step(removed, Pass, [Erase(id), Send(DeleteRequest(id))])
      else if e.isOnline then
        Step(removed.(syncQueue := e.syncQueue + [Change(DeleteChange, note)]), Pass,
             [Erase(id), Send(DeleteRequest(id))])
      else
        Step(removed.(syncQueue := e.syncQueue + [Change(DeleteChange, note)]), Pass, [Erase(id)])
  }

  /** Every record stays under its own id through `createNote`. */
  lemma CreateKeepsWellKeyed(e: Engine, id: string, title: string, content: string, now: string,
                             remote: RemoteOutcome)
    requires WellKeyed(e.store)
    ensures WellKeyed(CreateNote(e, id, title, content, now, remote).next.store)
  {
  }

  /** Every record stays under its own id through `updateNote`, even when the
      updates carry a different id. */
  lemma UpdateKeepsWellKeyed(e: Engine, id: string, updates: NotePatch, now: string, remote: RemoteOutcome)
    requires WellKeyed(e.store)
    ensures WellKeyed(UpdateNote(e, id, updates, now, remote).next.store)
  {
  }

  /** The remote request that replays a queued change. */
  function Dispatch(change: Change): (r: RemoteCall)
    ensures r.CreateRequest? <==> change.kind == CreateChange
    ensures r.DeleteRequest? <==> change.kind == DeleteChange
    ensures !r.DeleteRequest? ==> r.note == change.note
    ensures !r.CreateRequest? ==> r.id == change.note.id
  {
    match change.kind
    case CreateChange => CreateRequest(change.note)
    case UpdateChange => UpdateRequest(change.note.id, change.note)
    case DeleteChange => DeleteRequest(change.note.id)
  }

  /** The remote requests that replay a list of changes, in order. */
  function Calls(changes: seq<Change>): (r: seq<RemoteCall>)
    ensures |r| == |changes|
    ensures forall i :: 0 <= i < |changes| ==> r[i] == Dispatch(changes[i])
  {
    seq(|changes|, i requires 0 <= i < |changes| => Dispatch(changes[i]))
  }

  /** What is left of the queue after a drain, and the requests the drain sent. */
  datatype Drained = Drained(remaining: seq<Change>, sent: seq<RemoteCall>)

  /** The drain loop of `syncChanges`: while online, replay the head of the
      queue; on success drop it and go on, on failure stop. `outcomes[i]` is
      the outcome of the i-th request; a request with no outcome fails. */
  function Drain(queue: seq<Change>, online: bool, outcomes: seq<bool>): (r: Drained)
    ensures !online ==> r == Drained(queue, [])
    decreases |queue|
  {
    if queue == [] || !online then Drained(queue, [])
    else if outcomes != [] && outcomes[0] then
      var rest := Drain(queue[1..], online, outcomes[1..]);
      Drained(rest.remaining, [Dispatch(queue[0])] + rest.sent)
    else Drained(queue, [Dispatch(queue[0])])
  }

  /** A drain keeps a suffix of the queue: it removes entries from the head
      only, and what it sent is the replay of the removed entries followed, if
      it stopped on a failure, by the replay of the entry it stopped at. */
  lemma {:induction false} DrainKeepsSuffix(queue: seq<Change>, online: bool, outcomes: seq<bool>)
    ensures var r := Drain(queue, online, outcomes);
      && |r.remaining| <= |queue|
      && r.remaining == queue[|queue| - |r.remaining|..]
      && |r.sent| == |queue| - |r.remaining| + (if online && r.remaining != [] then 1 else 0)
      && r.sent == Calls(queue[..|r.sent|])
    decreases |queue|
  {
    if queue != [] && online && outcomes != [] && outcomes[0] {
      DrainKeepsSuffix(queue[1..], online, outcomes[1..]);
      var rest := Drain(queue[1..], online, outcomes[1..]);
      assert Drain(queue, online, outcomes) == Drained(rest.remaining, [Dispatch(queue[0])] + rest.sent);
      assert queue[1..][|queue| - 1 - |rest.remaining|..] == queue[|queue| - |rest.remaining|..];
      assert queue[1..][..|rest.sent|] == queue[1..|rest.sent| + 1];
      assert [Dispatch(queue[0])] + Calls(queue[1..|rest.sent| + 1]) == Calls(queue[..|rest.sent| + 1]);
    } else if queue != [] && online {
      assert Calls(queue[..1]) == [Dispatch(queue[0])];
    }
  }

  /** A drain whose first request succeeds sends it, drops the head and
      carries on with the remaining outcomes. */
  lemma DrainHeadSucceeds(queue: seq<Change>, outcomes: seq<bool>)
    requires queue != [] && outcomes != [] && outcomes[0]
    ensures var rest := Drain(queue[1..], true, outcomes[1..]);
      Drain(queue, true, outcomes) == Drained(rest.remaining, [Dispatch(queue[0])] + rest.sent)
  {
  }

  /** A drain whose first request fails sends only that request and leaves
      the queue as it was. */
  lemma DrainHeadFails(queue: seq<Change>, outcomes: seq<bool>)
    requires queue != [] && (outcomes == [] || !outcomes[0])
    ensures Drain(queue, true, outcomes) == Drained(queue, [Dispatch(queue[0])])
  {
  }

  /** `syncChanges()`: drains the queue and touches nothing else. */
  function SyncChanges(e: Engine, outcomes: seq<bool>): (r: Step<()>)
    ensures r.next.store == e.store && r.next.isOnline == e.isOnline
    ensures |r.next.syncQueue| <= |e.syncQueue|
    ensures r.next.syncQueue == e.syncQueue[|e.syncQueue| - |r.next.syncQueue|..]
  {
    var d := Drain(e.syncQueue, e.isOnline, outcomes);
    DrainKeepsSuffix(e.syncQueue, e.isOnline, outcomes);
    Step(e.(syncQueue := d.remaining), (), SendAll(d.sent))
  }

  /** The effect log of a sequence of remote requests. */
  function SendAll(calls: seq<RemoteCall>): (r: seq<Effect>)
    ensures |r| == |calls|
    ensures forall i :: 0 <= i < |calls| ==> r[i] == Send(calls[i])
  {
    seq(|calls|, i requires 0 <= i < |calls| => Send(calls[i]))
  }

  /** `handleOffline`: only the flag changes. */
  function HandleOffline(e: Engine): (r: Engine)
    ensures !r.isOnline && r.syncQueue == e.syncQueue && r.store == e.store
  {
    e.(isOnline := false)
  }

  /** `handleOnline`: set the flag, then drain. */
  function HandleOnline(e: Engine, outcomes: seq<bool>): (r: Step<()>)
    ensures r.next.isOnline && r.next.store == e.store
    ensures r.next.syncQueue == Drain(e.syncQueue, true, outcomes).remaining
  {
    SyncChanges(e.(isOnline := true), outcomes)
  }
}
