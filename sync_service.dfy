/** The `SyncService` class of src/services/sync.ts: an object whose methods
    update the connectivity flag, the retry queue and the local store step by
    step. Each method is proved against the transition of the same name in
    SyncSpec; `SyncChanges` is also proved to end with the queue and the sent
    requests of `SyncSpec.Drain`. The fresh id, the clock and the remote service's replies are
    inputs of the methods. */
module Sync {
  import opened Wrappers
  import opened Notes
  import opened LocalStore
  import opened Remote
  import opened SyncSpec

  class SyncService {
    var isOnline: bool
    var syncQueue: seq<Change>
    /** The local database the service writes through. */
    var store: Store

    ghost predicate Valid()
      reads this
    {
      WellKeyed(store)
    }

    /** The abstract state of the service. */
    function State(): Engine
      reads this
    {
      Engine(isOnline, syncQueue, store)
    }

    /** A new service starts with the runtime's connectivity flag, an empty
        queue and whatever the local database already holds. */
    constructor (online: bool, persisted: Store)
      requires WellKeyed(persisted)
      ensures Valid()
      ensures State() == Engine(online, [], persisted)
    {
      isOnline := online;
      syncQueue := [];
      store := persisted;
    }

    /** `createNote(title, content)`; `id` is the fresh identifier, `now` the
        current time and `remote` the reply of the create request, if one is sent. */
    method CreateNote(title: string, content: string, id: string, now: string, remote: RemoteOutcome)
      returns (note: Note, effects: seq<Effect>)
      requires Valid()
      requires id !in store
      modifies this
      ensures Valid()
      ensures var step := SyncSpec.CreateNote(old(State()), id, title, content, now, remote);
        State() == step.next && note == step.reply && effects == step.effects
    {
      note := Note(id, title, content, now, false, Some(Unsynced));
      store := Put(store, note);
      effects := [Save(note)];
      if isOnline {
        var syncingNote := note.(syncStatus := Some(Syncing));
        store := Put(store, syncingNote);
        effects := effects + [Save(syncingNote), Send(CreateRequest(syncingNote))];
        match remote
        case Succeeded(syncedNote) =>
          var finalNote := syncedNote.(syncStatus := Some(Synced));
          store := Put(store, finalNote);
          effects := effects + [Save(finalNote)];
          note := finalNote;
        case Failed =>
          var errorNote := note.(syncStatus := Some(Error));
          store := Put(store, errorNote);
          effects := effects + [Save(errorNote)];
          syncQueue := syncQueue + [Change(CreateChange, errorNote)];
          note := errorNote;
      } else {
        syncQueue := syncQueue + [Change(CreateChange, note)];
      }
      CreateKeepsWellKeyed(old(State()), id, title, content, now, remote);
    }

    /** `updateNote(id, updates)`; `now` is the current time and `remote` the
        reply of the update request, if one is sent. */
    method UpdateNote(id: string, updates: NotePatch, now: string, remote: RemoteOutcome)
      returns (result: Result<Note, SyncError>, effects: seq<Effect>)
      requires Valid()
      modifies this
      ensures Valid()
      ensures var step := SyncSpec.UpdateNote(old(State()), id, updates, now, remote);
        State() == step.next && result == step.reply && effects == step.effects
    {
      var existingNote := Get(store, id);
      if existingNote.None? {
        return Failure(NoteNotFound), [];
      }
      var updatedNote := Merge(existingNote.value, updates).(updatedAt := now, synced := false, syncStatus := Some(Unsynced));
      store := Put(store, updatedNote);
      effects := [Save(updatedNote)];
      if isOnline {
        var syncingNote := updatedNote.(syncStatus := Some(Syncing));
        store := Put(store, syncingNote);
        effects := effects + [Save(syncingNote), Send(UpdateRequest(id, syncingNote))];
        match remote
        case Succeeded(syncedNote) =>
          var finalNote := syncedNote.(syncStatus := Some(Synced));
          store := Put(store, finalNote);
          effects := effects + [Save(finalNote)];
          result := Success(finalNote);
        case Failed =>
          var errorNote := updatedNote.(syncStatus := Some(Error));
          store := Put(store, errorNote);
          effects := effects + [Save(errorNote)];
          syncQueue := syncQueue + [Change(UpdateChange, errorNote)];
          result := Success(errorNote);
      } else {
        syncQueue := syncQueue + [Change(UpdateChange, updatedNote)];
        result := Success(updatedNote);
      }
      UpdateKeepsWellKeyed(old(State()), id, updates, now, remote);
    }

    /** `deleteNote(id)`; `remoteOk` is the outcome of the delete request, if
        one is sent. */
    method DeleteNote(id: string, remoteOk: bool) returns (result: Outcome<SyncError>, effects: seq<Effect>)
      requires Valid()
      modifies this
      ensures Valid()
      ensures var step := SyncSpec.DeleteNote(old(State()), id, remoteOk);
        State() == step.next && result == step.reply && effects == step.effects
    {
      var note := Get(store, id);
      if note.None? {
        return Fail(NoteNotFound), [];
      }
      store := Remove(store, id);
      effects := [Erase(id)];
      if isOnline {
        effects := effects + [Send(DeleteRequest(id))];
        if !remoteOk {
          syncQueue := syncQueue + [Change(DeleteChange, note.value)];
        }
      } else {
        syncQueue := syncQueue + [Change(DeleteChange, note.value)];
      }
      result := Pass;
    }

    /** `syncChanges()`: replay the queue head first while online, dropping
        each entry whose request succeeds and stopping at the first failure.
        `outcomes[i]` is the outcome of the i-th request sent; `sent` lists
        the requests in the order they were sent. */
    method SyncChanges(outcomes: seq<bool>) returns (sent: seq<RemoteCall>)
      requires Valid()
      modifies this
      ensures Valid()
      ensures isOnline == old(isOnline) && store == old(store)
      ensures syncQueue == Drain(old(syncQueue), isOnline, outcomes).remaining
      ensures sent == Drain(old(syncQueue), isOnline, outcomes).sent
      ensures var step := SyncSpec.SyncChanges(old(State()), outcomes);
        State() == step.next && SendAll(sent) == step.effects
    {
      sent := [];
      var attempt := 0;
      ghost var target := Drain(syncQueue, isOnline, outcomes);
      while |syncQueue| > 0 && isOnline
        invariant attempt <= |old(syncQueue)| && syncQueue == old(syncQueue)[attempt..]
        invariant attempt <= |outcomes|
        invariant isOnline == old(isOnline) && store == old(store)
        invariant target.remaining == Drain(syncQueue, isOnline, outcomes[attempt..]).remaining
        invariant target.sent == sent + Drain(syncQueue, isOnline, outcomes[attempt..]).sent
        decreases |syncQueue|
      {
        var change := syncQueue[0];
        var call: RemoteCall;
        match change.kind {
          case CreateChange => call := CreateRequest(change.note);
          case UpdateChange => call := UpdateRequest(change.note.id, change.note);
          case DeleteChange => call := DeleteRequest(change.note.id);
        }
        assert call == Dispatch(change);
        ghost var queue, replies := syncQueue, outcomes[attempt..];
        if attempt == |outcomes| || !outcomes[attempt] {
          DrainHeadFails(queue, replies);
          sent := sent + [call];
          break;
        }
        DrainHeadSucceeds(queue, replies);
        ghost var rest := Drain(queue[1..], true, replies[1..]);
        assert sent + ([call] + rest.sent) == (sent + [call]) + rest.sent;
        sent := sent + [call];
        syncQueue := syncQueue[1..];
        attempt := attempt + 1;
        assert replies[1..] == outcomes[attempt..];
      }
    }

    /** The `online` event: set the flag, then drain the queue. */
    method HandleOnline(outcomes: seq<bool>) returns (sent: seq<RemoteCall>)
      requires Valid()
      modifies this
      ensures Valid()
      ensures var step := SyncSpec.HandleOnline(old(State()), outcomes);
        State() == step.next && SendAll(sent) == step.effects
    {
      isOnline := true;
      sent := SyncChanges(outcomes);
    }

    /** The `offline` event: only the flag changes. */
    method HandleOffline()
      requires Valid()
      modifies this
      ensures Valid()
      ensures State() == SyncSpec.HandleOffline(old(State()))
    {
      isOnline := false;
    }
  }
}
