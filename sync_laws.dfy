/** Properties of the synchronisation engine that relate several steps or that
    need a proof: the drain-halt law, the store as a replay of the engine's own
    writes, the order of status writes, the offline log and the delivery order
    of two changes to one note. */
module SyncLaws {
  import opened Wrappers
  import opened Notes
  import opened LocalStore
  import opened Remote
  import opened SyncSpec

  /** Drain-halt law: when the requests for the first k entries succeed and
      the (k+1)-th fails, the first k entries are gone, the failed entry and
      everything behind it stay in their order, and exactly the first k+1
      entries were sent, head first. */
  lemma {:induction false} DrainHalts(queue: seq<Change>, outcomes: seq<bool>, k: nat)
    requires k < |queue| && k <= |outcomes|
    requires forall j :: 0 <= j < k ==> outcomes[j]
    requires k == |outcomes| || !outcomes[k]
    ensures Drain(queue, true, outcomes) == Drained(queue[k..], Calls(queue[..k + 1]))
    decreases k
  {
    if k == 0 {
      DrainHeadFails(queue, outcomes);
      assert Calls(queue[..1]) == [Dispatch(queue[0])];
    } else {
      assert 0 < |outcomes| && outcomes[0];
      DrainHeadSucceeds(queue, outcomes);
      forall j | 0 <= j < k - 1 ensures outcomes[1..][j] {
        assert outcomes[1..][j] == outcomes[j + 1];
      }
      DrainHalts(queue[1..], outcomes[1..], k - 1);
      assert queue[1..][k - 1..] == queue[k..];
      assert [Dispatch(queue[0])] + Calls(queue[1..][..k]) == Calls(queue[..k + 1]);
    }
  }

  /** While online, the queue ends empty exactly when there is a successful
      outcome for every entry; then every entry was sent once, in order. */
  lemma {:induction false} DrainEmptiesIff(queue: seq<Change>, outcomes: seq<bool>)
    ensures Drain(queue, true, outcomes).remaining == [] <==>
      (|queue| <= |outcomes| && forall j :: 0 <= j < |queue| ==> outcomes[j])
    ensures Drain(queue, true, outcomes).remaining == [] ==>
      Drain(queue, true, outcomes).sent == Calls(queue)
    decreases |queue|
  {
    if queue != [] {
      if outcomes != [] && outcomes[0] {
        DrainHeadSucceeds(queue, outcomes);
        DrainEmptiesIff(queue[1..], outcomes[1..]);
        if |queue| <= |outcomes| && forall j :: 0 <= j < |queue| ==> outcomes[j] {
          forall j | 0 <= j < |queue[1..]| ensures outcomes[1..][j] {
            assert outcomes[1..][j] == outcomes[j + 1];
          }
        }
        if Drain(queue, true, outcomes).remaining == [] {
          forall j | 0 <= j < |queue| ensures outcomes[j] {
            if j > 0 { assert outcomes[j] == outcomes[1..][j - 1]; }
          }
          assert [Dispatch(queue[0])] + Calls(queue[1..]) == Calls(queue);
        }
      } else {
        DrainHeadFails(queue, outcomes);
      }
    }
  }

  /** Replaying one more effect. */
  lemma ApplyWritesSnoc(s: Store, effects: seq<Effect>, last: Effect)
    ensures last.Save? ==> ApplyWrites(s, effects + [last]) == Put(ApplyWrites(s, effects), last.note)
    ensures last.Erase? ==> ApplyWrites(s, effects + [last]) == Remove(ApplyWrites(s, effects), last.id)
    ensures last.Send? ==> ApplyWrites(s, effects + [last]) == ApplyWrites(s, effects)
  {
  }

  /** Remote requests leave the local store alone. */
  lemma {:induction false} SendsWriteNothing(s: Store, calls: seq<RemoteCall>)
    ensures ApplyWrites(s, SendAll(calls)) == s
    decreases |calls|
  {
    if calls != [] {
      var init := calls[..|calls| - 1];
      assert SendAll(calls) == SendAll(init) + [Send(calls[|calls| - 1])];
      ApplyWritesSnoc(s, SendAll(init), Send(calls[|calls| - 1]));
      SendsWriteNothing(s, init);
    }
  }

  /** Replaying the four effects of an online create or update attempt. */
  lemma ApplyFour(s: Store, a: Effect, b: Effect, c: Effect, d: Effect)
    ensures ApplyWrites(s, [a, b, c, d]) == ApplyWrites(ApplyWrites(ApplyWrites(ApplyWrites(s, [a]), [b]), [c]), [d])
  {
    ApplyWritesSnoc(s, [a], b);
    assert [a] + [b] == [a, b];
    ApplyWritesSnoc(s, [a, b], c);
    assert [a, b] + [c] == [a, b, c];
    ApplyWritesSnoc(s, [a, b, c], d);
    assert [a, b, c] + [d] == [a, b, c, d];
    assert ApplyWrites(s, [a]) == ApplyWrites(s, [] + [a]);
  }

  /** The local store after `createNote` is exactly the store before it with
      the operation's own local writes replayed in order. */
  lemma CreateReplaysItsWrites(e: Engine, id: string, title: string, content: string, now: string,
                               remote: RemoteOutcome)
    ensures var r := SyncSpec.CreateNote(e, id, title, content, now, remote);
      r.next.store == ApplyWrites(e.store, r.effects)
  {
    var r := SyncSpec.CreateNote(e, id, title, content, now, remote);
    if e.isOnline {
      ApplyFour(e.store, r.effects[0], r.effects[1], r.effects[2], r.effects[3]);
      assert r.effects == [r.effects[0], r.effects[1], r.effects[2], r.effects[3]];
      if remote.Failed? {
        PutOverwrites(e.store, r.effects[0].note, r.effects[1].note);
        PutOverwrites(e.store, r.effects[1].note, r.effects[3].note);
      }
    } else {
      assert ApplyWrites(e.store, r.effects) == ApplyWrites(e.store, [] + [r.effects[0]]);
    }
  }

  /** The same for `updateNote`; a missing note writes nothing. */
  lemma UpdateReplaysItsWrites(e: Engine, id: string, updates: NotePatch, now: string, remote: RemoteOutcome)
    ensures var r := SyncSpec.UpdateNote(e, id, updates, now, remote);
      r.next.store == ApplyWrites(e.store, r.effects)
  {
    var r := SyncSpec.UpdateNote(e, id, updates, now, remote);
    if id in e.store {
      var u := Updated(e.store[id], updates, now);
      var syncing := WithStatus(u, Syncing);
      if !e.isOnline {
        assert ApplyWrites(e.store, r.effects) == ApplyWrites(e.store, [] + [Save(u)]);
      } else {
        var last := r.effects[3];
        assert r.effects == [Save(u), Save(syncing), Send(UpdateRequest(id, syncing)), last];
        ApplyFour(e.store, Save(u), Save(syncing), Send(UpdateRequest(id, syncing)), last);
        assert ApplyWrites(e.store, [Save(u)]) == ApplyWrites(e.store, [] + [Save(u)]);
        assert ApplyWrites(e.store, r.effects) == Put(Put(Put(e.store, u), syncing), last.note);
        if remote.Failed? {
          PutOverwrites(e.store, u, syncing);
          PutOverwrites(e.store, syncing, last.note);
        }
      }
    }
  }

  /** The same for `deleteNote`. */
  lemma DeleteReplaysItsWrites(e: Engine, id: string, remoteOk: bool)
    ensures var r := SyncSpec.DeleteNote(e, id, remoteOk);
      r.next.store == ApplyWrites(e.store, r.effects)
  {
    var r := SyncSpec.DeleteNote(e, id, remoteOk);
    if id in e.store {
      assert ApplyWrites(e.store, [Erase(id)]) == ApplyWrites(e.store, [] + [Erase(id)]);
      if e.isOnline {
        ApplyWritesSnoc(e.store, [Erase(id)], Send(DeleteRequest(id)));
        assert [Erase(id)] + [Send(DeleteRequest(id))] == r.effects;
      }
    }
  }

  /** `syncChanges` and `handleOnline` send requests only: the store the
      drain leaves equals the replay of its effects, which is the store before it. */
  lemma DrainWritesNothing(e: Engine, outcomes: seq<bool>)
    ensures var r := SyncSpec.HandleOnline(e, outcomes);
      r.next.store == ApplyWrites(e.store, r.effects) == e.store
  {
    var d := Drain(e.syncQueue, true, outcomes);
    SendsWriteNothing(e.store, d.sent);
  }

  /** Status law: a note is saved as `synced` only after the `syncing` copy of
      the fresh `unsynced` note was saved and a create or update request
      carrying that copy was sent. */
  lemma CreatePassesThroughSyncing(e: Engine, id: string, title: string, content: string, now: string,
                                   remote: RemoteOutcome)
    ensures SyncedOnlyAfterSyncing(SyncSpec.CreateNote(e, id, title, content, now, remote).effects)
  {
  }

  /** The same status law for `updateNote`. */
  lemma UpdatePassesThroughSyncing(e: Engine, id: string, updates: NotePatch, now: string, remote: RemoteOutcome)
    ensures SyncedOnlyAfterSyncing(SyncSpec.UpdateNote(e, id, updates, now, remote).effects)
  {
  }

  /** When the service echoes the local id, an online create leaves exactly
      one record for the note, the synced one. */
  lemma CreateOnlineSameId(e: Engine, id: string, title: string, content: string, now: string, returned: Note)
    requires e.isOnline && returned.id == id
    ensures var r := SyncSpec.CreateNote(e, id, title, content, now, Succeeded(returned));
      && r.next.store == Put(e.store, r.reply)
      && r.next.store[id].syncStatus == Some(Synced)
  {
  }

  /** One call of the presentation layer with the remote replies it meets. */
  datatype Command =
    | CreateCmd(id: string, title: string, content: string, now: string, remote: RemoteOutcome)
    | UpdateCmd(id: string, updates: NotePatch, now: string, remote: RemoteOutcome)
    | DeleteCmd(id: string, remoteOk: bool)

  function Apply(e: Engine, c: Command): Engine {
    match c
    case CreateCmd(id, title, content, now, remote) => SyncSpec.CreateNote(e, id, title, content, now, remote).next
    case UpdateCmd(id, updates, now, remote) => SyncSpec.UpdateNote(e, id, updates, now, remote).next
    case DeleteCmd(id, remoteOk) => SyncSpec.DeleteNote(e, id, remoteOk).next
  }

  function Run(e: Engine, cs: seq<Command>): Engine
    decreases |cs|
  {
    if cs == [] then e else Run(Apply(e, cs[0]), cs[1..])
  }

  /** Mutations only append: after any sequence of create, update and delete
      calls, whatever the remote replies, the old queue is a prefix of the new
      one, at most one entry per call was added, and connectivity is unchanged. */
  lemma {:induction false} MutationsOnlyAppend(e: Engine, cs: seq<Command>)
    ensures var f := Run(e, cs);
      && f.isOnline == e.isOnline
      && |e.syncQueue| <= |f.syncQueue| <= |e.syncQueue| + |cs|
      && f.syncQueue[..|e.syncQueue|] == e.syncQueue
    decreases |cs|
  {
    if cs != [] {
      var e1 := Apply(e, cs[0]);
      assert e1.isOnline == e.isOnline;
      assert |e.syncQueue| <= |e1.syncQueue| <= |e.syncQueue| + 1 && e1.syncQueue[..|e.syncQueue|] == e.syncQueue;
      MutationsOnlyAppend(e1, cs[1..]);
      var f := Run(e1, cs[1..]);
      assert f.syncQueue[..|e.syncQueue|] == f.syncQueue[..|e1.syncQueue|][..|e.syncQueue|];
    }
  }

  /** The change an offline call logs, read off the store it finds: one entry
      for a create and for an update or delete of a present note, none for a
      missing note. */
  function Logged(s: Store, c: Command): (r: seq<Change>)
    ensures |r| <= 1
    ensures r == [] <==> !c.CreateCmd? && c.id !in s
  {
    match c
    case CreateCmd(id, title, content, now, _) => [Change(CreateChange, FreshNote(id, title, content, now))]
    case UpdateCmd(id, updates, now, _) =>
      if id in s then [Change(UpdateChange, Updated(s[id], updates, now))] else []
    case DeleteCmd(id, _) => if id in s then [Change(DeleteChange, s[id])] else []
  }

  /** The entries an offline run logs, call after call. */
  function OfflineLog(e: Engine, cs: seq<Command>): seq<Change>
    decreases |cs|
  {
    if cs == [] then [] else Logged(e.store, cs[0]) + OfflineLog(Apply(e, cs[0]), cs[1..])
  }

  /** Offline, one call appends exactly the change it logs and stays offline. */
  lemma OfflineStepLogs(e: Engine, c: Command)
    requires !e.isOnline
    ensures !Apply(e, c).isOnline
    ensures Apply(e, c).syncQueue == e.syncQueue + Logged(e.store, c)
  {
  }

  /** Offline, every call lands in the queue exactly as logged, once and in
      the order the calls were made, behind what was already queued. */
  lemma {:induction false} OfflineRunQueuesEachCall(e: Engine, cs: seq<Command>)
    requires !e.isOnline
    ensures Run(e, cs).syncQueue == e.syncQueue + OfflineLog(e, cs)
    decreases |cs|
  {
    if cs != [] {
      var e1 := Apply(e, cs[0]);
      var logged, rest := Logged(e.store, cs[0]), OfflineLog(e1, cs[1..]);
      OfflineStepLogs(e, cs[0]);
      OfflineRunQueuesEachCall(e1, cs[1..]);
      assert Run(e, cs) == Run(e1, cs[1..]);
      assert OfflineLog(e, cs) == logged + rest;
      assert e.syncQueue + logged + rest == e.syncQueue + (logged + rest);
    }
  }

  /** Ordering law: an update that keeps the note's id and then a delete of
      that note, both made offline, are queued in that order, the delete
      carrying the updated note; on reconnect the update request goes out
      first, and the delete request goes out right after it or not at all. */
  lemma UpdateThenDeleteInOrder(e: Engine, id: string, updates: NotePatch, now: string, remote: RemoteOutcome,
                                remoteOk: bool, outcomes: seq<bool>)
    requires !e.isOnline && WellKeyed(e.store) && id in e.store && Overlay(updates.id, id) == id
    ensures var u := Updated(e.store[id], updates, now);
      var e2 := SyncSpec.DeleteNote(SyncSpec.UpdateNote(e, id, updates, now, remote).next, id, remoteOk).next;
      var d := Drain(e2.syncQueue, true, outcomes);
      && e2.syncQueue == e.syncQueue + [Change(UpdateChange, u), Change(DeleteChange, u)]
      && id !in e2.store
      && (|d.sent| > |e.syncQueue| ==> d.sent[|e.syncQueue|] == UpdateRequest(id, u))
      && (|d.sent| > |e.syncQueue| + 1 ==> d.sent[|e.syncQueue| + 1] == DeleteRequest(id))
      && (d.remaining != [] ==> d.remaining[|d.remaining| - 1] == Change(DeleteChange, u))
  {
    var u := Updated(e.store[id], updates, now);
    var e1 := SyncSpec.UpdateNote(e, id, updates, now, remote).next;
    assert u.id == id;
    var e2 := SyncSpec.DeleteNote(e1, id, remoteOk).next;
    assert e1.store[id] == u;
    DrainKeepsSuffix(e2.syncQueue, true, outcomes);
  }

  /** Reconnect scenario: a note created offline is queued once; when the
      engine comes back online and the create request succeeds, the queue is
      empty, the request carried the note, and the local record keeps the
      `unsynced` status, because the drain does not write back. */
  lemma CreateOfflineThenReconnect(e: Engine, id: string, title: string, content: string, now: string,
                                   remote: RemoteOutcome)
    requires !e.isOnline && e.syncQueue == []
    ensures var c := SyncSpec.CreateNote(e, id, title, content, now, remote);
      var on := SyncSpec.HandleOnline(c.next, [true]);
      && c.reply.syncStatus == Some(Unsynced) && |c.next.syncQueue| == 1
      && on.next.syncQueue == []
      && on.effects == [Send(CreateRequest(c.reply))]
      && on.next.store[id] == c.reply
      && on.next.store[id].syncStatus == Some(Unsynced)
  {
    var c := SyncSpec.CreateNote(e, id, title, content, now, remote);
    var q := c.next.syncQueue;
    assert q == [Change(CreateChange, c.reply)];
    DrainHeadSucceeds(q, [true]);
    assert Drain(q[1..], true, [true][1..]) == Drained([], []);
  }
}
