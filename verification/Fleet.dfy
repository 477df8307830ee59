/** The coordinator's fleet: one current stream per node, drained before it is replaced, and a view
    of each node that is stored before anybody sees it.

    Every method is one critical section under the fleet's lock; a run is any sequence of them.
 */
module Fleet {
  import M = Messages

  const MaxNodes := 128
  const MaxFleetBytes := 2 * 1024 * 1024
  const OfflineRetention := 900_000_000_000
  const StaleAfter := 30_000_000_000

  datatype Ready = Ready(command: bool, workspace: bool, worktree: bool, agent: bool, sessions: bool)

  const NotReady := Ready(false, false, false, false, false)

  // The observed Herdr state; its sequence starts again with every stream.
  datatype Herdr = Herdr(status: string, sequence: nat, receivedAt: M.Option<int>)

  datatype View = View(instance: string, stable: string, connected: bool, stale: bool, lastSeen: int,
                       herdr: Herdr, ready: Ready)

  // A stored row: its view, whether what the view abstracts from is well formed, and its size.
  datatype StoredRow = StoredRow(view: View, sound: bool, size: nat)

  // validateStoredNode
  predicate ValidStored(r: StoredRow) {
    && r.sound && 1 <= |r.view.instance| <= 128 && 1 <= |r.view.stable| <= 128
    && if r.view.herdr.status in {"disabled", "waiting"} then
         r.view.herdr.sequence == 0 && r.view.herdr.receivedAt.None?
       else
         r.view.herdr.status in {"ready", "unavailable"} && r.view.herdr.sequence > 0 && r.view.herdr.receivedAt.Some?
  }

  function TotalSize(rows: seq<StoredRow>): nat {
    if rows == [] then 0 else TotalSize(rows[..|rows| - 1]) + rows[|rows| - 1].size
  }

  // What restore accepts.
  predicate Restorable(rows: seq<StoredRow>) {
    && |rows| <= MaxNodes && TotalSize(rows) <= MaxFleetBytes
    && (forall i | 0 <= i < |rows| :: ValidStored(rows[i]))
    && (forall i, j | 0 <= i < j < |rows| ::
          rows[i].view.instance != rows[j].view.instance && rows[i].view.stable != rows[j].view.stable)
  }

  lemma {:induction false} SizeGrows(rows: seq<StoredRow>, k: nat)
    requires k <= |rows|
    ensures TotalSize(rows[..k]) <= TotalSize(rows)
    decreases |rows|
  {
    if k < |rows| {
      SizeGrows(rows[..|rows| - 1], k);
      assert rows[..|rows| - 1][..k] == rows[..k];
    } else {
      assert rows[..k] == rows;
    }
  }

  lemma RestorablePrefix(rows: seq<StoredRow>, k: nat)
    requires k <= |rows| && Restorable(rows)
    ensures Restorable(rows[..k])
  {
    hide ValidStored;
    SizeGrows(rows, k);
  }

  // The views and the stable ids of some rows.
  function ViewsOf(rows: seq<StoredRow>): map<string, View> {
    if rows == [] then map[]
    else
      var last := rows[|rows| - 1].view;
      ViewsOf(rows[..|rows| - 1])[last.instance := last]
  }

  function StablesOf(rows: seq<StoredRow>): set<string> {
    set i | 0 <= i < |rows| :: rows[i].view.stable
  }

  function InstancesOf(rows: seq<StoredRow>): set<string> {
    set i | 0 <= i < |rows| :: rows[i].view.instance
  }

  lemma {:induction false} ViewsHaveInstances(rows: seq<StoredRow>)
    ensures ViewsOf(rows).Keys == InstancesOf(rows)
  {
    if rows != [] {
      var before := rows[..|rows| - 1];
      ViewsHaveInstances(before);
      assert forall i | 0 <= i < |rows| - 1 :: rows[i] == before[i];
      assert InstancesOf(rows) == InstancesOf(before) + {rows[|rows| - 1].view.instance};
    }
  }

  lemma {:induction false} ViewsAreRows(rows: seq<StoredRow>)
    requires Restorable(rows)
    ensures |ViewsOf(rows)| == |rows|
    ensures forall i | 0 <= i < |rows| ::
              rows[i].view.instance in ViewsOf(rows) && ViewsOf(rows)[rows[i].view.instance] == rows[i].view
    ensures forall id | id in ViewsOf(rows) :: ViewsOf(rows)[id].instance == id
  {
    hide ValidStored, TotalSize, InstancesOf;
    if rows != [] {
      var before, last := rows[..|rows| - 1], rows[|rows| - 1].view;
      RestorablePrefix(rows, |rows| - 1);
      ViewsAreRows(before);
      NewInstance(rows);
      AddView(ViewsOf(before), last);
      forall i | 0 <= i < |rows|
        ensures rows[i].view.instance in ViewsOf(rows) && ViewsOf(rows)[rows[i].view.instance] == rows[i].view
      {
        if i < |rows| - 1 { assert rows[i] == before[i] && rows[i].view.instance != last.instance; }
      }
    }
  }

  lemma NewInstance(rows: seq<StoredRow>)
    requires rows != [] && Restorable(rows)
    ensures rows[|rows| - 1].view.instance !in ViewsOf(rows[..|rows| - 1])
  {
    hide ValidStored, TotalSize;
    ViewsHaveInstances(rows[..|rows| - 1]);
  }

  lemma RestorableNext(rows: seq<StoredRow>, i: nat)
    requires i < |rows| <= MaxNodes && Restorable(rows[..i])
    ensures TotalSize(rows[..i + 1]) == TotalSize(rows[..i]) + rows[i].size
    ensures ViewsOf(rows[..i + 1]) == ViewsOf(rows[..i])[rows[i].view.instance := rows[i].view]
    ensures StablesOf(rows[..i + 1]) == StablesOf(rows[..i]) + {rows[i].view.stable}
    ensures Restorable(rows[..i + 1]) <==>
            && ValidStored(rows[i]) && TotalSize(rows[..i + 1]) <= MaxFleetBytes
            && rows[i].view.instance !in ViewsOf(rows[..i]) && rows[i].view.stable !in StablesOf(rows[..i])
  {
    hide ValidStored;
    var before, next := rows[..i], rows[..i + 1];
    assert next[..i] == before && next[i] == rows[i];
    assert forall k | 0 <= k < i :: next[k] == before[k];
    ViewsHaveInstances(before);
    if Restorable(next) {
      forall k | 0 <= k < i ensures before[k].view.stable != rows[i].view.stable {
        assert next[k] == before[k];
      }
    }
  }

  // The loop of restore over the stored rows.
  method CheckRows(rows: seq<StoredRow>) returns (ok: bool, views: map<string, View>)
    requires |rows| <= MaxNodes
    ensures ok <==> Restorable(rows)
    ensures ok ==> views == ViewsOf(rows)
  {
    hide ValidStored, Restorable, TotalSize, ViewsOf, StablesOf;
    StartRestorable();
    views := map[];
    var stables: set<string>, total := {}, 0;
    assert rows[..0] == [];
    for i := 0 to |rows|
      invariant Restorable(rows[..i]) && total == TotalSize(rows[..i])
      invariant views == ViewsOf(rows[..i]) && stables == StablesOf(rows[..i])
    {
      var row := rows[i];
      RestorableNext(rows, i);
      if Restorable(rows) { RestorablePrefix(rows, i + 1); }
      if !ValidStored(row) || row.view.instance in views || row.view.stable in stables {
        return false, views;
      }
      total := total + row.size;
      if total > MaxFleetBytes {
        return false, views;
      }
      stables, views := stables + {row.view.stable}, views[row.view.instance := row.view];
    }
    assert rows[..|rows|] == rows;
    ok := true;
  }

  lemma StartRestorable()
    ensures Restorable([]) && TotalSize([]) == 0 && ViewsOf([]) == map[] && StablesOf([]) == {}
  {
  }

  lemma AddView(views: map<string, View>, v: View)
    requires v.instance !in views
    ensures |views[v.instance := v]| == |views| + 1
  {
    assert views[v.instance := v].Keys == views.Keys + {v.instance};
    assert |views[v.instance := v].Keys| == |views[v.instance := v]| && |views.Keys| == |views|;
  }

  // What restore and end make of a view: the stream is not live.
  function Offline(v: View): View {
    v.(connected := false, stale := true, ready := NotReady)
  }

  predicate Fresh(v: View, now: int) {
    && v.connected && v.herdr.status == "ready"
    && v.herdr.receivedAt.Some? && now - v.herdr.receivedAt.value < StaleAfter
  }

  // One node stream.  An entry restored from storage has no stream.
  datatype Entry = Entry(view: View, streaming: bool, ended: bool, retired: bool, sends: nat, capable: Ready)

  // It can register no further send, its registered sends have finished and its transport is done.
  predicate Quiet(e: Entry) {
    e.streaming ==> e.retired && e.ended && e.sends == 0
  }

  // It may be sending, or could start to.
  predicate Live(e: Entry) {
    !Quiet(e)
  }

  // A registered send or the transport of the stream is not finished.
  predicate Undrained(e: Entry) {
    e.streaming && (e.sends > 0 || !e.ended)
  }

  // One of the streams of a node that may still be sending.
  predicate Streams(entries: map<nat, Entry>, id: string, e: nat) {
    e in entries && entries[e].view.instance == id && Live(entries[e])
  }

  // Two streams of the node may be sending at once.
  ghost predicate Overlapping(entries: map<nat, Entry>, id: string) {
    exists a, b :: a != b && Streams(entries, id, a) && Streams(entries, id, b)
  }

  datatype Reply = Done | Aborted | Unavailable | Exhausted | Invalid | Late

  // What storage does with one write: too large a view is refused before it is tried.
  datatype Write = Stored | TooLarge | Broken(written: bool)

  datatype Begin = Started(entry: nat) | Waiting | Refused(reply: Reply)

  class FleetStore {
    // the current entry of each instance
    var nodes: map<string, nat>
    // every entry there ever was
    var entries: map<nat, Entry>
    var storageErr: bool
    // the last stored view of each instance
    var persisted: map<string, View>
    // entries restored from storage, not written since
    ghost var restored: set<nat>
    // entries dropped by prune while they were live
    ghost var gaps: set<nat>
    // the next entry's number
    var next: nat

    constructor ()
      ensures Valid() && nodes == map[] && entries == map[] && !storageErr && persisted == map[] && gaps == {}
    {
      nodes, entries, storageErr, persisted := map[], map[], false, map[];
      restored, gaps, next := {}, {}, 0;
    }

    ghost predicate Valid()
      reads this
    {
      && |nodes| <= MaxNodes
      && Numbered(entries, next)
      && Linked(nodes, entries)
      && Fenced(nodes, entries, gaps)
      && Retiring(entries)
      && (!storageErr ==> Mirrored(nodes, entries, persisted, restored))
    }

    // fleetStore.current
    predicate Current(e: nat)
      reads this
    {
      && e in entries && !entries[e].retired
      && entries[e].view.instance in nodes && nodes[entries[e].view.instance] == e
    }

    // fleetEntry.supersede
    method Supersede(e: nat)
      requires Valid() && e in entries
      modifies this`entries
      ensures Valid() && entries == old(entries)[e := old(entries)[e].(retired := true)]
    {
      RetireKeeps(nodes, entries, gaps, persisted, restored, e);
      entries := entries[e := entries[e].(retired := true)];
    }

    /** fleetEntry.registerSend: no send is registered once the entry is retired. */
    method RegisterSend(e: nat) returns (ok: bool)
      requires Valid() && e in entries && entries[e].streaming
      modifies this`entries
      ensures Valid() && ok == !old(entries)[e].retired
      ensures entries ==
              if ok then old(entries)[e := old(entries)[e].(sends := old(entries)[e].sends + 1)]
              else old(entries)
    {
      ok := !entries[e].retired;
      if ok {
        SendKeeps(nodes, entries, gaps, persisted, restored, e, entries[e].sends + 1);
        entries := entries[e := entries[e].(sends := entries[e].sends + 1)];
      }
    }

    // A registered send returns.
    method FinishSend(e: nat)
      requires Valid() && e in entries && entries[e].sends > 0
      modifies this`entries
      ensures Valid() && entries == old(entries)[e := old(entries)[e].(sends := old(entries)[e].sends - 1)]
    {
      SettleKeeps(nodes, entries, gaps, persisted, restored, e, entries[e].(sends := entries[e].sends - 1));
      entries := entries[e := entries[e].(sends := entries[e].sends - 1)];
    }

    // The stream's transport ends.
    method EndTransport(e: nat)
      requires Valid() && e in entries
      modifies this`entries
      ensures Valid() && entries == old(entries)[e := old(entries)[e].(ended := true)]
    {
      SettleKeeps(nodes, entries, gaps, persisted, restored, e, entries[e].(ended := true));
      entries := entries[e := entries[e].(ended := true)];
    }

    // fleetStore.save: a view is stored before it is shown; the first failure is final.
    method Save(view: View, write: Write) returns (r: Reply)
      modifies this`storageErr, this`persisted
      ensures r in {Done, Exhausted, Unavailable} && (!old(storageErr) && write.Stored? ==> r == Done)
      ensures old(storageErr) ==> r == Unavailable && persisted == old(persisted) && storageErr
      ensures r == Done ==> !storageErr && persisted == old(persisted)[view.instance := view]
      ensures r == Exhausted ==> storageErr == old(storageErr) && persisted == old(persisted)
      ensures r == Unavailable ==> storageErr
    {
      if storageErr {
        return Unavailable;
      }
      match write {
        case TooLarge => return Exhausted;
        case Broken(written) =>
          if written { persisted := persisted[view.instance := view]; }
          storageErr := true;
          return Unavailable;
        case Stored =>
          persisted := persisted[view.instance := view];
          return Done;
      }
    }

    // loseCommands: the command journal may fail too.
    method LoseCommands(ok: bool) returns (r: Reply)
      modifies this`storageErr
      ensures r == (if ok then Done else Unavailable) && storageErr == (old(storageErr) || !ok)
    {
      storageErr := storageErr || !ok;
      r := if ok then Done else Unavailable;
    }

    // Views that have been offline for too long.
    function Expired(now: int): (ids: set<string>)
      reads this`nodes, this`entries
      ensures ids <= nodes.Keys
    {
      set id | id in nodes && nodes[id] in entries &&
               !entries[nodes[id]].view.connected && now - entries[nodes[id]].view.lastSeen > OfflineRetention
    }

    /** fleetStore.prune: expired entries are deleted from storage first; a gap opens exactly when
        one of them still has a registered send or an unfinished transport. */
    method Prune(now: int, stored: bool) returns (r: Reply)
      requires Valid()
      modifies this`nodes, this`persisted, this`storageErr, this`gaps
      ensures Valid() && r in {Done, Unavailable}
      ensures old(storageErr) ==> r == Unavailable && nodes == old(nodes) && storageErr && gaps == old(gaps)
      ensures r == Done ==>
                && !storageErr && nodes == old(nodes) - old(Expired(now))
                && gaps == old(gaps) + LiveAmong(old(nodes), entries, old(Expired(now)))
      ensures r == Done ==>
                (gaps != old(gaps) <==> exists id | id in old(Expired(now)) :: Undrained(entries[old(nodes)[id]]))
      ensures r == Unavailable ==> storageErr && nodes == old(nodes) && gaps == old(gaps)
      ensures !old(storageErr) && stored ==> r == Done
    {
      hide Linked, Fenced, Mirrored, Numbered, Expired, LiveAmong, Quiet, Undrained, Retiring;
      if storageErr {
        return Unavailable;
      }
      var expired := Expired(now);
      GapsOpen(now);
      if expired == {} {
        NothingExpired(nodes, entries, gaps);
        return Done;
      }
      if !stored {
        storageErr := true;
        return Unavailable;
      }
      Drop(expired);
      r := Done;
    }

    // The expired entries leave, and those still live leave a gap.
    method Drop(expired: set<string>)
      requires Valid() && !storageErr && expired <= nodes.Keys
      modifies this`nodes, this`persisted, this`gaps
      ensures Valid() && nodes == old(nodes) - expired
      ensures gaps == old(gaps) + LiveAmong(old(nodes), entries, expired)
    {
      hide Linked, Fenced, Mirrored, Numbered, LiveAmong, Retiring;
      PruneKeeps(nodes, entries, gaps, persisted, restored, expired);
      gaps := gaps + LiveAmong(nodes, entries, expired);
      nodes, persisted := nodes - expired, persisted - expired;
    }

    // What expired is retired, so it is live exactly while it is not drained; and it is no gap yet.
    lemma GapsOpen(now: int)
      requires Linked(nodes, entries) && Fenced(nodes, entries, gaps) && Retiring(entries)
      ensures forall id | id in Expired(now) :: nodes[id] in entries
      ensures gaps + LiveAmong(nodes, entries, Expired(now)) != gaps <==>
              exists id | id in Expired(now) :: Undrained(entries[nodes[id]])
    {
      var expired := Expired(now);
      if id :| id in expired && Undrained(entries[nodes[id]]) {
        assert nodes[id] in LiveAmong(nodes, entries, expired) && nodes[id] !in gaps;
      }
    }

    // The old entry of a node that is replaced can do nothing more.
    ghost predicate Replaceable(id: string)
      reads this`nodes, this`entries
    {
      id in nodes && nodes[id] in entries ==> Quiet(entries[nodes[id]])
    }

    // What a new stream leaves of the earlier entries: only the one it replaces is retired.
    ghost predicate KeepsEntries(was: map<nat, Entry>, current: map<string, nat>, id: string)
      reads this`entries
    {
      forall e | e in was :: e in entries &&
        (entries[e] == was[e] || (id in current && current[id] == e && entries[e] == was[e].(retired := true)))
    }

    ghost predicate OnlyAdds(was: map<string, nat>, id: string)
      reads this`nodes
    {
      forall k | k in nodes :: k == id || (k in was && nodes[k] == was[k])
    }

    // Storage first: prune, the new view, and the commands of the lost stream.
    method StoreBegin(view: View, now: int, pruned: bool, write: Write, lost: bool)
      returns (r: Reply, ghost before: map<string, View>)
      requires Valid() && Replaceable(view.instance)
      modifies this`nodes, this`persisted, this`storageErr, this`gaps
      ensures |nodes| <= MaxNodes && Linked(nodes, entries) && Fenced(nodes, entries, gaps)
      ensures forall k | k in nodes :: k in old(nodes) && nodes[k] == old(nodes)[k]
      ensures gaps == old(gaps) || gaps == old(gaps) + LiveAmong(old(nodes), entries, old(Expired(now)))
      ensures r == Done ==> gaps == old(gaps) + LiveAmong(old(nodes), entries, old(Expired(now)))
      ensures r == Done ==>
                && !storageErr && persisted == before[view.instance := view]
                && Mirrored(nodes, entries, before, restored)
                && (view.instance in nodes || |nodes| < MaxNodes)
      ensures r != Done ==> Valid()
      ensures !old(storageErr) && pruned && write.Stored? && lost && |old(nodes)| < MaxNodes ==> r == Done
    {
      hide Linked, Fenced, Mirrored, Expired, LiveAmong, Quiet;
      r := Prune(now, pruned);
      before := persisted;
      if r != Done {
        return;
      }
      if view.instance !in nodes && |nodes| >= MaxNodes {
        return Exhausted, before;
      }
      r := Save(view, write);
      if r == Done {
        r := LoseCommands(lost);
      }
    }

    // The new stream becomes current.
    method Install(entry: Entry, ghost before: map<string, View>) returns (e: nat)
      requires |nodes| <= MaxNodes && Numbered(entries, next) && Linked(nodes, entries) && Fenced(nodes, entries, gaps)
      requires !storageErr && Mirrored(nodes, entries, before, restored)
      requires persisted == before[entry.view.instance := entry.view]
      requires Replaceable(entry.view.instance) && (entry.view.instance in nodes || |nodes| < MaxNodes)
      requires Retiring(entries) && entry.view.connected
      modifies this`entries, this`next, this`nodes, this`restored
      ensures Valid() && e !in old(entries) && entries == old(entries)[e := entry]
      ensures nodes == old(nodes)[entry.view.instance := e]
    {
      hide Linked, Fenced, Mirrored, Quiet;
      e := next;
      var id := entry.view.instance;
      NextNumber(entries, next, entry);
      if id in nodes { LinkedEntry(nodes, entries, id); }
      ReplaceKeeps(nodes, entries, gaps, before, restored, id, e, entry);
      RoomForOne(nodes, id, e);
      entries, next, nodes, restored := entries[e := entry], next + 1, nodes[id := e], restored - {e};
    }

    // beginLocked retires an old entry that still looks connected.
    method RetireConnected(id: string, ghost before: map<string, View>)
      requires Numbered(entries, next) && Linked(nodes, entries) && Fenced(nodes, entries, gaps)
      requires Mirrored(nodes, entries, before, restored)
      requires Replaceable(id) && Retiring(entries)
      modifies this`entries
      ensures Numbered(entries, next) && Linked(nodes, entries) && Fenced(nodes, entries, gaps) && Retiring(entries)
      ensures Mirrored(nodes, entries, before, restored)
      ensures Replaceable(id) && KeepsEntries(old(entries), nodes, id) && entries.Keys == old(entries).Keys
    {
      hide Linked, Fenced, Mirrored, Numbered, Quiet;
      if id in nodes { LinkedEntry(nodes, entries, id); }
      if id in nodes && entries[nodes[id]].view.connected {
        RetireKeeps(nodes, entries, gaps, before, restored, nodes[id]);
        RetireNumbered(entries, next, nodes[id]);
        RetiredStaysQuiet(entries[nodes[id]]);
        entries := entries[nodes[id] := entries[nodes[id]].(retired := true)];
      }
    }

    /** beginLocked: the old entry, if it is still in the map, must be quiet. */
    method BeginLocked(id: string, stable: string, enabled: bool, capable: Ready, now: int,
                       pruned: bool, write: Write, lost: bool) returns (b: Begin)
      requires Valid() && Replaceable(id)
      modifies this
      ensures Valid() && !b.Waiting? && KeepsEntries(old(entries), old(nodes), id)
      ensures b.Started? ==>
                && b.entry !in old(entries) && Current(b.entry) && !storageErr
                && entries[b.entry].view.instance == id && entries[b.entry].streaming && entries[b.entry].sends == 0
      ensures !old(storageErr) && pruned && write.Stored? && lost && |old(nodes)| < MaxNodes ==> b.Started?
      ensures b.Started? ==> entries[b.entry].view.lastSeen == now && OnlyAdds(old(nodes), id)
      ensures b.Started? ==>
                var begun := entries[b.entry];
                && begun.capable == capable && !begun.retired && !begun.ended
                && begun.view.stable == stable && begun.view.connected && begun.view.ready == NotReady
                && begun.view.herdr == Herdr(if enabled then "waiting" else "disabled", 0, M.None)
      ensures gaps == old(gaps) || gaps == old(gaps) + LiveAmong(old(nodes), old(entries), old(Expired(now)))
      ensures b.Started? ==> gaps == old(gaps) + LiveAmong(old(nodes), old(entries), old(Expired(now)))
      ensures b.Refused? ==>
              entries == old(entries) && (forall k | k in nodes :: k in old(nodes) && nodes[k] == old(nodes)[k])
    {
      hide Linked, Fenced, Mirrored, Numbered, Expired, LiveAmong, Quiet;
      var herdr := Herdr(if enabled then "waiting" else "disabled", 0, M.None);
      var view := View(id, stable, true, false, now, herdr, NotReady);
      ghost var before;
      var r;
      r, before := StoreBegin(view, now, pruned, write, lost);
      if r != Done {
        return Refused(r);
      }
      RetireConnected(id, before);
      var e := Install(Entry(view, true, false, false, 0, capable), before);
      b := Started(e);
    }

    /** beginSession, up to its next wait: the old stream is retired at once, and replaced only when
        its transport is done and its registered sends have finished.  The new stream then overlaps
        with an old one exactly if one was already left live without being current. */
    method BeginSession(id: string, stable: string, enabled: bool, capable: Ready, now: int, late: bool,
                        pruned: bool, write: Write, lost: bool) returns (b: Begin)
      requires Valid()
      modifies this
      ensures Valid() && KeepsEntries(old(entries), old(nodes), id)
      ensures late ==>
              b == Refused(Reply.Late) && entries == old(entries) && nodes == old(nodes) && persisted == old(persisted)
      ensures b.Started? ==>
                (Overlapping(entries, id) <==> exists o | o in old(gaps) :: Streams(old(entries), id, o))
      ensures b.Started? ==> (Overlapping(entries, id) <==> exists o :: o != b.entry && Streams(entries, id, o))
      ensures b.Started? ==> gaps == old(gaps) + LiveAmong(old(nodes), entries, old(Expired(now)))
      ensures b.Waiting? || late ==> gaps == old(gaps)
      ensures !late && id in old(nodes) && old(nodes)[id] in old(entries) && old(entries)[old(nodes)[id]].streaming ==>
                old(nodes)[id] in entries && entries[old(nodes)[id]].retired
      ensures b.Started? ==>
              b.entry !in old(entries) && Current(b.entry) && entries[b.entry].view.instance == id && !storageErr
      ensures b.Started? && id in old(nodes) && old(nodes)[id] in old(entries) ==>
                old(nodes)[id] in entries && Quiet(entries[old(nodes)[id]])
      ensures b.Waiting? ==> nodes == old(nodes)
      ensures b.Started? ==> entries[b.entry].streaming && entries[b.entry].sends == 0
      ensures b.Started? ==> entries[b.entry].view.lastSeen == now && OnlyAdds(old(nodes), id)
      ensures b.Started? ==>
                var begun := entries[b.entry];
                && begun.capable == capable && !begun.retired && !begun.ended
                && begun.view.stable == stable && begun.view.connected && begun.view.ready == NotReady
                && begun.view.herdr == Herdr(if enabled then "waiting" else "disabled", 0, M.None)
      ensures (&& id !in old(nodes) && !late && !old(storageErr) && pruned && write.Stored? && lost
               && |old(nodes)| < MaxNodes) ==>
              b.Started?
    {
      hide Linked, Fenced, Mirrored, Numbered, Expired, LiveAmong, Overlapping;
      if late {
        return Refused(Reply.Late);
      }
      if id in nodes { LinkedEntry(nodes, entries, id); }
      if id in nodes && entries[nodes[id]].streaming {
        var e := nodes[id];
        Supersede(e);
        if !entries[e].ended || entries[e].sends > 0 {
          return Waiting;
        }
      }
      ghost var was, before, expired := entries, gaps, Expired(now);
      ExpiryIgnoresRetirement(now);
      b := BeginLocked(id, stable, enabled, capable, now, pruned, write, lost);
      if b.Started? {
        OldGapsStay(old(nodes), old(entries), entries, before, id);
        NewGapsElsewhere(old(nodes), was, entries, before, gaps, expired, id);
        StartedOverlap(nodes, entries, before, gaps, id, b.entry);
        SameDropped(old(nodes), was, entries, expired, id);
      }
    }

    // Expiry depends on the views, not on who is retired.
    twostate lemma ExpiryIgnoresRetirement(now: int)
      requires nodes == old(nodes) && entries.Keys == old(entries).Keys
      requires forall e | e in entries :: entries[e].view == old(entries)[e].view
      ensures Expired(now) == old(Expired(now))
    {
    }

    // A current entry shows a new view once it is stored.
    method Show(e: nat, view: View, write: Write, lost: bool, journal: bool) returns (r: Reply)
      requires Valid() && e in entries && nodes.Keys >= {view.instance} && nodes[view.instance] == e
      requires view.instance == entries[e].view.instance
      requires (view.connected || entries[e].retired || !entries[e].streaming)
      modifies this`entries, this`persisted, this`storageErr, this`restored
      ensures Valid() && r in {Done, Exhausted, Unavailable}
      ensures r == Done ==> entries == old(entries)[e := old(entries)[e].(view := view)]
      ensures r != Done ==> entries == old(entries)
      ensures old(storageErr) ==> r == Unavailable && persisted == old(persisted)
      ensures r == Exhausted ==> storageErr == old(storageErr)
      ensures !old(storageErr) && write.Stored? && (journal ==> lost) ==> r == Done && !storageErr
    {
      hide Linked, Fenced, Mirrored, Numbered, Quiet;
      ViewKeeps(nodes, entries, gaps, persisted, restored, next, e, view);
      r := Save(view, write);
      if r == Done && journal {
        r := LoseCommands(lost);
      }
      if r == Done {
        entries, restored := entries[e := entries[e].(view := view)], restored - {e};
      }
    }

    /** end: the stream is retired, and its view goes offline if it is still the current one. */
    method End(e: nat, write: Write, lost: bool) returns (r: Reply)
      requires Valid() && e in entries
      modifies this
      ensures Valid() && nodes == old(nodes) && e in entries && entries[e].retired
      ensures forall k | k in old(entries) && k != e :: k in entries && entries[k] == old(entries)[k]
      ensures entries[e].sends == old(entries)[e].sends && entries[e].view.instance == old(entries)[e].view.instance
      ensures !old(storageErr) && write.Stored? && lost ==> r == Done && !storageErr
      ensures entries[e].view.lastSeen == old(entries)[e].view.lastSeen
      ensures r == Done && e in nodes.Values ==> entries[e].view == Offline(old(entries)[e].view)
      ensures r != Done || e !in nodes.Values ==> entries == old(entries)[e := old(entries)[e].(retired := true)]
      ensures old(storageErr) && e in nodes.Values ==> r == Unavailable && persisted == old(persisted)
      ensures gaps == old(gaps)
    {
      hide Linked, Fenced, Mirrored, Numbered, Quiet;
      ValueIsCurrent(nodes, entries, e);
      Supersede(e);
      var id := entries[e].view.instance;
      r := Done;
      if id in nodes && nodes[id] == e {
        r := Show(e, Offline(entries[e].view), write, lost, true);
      }
    }

    /** heartbeat: a stream that is not current changes nothing; a current one shows what it stored. */
    method Heartbeat(e: nat, now: int, ready: Ready, write: Write) returns (r: Reply)
      requires Valid() && e in entries
      modifies this`entries, this`persisted, this`storageErr, this`restored
      ensures Valid()
      ensures old(storageErr) ==> r == Unavailable && entries == old(entries)
      ensures !old(storageErr) && !old(Current(e)) ==>
              r == Aborted && entries == old(entries) && persisted == old(persisted) && !storageErr
      ensures r == Done ==>
                && old(Current(e)) && entries[e].view.lastSeen == now
                && entries == old(entries)[e := old(entries)[e].(view := entries[e].view)]
                && entries[e].view == Beat(old(entries)[e], now, ready)
                && entries[e].view.herdr == old(entries)[e].view.herdr && ReadinessIsBacked(entries[e], now)
      // What is shown is what was reported: each claim stands exactly if the node made it, registered
      // the capability for it and, where it acts on Herdr, was seen ready there less than 30 s ago.
      ensures r == Done ==>
                var was, shown := old(entries)[e], entries[e].view;
                var seen := was.view.connected && was.view.herdr.status == "ready"
                            && was.view.herdr.receivedAt.Some?
                            && now - was.view.herdr.receivedAt.value < 30_000_000_000;
                && shown.instance == was.view.instance && shown.stable == was.view.stable
                && shown.connected == was.view.connected && shown.stale == was.view.stale
                && (shown.ready.command <==> ready.command && was.capable.command)
                && (shown.ready.workspace <==> shown.ready.command && ready.workspace && was.capable.workspace && seen)
                && (shown.ready.worktree <==> shown.ready.workspace && ready.worktree && was.capable.worktree)
                && (shown.ready.agent <==> shown.ready.command && ready.agent && was.capable.agent && seen)
                && (shown.ready.sessions <==> ready.sessions && was.capable.sessions)
      ensures r != Done ==> entries == old(entries)
      ensures !old(storageErr) && old(Current(e)) && write.Stored? ==> r == Done
    {
      hide Linked, Fenced, Mirrored, Numbered, Quiet, ReadinessIsBacked;
      if storageErr {
        return Unavailable;
      }
      if !Current(e) {
        return Aborted;
      }
      BeatIsBacked(entries[e], now, ready);
      r := Show(e, Beat(entries[e], now, ready), write, true, false);
    }

    /** update: the sequence must grow within the stream. */
    method Update(e: nat, status: string, sequence: nat, now: int, fits: bool, write: Write) returns (r: Reply)
      requires Valid() && e in entries
      modifies this`entries, this`persisted, this`storageErr, this`restored
      ensures Valid()
      ensures !old(Current(e)) ==>
              r == Aborted && entries == old(entries) && persisted == old(persisted) && storageErr == old(storageErr)
      ensures r == Done ==>
                && old(Current(e)) && sequence > old(entries)[e].view.herdr.sequence
                && entries[e].view.herdr == Herdr(status, sequence, M.Some(now))
                && (status == "ready" ==> entries[e].view == old(entries)[e].view.(herdr := entries[e].view.herdr))
                && (status != "ready" ==>
                      var was, shown := old(entries)[e].view, entries[e].view;
                      && shown.instance == was.instance && shown.stable == was.stable
                      && shown.connected == was.connected && shown.lastSeen == was.lastSeen
                      && shown.ready.command == was.ready.command && shown.ready.sessions == was.ready.sessions
                      && !shown.ready.workspace && !shown.ready.worktree && !shown.ready.agent)
                && entries == old(entries)[e := old(entries)[e].(view := entries[e].view)]
      ensures r != Done ==> entries == old(entries)
      ensures old(storageErr) ==> r != Done
      ensures old(Current(e)) ==> (r == Invalid <==> sequence <= old(entries)[e].view.herdr.sequence)
      ensures old(Current(e) && !storageErr && sequence > entries[e].view.herdr.sequence) && fits && write.Stored? ==>
              r == Done
    {
      hide Linked, Fenced, Mirrored, Numbered, Quiet;
      if !Current(e) {
        return Aborted;
      }
      if sequence <= entries[e].view.herdr.sequence {
        return Invalid;
      }
      if !fits {
        return Exhausted;
      }
      var view := entries[e].view.(herdr := Herdr(status, sequence, M.Some(now)));
      if status != "ready" {
        view := view.(ready := view.ready.(workspace := false, worktree := false, agent := false));
      }
      r := Show(e, view, write, true, false);
    }

    /** list: after a storage failure nothing is served; otherwise every view served is the stored
        one, and readiness is only claimed for a current stream. */
    method List(now: int, pruned: bool) returns (r: Reply, views: map<string, View>)
      requires Valid()
      modifies this`nodes, this`persisted, this`storageErr, this`gaps
      ensures Valid() && r in {Done, Unavailable}
      ensures old(storageErr) || r == Unavailable ==> r == Unavailable && views == map[]
      ensures !old(storageErr) && pruned ==> r == Done
      ensures gaps == old(gaps) + if r == Done then LiveAmong(old(nodes), entries, old(Expired(now))) else {}
      ensures r == Done ==> views.Keys == nodes.Keys && forall id | id in views ::
                && id in persisted
                && views[id] ==
                   Served(if nodes[id] in restored then Offline(persisted[id]) else persisted[id], now,
                          Current(nodes[id]))
    {
      r := Prune(now, pruned);
      views := map[];
      if r == Done {
        views := map id | id in nodes && nodes[id] in entries ::
                   Served(entries[nodes[id]].view, now, Current(nodes[id]));
        ListedAll(nodes, entries, persisted, restored, views.Keys);
      }
    }

    method ReadmitOne(id: string, views: map<string, View>, ghost left: set<string>)
      requires id in left && left <= views.Keys && RestoredViews(nodes, entries, restored, views, views.Keys - left)
      requires Numbered(entries, next) && Linked(nodes, entries) && Fenced(nodes, entries, gaps) && Retiring(entries)
      requires views[id].instance == id
      modifies this`entries, this`nodes, this`restored, this`next
      ensures RestoredViews(nodes, entries, restored, views, views.Keys - (left - {id}))
      ensures Numbered(entries, next) && Linked(nodes, entries) && Fenced(nodes, entries, gaps) && Retiring(entries)
    {
      hide Linked, Fenced, Numbered, OfflineEntry, RestoredViews, Retiring;
      RestoreOne(nodes, entries, gaps, restored, views, left, next, id);
      OfflineIsRetiring(entries, next, views[id]);
      entries, nodes := entries[next := OfflineEntry(views[id])], nodes[id := next];
      restored, next := restored + {next}, next + 1;
    }

    // The loop of restore over the stored views.
    method Readmit(views: map<string, View>)
      requires Numbered(entries, next) && Linked(nodes, entries) && Fenced(nodes, entries, gaps) && nodes == map[]
      requires entries == map[] && Retiring(entries)
      requires forall id | id in views :: views[id].instance == id
      modifies this`entries, this`nodes, this`restored, this`next
      ensures Numbered(entries, next) && Linked(nodes, entries) && Fenced(nodes, entries, gaps) && Retiring(entries)
      ensures Mirrored(nodes, entries, views, restored) && |nodes| == |views| && nodes.Keys == views.Keys
      ensures forall id | id in nodes ::
              id in views && nodes[id] in entries && entries[nodes[id]] == OfflineEntry(views[id])
    {
      hide Linked, Fenced, Mirrored, Numbered, OfflineEntry, RestoredViews, Retiring;
      var left := views.Keys;
      NothingRestored(entries, gaps, restored, views, next);
      while left != {}
        invariant left <= views.Keys && RestoredViews(nodes, entries, restored, views, views.Keys - left)
        invariant Numbered(entries, next) && Linked(nodes, entries) && Fenced(nodes, entries, gaps) && Retiring(entries)
        decreases |left|
      {
        var id :| id in left;
        ReadmitOne(id, views, left);
        left := left - {id};
      }
      assert views.Keys - left == views.Keys;
      AllRestored(nodes, entries, restored, views);
    }

    /** restore: an empty fleet takes over the stored views, exactly if all of them are well formed and
        distinct and fit the limits; none of them is live, and the expired ones are dropped. */
    method Restore(rows: seq<StoredRow>, now: int, pruned: bool) returns (r: Reply)
      requires Valid() && nodes == map[] && entries == map[] && !storageErr && persisted == map[]
      modifies this
      ensures Valid()
      ensures r == Invalid <==> !Restorable(rows)
      ensures r == Invalid ==> nodes == map[] && entries == map[]
      ensures Restorable(rows) && pruned ==> r == Done
      ensures r == Done ==> forall i | 0 <= i < |rows| ::
                rows[i].view.instance in nodes <==> now - rows[i].view.lastSeen <= OfflineRetention
      ensures r == Done ==> forall i | 0 <= i < |rows| && rows[i].view.instance in nodes ::
                && nodes[rows[i].view.instance] in entries
                && entries[nodes[rows[i].view.instance]] == OfflineEntry(rows[i].view)
    {
      hide Linked, Fenced, Mirrored, Numbered, Quiet, Expired, LiveAmong, OfflineEntry, ValidStored, ViewsOf;
      if |rows| > MaxNodes {
        return Invalid;
      }
      var ok, views := CheckRows(rows);
      if !ok {
        return Invalid;
      }
      ViewsAreRows(rows);
      persisted := views;
      Readmit(views);
      ExpiredOffline(views, now);
      r := Prune(now, pruned);
    }

    // Restored views expire by the time they were last seen.
    lemma ExpiredOffline(views: map<string, View>, now: int)
      requires nodes.Keys == views.Keys
      requires forall id | id in nodes :: nodes[id] in entries && entries[nodes[id]] == OfflineEntry(views[id])
      ensures forall id | id in views :: id in Expired(now) <==> now - views[id].lastSeen > OfflineRetention
    {
    }
  }

  /******* The invariants *******/

  predicate Numbered(entries: map<nat, Entry>, next: nat) {
    forall e | e in entries :: e < next
  }

  // Every current entry exists and is about its instance.
  predicate Linked(nodes: map<string, nat>, entries: map<nat, Entry>) {
    forall id | id in nodes :: nodes[id] in entries && entries[nodes[id]].view.instance == id
  }

  // A live entry is current, exactly unless prune dropped it while it was live.
  ghost predicate Fenced(nodes: map<string, nat>, entries: map<nat, Entry>, gaps: set<nat>) {
    && gaps <= entries.Keys
    && forall e | e in entries && Live(entries[e]) ::
         e !in gaps <==> entries[e].view.instance in nodes && nodes[entries[e].view.instance] == e
  }

  // A stream that looks disconnected can register no further send.
  predicate Retiring(entries: map<nat, Entry>) {
    forall e | e in entries && entries[e].streaming && !entries[e].view.connected :: entries[e].retired
  }

  // What is visible is what is stored, apart from what restore cleared.
  ghost predicate Mirrored(nodes: map<string, nat>, entries: map<nat, Entry>, persisted: map<string, View>,
        restored: set<nat>) {
    && nodes.Keys == persisted.Keys
    && forall id | id in nodes && nodes[id] in entries ::
         if nodes[id] in restored then entries[nodes[id]].view == Offline(persisted[id])
         else entries[nodes[id]].view == persisted[id]
  }

  // An entry changes without becoming live again or changing its view.
  lemma SettleKeeps(nodes: map<string, nat>, entries: map<nat, Entry>, gaps: set<nat>, persisted: map<string, View>,
                    restored: set<nat>, e: nat, next: Entry)
    requires Linked(nodes, entries) && Fenced(nodes, entries, gaps) && e in entries
    requires next.view == entries[e].view && (Live(next) ==> Live(entries[e]))
    ensures Linked(nodes, entries[e := next]) && Fenced(nodes, entries[e := next], gaps)
    ensures Mirrored(nodes, entries, persisted, restored) ==> Mirrored(nodes, entries[e := next], persisted, restored)
  {
  }

  lemma RetireKeeps(nodes: map<string, nat>, entries: map<nat, Entry>, gaps: set<nat>, persisted: map<string, View>,
                    restored: set<nat>, e: nat)
    requires Linked(nodes, entries) && Fenced(nodes, entries, gaps) && e in entries
    ensures var next := entries[e := entries[e].(retired := true)]; Linked(nodes, next) && Fenced(nodes, next, gaps)
    ensures Mirrored(nodes, entries, persisted, restored) ==>
              Mirrored(nodes, entries[e := entries[e].(retired := true)], persisted, restored)
  {
    SettleKeeps(nodes, entries, gaps, persisted, restored, e, entries[e].(retired := true));
  }

  // A send on an entry that is not retired: it was live already.
  lemma SendKeeps(nodes: map<string, nat>, entries: map<nat, Entry>, gaps: set<nat>, persisted: map<string, View>,
                  restored: set<nat>, e: nat, sends: nat)
    requires Linked(nodes, entries) && Fenced(nodes, entries, gaps) && e in entries
    requires entries[e].streaming && !entries[e].retired
    ensures var next := entries[e := entries[e].(sends := sends)]; Linked(nodes, next) && Fenced(nodes, next, gaps)
    ensures Mirrored(nodes, entries, persisted, restored) ==>
              Mirrored(nodes, entries[e := entries[e].(sends := sends)], persisted, restored)
  {
    SettleKeeps(nodes, entries, gaps, persisted, restored, e, entries[e].(sends := sends));
  }

  lemma NextNumber(entries: map<nat, Entry>, next: nat, entry: Entry)
    requires Numbered(entries, next)
    ensures next !in entries && Numbered(entries[next := entry], next + 1)
  {
  }

  lemma RetiredStaysQuiet(e: Entry)
    ensures Quiet(e) ==> Quiet(e.(retired := true))
  {
  }

  lemma RetireNumbered(entries: map<nat, Entry>, next: nat, e: nat)
    requires Numbered(entries, next) && e in entries
    ensures Numbered(entries[e := entries[e].(retired := true)], next)
  {
  }

  // What list makes of a stored view.
  function Served(v: View, now: int, current: bool): View {
    var stale := !v.connected || v.herdr.status != "ready" || v.herdr.receivedAt.None?
                 || now - v.herdr.receivedAt.value > StaleAfter;
    var workspace := v.ready.workspace && Fresh(v, now) && current;
    v.(stale := stale,
       ready := Ready(v.ready.command, workspace, v.ready.worktree && workspace,
                      v.ready.agent && Fresh(v, now) && current,
                      v.ready.sessions && v.connected && current && now - v.lastSeen < StaleAfter))
  }

  // Readiness is only claimed with the capability and a fresh observation behind it.
  predicate ReadinessIsBacked(e: Entry, now: int) {
    var r := e.view.ready;
    && (r.command ==> e.capable.command)
    && (r.workspace || r.agent ==> r.command && Fresh(e.view, now))
    && (r.worktree ==> r.workspace && e.capable.worktree)
    && (r.workspace ==> e.capable.workspace) && (r.agent ==> e.capable.agent) && (r.sessions ==> e.capable.sessions)
  }

  // The view after a heartbeat: what the node says it is ready for, as far as it has the capability.
  function Beat(e: Entry, now: int, ready: Ready): View {
    var view := e.view.(lastSeen := now);
    var command := ready.command && e.capable.command;
    var workspace := command && ready.workspace && e.capable.workspace && Fresh(view, now);
    view.(ready := Ready(command, workspace, workspace && ready.worktree && e.capable.worktree,
                         command && ready.agent && e.capable.agent && Fresh(view, now),
                         ready.sessions && e.capable.sessions))
  }

  lemma BeatIsBacked(e: Entry, now: int, ready: Ready)
    ensures var v := Beat(e, now, ready);
            && v.instance == e.view.instance && v.lastSeen == now && v.herdr == e.view.herdr
            && v.connected == e.view.connected
            && ReadinessIsBacked(e.(view := v), now)
  {
  }

  /** What a listing says of a node is what its last heartbeat reported: a claim about Herdr is served
      exactly while the observation behind it is less than 30 s old and the stream is current, and
      the sessions exactly while the heartbeat itself is. */
  lemma ReportedIsServed(e: Entry, at: int, ready: Ready, now: int, current: bool)
    requires at <= now
    ensures var v := Served(Beat(e, at, ready), now, current);
            var age := if e.view.herdr.receivedAt.Some? then now - e.view.herdr.receivedAt.value else 0;
            var seen := e.view.connected && e.view.herdr.status == "ready" && e.view.herdr.receivedAt.Some?;
            && v.instance == e.view.instance && v.lastSeen == at && v.herdr == e.view.herdr
            && v.connected == e.view.connected
            && (v.stale <==> !seen || age > 30_000_000_000)
            && (v.ready.command <==> ready.command && e.capable.command)
            && (v.ready.workspace <==> v.ready.command && ready.workspace && e.capable.workspace
                                       && seen && age < 30_000_000_000 && current)
            && (v.ready.worktree <==> v.ready.workspace && ready.worktree && e.capable.worktree)
            && (v.ready.agent <==> v.ready.command && ready.agent && e.capable.agent
                                   && seen && age < 30_000_000_000 && current)
            && (v.ready.sessions <==> ready.sessions && e.capable.sessions
                                      && v.connected && current && now - at < 30_000_000_000)
  {
  }

  // A node that went offline is served as stale and ready for nothing, whoever asks.
  lemma OfflineServesNothing(v: View, now: int, current: bool)
    ensures var served := Served(Offline(v), now, current);
            && served.stale && !served.connected && served.lastSeen == v.lastSeen && served.herdr == v.herdr
            && served.instance == v.instance && served.stable == v.stable
            && !served.ready.command && !served.ready.workspace && !served.ready.worktree
            && !served.ready.agent && !served.ready.sessions
  {
  }

  lemma ViewKeeps(nodes: map<string, nat>, entries: map<nat, Entry>, gaps: set<nat>, persisted: map<string, View>,
                  restored: set<nat>, next: nat, e: nat, view: View)
    requires Linked(nodes, entries) && Fenced(nodes, entries, gaps) && Numbered(entries, next)
    requires e in entries && view.instance == entries[e].view.instance && view.instance in nodes
    requires nodes[view.instance] == e
    ensures var after := entries[e := entries[e].(view := view)];
            && Linked(nodes, after) && Fenced(nodes, after, gaps) && Numbered(after, next)
            && (Mirrored(nodes, entries, persisted, restored) ==>
                  Mirrored(nodes, after, persisted[view.instance := view], restored - {e}))
  {
  }

  function OfflineEntry(v: View): Entry {
    Entry(Offline(v), false, false, false, 0, NotReady)
  }

  lemma OfflineIsRetiring(entries: map<nat, Entry>, e: nat, v: View)
    requires Retiring(entries)
    ensures Retiring(entries[e := OfflineEntry(v)])
  {
  }

  // Part of the stored views is back.
  predicate RestoredViews(nodes: map<string, nat>, entries: map<nat, Entry>, restored: set<nat>, views: map<string,
        View>, ids: set<string>) {
    && nodes.Keys == ids && ids <= views.Keys
    && forall id | id in nodes ::
         nodes[id] in restored && nodes[id] in entries && entries[nodes[id]] == OfflineEntry(views[id])
  }

  lemma NothingRestored(entries: map<nat, Entry>, gaps: set<nat>, restored: set<nat>, views: map<string, View>,
        next: nat)
    requires entries == map[] && Fenced(map[], entries, gaps)
    ensures RestoredViews(map[], entries, restored, views, views.Keys - views.Keys)
    ensures Linked(map[], entries) && Numbered(entries, next)
  {
    assert views.Keys - views.Keys == {};
  }

  lemma RestoreOne(nodes: map<string, nat>, entries: map<nat, Entry>, gaps: set<nat>, restored: set<nat>,
                   views: map<string, View>, left: set<string>, next: nat, id: string)
    requires RestoredViews(nodes, entries, restored, views, views.Keys - left) && id in left && left <= views.Keys
    requires Numbered(entries, next) && Linked(nodes, entries) && Fenced(nodes, entries, gaps)
    requires views[id].instance == id
    ensures RestoredViews(nodes[id := next], entries[next := OfflineEntry(views[id])], restored + {next}, views,
                          views.Keys - (left - {id}))
    ensures Linked(nodes[id := next], entries[next := OfflineEntry(views[id])])
    ensures Fenced(nodes[id := next], entries[next := OfflineEntry(views[id])], gaps)
    ensures Numbered(entries[next := OfflineEntry(views[id])], next + 1)
  {
    assert nodes[id := next].Keys == nodes.Keys + {id};
    assert views.Keys - (left - {id}) == (views.Keys - left) + {id};
  }

  lemma AllRestored(nodes: map<string, nat>, entries: map<nat, Entry>, restored: set<nat>, views: map<string, View>)
    requires RestoredViews(nodes, entries, restored, views, views.Keys)
    ensures Mirrored(nodes, entries, views, restored) && |nodes| == |views| && nodes.Keys == views.Keys
    ensures forall id | id in nodes ::
            id in views && nodes[id] in entries && entries[nodes[id]] == OfflineEntry(views[id])
  {
    assert |nodes| == |nodes.Keys| && |views| == |views.Keys|;
  }

  lemma ValueIsCurrent(nodes: map<string, nat>, entries: map<nat, Entry>, e: nat)
    requires Linked(nodes, entries) && e in entries
    ensures e in nodes.Values <==> entries[e].view.instance in nodes && nodes[entries[e].view.instance] == e
  {
    if e in nodes.Values {
      var id :| id in nodes && nodes[id] == e;
    }
  }

  lemma ListedAll(nodes: map<string, nat>, entries: map<nat, Entry>, persisted: map<string, View>, restored: set<nat>,
        ids: set<string>)
    requires Linked(nodes, entries) && Mirrored(nodes, entries, persisted, restored)
    requires forall id :: id in ids <==> id in nodes && nodes[id] in entries
    ensures ids == nodes.Keys
  {
  }

  /** Stream fencing: two streams of a node may be sending at once exactly if prune dropped one of them
      while it was live, and that one is not drained yet. */
  lemma StreamsOverlapExactly(nodes: map<string, nat>, entries: map<nat, Entry>, gaps: set<nat>, id: string)
    requires Fenced(nodes, entries, gaps)
    ensures Overlapping(entries, id) <==>
            exists o, a | o in gaps && a != o :: Streams(entries, id, o) && Streams(entries, id, a)
  {
    if a, b :| a != b && Streams(entries, id, a) && Streams(entries, id, b) {
      assert a in gaps || b in gaps;
    }
  }

  // What retiring a node's current entry does not do: settle a gap.
  lemma OldGapsStay(nodes: map<string, nat>, was: map<nat, Entry>, entries: map<nat, Entry>, gaps: set<nat>, id: string)
    requires Linked(nodes, was) && Fenced(nodes, was, gaps)
    requires forall e | e in was :: e in entries &&
               (entries[e] == was[e] || (id in nodes && nodes[id] == e && entries[e] == was[e].(retired := true)))
    ensures forall o | o in gaps :: Streams(entries, id, o) <==> Streams(was, id, o)
  {
    forall o | o in gaps ensures Streams(entries, id, o) <==> Streams(was, id, o) {
      if entries[o] != was[o] { RetiredStaysQuiet(was[o]); }
    }
  }

  // Gaps that opened just now are about other nodes than one whose entry is quiet.
  lemma NewGapsElsewhere(nodes: map<string, nat>, was: map<nat, Entry>, entries: map<nat, Entry>, before: set<nat>,
                         gaps: set<nat>, expired: set<string>, id: string)
    requires Linked(nodes, was) && gaps == before + LiveAmong(nodes, was, expired)
    requires forall e | e in was :: e in entries && entries[e].view.instance == was[e].view.instance
    requires id in nodes && nodes[id] in entries ==> Quiet(entries[nodes[id]])
    ensures forall o | o in gaps && o !in before :: !Streams(entries, id, o)
  {
  }

  // Replacing a quiet entry changes nothing about the others.
  lemma SameDropped(nodes: map<string, nat>, was: map<nat, Entry>, entries: map<nat, Entry>, expired: set<string>,
                    id: string)
    requires Linked(nodes, was)
    requires forall e | e in was :: e in entries &&
               (entries[e] == was[e] || (id in nodes && nodes[id] == e && entries[e] == was[e].(retired := true)))
    requires id in nodes && nodes[id] in was ==> Quiet(was[nodes[id]])
    ensures LiveAmong(nodes, entries, expired) == LiveAmong(nodes, was, expired)
  {
    forall k | k in nodes ensures Live(entries[nodes[k]]) <==> Live(was[nodes[k]]) {
      if entries[nodes[k]] != was[nodes[k]] { RetiredStaysQuiet(was[nodes[k]]); }
    }
  }

  // After a new stream has become current.
  lemma StartedOverlap(nodes: map<string, nat>, entries: map<nat, Entry>, before: set<nat>, gaps: set<nat>, id: string,
                       e: nat)
    requires Fenced(nodes, entries, gaps) && Streams(entries, id, e) && id in nodes && nodes[id] == e
    requires before <= gaps && e !in gaps && forall o | o in gaps && o !in before :: !Streams(entries, id, o)
    ensures Overlapping(entries, id) <==> exists o | o in before :: Streams(entries, id, o)
    ensures Overlapping(entries, id) <==> exists o :: o != e && Streams(entries, id, o)
  {
    if o :| o in before && Streams(entries, id, o) {
      assert o != e;
    }
    if a, b :| a != b && Streams(entries, id, a) && Streams(entries, id, b) {
      var o := if a == e then b else a;
      assert o in gaps && o in before;
    }
  }

  lemma NothingExpired(nodes: map<string, nat>, entries: map<nat, Entry>, gaps: set<nat>)
    ensures nodes - {} == nodes && gaps + LiveAmong(nodes, entries, {}) == gaps
  {
    assert LiveAmong(nodes, entries, {}) == {};
  }

  lemma LinkedEntry(nodes: map<string, nat>, entries: map<nat, Entry>, id: string)
    requires Linked(nodes, entries) && id in nodes
    ensures nodes[id] in entries
  {
  }

  // The entries of these instances that are still live.
  function LiveAmong(nodes: map<string, nat>, entries: map<nat, Entry>, ids: set<string>): set<nat> {
    set id | id in nodes && id in ids && nodes[id] in entries && Live(entries[nodes[id]]) :: nodes[id]
  }

  // A new stream takes the place of an entry that is quiet.
  lemma ReplaceKeeps(nodes: map<string, nat>, entries: map<nat, Entry>, gaps: set<nat>, persisted: map<string, View>,
                     restored: set<nat>, id: string, e: nat, next: Entry)
    requires Linked(nodes, entries) && Fenced(nodes, entries, gaps) && Mirrored(nodes, entries, persisted, restored)
    requires (id in nodes ==> Quiet(entries[nodes[id]])) && e !in entries && next.view.instance == id
    ensures Linked(nodes[id := e], entries[e := next]) && Fenced(nodes[id := e], entries[e := next], gaps)
    ensures Mirrored(nodes[id := e], entries[e := next], persisted[id := next.view], restored - {e})
  {
  }

  lemma RoomForOne(nodes: map<string, nat>, id: string, e: nat)
    ensures |nodes[id := e]| == if id in nodes then |nodes| else |nodes| + 1
  {
    assert nodes[id := e].Keys == nodes.Keys + {id};
    assert |nodes[id := e]| == |nodes[id := e].Keys| && |nodes| == |nodes.Keys|;
  }

  // Dropping expired entries: the live ones among them become gaps.
  lemma PruneKeeps(nodes: map<string, nat>, entries: map<nat, Entry>, gaps: set<nat>, persisted: map<string, View>,
                   restored: set<nat>, expired: set<string>)
    requires Linked(nodes, entries) && Fenced(nodes, entries, gaps) && Mirrored(nodes, entries, persisted, restored)
    requires expired <= nodes.Keys
    ensures Linked(nodes - expired, entries)
    ensures Fenced(nodes - expired, entries, gaps + LiveAmong(nodes, entries, expired))
    ensures Mirrored(nodes - expired, entries, persisted - expired, restored)
    ensures |nodes - expired| <= |nodes|
  {
    assert (nodes - expired).Keys == nodes.Keys - expired;
    assert |nodes - expired| == |(nodes - expired).Keys| && |nodes| == |nodes.Keys|;
    assert |nodes.Keys - expired| == |nodes.Keys| - |expired * nodes.Keys|;
  }

  /** The gap that prune leaves: a stream ends with a send still in flight, its entry expires and is
      pruned, and the node's next stream starts while the old send is not finished. */
  method PruneLeavesAGap() returns (f: FleetStore, a: nat, b: nat)
    ensures f.Valid() && a in f.entries && b in f.entries && a != b
    ensures f.entries[a].view.instance == f.entries[b].view.instance
    ensures f.entries[a].sends > 0 && f.entries[b].sends > 0
  {
    hide Linked, Fenced, Mirrored, Numbered;
    f := new FleetStore();
    var first := f.BeginSession("n", "s", true, NotReady, 0, false, true, Stored, true);
    a := first.entry;
    assert f.nodes == map["n" := a];
    var ok := f.RegisterSend(a);
    ValueIsCurrent(f.nodes, f.entries, a);
    var r := f.End(a, Stored, true);
    ValueIsCurrent(f.nodes, f.entries, a);
    b := Restart(f, a);
  }

  // The second half: time passes, the expired entry is pruned, and the node comes back.
  method Restart(f: FleetStore, a: nat) returns (b: nat)
    requires f.Valid() && !f.storageErr && a in f.entries && f.entries[a].sends > 0 && f.nodes == map["n" := a]
    requires f.entries[a].view.instance == "n" && !f.entries[a].view.connected && f.entries[a].view.lastSeen == 0
    modifies f
    ensures f.Valid() && a in f.entries && b in f.entries && a != b
    ensures f.entries[a].view.instance == f.entries[b].view.instance
    ensures f.entries[a].sends > 0 && f.entries[b].sends > 0
  {
    hide Linked, Fenced, Mirrored, Numbered;
    var later := OfflineRetention + 1;
    assert f.Expired(later) == {"n"};
    var r := f.Prune(later, true);
    assert "n" !in f.nodes;
    var second := f.BeginSession("n", "s", true, NotReady, later, false, true, Stored, true);
    b := second.entry;
    var ok := f.RegisterSend(b);
  }
}
