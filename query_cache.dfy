/**
 * The client-side query cache: one entry per key holding data or nothing yet,
 * and the set of entries marked invalidated. Only the operations the mutations
 * use are modelled: read one entry, write one entry, update every entry under a
 * prefix, snapshot every entry under a prefix, write a snapshot back, and
 * invalidate a prefix.
 */
module QueryCache {
  import opened Wrappers
  import opened Domain
  import opened QueryKeys

  /** What an entry may hold. */
  datatype Data =
    | OrderList(orders: seq<Order>)
    | OrderDetailData(detail: OrderDetail)
    | TaskList(tasks: seq<Task>)
    | OtherData

  /** Every existing entry with its data; None is an entry whose data is still undefined. */
  type Entries = map<Key, Option<Data>>

  /** The result of getQueriesData: key and data pairs. */
  type Snapshot = seq<(Key, Option<Data>)>

  datatype Cache = Cache(entries: Entries, invalidated: set<Key>)
  {
    /** Only existing entries are marked invalidated. */
    predicate Valid()
    {
      invalidated <= entries.Keys
    }
  }

  /**
   * `setQueryData(key, value)`: an undefined value changes nothing; otherwise the
   * entry (created if missing) holds the value and is no longer invalidated.
   */
  function SetData(c: Cache, key: Key, value: Option<Data>): (r: Cache)
    ensures value.None? ==> r == c
    ensures value.Some? ==> r.entries == c.entries[key := value] && r.invalidated == c.invalidated - {key}
    ensures c.Valid() ==> r.Valid()
  {
    if value.Some? then Cache(c.entries[key := value], c.invalidated - {key}) else c
  }

  /** The entries an updater rewrites: those under `prefix` for which it gives a defined result. */
  function Rewritten(e: Entries, prefix: Key, upd: Option<Data> -> Option<Data>): set<Key>
  {
    set k | k in e && Under(k, prefix) && upd(e[k]).Some?
  }

  /**
   * `setQueriesData({queryKey: prefix}, upd)`: every existing entry under `prefix`
   * gets `upd` of its data, except where `upd` gives undefined; no entry is created.
   */
  function UpdateUnder(c: Cache, prefix: Key, upd: Option<Data> -> Option<Data>): (r: Cache)
    ensures r.entries.Keys == c.entries.Keys
    ensures forall k :: k in c.entries ==>
      r.entries[k] == if Under(k, prefix) && upd(c.entries[k]).Some? then upd(c.entries[k]) else c.entries[k]
    ensures r.invalidated == c.invalidated - Rewritten(c.entries, prefix, upd)
    ensures c.Valid() ==> r.Valid()
  {
    Cache(
      map k | k in c.entries :: if Under(k, prefix) && upd(c.entries[k]).Some? then upd(c.entries[k]) else c.entries[k],
      c.invalidated - Rewritten(c.entries, prefix, upd))
  }

  /** The existing keys under `prefix`. */
  function KeysUnder(e: Entries, prefix: Key): set<Key>
  {
    set k | k in e && Under(k, prefix)
  }

  /** `invalidateQueries({queryKey: prefix})`: every existing entry under `prefix` is marked. */
  function Invalidate(c: Cache, prefix: Key): (r: Cache)
    ensures r.entries == c.entries
    ensures forall k :: k in r.invalidated <==> k in c.invalidated || (k in c.entries && Under(k, prefix))
    ensures c.Valid() ==> r.Valid()
  {
    Cache(c.entries, c.invalidated + KeysUnder(c.entries, prefix))
  }

  function KeysOf(snap: Snapshot): set<Key>
  {
    set i | 0 <= i < |snap| :: snap[i].0
  }

  lemma KeysOfAppend(snap: Snapshot, p: (Key, Option<Data>))
    ensures KeysOf(snap + [p]) == KeysOf(snap) + {p.0}
  {
    var s' := snap + [p];
    forall x | x in KeysOf(s') ensures x in KeysOf(snap) + {p.0} {
      var i :| 0 <= i < |s'| && s'[i].0 == x;
      if i < |snap| { assert s'[i] == snap[i]; }
    }
    forall x | x in KeysOf(snap) ensures x in KeysOf(s') {
      var i :| 0 <= i < |snap| && snap[i].0 == x;
      assert s'[i] == snap[i];
    }
    assert s'[|snap|].0 == p.0;
  }

  predicate DistinctKeys(snap: Snapshot)
  {
    forall i, j :: 0 <= i < j < |snap| ==> snap[i].0 != snap[j].0
  }

  /** `snap` holds each entry under `prefix` exactly once, with its data. */
  predicate IsSnapshot(snap: Snapshot, e: Entries, prefix: Key)
  {
    (forall i :: 0 <= i < |snap| ==> snap[i].0 in e && Under(snap[i].0, prefix) && snap[i].1 == e[snap[i].0])
    && DistinctKeys(snap)
    && KeysUnder(e, prefix) <= KeysOf(snap)
  }

  /** The part of `IsSnapshot` that holds while `todo` is still to be copied. */
  predicate PartialSnapshot(snap: Snapshot, e: Entries, prefix: Key, todo: set<Key>)
  {
    && todo <= KeysUnder(e, prefix)
    && (forall i :: 0 <= i < |snap| ==>
          snap[i].0 in e && Under(snap[i].0, prefix) && snap[i].1 == e[snap[i].0] && snap[i].0 !in todo)
    && DistinctKeys(snap)
    && KeysUnder(e, prefix) <= KeysOf(snap) + todo
  }

  /** Copying one pending key into the snapshot keeps it partial, with one key fewer to go. */
  lemma PartialSnapshotStep(snap: Snapshot, e: Entries, prefix: Key, todo: set<Key>, k: Key)
    requires PartialSnapshot(snap, e, prefix, todo) && k in todo
    ensures k in e
    ensures PartialSnapshot(snap + [(k, e[k])], e, prefix, todo - {k})
  {
    var s' := snap + [(k, e[k])];
    assert forall i :: 0 <= i < |snap| ==> s'[i] == snap[i];
    KeysOfAppend(snap, (k, e[k]));
  }

  /** The data a snapshot records for `k`, if it records `k`. */
  function Find(snap: Snapshot, k: Key): (r: Option<Option<Data>>)
    ensures r.Some? <==> k in KeysOf(snap)
    ensures DistinctKeys(snap) ==> forall i :: 0 <= i < |snap| && snap[i].0 == k ==> r == Some(snap[i].1)
  {
    if snap == [] then None
    else if snap[0].0 == k then
      assert DistinctKeys(snap) ==> forall i :: 1 <= i < |snap| ==> snap[i].0 != k by {
        if DistinctKeys(snap) {
          forall i | 1 <= i < |snap| ensures snap[i].0 != k { assert snap[0].0 != snap[i].0; }
        }
      }
      Some(snap[0].1)
    else
      var r := Find(snap[1..], k);
      assert KeysOf(snap) == {snap[0].0} + KeysOf(snap[1..]) by {
        forall x | x in KeysOf(snap) ensures x in {snap[0].0} + KeysOf(snap[1..]) {
          var i :| 0 <= i < |snap| && snap[i].0 == x;
          if i > 0 { assert snap[1..][i - 1].0 == x; }
        }
        forall x | x in KeysOf(snap[1..]) ensures x in KeysOf(snap) {
          var i :| 0 <= i < |snap[1..]| && snap[1..][i].0 == x;
          assert snap[i + 1].0 == x;
        }
      }
      assert DistinctKeys(snap) ==> DistinctKeys(snap[1..]) by {
        if DistinctKeys(snap) {
          forall i, j | 0 <= i < j < |snap[1..]| ensures snap[1..][i].0 != snap[1..][j].0 {
            assert snap[i + 1].0 != snap[j + 1].0;
          }
        }
      }
      assert DistinctKeys(snap) ==> forall i :: 0 <= i < |snap| && snap[i].0 == k ==> r == Some(snap[i].1) by {
        if DistinctKeys(snap) {
          forall i | 0 <= i < |snap| && snap[i].0 == k ensures r == Some(snap[i].1) {
            assert snap[1..][i - 1] == snap[i];
          }
        }
      }
      r
  }

  /** `snap.forEach(([key, data]) => setQueryData(key, data))`. */
  function Restore(c: Cache, snap: Snapshot): Cache
    decreases |snap|
  {
    if snap == [] then c else Restore(SetData(c, snap[0].0, snap[0].1), snap[1..])
  }

  /**
   * Writing back a snapshot with distinct keys: each recorded key holds its
   * recorded data if that data is defined, every other key keeps its data.
   */
  lemma {:induction false} RestoreEntries(c: Cache, snap: Snapshot)
    requires DistinctKeys(snap) && KeysOf(snap) <= c.entries.Keys
    ensures Restore(c, snap).entries.Keys == c.entries.Keys
    ensures forall k :: k in c.entries ==>
      Restore(c, snap).entries[k] == (match Find(snap, k) case Some(Some(d)) => Some(d) case _ => c.entries[k])
    decreases |snap|
  {
    if snap != [] {
      var c' := SetData(c, snap[0].0, snap[0].1);
      var rest := snap[1..];
      assert DistinctKeys(rest) by {
        forall i, j | 0 <= i < j < |rest| ensures rest[i].0 != rest[j].0 {
          assert snap[i + 1].0 != snap[j + 1].0;
        }
      }
      assert KeysOf(rest) <= KeysOf(snap) by {
        forall x | x in KeysOf(rest) ensures x in KeysOf(snap) {
          var i :| 0 <= i < |rest| && rest[i].0 == x;
          assert snap[i + 1].0 == x;
        }
      }
      assert snap[0].0 in KeysOf(snap);
      RestoreEntries(c', rest);
      forall k | k in c.entries
        ensures Restore(c, snap).entries[k] == (match Find(snap, k) case Some(Some(d)) => Some(d) case _ => c.entries[k])
      {
        if k == snap[0].0 {
          forall i | 0 <= i < |rest| ensures rest[i].0 != k {
            assert snap[0].0 != snap[i + 1].0;
          }
        }
      }
    }
  }

  /**
   * Rolling back an optimistic update: if `snap` was taken under `prefix` before
   * `upd` was applied there, and `upd` leaves undefined data undefined, writing
   * `snap` back gives every entry its data from before the update.
   */
  lemma RollbackRestoresEntries(c: Cache, prefix: Key, upd: Option<Data> -> Option<Data>, snap: Snapshot)
    requires IsSnapshot(snap, c.entries, prefix)
    requires upd(None) == None
    ensures Restore(UpdateUnder(c, prefix, upd), snap).entries == c.entries
  {
    var u := UpdateUnder(c, prefix, upd);
    assert KeysOf(snap) <= u.entries.Keys by {
      forall x | x in KeysOf(snap) ensures x in c.entries {
        var i :| 0 <= i < |snap| && snap[i].0 == x;
      }
    }
    RestoreEntries(u, snap);
    var r := Restore(u, snap);
    forall k | k in c.entries ensures r.entries[k] == c.entries[k] {
      if Under(k, prefix) {
        assert k in KeysUnder(c.entries, prefix);
        var i :| 0 <= i < |snap| && snap[i].0 == k;
        assert Find(snap, k) == Some(c.entries[k]);
      } else {
        assert forall i :: 0 <= i < |snap| ==> snap[i].0 != k;
      }
    }
  }

  /** The cache the mutations work on. */
  class QueryClient {
    var entries: Entries
    var invalidated: set<Key>

    function State(): Cache
      reads this
    {
      Cache(entries, invalidated)
    }

    constructor ()
      ensures State() == Cache(map[], {})
    {
      entries := map[];
      invalidated := {};
    }

    /** `getQueryData(key)`: the entry's data, undefined for a missing entry. */
    function GetQueryData(key: Key): (r: Option<Data>)
      reads this
      ensures key in entries ==> r == entries[key]
      ensures key !in entries ==> r.None?
    {
      if key in entries then entries[key] else None
    }

    method SetQueryData(key: Key, value: Option<Data>)
      modifies this
      ensures State() == SetData(old(State()), key, value)
    {
      if value.Some? {
        entries := entries[key := value];
        invalidated := invalidated - {key};
      }
    }

    method SetQueriesData(prefix: Key, upd: Option<Data> -> Option<Data>)
      modifies this
      ensures State() == UpdateUnder(old(State()), prefix, upd)
    {
      var c := UpdateUnder(State(), prefix, upd);
      entries, invalidated := c.entries, c.invalidated;
    }

    method InvalidateQueries(prefix: Key)
      modifies this
      ensures State() == Invalidate(old(State()), prefix)
    {
      invalidated := invalidated + KeysUnder(entries, prefix);
    }

    /** `getQueriesData({queryKey: prefix})`: one pair per entry under `prefix`, in no particular order. */
    method GetQueriesData(prefix: Key) returns (snap: Snapshot)
      ensures IsSnapshot(snap, entries, prefix)
    {
      var todo := KeysUnder(entries, prefix);
      snap := [];
      while todo != {}
        invariant PartialSnapshot(snap, entries, prefix, todo)
        decreases |todo|
      {
        var k :| k in todo;
        PartialSnapshotStep(snap, entries, prefix, todo, k);
        snap := snap + [(k, entries[k])];
        todo := todo - {k};
      }
    }

    /** The rollback loop: every snapshotted pair written back with `setQueryData`. */
    method RestoreQueries(snap: Snapshot)
      modifies this
      ensures State() == Restore(old(State()), snap)
    {
      var i := 0;
      while i < |snap|
        invariant 0 <= i <= |snap|
        invariant Restore(State(), snap[i..]) == Restore(old(State()), snap)
      {
        assert snap[i..][1..] == snap[i + 1..];
        SetQueryData(snap[i].0, snap[i].1);
        i := i + 1;
      }
    }
  }
}
