/**
 * The offline store: the IndexedDB database `markpro-offline` with its object
 * stores `cache` (a TTL cache), `jobs` (cached job rows with a `synced` flag),
 * `pendingActions` (the queue of mutations made offline, with an
 * auto-increment key) and `photos` (photos waiting for upload), and the sync
 * manager that replays the queue against the remote database.
 *
 * Each object store is a field of the class `OfflineDb`; the clock
 * (`Date.now()`), the id generator (`crypto.randomUUID()`) and the outcome of
 * every remote or store call are parameters.
 */
module OfflineStorage {
  import opened Wrappers
  import opened Json
  import opened Text
  import Seqs

  /** Default lifetime of a cache entry: 5 minutes, in milliseconds. */
  const DefaultTtlMs: int := 5 * 60 * 1000

  /** The table name under which `updateJobOffline` queues its updates. */
  const JobsTable: string := "jobs"

  datatype CacheEntry = CacheEntry(key: string, data: Json, expiresAt: int)

  datatype CachedEntity = CachedEntity(id: string, data: Json, synced: bool, updatedAt: int)

  datatype ActionType = Create | Update | Delete

  datatype PendingAction = PendingAction(id: nat, kind: ActionType, table: string, data: Json, createdAt: int)

  datatype PhotoType = Before | After | Progress | Other

  type Blob = seq<bv8>

  datatype OfflinePhoto = OfflinePhoto(
    id: string, jobId: string, blob: Blob, kind: PhotoType,
    caption: Option<string>, synced: bool, createdAt: int)

  /**
   * A failure of the local store: `add` of a key that is already present, or a
   * query whose argument is not a valid IndexedDB key.
   */
  datatype StoreError = ConstraintError | DataError

  /** The request the sync manager sends to the remote database for one action. */
  datatype RemoteCall =
    | RemoteUpdate(table: string, patch: Json, matchId: Option<Json>)
    | RemoteInsert(table: string, row: Json)
    | RemoteDelete(table: string, matchId: Option<Json>)

  /** What `syncPendingChanges` settles to: its `{success, failed}` counts, or a rejection. */
  datatype SyncReport = Completed(success: nat, failed: nat) | Rejected

  // ---------------------------------------------------------------------
  // Cache (lib/offline/storage.ts, getCached / setCache / invalidateCache)
  // ---------------------------------------------------------------------

  /** The value `getCached(key)` resolves to at time now. */
  function CachedValue(cache: map<string, CacheEntry>, key: string, now: int): Option<Json> {
    if key !in cache then None
    else if cache[key].expiresAt < now then None
    else Some(cache[key].data)
  }

  /** The cache store after `getCached(key)` at time now: an expired entry is gone. */
  function CacheAfterRead(cache: map<string, CacheEntry>, key: string, now: int): map<string, CacheEntry> {
    if key in cache && cache[key].expiresAt < now then cache - {key} else cache
  }

  /** The cache store after `invalidateCache(prefix)`. */
  function Invalidated(cache: map<string, CacheEntry>, prefix: string): map<string, CacheEntry> {
    map k | k in cache && !StartsWith(k, prefix) :: cache[k]
  }

  /** A read at the time of the write, or up to ttl later, returns what was written. */
  lemma SetThenGet(cache: map<string, CacheEntry>, key: string, data: Json, ttl: int, now: int, later: int)
    requires now <= later <= now + ttl
    ensures CachedValue(cache[key := CacheEntry(key, data, now + ttl)], key, later) == Some(data)
    ensures CacheAfterRead(cache[key := CacheEntry(key, data, now + ttl)], key, later)
            == cache[key := CacheEntry(key, data, now + ttl)]
  {
  }

  /** Once the ttl has elapsed a read misses and removes the entry. */
  lemma ExpiredAfterTtl(cache: map<string, CacheEntry>, key: string, data: Json, ttl: int, now: int, later: int)
    requires later > now + ttl
    ensures CachedValue(cache[key := CacheEntry(key, data, now + ttl)], key, later) == None
    ensures CacheAfterRead(cache[key := CacheEntry(key, data, now + ttl)], key, later) == cache - {key}
  {
  }

  /** A read never changes any entry other than removing the one it found expired. */
  lemma ReadTouchesOnlyItsKey(cache: map<string, CacheEntry>, key: string, now: int)
    ensures forall k :: k != key ==> (k in CacheAfterRead(cache, key, now) <==> k in cache)
    ensures forall k :: k in CacheAfterRead(cache, key, now) ==> CacheAfterRead(cache, key, now)[k] == cache[k]
    ensures CachedValue(cache, key, now).None? ==> key !in CacheAfterRead(cache, key, now)
  {
  }

  /**
   * Invalidation removes exactly the entries under the prefix, keeps the others
   * as they were, is a no-op when nothing matches, and is idempotent.
   */
  lemma InvalidatedExactly(cache: map<string, CacheEntry>, prefix: string)
    ensures forall k :: k in Invalidated(cache, prefix) <==> k in cache && !StartsWith(k, prefix)
    ensures forall k :: k in Invalidated(cache, prefix) ==> Invalidated(cache, prefix)[k] == cache[k]
    ensures (forall k :: k in cache ==> !StartsWith(k, prefix)) ==> Invalidated(cache, prefix) == cache
    ensures Invalidated(Invalidated(cache, prefix), prefix) == Invalidated(cache, prefix)
  {
  }

  // ---------------------------------------------------------------------
  // Pending-action queue and sync manager
  // ---------------------------------------------------------------------

  /** Queue order: ids strictly ascend, which is the order `getAll` returns them in. */
  ghost predicate AscendingIds(q: seq<PendingAction>) {
    forall i, j :: 0 <= i < j < |q| ==> q[i].id < q[j].id
  }

  /** Every id in q is below n. */
  ghost predicate IdsBelow(q: seq<PendingAction>, n: nat) {
    forall i :: 0 <= i < |q| ==> q[i].id < n
  }

  function IdIsNot(id: nat): PendingAction -> bool {
    (a: PendingAction) => a.id != id
  }

  /** The queue after `clearPendingAction(id)`. */
  function WithoutId(q: seq<PendingAction>, id: nat): seq<PendingAction> {
    Seqs.Filter(IdIsNot(id), q)
  }

  /**
   * The remote request for one action: `update(data).eq('id', data.id)`,
   * `insert(data)` or `delete().eq('id', data.id)` on the action's table.
   * Reading `data.id` of a null payload throws before anything is sent, so an
   * update or delete of a null payload yields no request.
   */
  function Dispatch(a: PendingAction): (r: Option<RemoteCall>)
    ensures r.None? <==> a.kind != Create && a.data.JNull?
    ensures r.Some? ==> r.value.table == a.table
    ensures r.Some? ==> (a.kind == Update <==> r.value.RemoteUpdate?)
    ensures r.Some? ==> (a.kind == Create <==> r.value.RemoteInsert?)
    ensures r.Some? ==> (a.kind == Delete <==> r.value.RemoteDelete?)
    ensures r.Some? && r.value.RemoteUpdate? ==> r.value.patch == a.data && r.value.matchId == Field(a.data, "id")
    ensures r.Some? && r.value.RemoteInsert? ==> r.value.row == a.data
    ensures r.Some? && r.value.RemoteDelete? ==> r.value.matchId == Field(a.data, "id")
  {
    match a.kind
    case Create => Some(RemoteInsert(a.table, a.data))
    case Update => if a.data.JNull? then None else Some(RemoteUpdate(a.table, a.data, Field(a.data, "id")))
    case Delete => if a.data.JNull? then None else Some(RemoteDelete(a.table, Field(a.data, "id")))
  }

  /**
   * The update `updateJobOffline(id, data)` queues is sent as an update of the
   * `jobs` row with that id, unless data carries an `id` of its own.
   */
  lemma QueuedJobUpdateTargetsJob(n: nat, id: string, data: map<string, Json>, now: int)
    requires "id" !in data
    ensures var r := Dispatch(PendingAction(n, Update, JobsTable, JObj(WithIdThenSpread(id, data)), now));
            r.Some? && r.value.RemoteUpdate? && r.value.table == JobsTable && r.value.matchId == Some(JStr(id))
  {
  }

  /** The requests sent for the first n actions of a pass, in queue order; an action that throws sends none. */
  function SentUpTo(actions: seq<PendingAction>, n: nat): seq<RemoteCall>
    requires n <= |actions|
  {
    if n == 0 then []
    else
      var r := Dispatch(actions[n - 1]);
      SentUpTo(actions, n - 1) + (if r.Some? then [r.value] else [])
  }

  /** The requests a whole sync pass sends. */
  function Sent(actions: seq<PendingAction>): seq<RemoteCall> {
    SentUpTo(actions, |actions|)
  }

  /**
   * At most one request per action; when no action throws, exactly one per
   * action, in queue order (first in, first out).
   */
  lemma {:induction false} SentInOrder(actions: seq<PendingAction>, n: nat)
    requires n <= |actions|
    ensures |SentUpTo(actions, n)| <= n
    ensures (forall i :: 0 <= i < n ==> Dispatch(actions[i]).Some?) ==>
              |SentUpTo(actions, n)| == n && forall i :: 0 <= i < n ==> SentUpTo(actions, n)[i] == Dispatch(actions[i]).value
  {
    if n > 0 {
      SentInOrder(actions, n - 1);
    }
  }

  /**
   * Whether the i-th action of a pass leaves the queue: its request was built
   * and sent, the remote call succeeded (remoteOk[i]), and removing it from the
   * store succeeded (clearOk[i]).
   */
  predicate Cleared(actions: seq<PendingAction>, remoteOk: seq<bool>, clearOk: seq<bool>, i: nat)
    requires |remoteOk| == |actions| && |clearOk| == |actions| && i < |actions|
  {
    Dispatch(actions[i]).Some? && remoteOk[i] && clearOk[i]
  }

  /**
   * The actions among the first n of a sync pass that stay queued: those not
   * cleared, because building the request threw, the remote call failed, or the
   * removal from the store failed.
   */
  function SurvivorsUpTo(actions: seq<PendingAction>, remoteOk: seq<bool>, clearOk: seq<bool>, n: nat): seq<PendingAction>
    requires |remoteOk| == |actions| && |clearOk| == |actions| && n <= |actions|
  {
    if n == 0 then []
    else
      SurvivorsUpTo(actions, remoteOk, clearOk, n - 1)
        + (if Cleared(actions, remoteOk, clearOk, n - 1) then [] else [actions[n - 1]])
  }

  /** The actions a whole sync pass leaves queued. */
  function Survivors(actions: seq<PendingAction>, remoteOk: seq<bool>, clearOk: seq<bool>): seq<PendingAction>
    requires |remoteOk| == |actions| && |clearOk| == |actions|
  {
    SurvivorsUpTo(actions, remoteOk, clearOk, |actions|)
  }

  /**
   * A pass in which every action is cleared empties the queue; a pass in which
   * every remote call fails leaves it exactly as it was.
   */
  lemma {:induction false} SurvivorsAllOrNothing(actions: seq<PendingAction>, remoteOk: seq<bool>, clearOk: seq<bool>, n: nat)
    requires |remoteOk| == |actions| && |clearOk| == |actions| && n <= |actions|
    ensures (forall i :: 0 <= i < n ==> Cleared(actions, remoteOk, clearOk, i)) ==> SurvivorsUpTo(actions, remoteOk, clearOk, n) == []
    ensures (forall i :: 0 <= i < n ==> !remoteOk[i]) ==> SurvivorsUpTo(actions, remoteOk, clearOk, n) == actions[..n]
  {
    if n > 0 {
      SurvivorsAllOrNothing(actions, remoteOk, clearOk, n - 1);
      assert actions[..n] == actions[..n - 1] + [actions[n - 1]];
    }
  }

  /** Removing an id keeps exactly the actions with another id, in order. */
  lemma WithoutIdExactly(q: seq<PendingAction>, id: nat)
    ensures forall a :: a in WithoutId(q, id) <==> a in q && a.id != id
    ensures Seqs.IsSubsequence(WithoutId(q, id), q)
    ensures (forall i :: 0 <= i < |q| ==> q[i].id != id) ==> WithoutId(q, id) == q
  {
    Seqs.FilterMembers(IdIsNot(id), q);
    Seqs.FilterIsSubsequence(IdIsNot(id), q);
    if forall i :: 0 <= i < |q| ==> q[i].id != id {
      Seqs.FilterAll(IdIsNot(id), q);
    }
  }

  /** Removing an id keeps the queue in ascending id order. */
  lemma {:induction false} WithoutIdAscending(q: seq<PendingAction>, id: nat)
    requires AscendingIds(q)
    ensures AscendingIds(WithoutId(q, id))
  {
    if q != [] {
      WithoutIdAscending(q[1..], id);
      Seqs.FilterMembers(IdIsNot(id), q[1..]);
      var rest := WithoutId(q[1..], id);
      forall j | 0 <= j < |rest| ensures q[0].id < rest[j].id {
        assert rest[j] in q[1..];
      }
    }
  }

  /** The survivors among the first n actions are some of those n actions. */
  lemma {:induction false} SurvivorsMembers(actions: seq<PendingAction>, remoteOk: seq<bool>, clearOk: seq<bool>, n: nat)
    requires |remoteOk| == |actions| && |clearOk| == |actions| && n <= |actions|
    ensures forall x :: x in SurvivorsUpTo(actions, remoteOk, clearOk, n) ==> x in actions[..n]
  {
    if n > 0 {
      SurvivorsMembers(actions, remoteOk, clearOk, n - 1);
      assert forall x :: x in actions[..n - 1] ==> x in actions[..n];
    }
  }

  /** The survivors among the first n actions keep the order the actions were queued in. */
  lemma {:induction false} SurvivorsInOrder(actions: seq<PendingAction>, remoteOk: seq<bool>, clearOk: seq<bool>, n: nat)
    requires |remoteOk| == |actions| && |clearOk| == |actions| && n <= |actions|
    ensures Seqs.IsSubsequence(SurvivorsUpTo(actions, remoteOk, clearOk, n), actions[..n])
  {
    if n > 0 {
      SurvivorsInOrder(actions, remoteOk, clearOk, n - 1);
      var tail := if Cleared(actions, remoteOk, clearOk, n - 1) then [] else [actions[n - 1]];
      SubsequenceSnoc(SurvivorsUpTo(actions, remoteOk, clearOk, n - 1), actions[..n - 1], tail, actions[n - 1]);
      assert actions[..n - 1] + [actions[n - 1]] == actions[..n];
    }
  }

  /**
   * A sync pass leaves queued exactly the actions it did not clear, in the
   * order they were queued; in particular an update or delete of a null
   * payload always stays queued.
   */
  lemma SurvivorsExactly(actions: seq<PendingAction>, remoteOk: seq<bool>, clearOk: seq<bool>)
    requires |remoteOk| == |actions| && |clearOk| == |actions|
    requires AscendingIds(actions)
    ensures forall i :: 0 <= i < |actions| ==>
              (actions[i] in Survivors(actions, remoteOk, clearOk) <==> !(Cleared(actions, remoteOk, clearOk, i)))
    ensures Seqs.IsSubsequence(Survivors(actions, remoteOk, clearOk), actions)
  {
    SurvivorsUpToExactly(actions, remoteOk, clearOk, |actions|);
    SurvivorsInOrder(actions, remoteOk, clearOk, |actions|);
    assert actions[..|actions|] == actions;
  }

  lemma {:induction false} SurvivorsUpToExactly(actions: seq<PendingAction>, remoteOk: seq<bool>, clearOk: seq<bool>, n: nat)
    requires |remoteOk| == |actions| && |clearOk| == |actions| && n <= |actions|
    requires AscendingIds(actions)
    ensures forall i :: 0 <= i < n ==>
              (actions[i] in SurvivorsUpTo(actions, remoteOk, clearOk, n) <==> !(Cleared(actions, remoteOk, clearOk, i)))
  {
    if n > 0 {
      SurvivorsUpToExactly(actions, remoteOk, clearOk, n - 1);
      SurvivorsMembers(actions, remoteOk, clearOk, n - 1);
      var s := SurvivorsUpTo(actions, remoteOk, clearOk, n - 1);
      forall i | 0 <= i < n - 1 ensures actions[i] != actions[n - 1] {
        assert actions[i].id < actions[n - 1].id;
      }
      assert actions[n - 1] !in s by {
        assert forall x :: x in s ==> x in actions[..n - 1];
      }
    }
  }

  /** Extending both sequences by the same last element (or only the longer one) keeps a subsequence. */
  lemma {:induction false} SubsequenceSnoc(a: seq<PendingAction>, s: seq<PendingAction>, tail: seq<PendingAction>, x: PendingAction)
    requires Seqs.IsSubsequence(a, s)
    requires tail == [] || tail == [x]
    ensures Seqs.IsSubsequence(a + tail, s + [x])
    decreases |s|
  {
    if a == [] {
      if tail == [x] {
        assert a + tail == [x];
        SubsequenceOfOne(s, x);
      }
    } else if a[0] == s[0] {
      assert (a + tail)[1..] == a[1..] + tail;
      assert (s + [x])[1..] == s[1..] + [x];
      SubsequenceSnoc(a[1..], s[1..], tail, x);
    } else {
      assert (s + [x])[1..] == s[1..] + [x];
      SubsequenceSnoc(a, s[1..], tail, x);
    }
  }

  lemma {:induction false} SubsequenceOfOne(s: seq<PendingAction>, x: PendingAction)
    ensures Seqs.IsSubsequence([x], s + [x])
    decreases |s|
  {
    if s != [] {
      assert (s + [x])[1..] == s[1..] + [x];
      SubsequenceOfOne(s[1..], x);
    }
  }

  /** Removing the id of the next action to replay from "survivors so far + the rest" drops just that action. */
  lemma ClearNext(s: seq<PendingAction>, rest: seq<PendingAction>)
    requires rest != []
    requires IdsBelow(s, rest[0].id)
    requires AscendingIds(rest)
    ensures WithoutId(s + rest, rest[0].id) == s + rest[1..]
  {
    var id := rest[0].id;
    Seqs.FilterAppend(IdIsNot(id), s, rest);
    Seqs.FilterAll(IdIsNot(id), s);
    assert rest == [rest[0]] + rest[1..];
    Seqs.FilterAppend(IdIsNot(id), [rest[0]], rest[1..]);
    Seqs.FilterAll(IdIsNot(id), rest[1..]);
  }

  /**
   * One step of the replay loop: the i-th action is either removed from
   * "survivors so far + actions not yet replayed" or becomes a survivor.
   */
  lemma SyncStep(actions: seq<PendingAction>, remoteOk: seq<bool>, clearOk: seq<bool>, i: nat)
    requires |remoteOk| == |actions| && |clearOk| == |actions|
    requires i < |actions|
    requires AscendingIds(actions)
    ensures Cleared(actions, remoteOk, clearOk, i) ==>
              WithoutId(SurvivorsUpTo(actions, remoteOk, clearOk, i) + actions[i..], actions[i].id)
              == SurvivorsUpTo(actions, remoteOk, clearOk, i + 1) + actions[i + 1..]
    ensures !(Cleared(actions, remoteOk, clearOk, i)) ==>
              SurvivorsUpTo(actions, remoteOk, clearOk, i) + actions[i..]
              == SurvivorsUpTo(actions, remoteOk, clearOk, i + 1) + actions[i + 1..]
  {
    var done := SurvivorsUpTo(actions, remoteOk, clearOk, i);
    assert actions[i..] == [actions[i]] + actions[i + 1..];
    if Cleared(actions, remoteOk, clearOk, i) {
      SurvivorsMembers(actions, remoteOk, clearOk, i);
      forall j | 0 <= j < |done| ensures done[j].id < actions[i].id {
        assert done[j] in actions[..i];
      }
      ClearNext(done, actions[i..]);
    }
  }

  // ---------------------------------------------------------------------
  // The database
  // ---------------------------------------------------------------------

  class OfflineDb {
    /** Object store `cache`, keyed by `key`. */
    var cache: map<string, CacheEntry>
    /** Object store `jobs`, keyed by `id`. */
    var jobs: map<string, CachedEntity>
    /** Object store `pendingActions` in key order. */
    var pendingActions: seq<PendingAction>
    /** The auto-increment key generator of `pendingActions`: the id the next `add` gets. */
    var nextActionId: nat
    /** Object store `photos`, keyed by `id`. */
    var photos: map<string, OfflinePhoto>

    ghost predicate Valid()
      reads this
    {
      && nextActionId >= 1
      && AscendingIds(pendingActions)
      && IdsBelow(pendingActions, nextActionId)
      && (forall k :: k in cache ==> cache[k].key == k)
      && (forall id :: id in jobs ==> jobs[id].id == id)
      && (forall id :: id in photos ==> photos[id].id == id)
    }

    /** A freshly created database: every store empty, the key generator at 1. */
    constructor ()
      ensures Valid()
      ensures cache == map[] && jobs == map[] && photos == map[]
      ensures pendingActions == [] && nextActionId == 1
    {
      cache, jobs, photos := map[], map[], map[];
      pendingActions, nextActionId := [], 1;
    }

    // ----- cache -----

    /** `getCached(key)` at time now. */
    method GetCached(key: string, now: int) returns (r: Option<Json>)
      requires Valid()
      modifies this`cache
      ensures Valid()
      ensures r == CachedValue(old(cache), key, now)
      ensures cache == CacheAfterRead(old(cache), key, now)
    {
      if key !in cache {
        return None;
      }
      var cached := cache[key];
      if cached.expiresAt < now {
        cache := cache - {key};
        return None;
      }
      return Some(cached.data);
    }

    /** `setCache(key, data, ttlMs)` at time now. */
    method SetCache(key: string, data: Json, now: int, ttlMs: int := DefaultTtlMs)
      requires Valid()
      modifies this`cache
      ensures Valid()
      ensures cache == old(cache)[key := CacheEntry(key, data, now + ttlMs)]
    {
      cache := cache[key := CacheEntry(key, data, now + ttlMs)];
    }

    /** `invalidateCache(prefix)`: a cursor walk over the store deleting every entry under the prefix. */
    method InvalidateCache(prefix: string)
      requires Valid()
      modifies this`cache
      ensures Valid()
      ensures cache == Invalidated(old(cache), prefix)
    {
      var unvisited := cache.Keys;
      while unvisited != {}
        invariant Valid()
        invariant unvisited <= old(cache).Keys
        invariant forall k :: k in cache <==> k in old(cache) && (k in unvisited || !StartsWith(k, prefix))
        invariant forall k :: k in cache ==> cache[k] == old(cache)[k]
        decreases unvisited
      {
        var k :| k in unvisited;
        if StartsWith(k, prefix) {
          cache := cache - {k};
        }
        unvisited := unvisited - {k};
      }
      assert cache.Keys == Invalidated(old(cache), prefix).Keys;
    }

    // ----- pending actions -----

    /** `queueAction(type, table, data)` at time now: `add` with the next auto-increment key. */
    method QueueAction(kind: ActionType, table: string, data: Json, now: int)
      requires Valid()
      modifies this`pendingActions, this`nextActionId
      ensures Valid()
      ensures pendingActions == old(pendingActions) + [PendingAction(old(nextActionId), kind, table, data, now)]
      ensures forall i :: 0 <= i < |old(pendingActions)| ==> old(pendingActions)[i].id < old(nextActionId)
      ensures nextActionId == old(nextActionId) + 1
    {
      pendingActions := pendingActions + [PendingAction(nextActionId, kind, table, data, now)];
      nextActionId := nextActionId + 1;
    }

    /** `getPendingActions()`: every queued action, in ascending id order. */
    method GetPendingActions() returns (r: seq<PendingAction>)
      requires Valid()
      ensures r == pendingActions
      ensures forall i, j :: 0 <= i < j < |r| ==> r[i].id < r[j].id
    {
      r := pendingActions;
    }

    /** `clearPendingAction(id)`: delete the action with that key, if any. */
    method ClearPendingAction(id: nat)
      requires Valid()
      modifies this`pendingActions
      ensures Valid()
      ensures pendingActions == WithoutId(old(pendingActions), id)
    {
      WithoutIdAscending(pendingActions, id);
      WithoutIdExactly(pendingActions, id);
      pendingActions := WithoutId(pendingActions, id);
      forall i | 0 <= i < |pendingActions| ensures pendingActions[i].id < nextActionId {
        assert pendingActions[i] in old(pendingActions);
      }
    }

    // ----- jobs -----

    /** `cacheJob(id, data)` at time now: the row as the server returned it, so synced. */
    method CacheJob(id: string, data: Json, now: int)
      requires Valid()
      modifies this`jobs
      ensures Valid()
      ensures jobs == old(jobs)[id := CachedEntity(id, data, true, now)]
    {
      jobs := jobs[id := CachedEntity(id, data, true, now)];
    }

    /** `getCachedJob(id)`: the cached row's data, or null when there is none. */
    method GetCachedJob(id: string) returns (r: Option<Json>)
      requires Valid()
      ensures r.Some? <==> id in jobs
      ensures r.Some? ==> r.value == jobs[id].data
    {
      r := if id in jobs then Some(jobs[id].data) else None;
    }

    /**
     * `getAllCachedJobs()`: the data of every cached row, each once. ids lists
     * the row each payload comes from.
     */
    method GetAllCachedJobs() returns (r: seq<Json>, ghost ids: seq<string>)
      requires Valid()
      ensures |r| == |jobs| && |ids| == |r|
      ensures forall id :: id in ids <==> id in jobs
      ensures forall i, j :: 0 <= i < j < |ids| ==> ids[i] != ids[j]
      ensures forall i :: 0 <= i < |r| ==> ids[i] in jobs && r[i] == jobs[ids[i]].data
      ensures forall x :: x in r <==> exists id :: id in jobs && jobs[id].data == x
    {
      r, ids := [], [];
      var unvisited := jobs.Keys;
      while unvisited != {}
        invariant unvisited <= jobs.Keys
        invariant |r| + |unvisited| == |jobs.Keys| && |ids| == |r|
        invariant forall id :: id in ids <==> id in jobs && id !in unvisited
        invariant forall i, j :: 0 <= i < j < |ids| ==> ids[i] != ids[j]
        invariant forall i :: 0 <= i < |r| ==> ids[i] in jobs && r[i] == jobs[ids[i]].data
        invariant forall x :: x in r <==> exists id :: id in jobs && id !in unvisited && jobs[id].data == x
        decreases unvisited
      {
        var id :| id in unvisited;
        r, ids := r + [jobs[id].data], ids + [id];
        unvisited := unvisited - {id};
      }
    }

    /**
     * `updateJobOffline(id, data)` at time now: the row is stored unsynced and one
     * update action on table `jobs` with payload `{ id, ...data }` is queued.
     */
    method UpdateJobOffline(id: string, data: map<string, Json>, now: int)
      requires Valid()
      modifies this`jobs, this`pendingActions, this`nextActionId
      ensures Valid()
      ensures jobs == old(jobs)[id := CachedEntity(id, JObj(data), false, now)]
      ensures pendingActions == old(pendingActions)
              + [PendingAction(old(nextActionId), Update, JobsTable, JObj(WithIdThenSpread(id, data)), now)]
    {
      jobs := jobs[id := CachedEntity(id, JObj(data), false, now)];
      QueueAction(Update, JobsTable, JObj(WithIdThenSpread(id, data)), now);
    }

    // ----- photos -----

    /** p is the record stored under its own id. */
    predicate Stored(p: OfflinePhoto)
      reads this
    {
      p.id in photos && photos[p.id] == p
    }

    /**
     * `savePhotoOffline(jobId, blob, type, caption)` at time now with freshId as the
     * generated id: `add` fails when that id is already taken.
     */
    method SavePhotoOffline(jobId: string, blob: Blob, kind: PhotoType, caption: Option<string>, freshId: string, now: int)
      returns (r: Result<string, StoreError>)
      requires Valid()
      modifies this`photos
      ensures Valid()
      ensures freshId in old(photos) ==> r == Err(ConstraintError) && photos == old(photos)
      ensures freshId !in old(photos) ==>
                r == Ok(freshId) && photos == old(photos)[freshId := OfflinePhoto(freshId, jobId, blob, kind, caption, false, now)]
    {
      if freshId in photos {
        return Err(ConstraintError);
      }
      photos := photos[freshId := OfflinePhoto(freshId, jobId, blob, kind, caption, false, now)];
      return Ok(freshId);
    }

    /** Every stored photo that passes keep, each once (an index scan). */
    method PhotosWhere(keep: OfflinePhoto -> bool) returns (r: seq<OfflinePhoto>)
      requires Valid()
      ensures forall p :: p in r <==> Stored(p) && keep(p)
      ensures forall i, j :: 0 <= i < j < |r| ==> r[i].id != r[j].id
    {
      r := [];
      var unvisited := photos.Keys;
      while unvisited != {}
        invariant unvisited <= photos.Keys
        invariant forall p :: p in r <==> Stored(p) && p.id !in unvisited && keep(p)
        invariant forall i, j :: 0 <= i < j < |r| ==> r[i].id != r[j].id
        decreases unvisited
      {
        var id :| id in unvisited;
        if keep(photos[id]) {
          r := r + [photos[id]];
        }
        unvisited := unvisited - {id};
      }
    }

    /**
     * `getUnsyncedPhotos()` as written: `getAll(false)` on the `by-synced` index.
     * A boolean is not a valid IndexedDB key, so the query is rejected with a
     * DataError whatever the store holds (and no photo is ever entered in that
     * index, its key path holding a boolean).
     */
    method GetUnsyncedPhotos() returns (r: Result<seq<OfflinePhoto>, StoreError>)
      requires Valid()
      ensures r == Err(DataError)
    {
      r := Err(DataError);
    }

    /** What `getUnsyncedPhotos()` is meant to return: every stored photo not yet synced, each once. */
    method GetUnsyncedPhotosScan() returns (r: seq<OfflinePhoto>)
      requires Valid()
      ensures forall p :: p in r <==> Stored(p) && !p.synced
      ensures forall i, j :: 0 <= i < j < |r| ==> r[i].id != r[j].id
    {
      r := PhotosWhere((p: OfflinePhoto) => !p.synced);
    }

    /** `getJobPhotos(jobId)`: the `by-job` index scan for jobId. */
    method GetJobPhotos(jobId: string) returns (r: seq<OfflinePhoto>)
      requires Valid()
      ensures forall p :: p in r <==> Stored(p) && p.jobId == jobId
      ensures forall i, j :: 0 <= i < j < |r| ==> r[i].id != r[j].id
    {
      r := PhotosWhere((p: OfflinePhoto) => p.jobId == jobId);
    }

    /** `markPhotoSynced(id)`: set only the flag; an unknown id changes nothing. */
    method MarkPhotoSynced(id: string)
      requires Valid()
      modifies this`photos
      ensures Valid()
      ensures id !in old(photos) ==> photos == old(photos)
      ensures id in old(photos) ==> photos == old(photos)[id := old(photos)[id].(synced := true)]
    {
      if id in photos {
        photos := photos[id := photos[id].(synced := true)];
      }
    }

    // ----- sync manager -----

    /**
     * One iteration of the replay loop, for the i-th action: build its request
     * (none when that throws) and send it, then remove the action from the queue
     * and count a success when the remote call and the removal succeed, or count
     * a failure otherwise.
     */
    method ReplayStep(actions: seq<PendingAction>, remoteOk: seq<bool>, clearOk: seq<bool>, i: nat,
                      calls: seq<RemoteCall>, success: nat, failed: nat)
      returns (calls': seq<RemoteCall>, success': nat, failed': nat)
      requires Valid()
      requires |remoteOk| == |actions| && |clearOk| == |actions| && i < |actions|
      requires AscendingIds(actions)
      requires pendingActions == SurvivorsUpTo(actions, remoteOk, clearOk, i) + actions[i..]
      requires calls == SentUpTo(actions, i)
      requires failed == |SurvivorsUpTo(actions, remoteOk, clearOk, i)|
      requires success + failed == i
      modifies this`pendingActions
      ensures Valid()
      ensures pendingActions == SurvivorsUpTo(actions, remoteOk, clearOk, i + 1) + actions[i + 1..]
      ensures calls' == SentUpTo(actions, i + 1)
      ensures failed' == |SurvivorsUpTo(actions, remoteOk, clearOk, i + 1)|
      ensures success' + failed' == i + 1
    {
      SyncStep(actions, remoteOk, clearOk, i);
      var request := Dispatch(actions[i]);
      calls', success', failed' := calls, success, failed;
      if request.Some? {
        calls' := calls + [request.value];
      }
      if request.Some? && remoteOk[i] && clearOk[i] {
        ClearPendingAction(actions[i].id);
        success' := success + 1;
      } else {
        failed' := failed + 1;
      }
    }

    /** The `for ... of` loop of `syncPendingChanges` over the actions it read. */
    method Replay(actions: seq<PendingAction>, remoteOk: seq<bool>, clearOk: seq<bool>)
      returns (success: nat, failed: nat, calls: seq<RemoteCall>)
      requires Valid()
      requires actions == pendingActions
      requires |remoteOk| == |actions| && |clearOk| == |actions|
      modifies this`pendingActions
      ensures Valid()
      ensures calls == Sent(actions)
      ensures pendingActions == Survivors(actions, remoteOk, clearOk)
      ensures failed == |pendingActions|
      ensures success + failed == |actions|
    {
      success, failed := 0, 0;
      calls := [];
      var i := 0;
      assert actions[0..] == actions;
      while i < |actions|
        invariant 0 <= i <= |actions|
        invariant Valid()
        invariant AscendingIds(actions)
        invariant pendingActions == SurvivorsUpTo(actions, remoteOk, clearOk, i) + actions[i..]
        invariant calls == SentUpTo(actions, i)
        invariant failed == |SurvivorsUpTo(actions, remoteOk, clearOk, i)|
        invariant success + failed == i
      {
        calls, success, failed := ReplayStep(actions, remoteOk, clearOk, i, calls, success, failed);
        i := i + 1;
      }
    }

    /**
     * `syncPendingChanges(supabase)`. storeOk says whether opening the database and
     * reading the queue succeeded; remoteOk[i] and clearOk[i] say whether the remote
     * call for the i-th queued action, and then its removal from the queue, succeeded.
     * calls lists the remote requests in the order they were sent.
     */
    method SyncPendingChanges(storeOk: bool, remoteOk: seq<bool>, clearOk: seq<bool>)
      returns (report: SyncReport, calls: seq<RemoteCall>)
      requires Valid()
      requires |remoteOk| == |pendingActions| && |clearOk| == |pendingActions|
      modifies this`pendingActions
      ensures Valid()
      ensures !storeOk ==> report == Rejected && calls == [] && pendingActions == old(pendingActions)
      ensures storeOk ==> report.Completed?
      ensures storeOk ==> calls == Sent(old(pendingActions))
      ensures storeOk ==> pendingActions == Survivors(old(pendingActions), remoteOk, clearOk)
      ensures report.Completed? ==> report.failed == |pendingActions|
      ensures report.Completed? ==> report.success + report.failed == |old(pendingActions)|
    {
      if !storeOk {
        return Rejected, [];
      }
      var actions := GetPendingActions();
      var success, failed;
      success, failed, calls := Replay(actions, remoteOk, clearOk);
      return Completed(success, failed), calls;
    }
  }

  /**
   * A photo saved offline into an empty store is unsynced, and the intended scan
   * lists it, yet `getUnsyncedPhotos()` as written rejects instead of returning it.
   */
  method UnsyncedPhotoNeverListed(jobId: string, blob: Blob, kind: PhotoType, caption: Option<string>, freshId: string, now: int)
    returns (asWritten: Result<seq<OfflinePhoto>, StoreError>, intended: seq<OfflinePhoto>)
    ensures asWritten == Err(DataError)
    ensures OfflinePhoto(freshId, jobId, blob, kind, caption, false, now) in intended
  {
    var db := new OfflineDb();
    var saved := db.SavePhotoOffline(jobId, blob, kind, caption, freshId, now);
    asWritten := db.GetUnsyncedPhotos();
    intended := db.GetUnsyncedPhotosScan();
  }
}
