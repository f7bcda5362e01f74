/**
 * The callback registry of `Property<T>` as a value: the map from callback
 * IDs to callbacks, the FIFO queue of IDs freed for reuse and the counter
 * that issues new IDs, with the operations that register and remove
 * callbacks and the record of one round of change notifications.
 */
module CallbackRegistry {

  type CallbackId = nat

  /**
   * A change callback as far as the registry can tell callbacks apart: an
   * empty `std::function`, or a callable known by the type of its target.
   * Removal by callback compares exactly this.
   */
  datatype Callback = Empty | Callable(targetType: nat)

  datatype Registry = Registry(callbacks: map<CallbackId, Callback>, free: seq<CallbackId>, next: CallbackId)

  /** The registry of a newly constructed property. */
  const Initial: Registry := Registry(map[], [], 0)

  /**
   * IDs below `next` are either live (keys of the map) or queued for reuse,
   * never both, each queued at most once; no ID at or above `next` is in use.
   */
  ghost predicate IdsWellFormed(r: Registry)
  {
    && (forall id :: id in r.callbacks ==> id < r.next)
    && (forall i :: 0 <= i < |r.free| ==> r.free[i] < r.next && r.free[i] !in r.callbacks)
    && (forall i, j :: 0 <= i < j < |r.free| ==> r.free[i] != r.free[j])
    && (forall id :: 0 <= id < r.next ==> id in r.callbacks || id in r.free)
  }

  datatype Added = Added(registry: Registry, id: CallbackId)

  /** Register `cb`: reuse the oldest freed ID if there is one, else issue a new one. */
  function Add(r: Registry, cb: Callback): Added
  {
    if r.free == [] then
      Added(Registry(r.callbacks[r.next := cb], [], r.next + 1), r.next)
    else
      Added(Registry(r.callbacks[r.free[0] := cb], r.free[1..], r.next), r.free[0])
  }

  /** Remove the callback registered under `id`, queueing the ID for reuse; no-op if it is not live. */
  function RemoveId(r: Registry, id: CallbackId): Registry
  {
    if id in r.callbacks then Registry(r.callbacks - {id}, r.free + [id], r.next) else r
  }

  /**
   * `after` is `before` with one entry equal to `cb` removed, if there is
   * such an entry; which one is left open, as the map's iteration order is.
   */
  ghost predicate RemovesFirstMatch(before: Registry, after: Registry, cb: Callback)
  {
    if exists id :: id in before.callbacks && before.callbacks[id] == cb then
      exists id :: id in before.callbacks && before.callbacks[id] == cb && after == RemoveId(before, id)
    else
      after == before
  }

  // ---------------------------------------------------------------------
  // Notifications
  // ---------------------------------------------------------------------

  /** One invocation of the callback registered under `id`. */
  datatype Notification<T> = Notification(id: CallbackId, oldValue: T, newValue: T)

  /** The IDs whose callbacks are non-empty, the ones a change invokes. */
  function CallableIds(callbacks: map<CallbackId, Callback>): set<CallbackId>
  {
    set id | id in callbacks && callbacks[id].Callable?
  }

  function IdsOf<T>(batch: seq<Notification<T>>): set<CallbackId>
  {
    set i | 0 <= i < |batch| :: batch[i].id
  }

  lemma IdsOfSnoc<T>(batch: seq<Notification<T>>, n: Notification<T>)
    ensures IdsOf(batch + [n]) == IdsOf(batch) + {n.id}
  {
    var b := batch + [n];
    forall id | id in IdsOf(batch) ensures id in IdsOf(b) {
      var i :| 0 <= i < |batch| && batch[i].id == id;
      assert b[i].id == id;
    }
    assert b[|batch|].id == n.id;
  }

  /**
   * `batch` is one round of notifications for a change from `oldValue` to
   * `newValue`: each non-empty callback once, in some order, and nothing else.
   */
  ghost predicate Fires<T>(batch: seq<Notification<T>>, callbacks: map<CallbackId, Callback>, oldValue: T, newValue: T)
  {
    && (forall i, j :: 0 <= i < j < |batch| ==> batch[i].id != batch[j].id)
    && IdsOf(batch) == CallableIds(callbacks)
    && (forall i :: 0 <= i < |batch| ==> batch[i].oldValue == oldValue && batch[i].newValue == newValue)
  }

  // ---------------------------------------------------------------------
  // Lemmas
  // ---------------------------------------------------------------------

  /** A newly constructed property's registry is well formed. */
  lemma InitialWellFormed()
    ensures IdsWellFormed(Initial)
  {
  }

  /**
   * Registration hands out an ID that was not live, makes it live with
   * `cb`, leaves every other entry alone and keeps the ID bookkeeping
   * well formed.
   */
  lemma AddIssuesUnusedId(r: Registry, cb: Callback)
    requires IdsWellFormed(r)
    ensures var a := Add(r, cb);
            && a.id !in r.callbacks
            && a.registry.callbacks == r.callbacks[a.id := cb]
            && IdsWellFormed(a.registry)
  {
    var a := Add(r, cb);
    if r.free != [] {
      forall id | 0 <= id < a.registry.next
        ensures id in a.registry.callbacks || id in a.registry.free
      {
        if id !in r.callbacks && id != r.free[0] {
          var k :| 0 <= k < |r.free| && r.free[k] == id;
          assert a.registry.free[k - 1] == id;
        }
      }
    }
  }

  /**
   * Removal by ID takes out at most the one entry under `id`; the ID goes
   * to the back of the queue exactly when it was live; the bookkeeping
   * stays well formed.
   */
  lemma RemoveIdKeepsIdsWellFormed(r: Registry, id: CallbackId)
    requires IdsWellFormed(r)
    ensures var r' := RemoveId(r, id);
            && r'.callbacks == r.callbacks - {id}
            && r'.next == r.next
            && r'.free == (if id in r.callbacks then r.free + [id] else r.free)
            && IdsWellFormed(r')
  {
  }

  /**
   * Removal by callback takes out at most one entry, and only one equal to
   * `cb`; the bookkeeping stays well formed.
   */
  lemma RemovesFirstMatchKeepsIdsWellFormed(before: Registry, after: Registry, cb: Callback)
    requires IdsWellFormed(before) && RemovesFirstMatch(before, after, cb)
    ensures IdsWellFormed(after)
    ensures after == before ||
            exists id :: id in before.callbacks && before.callbacks[id] == cb && after.callbacks == before.callbacks - {id}
  {
    if after != before {
      var id :| id in before.callbacks && before.callbacks[id] == cb && after == RemoveId(before, id);
      RemoveIdKeepsIdsWellFormed(before, id);
    }
  }

  /** No ID is ever lost: live IDs and queued IDs together number exactly `next`. */
  lemma NoIdLost(r: Registry)
    requires IdsWellFormed(r)
    ensures |r.callbacks| + |r.free| == r.next
  {
    var live, queued := r.callbacks.Keys, Elements(r.free);
    DistinctCard(r.free);
    LiveAndQueuedPartition(r);
    assert |live + queued| == |live| + |queued|;
  }

  lemma LiveAndQueuedPartition(r: Registry)
    requires IdsWellFormed(r)
    ensures r.callbacks.Keys !! Elements(r.free)
    ensures r.callbacks.Keys + Elements(r.free) == Below(r.next)
  {
    var live, queued, below := r.callbacks.Keys, Elements(r.free), Below(r.next);
    forall id | id in queued ensures id !in live && id in below {
      var k :| 0 <= k < |r.free| && r.free[k] == id;
    }
    forall id | id in below ensures id in live || id in queued { }
  }

  /**
   * Freed IDs are reused first-in first-out: with no ID queued, freeing
   * `a` and then `b` makes the next two registrations return `a` and then
   * `b`, and the one after that a new ID.
   */
  lemma FreedIdsReusedInOrder(r: Registry, a: CallbackId, b: CallbackId, c1: Callback, c2: Callback, c3: Callback)
    requires r.free == [] && a in r.callbacks && b in r.callbacks && a != b
    ensures var freed := RemoveId(RemoveId(r, a), b);
            var first := Add(freed, c1);
            var second := Add(first.registry, c2);
            var third := Add(second.registry, c3);
            first.id == a && second.id == b && third.id == r.next
  {
  }

  /** One round of notifications holds exactly one entry per non-empty callback. */
  lemma FiresOncePerCallback<T>(batch: seq<Notification<T>>, callbacks: map<CallbackId, Callback>, oldValue: T, newValue: T)
    requires Fires(batch, callbacks, oldValue, newValue)
    ensures |batch| == |CallableIds(callbacks)|
  {
    DistinctIdsCard(batch);
  }

  // ---------------------------------------------------------------------
  // Counting helpers
  // ---------------------------------------------------------------------

  /** The elements of `s`. */
  function Elements(s: seq<CallbackId>): set<CallbackId>
  {
    set x | x in s
  }

  lemma {:induction false} DistinctCard(s: seq<CallbackId>)
    requires forall i, j :: 0 <= i < j < |s| ==> s[i] != s[j]
    ensures |Elements(s)| == |s|
  {
    if s != [] {
      var init, last := s[..|s| - 1], s[|s| - 1];
      DistinctCard(init);
      assert last !in Elements(init) by {
        forall k | 0 <= k < |init| ensures init[k] != last { }
      }
      assert Elements(s) == Elements(init) + {last} by {
        assert s == init + [last];
      }
    }
  }

  /** The IDs a counter at `n` has issued so far. */
  function Below(n: nat): (r: set<CallbackId>)
    ensures forall id: CallbackId :: id in r <==> id < n
    ensures |r| == n
  {
    if n == 0 then {} else Below(n - 1) + {n - 1}
  }

  lemma {:induction false} DistinctIdsCard<T>(batch: seq<Notification<T>>)
    requires forall i, j :: 0 <= i < j < |batch| ==> batch[i].id != batch[j].id
    ensures |IdsOf(batch)| == |batch|
  {
    if batch != [] {
      var init := batch[..|batch| - 1];
      DistinctIdsCard(init);
      IdsOfSnoc(init, batch[|batch| - 1]);
      assert batch == init + [batch[|batch| - 1]];
      assert IdsOf(batch) == IdsOf(init) + {batch[|batch| - 1].id};
    }
  }
}
