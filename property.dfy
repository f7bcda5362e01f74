/**
 * `Property<T>`: a single value with change callbacks, an optional
 * validator and coercer, and one-way bindings that push accepted values
 * into other properties of the same type.
 *
 * The callbacks themselves are not run: calling them is modelled by
 * appending one `Notification` per callback to `log`, so what they were
 * called with, and how often, is part of the state.
 */
module Properties {
  import opened Optional
  import opened Protocol
  import opened CallbackRegistry

  /** `xs` lists every element of `s` exactly once. */
  ghost predicate Enumerates<X>(xs: seq<X>, s: set<X>)
  {
    && (forall i, j :: 0 <= i < j < |xs| ==> xs[i] != xs[j])
    && (forall i :: 0 <= i < |xs| ==> xs[i] in s)
    && (forall x :: x in s ==> x in xs)
  }

  /**
   * When no target of a propagation has a coercer, the visiting order does
   * not matter: each target ends with the propagated value if its own
   * validator admits it, else with its old value (`before` holds the
   * targets' states as the propagation found them).
   */
  lemma UncoercedPropagation<T(0)>(before: map<Property<T>, Slot<T>>, order: seq<Property<T>>,
                                   slots: seq<Slot<T>>, v: T)
    requires Enumerates(order, before.Keys) && |slots| == |order|
    requires forall i :: 0 <= i < |order| ==> slots[i] == before[order[i]]
    requires forall i :: 0 <= i < |order| ==> order[i].value == Sweep(slots, v)[i]
    requires forall t :: t in before ==> before[t].coercer.None?
    ensures Threaded(slots, v) == v
    ensures forall t :: t in before ==> t.value == if Admits(before[t].validator, v) then v else before[t].value
  {
    SweepWithoutCoercers(slots, v);
    forall t | t in before
      ensures t.value == if Admits(before[t].validator, v) then v else before[t].value
    {
      assert t in order;
      var i :| 0 <= i < |order| && order[i] == t;
    }
  }

  class Property<T(==,0)> {
    var value: T
    var callbacks: map<CallbackId, Callback>
    var freeIDs: seq<CallbackId>
    var nextID: CallbackId
    /** The properties this one pushes accepted values into; not owned. */
    var bindings: set<Property<T>>
    var validator: Option<T -> bool>
    var coercer: Option<T -> T>
    /** Every callback invocation so far, oldest first. */
    var log: seq<Notification<T>>

    function RegistryView(): Registry
      reads this`callbacks, this`freeIDs, this`nextID
    {
      Registry(callbacks, freeIDs, nextID)
    }

    function AsSlot(): Slot<T>
      reads this`value, this`coercer, this`validator
    {
      Slot(value, coercer, validator)
    }

    /** The object invariant: the callback ID bookkeeping is consistent. */
    ghost predicate Valid()
      reads this`callbacks, this`freeIDs, this`nextID
    {
      IdsWellFormed(RegistryView())
    }

    /** No callback registered or ever called, no binding. */
    ghost predicate Blank()
      reads this
    {
      RegistryView() == Initial && bindings == {} && log == []
    }

    // -------------------------------------------------------------------
    // Construction: the initial value bypasses coercion and validation
    // -------------------------------------------------------------------

    constructor (value: T)
      ensures Valid() && Blank()
      ensures this.value == value && validator == None && coercer == None
    {
      this.value := value;
      callbacks, freeIDs, nextID := map[], [], 0;
      bindings, validator, coercer, log := {}, None, None, [];
      InitialWellFormed();
    }

    /** The value is left as default initialisation leaves it: arbitrary. */
    constructor WithValidator(validator: Option<T -> bool>)
      ensures Valid() && Blank()
      ensures this.validator == validator && coercer == None
    {
      callbacks, freeIDs, nextID := map[], [], 0;
      bindings, this.validator, coercer, log := {}, validator, None, [];
      InitialWellFormed();
    }

    /** The value is left as default initialisation leaves it: arbitrary. */
    constructor WithCoercer(coercer: Option<T -> T>)
      ensures Valid() && Blank()
      ensures validator == None && this.coercer == coercer
    {
      callbacks, freeIDs, nextID := map[], [], 0;
      bindings, validator, this.coercer, log := {}, None, coercer, [];
      InitialWellFormed();
    }

    constructor WithValueAndValidator(value: T, validator: Option<T -> bool>)
      ensures Valid() && Blank()
      ensures this.value == value && this.validator == validator && coercer == None
    {
      this.value := value;
      callbacks, freeIDs, nextID := map[], [], 0;
      bindings, this.validator, coercer, log := {}, validator, None, [];
      InitialWellFormed();
    }

    constructor WithValueAndCoercer(value: T, coercer: Option<T -> T>)
      ensures Valid() && Blank()
      ensures this.value == value && validator == None && this.coercer == coercer
    {
      this.value := value;
      callbacks, freeIDs, nextID := map[], [], 0;
      bindings, validator, this.coercer, log := {}, None, coercer, [];
      InitialWellFormed();
    }

    constructor WithAll(value: T, validator: Option<T -> bool>, coercer: Option<T -> T>)
      ensures Valid() && Blank()
      ensures this.value == value && this.validator == validator && this.coercer == coercer
    {
      this.value := value;
      callbacks, freeIDs, nextID := map[], [], 0;
      bindings, this.validator, this.coercer, log := {}, validator, coercer, [];
      InitialWellFormed();
    }

    // -------------------------------------------------------------------
    // Reading and the unguarded write
    // -------------------------------------------------------------------

    /** The conversion to `T`: a copy of the stored value, with no effect. */
    method Get() returns (v: T)
      ensures v == value
    {
      v := value;
    }

    /**
     * A write through the address the arrow operator hands out: no
     * coercion, no validation, no callback, no propagation.
     */
    method WriteThrough(v: T)
      modifies this`value
      ensures value == v
    {
      value := v;
    }

    // -------------------------------------------------------------------
    // Assignment
    // -------------------------------------------------------------------

    /**
     * Assign `v`. The caller's variable is passed by reference and comes
     * back as `passed`, rewritten by every coercer that ran on it.
     *
     * If `v` equals the stored value, or the validator rejects the coerced
     * candidate, nothing changes but `passed`. Otherwise the coerced
     * candidate is stored, every non-empty callback is called once with the
     * old and new values (`batch`), and then the bound targets, visited in
     * some order (`order`, their states beforehand in `slots`), are each
     * offered the candidate. Only the targets' values can change: their
     * callbacks and their own bindings do not run.
     */
    method Assign(v: T) returns (passed: T, ghost batch: seq<Notification<T>>,
                                 ghost order: seq<Property<T>>, ghost slots: seq<Slot<T>>)
      requires this !in bindings
      modifies this`value, this`log, bindings`value
      ensures value == Settle(old(AsSlot()), v)
      ensures passed == Threaded(slots, Carry(old(AsSlot()), v))
      ensures Offer(old(AsSlot()), v).Accepted? ==>
                && log == old(log) + batch
                && Fires(batch, callbacks, old(value), value)
                && Enumerates(order, bindings)
                && |slots| == |order|
                && (forall i :: 0 <= i < |order| ==> slots[i] == old(order[i].AsSlot()))
                && (forall i :: 0 <= i < |order| ==> order[i].value == Sweep(slots, value)[i])
      ensures !Offer(old(AsSlot()), v).Accepted? ==>
                log == old(log) && slots == [] && unchanged(bindings)
      ensures Offer(old(AsSlot()), v).Accepted? && (forall t :: t in bindings ==> t.coercer.None?) ==>
                && passed == value
                && forall t :: t in bindings ==>
                     t.value == if Admits(t.validator, value) then value else old(t.value)
    {
      passed, batch, order, slots := v, [], [], [];
      if value != v {
        if coercer.Some? {
          passed := coercer.value(passed);
        }
        if validator.None? || validator.value(passed) {
          var oldValue := value;
          value := passed;
          batch := NotifyCallbacks(oldValue, passed);
          passed, order, slots := NotifyBindings(passed);
        }
      }
    }

    /** Call every non-empty callback once, in the map's order, with `(oldValue, newValue)`. */
    method NotifyCallbacks(oldValue: T, newValue: T) returns (ghost batch: seq<Notification<T>>)
      modifies this`log
      ensures log == old(log) + batch
      ensures Fires(batch, callbacks, oldValue, newValue)
    {
      var unvisited := callbacks.Keys;
      batch := [];
      while unvisited != {}
        invariant unvisited <= callbacks.Keys
        invariant log == old(log) + batch
        invariant forall i, j :: 0 <= i < j < |batch| ==> batch[i].id != batch[j].id
        invariant forall i :: 0 <= i < |batch| ==>
                    batch[i].id !in unvisited && batch[i].oldValue == oldValue && batch[i].newValue == newValue
        invariant IdsOf(batch) == CallableIds(callbacks) - unvisited
        decreases unvisited
      {
        var id :| id in unvisited;
        if callbacks[id].Callable? {
          var n := Notification(id, oldValue, newValue);
          log := log + [n];
          IdsOfSnoc(batch, n);
          batch := batch + [n];
        }
        unvisited := unvisited - {id};
      }
    }

    /**
     * One step of a propagation: offer `candidate` to this target without
     * notifying its own callbacks or bindings, and hand on the candidate as
     * this target's coercer left it.
     */
    method Receive(candidate: T) returns (carried: T)
      modifies this`value
      ensures value == Settle(old(AsSlot()), candidate)
      ensures carried == Carry(old(AsSlot()), candidate)
    {
      carried := candidate;
      if value != carried {
        if coercer.Some? {
          carried := coercer.value(carried);
        }
        if validator.None? || validator.value(carried) {
          value := carried;
        }
      }
    }

    /**
     * Offer `newValue` to every bound target in turn. The candidate is
     * shared: a target's coercer rewrites it for the targets after it, and
     * the caller gets it back as `candidate`. A target that accepts has its
     * value set directly; nothing else of it is touched.
     */
    method NotifyBindings(newValue: T) returns (candidate: T, ghost order: seq<Property<T>>,
                                                ghost slots: seq<Slot<T>>)
      requires this !in bindings
      modifies bindings`value
      ensures Enumerates(order, bindings)
      ensures |slots| == |order|
      ensures forall i :: 0 <= i < |order| ==> slots[i] == old(order[i].AsSlot())
      ensures forall i :: 0 <= i < |order| ==> order[i].value == Sweep(slots, newValue)[i]
      ensures candidate == Threaded(slots, newValue)
      ensures (forall t :: t in bindings ==> t.coercer.None?) ==>
                && candidate == newValue
                && forall t :: t in bindings ==>
                     t.value == if Admits(t.validator, newValue) then newValue else old(t.value)
    {
      ghost var before := map t | t in bindings :: t.AsSlot();
      var unvisited := bindings;
      candidate, order, slots := newValue, [], [];
      while unvisited != {}
        invariant unvisited <= bindings
        invariant Enumerates(order, bindings - unvisited)
        invariant |slots| == |order|
        invariant forall i :: 0 <= i < |order| ==> slots[i] == before[order[i]]
        invariant forall i :: 0 <= i < |order| ==> order[i].value == Sweep(slots, newValue)[i]
        invariant forall p :: p in unvisited ==> p.value == old(p.value)
        invariant candidate == Threaded(slots, newValue)
        decreases unvisited
      {
        var target :| target in unvisited;
        ghost var s := target.AsSlot();
        SweepSnoc(slots, s, newValue);
        candidate := target.Receive(candidate);
        order, slots := order + [target], slots + [s];
        unvisited := unvisited - {target};
      }
      if forall t :: t in bindings ==> t.coercer.None? {
        UncoercedPropagation(before, order, slots, newValue);
      }
    }

    // -------------------------------------------------------------------
    // Callback registry
    // -------------------------------------------------------------------

    /** Register `cb` under an ID that was not live: the oldest freed one, else a new one. */
    method AddChangeCallback(cb: Callback) returns (id: CallbackId)
      requires Valid()
      modifies this`callbacks, this`freeIDs, this`nextID
      ensures Valid()
      ensures Add(old(RegistryView()), cb) == Added(RegistryView(), id)
      ensures id !in old(callbacks) && callbacks == old(callbacks)[id := cb]
    {
      AddIssuesUnusedId(RegistryView(), cb);
      if freeIDs == [] {
        id := nextID;
        nextID := nextID + 1;
      } else {
        id := freeIDs[0];
        freeIDs := freeIDs[1..];
      }
      callbacks := callbacks[id := cb];
    }

    /** Remove the first registered callback equal to `cb`, if any, and queue its ID. */
    method RemoveMatchingCallback(cb: Callback)
      requires Valid()
      modifies this`callbacks, this`freeIDs
      ensures Valid()
      ensures RemovesFirstMatch(old(RegistryView()), RegistryView(), cb)
    {
      var unvisited := callbacks.Keys;
      while unvisited != {}
        invariant unvisited <= callbacks.Keys
        invariant callbacks == old(callbacks) && freeIDs == old(freeIDs)
        invariant forall id :: id in callbacks && id !in unvisited ==> callbacks[id] != cb
        decreases unvisited
      {
        var id :| id in unvisited;
        if callbacks[id] == cb {
          RemoveIdKeepsIdsWellFormed(RegistryView(), id);
          freeIDs := freeIDs + [id];
          callbacks := callbacks - {id};
          return;
        }
        unvisited := unvisited - {id};
      }
    }

    /** Remove the callback registered under `id` and queue the ID; no-op if `id` is not live. */
    method RemoveChangeCallback(id: CallbackId)
      requires Valid()
      modifies this`callbacks, this`freeIDs
      ensures Valid()
      ensures RegistryView() == RemoveId(old(RegistryView()), id)
    {
      RemoveIdKeepsIdsWellFormed(RegistryView(), id);
      if id in callbacks {
        callbacks := callbacks - {id};
        freeIDs := freeIDs + [id];
      }
    }

    // -------------------------------------------------------------------
    // Bindings: two-way is two independent one-way edges
    // -------------------------------------------------------------------

    method AddOneWayBind(other: Property<T>)
      modifies this`bindings
      ensures bindings == old(bindings) + {other}
    {
      bindings := bindings + {other};
    }

    method RemoveOneWayBind(other: Property<T>)
      modifies this`bindings
      ensures bindings == old(bindings) - {other}
    {
      bindings := bindings - {other};
    }

    /** Make `other` push into this property. */
    method AddOneWayToSourceBind(other: Property<T>)
      modifies other`bindings
      ensures other.bindings == old(other.bindings) + {this}
    {
      other.AddOneWayBind(this);
    }

    method RemoveOneWayToSourceBind(other: Property<T>)
      modifies other`bindings
      ensures other.bindings == old(other.bindings) - {this}
    {
      other.RemoveOneWayBind(this);
    }

    method AddBind(other: Property<T>)
      modifies this`bindings, other`bindings
      ensures bindings == old(bindings) + {other}
      ensures other.bindings == old(other.bindings) + {this}
    {
      AddOneWayBind(other);
      AddOneWayToSourceBind(other);
    }

    method RemoveBind(other: Property<T>)
      modifies this`bindings, other`bindings
      ensures bindings == old(bindings) - {other}
      ensures other.bindings == old(other.bindings) - {this}
    {
      RemoveOneWayBind(other);
      RemoveOneWayToSourceBind(other);
    }

    // -------------------------------------------------------------------
    // Validator and coercer slots: the last one set wins
    // -------------------------------------------------------------------

    method SetValidator(validator: Option<T -> bool>)
      modifies this`validator
      ensures this.validator == validator
    {
      this.validator := validator;
    }

    method SetCoerceCallback(coercer: Option<T -> T>)
      modifies this`coercer
      ensures this.coercer == coercer
    {
      this.coercer := coercer;
    }
  }
}
