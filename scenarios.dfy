/**
 * Client code on freshly constructed properties, proved from the contracts
 * of `Property<T>` alone: the behaviours `Property<T>` promises for equal
 * assignment, coercion before validation, callback delivery and removal,
 * ID reuse, and one-hop propagation over one-way and two-way bindings.
 */
module Scenarios {
  import opened Optional
  import opened Protocol
  import opened CallbackRegistry
  import opened Properties

  /**
   * Assigning the value already held fires nothing, touches no target and
   * does not run the coercer: the caller's value comes back as it went in.
   */
  method EqualAssignmentIsNoOp(x: int, y: int) returns (fired: nat, target: int, passed: int)
    ensures fired == 0 && target == y && passed == x
  {
    var a := new Property.WithValueAndCoercer(x, Some((v: int) => v + 1));
    var b := new Property(y);
    var id := a.AddChangeCallback(Callable(0));
    a.AddOneWayBind(b);
    ghost var batch, order, slots;
    passed, batch, order, slots := a.Assign(x);
    fired, target := |a.log|, b.value;
  }

  /**
   * With negatives coerced to 0 and only even values valid, -3 is stored
   * as 0; with negatives coerced to 1, -5 is rejected, the stored 5 stays
   * and the caller's variable comes back as 1.
   */
  method AssignCoercesBeforeValidating() returns (stored: int, kept: int, rewritten: int)
    ensures stored == 0 && kept == 5 && rewritten == 1
  {
    var even := (x: int) => x % 2 == 0;
    var p := new Property.WithAll(5, Some(even), Some((x: int) => if x < 0 then 0 else x));
    var q := new Property.WithAll(5, Some(even), Some((x: int) => if x < 0 then 1 else x));
    ghost var batch, order, slots;
    var passed;
    passed, batch, order, slots := p.Assign(-3);
    rewritten, batch, order, slots := q.Assign(-5);
    stored, kept := p.value, q.value;
  }

  /** Two callbacks, one change: each is called exactly once with the old and new values. */
  method CallbacksFireOnce(x: int, y: int) returns (first: CallbackId, second: CallbackId, fired: seq<Notification<int>>)
    requires x != y
    ensures first != second
    ensures |fired| == 2 && IdsOf(fired) == {first, second}
    ensures forall i :: 0 <= i < |fired| ==> fired[i].oldValue == x && fired[i].newValue == y
  {
    var p := new Property(x);
    first := p.AddChangeCallback(Callable(1));
    second := p.AddChangeCallback(Callable(2));
    assert Offer(p.AsSlot(), y) == Accepted(y) && p.log == [];
    assert CallableIds(p.callbacks) == {first, second};
    ghost var batch, order, slots;
    var passed;
    passed, batch, order, slots := p.Assign(y);
    fired := p.log;
    assert fired == batch;
    FiresTwice(batch, p.callbacks, first, second, x, y);
  }

  /** A round over two live callbacks notifies each of them once. */
  lemma FiresTwice<T>(batch: seq<Notification<T>>, callbacks: map<CallbackId, Callback>,
                      first: CallbackId, second: CallbackId, oldValue: T, newValue: T)
    requires first != second && CallableIds(callbacks) == {first, second}
    requires Fires(batch, callbacks, oldValue, newValue)
    ensures |batch| == 2 && IdsOf(batch) == {first, second}
    ensures forall i :: 0 <= i < |batch| ==> batch[i].oldValue == oldValue && batch[i].newValue == newValue
  {
    FiresOncePerCallback(batch, callbacks, oldValue, newValue);
  }

  /** After removal by ID the removed callback is no longer called; the other still is. */
  method RemovedCallbackStopsDelivery(x: int, y: int) returns (kept: CallbackId, fired: seq<Notification<int>>)
    requires x != y
    ensures fired == [Notification(kept, x, y)]
  {
    var p := new Property(x);
    var gone := p.AddChangeCallback(Callable(1));
    kept := p.AddChangeCallback(Callable(2));
    p.RemoveChangeCallback(gone);
    ghost var batch, order, slots;
    var passed;
    passed, batch, order, slots := p.Assign(y);
    fired := p.log;
    assert CallableIds(p.callbacks) == {kept};
    FiresOncePerCallback(batch, p.callbacks, x, y);
    assert batch[0].id in IdsOf(batch);
  }

  /** A freed ID is handed out again by the next registration. */
  method IdReusedAfterRemoval() returns (first: CallbackId, second: CallbackId, reused: CallbackId)
    ensures first == 0 && second == 1 && reused == first
  {
    var p := new Property(0);
    first := p.AddChangeCallback(Callable(1));
    second := p.AddChangeCallback(Callable(2));
    p.RemoveChangeCallback(first);
    reused := p.AddChangeCallback(Callable(3));
  }

  /** An empty callback takes an ID but is skipped when a change is notified. */
  method EmptyCallbackIsSkipped(x: int, y: int) returns (id: CallbackId, fired: nat)
    requires x != y
    ensures id == 0 && fired == 0
  {
    var p := new Property(x);
    id := p.AddChangeCallback(Empty);
    ghost var batch, order, slots;
    var passed;
    passed, batch, order, slots := p.Assign(y);
    assert CallableIds(p.callbacks) == {};
    FiresOncePerCallback(batch, p.callbacks, x, y);
    fired := |p.log|;
  }

  /** Removal by callback takes out one of two equal entries and leaves the others. */
  method RemovalByCallbackTakesOne() returns (live: nat, otherKept: bool)
    ensures live == 2 && otherKept
  {
    var p := new Property(0);
    var a := p.AddChangeCallback(Callable(7));
    var b := p.AddChangeCallback(Callable(7));
    var c := p.AddChangeCallback(Callable(8));
    p.RemoveMatchingCallback(Callable(7));
    live, otherKept := |p.callbacks|, c in p.callbacks;
  }

  /** With A bound to B and B bound to C, assigning A changes B but not C. */
  method PropagationIsOneHop(x: int, y: int) returns (b: int, c: int)
    requires x != y
    ensures b == y && c == x
  {
    var pa := new Property(x);
    var pb := new Property(x);
    var pc := new Property(x);
    pb.AddOneWayBind(pc);
    pa.AddOneWayBind(pb);
    assert Offer(pa.AsSlot(), y) == Accepted(y);
    assert pa.bindings == {pb} && pb.coercer.None? && pb.validator.None? && pc.value == x;
    ghost var batch, order, slots;
    var passed;
    passed, batch, order, slots := pa.Assign(y);
    b, c := pb.value, pc.value;
  }

  /** A value pushed into a target does not call the target's callbacks. */
  method PropagationSkipsTargetCallbacks(x: int, y: int) returns (b: int, bFired: nat)
    requires x != y
    ensures b == y && bFired == 0
  {
    var pa := new Property(x);
    var pb := new Property(x);
    var id := pb.AddChangeCallback(Callable(1));
    pa.AddOneWayBind(pb);
    assert Offer(pa.AsSlot(), y) == Accepted(y);
    assert pa.bindings == {pb} && pb.coercer.None? && pb.validator.None? && pb.log == [];
    ghost var batch, order, slots;
    var passed;
    passed, batch, order, slots := pa.Assign(y);
    b, bFired := pb.value, |pb.log|;
  }

  /**
   * Over a two-way binding, assigning A calls A's callback once and updates
   * B, whose coercer adds one. B's update is not pushed back into A: A keeps
   * the assigned value rather than B's coerced one.
   */
  method TwoWayBindingWithoutFeedback(x: int, y: int) returns (a: int, b: int, fired: nat)
    requires x != y
    ensures a == y && b == y + 1 && fired == 1
  {
    var pa := new Property(x);
    var pb := new Property.WithValueAndCoercer(x, Some((v: int) => v + 1));
    var ia := pa.AddChangeCallback(Callable(1));
    pa.AddBind(pb);
    assert Offer(pa.AsSlot(), y) == Accepted(y);
    assert Offer(pb.AsSlot(), y) == Accepted(y + 1);
    assert pa.bindings == {pb} && pa.log == [];
    assert CallableIds(pa.callbacks) == {ia};
    ghost var batch, order, slots;
    var passed;
    passed, batch, order, slots := pa.Assign(y);
    assert order == [pb] by {
      assert pb in order;
    }
    assert Sweep(slots, y) == [y + 1];
    FiresOncePerCallback(batch, pa.callbacks, x, y);
    a, b, fired := pa.value, pb.value, |pa.log|;
  }

  /** Over a two-way binding, assigning B updates A. */
  method TwoWayBindingCarriesBack(x: int, z: int) returns (a: int, b: int)
    requires x != z
    ensures a == z && b == z
  {
    var pa := new Property(x);
    var pb := new Property(x);
    pa.AddBind(pb);
    assert Offer(pb.AsSlot(), z) == Accepted(z);
    assert pb.bindings == {pa} && pa.coercer.None? && pa.validator.None?;
    ghost var batch, order, slots;
    var passed;
    passed, batch, order, slots := pb.Assign(z);
    a, b := pa.value, pb.value;
  }

  /**
   * After the two-way binding is removed, neither property updates the
   * other: assigning A leaves B at its old value, and assigning B then
   * leaves A alone.
   */
  method UnbindStopsPropagation(x: int, y: int, z: int) returns (a: int, untouched: int, b: int)
    requires z != x
    ensures a == z && untouched == x && b == y
  {
    var pa := new Property(x);
    var pb := new Property(x);
    pa.AddBind(pb);
    pa.RemoveBind(pb);
    ghost var batch, order, slots;
    var passed;
    passed, batch, order, slots := pa.Assign(z);
    untouched := pb.value;
    passed, batch, order, slots := pb.Assign(y);
    a, b := pa.value, pb.value;
  }

  /**
   * Removing one direction of a two-way binding removes only that
   * direction: assigning A no longer reaches B, and assigning B still
   * reaches A.
   */
  method OneWayRemovalKeepsReverseEdge(x: int, y: int, z: int) returns (a: int, untouched: int, b: int)
    requires x != y && y != z && x != z
    ensures untouched == x && a == z && b == z
  {
    var pa := new Property(x);
    var pb := new Property(x);
    pa.AddBind(pb);
    pa.RemoveOneWayBind(pb);
    ghost var batch, order, slots;
    var passed;
    passed, batch, order, slots := pa.Assign(y);
    untouched := pb.value;
    passed, batch, order, slots := pb.Assign(z);
    a, b := pa.value, pb.value;
  }

  /** Adding the same one-way binding twice leaves a single edge. */
  method BindingTwiceIsOneEdge() returns (edges: nat)
    ensures edges == 1
  {
    var pa := new Property(0);
    var pb := new Property(0);
    pa.AddOneWayBind(pb);
    pa.AddOneWayBind(pb);
    pa.AddOneWayToSourceBind(pb);
    edges := |pa.bindings|;
  }

  /** A rejected assignment changes neither the property, nor its log, nor a bound target. */
  method RejectionLeavesTargetsUntouched(x: int, y: int, z: int) returns (a: int, b: int, fired: nat)
    requires x != y && z != y
    ensures a == x && b == z && fired == 0
  {
    var pa := new Property.WithValueAndValidator(x, Some((v: int) => v == x));
    var pb := new Property(z);
    var id := pa.AddChangeCallback(Callable(1));
    pa.AddOneWayBind(pb);
    assert Offer(pa.AsSlot(), y) == Rejected(y) && pb.value == z && pa.log == [];
    ghost var batch, order, slots;
    var passed;
    passed, batch, order, slots := pa.Assign(y);
    a, b, fired := pa.value, pb.value, |pa.log|;
  }

  /** A target's own validator decides whether it takes the pushed value. */
  method TargetValidatorCanRefuse(x: int) returns (a: int, b: int)
    requires x != 1
    ensures a == 1 && b == x
  {
    var pa := new Property(x);
    var pb := new Property.WithValueAndValidator(x, Some((v: int) => v != 1));
    pa.AddOneWayBind(pb);
    ghost var batch, order, slots;
    var passed;
    passed, batch, order, slots := pa.Assign(1);
    a, b := pa.value, pb.value;
  }

  /** The validator slot holds the last validator set. */
  method LastValidatorWins() returns (v: int)
    ensures v == 3
  {
    var p := new Property(0);
    p.SetValidator(Some((x: int) => x % 2 == 0));
    p.SetValidator(Some((x: int) => x % 2 == 1));
    ghost var batch, order, slots;
    var passed;
    passed, batch, order, slots := p.Assign(3);
    v := p.value;
  }
}
