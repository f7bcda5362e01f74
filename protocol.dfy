/**
 * The value side of `Property<T>`: what happens when a candidate value is
 * offered to a property, both by its own assignment operator and by a
 * binding that pushes into it, and how one candidate is threaded through
 * the bound targets of a successful assignment.
 *
 * The offer is the same for the source and for a target: compare the
 * stored value with the raw candidate, coerce the candidate in place,
 * validate the coerced candidate, and on acceptance store it.
 */
module Protocol {
  import opened Optional

  /** Everything about a property that decides the fate of an offered value. */
  datatype Slot<!T> = Slot(value: T, coercer: Option<T -> T>, validator: Option<T -> bool>)

  /** Outcome of one offer. `coerced` is the candidate after the coercer ran. */
  datatype Verdict<T> = Equal | Rejected(coerced: T) | Accepted(coerced: T)

  /** An empty coercer leaves the candidate as it is. */
  function Coerce<T>(coercer: Option<T -> T>, v: T): T
  {
    match coercer
    case None => v
    case Some(f) => f(v)
  }

  /** An empty validator admits every candidate. */
  predicate Admits<T>(validator: Option<T -> bool>, v: T)
  {
    match validator
    case None => true
    case Some(f) => f(v)
  }

  /** Offer candidate `v` to a property in state `s`. */
  function Offer<T(==)>(s: Slot<T>, v: T): Verdict<T>
  {
    if s.value == v then Equal
    else
      var c := Coerce(s.coercer, v);
      if Admits(s.validator, c) then Accepted(c) else Rejected(c)
  }

  /** The stored value of `s` once `v` has been offered to it. */
  function Settle<T(==)>(s: Slot<T>, v: T): T
  {
    match Offer(s, v)
    case Accepted(c) => c
    case _ => s.value
  }

  /**
   * The candidate once `v` has been offered to `s`: the coercer rewrites it
   * in place, so it keeps the coercion even when the validator rejects.
   */
  function Carry<T(==)>(s: Slot<T>, v: T): T
  {
    match Offer(s, v)
    case Equal => v
    case Rejected(c) => c
    case Accepted(c) => c
  }

  /** The shared candidate after it has been offered to every target of `slots` in turn. */
  function Threaded<T(==)>(slots: seq<Slot<T>>, v: T): T
    decreases |slots|
  {
    if slots == [] then v
    else Carry(slots[|slots| - 1], Threaded(slots[..|slots| - 1], v))
  }

  /**
   * The values the targets hold after a propagation of `v` that visits them
   * in the order of `slots`, each target seeing the candidate as the
   * targets before it left it.
   */
  function Sweep<T(==)>(slots: seq<Slot<T>>, v: T): (r: seq<T>)
    ensures |r| == |slots|
    decreases |slots|
  {
    if slots == [] then []
    else
      var init := slots[..|slots| - 1];
      Sweep(init, v) + [Settle(slots[|slots| - 1], Threaded(init, v))]
  }

  // ---------------------------------------------------------------------
  // One offer
  // ---------------------------------------------------------------------

  /**
   * The order of the protocol. Equality is decided on the raw candidate; a
   * different candidate is coerced first and the validator sees the
   * coerced value; on acceptance that coerced value, not the argument, is
   * stored; otherwise the stored value stays.
   */
  lemma OfferProtocol<T>(s: Slot<T>, v: T)
    ensures s.value == v ==> Offer(s, v) == Equal && Settle(s, v) == s.value && Carry(s, v) == v
    ensures s.value != v ==> Carry(s, v) == Coerce(s.coercer, v)
    ensures s.value != v ==>
              (Settle(s, v) == Carry(s, v) <== Admits(s.validator, Carry(s, v))) &&
              (!Admits(s.validator, Carry(s, v)) ==> Settle(s, v) == s.value)
  {
  }

  /**
   * What an offer leaves behind is either the old value or a value that
   * the property's own validator admitted.
   */
  lemma SettleKeepsOrAdmits<T>(s: Slot<T>, v: T)
    ensures Settle(s, v) == s.value || Admits(s.validator, Settle(s, v))
  {
  }

  /**
   * Equality is decided before coercion: a coercer that maps a different
   * candidate back onto the stored value still yields an accepted offer,
   * so the callbacks of the source run with equal old and new values.
   */
  lemma CoercionBackToCurrentIsAccepted()
    ensures Offer(Slot(4, Some((x: int) => 4), None), 9) == Accepted(4)
  {
  }

  /**
   * A coercer mapping negatives to 0 and a validator admitting even
   * numbers: -3 is stored as 0. With negatives mapped to 1 instead, -5 is
   * rejected and the stored 5 stays, though the candidate is now 1.
   */
  lemma CoercionPrecedesValidation()
    ensures Offer(Slot(5, Some((x: int) => if x < 0 then 0 else x), Some((x: int) => x % 2 == 0)), -3) == Accepted(0)
    ensures Offer(Slot(5, Some((x: int) => if x < 0 then 1 else x), Some((x: int) => x % 2 == 0)), -5) == Rejected(1)
    ensures Settle(Slot(5, Some((x: int) => if x < 0 then 1 else x), Some((x: int) => x % 2 == 0)), -5) == 5
  {
  }

  // ---------------------------------------------------------------------
  // Propagation to the bound targets
  // ---------------------------------------------------------------------

  /** Visiting one more target extends the outcome by that target's offer. */
  lemma SweepSnoc<T>(slots: seq<Slot<T>>, s: Slot<T>, v: T)
    ensures Sweep(slots + [s], v) == Sweep(slots, v) + [Settle(s, Threaded(slots, v))]
    ensures Threaded(slots + [s], v) == Carry(s, Threaded(slots, v))
  {
    assert (slots + [s])[..|slots|] == slots;
  }

  /** The i-th target ends with the outcome of offering it the candidate as it reached it. */
  lemma {:induction false} SweepAt<T>(slots: seq<Slot<T>>, v: T, i: nat)
    requires i < |slots|
    ensures Sweep(slots, v)[i] == Settle(slots[i], Threaded(slots[..i], v))
    decreases |slots|
  {
    var n := |slots| - 1;
    var init := slots[..n];
    if i < n {
      SweepAt(init, v, i);
      assert init[..i] == slots[..i];
    } else {
      assert init == slots[..i];
    }
  }

  /**
   * Every target either keeps its value or holds the candidate as it
   * reached it, rewritten by the target's own coercer and admitted by the
   * target's own validator.
   */
  lemma SweepKeepsOrAdmits<T>(slots: seq<Slot<T>>, v: T, i: nat)
    requires i < |slots|
    ensures var r := Sweep(slots, v)[i];
            r == slots[i].value ||
            (r == Coerce(slots[i].coercer, Threaded(slots[..i], v)) && Admits(slots[i].validator, r))
  {
    SweepAt(slots, v, i);
  }

  /**
   * Without coercers on the targets, the candidate is never rewritten, and
   * each target's outcome depends on its own validator and the propagated
   * value alone, whatever the visiting order.
   */
  lemma {:induction false} SweepWithoutCoercers<T>(slots: seq<Slot<T>>, v: T)
    requires forall i :: 0 <= i < |slots| ==> slots[i].coercer.None?
    ensures Threaded(slots, v) == v
    ensures forall i :: 0 <= i < |slots| ==>
              Sweep(slots, v)[i] == if Admits(slots[i].validator, v) then v else slots[i].value
    decreases |slots|
  {
    if slots != [] {
      var init := slots[..|slots| - 1];
      SweepWithoutCoercers(init, v);
      forall i | 0 <= i < |slots|
        ensures Sweep(slots, v)[i] == if Admits(slots[i].validator, v) then v else slots[i].value
      {
        if i < |init| {
          assert Sweep(slots, v)[i] == Sweep(init, v)[i];
        }
      }
    }
  }

  /**
   * The coercion of one target is seen by the targets visited after it: a
   * target clamping to 10 visited first makes a target with no coercer
   * receive 10 instead of the propagated 50; visited the other way round,
   * that target receives 50. The outcome depends on the visiting order.
   */
  lemma EarlierCoercionReachesLaterTargets()
    ensures Sweep([Slot(0, Some((x: int) => if x > 10 then 10 else x), None), Slot(0, None, None)], 50) == [10, 10]
    ensures Sweep([Slot(0, None, None), Slot(0, Some((x: int) => if x > 10 then 10 else x), None)], 50) == [50, 10]
  {
    var clamp := Slot(0, Some((x: int) => if x > 10 then 10 else x), None);
    var plain: Slot<int> := Slot(0, None, None);
    assert [clamp, plain][..1] == [clamp];
    assert [plain, clamp][..1] == [plain];
  }
}
