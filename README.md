# Property&lt;T&gt; — a verified model

`Property<T>` (structs/property/property.h) is a value container. It has a
guarded assignment protocol, a registry of change callbacks and a graph of
one-way "push" bindings to other properties of the same type:

- **Assignment.** An assignment compares the candidate with the stored value
  and does nothing if they are equal. Otherwise it rewrites the candidate in
  place with the coercer, then asks the validator. If the validator accepts,
  it stores the candidate, calls every non-empty callback with the old and
  new values, and offers the candidate to every bound target.
- **Propagation.** Each target runs the same compare, coerce and validate
  steps and, on acceptance, has its value set directly. A target's own
  callbacks and bindings do not run, so propagation goes exactly one hop.
- **Callback IDs.** Callbacks are stored under IDs. Freed IDs go to a queue
  and are reused oldest first before a new ID is issued.

The project has five modules:

- `Optional` (optional.dfy): the `Option` type that stands for a
  `std::function` that may be empty.
- `Protocol` (protocol.dfy): pure functions for one offer of a candidate to a
  property (`Offer`, `Settle`, `Carry`). It also has the candidate threaded
  through a sequence of targets (`Threaded`) and the values the targets end
  with (`Sweep`), with lemmas about them.
- `CallbackRegistry` (registry.dfy): the ID bookkeeping as a value
  (`Registry`, `Add`, `RemoveId`, `RemovesFirstMatch`). It includes its
  invariant `IdsWellFormed`: live IDs and queued IDs are disjoint, together
  cover `0 .. next-1`, and the queue has no repeats. It also has `Fires`, the
  predicate that says what one round of notifications is.
- `Properties` (property.dfy): the class `Property<T>` with the fields of the
  C++ struct. Its methods update those fields in place and are proved
  against the `Protocol` and `CallbackRegistry` functions.
  - A callback invocation is recorded by appending a `Notification(id, old,
    new)` to the field `log`.
  - The C++ `T& newValue`, which coercers rewrite for the caller and for the
    targets visited later, comes back from `Assign` as `passed`.
- `Scenarios` (scenarios.dfy): client code on freshly constructed properties.
  It covers equal assignment, coercion before validation, callback delivery
  and removal, one-hop propagation, and two-way bindings. Each behaviour is
  proved from the class contracts alone.

Three behaviours of the code shape the model:

- **ID reuse order.** Freed IDs are reused first-in first-out, not smallest
  first: registration pops the front of a queue (property.h:191-192), and
  `FreedIdsReusedInOrder` proves that order.
- **Coercion during propagation.** A target's coercer rewrites the one
  shared `newValue` reference (property.h:332). A target's coercion is
  therefore what later targets and the original caller see (`Threaded`,
  `EarlierCoercionReachesLaterTargets`).
- **Callback and target order.** The order is unspecified: the code iterates
  an `unordered_map` and an `unordered_set`, so the model leaves both orders
  arbitrary.

## Model

| member | source | states |
|---|---|---|
| Properties.Property.constructor | structs/property/property.h:94 | the value is the argument; no validator, no coercer, no callback, no binding, ID counter at 0 |
| Properties.Property.WithValidator | structs/property/property.h:100 | the validator is the argument, no coercer, empty registry and bindings |
| Properties.Property.WithCoercer | structs/property/property.h:106 | the coercer is the argument, no validator, empty registry and bindings |
| Properties.Property.WithValueAndValidator | structs/property/property.h:113 | value and validator are the arguments, set without running the protocol |
| Properties.Property.WithValueAndCoercer | structs/property/property.h:120 | value and coercer are the arguments, set without running the protocol (the coercer is not applied to the initial value) |
| Properties.Property.WithAll | structs/property/property.h:128-129 | value, validator and coercer are the arguments, set without running the protocol |
| Properties.Property.Assign | structs/property/property.h:136-152 | the new value is `Settle` of the old state. If the offer is not accepted, the log and every target stay unchanged. If it is accepted, the log grows by exactly one notification per non-empty callback carrying (old, new), and the targets, enumerated once each in some order, end as `Sweep` of their old states. The caller's variable comes back as the threaded candidate. With no coercer on any target, each target ends with the new value if its own validator admits it, else with its old value |
| Properties.Property.Get | structs/property/property.h:158-161 | returns the stored value and changes nothing |
| Properties.Property.WriteThrough | structs/property/property.h:171-174 | a write through the address the arrow operator returns sets the value and touches nothing else (no coercion, validation, callback or propagation) |
| Properties.Property.NotifyCallbacks | structs/property/property.h:312-317 | appends exactly one notification (old, new) per ID whose callback is non-empty, each ID once, and skips empty callbacks |
| Properties.Property.Receive | structs/property/property.h:329-335 | one target's step: its value becomes `Settle` of its state and the candidate, and the candidate handed on is `Carry` of them |
| Properties.Property.NotifyBindings | structs/property/property.h:324-337 | visits every bound target exactly once (`Enumerates`); each target ends as `Sweep` of the targets' prior states, and the returned candidate is `Threaded` through them. Without coercers, targets end with the value or their old value according to their own validators |
| Properties.UncoercedPropagation | structs/property/property.h:326-335 | when no target has a coercer, the candidate is unchanged by the sweep and each target's outcome depends only on its own validator, whatever the visiting order |
| Properties.Property.AddChangeCallback | structs/property/property.h:181-196 | the returned ID was not live; the registry becomes `Add` of the old one (front of the free queue, else the counter, which then increments); the entry `id := cb` is the only change to the map; the ID invariant is kept |
| Properties.Property.RemoveMatchingCallback | structs/property/property.h:202-215 | if some entry equals the callback, exactly one such entry is removed and its ID is queued; otherwise nothing changes; the ID invariant is kept |
| Properties.Property.RemoveChangeCallback | structs/property/property.h:221-228 | the registry becomes `RemoveId` of the old one: a live ID is erased and queued at the back, an unknown ID is a no-op |
| Properties.Property.AddOneWayBind | structs/property/property.h:234-237 | the bindings gain `other` (set semantics: adding twice is one edge) |
| Properties.Property.RemoveOneWayBind | structs/property/property.h:243-246 | the bindings lose `other` (no-op when absent) |
| Properties.Property.AddOneWayToSourceBind | structs/property/property.h:252-255 | `other`'s bindings gain this property; when `other` is a different property, nothing of this property changes |
| Properties.Property.RemoveOneWayToSourceBind | structs/property/property.h:261-264 | `other`'s bindings lose this property |
| Properties.Property.AddBind | structs/property/property.h:270-274 | both edges are added: this to `other` and `other` to this |
| Properties.Property.RemoveBind | structs/property/property.h:280-284 | both edges are removed |
| Properties.Property.SetValidator | structs/property/property.h:290-294 | the validator slot holds the argument (the last one set wins) |
| Properties.Property.SetCoerceCallback | structs/property/property.h:300-304 | the coercer slot holds the argument (the last one set wins) |
| Protocol.OfferProtocol | structs/property/property.h:139-149 | an equal candidate is a no-op that leaves the candidate as it is. A different one is coerced first; the coerced value is stored exactly when the validator admits it, else the old value stays |
| Protocol.SettleKeepsOrAdmits | structs/property/property.h:141-146 | after an offer the value is either the old one or one the property's validator admitted |
| Protocol.CoercionBackToCurrentIsAccepted | structs/property/property.h:139-147 | equality is decided before coercion: a coercer that maps a different candidate onto the stored value still yields an accepted offer, so callbacks run with equal old and new values |
| Protocol.CoercionPrecedesValidation | structs/property/property.h:141-143 | with negatives coerced to 0 and even-only validation, -3 is stored as 0. With negatives coerced to 1, -5 is rejected, the old 5 stays, and the candidate becomes 1 |
| Protocol.SweepAt | structs/property/property.h:326-335 | the i-th visited target ends as the offer of the candidate as the i targets before it left it |
| Protocol.SweepKeepsOrAdmits | structs/property/property.h:329-334 | every target either keeps its value or holds the incoming candidate rewritten by its own coercer and admitted by its own validator |
| Protocol.SweepWithoutCoercers | structs/property/property.h:326-335 | without coercers the candidate is never rewritten and each target ends with it iff its own validator admits it, else keeps its value |
| Protocol.EarlierCoercionReachesLaterTargets | structs/property/property.h:331-332 | a target's coercion reaches the targets visited after it, so the outcome depends on the visiting order ([10,10] one way, [50,10] the other) |
| CallbackRegistry.InitialWellFormed | structs/property/property.h:81-84 | the empty registry with the counter at 0 satisfies the ID invariant |
| CallbackRegistry.AddIssuesUnusedId | structs/property/property.h:184-194 | registration issues an ID that was not live, adds only that entry, and keeps the ID invariant |
| CallbackRegistry.RemoveIdKeepsIdsWellFormed | structs/property/property.h:224-227 | removal by ID erases only that entry, queues the ID exactly when it was live, leaves the counter alone and keeps the ID invariant |
| CallbackRegistry.RemovesFirstMatchKeepsIdsWellFormed | structs/property/property.h:205-213 | removal by callback leaves the registry as it was or removes exactly one entry equal to the callback, and keeps the ID invariant |
| CallbackRegistry.NoIdLost | structs/property/property.h:83-84 | no ID is ever lost: live IDs plus queued IDs number exactly the IDs ever issued |
| CallbackRegistry.FreedIdsReusedInOrder | structs/property/property.h:185-192 | freed IDs come back first-in first-out, and only after the queue is empty is a new ID issued |
| CallbackRegistry.FiresOncePerCallback | structs/property/property.h:314-316 | one round of notifications has exactly as many entries as there are non-empty callbacks |
| Scenarios.EqualAssignmentIsNoOp | structs/property/property.h:139 | assigning the held value to a property with a coercer fires no callback, leaves a bound target alone and hands the caller's value back uncoerced, so the coercer did not run |
| Scenarios.AssignCoercesBeforeValidating | structs/property/property.h:141-146 | -3 is stored as 0. -5 is rejected, leaving 5 stored, but the caller's variable comes back as the coerced 1 |
| Scenarios.CallbacksFireOnce | structs/property/property.h:312-317 | two callbacks and one change: two notifications, one per ID, each with (old, new) |
| Scenarios.RemovedCallbackStopsDelivery | structs/property/property.h:221-228 | after removal by ID, only the remaining callback is notified |
| Scenarios.IdReusedAfterRemoval | structs/property/property.h:181-228 | after the first of two callbacks (IDs 0 and 1) is removed, the next registration gets ID 0 back |
| Scenarios.EmptyCallbackIsSkipped | structs/property/property.h:315 | an empty callback takes ID 0 but is not called |
| Scenarios.RemovalByCallbackTakesOne | structs/property/property.h:205-213 | of two equal entries one is removed; the unequal entry stays |
| Scenarios.PropagationIsOneHop | structs/property/property.h:324-337 | with A bound to B and B bound to C, assigning A changes B and not C |
| Scenarios.PropagationSkipsTargetCallbacks | structs/property/property.h:333-334 | a pushed value is stored in the target without calling the target's callbacks |
| Scenarios.TwoWayBindingWithoutFeedback | structs/property/property.h:324-337 | over a two-way binding, assigning A calls A's callback once and B takes its coerced value y + 1, while A keeps y: B's update is not pushed back into A |
| Scenarios.TwoWayBindingCarriesBack | structs/property/property.h:270-274 | over a two-way binding, assigning B updates A |
| Scenarios.UnbindStopsPropagation | structs/property/property.h:280-284 | after the two-way binding is removed, assigning A leaves B at its old value, and assigning B then leaves A alone |
| Scenarios.OneWayRemovalKeepsReverseEdge | structs/property/property.h:243-246 | after A→B is removed from a two-way binding, assigning A leaves B at its old value, and assigning B still updates A |
| Scenarios.BindingTwiceIsOneEdge | structs/property/property.h:234-237 | adding the same one-way edge twice leaves one edge; a to-source bind adds nothing to this property's own edges |
| Scenarios.RejectionLeavesTargetsUntouched | structs/property/property.h:143-149 | a rejected assignment changes neither the value nor the callback log, and a bound target holding a third value keeps it |
| Scenarios.TargetValidatorCanRefuse | structs/property/property.h:333-334 | a target's own validator can refuse a pushed value that its source accepted |
| Scenarios.LastValidatorWins | structs/property/property.h:290-294 | after two validators are set, only the second decides |

## Left out

- The mutex is not modelled. Locking, the lock-ordering hazard between two-way bound properties and concurrent writers are outside a sequential model.
- Assign requires that a property is not bound to itself. In the C++ code, self-binding re-locks the same non-recursive mutex inside `NotifyBindings`, which is undefined behaviour.
- The iteration order of `unordered_map` and `unordered_set` is unspecified. The model leaves it arbitrary: the callbacks are fired as a set of IDs, and the targets are visited in some enumeration `order`.
- Callbacks are opaque. A `ChangeCallback` is reduced to `Empty` or `Callable(targetType)`, where the tag stands for `target_type()`. Removal by callback matches on equality of the tag, which reproduces the match of the code exactly. `target<void(T&,T&)>()` asks for a function type, which a `std::function` never stores, so it is null on both sides of the comparison at lines 207-208. The removal therefore matches on `target_type()` alone: two different free functions of the same signature match each other. The model also leaves out what a callback does when called: side effects, re-entering the property, and rewriting the caller's variable through its `T&` parameters.
- Validators are total predicates. A validator takes the candidate by `T&` (line 60) and could rewrite it before it is stored; the model does not capture that.
- Exceptions thrown by callbacks, validators or coercers are not modelled. Validators and coercers are total functions.
- The model does not check object lifetimes. A binding to a destroyed property, a dangling reference, is not representable.
- CallbackId: IDs are unbounded naturals, so `size_t` wrap-around of the counter is not modelled.
- The default argument `T()` of the line-94 constructor is not modelled. The constructors without a value leave the value as an arbitrary `T`, where C++ default-initializes it.
- Offer: `T`'s `!=` is taken to be the negation of Dafny's `==`. A type whose `!=` is irreflexive or inconsistent, such as a floating-point NaN, is not modelled: for NaN the C++ code commits, notifies and propagates an assignment of NaN over NaN, where the model treats it as a no-op.
- NotifyBindings: its `oldValue` parameter is unused by the code and is omitted.
- Assign: the body calls `NotifyCallbacks` before `NotifyBindings` (property.h:147-148). Callbacks are log entries that cannot read the targets, so no contract here observes that order.
