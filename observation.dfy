/**
 * `FRDObservation`: a live subscription to a database location, and
 * `DatabaseReference.observe(event:ignore:)`, which creates one.
 *
 * The transport is reduced to what the observation touches: a reference keeps
 * the set of handles of its attached transport listeners, `Observe` attaches
 * one and `RemoveObserver` detaches one. A notification from the transport is
 * a call of the method that models the closure the observation registered.
 */
module Observation {
  import opened Wrappers
  import opened Errors
  import Observers
  import Utilities

  /** `DatabaseHandle`. */
  type Handle = nat

  /** The part of Firebase's `DatabaseReference` an observation uses. */
  class DatabaseReference {
    /** The database URL and the path below it that this reference points at. */
    const database: string
    const path: string
    var attached: set<Handle>
    var nextHandle: Handle

    /** Every attached handle was issued before `nextHandle`. */
    ghost predicate Valid()
      reads this
    {
      forall h :: h in attached ==> h < nextHandle
    }

    /** `Database.database(url:).reference(withPath:)`: a reference with no listener attached yet. */
    constructor (database: string, path: string)
      ensures this.database == database && this.path == path
      ensures Valid() && attached == {}
    {
      this.database := database;
      this.path := path;
      attached := {};
      nextHandle := 0;
    }

    /** `observe(_:with:)`: attaches a transport listener under a new handle. */
    method Observe() returns (handle: Handle)
      requires Valid()
      modifies this
      ensures Valid()
      ensures handle == old(nextHandle) && handle !in old(attached) && nextHandle == handle + 1
      ensures attached == old(attached) + {handle}
    {
      handle := nextHandle;
      attached := attached + {handle};
      nextHandle := nextHandle + 1;
    }

    /** `removeObserver(withHandle:)`: detaches the transport listener `handle`. */
    method RemoveObserver(handle: Handle)
      requires Valid()
      modifies this
      ensures Valid()
      ensures attached == old(attached) - {handle}
      ensures nextHandle == old(nextHandle)
    {
      attached := attached - {handle};
    }
  }

  class FRDObservation<T> {
    var handle: Option<Handle>
    var reference: DatabaseReference?
    var observers: Observers.Observers?<Result<T, Error>>

    /**
     * `init(reference:_:)`. The registration closure `onObserve` is
     * represented by the handle it returned.
     */
    constructor (reference: DatabaseReference?, handle: Option<Handle>)
      ensures this.reference == reference && this.handle == handle
      ensures observers != null && fresh(observers) && observers.observers == []
    {
      this.reference := reference;
      this.handle := handle;
      observers := new Observers.Observers();
    }

    /** The calls one delivered result causes: every listener in order, or none once stopped. */
    function Delivery(result: Result<T, Error>): (calls: seq<Observers.Call<Result<T, Error>>>)
      reads this, observers
      ensures observers == null ==> calls == []
    {
      if observers == null then [] else Observers.Fanout(observers.observers, result)
    }

    /** A delivered result reaches every listener once, in registration order, and nothing else. */
    lemma DeliveryCallsEveryListener(result: Result<T, Error>)
      requires observers != null
      ensures |Delivery(result)| == |observers.observers|
      ensures forall i :: 0 <= i < |observers.observers| ==> Delivery(result)[i] == Observers.Call(observers.observers[i], result)
    {
    }

    /** The closure registered in `init`: hands a result from the transport to every listener. */
    method Deliver(result: Result<T, Error>) returns (calls: seq<Observers.Call<Result<T, Error>>>)
      ensures calls == Delivery(result)
      ensures observers == null ==> calls == []
    {
      if observers == null {
        calls := [];
      } else {
        calls := observers.Receive(result);
      }
    }

    /** `addObserver(_:)`: appends a listener; after a stop there is no list and nothing happens. */
    method AddObserver(observer: Observers.Listener)
      modifies observers
      ensures observers != null ==> observers.observers == old(observers.observers) + [observer]
    {
      if observers != null {
        observers.AddObserver(observer);
      }
    }

    /**
     * `stopObservating()`: without a handle nothing happens; otherwise the
     * transport listener is detached and the reference and the listeners are
     * dropped. The handle itself is kept.
     */
    method StopObservating()
      requires reference != null ==> reference.Valid()
      modifies this, reference
      ensures handle == old(handle)
      ensures old(reference) != null ==> old(reference).Valid()
      ensures old(reference) != null ==> old(reference).nextHandle == old(reference.nextHandle)
      ensures old(handle).None? ==> reference == old(reference) && observers == old(observers)
      ensures old(handle).None? && old(reference) != null ==> old(reference).attached == old(reference.attached)
      ensures old(handle).Some? ==> reference == null && observers == null
      ensures old(handle).Some? && old(reference) != null ==>
                old(reference).attached == old(reference.attached) - {old(handle).value}
    {
      if handle.None? {
        return;
      }
      if reference != null {
        reference.RemoveObserver(handle.value);
      }
      reference := null;
      observers := null;
    }

    /**
     * `map(_:)`: a new observation on the same reference and handle, fed by
     * a listener `forwarder` added to this one (see `ForwardMap`).
     */
    method Map<R>(forwarder: Observers.Listener) returns (derived: FRDObservation<R>)
      modifies observers
      ensures fresh(derived) && fresh(derived.observers)
      ensures derived.reference == reference && derived.handle == handle
      ensures derived.observers != null && derived.observers.observers == []
      ensures observers != null ==> observers.observers == old(observers.observers) + [forwarder]
    {
      AddObserver(forwarder);
      derived := new FRDObservation(reference, handle);
    }

    /** `compactMap(_:)`: built like `map`; its forwarder is `ForwardCompactMap`. */
    method CompactMap<R>(forwarder: Observers.Listener) returns (derived: FRDObservation<R>)
      modifies observers
      ensures fresh(derived) && fresh(derived.observers)
      ensures derived.reference == reference && derived.handle == handle
      ensures derived.observers != null && derived.observers.observers == []
      ensures observers != null ==> observers.observers == old(observers.observers) + [forwarder]
    {
      AddObserver(forwarder);
      derived := new FRDObservation(reference, handle);
    }

    /** `filter(_:)`: built like `map`; its forwarder is `ForwardFilter`. */
    method Filter(forwarder: Observers.Listener) returns (derived: FRDObservation<T>)
      modifies observers
      ensures fresh(derived) && fresh(derived.observers)
      ensures derived.reference == reference && derived.handle == handle
      ensures derived.observers != null && derived.observers.observers == []
      ensures observers != null ==> observers.observers == old(observers.observers) + [forwarder]
    {
      AddObserver(forwarder);
      derived := new FRDObservation(reference, handle);
    }
  }

  /** The listener `map` adds: the transformed result goes to the derived observation. */
  method ForwardMap<T, R>(derived: FRDObservation<R>, transform: T -> Result<R, Error>, result: Result<T, Error>)
    returns (calls: seq<Observers.Call<Result<R, Error>>>)
    ensures calls == derived.Delivery(Utilities.MapThrowable(result, transform))
  {
    calls := derived.Deliver(Utilities.MapThrowable(result, transform));
  }

  /** The listener `compactMap` adds: a nil outcome is dropped, anything else goes to the derived observation. */
  method ForwardCompactMap<T, R>(derived: FRDObservation<R>, transform: T -> Result<Option<R>, Error>, result: Result<T, Error>)
    returns (calls: seq<Observers.Call<Result<R, Error>>>)
    ensures Utilities.CompactMap(result, transform).None? ==> calls == []
    ensures Utilities.CompactMap(result, transform).Some? ==> calls == derived.Delivery(Utilities.CompactMap(result, transform).value)
  {
    var mapped := Utilities.CompactMap(result, transform);
    if mapped.None? {
      return [];
    }
    calls := derived.Deliver(mapped.value);
  }

  /** The listener `filter` adds: a rejected success is dropped, anything else goes to the derived observation. */
  method ForwardFilter<T>(derived: FRDObservation<T>, isIncluded: T -> Result<bool, Error>, result: Result<T, Error>)
    returns (calls: seq<Observers.Call<Result<T, Error>>>)
    ensures Utilities.Filter(result, isIncluded).None? ==> calls == []
    ensures Utilities.Filter(result, isIncluded).Some? ==> calls == derived.Delivery(Utilities.Filter(result, isIncluded).value)
  {
    var filtered := Utilities.Filter(result, isIncluded);
    if filtered.None? {
      return [];
    }
    calls := derived.Deliver(filtered.value);
  }

  /**
   * `DatabaseReference.observe(event:ignore:)`: attaches a transport listener
   * to `reference` and returns the observation holding its handle, together
   * with the countdown its closure captured.
   */
  method ObserveEvent<T>(reference: DatabaseReference, numberIgnoredObservations: nat)
    returns (observation: FRDObservation<T>, countdown: Utilities.IgnoreCountdown)
    requires reference.Valid()
    modifies reference
    ensures reference.Valid()
    ensures fresh(observation) && fresh(observation.observers) && fresh(countdown)
    ensures observation.reference == reference && observation.observers != null && observation.observers.observers == []
    ensures observation.handle == Some(old(reference.nextHandle))
    ensures old(reference.nextHandle) !in old(reference.attached)
    ensures reference.attached == old(reference.attached) + {old(reference.nextHandle)}
    ensures reference.nextHandle == old(reference.nextHandle) + 1
    ensures countdown.observationsToIgnore == numberIgnoredObservations
  {
    countdown := new Utilities.IgnoreCountdown(numberIgnoredObservations);
    var handle := reference.Observe();
    observation := new FRDObservation(reference, Some(handle));
  }

  /**
   * The transport listener `observe(event:ignore:)` attaches: a snapshot is
   * swallowed while the countdown is positive, and afterwards delivered as a
   * success.
   */
  method OnSnapshot<T>(observation: FRDObservation<T>, countdown: Utilities.IgnoreCountdown, snapshot: T)
    returns (calls: seq<Observers.Call<Result<T, Error>>>)
    modifies countdown
    ensures old(countdown.observationsToIgnore) > 0 ==>
              calls == [] && countdown.observationsToIgnore == old(countdown.observationsToIgnore) - 1
    ensures old(countdown.observationsToIgnore) == 0 ==>
              calls == observation.Delivery(Success(snapshot)) && countdown.observationsToIgnore == 0
  {
    var forward := countdown.Notify();
    if !forward {
      return [];
    }
    calls := observation.Deliver(Success(snapshot));
  }

  /** The calls caused by delivering each of `values` as a success, one after another. */
  function Deliveries<T>(observation: FRDObservation<T>, values: seq<T>): seq<Observers.Call<Result<T, Error>>>
    reads observation, observation.observers
  {
    if values == [] then []
    else Deliveries(observation, values[..|values| - 1]) + observation.Delivery(Success(values[|values| - 1]))
  }

  /**
   * A run of notifications reaching the listener `observe(event:ignore:)`
   * attached: the first ones are swallowed while the countdown lasts, and
   * every later one is delivered, in order.
   */
  method OnSnapshots<T>(observation: FRDObservation<T>, countdown: Utilities.IgnoreCountdown, snapshots: seq<T>)
    returns (calls: seq<Observers.Call<Result<T, Error>>>)
    modifies countdown
    ensures var ignore := old(countdown.observationsToIgnore);
            calls == Deliveries(observation, if ignore < |snapshots| then snapshots[ignore..] else [])
    ensures var ignore := old(countdown.observationsToIgnore);
            countdown.observationsToIgnore == if ignore >= |snapshots| then ignore - |snapshots| else 0
  {
    ghost var ignore := countdown.observationsToIgnore;
    calls := [];
    for i := 0 to |snapshots|
      invariant countdown.observationsToIgnore == if ignore >= i then ignore - i else 0
      invariant calls == Deliveries(observation, Delivered(ignore, snapshots, i))
    {
      var step := OnSnapshot(observation, countdown, snapshots[i]);
      DeliveriesStep(observation, ignore, snapshots, i, step);
      calls := calls + step;
    }
    DeliveredAll(ignore, snapshots);
  }

  /** The notifications among the first `i` that come after the countdown has run out. */
  function Delivered<T>(ignore: nat, snapshots: seq<T>, i: nat): (r: seq<T>)
    requires i <= |snapshots|
    ensures |r| == if ignore < i then i - ignore else 0
    ensures forall k :: 0 <= k < |r| ==> r[k] == snapshots[ignore + k]
  {
    if ignore < i then snapshots[ignore..i] else []
  }

  /** Once every notification is in, the delivered ones are all those after the first `ignore`. */
  lemma DeliveredAll<T>(ignore: nat, snapshots: seq<T>)
    ensures Delivered(ignore, snapshots, |snapshots|) == if ignore < |snapshots| then snapshots[ignore..] else []
  {
  }

  /** The notification at index `i` adds its delivery once the countdown has run out, and nothing before. */
  lemma DeliveriesStep<T>(observation: FRDObservation<T>, ignore: nat, snapshots: seq<T>, i: nat,
                          step: seq<Observers.Call<Result<T, Error>>>)
    requires i < |snapshots|
    requires ignore <= i ==> step == observation.Delivery(Success(snapshots[i]))
    requires ignore > i ==> step == []
    ensures Deliveries(observation, Delivered(ignore, snapshots, i)) + step
            == Deliveries(observation, Delivered(ignore, snapshots, i + 1))
  {
    var before := Delivered(ignore, snapshots, i);
    if ignore <= i {
      assert Delivered(ignore, snapshots, i + 1) == before + [snapshots[i]];
      DeliveriesAppend(observation, before, snapshots[i]);
    } else {
      assert Deliveries(observation, before) + step == Deliveries(observation, before);
    }
  }

  /** Delivering one more value appends its calls. */
  lemma DeliveriesAppend<T>(observation: FRDObservation<T>, values: seq<T>, last: T)
    ensures Deliveries(observation, values + [last]) == Deliveries(observation, values) + observation.Delivery(Success(last))
  {
    assert (values + [last])[..|values|] == values;
  }

  /** One more notification is forwarded exactly when the countdown has run out by then. */
  lemma ForwardedAppend<T>(ignore: nat, notifications: seq<T>, last: T)
    ensures Utilities.Forwarded(ignore, notifications + [last])
            == Utilities.Forwarded(ignore, notifications) + (if ignore <= |notifications| then [last] else [])
  {
    var extended := notifications + [last];
    Utilities.ForwardedSkipsFirst(ignore, notifications);
    Utilities.ForwardedSkipsFirst(ignore, extended);
    if ignore < |notifications| {
      assert extended[ignore..] == notifications[ignore..] + [last];
    } else if ignore == |notifications| {
      assert extended[ignore..] == [last];
    }
  }

  /** Once stopped, an observation with a handle delivers nothing and has no listener list to add to. */
  lemma StoppedDeliversNothing<T>(observation: FRDObservation<T>, result: Result<T, Error>)
    requires observation.observers == null
    ensures observation.Delivery(result) == []
  {
  }
}
