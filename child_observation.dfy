/**
 * `FRDChildObservation`: the three observations of the children of a
 * location (added, changed and removed children), stopped together and
 * transformed together, and the classification of their notifications into
 * `ChangeType`.
 */
module ChildObservation {
  import opened Wrappers
  import opened Errors
  import Observers
  import opened Observation
  import Utilities
  import ProjectTypes

  /** `ChangeType`: what happened to a child. */
  datatype ChangeType<T, Id> = Added(value: T) | Changed(value: T) | Removed(id: Id)

  /** Which of the three observations a notification came from. */
  datatype Stream = AddedStream | ChangedStream | RemovedStream

  /** The classifier `addObserver` uses for identifiable children. */
  function ClassifyIdentifiable<T, Id>(stream: Stream, value: T, id: T -> Id): (c: ChangeType<T, Id>)
    ensures stream == AddedStream ==> c == Added(value)
    ensures stream == ChangedStream ==> c == Changed(value)
    ensures stream == RemovedStream ==> c == Removed(id(value))
  {
    match stream
    case AddedStream => Added(value)
    case ChangedStream => Changed(value)
    case RemovedStream => Removed(id(value))
  }

  /**
   * The classifier `addObserver` uses for deletable children: a tombstone is
   * always a removal of its id, and an item is classified by its stream.
   */
  function ClassifyDeletable<T, Id>(stream: Stream, deletable: ProjectTypes.Deletable<T, Id>, id: T -> Id): (c: ChangeType<T, Id>)
    ensures deletable.Deleted? ==> c == Removed(deletable.id)
    ensures deletable.Item? && stream == AddedStream ==> c == Added(deletable.value)
    ensures deletable.Item? && stream == ChangedStream ==> c == Changed(deletable.value)
    ensures deletable.Item? && stream == RemovedStream ==> c == Removed(id(deletable.value))
  {
    match deletable
    case Deleted(i) => Removed(i)
    case Item(v) =>
      match stream
      case AddedStream => Added(v)
      case ChangedStream => Changed(v)
      case RemovedStream => Removed(id(v))
  }

  /** An item is classified as the identifiable classifier would classify its value. */
  lemma DeletableItemAgrees<T, Id>(stream: Stream, value: T, id: T -> Id)
    ensures ClassifyDeletable(stream, ProjectTypes.Item(value), id) == ClassifyIdentifiable(stream, value, id)
  {
  }

  /** Only a removal can come out of the removed stream, whatever the payload. */
  lemma RemovedStreamOnlyRemoves<T, Id>(deletable: ProjectTypes.Deletable<T, Id>, id: T -> Id)
    ensures ClassifyDeletable(RemovedStream, deletable, id).Removed?
  {
  }

  /** What the observer of an identifiable child observation receives for `result` on `stream`. */
  function IdentifiableChange<T, Id>(stream: Stream, result: Result<T, Error>, id: T -> Id): (r: Result<ChangeType<T, Id>, Error>)
    ensures result.Failure? ==> r == Failure(result.error)
    ensures result.Success? ==> r == Success(ClassifyIdentifiable(stream, result.value, id))
  {
    Utilities.MapThrowable(result, (v: T) => Success(ClassifyIdentifiable(stream, v, id)))
  }

  /** What the observer of a deletable child observation receives for `result` on `stream`. */
  function DeletableChange<T, Id>(stream: Stream, result: Result<ProjectTypes.Deletable<T, Id>, Error>, id: T -> Id): (r: Result<ChangeType<T, Id>, Error>)
    ensures result.Failure? ==> r == Failure(result.error)
    ensures result.Success? ==> r == Success(ClassifyDeletable(stream, result.value, id))
  {
    Utilities.MapThrowable(result, (d: ProjectTypes.Deletable<T, Id>) => Success(ClassifyDeletable(stream, d, id)))
  }

  class FRDChildObservation<T> {
    const addedObservation: FRDObservation<T>
    const changedObservation: FRDObservation<T>
    const removedObservation: FRDObservation<T>

    /** The three observations and their listener lists are distinct, and their references are consistent. */
    ghost predicate Valid()
      reads this, addedObservation, changedObservation, removedObservation
      reads addedObservation.reference, changedObservation.reference, removedObservation.reference
    {
      && addedObservation != changedObservation
      && changedObservation != removedObservation
      && addedObservation != removedObservation
      && DistinctLists(addedObservation, changedObservation)
      && DistinctLists(changedObservation, removedObservation)
      && DistinctLists(addedObservation, removedObservation)
      && (addedObservation.reference != null ==> addedObservation.reference.Valid())
      && (changedObservation.reference != null ==> changedObservation.reference.Valid())
      && (removedObservation.reference != null ==> removedObservation.reference.Valid())
    }

    /** The handles of those of the three observations that are attached through `r`. */
    ghost function DetachedFrom(r: DatabaseReference): set<Handle>
      reads this, addedObservation, changedObservation, removedObservation
    {
      HandleOn(r, addedObservation) + HandleOn(r, changedObservation) + HandleOn(r, removedObservation)
    }

    /** The private `init(addedObservation:changedObservation:removedObservation:)`. */
    constructor (addedObservation: FRDObservation<T>, changedObservation: FRDObservation<T>, removedObservation: FRDObservation<T>)
      ensures this.addedObservation == addedObservation
      ensures this.changedObservation == changedObservation
      ensures this.removedObservation == removedObservation
    {
      this.addedObservation := addedObservation;
      this.changedObservation := changedObservation;
      this.removedObservation := removedObservation;
    }

    /**
     * `stopObservating()`: stops the three observations. Each reference loses
     * exactly the handles of the observations on it, and its handle counter
     * stays, so a detached handle is never issued again.
     */
    method StopObservating()
      requires Valid()
      modifies addedObservation, changedObservation, removedObservation
      modifies addedObservation.reference, changedObservation.reference, removedObservation.reference
      ensures var r := old(addedObservation.reference);
              r != null ==> && r.nextHandle == old(r.nextHandle)
                            && r.attached == old(r.attached) - old(DetachedFrom(r))
      ensures var r := old(changedObservation.reference);
              r != null ==> && r.nextHandle == old(r.nextHandle)
                            && r.attached == old(r.attached) - old(DetachedFrom(r))
      ensures var r := old(removedObservation.reference);
              r != null ==> && r.nextHandle == old(r.nextHandle)
                            && r.attached == old(r.attached) - old(DetachedFrom(r))
      ensures old(addedObservation.handle).Some? ==> addedObservation.reference == null && addedObservation.observers == null
      ensures old(changedObservation.handle).Some? ==> changedObservation.reference == null && changedObservation.observers == null
      ensures old(removedObservation.handle).Some? ==> removedObservation.reference == null && removedObservation.observers == null
      ensures var r := old(addedObservation.reference);
              r != null && old(changedObservation.reference) == r && old(removedObservation.reference) == r &&
              old(addedObservation.handle).Some? && old(changedObservation.handle).Some? && old(removedObservation.handle).Some? ==>
                r.attached == old(r.attached) - {old(addedObservation.handle).value, old(changedObservation.handle).value, old(removedObservation.handle).value}
    {
      addedObservation.StopObservating();
      changedObservation.StopObservating();
      removedObservation.StopObservating();
    }

    /**
     * `addObserver(_:)`: the observer is reached through one forwarding
     * listener on each stream (see `IdentifiableChange` and `DeletableChange`).
     */
    method AddObserver(forwardAdded: Observers.Listener, forwardChanged: Observers.Listener, forwardRemoved: Observers.Listener)
      requires Valid()
      modifies addedObservation.observers, changedObservation.observers, removedObservation.observers
      ensures addedObservation.observers != null ==>
                addedObservation.observers.observers == old(addedObservation.observers.observers) + [forwardAdded]
      ensures changedObservation.observers != null ==>
                changedObservation.observers.observers == old(changedObservation.observers.observers) + [forwardChanged]
      ensures removedObservation.observers != null ==>
                removedObservation.observers.observers == old(removedObservation.observers.observers) + [forwardRemoved]
    {
      addedObservation.AddObserver(forwardAdded);
      changedObservation.AddObserver(forwardChanged);
      removedObservation.AddObserver(forwardRemoved);
    }

    /** `map(_:)`: each of the three observations is mapped with the same transform. */
    method Map<R>(forwardAdded: Observers.Listener, forwardChanged: Observers.Listener, forwardRemoved: Observers.Listener)
      returns (derived: FRDChildObservation<R>)
      requires Valid()
      modifies addedObservation.observers, changedObservation.observers, removedObservation.observers
      ensures fresh(derived) && derived.Valid()
      ensures fresh(derived.addedObservation.observers) && fresh(derived.changedObservation.observers)
      ensures fresh(derived.removedObservation.observers)
      ensures Derives(derived.addedObservation, addedObservation)
      ensures Derives(derived.changedObservation, changedObservation)
      ensures Derives(derived.removedObservation, removedObservation)
      ensures addedObservation.observers != null ==>
                addedObservation.observers.observers == old(addedObservation.observers.observers) + [forwardAdded]
      ensures changedObservation.observers != null ==>
                changedObservation.observers.observers == old(changedObservation.observers.observers) + [forwardChanged]
      ensures removedObservation.observers != null ==>
                removedObservation.observers.observers == old(removedObservation.observers.observers) + [forwardRemoved]
    {
      var added := addedObservation.Map<R>(forwardAdded);
      var changed := changedObservation.Map<R>(forwardChanged);
      var removed := removedObservation.Map<R>(forwardRemoved);
      derived := new FRDChildObservation(added, changed, removed);
    }

    /** `compactMap(_:)`: each of the three observations is compact-mapped with the same transform. */
    method CompactMap<R>(forwardAdded: Observers.Listener, forwardChanged: Observers.Listener, forwardRemoved: Observers.Listener)
      returns (derived: FRDChildObservation<R>)
      requires Valid()
      modifies addedObservation.observers, changedObservation.observers, removedObservation.observers
      ensures fresh(derived) && derived.Valid()
      ensures fresh(derived.addedObservation.observers) && fresh(derived.changedObservation.observers)
      ensures fresh(derived.removedObservation.observers)
      ensures Derives(derived.addedObservation, addedObservation)
      ensures Derives(derived.changedObservation, changedObservation)
      ensures Derives(derived.removedObservation, removedObservation)
      ensures addedObservation.observers != null ==>
                addedObservation.observers.observers == old(addedObservation.observers.observers) + [forwardAdded]
      ensures changedObservation.observers != null ==>
                changedObservation.observers.observers == old(changedObservation.observers.observers) + [forwardChanged]
      ensures removedObservation.observers != null ==>
                removedObservation.observers.observers == old(removedObservation.observers.observers) + [forwardRemoved]
    {
      var added := addedObservation.CompactMap<R>(forwardAdded);
      var changed := changedObservation.CompactMap<R>(forwardChanged);
      var removed := removedObservation.CompactMap<R>(forwardRemoved);
      derived := new FRDChildObservation(added, changed, removed);
    }

    /** `filter(_:)`: each of the three observations is filtered with the same predicate. */
    method Filter(forwardAdded: Observers.Listener, forwardChanged: Observers.Listener, forwardRemoved: Observers.Listener)
      returns (derived: FRDChildObservation<T>)
      requires Valid()
      modifies addedObservation.observers, changedObservation.observers, removedObservation.observers
      ensures fresh(derived) && derived.Valid()
      ensures fresh(derived.addedObservation.observers) && fresh(derived.changedObservation.observers)
      ensures fresh(derived.removedObservation.observers)
      ensures Derives(derived.addedObservation, addedObservation)
      ensures Derives(derived.changedObservation, changedObservation)
      ensures Derives(derived.removedObservation, removedObservation)
      ensures addedObservation.observers != null ==>
                addedObservation.observers.observers == old(addedObservation.observers.observers) + [forwardAdded]
      ensures changedObservation.observers != null ==>
                changedObservation.observers.observers == old(changedObservation.observers.observers) + [forwardChanged]
      ensures removedObservation.observers != null ==>
                removedObservation.observers.observers == old(removedObservation.observers.observers) + [forwardRemoved]
    {
      var added := addedObservation.Filter(forwardAdded);
      var changed := changedObservation.Filter(forwardChanged);
      var removed := removedObservation.Filter(forwardRemoved);
      derived := new FRDChildObservation(added, changed, removed);
    }
  }

  /** Two observations do not share a listener list. */
  /** The handle of `o`, when it has one and is attached through `r`. */
  ghost function HandleOn<T>(r: DatabaseReference, o: FRDObservation<T>): set<Handle>
    reads o
  {
    if o.reference == r && o.handle.Some? then {o.handle.value} else {}
  }

  ghost predicate DistinctLists<T>(a: FRDObservation<T>, b: FRDObservation<T>)
    reads a, b
  {
    a.observers != null && b.observers != null ==> a.observers != b.observers
  }

  /** `derived` is a fresh observation on the same reference and handle as `source`, with no listeners yet. */
  ghost predicate Derives<T, R>(derived: FRDObservation<R>, source: FRDObservation<T>)
    reads derived, derived.observers, source
  {
    && derived.reference == source.reference
    && derived.handle == source.handle
    && derived.observers != null
    && derived.observers.observers == []
  }

  /**
   * `init(reference:ignore:)` and `observeChildren(ignore:)`: three
   * observations of `reference`; only the added stream skips its first
   * `numberIgnoredObservations` notifications.
   */
  method ObserveChildren<T>(reference: DatabaseReference, numberIgnoredObservations: nat)
    returns (child: FRDChildObservation<T>, addedCountdown: Utilities.IgnoreCountdown,
             changedCountdown: Utilities.IgnoreCountdown, removedCountdown: Utilities.IgnoreCountdown)
    requires reference.Valid()
    modifies reference
    ensures fresh(child) && child.Valid()
    ensures fresh(child.addedObservation.observers) && fresh(child.changedObservation.observers)
    ensures fresh(child.removedObservation.observers)
    ensures child.addedObservation.reference == reference
    ensures child.changedObservation.reference == reference
    ensures child.removedObservation.reference == reference
    ensures addedCountdown.observationsToIgnore == numberIgnoredObservations
    ensures changedCountdown.observationsToIgnore == 0
    ensures removedCountdown.observationsToIgnore == 0
    ensures child.addedObservation.handle.Some? && child.changedObservation.handle.Some? && child.removedObservation.handle.Some?
    ensures var handles := {child.addedObservation.handle.value, child.changedObservation.handle.value, child.removedObservation.handle.value};
            |handles| == 3 && handles !! old(reference.attached) && reference.attached == old(reference.attached) + handles
  {
    var added, changed, removed;
    added, addedCountdown := ObserveEvent<T>(reference, numberIgnoredObservations);
    changed, changedCountdown := ObserveEvent<T>(reference, 0);
    removed, removedCountdown := ObserveEvent<T>(reference, 0);
    child := new FRDChildObservation(added, changed, removed);
  }
}
