/**
 * `FRDObserver`: live subscriptions to database locations. A subscription
 * decodes every notification into a key and value, and the late payment
 * interest and list subscriptions then decrypt the value and probe it for a
 * tombstone. Unlike the fetcher, an error does not end anything: it is
 * delivered to the listeners as a failure.
 */
module Observer {
  import opened Wrappers
  import opened Errors
  import opened Json
  import Uuids
  import opened Snapshots
  import opened KeyValuePairs
  import DatabaseTypes
  import FRDDeleted
  import FRDLatePaymentInterest
  import ProjectTypes
  import Utilities
  import Observers
  import opened Observation
  import opened ChildObservation
  import Fetcher

  datatype FRDObserver = FRDObserver(cryptionKeys: Option<Keys>, databaseType: DatabaseTypes.DatabaseType)

  /** `shared`: no cryption keys, and the database of the build configuration. */
  function Shared(debugBuild: bool): (r: FRDObserver)
    ensures r.cryptionKeys.None? && r.databaseType == DatabaseTypes.Default(debugBuild)
  {
    FRDObserver(None, DatabaseTypes.Default(debugBuild))
  }

  /** `crypter`: available only once cryption keys are set. */
  function Crypter(observer: FRDObserver): (r: Result<Keys, Error>)
    ensures r.Success? <==> observer.cryptionKeys.Some?
    ensures r.Success? ==> observer.cryptionKeys == Some(r.value)
    ensures r.Failure? ==> r.error == Observe(ObserveNoCryptionKeys)
  {
    match observer.cryptionKeys
    case None => Failure(Observe(ObserveNoCryptionKeys))
    case Some(keys) => Success(keys)
  }

  /** `cryptionKeys(_:)`: a copy with the keys set and the database kept. */
  function WithCryptionKeys(observer: FRDObserver, keys: Keys): (r: FRDObserver)
    ensures r.cryptionKeys == Some(keys) && r.databaseType == observer.databaseType
  {
    observer.(cryptionKeys := Some(keys))
  }

  /** `forTesting`: a copy observing the testing database, with the keys kept. */
  function ForTesting(observer: FRDObserver): (r: FRDObserver)
    ensures r.databaseType == DatabaseTypes.Testing && r.cryptionKeys == observer.cryptionKeys
  {
    observer.(databaseType := DatabaseTypes.Testing)
  }

  /** The default of `ignore:` in `observe`, `observeChildren` and the list observations. */
  const DefaultIgnore: nat := 1

  /** `decode(_:from:)`: a snapshot without data fails; otherwise its key with its decoded value. */
  function Decode<V>(snapshot: DataSnapshot, decode: Json -> Decoded<V>): (r: Result<KeyValuePair<string, V>, Error>)
    ensures !(snapshot.present && snapshot.value.Some?) ==> r == Failure(Observe(ObserveNoDataInSnapshot))
    ensures snapshot.present && snapshot.value.Some? && decode(snapshot.value.value).Failure? ==>
              r == Failure(decode(snapshot.value.value).error)
    ensures snapshot.present && snapshot.value.Some? && decode(snapshot.value.value).Success? ==>
              r == Success(KeyValuePair(snapshot.key, decode(snapshot.value.value).value))
    ensures r.Success? ==> r.value.key == snapshot.key && snapshot.value.Some?
                           && decode(snapshot.value.value) == Success(r.value.value)
  {
    if !(snapshot.present && snapshot.value.Some?) then Failure(Observe(ObserveNoDataInSnapshot))
    else
      var value :- decode(snapshot.value.value);
      Success(KeyValuePair(snapshot.key, value))
  }

  /** The observer's and the fetcher's `decode` differ only in the error for a snapshot without data. */
  lemma DecodeAgreesWithFetcher<V>(snapshot: DataSnapshot, decode: Json -> Decoded<V>)
    ensures Decode(snapshot, decode).Success? <==> Fetcher.Decode(snapshot, decode).Success?
    ensures Decode(snapshot, decode).Success? ==> Decode(snapshot, decode) == Fetcher.Decode(snapshot, decode)
    ensures snapshot.present && snapshot.value.Some? ==> Decode(snapshot, decode) == Fetcher.Decode(snapshot, decode)
  {
  }

  /** The crypter and the decryption of one stored string: the keys are checked first. */
  function Decrypted(observer: FRDObserver, decrypt: Decrypt, stored: string): (r: Result<Json, Error>)
    ensures observer.cryptionKeys.None? ==> r == Failure(Observe(ObserveNoCryptionKeys))
    ensures observer.cryptionKeys.Some? ==> r == decrypt(observer.cryptionKeys.value, stored)
  {
    var keys :- Crypter(observer);
    decrypt(keys, stored)
  }

  /** The transform `observeLatePaymentInterest(of:)` maps the decoded pairs with: nil for a tombstone. */
  function LatePaymentInterest(observer: FRDObserver, decrypt: Decrypt, pair: KeyValuePair<string, string>)
    : (r: Result<Option<ProjectTypes.LatePaymentInterest>, Error>)
    ensures var payload := Decrypted(observer, decrypt, pair.value);
            (payload.Failure? ==> r == Failure(payload.error))
            && (payload.Success? && FRDDeleted.IsTombstone(payload.value) ==> r == Success(None))
            && (payload.Success? && !FRDDeleted.IsTombstone(payload.value) ==>
                  (r.Success? <==> FRDLatePaymentInterest.Decode(payload.value).Success?)
                  && (r.Success? ==> r.value == Some(FRDLatePaymentInterest.ToInterface(FRDLatePaymentInterest.Decode(payload.value).value))))
  {
    var payload :- Decrypted(observer, decrypt, pair.value);
    if FRDDeleted.IsTombstone(payload) then Success(None)
    else
      var interest :- FRDLatePaymentInterest.Decode(payload);
      Success(Some(FRDLatePaymentInterest.ToInterface(interest)))
  }

  /**
   * The transform `observeListElements` maps the decoded pairs with: the key
   * must be an id (checked before anything is decrypted), a tombstone is the
   * deletion of that id, and any other payload is the element built from the
   * id and the decoded record.
   */
  function ListElement<E, T>(observer: FRDObserver, decrypt: Decrypt, decodeElement: Json -> Decoded<E>,
                             make: KeyValuePair<Uuids.Uuid, E> -> T, pair: KeyValuePair<string, string>)
    : (r: Result<ProjectTypes.Deletable<T, Uuids.Uuid>, Error>)
    ensures !Uuids.WellFormed(pair.key) ==> r == Failure(Observe(ObserveSnapshotKeyNoUuid))
    ensures Uuids.WellFormed(pair.key) ==>
              var id := Uuids.Parse(pair.key).value;
              var payload := Decrypted(observer, decrypt, pair.value);
              (payload.Failure? ==> r == Failure(payload.error))
              && (payload.Success? && FRDDeleted.IsTombstone(payload.value) ==> r == Success(ProjectTypes.Deleted(id)))
              && (payload.Success? && !FRDDeleted.IsTombstone(payload.value) ==>
                    (r.Success? <==> decodeElement(payload.value).Success?)
                    && (r.Success? ==> r.value == ProjectTypes.Item(make(KeyValuePair(id, decodeElement(payload.value).value)))))
  {
    var id :- Fetcher.ParseKey(pair.key, Observe(ObserveSnapshotKeyNoUuid));
    var payload :- Decrypted(observer, decrypt, pair.value);
    if FRDDeleted.IsTombstone(payload) then Success(ProjectTypes.Deleted(id))
    else
      var element :- decodeElement(payload);
      Success(ProjectTypes.Item(make(KeyValuePair(id, element))))
  }

  /**
   * With the same keys, an observed list entry and a fetched one agree: a
   * tombstone the fetcher drops is observed as the deletion of the entry's
   * id, and an element the fetcher keys by its id is observed as that item.
   */
  lemma ListElementAgreesWithFetcher<E, T>(observer: FRDObserver, fetcher: Fetcher.FRDFetcher, decrypt: Decrypt,
                                           decodeElement: Json -> Decoded<E>, make: KeyValuePair<Uuids.Uuid, E> -> T,
                                           pair: KeyValuePair<string, string>)
    requires fetcher.cryptionKeys == observer.cryptionKeys
    ensures var fetched := Fetcher.ListEntry(fetcher, decrypt, decodeElement, make, pair);
            var observed := ListElement(observer, decrypt, decodeElement, make, pair);
            (fetched.Success? <==> observed.Success?)
            && (fetched == Success(None) ==> observed == Success(ProjectTypes.Deleted(Uuids.Parse(pair.key).value)))
            && (fetched.Success? && fetched.value.Some? ==>
                  Uuids.Parse(pair.key) == Some(fetched.value.value.key) && observed == Success(ProjectTypes.Item(fetched.value.value.value)))
  {
    if Uuids.WellFormed(pair.key) && observer.cryptionKeys.Some? {
      var payload := decrypt(observer.cryptionKeys.value, pair.value);
      assert Decrypted(observer, decrypt, pair.value) == payload;
      assert Fetcher.Decrypted(fetcher, decrypt, pair.value) == payload;
    }
  }

  /** On every stream, an observed tombstone is reported as the removal of the id in its key. */
  lemma TombstoneIsRemoval<E, T>(observer: FRDObserver, decrypt: Decrypt, decodeElement: Json -> Decoded<E>,
                                 make: KeyValuePair<Uuids.Uuid, E> -> T, pair: KeyValuePair<string, string>,
                                 stream: Stream, id: T -> Uuids.Uuid)
    requires Uuids.WellFormed(pair.key)
    requires Decrypted(observer, decrypt, pair.value).Success?
    requires FRDDeleted.IsTombstone(Decrypted(observer, decrypt, pair.value).value)
    ensures DeletableChange(stream, ListElement(observer, decrypt, decodeElement, make, pair), id)
            == Success(Removed(Uuids.Parse(pair.key).value))
  {
  }

  /** A new reference to a path of the observer's database. */
  method Reference(observer: FRDObserver, relativeUrl: string) returns (reference: DatabaseReference)
    ensures fresh(reference) && reference.Valid() && reference.attached == {}
    ensures reference.database == DatabaseTypes.DatabaseUrl(observer.databaseType) && reference.path == relativeUrl
  {
    reference := new DatabaseReference(DatabaseTypes.DatabaseUrl(observer.databaseType), relativeUrl);
  }

  /**
   * `observe(_:at:ignore:)`: a value observation of the location that skips
   * the first `ignore` notifications, mapped through `Decode` by the listener
   * `forwarder` on the underlying snapshot observation.
   */
  method ObserveValue<V>(observer: FRDObserver, relativeUrl: string, forwarder: Observers.Listener, ignore: nat := DefaultIgnore)
    returns (observation: FRDObservation<KeyValuePair<string, V>>, source: FRDObservation<DataSnapshot>, countdown: Utilities.IgnoreCountdown)
    ensures fresh(observation) && fresh(source) && fresh(countdown) && fresh(source.reference)
    ensures fresh(observation.observers)
    ensures source.reference != null && source.reference.Valid()
    ensures source.reference.database == DatabaseTypes.DatabaseUrl(observer.databaseType) && source.reference.path == relativeUrl
    ensures source.handle.Some? && source.reference.attached == {source.handle.value}
    ensures source.observers != null && source.observers.observers == [forwarder]
    ensures Derives(observation, source)
    ensures countdown.observationsToIgnore == ignore
  {
    var reference := Reference(observer, relativeUrl);
    source, countdown := ObserveEvent<DataSnapshot>(reference, ignore);
    observation := source.Map<KeyValuePair<string, V>>(forwarder);
  }

  /**
   * A notification reaching an observation made by `observe(_:at:ignore:)`:
   * swallowed while its countdown runs, otherwise decoded and delivered.
   */
  method OnValue<V>(observation: FRDObservation<KeyValuePair<string, V>>, countdown: Utilities.IgnoreCountdown,
                    decode: Json -> Decoded<V>, snapshot: DataSnapshot)
    returns (calls: seq<Observers.Call<Result<KeyValuePair<string, V>, Error>>>)
    modifies countdown
    ensures old(countdown.observationsToIgnore) > 0 ==>
              calls == [] && countdown.observationsToIgnore == old(countdown.observationsToIgnore) - 1
    ensures old(countdown.observationsToIgnore) == 0 ==>
              calls == observation.Delivery(Decode(snapshot, decode)) && countdown.observationsToIgnore == 0
  {
    var forward := countdown.Notify();
    if !forward {
      return [];
    }
    calls := ForwardMap(observation, (s: DataSnapshot) => Decode(s, decode), Success(snapshot));
  }

  /**
   * `observeLatePaymentInterest(of:)`: the stored string at the club's late
   * payment interest is observed with one notification ignored, and the
   * decoded pairs are mapped through `LatePaymentInterest`.
   */
  method ObserveLatePaymentInterest(observer: FRDObserver, clubId: Uuids.Uuid,
                                    decodeForwarder: Observers.Listener, interestForwarder: Observers.Listener)
    returns (interest: FRDObservation<Option<ProjectTypes.LatePaymentInterest>>,
             stored: FRDObservation<KeyValuePair<string, string>>,
             source: FRDObservation<DataSnapshot>, countdown: Utilities.IgnoreCountdown)
    ensures fresh(interest) && fresh(stored) && fresh(source) && fresh(countdown)
    ensures source.reference != null && source.reference.Valid()
    ensures source.reference.database == DatabaseTypes.DatabaseUrl(observer.databaseType)
    ensures source.reference.path == LatePaymentInterestPath(clubId)
    ensures source.handle.Some? && source.reference.attached == {source.handle.value}
    ensures source.observers != null && source.observers.observers == [decodeForwarder]
    ensures stored.observers != null && stored.observers.observers == [interestForwarder]
    ensures stored.reference == source.reference && stored.handle == source.handle
    ensures Derives(interest, stored)
    ensures countdown.observationsToIgnore == 1
  {
    stored, source, countdown := ObserveValue<string>(observer, LatePaymentInterestPath(clubId), decodeForwarder, 1);
    interest := stored.Map<Option<ProjectTypes.LatePaymentInterest>>(interestForwarder);
  }

  /**
   * A notification reaching an observation made by
   * `observeLatePaymentInterest(of:)`: swallowed while its countdown runs,
   * otherwise decoded as a string, decrypted, probed and delivered.
   *
   * The notification goes straight to `interest`: `ObserveLatePaymentInterest`
   * ensures that `stored` has the single listener `interestForwarder`, so the
   * decode stage and the interest stage collapse into one `ForwardMap`.
   */
  method OnLatePaymentInterest(interest: FRDObservation<Option<ProjectTypes.LatePaymentInterest>>,
                               countdown: Utilities.IgnoreCountdown, observer: FRDObserver, decrypt: Decrypt, snapshot: DataSnapshot)
    returns (calls: seq<Observers.Call<Result<Option<ProjectTypes.LatePaymentInterest>, Error>>>)
    modifies countdown
    ensures old(countdown.observationsToIgnore) > 0 ==>
              calls == [] && countdown.observationsToIgnore == old(countdown.observationsToIgnore) - 1
    ensures old(countdown.observationsToIgnore) == 0 ==>
              calls == interest.Delivery(Utilities.MapThrowable(Decode(snapshot, DecodeString),
                                                                (pair: KeyValuePair<string, string>) => LatePaymentInterest(observer, decrypt, pair)))
              && countdown.observationsToIgnore == 0
  {
    var forward := countdown.Notify();
    if !forward {
      return [];
    }
    calls := ForwardMap(interest, (pair: KeyValuePair<string, string>) => LatePaymentInterest(observer, decrypt, pair),
                        Decode(snapshot, DecodeString));
  }

  /** A stored tombstone is delivered as nil, and a snapshot without data as `noDataInSnapshot`. */
  lemma LatePaymentInterestOutcomes(observer: FRDObserver, decrypt: Decrypt, snapshot: DataSnapshot)
    ensures var delivered := Utilities.MapThrowable(Decode(snapshot, DecodeString),
                                                    (pair: KeyValuePair<string, string>) => LatePaymentInterest(observer, decrypt, pair));
            (!(snapshot.present && snapshot.value.Some?) ==> delivered == Failure(Observe(ObserveNoDataInSnapshot)))
            && (snapshot.present && snapshot.value.Some? && snapshot.value.value.JString? ==>
                  var payload := Decrypted(observer, decrypt, snapshot.value.value.s);
                  (observer.cryptionKeys.None? ==> delivered == Failure(Observe(ObserveNoCryptionKeys)))
                  && (payload.Success? && FRDDeleted.IsTombstone(payload.value) ==> delivered == Success(None)))
  {
    if snapshot.present && snapshot.value.Some? && snapshot.value.value.JString? {
      assert Decode(snapshot, DecodeString) == Success(KeyValuePair(snapshot.key, snapshot.value.value.s));
    }
  }

  /**
   * `observeChildren(_:at:ignore:)`: the three child streams of the
   * location, only the added one skipping the first `ignore` notifications,
   * each mapped through `Decode`.
   */
  method ObserveChildrenOf<V>(observer: FRDObserver, relativeUrl: string,
                              forwardAdded: Observers.Listener, forwardChanged: Observers.Listener, forwardRemoved: Observers.Listener,
                              ignore: nat := DefaultIgnore)
    returns (observation: FRDChildObservation<KeyValuePair<string, V>>, source: FRDChildObservation<DataSnapshot>,
             addedCountdown: Utilities.IgnoreCountdown, changedCountdown: Utilities.IgnoreCountdown, removedCountdown: Utilities.IgnoreCountdown)
    ensures fresh(observation) && fresh(source) && source.Valid() && observation.Valid()
    ensures fresh(observation.addedObservation.observers) && fresh(observation.changedObservation.observers)
    ensures fresh(observation.removedObservation.observers)
    ensures var reference := source.addedObservation.reference;
            reference != null && fresh(reference)
            && reference.database == DatabaseTypes.DatabaseUrl(observer.databaseType) && reference.path == relativeUrl
            && source.changedObservation.reference == reference && source.removedObservation.reference == reference
    ensures addedCountdown.observationsToIgnore == ignore
    ensures changedCountdown.observationsToIgnore == 0 && removedCountdown.observationsToIgnore == 0
    ensures Derives(observation.addedObservation, source.addedObservation)
    ensures Derives(observation.changedObservation, source.changedObservation)
    ensures Derives(observation.removedObservation, source.removedObservation)
  {
    var reference := Reference(observer, relativeUrl);
    source, addedCountdown, changedCountdown, removedCountdown := ObserveChildren<DataSnapshot>(reference, ignore);
    observation := source.Map<KeyValuePair<string, V>>(forwardAdded, forwardChanged, forwardRemoved);
  }

  /**
   * `observeListElements(of:ignore:path:)`, and through it `observePersons`,
   * `observeReasonTemplates` and `observeFines`, which differ only in `list`:
   * the children of the club's list, decoded as strings and then mapped
   * through `ListElement`.
   */
  method ObserveListElements<T>(observer: FRDObserver, clubId: Uuids.Uuid, list: ListPath,
                                decodeAdded: Observers.Listener, decodeChanged: Observers.Listener, decodeRemoved: Observers.Listener,
                                elementAdded: Observers.Listener, elementChanged: Observers.Listener, elementRemoved: Observers.Listener,
                                ignore: nat := DefaultIgnore)
    returns (elements: FRDChildObservation<ProjectTypes.Deletable<T, Uuids.Uuid>>,
             stored: FRDChildObservation<KeyValuePair<string, string>>,
             source: FRDChildObservation<DataSnapshot>, addedCountdown: Utilities.IgnoreCountdown)
    ensures fresh(elements) && fresh(stored) && fresh(source) && elements.Valid()
    ensures var reference := source.addedObservation.reference;
            reference != null && reference.path == ListPathOf(clubId, list)
            && reference.database == DatabaseTypes.DatabaseUrl(observer.databaseType)
    ensures addedCountdown.observationsToIgnore == ignore
    ensures Derives(elements.addedObservation, stored.addedObservation)
    ensures Derives(elements.changedObservation, stored.changedObservation)
    ensures Derives(elements.removedObservation, stored.removedObservation)
    ensures stored.addedObservation.reference == source.addedObservation.reference
  {
    var changedCountdown, removedCountdown;
    stored, source, addedCountdown, changedCountdown, removedCountdown :=
      ObserveChildrenOf<string>(observer, ListPathOf(clubId, list), decodeAdded, decodeChanged, decodeRemoved, ignore);
    elements := stored.Map<ProjectTypes.Deletable<T, Uuids.Uuid>>(elementAdded, elementChanged, elementRemoved);
  }

  /** By default the first notification, the value present when observing starts, is skipped, and every later one passes. */
  lemma DefaultSkipsInitialValue<T>(notifications: seq<T>)
    ensures Utilities.Forwarded(DefaultIgnore, notifications) == if |notifications| == 0 then [] else notifications[1..]
  {
    Utilities.ForwardedSkipsFirst(DefaultIgnore, notifications);
  }
}
