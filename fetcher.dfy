/**
 * `FRDFetcher`: one-off reads from the realtime database. A stored value is
 * decoded from its snapshot and paired with the snapshot's key; list entries
 * are encrypted strings whose keys are element ids, and whose plain text is
 * either a tombstone (`FRDDeleted`) or the element's record.
 */
module Fetcher {
  import opened Wrappers
  import opened Errors
  import opened Json
  import Uuids
  import opened Snapshots
  import opened KeyValuePairs
  import opened Sequences
  import DatabaseTypes
  import FRDDeleted
  import FRDClub
  import FRDLatePaymentInterest
  import ProjectTypes
  import Utilities

  datatype FRDFetcher = FRDFetcher(cryptionKeys: Option<Keys>, databaseType: DatabaseTypes.DatabaseType)

  /** `shared`: no cryption keys, and the database of the build configuration. */
  function Shared(debugBuild: bool): (r: FRDFetcher)
    ensures r.cryptionKeys.None? && r.databaseType == DatabaseTypes.Default(debugBuild)
  {
    FRDFetcher(None, DatabaseTypes.Default(debugBuild))
  }

  /** `crypter`: available only once cryption keys are set. */
  function Crypter(fetcher: FRDFetcher): (r: Result<Keys, Error>)
    ensures r.Success? <==> fetcher.cryptionKeys.Some?
    ensures r.Success? ==> fetcher.cryptionKeys == Some(r.value)
    ensures r.Failure? ==> r.error == Fetch(FetchNoCryptionKeys)
  {
    match fetcher.cryptionKeys
    case None => Failure(Fetch(FetchNoCryptionKeys))
    case Some(keys) => Success(keys)
  }

  /** `cryptionKeys(_:)`: a copy with the keys set and the database kept. */
  function WithCryptionKeys(fetcher: FRDFetcher, keys: Keys): (r: FRDFetcher)
    ensures r.cryptionKeys == Some(keys) && r.databaseType == fetcher.databaseType
  {
    fetcher.(cryptionKeys := Some(keys))
  }

  /** `forTesting`: a copy reading the testing database, with the keys kept. */
  function ForTesting(fetcher: FRDFetcher): (r: FRDFetcher)
    ensures r.databaseType == DatabaseTypes.Testing && r.cryptionKeys == fetcher.cryptionKeys
  {
    fetcher.(databaseType := DatabaseTypes.Testing)
  }

  /** After `cryptionKeys(k)` the crypter uses `k`, whatever was set before and whichever database is read. */
  lemma CrypterUsesLastKeys(fetcher: FRDFetcher, keys: Keys)
    ensures Crypter(WithCryptionKeys(fetcher, keys)) == Success(keys)
    ensures Crypter(ForTesting(WithCryptionKeys(fetcher, keys))) == Success(keys)
    ensures Crypter(ForTesting(fetcher)) == Crypter(fetcher)
  {
  }

  /** The snapshot `getData()` yields at a path of the fetcher's database. */
  function Snapshot(fetcher: FRDFetcher, read: Reader, relativeUrl: string): DataSnapshot
  {
    read(DatabaseTypes.DatabaseUrl(fetcher.databaseType), relativeUrl)
  }

  /** `decode(_:from:)`: a snapshot without data fails; otherwise its key with its decoded value. */
  function Decode<V>(snapshot: DataSnapshot, decode: Json -> Decoded<V>): (r: Result<KeyValuePair<string, V>, Error>)
    ensures !(snapshot.present && snapshot.value.Some?) ==> r == Failure(Fetch(FetchNoDataInSnapshot))
    ensures snapshot.present && snapshot.value.Some? && decode(snapshot.value.value).Failure? ==>
              r == Failure(decode(snapshot.value.value).error)
    ensures snapshot.present && snapshot.value.Some? && decode(snapshot.value.value).Success? ==>
              r == Success(KeyValuePair(snapshot.key, decode(snapshot.value.value).value))
    ensures r.Success? ==> r.value.key == snapshot.key && snapshot.value.Some?
                           && decode(snapshot.value.value) == Success(r.value.value)
  {
    if !(snapshot.present && snapshot.value.Some?) then Failure(Fetch(FetchNoDataInSnapshot))
    else
      var value :- decode(snapshot.value.value);
      Success(KeyValuePair(snapshot.key, value))
  }

  /** `fetch(_:from:)`. */
  function FetchValue<V>(fetcher: FRDFetcher, read: Reader, relativeUrl: string, decode: Json -> Decoded<V>): (r: Result<KeyValuePair<string, V>, Error>)
    ensures var s := read(DatabaseTypes.DatabaseUrl(fetcher.databaseType), relativeUrl);
            !(s.present && s.value.Some?) ==> r == Failure(Fetch(FetchNoDataInSnapshot))
    ensures var s := read(DatabaseTypes.DatabaseUrl(fetcher.databaseType), relativeUrl);
            s.present && s.value.Some? ==>
              (r.Success? <==> decode(s.value.value).Success?)
              && (r.Success? ==> r.value == KeyValuePair(s.key, decode(s.value.value).value))
              && (r.Failure? ==> r.error == decode(s.value.value).error)
  {
    Decode(Snapshot(fetcher, read, relativeUrl), decode)
  }

  /** The closure `fetchChildren` maps over the children. */
  function DecodeChild<V>(child: Child, decode: Json -> Decoded<V>): (r: Result<KeyValuePair<string, V>, Error>)
    ensures child.NotASnapshot? ==> r == Failure(Fetch(ChildNoSnapshot))
    ensures child.ChildSnapshot? && !(child.snapshot.present && child.snapshot.value.Some?) ==>
              r == Failure(Fetch(FetchNoDataInSnapshot))
    ensures r.Success? ==> child.ChildSnapshot? && r.value.key == child.snapshot.key
                           && child.snapshot.value.Some? && decode(child.snapshot.value.value) == Success(r.value.value)
    ensures (child.ChildSnapshot? && child.snapshot.present && child.snapshot.value.Some?
             && decode(child.snapshot.value.value).Success?) ==> r.Success?
  {
    match child
    case NotASnapshot => Failure(Fetch(ChildNoSnapshot))
    case ChildSnapshot(s) => Decode(s, decode)
  }

  /**
   * `fetchChildren(_:from:)`: the location must exist and have children;
   * every child must be a snapshot and decode, the first one that does not
   * gives the error; the result is keyed by child key.
   */
  function FetchChildren<V>(fetcher: FRDFetcher, read: Reader, relativeUrl: string, decode: Json -> Decoded<V>): (r: Result<map<string, V>, Error>)
    ensures var s := Snapshot(fetcher, read, relativeUrl);
            !(s.present && HasChildren(s)) ==> r == Failure(Fetch(FetchNoDataInSnapshot))
    ensures var s := Snapshot(fetcher, read, relativeUrl);
            r.Success? <==> s.present && HasChildren(s) && forall i :: 0 <= i < |s.children| ==> DecodeChild(s.children[i], decode).Success?
    ensures var s := Snapshot(fetcher, read, relativeUrl);
            r.Failure? && s.present && HasChildren(s) ==>
              exists i :: 0 <= i < |s.children| && DecodeChild(s.children[i], decode) == Failure(r.error)
                          && forall j :: 0 <= j < i ==> DecodeChild(s.children[j], decode).Success?
    ensures var s := Snapshot(fetcher, read, relativeUrl);
            r.Success? ==> r.value.Keys == set i | 0 <= i < |s.children| && s.children[i].ChildSnapshot? :: s.children[i].snapshot.key
  {
    var snapshot := Snapshot(fetcher, read, relativeUrl);
    if !(snapshot.present && HasChildren(snapshot)) then Failure(Fetch(FetchNoDataInSnapshot))
    else
      var children :- TryMap(snapshot.children, (c: Child) => DecodeChild(c, decode));
      ChildKeys(snapshot.children, decode, children);
      Success(Dictionary(children))
  }

  /** The keys of the decoded children are the keys of the child snapshots. */
  lemma ChildKeys<V>(children: seq<Child>, decode: Json -> Decoded<V>, decoded: seq<KeyValuePair<string, V>>)
    requires |decoded| == |children|
    requires forall i :: 0 <= i < |children| ==> DecodeChild(children[i], decode) == Success(decoded[i])
    ensures (set i | 0 <= i < |decoded| :: decoded[i].key) == set i | 0 <= i < |children| && children[i].ChildSnapshot? :: children[i].snapshot.key
  {
    forall i | 0 <= i < |children|
      ensures children[i].ChildSnapshot? && decoded[i].key == children[i].snapshot.key
    {
      assert DecodeChild(children[i], decode).Success?;
    }
  }

  /** When no later child has the same key, a child's decoded value is the one fetched under its key. */
  lemma FetchChildrenLastWins<V>(fetcher: FRDFetcher, read: Reader, relativeUrl: string, decode: Json -> Decoded<V>, i: nat)
    requires FetchChildren(fetcher, read, relativeUrl, decode).Success?
    requires i < |Snapshot(fetcher, read, relativeUrl).children|
    requires var cs := Snapshot(fetcher, read, relativeUrl).children;
             forall j :: i < j < |cs| && cs[i].ChildSnapshot? && cs[j].ChildSnapshot? ==> cs[j].snapshot.key != cs[i].snapshot.key
    ensures var cs := Snapshot(fetcher, read, relativeUrl).children;
            var fetched := FetchChildren(fetcher, read, relativeUrl, decode).value;
            cs[i].ChildSnapshot? && cs[i].snapshot.key in fetched
            && DecodeChild(cs[i], decode) == Success(KeyValuePair(cs[i].snapshot.key, fetched[cs[i].snapshot.key]))
  {
    var cs := Snapshot(fetcher, read, relativeUrl).children;
    var decoded := TryMap(cs, (c: Child) => DecodeChild(c, decode)).value;
    forall j | 0 <= j < |cs|
      ensures cs[j].ChildSnapshot? && decoded[j].key == cs[j].snapshot.key
    {
      assert DecodeChild(cs[j], decode).Success?;
    }
    DictionaryLastWins(decoded, i);
  }

  /** `Club.ID(rawValue: UUID(uuidString:))`, failing with `snapshotKeyNoUUID`. */
  function ParseKey(key: string, error: Error): (r: Result<Uuids.Uuid, Error>)
    ensures r.Success? <==> Uuids.WellFormed(key)
    ensures r.Success? ==> Uuids.Parse(key) == Some(r.value)
    ensures r.Failure? ==> r.error == error
  {
    match Uuids.Parse(key)
    case None => Failure(error)
    case Some(id) => Success(id)
  }

  /**
   * `fetchClub(with:)`: the club record at the club's location, re-keyed by
   * its snapshot key read as a club id, seen through the pair's `IClub`
   * accessors.
   */
  ghost function FetchClub(fetcher: FRDFetcher, read: Reader, clubId: Uuids.Uuid): (r: Result<ProjectTypes.Club, Error>)
    ensures var fetched := FetchValue(fetcher, read, ClubPath(clubId), FRDClub.Decode);
            fetched.Failure? ==> r == Failure(fetched.error)
    ensures var fetched := FetchValue(fetcher, read, ClubPath(clubId), FRDClub.Decode);
            fetched.Success? && !Uuids.WellFormed(fetched.value.key) ==> r == Failure(Fetch(FetchSnapshotKeyNoUuid))
    ensures var fetched := FetchValue(fetcher, read, ClubPath(clubId), FRDClub.Decode);
            r.Success? ==> fetched.Success? && Uuids.Parse(fetched.value.key) == Some(r.value.id)
                           && FRDClub.FromInterface(r.value) == fetched.value.value
    ensures var fetched := FetchValue(fetcher, read, ClubPath(clubId), FRDClub.Decode);
            fetched.Success? && Uuids.WellFormed(fetched.value.key) ==> r.Success?
  {
    var club :- FetchValue(fetcher, read, ClubPath(clubId), FRDClub.Decode);
    var keyed :- club.MapKey((key: string) => ParseKey(key, Fetch(FetchSnapshotKeyNoUuid)));
    Success(FRDClub.AsClub(keyed))
  }

  /** The crypter and the decryption of one stored string: the keys are checked first. */
  function Decrypted(fetcher: FRDFetcher, decrypt: Decrypt, stored: string): (r: Result<Json, Error>)
    ensures fetcher.cryptionKeys.None? ==> r == Failure(Fetch(FetchNoCryptionKeys))
    ensures fetcher.cryptionKeys.Some? ==> r == decrypt(fetcher.cryptionKeys.value, stored)
  {
    var keys :- Crypter(fetcher);
    decrypt(keys, stored)
  }

  /**
   * `fetchLatePaymentInterest(of:)`: nil when the location has no data or the
   * decrypted payload is a tombstone; every other error propagates.
   */
  function FetchLatePaymentInterest(fetcher: FRDFetcher, read: Reader, decrypt: Decrypt, clubId: Uuids.Uuid): (r: Result<Option<ProjectTypes.LatePaymentInterest>, Error>)
    ensures var s := Snapshot(fetcher, read, LatePaymentInterestPath(clubId));
            !(s.present && s.value.Some?) ==> r == Success(None)
    ensures var s := Snapshot(fetcher, read, LatePaymentInterestPath(clubId));
            s.present && s.value.Some? && !s.value.value.JString? ==> r.Failure?
    ensures var s := Snapshot(fetcher, read, LatePaymentInterestPath(clubId));
            s.present && s.value.Some? && s.value.value.JString? ==>
              var payload := Decrypted(fetcher, decrypt, s.value.value.s);
              (payload.Failure? ==> r == Failure(payload.error))
              && (payload.Success? && FRDDeleted.IsTombstone(payload.value) ==> r == Success(None))
              && (payload.Success? && !FRDDeleted.IsTombstone(payload.value) ==>
                    (r.Success? <==> FRDLatePaymentInterest.Decode(payload.value).Success?)
                    && (r.Success? ==> r.value == Some(FRDLatePaymentInterest.ToInterface(FRDLatePaymentInterest.Decode(payload.value).value))))
  {
    var fetched := FetchValue(fetcher, read, LatePaymentInterestPath(clubId), DecodeString);
    if fetched == Failure(Fetch(FetchNoDataInSnapshot)) then Success(None)
    else
      var stored :- fetched;
      var payload :- Decrypted(fetcher, decrypt, stored.value);
      if FRDDeleted.IsTombstone(payload) then Success(None)
      else
        var interest :- FRDLatePaymentInterest.Decode(payload);
        Success(Some(FRDLatePaymentInterest.ToInterface(interest)))
  }

  /**
   * The closure `fetchListElements` maps over the entries: the key must be an
   * id (checked before anything is decrypted), a tombstone gives nil, and
   * any other payload is decoded and built into the element with that id.
   */
  function ListEntry<E, T>(fetcher: FRDFetcher, decrypt: Decrypt, decodeElement: Json -> Decoded<E>,
                           make: KeyValuePair<Uuids.Uuid, E> -> T, entry: KeyValuePair<string, string>)
    : (r: Result<Option<KeyValuePair<Uuids.Uuid, T>>, Error>)
    ensures !Uuids.WellFormed(entry.key) ==> r == Failure(Fetch(FetchSnapshotKeyNoUuid))
    ensures Uuids.WellFormed(entry.key) ==>
              var id := Uuids.Parse(entry.key).value;
              var payload := Decrypted(fetcher, decrypt, entry.value);
              (payload.Failure? ==> r == Failure(payload.error))
              && (payload.Success? && FRDDeleted.IsTombstone(payload.value) ==> r == Success(None))
              && (payload.Success? && !FRDDeleted.IsTombstone(payload.value) ==>
                    (r.Success? <==> decodeElement(payload.value).Success?)
                    && (r.Success? ==> r.value == Some(KeyValuePair(id, make(KeyValuePair(id, decodeElement(payload.value).value))))))
  {
    var id :- ParseKey(entry.key, Fetch(FetchSnapshotKeyNoUuid));
    var payload :- Decrypted(fetcher, decrypt, entry.value);
    if FRDDeleted.IsTombstone(payload) then Success(None)
    else
      var element :- decodeElement(payload);
      Success(Some(KeyValuePair(id, make(KeyValuePair(id, element)))))
  }

  /**
   * The entries of a fetched list turned into elements: visited in the
   * dictionary's unspecified order, each through `ListEntry`; the first error
   * is rethrown, tombstones are dropped, and the rest are keyed by id.
   */
  ghost function ListElements<E, T>(fetcher: FRDFetcher, decrypt: Decrypt, decodeElement: Json -> Decoded<E>,
                                    make: KeyValuePair<Uuids.Uuid, E> -> T, entries: map<string, string>)
    : (r: Result<map<Uuids.Uuid, T>, Error>)
    ensures (exists key :: key in entries && !Uuids.WellFormed(key)) ==> r.Failure?
    ensures r.Success? ==>
              forall key :: key in entries ==>
                var entry := ListEntry(fetcher, decrypt, decodeElement, make, KeyValuePair(key, entries[key]));
                entry.Success? && (entry.value.Some? ==> entry.value.value.key in r.value)
    ensures r.Success? ==>
              forall id: Uuids.Uuid :: id in r.value ==>
                exists key :: key in entries
                              && ListEntry(fetcher, decrypt, decodeElement, make, KeyValuePair(key, entries[key])) == Success(Some(KeyValuePair(id, r.value[id])))
    ensures (forall key :: key in entries ==>
               ListEntry(fetcher, decrypt, decodeElement, make, KeyValuePair(key, entries[key])).Success?) ==> r.Success?
  {
    var step := (entry: KeyValuePair<string, string>) => ListEntry(fetcher, decrypt, decodeElement, make, entry);
    BadKeyFails(entries, step);
    GoodEntriesSucceed(entries, step);
    var elements :- TryMap(KeyValues(entries), step);
    ListElementsFromEntries(fetcher, decrypt, decodeElement, make, entries);
    Success(Dictionary(Compact(elements)))
  }

  /** The list built from entries that all succeed: each entry's element is keyed, and each keyed element is an entry's. */
  lemma ListElementsFromEntries<E, T>(fetcher: FRDFetcher, decrypt: Decrypt, decodeElement: Json -> Decoded<E>,
                                      make: KeyValuePair<Uuids.Uuid, E> -> T, entries: map<string, string>)
    requires TryMap(KeyValues(entries), (entry: KeyValuePair<string, string>) => ListEntry(fetcher, decrypt, decodeElement, make, entry)).Success?
    ensures var elements := TryMap(KeyValues(entries), (entry: KeyValuePair<string, string>) => ListEntry(fetcher, decrypt, decodeElement, make, entry)).value;
            var d := Dictionary(Compact(elements));
            (forall key :: key in entries ==>
               var entry := ListEntry(fetcher, decrypt, decodeElement, make, KeyValuePair(key, entries[key]));
               entry.Success? && (entry.value.Some? ==> entry.value.value.key in d))
            && (forall id: Uuids.Uuid :: id in d ==>
                  exists key :: key in entries
                                && ListEntry(fetcher, decrypt, decodeElement, make, KeyValuePair(key, entries[key])) == Success(Some(KeyValuePair(id, d[id]))))
  {
    var step := (entry: KeyValuePair<string, string>) => ListEntry(fetcher, decrypt, decodeElement, make, entry);
    CompactedEntries(entries, step);
    var d := Dictionary(Compact(TryMap(KeyValues(entries), step).value));
    forall key | key in entries
      ensures step(KeyValuePair(key, entries[key])) == ListEntry(fetcher, decrypt, decodeElement, make, KeyValuePair(key, entries[key]))
    {
    }
    forall id | id in d
      ensures exists key :: key in entries
                            && ListEntry(fetcher, decrypt, decodeElement, make, KeyValuePair(key, entries[key])) == Success(Some(KeyValuePair(id, d[id])))
    {
      var key :| key in entries && step(KeyValuePair(key, entries[key])) == Success(Some(KeyValuePair(id, d[id])));
      assert ListEntry(fetcher, decrypt, decodeElement, make, KeyValuePair(key, entries[key])) == Success(Some(KeyValuePair(id, d[id])));
    }
  }

  /** `fetchListElements(of:path:)`: the list's entries are fetched as strings, then turned into elements. */
  ghost function FetchListElements<E, T>(fetcher: FRDFetcher, read: Reader, decrypt: Decrypt, clubId: Uuids.Uuid, list: ListPath,
                                         decodeElement: Json -> Decoded<E>, make: KeyValuePair<Uuids.Uuid, E> -> T)
    : (r: Result<map<Uuids.Uuid, T>, Error>)
    ensures var entries := FetchChildren(fetcher, read, ListPathOf(clubId, list), DecodeString);
            entries.Failure? ==> r == Failure(entries.error)
    ensures var entries := FetchChildren(fetcher, read, ListPathOf(clubId, list), DecodeString);
            entries.Success? ==> r == ListElements(fetcher, decrypt, decodeElement, make, entries.value)
  {
    var entries :- FetchChildren(fetcher, read, ListPathOf(clubId, list), DecodeString);
    ListElements(fetcher, decrypt, decodeElement, make, entries)
  }

  /** `ListCounts`: the total and the undeleted number of entries of a list. */
  datatype ListCounts = ListCounts(total: nat, undeleted: nat)

  /** The synthesised decoder of `ListCounts`: two unsigned whole numbers. */
  function DecodeListCounts(j: Json): (r: Decoded<ListCounts>)
    ensures r.Success? ==> j.JObject? && "total" in j.fields && "undeleted" in j.fields
                           && j.fields["total"] == JNumber(r.value.total as real)
                           && j.fields["undeleted"] == JNumber(r.value.undeleted as real)
    ensures r.Success? <==> && j.JObject?
                            && "total" in j.fields && DecodeUInt(j.fields["total"]).Success?
                            && "undeleted" in j.fields && DecodeUInt(j.fields["undeleted"]).Success?
    ensures !j.JObject? ==> r == Failure(Decoding(TypeMismatch))
    ensures j.JObject? && "total" !in j.fields ==> r == Failure(Decoding(KeyNotFound("total")))
    ensures (j.JObject? && "total" in j.fields && DecodeUInt(j.fields["total"]).Success? && "undeleted" !in j.fields)
              ==> r == Failure(Decoding(KeyNotFound("undeleted")))
  {
    var fields :- KeyedContainer(j);
    var total :- Field(fields, "total", DecodeUInt);
    var undeleted :- Field(fields, "undeleted", DecodeUInt);
    Success(ListCounts(total, undeleted))
  }

  /** `fetchPersonsCount(of:)` and its siblings: the counts stored under `listCounts/<segment>` of the club. */
  function FetchCount(fetcher: FRDFetcher, read: Reader, clubId: Uuids.Uuid, list: ListPath): (r: Result<ListCounts, Error>)
    ensures var s := Snapshot(fetcher, read, CountsPath(clubId, list));
            !(s.present && s.value.Some?) ==> r == Failure(Fetch(FetchNoDataInSnapshot))
    ensures var s := Snapshot(fetcher, read, CountsPath(clubId, list));
            r.Success? ==> s.value.Some? && DecodeListCounts(s.value.value) == Success(r.value)
    ensures var s := Snapshot(fetcher, read, CountsPath(clubId, list));
            s.present && s.value.Some? && DecodeListCounts(s.value.value).Success? ==>
              r == Success(DecodeListCounts(s.value.value).value)
  {
    var counts :- FetchValue(fetcher, read, CountsPath(clubId, list), DecodeListCounts);
    Success(counts.value)
  }

  /**
   * Mapping every entry to an optional pair and keying the present pairs:
   * each entry's pair is keyed, and each keyed value is some entry's pair.
   */
  lemma CompactedEntries<K, V, I, U>(entries: map<K, V>, f: KeyValuePair<K, V> -> Result<Option<KeyValuePair<I, U>>, Error>)
    requires TryMap(KeyValues(entries), f).Success?
    ensures var d := Dictionary(Compact(TryMap(KeyValues(entries), f).value));
            (forall key :: key in entries ==>
               f(KeyValuePair(key, entries[key])).Success?
               && (f(KeyValuePair(key, entries[key])).value.Some? ==> f(KeyValuePair(key, entries[key])).value.value.key in d))
            && (forall id :: id in d ==> exists key :: key in entries && f(KeyValuePair(key, entries[key])) == Success(Some(KeyValuePair(id, d[id]))))
  {
    var d := Dictionary(Compact(TryMap(KeyValues(entries), f).value));
    forall key | key in entries
      ensures f(KeyValuePair(key, entries[key])).Success?
      ensures f(KeyValuePair(key, entries[key])).value.Some? ==> f(KeyValuePair(key, entries[key])).value.value.key in d
    {
      CompactedEntryKept(entries, f, key);
    }
    forall id | id in d
      ensures exists key :: key in entries && f(KeyValuePair(key, entries[key])) == Success(Some(KeyValuePair(id, d[id])))
    {
      CompactedEntryOrigin(entries, f, id);
    }
  }

  /** One entry's present pair is keyed in the compacted dictionary. */
  lemma CompactedEntryKept<K, V, I, U>(entries: map<K, V>, f: KeyValuePair<K, V> -> Result<Option<KeyValuePair<I, U>>, Error>, key: K)
    requires TryMap(KeyValues(entries), f).Success? && key in entries
    ensures f(KeyValuePair(key, entries[key])).Success?
    ensures f(KeyValuePair(key, entries[key])).value.Some? ==>
              f(KeyValuePair(key, entries[key])).value.value.key in Dictionary(Compact(TryMap(KeyValues(entries), f).value))
  {
    var pairs := KeyValues(entries);
    var elements := TryMap(pairs, f).value;
    var compact := Compact(elements);
    KeyValuesComplete(entries, key);
    var i :| 0 <= i < |pairs| && pairs[i].key == key;
    assert pairs[i] == KeyValuePair(key, entries[key]);
    if elements[i].Some? {
      assert elements[i].value in compact;
      var m :| 0 <= m < |compact| && compact[m] == elements[i].value;
      assert compact[m].key in Dictionary(compact);
    }
  }

  /** One keyed value of the compacted dictionary is the pair of some entry. */
  lemma CompactedEntryOrigin<K, V, I, U>(entries: map<K, V>, f: KeyValuePair<K, V> -> Result<Option<KeyValuePair<I, U>>, Error>, id: I)
    requires TryMap(KeyValues(entries), f).Success?
    requires id in Dictionary(Compact(TryMap(KeyValues(entries), f).value))
    ensures var d := Dictionary(Compact(TryMap(KeyValues(entries), f).value));
            exists key :: key in entries && f(KeyValuePair(key, entries[key])) == Success(Some(KeyValuePair(id, d[id])))
  {
    var pairs := KeyValues(entries);
    var elements := TryMap(pairs, f).value;
    var compact := Compact(elements);
    var d := Dictionary(compact);
    DictionaryEntryFromPair(compact, id);
    var m :| 0 <= m < |compact| && compact[m] == KeyValuePair(id, d[id]);
    assert Some(compact[m]) in elements;
    var i :| 0 <= i < |elements| && elements[i] == Some(compact[m]);
    var key := pairs[i].key;
    assert pairs[i] == KeyValuePair(key, entries[key]);
    assert f(KeyValuePair(key, entries[key])) == Success(elements[i]);
  }

  /** A map over all entries succeeds when the transform of every entry succeeds. */
  lemma GoodEntriesSucceed<U>(entries: map<string, string>, f: KeyValuePair<string, string> -> Result<U, Error>)
    ensures (forall key :: key in entries ==> f(KeyValuePair(key, entries[key])).Success?) ==> TryMap(KeyValues(entries), f).Success?
  {
    var pairs := KeyValues(entries);
    forall i | 0 <= i < |pairs|
      ensures pairs[i] == KeyValuePair(pairs[i].key, entries[pairs[i].key])
    {
    }
  }

  /** A map over all entries fails when the transform of some entry fails. */
  lemma BadKeyFails<U>(entries: map<string, string>, f: KeyValuePair<string, string> -> Result<U, Error>)
    ensures (exists key :: key in entries && f(KeyValuePair(key, entries[key])).Failure?) ==> TryMap(KeyValues(entries), f).Failure?
  {
    if key :| key in entries && f(KeyValuePair(key, entries[key])).Failure? {
      KeyValuesComplete(entries, key);
    }
  }
}
