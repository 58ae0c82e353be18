/**
 * What the fetcher and the observer read from the realtime database, and the
 * decryption they apply to stored values. Reading and decrypting are outside
 * this package, so both are parameters of the operations that use them.
 */
module Snapshots {
  import opened Wrappers
  import opened Errors
  import opened Json
  import Uuids

  /**
   * `DataSnapshot`: the key of the location, whether data exists there, its
   * value as a JSON document, and its children in the order the database
   * enumerates them.
   */
  datatype DataSnapshot = DataSnapshot(key: string, present: bool, value: Option<Json>, children: seq<Child>)

  /** An element of `DataSnapshot.children`, which the SDK types as `Any`. */
  datatype Child = ChildSnapshot(snapshot: DataSnapshot) | NotASnapshot

  /** `DataSnapshot.hasChildren()`. */
  predicate HasChildren(s: DataSnapshot)
  {
    |s.children| > 0
  }

  /** `getData()` at a path below a database URL. */
  type Reader = (string, string) -> DataSnapshot

  /** `Crypter.Keys`: the key material, which this package only passes on. */
  datatype Keys = Keys(material: string)

  /**
   * `Crypter(keys:).decryptAesAndVernam(_:)` applied to a stored string,
   * followed by JSON parsing of the plain text; either step may fail.
   */
  type Decrypt = (Keys, string) -> Result<Json, Error>

  /** The lists stored under a club. */
  datatype ListPath = Persons | ReasonTemplates | Fines

  /** Path segment of a list below its club. */
  function Segment(list: ListPath): (r: string)
    ensures r in {"persons", "reasonTemplates", "fines"}
  {
    match list
    case Persons => "persons"
    case ReasonTemplates => "reasonTemplates"
    case Fines => "fines"
  }

  /** The three lists are stored under distinct segments. */
  lemma SegmentsDistinct(a: ListPath, b: ListPath)
    ensures Segment(a) == Segment(b) <==> a == b
  {
  }

  /** `URL(string: clubId.uuidString)`: a club's own location. */
  function ClubPath(clubId: Uuids.Uuid): (r: string)
    ensures |r| == 36 && Uuids.Parse(r) == Some(clubId)
  {
    Uuids.ParseUuidString(clubId);
    Uuids.UuidString(clubId)
  }

  /** `URL(string:)!.appending(path:)`: a segment below a location, joined by a slash. */
  function Appending(path: string, segment: string): (r: string)
    ensures |r| == |path| + 1 + |segment| && r[..|path|] == path && r[|path|] == '/' && r[|path| + 1..] == segment
  {
    path + "/" + segment
  }

  /** `"\(clubId.uuidString)/latePaymentInterest"`. */
  function LatePaymentInterestPath(clubId: Uuids.Uuid): string
  {
    Appending(ClubPath(clubId), "latePaymentInterest")
  }

  /** The location of a list of a club. */
  function ListPathOf(clubId: Uuids.Uuid, list: ListPath): string
  {
    Appending(ClubPath(clubId), Segment(list))
  }

  /** The location of the total and undeleted counts of a list of a club. */
  function CountsPath(clubId: Uuids.Uuid, list: ListPath): string
  {
    Appending(ClubPath(clubId), "listCounts/" + Segment(list))
  }

  /**
   * The locations read for one club are pairwise distinct: each list has its
   * own location and its own counts, and neither is the late payment interest.
   */
  lemma ClubLocationsDistinct(clubId: Uuids.Uuid, a: ListPath, b: ListPath)
    ensures ListPathOf(clubId, a) == ListPathOf(clubId, b) <==> a == b
    ensures CountsPath(clubId, a) == CountsPath(clubId, b) <==> a == b
    ensures ListPathOf(clubId, a) != CountsPath(clubId, b)
    ensures ListPathOf(clubId, a) != LatePaymentInterestPath(clubId)
    ensures CountsPath(clubId, a) != LatePaymentInterestPath(clubId)
  {
    ListPathsApart(clubId, a, b);
    CountsPathsApart(clubId, a, b);
    ListApartFromCounts(clubId, a, b);
    ApartFromLatePaymentInterest(clubId, a);
  }

  /** Different lists have different locations: the segment after the club id tells them apart. */
  lemma ListPathsApart(clubId: Uuids.Uuid, a: ListPath, b: ListPath)
    ensures ListPathOf(clubId, a) == ListPathOf(clubId, b) ==> a == b
  {
    var n := |ClubPath(clubId)| + 1;
    if ListPathOf(clubId, a) == ListPathOf(clubId, b) {
      assert ListPathOf(clubId, a)[n..] == Segment(a);
      assert ListPathOf(clubId, b)[n..] == Segment(b);
    }
  }

  /** Different lists have different counts locations. */
  lemma CountsPathsApart(clubId: Uuids.Uuid, a: ListPath, b: ListPath)
    ensures CountsPath(clubId, a) == CountsPath(clubId, b) ==> a == b
  {
    var n := |ClubPath(clubId)| + 1;
    if CountsPath(clubId, a) == CountsPath(clubId, b) {
      assert CountsPath(clubId, a)[n + 11..] == Segment(a);
      assert CountsPath(clubId, b)[n + 11..] == Segment(b);
    }
  }

  /** A list's location is never a counts location: they differ at the fifth letter after the club id. */
  lemma ListApartFromCounts(clubId: Uuids.Uuid, a: ListPath, b: ListPath)
    ensures ListPathOf(clubId, a) != CountsPath(clubId, b)
  {
    var n := |ClubPath(clubId)| + 1;
    assert CountsPath(clubId, b)[n + 4] == 'C';
    assert ListPathOf(clubId, a)[n + 4] == Segment(a)[4] != 'C';
  }

  /** Neither a list's location nor its counts location is the late payment interest. */
  lemma ApartFromLatePaymentInterest(clubId: Uuids.Uuid, a: ListPath)
    ensures ListPathOf(clubId, a) != LatePaymentInterestPath(clubId)
    ensures CountsPath(clubId, a) != LatePaymentInterestPath(clubId)
  {
    var n := |ClubPath(clubId)| + 1;
    assert LatePaymentInterestPath(clubId)[n] == 'l';
    assert LatePaymentInterestPath(clubId)[n + 1] == 'a';
    assert CountsPath(clubId, a)[n + 1] == 'i';
  }
}
