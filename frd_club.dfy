/**
 * `FRDClub`: the properties of a club as stored in the realtime database,
 * and the `IClub` view of a pair of a club id with those properties.
 */
module FRDClub {
  import opened Wrappers
  import opened Errors
  import opened Json
  import Uuids
  import ProjectTypes
  import opened KeyValuePairs

  datatype FRDClub = FRDClub(
    identifier: string,
    name: string,
    regionCode: string,
    inAppPaymentActive: bool,
    personUserIds: map<string, Uuids.Uuid>)

  /**
   * The synthesised decoder of `personUserIds`, a string-keyed object of
   * UUID strings. The decoder visits the keys in an unspecified order, so a
   * failure reports the error of some entry that does not decode.
   */
  ghost function DecodePersonUserIds(j: Json): (r: Decoded<map<string, Uuids.Uuid>>)
    ensures r.Success? <==> j.JObject? && forall k :: k in j.fields ==> DecodeUuid(j.fields[k]).Success?
    ensures r.Success? ==> r.value.Keys == j.fields.Keys
    ensures r.Success? ==> forall k :: k in r.value ==> Uuids.Parse(j.fields[k].s) == Some(r.value[k])
    ensures r.Failure? && j.JObject? ==> exists k :: k in j.fields && DecodeUuid(j.fields[k]) == Failure(r.error)
  {
    match j
    case JObject(fields) =>
      if forall k :: k in fields ==> DecodeUuid(fields[k]).Success? then
        Success(map k | k in fields :: DecodeUuid(fields[k]).value)
      else
        var k :| k in fields && DecodeUuid(fields[k]).Failure?;
        Failure(DecodeUuid(fields[k]).error)
    case _ => Mismatch(j)
  }

  /** The synthesised `init(from:)`: all five fields are required. */
  ghost function Decode(j: Json): (r: Decoded<FRDClub>)
    ensures r.Success? <==> && j.JObject?
                            && "identifier" in j.fields && j.fields["identifier"].JString?
                            && "name" in j.fields && j.fields["name"].JString?
                            && "regionCode" in j.fields && j.fields["regionCode"].JString?
                            && "inAppPaymentActive" in j.fields && j.fields["inAppPaymentActive"].JBool?
                            && "personUserIds" in j.fields && DecodePersonUserIds(j.fields["personUserIds"]).Success?
    ensures r.Success? ==> && r.value.identifier == j.fields["identifier"].s
                           && r.value.name == j.fields["name"].s
                           && r.value.regionCode == j.fields["regionCode"].s
                           && r.value.inAppPaymentActive == j.fields["inAppPaymentActive"].b
                           && r.value.personUserIds == DecodePersonUserIds(j.fields["personUserIds"]).value
    ensures !j.JObject? ==> r == Failure(Decoding(TypeMismatch))
  {
    var fields :- KeyedContainer(j);
    var identifier :- Field(fields, "identifier", DecodeString);
    var name :- Field(fields, "name", DecodeString);
    var regionCode :- Field(fields, "regionCode", DecodeString);
    var inAppPaymentActive :- Field(fields, "inAppPaymentActive", DecodeBool);
    var personUserIds :- Field(fields, "personUserIds", DecodePersonUserIds);
    Success(FRDClub(identifier, name, regionCode, inAppPaymentActive, personUserIds))
  }

  /** `init(_:)` from an `IClub`: every stored property is copied; the id is not part of the record. */
  function FromInterface(club: ProjectTypes.Club): (r: FRDClub)
    ensures r.identifier == club.identifier && r.name == club.name && r.regionCode == club.regionCode
    ensures r.inAppPaymentActive == club.inAppPaymentActive && r.personUserIds == club.personUserIds
  {
    FRDClub(club.identifier, club.name, club.regionCode, club.inAppPaymentActive, club.personUserIds)
  }

  /** `KeyValuePair.init(_:)` from an `IClub`: the club's id as key and its record as value. */
  function ClubPair(club: ProjectTypes.Club): (r: KeyValuePair<Uuids.Uuid, FRDClub>)
    ensures r.key == club.id && r.value == FromInterface(club)
  {
    KeyValuePair(club.id, FromInterface(club))
  }

  /** The `IClub` conformance of a pair: `id` is the key and every other accessor reads the value's field. */
  function AsClub(pair: KeyValuePair<Uuids.Uuid, FRDClub>): (club: ProjectTypes.Club)
    ensures club.id == pair.Id()
    ensures club.identifier == pair.value.identifier && club.name == pair.value.name
    ensures club.regionCode == pair.value.regionCode && club.inAppPaymentActive == pair.value.inAppPaymentActive
    ensures club.personUserIds == pair.value.personUserIds
  {
    ProjectTypes.Club(
      pair.key,
      pair.value.identifier,
      pair.value.name,
      pair.value.regionCode,
      pair.value.inAppPaymentActive,
      pair.value.personUserIds)
  }

  /** An `IClub` turned into a pair and read back through the pair's accessors is the same club, and conversely. */
  lemma ClubRoundTrips(club: ProjectTypes.Club, pair: KeyValuePair<Uuids.Uuid, FRDClub>)
    ensures AsClub(ClubPair(club)) == club
    ensures ClubPair(AsClub(pair)) == pair
  {
  }
}
