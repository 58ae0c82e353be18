/**
 * `FRDDeleted`: the tombstone left in the database for a deleted record, an
 * object whose `deleted` field is `true`.
 */
module FRDDeleted {
  import opened Wrappers
  import opened Errors
  import opened Json
  import FFDeletable

  datatype FRDDeleted = FRDDeleted

  /** `init?(deleted:)`: only `true` makes a tombstone. */
  function Make(deleted: bool): (r: Option<FRDDeleted>)
    ensures r.Some? <==> deleted
  {
    if deleted then Some(FRDDeleted) else None
  }

  /** `deleted`: a tombstone always says it is deleted. */
  function Deleted(t: FRDDeleted): (r: bool)
    ensures Make(r) == Some(t)
  {
    match t
    case FRDDeleted => true
  }

  /** `init(from:)`: the `deleted` key must hold a Bool, and that Bool must be `true`. */
  function Decode(j: Json): (r: Decoded<FRDDeleted>)
    ensures r.Success? <==> j.JObject? && "deleted" in j.fields && j.fields["deleted"] == JBool(true)
  {
    var fields :- KeyedContainer(j);
    var deleted :- Field(fields, "deleted", DecodeBool);
    if deleted then Success(FRDDeleted) else Failure(Decoding(DataCorrupted))
  }

  /** Whether a payload is a tombstone: `try? decode(FRDDeleted.self, from:)` is not nil. */
  predicate IsTombstone(j: Json)
    ensures IsTombstone(j) <==> j.JObject? && "deleted" in j.fields && j.fields["deleted"] == JBool(true)
  {
    Decode(j).Success?
  }

  /** `deleted: false` is reported as corrupted data, a missing key as a missing key. */
  lemma DecodeFailures(fields: map<string, Json>)
    ensures "deleted" !in fields ==> Decode(JObject(fields)) == Failure(Decoding(KeyNotFound("deleted")))
    ensures "deleted" in fields && fields["deleted"] == JBool(false) ==> Decode(JObject(fields)) == Failure(Decoding(DataCorrupted))
  {
  }

  /** Only the `deleted` key is read: records that agree on it decode alike. */
  lemma DecodeReadsOnlyDeleted(fields: map<string, Json>, other: map<string, Json>)
    requires "deleted" in fields <==> "deleted" in other
    requires "deleted" in fields ==> fields["deleted"] == other["deleted"]
    ensures Decode(JObject(fields)) == Decode(JObject(other))
  {
  }

  /**
   * The tombstones this decoder recognises are exactly the values that the
   * function-call decoder of `FFDeletableParameter` reads as deletions.
   */
  lemma AgreesWithFFDeletable<T, Id>(fields: map<string, Json>, decodeItem: Json -> Decoded<T>, decodeId: Json -> Decoded<Id>)
    ensures Decode(JObject(fields)).Success? ==>
              FFDeletable.Decode(JObject(fields), decodeItem, decodeId) ==
              (match Field(fields, "id", decodeId)
               case Success(id) => Success(FFDeletable.Deleted(id))
               case Failure(e) => Failure(e))
    ensures Decode(JObject(fields)).Failure? && FFDeletable.Decode(JObject(fields), decodeItem, decodeId).Success? ==>
              FFDeletable.Decode(JObject(fields), decodeItem, decodeId).value.Item?
  {
  }
}
