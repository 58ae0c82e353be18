/**
 * `FFDeletableParameter`: an item, or the id of an item that was deleted,
 * written as `{id, deleted: true}`.
 */
module FFDeletable {
  import opened Wrappers
  import opened Errors
  import opened Json
  import opened ParameterValues

  datatype FFDeletableParameter<T, Id> = Item(item: T) | Deleted(id: Id)

  /** `parameter`: the item's own fields, or the id with `deleted: true`. */
  function Parameter<T, Id>(d: FFDeletableParameter<T, Id>,
                            itemParameter: T -> map<string, InternalParameter>,
                            idParameter: Id -> InternalParameter): (r: map<string, InternalParameter>)
    ensures d.Item? ==> r == itemParameter(d.item)
    ensures d.Deleted? ==> r.Keys == {"id", "deleted"} && r["id"] == idParameter(d.id) && r["deleted"] == Bool(true)
  {
    match d
    case Item(item) => itemParameter(item)
    case Deleted(id) => map["id" := idParameter(id), "deleted" := Bool(true)]
  }

  /**
   * `init(from:)`: when the value is an object whose `deleted` is `true`, the
   * `id` is required and the result is a deletion; a `deleted` that is present
   * but not a Bool is an error; in every other case the item is decoded from
   * the whole value.
   */
  function Decode<T, Id>(j: Json, decodeItem: Json -> Decoded<T>, decodeId: Json -> Decoded<Id>): (r: Decoded<FFDeletableParameter<T, Id>>)
    ensures (j.JObject? && "deleted" in j.fields && j.fields["deleted"] == JBool(true)) ==>
              (r.Success? <==> "id" in j.fields && j.fields["id"] != JNull && decodeId(j.fields["id"]).Success?)
              && (r.Success? ==> r.value == Deleted(decodeId(j.fields["id"]).value))
    ensures (!j.JObject? || "deleted" !in j.fields || j.fields["deleted"] in {JNull, JBool(false)}) ==>
              (r.Success? <==> decodeItem(j).Success?)
              && (r.Success? ==> r.value == Item(decodeItem(j).value))
    ensures (j.JObject? && "deleted" in j.fields && !j.fields["deleted"].JBool? && j.fields["deleted"] != JNull) ==>
              r == Failure(Decoding(TypeMismatch))
  {
    if j.JObject? then
      var deleted :- FieldIfPresent(j.fields, "deleted", DecodeBool);
      if deleted == Some(true) then
        var id :- Field(j.fields, "id", decodeId);
        Success(Deleted(id))
      else
        DecodeItem(j, decodeItem)
    else
      DecodeItem(j, decodeItem)
  }

  /** The item branch: `T(from: decoder)`. */
  function DecodeItem<T, Id>(j: Json, decodeItem: Json -> Decoded<T>): (r: Decoded<FFDeletableParameter<T, Id>>)
    ensures r.Success? <==> decodeItem(j).Success?
    ensures r.Success? ==> r.value == Item(decodeItem(j).value)
    ensures r.Failure? ==> r.error == decodeItem(j).error
  {
    var item :- decodeItem(j);
    Success(Item(item))
  }

  /** A deletion marker decodes to a deletion when its id does. */
  lemma DecodeDeleted<T, Id>(id: Id, itemParameter: T -> map<string, InternalParameter>,
                             idParameter: Id -> InternalParameter,
                             decodeItem: Json -> Decoded<T>, decodeId: Json -> Decoded<Id>)
    requires ToJson(idParameter(id)) != JNull
    requires decodeId(ToJson(idParameter(id))) == Success(id)
    ensures Decode(ToJson(Dictionary(Parameter(Deleted(id), itemParameter, idParameter))), decodeItem, decodeId)
            == Success(Deleted(id))
  {
    var d: FFDeletableParameter<T, Id> := Deleted(id);
    ToJsonDictionary(Parameter(d, itemParameter, idParameter), "deleted");
    ToJsonDictionary(Parameter(d, itemParameter, idParameter), "id");
  }

  /** An item without a `deleted` field decodes to that item when the item's own decoder reads it back. */
  lemma DecodeItemRoundTrip<T, Id>(item: T, itemParameter: T -> map<string, InternalParameter>,
                                   idParameter: Id -> InternalParameter,
                                   decodeItem: Json -> Decoded<T>, decodeId: Json -> Decoded<Id>)
    requires "deleted" !in itemParameter(item)
    requires decodeItem(ToJson(Dictionary(itemParameter(item)))) == Success(item)
    ensures Decode(ToJson(Dictionary(Parameter(Item(item), itemParameter, idParameter))), decodeItem, decodeId)
            == Success(Item(item))
  {
  }

  /** `deleted: false`, or no `deleted` at all, means the value is an item. */
  lemma NotDeletedIsItem<T, Id>(fields: map<string, Json>, decodeItem: Json -> Decoded<T>, decodeId: Json -> Decoded<Id>)
    requires "deleted" !in fields || fields["deleted"] in {JNull, JBool(false)}
    ensures Decode(JObject(fields), decodeItem, decodeId) == DecodeItem(JObject(fields), decodeItem)
  {
  }

  /** `deleted: true` without an id is an error. */
  lemma DeletedWithoutIdFails<T, Id>(fields: map<string, Json>, decodeItem: Json -> Decoded<T>, decodeId: Json -> Decoded<Id>)
    requires "deleted" in fields && fields["deleted"] == JBool(true)
    requires "id" !in fields
    ensures Decode(JObject(fields), decodeItem, decodeId) == Failure(Decoding(KeyNotFound("id")))
  {
  }

  /** A `deleted` field that is not a Bool is an error, even if the item would decode. */
  lemma NonBoolDeletedFails<T, Id>(fields: map<string, Json>, decodeItem: Json -> Decoded<T>, decodeId: Json -> Decoded<Id>)
    requires "deleted" in fields && !fields["deleted"].JBool? && fields["deleted"] != JNull
    ensures Decode(JObject(fields), decodeItem, decodeId) == Failure(Decoding(TypeMismatch))
  {
  }
}
