/** `FFPersonParameter`: a person's id and name. */
module FFPerson {
  import opened Wrappers
  import opened Errors
  import opened Json
  import opened ParameterValues
  import Uuids
  import FFPersonName

  datatype FFPersonParameter = FFPersonParameter(id: Uuids.Uuid, name: FFPersonName.FFPersonNameParameter)

  function Parameter(p: FFPersonParameter): (r: map<string, InternalParameter>)
    ensures r.Keys == {"id", "name"}
  {
    map["id" := OfUuid(p.id), "name" := FFPersonName.Internal(p.name)]
  }

  function Internal(p: FFPersonParameter): InternalParameter
  {
    Dictionary(Parameter(p))
  }

  /** `init(from:)`: both fields required, the id a UUID. */
  function Decode(j: Json): (r: Decoded<FFPersonParameter>)
    ensures r.Success? <==> && j.JObject?
                            && "id" in j.fields && j.fields["id"].JString? && Uuids.Parse(j.fields["id"].s).Some?
                            && "name" in j.fields && FFPersonName.Decode(j.fields["name"]).Success?
    ensures r.Success? ==> && Some(r.value.id) == Uuids.Parse(j.fields["id"].s)
                           && FFPersonName.Decode(j.fields["name"]) == Success(r.value.name)
    ensures !j.JObject? ==> r == Failure(Decoding(TypeMismatch))
  {
    var fields :- KeyedContainer(j);
    var id :- Field(fields, "id", DecodeUuid);
    var name :- Field(fields, "name", FFPersonName.Decode);
    Success(FFPersonParameter(id, name))
  }

  lemma DecodeInternal(p: FFPersonParameter)
    ensures Decode(ToJson(Internal(p))) == Success(p)
  {
    ToJsonDictionary(Parameter(p), "id");
    ToJsonDictionary(Parameter(p), "name");
    Uuids.ParseUuidString(p.id);
    FFPersonName.DecodeInternal(p.name);
  }
}
