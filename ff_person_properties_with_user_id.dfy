/** `FFPersonPropertiesWithUserIdParameter`: a signed-in person with user id. */
module FFPersonPropertiesWithUserId {
  import opened Wrappers
  import opened Errors
  import opened Json
  import opened ParameterValues
  import Uuids
  import Dates
  import FFPersonName

  datatype FFPersonPropertiesWithUserIdParameter = FFPersonPropertiesWithUserIdParameter(
    id: Uuids.Uuid,
    signInDate: Dates.Date,
    userId: string,
    name: FFPersonName.FFPersonNameParameter)

  function Parameter(p: FFPersonPropertiesWithUserIdParameter): (r: map<string, InternalParameter>)
    ensures r.Keys == {"id", "signInDate", "userId", "name"}
  {
    map["id" := OfUuid(p.id),
        "signInDate" := OfDate(p.signInDate),
        "userId" := String(p.userId),
        "name" := FFPersonName.Internal(p.name)]
  }

  function Internal(p: FFPersonPropertiesWithUserIdParameter): InternalParameter
  {
    Dictionary(Parameter(p))
  }

  /** `init(from:)`: all four fields required. */
  function Decode(j: Json): (r: Decoded<FFPersonPropertiesWithUserIdParameter>)
    ensures r.Success? ==> j.JObject? && j.fields.Keys >= {"id", "signInDate", "userId", "name"}
  {
    var fields :- KeyedContainer(j);
    var id :- Field(fields, "id", DecodeUuid);
    var signInDate :- Field(fields, "signInDate", DecodeDate);
    var userId :- Field(fields, "userId", DecodeString);
    var name :- Field(fields, "name", FFPersonName.Decode);
    Success(FFPersonPropertiesWithUserIdParameter(id, signInDate, userId, name))
  }

  lemma DecodeInternal(p: FFPersonPropertiesWithUserIdParameter)
    ensures Decode(ToJson(Internal(p))) == Success(p)
  {
    ToJsonDictionary(Parameter(p), "id");
    ToJsonDictionary(Parameter(p), "signInDate");
    ToJsonDictionary(Parameter(p), "userId");
    ToJsonDictionary(Parameter(p), "name");
    Uuids.ParseUuidString(p.id);
    FFPersonName.DecodeInternal(p.name);
  }
}
