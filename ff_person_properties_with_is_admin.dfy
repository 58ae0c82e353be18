/** `FFPersonPropertiesWithIsAdminParameter`: a signed-in person with admin flag. */
module FFPersonPropertiesWithIsAdmin {
  import opened Wrappers
  import opened Errors
  import opened Json
  import opened ParameterValues
  import Uuids
  import Dates
  import FFPersonName

  datatype FFPersonPropertiesWithIsAdminParameter = FFPersonPropertiesWithIsAdminParameter(
    id: Uuids.Uuid,
    signInDate: Dates.Date,
    isAdmin: bool,
    name: FFPersonName.FFPersonNameParameter)

  function Parameter(p: FFPersonPropertiesWithIsAdminParameter): (r: map<string, InternalParameter>)
    ensures r.Keys == {"id", "signInDate", "isAdmin", "name"}
  {
    map["id" := OfUuid(p.id),
        "signInDate" := OfDate(p.signInDate),
        "isAdmin" := Bool(p.isAdmin),
        "name" := FFPersonName.Internal(p.name)]
  }

  function Internal(p: FFPersonPropertiesWithIsAdminParameter): InternalParameter
  {
    Dictionary(Parameter(p))
  }

  /** `init(from:)`: all four fields required. */
  function Decode(j: Json): (r: Decoded<FFPersonPropertiesWithIsAdminParameter>)
    ensures r.Success? ==> j.JObject? && j.fields.Keys >= {"id", "signInDate", "isAdmin", "name"}
  {
    var fields :- KeyedContainer(j);
    var id :- Field(fields, "id", DecodeUuid);
    var signInDate :- Field(fields, "signInDate", DecodeDate);
    var isAdmin :- Field(fields, "isAdmin", DecodeBool);
    var name :- Field(fields, "name", FFPersonName.Decode);
    Success(FFPersonPropertiesWithIsAdminParameter(id, signInDate, isAdmin, name))
  }

  lemma DecodeInternal(p: FFPersonPropertiesWithIsAdminParameter)
    ensures Decode(ToJson(Internal(p))) == Success(p)
  {
    ToJsonDictionary(Parameter(p), "id");
    ToJsonDictionary(Parameter(p), "signInDate");
    ToJsonDictionary(Parameter(p), "isAdmin");
    ToJsonDictionary(Parameter(p), "name");
    Uuids.ParseUuidString(p.id);
    FFPersonName.DecodeInternal(p.name);
  }
}
