/** `FFClubPropertiesParameter`: the properties of a club. */
module FFClubProperties {
  import opened Wrappers
  import opened Errors
  import opened Json
  import opened ParameterValues
  import Uuids

  datatype FFClubPropertiesParameter = FFClubPropertiesParameter(
    id: Uuids.Uuid,
    name: string,
    identifier: string,
    regionCode: string,
    inAppPaymentActive: bool)

  function Parameter(c: FFClubPropertiesParameter): (r: map<string, InternalParameter>)
    ensures r.Keys == {"id", "name", "identifier", "regionCode", "inAppPaymentActive"}
  {
    map["id" := OfUuid(c.id),
        "name" := String(c.name),
        "identifier" := String(c.identifier),
        "regionCode" := String(c.regionCode),
        "inAppPaymentActive" := Bool(c.inAppPaymentActive)]
  }

  function Internal(c: FFClubPropertiesParameter): InternalParameter
  {
    Dictionary(Parameter(c))
  }

  /** `init(from:)`: all five fields required, the id a UUID. */
  function Decode(j: Json): (r: Decoded<FFClubPropertiesParameter>)
    ensures r.Success? ==> j.JObject? && j.fields.Keys >= {"id", "name", "identifier", "regionCode", "inAppPaymentActive"}
    ensures r.Success? ==> j.fields["id"].JString? && Uuids.Parse(j.fields["id"].s) == Some(r.value.id)
  {
    var fields :- KeyedContainer(j);
    var id :- Field(fields, "id", DecodeUuid);
    var name :- Field(fields, "name", DecodeString);
    var identifier :- Field(fields, "identifier", DecodeString);
    var regionCode :- Field(fields, "regionCode", DecodeString);
    var inAppPaymentActive :- Field(fields, "inAppPaymentActive", DecodeBool);
    Success(FFClubPropertiesParameter(id, name, identifier, regionCode, inAppPaymentActive))
  }

  lemma DecodeInternal(c: FFClubPropertiesParameter)
    ensures Decode(ToJson(Internal(c))) == Success(c)
  {
    ToJsonDictionary(Parameter(c), "id");
    ToJsonDictionary(Parameter(c), "name");
    ToJsonDictionary(Parameter(c), "identifier");
    ToJsonDictionary(Parameter(c), "regionCode");
    ToJsonDictionary(Parameter(c), "inAppPaymentActive");
    Uuids.ParseUuidString(c.id);
  }
}
