/**
 * `FFUpdatableParameter`: a property together with the time and the person of
 * its last update, written as the property's fields plus `updateProperties`.
 */
module FFUpdatable {
  import opened Wrappers
  import opened Errors
  import opened Json
  import opened ParameterValues
  import Uuids
  import Dates

  /** `UpdateProperties`. */
  datatype UpdateProperties = UpdateProperties(timestamp: Dates.Date, personId: Uuids.Uuid)

  datatype FFUpdatableParameter<T> = FFUpdatableParameter(property: T, updateProperties: UpdateProperties)

  /** `UpdateProperties.parameter`. */
  function UpdatePropertiesParameter(u: UpdateProperties): (r: map<string, InternalParameter>)
    ensures r.Keys == {"timestamp", "personId"}
  {
    map["timestamp" := OfDate(u.timestamp), "personId" := OfUuid(u.personId)]
  }

  /** `UpdateProperties.init(from:)`. */
  function DecodeUpdateProperties(j: Json): (r: Decoded<UpdateProperties>)
    ensures r.Success? <==> && j.JObject?
                            && "timestamp" in j.fields && j.fields["timestamp"] != JNull && DecodeDate(j.fields["timestamp"]).Success?
                            && "personId" in j.fields && j.fields["personId"] != JNull && DecodeUuid(j.fields["personId"]).Success?
    ensures r.Success? ==> DecodeDate(j.fields["timestamp"]) == Success(r.value.timestamp)
                           && DecodeUuid(j.fields["personId"]) == Success(r.value.personId)
    ensures !j.JObject? ==> r == Failure(Decoding(TypeMismatch))
  {
    var fields :- KeyedContainer(j);
    var timestamp :- Field(fields, "timestamp", DecodeDate);
    var personId :- Field(fields, "personId", DecodeUuid);
    Success(UpdateProperties(timestamp, personId))
  }

  lemma DecodeUpdatePropertiesRoundTrip(u: UpdateProperties)
    ensures DecodeUpdateProperties(ToJson(Dictionary(UpdatePropertiesParameter(u)))) == Success(u)
  {
    ToJsonDictionary(UpdatePropertiesParameter(u), "timestamp");
    ToJsonDictionary(UpdatePropertiesParameter(u), "personId");
    Uuids.ParseUuidString(u.personId);
  }

  /**
   * `parameter`: the property's fields merged with `updateProperties`; on a
   * clash the update properties win.
   */
  function Parameter<T>(u: FFUpdatableParameter<T>, propertyParameter: T -> map<string, InternalParameter>): (r: map<string, InternalParameter>)
    ensures r.Keys == propertyParameter(u.property).Keys + {"updateProperties"}
    ensures r["updateProperties"] == Dictionary(UpdatePropertiesParameter(u.updateProperties))
    ensures forall k :: k in propertyParameter(u.property) && k != "updateProperties" ==> r[k] == propertyParameter(u.property)[k]
  {
    propertyParameter(u.property) + map["updateProperties" := Dictionary(UpdatePropertiesParameter(u.updateProperties))]
  }

  /** `init(from:)`: `updateProperties` is required; the property is decoded from the same value. */
  function Decode<T>(j: Json, decodeProperty: Json -> Decoded<T>): (r: Decoded<FFUpdatableParameter<T>>)
    ensures r.Success? ==> j.JObject? && "updateProperties" in j.fields
    ensures r.Success? ==> DecodeUpdateProperties(j.fields["updateProperties"]) == Success(r.value.updateProperties)
    ensures r.Success? ==> decodeProperty(j) == Success(r.value.property)
  {
    var fields :- KeyedContainer(j);
    var updateProperties :- Field(fields, "updateProperties", DecodeUpdateProperties);
    var property :- decodeProperty(j);
    Success(FFUpdatableParameter(property, updateProperties))
  }

  /** An updatable value is read back when its property's decoder reads the property past the extra key. */
  lemma DecodeRoundTrip<T>(u: FFUpdatableParameter<T>, propertyParameter: T -> map<string, InternalParameter>,
                           decodeProperty: Json -> Decoded<T>)
    requires decodeProperty(ToJson(Dictionary(Parameter(u, propertyParameter)))) == Success(u.property)
    ensures Decode(ToJson(Dictionary(Parameter(u, propertyParameter))), decodeProperty) == Success(u)
  {
    ToJsonDictionary(Parameter(u, propertyParameter), "updateProperties");
    DecodeUpdatePropertiesRoundTrip(u.updateProperties);
  }

  /** Without `updateProperties` decoding fails, whatever the property would decode to. */
  lemma MissingUpdatePropertiesFails<T>(fields: map<string, Json>, decodeProperty: Json -> Decoded<T>)
    requires "updateProperties" !in fields
    ensures Decode(JObject(fields), decodeProperty) == Failure(Decoding(KeyNotFound("updateProperties")))
  {
  }
}
