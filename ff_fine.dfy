/** `FFFineParameter`: a fine, with its payed state stamped by the last update. */
module FFFine {
  import opened Wrappers
  import opened Errors
  import opened Json
  import opened ParameterValues
  import Uuids
  import Dates
  import FFPayedState
  import FFUpdatable
  import FFFineReason

  datatype FFFineParameter = FFFineParameter(
    id: Uuids.Uuid,
    personId: Uuids.Uuid,
    payedState: FFUpdatable.FFUpdatableParameter<FFPayedState.FFPayedStateParameter>,
    number: int,
    date: Dates.Date,
    fineReason: FFFineReason.FFFineReasonParameter)

  /** The payed state's parameter: its own fields plus `updateProperties`. */
  function PayedStateParameter(u: FFUpdatable.FFUpdatableParameter<FFPayedState.FFPayedStateParameter>): map<string, InternalParameter>
  {
    FFUpdatable.Parameter(u, FFPayedState.Parameter)
  }

  /** `parameter`; `number` is sent as a signed integer. */
  function Parameter(f: FFFineParameter): (r: map<string, InternalParameter>)
    ensures r.Keys == {"id", "personId", "payedState", "number", "date", "fineReason"}
    ensures r["number"] == Int(f.number)
  {
    map["id" := OfUuid(f.id),
        "personId" := OfUuid(f.personId),
        "payedState" := Dictionary(PayedStateParameter(f.payedState)),
        "number" := Int(f.number),
        "date" := OfDate(f.date),
        "fineReason" := FFFineReason.Internal(f.fineReason)]
  }

  function Internal(f: FFFineParameter): InternalParameter
  {
    Dictionary(Parameter(f))
  }

  /** The payed state's decoder: an updatable payed state. */
  function DecodePayedState(j: Json): Decoded<FFUpdatable.FFUpdatableParameter<FFPayedState.FFPayedStateParameter>>
  {
    FFUpdatable.Decode(j, FFPayedState.Decode)
  }

  /** An updatable payed state is read back: the payed state's decoder skips `updateProperties`. */
  lemma DecodePayedStateRoundTrip(u: FFUpdatable.FFUpdatableParameter<FFPayedState.FFPayedStateParameter>)
    ensures DecodePayedState(ToJson(Dictionary(PayedStateParameter(u)))) == Success(u)
  {
    var whole := PayedStateParameter(u);
    var own := FFPayedState.Parameter(u.property);
    forall k | k in {"state", "inApp", "payDate"}
      ensures k in ToJson(Dictionary(whole)).fields <==> k in ToJson(Dictionary(own)).fields
      ensures k in own ==> ToJson(Dictionary(whole)).fields[k] == ToJson(Dictionary(own)).fields[k]
    {
      if k in own {
        ToJsonDictionary(whole, k);
        ToJsonDictionary(own, k);
      }
    }
    FFPayedState.DecodeFieldsIgnoresOtherKeys(ToJson(Dictionary(whole)).fields, ToJson(Dictionary(own)).fields);
    FFPayedState.DecodeInternal(u.property);
    FFUpdatable.DecodeRoundTrip(u, FFPayedState.Parameter, FFPayedState.Decode);
  }

  /** `init(from:)`: all six fields required. */
  function Decode(j: Json): (r: Decoded<FFFineParameter>)
    ensures r.Success? ==> j.JObject? && j.fields.Keys >= {"id", "personId", "payedState", "number", "date", "fineReason"}
  {
    var fields :- KeyedContainer(j);
    var id :- Field(fields, "id", DecodeUuid);
    var personId :- Field(fields, "personId", DecodeUuid);
    var payedState :- Field(fields, "payedState", DecodePayedState);
    var number :- Field(fields, "number", DecodeInt);
    var date :- Field(fields, "date", DecodeDate);
    var fineReason :- Field(fields, "fineReason", FFFineReason.Decode);
    Success(FFFineParameter(id, personId, payedState, number, date, fineReason))
  }

  /** Decoding succeeds with the fine whose fields each decode to its parts. */
  lemma DecodeOfFields(fields: map<string, Json>, f: FFFineParameter)
    requires Field(fields, "id", DecodeUuid) == Success(f.id)
    requires Field(fields, "personId", DecodeUuid) == Success(f.personId)
    requires Field(fields, "payedState", DecodePayedState) == Success(f.payedState)
    requires Field(fields, "number", DecodeInt) == Success(f.number)
    requires Field(fields, "date", DecodeDate) == Success(f.date)
    requires Field(fields, "fineReason", FFFineReason.Decode) == Success(f.fineReason)
    ensures Decode(JObject(fields)) == Success(f)
  {
  }

  lemma DecodeInternal(f: FFFineParameter)
    ensures Decode(ToJson(Internal(f))) == Success(f)
  {
    IdRoundTrip(f);
    PersonIdRoundTrip(f);
    PayedStateRoundTrip(f);
    NumberRoundTrip(f);
    DateRoundTrip(f);
    FineReasonRoundTrip(f);
    DecodeOfFields(ToJson(Internal(f)).fields, f);
  }

  /** The sent `id` reads back as the fine's id. */
  lemma IdRoundTrip(f: FFFineParameter)
    ensures ToJson(Internal(f)).JObject? && Field(ToJson(Internal(f)).fields, "id", DecodeUuid) == Success(f.id)
  {
    ToJsonDictionary(Parameter(f), "id");
    Uuids.ParseUuidString(f.id);
  }

  /** The sent `personId` reads back as the fine's person. */
  lemma PersonIdRoundTrip(f: FFFineParameter)
    ensures ToJson(Internal(f)).JObject? && Field(ToJson(Internal(f)).fields, "personId", DecodeUuid) == Success(f.personId)
  {
    ToJsonDictionary(Parameter(f), "personId");
    Uuids.ParseUuidString(f.personId);
  }

  /** The sent `payedState` reads back with its update properties. */
  lemma PayedStateRoundTrip(f: FFFineParameter)
    ensures ToJson(Internal(f)).JObject? && Field(ToJson(Internal(f)).fields, "payedState", DecodePayedState) == Success(f.payedState)
  {
    ToJsonDictionary(Parameter(f), "payedState");
    DecodePayedStateRoundTrip(f.payedState);
  }

  /** The sent `number` reads back as the fine's number. */
  lemma NumberRoundTrip(f: FFFineParameter)
    ensures ToJson(Internal(f)).JObject? && Field(ToJson(Internal(f)).fields, "number", DecodeInt) == Success(f.number)
  {
    ToJsonDictionary(Parameter(f), "number");
  }

  /** The sent `date` reads back as the fine's date. */
  lemma DateRoundTrip(f: FFFineParameter)
    ensures ToJson(Internal(f)).JObject? && Field(ToJson(Internal(f)).fields, "date", DecodeDate) == Success(f.date)
  {
    ToJsonDictionary(Parameter(f), "date");
  }

  /** The sent `fineReason` reads back as the fine's reason. */
  lemma FineReasonRoundTrip(f: FFFineParameter)
    ensures ToJson(Internal(f)).JObject? && Field(ToJson(Internal(f)).fields, "fineReason", FFFineReason.Decode) == Success(f.fineReason)
  {
    ToJsonDictionary(Parameter(f), "fineReason");
    FFFineReason.DecodeInternal(f.fineReason);
  }

  /** A payed state without `updateProperties` does not decode, so neither does the fine. */
  lemma PayedStateNeedsUpdateProperties(fields: map<string, Json>)
    requires "id" in fields && DecodeUuid(fields["id"]).Success?
    requires "personId" in fields && DecodeUuid(fields["personId"]).Success?
    requires "payedState" in fields && fields["payedState"].JObject?
    requires "updateProperties" !in fields["payedState"].fields
    ensures Decode(JObject(fields)).Failure?
  {
  }
}
