/** `FFReasonTemplateParameter`: a reusable fine reason. */
module FFReasonTemplate {
  import opened Wrappers
  import opened Errors
  import opened Json
  import opened ParameterValues
  import Uuids
  import ProjectTypes
  import FFAmount
  import FFImportance

  datatype FFReasonTemplateParameter = FFReasonTemplateParameter(
    id: Uuids.Uuid,
    reasonMessage: string,
    amount: FFAmount.FFAmountParameter,
    importance: FFImportance.FFImportanceParameter)

  function Parameter(t: FFReasonTemplateParameter): (r: map<string, InternalParameter>)
    ensures r.Keys == {"id", "reasonMessage", "amount", "importance"}
  {
    map["id" := OfUuid(t.id),
        "reasonMessage" := String(t.reasonMessage),
        "amount" := FFAmount.Internal(t.amount),
        "importance" := FFImportance.Internal(t.importance)]
  }

  function Internal(t: FFReasonTemplateParameter): InternalParameter
  {
    Dictionary(Parameter(t))
  }

  /** `init(from:)`: all four fields required. */
  function Decode(j: Json): (r: Decoded<FFReasonTemplateParameter>)
    ensures r.Success? ==> j.JObject? && j.fields.Keys >= {"id", "reasonMessage", "amount", "importance"}
  {
    var fields :- KeyedContainer(j);
    var id :- Field(fields, "id", DecodeUuid);
    var reasonMessage :- Field(fields, "reasonMessage", DecodeString);
    var amount :- Field(fields, "amount", FFAmount.Decode);
    var importance :- Field(fields, "importance", FFImportance.Decode);
    Success(FFReasonTemplateParameter(id, reasonMessage, amount, importance))
  }

  lemma DecodeInternal(t: FFReasonTemplateParameter)
    ensures Decode(ToJson(Internal(t))) == Success(t)
  {
    ToJsonDictionary(Parameter(t), "id");
    ToJsonDictionary(Parameter(t), "reasonMessage");
    ToJsonDictionary(Parameter(t), "amount");
    ToJsonDictionary(Parameter(t), "importance");
    Uuids.ParseUuidString(t.id);
    FFAmount.DecodeInternal(t.amount);
    FFImportance.DecodeInternal(t.importance);
  }

  /** `init(_:)` from an `IReasonTemplate`: the amount and importance converted, the rest copied. */
  function FromInterface(t: ProjectTypes.ReasonTemplate): (r: FFReasonTemplateParameter)
    ensures r.id == t.id && r.reasonMessage == t.reasonMessage
    ensures r.amount == FFAmount.FromInterface(t.amount)
    ensures FFImportance.ConcreteImportance(r.importance) == t.importance
  {
    FFReasonTemplateParameter(t.id, t.reasonMessage, FFAmount.FromInterface(t.amount), FFImportance.FromInterface(t.importance))
  }

  /** The template seen through `IReasonTemplate`. */
  function ToInterface(t: FFReasonTemplateParameter): (r: ProjectTypes.ReasonTemplate)
    ensures FromInterface(r) == t
  {
    ProjectTypes.ReasonTemplate(t.id, t.reasonMessage, FFAmount.ToInterface(t.amount), FFImportance.ConcreteImportance(t.importance))
  }

  /** Converting to `IReasonTemplate` and back is the identity, and so is the other way round when the amount's hundredths are in range. */
  lemma InterfaceRoundTrip(t: FFReasonTemplateParameter, i: ProjectTypes.ReasonTemplate)
    ensures FromInterface(ToInterface(t)) == t
    ensures i.amount.subUnitValue <= 99 ==> ToInterface(FromInterface(i)) == i
  {
    FFAmount.InterfaceRoundTrip(t.amount, i.amount);
    FFImportance.InterfaceRoundTrip(t.importance, i.importance);
  }
}
