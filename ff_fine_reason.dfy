/**
 * `FFFineReasonParameter`: a fine's reason, either a reason template's id or a
 * custom message with amount and importance. A present template id wins.
 */
module FFFineReason {
  import opened Wrappers
  import opened Errors
  import opened Json
  import opened ParameterValues
  import Uuids
  import FFAmount
  import FFImportance

  datatype FFFineReasonParameter =
    | Template(reasonTemplateId: Uuids.Uuid)
    | Custom(reasonMessage: string, amount: FFAmount.FFAmountParameter, importance: FFImportance.FFImportanceParameter)

  /** `parameter`: the template id alone, or the three custom fields. */
  function Parameter(f: FFFineReasonParameter): (r: map<string, InternalParameter>)
    ensures r.Keys == if f.Template? then {"reasonTemplateId"} else {"reasonMessage", "amount", "importance"}
  {
    match f
    case Template(id) => map["reasonTemplateId" := OfUuid(id)]
    case Custom(message, amount, importance) =>
      map["reasonMessage" := String(message),
          "amount" := FFAmount.Internal(amount),
          "importance" := FFImportance.Internal(importance)]
  }

  function Internal(f: FFFineReasonParameter): InternalParameter
  {
    Dictionary(Parameter(f))
  }

  /**
   * `init(from:)`: a template id that is present (and not null) must be a UUID
   * and makes a template reason; without one, the custom fields are required.
   */
  function Decode(j: Json): (r: Decoded<FFFineReasonParameter>)
    ensures !j.JObject? ==> r == Failure(Decoding(TypeMismatch))
    ensures r.Success? && r.value.Template? ==>
              j.JObject? && "reasonTemplateId" in j.fields && j.fields["reasonTemplateId"].JString?
              && Uuids.Parse(j.fields["reasonTemplateId"].s) == Some(r.value.reasonTemplateId)
    ensures r.Success? && r.value.Custom? ==>
              j.JObject? && ("reasonTemplateId" !in j.fields || j.fields["reasonTemplateId"] == JNull)
              && "reasonMessage" in j.fields && j.fields["reasonMessage"] == JString(r.value.reasonMessage)
              && "amount" in j.fields && FFAmount.Decode(j.fields["amount"]) == Success(r.value.amount)
              && "importance" in j.fields && FFImportance.Decode(j.fields["importance"]) == Success(r.value.importance)
    ensures (j.JObject? && ("reasonTemplateId" !in j.fields || j.fields["reasonTemplateId"] == JNull)
             && "reasonMessage" !in j.fields) ==> r == Failure(Decoding(KeyNotFound("reasonMessage")))
  {
    var fields :- KeyedContainer(j);
    var templateId :- FieldIfPresent(fields, "reasonTemplateId", DecodeUuid);
    if templateId.Some? then
      Success(Template(templateId.value))
    else
      var message :- Field(fields, "reasonMessage", DecodeString);
      var amount :- Field(fields, "amount", FFAmount.Decode);
      var importance :- Field(fields, "importance", FFImportance.Decode);
      Success(Custom(message, amount, importance))
  }

  /** A well-formed template id decides the reason, whatever custom fields sit beside it. */
  lemma TemplateIdWins(fields: map<string, Json>)
    requires "reasonTemplateId" in fields && fields["reasonTemplateId"].JString?
    requires Uuids.WellFormed(fields["reasonTemplateId"].s)
    ensures Decode(JObject(fields)) == Success(Template(Uuids.Parse(fields["reasonTemplateId"].s).value))
  {
  }

  /** A template id that is present but not a UUID is an error, not a fall-back to the custom fields. */
  lemma MalformedTemplateIdFails(fields: map<string, Json>)
    requires "reasonTemplateId" in fields && fields["reasonTemplateId"] != JNull
    requires !(fields["reasonTemplateId"].JString? && Uuids.WellFormed(fields["reasonTemplateId"].s))
    ensures Decode(JObject(fields)).Failure?
  {
  }

  /** Without a template id the reason is custom, or decoding fails. */
  lemma NoTemplateIdIsCustom(fields: map<string, Json>)
    requires "reasonTemplateId" !in fields || fields["reasonTemplateId"] == JNull
    ensures Decode(JObject(fields)).Success? ==> Decode(JObject(fields)).value.Custom?
    ensures Decode(JObject(fields)).Success? <==>
              ("reasonMessage" in fields && fields["reasonMessage"].JString?
               && "amount" in fields && FFAmount.Decode(fields["amount"]).Success?
               && "importance" in fields && FFImportance.Decode(fields["importance"]).Success?)
  {
  }

  lemma DecodeInternal(f: FFFineReasonParameter)
    ensures Decode(ToJson(Internal(f))) == Success(f)
  {
    match f
    case Template(id) =>
      ToJsonDictionary(Parameter(f), "reasonTemplateId");
      Uuids.ParseUuidString(id);
    case Custom(message, amount, importance) =>
      ToJsonDictionary(Parameter(f), "reasonMessage");
      ToJsonDictionary(Parameter(f), "amount");
      ToJsonDictionary(Parameter(f), "importance");
      FFAmount.DecodeInternal(amount);
      FFImportance.DecodeInternal(importance);
      assert "reasonTemplateId" !in ToJson(Internal(f)).fields;
  }
}
