/**
 * `FRDFineReason`: a stored fine's reason, a reason template's id or a custom
 * message with amount and importance.
 */
module FRDFineReason {
  import opened Wrappers
  import opened Errors
  import opened Json
  import Uuids
  import FRDAmount
  import FRDImportance
  import FFFineReason
  import FFAmount

  datatype FRDFineReason =
    | Template(reasonTemplateId: Uuids.Uuid)
    | Custom(reasonMessage: string, amount: FRDAmount.Amount, importance: FRDImportance.FRDImportance)

  /**
   * `init(from:)`: a `reasonTemplateId` that is present (and not null) must be
   * a UUID and decides the reason; otherwise message, amount and importance
   * are all required.
   */
  function Decode(j: Json): (r: Decoded<FRDFineReason>)
    ensures r.Success? && r.value.Custom? ==>
              j.JObject? && ("reasonTemplateId" !in j.fields || j.fields["reasonTemplateId"] == JNull)
              && j.fields.Keys >= {"reasonMessage", "amount", "importance"}
    ensures r.Success? && r.value.Template? ==>
              j.JObject? && "reasonTemplateId" in j.fields && j.fields["reasonTemplateId"].JString?
              && Uuids.Parse(j.fields["reasonTemplateId"].s) == Some(r.value.reasonTemplateId)
  {
    var fields :- KeyedContainer(j);
    var templateId :- FieldIfPresent(fields, "reasonTemplateId", DecodeUuid);
    if templateId.Some? then
      Success(Template(templateId.value))
    else
      var message :- Field(fields, "reasonMessage", DecodeString);
      var amount :- Field(fields, "amount", FRDAmount.Decode);
      var importance :- Field(fields, "importance", FRDImportance.Decode);
      Success(Custom(message, amount, importance))
  }

  /** The same reason as a function-call fine reason. */
  function FromParameter(f: FFFineReason.FFFineReasonParameter): FRDFineReason
  {
    match f
    case Template(id) => Template(id)
    case Custom(message, amount, importance) =>
      Custom(message, FRDAmount.Amount(amount.value, amount.subUnitValue), FRDImportance.FromParameter(importance))
  }

  /** The database decoder and the function-call decoder apply the same key-priority rule and fail alike. */
  lemma DecodeAgreesWithFFFineReason(j: Json)
    ensures Decode(j).Success? <==> FFFineReason.Decode(j).Success?
    ensures Decode(j).Success? ==> Decode(j).value == FromParameter(FFFineReason.Decode(j).value)
    ensures Decode(j).Failure? ==> Decode(j).error == FFFineReason.Decode(j).error
  {
    if j.JObject? && ("reasonTemplateId" !in j.fields || j.fields["reasonTemplateId"] == JNull) {
      var fields := j.fields;
      if "amount" in fields && fields["amount"] != JNull {
        FRDAmount.DecodeAgreesWithFFAmount(fields["amount"]);
      }
      if "importance" in fields && fields["importance"] != JNull {
        FRDImportance.DecodeAgreesWithFFImportance(fields["importance"]);
      }
    }
  }
}
