/** `FFPayedStateParameter`: whether a fine is payed (in the app or not, and when), unpayed or settled. */
module FFPayedState {
  import opened Wrappers
  import opened Errors
  import opened Json
  import opened ParameterValues
  import Dates

  datatype FFPayedStateParameter = Payed(inApp: bool, payDate: Dates.Date) | Unpayed | Settled

  /** The value of the `state` key for each case. */
  function StateName(s: FFPayedStateParameter): string
  {
    match s
    case Payed(_, _) => "payed"
    case Unpayed => "unpayed"
    case Settled => "settled"
  }

  /** `parameter`: the state name, and for a payed fine also `inApp` and `payDate`. */
  function Parameter(s: FFPayedStateParameter): (r: map<string, InternalParameter>)
    ensures r.Keys == if s.Payed? then {"state", "inApp", "payDate"} else {"state"}
    ensures r["state"] == String(StateName(s))
  {
    match s
    case Payed(inApp, payDate) =>
      map["state" := String("payed"), "inApp" := Bool(inApp), "payDate" := OfDate(payDate)]
    case Unpayed => map["state" := String("unpayed")]
    case Settled => map["state" := String("settled")]
  }

  function Internal(s: FFPayedStateParameter): InternalParameter
  {
    Dictionary(Parameter(s))
  }

  /**
   * Fields a payed state can be read from: a known `state` string, and for
   * `payed` also a Bool `inApp` and a date string `payDate`.
   */
  predicate ReadableFields(fields: map<string, Json>)
  {
    && "state" in fields && fields["state"].JString?
    && (|| fields["state"].s == "unpayed"
        || fields["state"].s == "settled"
        || (&& fields["state"].s == "payed"
            && "inApp" in fields && fields["inApp"].JBool?
            && "payDate" in fields && fields["payDate"].JString?))
  }

  /** `init(from:)` on the fields of an object: `state` first, then for `payed` the two extra fields. */
  function DecodeFields(fields: map<string, Json>): (r: Decoded<FFPayedStateParameter>)
    ensures r.Success? <==> ReadableFields(fields)
    ensures r.Success? ==> fields["state"] == JString(StateName(r.value))
    ensures r.Success? && r.value.Payed? ==> r.value == Payed(fields["inApp"].b, Dates.Date(fields["payDate"].s))
    ensures "state" !in fields ==> r == Failure(Decoding(KeyNotFound("state")))
    ensures ("state" in fields && fields["state"].JString? && fields["state"].s !in {"payed", "unpayed", "settled"})
              ==> r == Failure(Decoding(DataCorrupted))
    ensures ("state" in fields && fields["state"] == JString("payed") && "inApp" !in fields)
              ==> r == Failure(Decoding(KeyNotFound("inApp")))
    ensures ("state" in fields && fields["state"] == JString("payed") && "inApp" in fields && fields["inApp"].JBool?
             && "payDate" !in fields)
              ==> r == Failure(Decoding(KeyNotFound("payDate")))
  {
    var state :- Field(fields, "state", DecodeString);
    if state == "payed" then
      var inApp :- Field(fields, "inApp", DecodeBool);
      var payDate :- Field(fields, "payDate", DecodeDate);
      Success(Payed(inApp, payDate))
    else if state == "unpayed" then Success(Unpayed)
    else if state == "settled" then Success(Settled)
    else Failure(Decoding(DataCorrupted))
  }

  /** `init(from:)`: a keyed container, read by its fields. */
  function Decode(j: Json): (r: Decoded<FFPayedStateParameter>)
    ensures !j.JObject? ==> r == Failure(Decoding(TypeMismatch))
    ensures j.JObject? ==> r == DecodeFields(j.fields)
  {
    var fields :- KeyedContainer(j);
    DecodeFields(fields)
  }

  /** The decoder reads only `state`, `inApp` and `payDate`; other keys do not matter. */
  lemma DecodeFieldsIgnoresOtherKeys(fields: map<string, Json>, other: map<string, Json>)
    requires forall k :: k in {"state", "inApp", "payDate"} ==> (k in fields <==> k in other)
    requires forall k :: k in {"state", "inApp", "payDate"} && k in fields ==> fields[k] == other[k]
    ensures DecodeFields(fields) == DecodeFields(other)
  {
    assert "state" in fields <==> "state" in other;
    assert "inApp" in fields <==> "inApp" in other;
    assert "payDate" in fields <==> "payDate" in other;
  }

  lemma DecodeInternal(s: FFPayedStateParameter)
    ensures Decode(ToJson(Internal(s))) == Success(s)
  {
    ToJsonDictionary(Parameter(s), "state");
    if s.Payed? {
      ToJsonDictionary(Parameter(s), "inApp");
      ToJsonDictionary(Parameter(s), "payDate");
    }
  }
}
