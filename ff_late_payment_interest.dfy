/** `FFLatePaymentInterestParameter`: interest charged on fines paid late. */
module FFLatePaymentInterest {
  import opened Wrappers
  import opened Errors
  import opened Json
  import opened ParameterValues

  /** `TimePeriod.Unit`. */
  datatype Unit = Day | Month | Year

  function UnitRawValue(u: Unit): string
  {
    match u
    case Day => "day"
    case Month => "month"
    case Year => "year"
  }

  function UnitFromRawValue(raw: string): (r: Option<Unit>)
    ensures r.Some? <==> raw in {"day", "month", "year"}
    ensures r.Some? ==> UnitRawValue(r.value) == raw
  {
    if raw == "day" then Some(Day)
    else if raw == "month" then Some(Month)
    else if raw == "year" then Some(Year)
    else None
  }

  /** `TimePeriod.Unit.init(from:)`: one of the three raw values. */
  function DecodeUnit(j: Json): (r: Decoded<Unit>)
    ensures r.Success? <==> j.JString? && j.s in {"day", "month", "year"}
  {
    DecodeRaw(j, UnitFromRawValue)
  }

  /** `TimePeriod`: a signed count of units. */
  datatype TimePeriod = TimePeriod(value: int, unit: Unit)

  /** `TimePeriod.parameter`. */
  function TimePeriodParameter(t: TimePeriod): (r: map<string, InternalParameter>)
    ensures r.Keys == {"value", "unit"}
    ensures r["value"] == Int(t.value) && r["unit"] == String(UnitRawValue(t.unit))
    ensures UnitFromRawValue(r["unit"].s) == Some(t.unit)
  {
    map["value" := Int(t.value), "unit" := String(UnitRawValue(t.unit))]
  }

  /** `TimePeriod.init(from:)`: `value` must be a whole number and `unit` a raw value. */
  function DecodeTimePeriod(j: Json): (r: Decoded<TimePeriod>)
    ensures r.Success? <==> && j.JObject?
                            && "value" in j.fields && j.fields["value"].JNumber? && IsIntegral(j.fields["value"].n)
                            && "unit" in j.fields && j.fields["unit"].JString? && j.fields["unit"].s in {"day", "month", "year"}
    ensures r.Success? ==> r.value.value as real == j.fields["value"].n && UnitRawValue(r.value.unit) == j.fields["unit"].s
  {
    var fields :- KeyedContainer(j);
    var value :- Field(fields, "value", DecodeInt);
    var unit :- Field(fields, "unit", DecodeUnit);
    Success(TimePeriod(value, unit))
  }

  lemma DecodeTimePeriodRoundTrip(t: TimePeriod)
    ensures DecodeTimePeriod(ToJson(Dictionary(TimePeriodParameter(t)))) == Success(t)
  {
    ToJsonDictionary(TimePeriodParameter(t), "value");
    ToJsonDictionary(TimePeriodParameter(t), "unit");
  }

  datatype FFLatePaymentInterestParameter = FFLatePaymentInterestParameter(
    interestFreePeriod: TimePeriod,
    interestPeriod: TimePeriod,
    interestRate: real,
    compoundInterest: bool)

  /** `parameter`. */
  function Parameter(l: FFLatePaymentInterestParameter): (r: map<string, InternalParameter>)
    ensures r.Keys == {"interestFreePeriod", "interestPeriod", "interestRate", "compoundInterest"}
  {
    map["interestFreePeriod" := Dictionary(TimePeriodParameter(l.interestFreePeriod)),
        "interestPeriod" := Dictionary(TimePeriodParameter(l.interestPeriod)),
        "interestRate" := Double(l.interestRate),
        "compoundInterest" := Bool(l.compoundInterest)]
  }

  function Internal(l: FFLatePaymentInterestParameter): InternalParameter
  {
    Dictionary(Parameter(l))
  }

  /** `init(from:)`: all four fields are required. */
  function Decode(j: Json): (r: Decoded<FFLatePaymentInterestParameter>)
    ensures r.Success? ==> j.JObject? && j.fields.Keys >= {"interestFreePeriod", "interestPeriod", "interestRate", "compoundInterest"}
  {
    var fields :- KeyedContainer(j);
    var interestFreePeriod :- Field(fields, "interestFreePeriod", DecodeTimePeriod);
    var interestPeriod :- Field(fields, "interestPeriod", DecodeTimePeriod);
    var interestRate :- Field(fields, "interestRate", DecodeDouble);
    var compoundInterest :- Field(fields, "compoundInterest", DecodeBool);
    Success(FFLatePaymentInterestParameter(interestFreePeriod, interestPeriod, interestRate, compoundInterest))
  }

  lemma DecodeInternal(l: FFLatePaymentInterestParameter)
    ensures Decode(ToJson(Internal(l))) == Success(l)
  {
    ToJsonDictionary(Parameter(l), "interestFreePeriod");
    ToJsonDictionary(Parameter(l), "interestPeriod");
    ToJsonDictionary(Parameter(l), "interestRate");
    ToJsonDictionary(Parameter(l), "compoundInterest");
    DecodeTimePeriodRoundTrip(l.interestFreePeriod);
    DecodeTimePeriodRoundTrip(l.interestPeriod);
  }
}
