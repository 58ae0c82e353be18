/** `FRDLatePaymentInterest`: a club's late payment interest as stored in the realtime database. */
module FRDLatePaymentInterest {
  import opened Wrappers
  import opened Errors
  import opened Json
  import ProjectTypes
  import FFLatePaymentInterest

  /** `TimePeriod.Unit`. */
  datatype Unit = Day | Month | Year

  function UnitFromRawValue(raw: string): (r: Option<Unit>)
    ensures r.Some? <==> raw in {"day", "month", "year"}
  {
    if raw == "day" then Some(Day)
    else if raw == "month" then Some(Month)
    else if raw == "year" then Some(Year)
    else None
  }

  /** The synthesised `Unit.init(from:)`: only `"day"`, `"month"` or `"year"`. */
  function DecodeUnit(j: Json): (r: Decoded<Unit>)
    ensures r.Success? <==> j.JString? && j.s in {"day", "month", "year"}
  {
    DecodeRaw(j, UnitFromRawValue)
  }

  /** `Unit.init(_:)` from an `ITimePeriodUnit`: case by case. */
  function UnitFromInterface(u: ProjectTypes.TimePeriodUnit): (r: Unit)
    ensures r.Day? <==> u.Day?
    ensures r.Month? <==> u.Month?
    ensures r.Year? <==> u.Year?
  {
    match u
    case Day => Day
    case Month => Month
    case Year => Year
  }

  /** `concreteTimePeriodUnit`: case by case. */
  function ConcreteTimePeriodUnit(u: Unit): (r: ProjectTypes.TimePeriodUnit)
    ensures UnitFromInterface(r) == u
  {
    match u
    case Day => ProjectTypes.Day
    case Month => ProjectTypes.Month
    case Year => ProjectTypes.Year
  }

  /** The two unit conversions are mutually inverse. */
  lemma UnitRoundTrips(u: Unit, p: ProjectTypes.TimePeriodUnit)
    ensures UnitFromInterface(ConcreteTimePeriodUnit(u)) == u
    ensures ConcreteTimePeriodUnit(UnitFromInterface(p)) == p
  {
  }

  /** `TimePeriod`: an unsigned count of units. */
  datatype TimePeriod = TimePeriod(value: nat, unit: Unit)

  /** `TimePeriod.init(_:)` from an `ITimePeriod`: the value copied, the unit converted. */
  function TimePeriodFromInterface(t: ProjectTypes.TimePeriod): (r: TimePeriod)
    ensures r.value == t.value && ConcreteTimePeriodUnit(r.unit) == t.unit
  {
    TimePeriod(t.value, UnitFromInterface(t.unit))
  }

  /** The synthesised `TimePeriod.init(from:)`: a non-negative whole `value` and a `unit`. */
  function DecodeTimePeriod(j: Json): (r: Decoded<TimePeriod>)
    ensures r.Success? <==> && j.JObject?
                            && "value" in j.fields && j.fields["value"].JNumber? && IsIntegral(j.fields["value"].n)
                            && j.fields["value"].n >= 0.0
                            && "unit" in j.fields && j.fields["unit"].JString? && j.fields["unit"].s in {"day", "month", "year"}
    ensures r.Success? ==> j.fields["value"] == JNumber(r.value.value as real)
                           && UnitFromRawValue(j.fields["unit"].s) == Some(r.value.unit)
  {
    var fields :- KeyedContainer(j);
    var value :- Field(fields, "value", DecodeUInt);
    var unit :- Field(fields, "unit", DecodeUnit);
    Success(TimePeriod(value, unit))
  }

  datatype FRDLatePaymentInterest = FRDLatePaymentInterest(
    interestFreePeriod: TimePeriod,
    interestPeriod: TimePeriod,
    interestRate: real,
    compoundInterest: bool)

  /** Whether a stored object holds all four fields with the kinds the synthesised decoder reads. */
  predicate WellFormedFields(fields: map<string, Json>)
  {
    && "interestFreePeriod" in fields && DecodeTimePeriod(fields["interestFreePeriod"]).Success?
    && "interestPeriod" in fields && DecodeTimePeriod(fields["interestPeriod"]).Success?
    && "interestRate" in fields && fields["interestRate"].JNumber?
    && "compoundInterest" in fields && fields["compoundInterest"].JBool?
  }

  /**
   * The synthesised `init(from:)`: all four fields are required, both periods
   * must decode, the rate must be a number and the compound flag a Bool.
   */
  function Decode(j: Json): (r: Decoded<FRDLatePaymentInterest>)
    ensures r.Success? <==> j.JObject? && WellFormedFields(j.fields)
    ensures r.Success? ==> && DecodeTimePeriod(j.fields["interestFreePeriod"]) == Success(r.value.interestFreePeriod)
                           && DecodeTimePeriod(j.fields["interestPeriod"]) == Success(r.value.interestPeriod)
                           && j.fields["interestRate"] == JNumber(r.value.interestRate)
                           && j.fields["compoundInterest"] == JBool(r.value.compoundInterest)
    ensures !j.JObject? ==> r == Failure(Decoding(TypeMismatch))
    ensures j.JObject? && "interestFreePeriod" !in j.fields ==> r == Failure(Decoding(KeyNotFound("interestFreePeriod")))
  {
    var fields :- KeyedContainer(j);
    var interestFreePeriod :- Field(fields, "interestFreePeriod", DecodeTimePeriod);
    var interestPeriod :- Field(fields, "interestPeriod", DecodeTimePeriod);
    var interestRate :- Field(fields, "interestRate", DecodeDouble);
    var compoundInterest :- Field(fields, "compoundInterest", DecodeBool);
    Success(FRDLatePaymentInterest(interestFreePeriod, interestPeriod, interestRate, compoundInterest))
  }

  /** `init(_:)` from an `ILatePaymentInterest`: rate and compound flag copied, both periods converted. */
  function FromInterface(l: ProjectTypes.LatePaymentInterest): (r: FRDLatePaymentInterest)
    ensures r.interestFreePeriod == TimePeriodFromInterface(l.interestFreePeriod)
    ensures r.interestPeriod == TimePeriodFromInterface(l.interestPeriod)
    ensures r.interestRate == l.interestRate && r.compoundInterest == l.compoundInterest
  {
    FRDLatePaymentInterest(
      TimePeriodFromInterface(l.interestFreePeriod),
      TimePeriodFromInterface(l.interestPeriod),
      l.interestRate,
      l.compoundInterest)
  }

  /** What the `ILatePaymentInterest` conformance exposes, as the library's `LatePaymentInterest(_:)` reads it. */
  function ToInterface(l: FRDLatePaymentInterest): (r: ProjectTypes.LatePaymentInterest)
    ensures FromInterface(r) == l
  {
    ProjectTypes.LatePaymentInterest(
      ProjectTypes.TimePeriod(l.interestFreePeriod.value, ConcreteTimePeriodUnit(l.interestFreePeriod.unit)),
      ProjectTypes.TimePeriod(l.interestPeriod.value, ConcreteTimePeriodUnit(l.interestPeriod.unit)),
      l.interestRate,
      l.compoundInterest)
  }

  /** Converting to the interface and back, or from it and back, changes nothing. */
  lemma InterfaceRoundTrips(l: FRDLatePaymentInterest, p: ProjectTypes.LatePaymentInterest)
    ensures FromInterface(ToInterface(l)) == l
    ensures ToInterface(FromInterface(p)) == p
  {
    UnitRoundTrips(l.interestFreePeriod.unit, p.interestFreePeriod.unit);
    UnitRoundTrips(l.interestPeriod.unit, p.interestPeriod.unit);
  }

  /** The same interest as a function-call parameter, whose periods carry signed values. */
  function ToParameter(l: FRDLatePaymentInterest): (r: FFLatePaymentInterest.FFLatePaymentInterestParameter)
    ensures r.interestRate == l.interestRate && r.compoundInterest == l.compoundInterest
    ensures r.interestFreePeriod.value == l.interestFreePeriod.value
    ensures UnitFromRawValue(FFLatePaymentInterest.UnitRawValue(r.interestFreePeriod.unit)) == Some(l.interestFreePeriod.unit)
    ensures r.interestPeriod.value == l.interestPeriod.value
    ensures UnitFromRawValue(FFLatePaymentInterest.UnitRawValue(r.interestPeriod.unit)) == Some(l.interestPeriod.unit)
  {
    FFLatePaymentInterest.FFLatePaymentInterestParameter(
      TimePeriodToParameter(l.interestFreePeriod),
      TimePeriodToParameter(l.interestPeriod),
      l.interestRate,
      l.compoundInterest)
  }

  /** The same period with a signed value and the unit of the same raw value. */
  function TimePeriodToParameter(t: TimePeriod): (r: FFLatePaymentInterest.TimePeriod)
    ensures r.value == t.value
    ensures UnitFromRawValue(FFLatePaymentInterest.UnitRawValue(r.unit)) == Some(t.unit)
  {
    FFLatePaymentInterest.TimePeriod(
      t.value,
      match t.unit
      case Day => FFLatePaymentInterest.Day
      case Month => FFLatePaymentInterest.Month
      case Year => FFLatePaymentInterest.Year)
  }

  /** Whatever the database decoder accepts, the function-call decoder reads as the same interest. */
  lemma DecodeAgreesWithFFLatePaymentInterest(j: Json)
    requires Decode(j).Success?
    ensures FFLatePaymentInterest.Decode(j) == Success(ToParameter(Decode(j).value))
  {
    var fields := j.fields;
    TimePeriodAgrees(fields["interestFreePeriod"]);
    TimePeriodAgrees(fields["interestPeriod"]);
  }

  /**
   * Conversely, whatever the function-call decoder accepts with non-negative
   * periods, the database decoder accepts too, as the same interest.
   */
  lemma FFLatePaymentInterestAgreesWithDecode(j: Json)
    requires FFLatePaymentInterest.Decode(j).Success?
    requires FFLatePaymentInterest.Decode(j).value.interestFreePeriod.value >= 0
    requires FFLatePaymentInterest.Decode(j).value.interestPeriod.value >= 0
    ensures Decode(j).Success?
    ensures ToParameter(Decode(j).value) == FFLatePaymentInterest.Decode(j).value
  {
    var fields := j.fields;
    TimePeriodAccepted(fields["interestFreePeriod"]);
    TimePeriodAccepted(fields["interestPeriod"]);
  }

  /** A function-call time period with a non-negative value is a stored time period. */
  lemma TimePeriodAccepted(j: Json)
    requires FFLatePaymentInterest.DecodeTimePeriod(j).Success?
    requires FFLatePaymentInterest.DecodeTimePeriod(j).value.value >= 0
    ensures DecodeTimePeriod(j).Success?
    ensures TimePeriodToParameter(DecodeTimePeriod(j).value) == FFLatePaymentInterest.DecodeTimePeriod(j).value
  {
  }

  lemma TimePeriodAgrees(j: Json)
    requires DecodeTimePeriod(j).Success?
    ensures FFLatePaymentInterest.DecodeTimePeriod(j) == Success(TimePeriodToParameter(DecodeTimePeriod(j).value))
  {
  }
}
