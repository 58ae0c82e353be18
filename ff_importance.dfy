/** `FFImportanceParameter`: the importance of a fine. */
module FFImportance {
  import opened Wrappers
  import opened Json
  import opened ParameterValues
  import ProjectTypes

  datatype FFImportanceParameter = High | Medium | Low

  function RawValue(i: FFImportanceParameter): string
  {
    match i
    case High => "high"
    case Medium => "medium"
    case Low => "low"
  }

  /** `init?(rawValue:)`. */
  function FromRawValue(raw: string): (r: Option<FFImportanceParameter>)
    ensures r.Some? <==> raw in {"high", "medium", "low"}
    ensures r.Some? ==> RawValue(r.value) == raw
  {
    if raw == "high" then Some(High)
    else if raw == "medium" then Some(Medium)
    else if raw == "low" then Some(Low)
    else None
  }

  /** `internalParameter`: the raw value as a string. */
  function Internal(i: FFImportanceParameter): (r: InternalParameter)
    ensures r.String? && FromRawValue(r.s) == Some(i)
  {
    String(RawValue(i))
  }

  /** `init(from:)`: a string holding a raw value. */
  function Decode(j: Json): (r: Decoded<FFImportanceParameter>)
    ensures r.Success? <==> j.JString? && j.s in {"high", "medium", "low"}
    ensures r.Success? ==> RawValue(r.value) == j.s
  {
    DecodeRaw(j, FromRawValue)
  }

  lemma DecodeInternal(i: FFImportanceParameter)
    ensures Decode(ToJson(Internal(i))) == Success(i)
  {
  }

  /** `init(_:)` from an `IImportance`: case by case. */
  function FromInterface(importance: ProjectTypes.Importance): (r: FFImportanceParameter)
    ensures r.High? <==> importance.High?
    ensures r.Medium? <==> importance.Medium?
    ensures r.Low? <==> importance.Low?
  {
    match importance
    case High => High
    case Medium => Medium
    case Low => Low
  }

  /** `concreteImportance`: case by case. */
  function ConcreteImportance(i: FFImportanceParameter): (r: ProjectTypes.Importance)
    ensures FromInterface(r) == i
  {
    match i
    case High => ProjectTypes.High
    case Medium => ProjectTypes.Medium
    case Low => ProjectTypes.Low
  }

  /** The two conversions are mutually inverse. */
  lemma InterfaceRoundTrip(i: FFImportanceParameter, importance: ProjectTypes.Importance)
    ensures FromInterface(ConcreteImportance(i)) == i
    ensures ConcreteImportance(FromInterface(importance)) == importance
  {
  }
}
