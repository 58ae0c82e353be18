/** `FRDImportance`: the importance of a fine as stored in the realtime database. */
module FRDImportance {
  import opened Wrappers
  import opened Json
  import FFImportance

  datatype FRDImportance = High | Medium | Low

  function FromRawValue(raw: string): (r: Option<FRDImportance>)
    ensures r.Some? <==> raw in {"high", "medium", "low"}
  {
    if raw == "high" then Some(High)
    else if raw == "medium" then Some(Medium)
    else if raw == "low" then Some(Low)
    else None
  }

  /** The synthesised `init(from:)`: a string holding a raw value. */
  function Decode(j: Json): (r: Decoded<FRDImportance>)
    ensures r.Success? <==> j.JString? && j.s in {"high", "medium", "low"}
  {
    DecodeRaw(j, FromRawValue)
  }

  /** The same case as the function-call importance. */
  function FromParameter(i: FFImportance.FFImportanceParameter): FRDImportance
  {
    match i
    case High => High
    case Medium => Medium
    case Low => Low
  }

  /** Database and function-call importances decode the same raw values to the same case, and fail alike. */
  lemma DecodeAgreesWithFFImportance(j: Json)
    ensures Decode(j).Success? <==> FFImportance.Decode(j).Success?
    ensures Decode(j).Success? ==> Decode(j).value == FromParameter(FFImportance.Decode(j).value)
    ensures Decode(j).Failure? ==> Decode(j).error == FFImportance.Decode(j).error
  {
  }
}
