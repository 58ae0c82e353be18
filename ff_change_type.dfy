/** `FFChangeTypeParameter`: whether a list item is updated or deleted. */
module FFChangeType {
  import opened Wrappers
  import opened Json
  import opened ParameterValues

  datatype FFChangeTypeParameter = Update | Delete

  function RawValue(c: FFChangeTypeParameter): string
  {
    match c
    case Update => "update"
    case Delete => "delete"
  }

  /** `init?(rawValue:)`. */
  function FromRawValue(raw: string): (r: Option<FFChangeTypeParameter>)
    ensures r.Some? <==> raw == "update" || raw == "delete"
    ensures r.Some? ==> RawValue(r.value) == raw
  {
    if raw == "update" then Some(Update) else if raw == "delete" then Some(Delete) else None
  }

  /** `internalParameter`: the raw value as a string. */
  function Internal(c: FFChangeTypeParameter): (r: InternalParameter)
    ensures r.String? && FromRawValue(r.s) == Some(c)
  {
    String(RawValue(c))
  }

  /** `init(from:)`: a string holding a raw value. */
  function Decode(j: Json): (r: Decoded<FFChangeTypeParameter>)
    ensures r.Success? <==> j == JString("update") || j == JString("delete")
    ensures r.Success? ==> RawValue(r.value) == j.s
  {
    DecodeRaw(j, FromRawValue)
  }

  lemma DecodeInternal(c: FFChangeTypeParameter)
    ensures Decode(ToJson(Internal(c))) == Success(c)
  {
  }
}
