/** `FFPersonNameParameter`: a first name and an optional last name. */
module FFPersonName {
  import opened Wrappers
  import opened Errors
  import opened Json
  import opened ParameterValues

  datatype FFPersonNameParameter = FFPersonNameParameter(first: string, last: Option<string>)

  /** `parameter`: both keys are always written; a missing last name is written as `nil`. */
  function Parameter(n: FFPersonNameParameter): (r: map<string, InternalParameter>)
    ensures r.Keys == {"first", "last"}
    ensures r["last"] == Optional(None) <==> n.last.None?
  {
    map["first" := String(n.first), "last" := OfOptional(n.last, (s: string) => String(s))]
  }

  function Internal(n: FFPersonNameParameter): InternalParameter
  {
    Dictionary(Parameter(n))
  }

  /** `init(from:)`: `first` is required; `last` may be absent or null. */
  function Decode(j: Json): (r: Decoded<FFPersonNameParameter>)
    ensures r.Success? ==> j.JObject? && "first" in j.fields
    ensures r.Success? ==> (r.value.last.None? <==> "last" !in j.fields || j.fields["last"] == JNull)
  {
    var fields :- KeyedContainer(j);
    var first :- Field(fields, "first", DecodeString);
    var last :- FieldIfPresent(fields, "last", DecodeString);
    Success(FFPersonNameParameter(first, last))
  }

  lemma DecodeInternal(n: FFPersonNameParameter)
    ensures Decode(ToJson(Internal(n))) == Success(n)
  {
    ToJsonDictionary(Parameter(n), "first");
    ToJsonDictionary(Parameter(n), "last");
  }
}
