/**
 * `FFInternalParameterType`, the closed set of values a function-call parameter
 * can take, with its conversion to the untyped values handed to the Functions
 * SDK (`firebaseFunctionParameter`) and to the JSON the call carries.
 */
module ParameterValues {
  import opened Wrappers
  import opened Json
  import Uuids
  import Dates

  /** `FFInternalParameterType`. Swift's `Int` is 64 bits wide; here it is unbounded. */
  datatype InternalParameter =
    | Bool(b: bool)
    | Int(i: int)
    | UInt(u: nat)
    | Double(d: real)
    | Float(f: real)
    | String(s: string)
    | Optional(o: Option<InternalParameter>)
    | Array(items: seq<InternalParameter>)
    | Dictionary(dict: map<string, InternalParameter>)

  /** Swift's `Any` restricted to what `firebaseFunctionParameter` produces. */
  datatype AnyValue =
    | AnyBool(b: bool)
    | AnyInt(i: int)
    | AnyUInt(u: nat)
    | AnyDouble(d: real)
    | AnyFloat(f: real)
    | AnyString(s: string)
    | AnyOptional(o: Option<AnyValue>)
    | AnyArray(items: seq<AnyValue>)
    | AnyDictionary(dict: map<string, AnyValue>)

  /** `firebaseFunctionParameter`: drops the enum wrapper, recursively. */
  function FirebaseFunctionParameter(p: InternalParameter): (r: AnyValue)
  {
    match p
    case Bool(b) => AnyBool(b)
    case Int(i) => AnyInt(i)
    case UInt(u) => AnyUInt(u)
    case Double(d) => AnyDouble(d)
    case Float(f) => AnyFloat(f)
    case String(s) => AnyString(s)
    case Optional(o) =>
      AnyOptional(match o case None => None case Some(v) => Some(FirebaseFunctionParameter(v)))
    case Array(items) =>
      AnyArray(seq(|items|, i requires 0 <= i < |items| => FirebaseFunctionParameter(items[i])))
    case Dictionary(dict) =>
      AnyDictionary(map k | k in dict :: FirebaseFunctionParameter(dict[k]))
  }

  /** Reads an untyped value back as the parameter it came from. */
  function ParameterOfAny(a: AnyValue): InternalParameter
  {
    match a
    case AnyBool(b) => Bool(b)
    case AnyInt(i) => Int(i)
    case AnyUInt(u) => UInt(u)
    case AnyDouble(d) => Double(d)
    case AnyFloat(f) => Float(f)
    case AnyString(s) => String(s)
    case AnyOptional(o) =>
      Optional(match o case None => None case Some(v) => Some(ParameterOfAny(v)))
    case AnyArray(items) =>
      Array(seq(|items|, i requires 0 <= i < |items| => ParameterOfAny(items[i])))
    case AnyDictionary(dict) =>
      Dictionary(map k | k in dict :: ParameterOfAny(dict[k]))
  }

  /** The conversion loses nothing: every parameter can be read back from what the SDK receives. */
  lemma {:induction false} FirebaseFunctionParameterLossless(p: InternalParameter)
    ensures ParameterOfAny(FirebaseFunctionParameter(p)) == p
  {
    match p
    case Optional(o) =>
      if o.Some? {
        FirebaseFunctionParameterLossless(o.value);
      }
    case Array(items) =>
      var back := ParameterOfAny(FirebaseFunctionParameter(p));
      forall i | 0 <= i < |items|
        ensures back.items[i] == items[i]
      {
        FirebaseFunctionParameterLossless(items[i]);
      }
    case Dictionary(dict) =>
      var back := ParameterOfAny(FirebaseFunctionParameter(p));
      forall k | k in dict
        ensures back.dict[k] == dict[k]
      {
        FirebaseFunctionParameterLossless(dict[k]);
      }
    case _ =>
  }

  /** Distinct parameters reach the SDK as distinct values; in particular `nil`, array order and dictionary keys are kept. */
  lemma FirebaseFunctionParameterInjective(p: InternalParameter, q: InternalParameter)
    requires FirebaseFunctionParameter(p) == FirebaseFunctionParameter(q)
    ensures p == q
  {
    FirebaseFunctionParameterLossless(p);
    FirebaseFunctionParameterLossless(q);
  }

  /**
   * The JSON a parameter is written as on the wire: numbers of every width
   * become JSON numbers, `nil` becomes `null` and a present optional is written
   * as its content.
   */
  function ToJson(p: InternalParameter): Json
  {
    match p
    case Bool(b) => JBool(b)
    case Int(i) => JNumber(i as real)
    case UInt(u) => JNumber(u as real)
    case Double(d) => JNumber(d)
    case Float(f) => JNumber(f)
    case String(s) => JString(s)
    case Optional(o) => (match o case None => JNull case Some(v) => ToJson(v))
    case Array(items) => JArray(seq(|items|, i requires 0 <= i < |items| => ToJson(items[i])))
    case Dictionary(dict) => JObject(map k | k in dict :: ToJson(dict[k]))
  }

  /** The JSON object of a dictionary parameter has the same keys, each holding its value's JSON. */
  lemma ToJsonDictionary(dict: map<string, InternalParameter>, k: string)
    requires k in dict
    ensures ToJson(Dictionary(dict)).JObject?
    ensures k in ToJson(Dictionary(dict)).fields && ToJson(Dictionary(dict)).fields[k] == ToJson(dict[k])
  {
  }

  /** `UUID.parameter`: its text form. */
  function OfUuid(u: Uuids.Uuid): (r: InternalParameter)
    ensures r.String? && Uuids.Parse(r.s) == Some(u)
  {
    Uuids.ParseUuidString(u);
    String(Uuids.UuidString(u))
  }

  /** `Date.parameter`: its ISO 8601 text. */
  function OfDate(d: Dates.Date): (r: InternalParameter)
    ensures r.String? && Dates.Date(r.s) == d
  {
    String(d.iso8601)
  }

  /** `Optional.internalParameter`: `nil` stays `nil`, a value is converted. */
  function OfOptional<T>(o: Option<T>, convert: T -> InternalParameter): (r: InternalParameter)
    ensures r.Optional? && (r.o.None? <==> o.None?)
    ensures o.Some? ==> r.o == Some(convert(o.value))
  {
    Optional(match o case None => None case Some(v) => Some(convert(v)))
  }

  /** `Array.internalParameter`: converts every element, keeping length and order. */
  function OfArray<T>(s: seq<T>, convert: T -> InternalParameter): (r: InternalParameter)
    ensures r.Array? && |r.items| == |s|
    ensures forall i :: 0 <= i < |s| ==> r.items[i] == convert(s[i])
  {
    Array(seq(|s|, i requires 0 <= i < |s| => convert(s[i])))
  }

  /** `Dictionary.internalParameter`: converts every value, keeping the keys. */
  function OfDictionary<T>(m: map<string, T>, convert: T -> InternalParameter): (r: InternalParameter)
    ensures r.Dictionary? && r.dict.Keys == m.Keys
    ensures forall k :: k in m ==> r.dict[k] == convert(m[k])
  {
    Dictionary(map k | k in m :: convert(m[k]))
  }
}
