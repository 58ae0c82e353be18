/**
 * The JSON documents the decoders read (the payload of a function call or the
 * value of a database snapshot) and the parts of `Decoder` the package uses:
 * keyed containers, required and optional fields, and the primitive decoders.
 */
module Json {
  import opened Wrappers
  import opened Errors
  import Uuids
  import Dates

  datatype Json =
    | JNull
    | JBool(b: bool)
    | JNumber(n: real)
    | JString(s: string)
    | JArray(items: seq<Json>)
    | JObject(fields: map<string, Json>)

  type Decoded<T> = Result<T, Error>

  /** `decoder.container(keyedBy:)`: only an object has keyed fields. */
  function KeyedContainer(j: Json): (r: Decoded<map<string, Json>>)
    ensures r.Success? <==> j.JObject?
    ensures r.Success? ==> r.value == j.fields
  {
    if j.JObject? then Success(j.fields) else Failure(Decoding(TypeMismatch))
  }

  /** `container.decode(_:forKey:)`: the key must be present and not null. */
  function Field<T>(fields: map<string, Json>, key: string, decode: Json -> Decoded<T>): (r: Decoded<T>)
    ensures key !in fields ==> r == Failure(Decoding(KeyNotFound(key)))
    ensures key in fields && fields[key] == JNull ==> r == Failure(Decoding(ValueNotFound(key)))
    ensures key in fields && fields[key] != JNull ==> r == decode(fields[key])
  {
    if key !in fields then Failure(Decoding(KeyNotFound(key)))
    else if fields[key] == JNull then Failure(Decoding(ValueNotFound(key)))
    else decode(fields[key])
  }

  /** `container.decodeIfPresent(_:forKey:)`: absent or null gives `nil`; anything else must decode. */
  function FieldIfPresent<T>(fields: map<string, Json>, key: string, decode: Json -> Decoded<T>): (r: Decoded<Option<T>>)
    ensures key !in fields || fields[key] == JNull ==> r == Success(None)
    ensures key in fields && fields[key] != JNull && decode(fields[key]).Success? ==> r == Success(Some(decode(fields[key]).value))
    ensures key in fields && fields[key] != JNull && decode(fields[key]).Failure? ==> r == Failure(decode(fields[key]).error)
  {
    if key !in fields || fields[key] == JNull then Success(None)
    else
      match decode(fields[key])
      case Success(v) => Success(Some(v))
      case Failure(e) => Failure(e)
  }

  /** The error a primitive decoder reports for a value of the wrong kind. */
  function Mismatch<T>(j: Json): Decoded<T>
  {
    if j == JNull then Failure(Decoding(ValueNotFound(""))) else Failure(Decoding(TypeMismatch))
  }

  function DecodeBool(j: Json): (r: Decoded<bool>)
    ensures r.Success? <==> j.JBool?
  {
    if j.JBool? then Success(j.b) else Mismatch(j)
  }

  function DecodeString(j: Json): (r: Decoded<string>)
    ensures r.Success? <==> j.JString?
  {
    if j.JString? then Success(j.s) else Mismatch(j)
  }

  /** `Double` and `Float` read any JSON number. */
  function DecodeDouble(j: Json): (r: Decoded<real>)
    ensures r.Success? <==> j.JNumber?
  {
    if j.JNumber? then Success(j.n) else Mismatch(j)
  }

  predicate IsIntegral(x: real)
  {
    x == x.Floor as real
  }

  /** `Int` reads a JSON number without fractional part. */
  function DecodeInt(j: Json): (r: Decoded<int>)
    ensures r.Success? <==> j.JNumber? && IsIntegral(j.n)
    ensures r.Success? ==> r.value as real == j.n
  {
    if !j.JNumber? then Mismatch(j)
    else if IsIntegral(j.n) then Success(j.n.Floor)
    else Failure(Decoding(DataCorrupted))
  }

  /** `UInt` reads a non-negative JSON number without fractional part. */
  function DecodeUInt(j: Json): (r: Decoded<nat>)
    ensures r.Success? <==> j.JNumber? && IsIntegral(j.n) && j.n >= 0.0
    ensures r.Success? ==> r.value as real == j.n
  {
    if !j.JNumber? then Mismatch(j)
    else if IsIntegral(j.n) && j.n >= 0.0 then Success(j.n.Floor)
    else Failure(Decoding(DataCorrupted))
  }

  /** `UUID` reads its text form; a malformed text is corrupted data. */
  function DecodeUuid(j: Json): (r: Decoded<Uuids.Uuid>)
    ensures r.Success? <==> j.JString? && Uuids.WellFormed(j.s)
    ensures r.Success? ==> Uuids.Parse(j.s) == Some(r.value)
  {
    if !j.JString? then Mismatch(j)
    else
      match Uuids.Parse(j.s)
      case Some(u) => Success(u)
      case None => Failure(Decoding(DataCorrupted))
  }

  /** `Date` reads its ISO 8601 text. */
  function DecodeDate(j: Json): (r: Decoded<Dates.Date>)
    ensures r.Success? <==> j.JString?
    ensures r.Success? ==> r.value.iso8601 == j.s
  {
    if j.JString? then Success(Dates.Date(j.s)) else Mismatch(j)
  }

  /** The raw string of a `String`-backed enum: the decoded case, or corrupted data for an unknown raw value. */
  function DecodeRaw<T>(j: Json, fromRaw: string -> Option<T>): (r: Decoded<T>)
    ensures r.Success? <==> j.JString? && fromRaw(j.s).Some?
    ensures r.Success? ==> fromRaw(j.s) == Some(r.value)
  {
    if !j.JString? then Mismatch(j)
    else
      match fromRaw(j.s)
      case Some(v) => Success(v)
      case None => Failure(Decoding(DataCorrupted))
  }
}
