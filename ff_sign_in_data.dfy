/** `FFSignInDataParameter`: how a person is signed in to a club. */
module FFSignInData {
  import opened Wrappers
  import opened Errors
  import opened Json
  import opened ParameterValues
  import Dates
  import ProjectTypes

  datatype FFSignInDataParameter = FFSignInDataParameter(admin: bool, signInDate: Dates.Date, userId: string)

  function Parameter(s: FFSignInDataParameter): (r: map<string, InternalParameter>)
    ensures r.Keys == {"admin", "signInDate", "userId"}
    ensures r["admin"] == Bool(s.admin) && r["signInDate"] == OfDate(s.signInDate) && r["userId"] == String(s.userId)
  {
    map["admin" := Bool(s.admin), "signInDate" := OfDate(s.signInDate), "userId" := String(s.userId)]
  }

  function Internal(s: FFSignInDataParameter): InternalParameter
  {
    Dictionary(Parameter(s))
  }

  /** `init(from:)`: all three fields required. */
  function Decode(j: Json): (r: Decoded<FFSignInDataParameter>)
    ensures r.Success? ==> j.JObject? && j.fields.Keys >= {"admin", "signInDate", "userId"}
  {
    var fields :- KeyedContainer(j);
    var admin :- Field(fields, "admin", DecodeBool);
    var signInDate :- Field(fields, "signInDate", DecodeDate);
    var userId :- Field(fields, "userId", DecodeString);
    Success(FFSignInDataParameter(admin, signInDate, userId))
  }

  lemma DecodeInternal(s: FFSignInDataParameter)
    ensures Decode(ToJson(Internal(s))) == Success(s)
  {
    ToJsonDictionary(Parameter(s), "admin");
    ToJsonDictionary(Parameter(s), "signInDate");
    ToJsonDictionary(Parameter(s), "userId");
  }

  /** `init(_:)` from an `ISignInData`: all three fields copied. */
  function FromInterface(s: ProjectTypes.SignInData): (r: FFSignInDataParameter)
    ensures r.admin == s.admin && r.signInDate == s.signInDate && r.userId == s.userId
  {
    FFSignInDataParameter(s.admin, s.signInDate, s.userId)
  }

  /** The sign-in data seen through `ISignInData`. */
  function ToInterface(s: FFSignInDataParameter): (r: ProjectTypes.SignInData)
    ensures FromInterface(r) == s
  {
    ProjectTypes.SignInData(s.admin, s.signInDate, s.userId)
  }

  lemma InterfaceRoundTrip(s: FFSignInDataParameter, i: ProjectTypes.SignInData)
    ensures FromInterface(ToInterface(s)) == s
    ensures ToInterface(FromInterface(i)) == i
  {
  }
}
