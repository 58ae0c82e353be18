/** `DatabaseType`: which backend a call or a query addresses. */
module DatabaseTypes {
  import opened Wrappers
  import opened Json
  import opened ParameterValues

  datatype DatabaseType = Release | Debug | Testing

  /** The `String` raw value of each case. */
  function RawValue(t: DatabaseType): string
  {
    match t
    case Release => "release"
    case Debug => "debug"
    case Testing => "testing"
  }

  /** `init?(rawValue:)`. */
  function FromRawValue(raw: string): (r: Option<DatabaseType>)
    ensures r.Some? ==> RawValue(r.value) == raw
  {
    if raw == "release" then Some(Release)
    else if raw == "debug" then Some(Debug)
    else if raw == "testing" then Some(Testing)
    else None
  }

  /** Every case is read back from its raw value. */
  lemma FromRawValueOfRawValue(t: DatabaseType)
    ensures FromRawValue(RawValue(t)) == Some(t)
  {
  }

  /** The region every database lives in. */
  const DatabaseRegion: string := "europe-west1"

  /** The database instance name in the host of each URL. */
  function DatabaseName(t: DatabaseType): string
  {
    match t
    case Release => "strafen-project-default-rtdb"
    case Debug => "strafen-project-debug"
    case Testing => "strafen-project-tests"
  }

  /**
   * `databaseUrl`: `https://strafen-project-default-rtdb.europe-west1.firebasedatabase.app/`,
   * `https://strafen-project-debug.europe-west1.firebasedatabase.app/` and
   * `https://strafen-project-tests.europe-west1.firebasedatabase.app/`.
   */
  function DatabaseUrl(t: DatabaseType): (r: string)
    ensures |r| == |DatabaseName(t)| + 43 && r[..8] == "https://"
    ensures r[8..8 + |DatabaseName(t)|] == DatabaseName(t)
    ensures r[9 + |DatabaseName(t)|..21 + |DatabaseName(t)|] == DatabaseRegion
  {
    "https://" + DatabaseName(t) + "." + DatabaseRegion + ".firebasedatabase.app/"
  }

  /** The three cases address three different databases. */
  lemma DatabaseUrlsDistinct(a: DatabaseType, b: DatabaseType)
    requires a != b
    ensures DatabaseUrl(a) != DatabaseUrl(b)
  {
    // The names share the prefix "strafen-project-" and differ at its index 16 or 18.
    var i := if a == Testing || b == Testing then 16 else 18;
    assert DatabaseName(a)[i] != DatabaseName(b)[i];
    assert DatabaseUrl(a)[8 + i] == DatabaseName(a)[i];
    assert DatabaseUrl(b)[8 + i] == DatabaseName(b)[i];
  }

  /** `default`: the debug database in a debug build, the release database otherwise; never the testing one. */
  function Default(debugBuild: bool): (r: DatabaseType)
    ensures r != Testing
    ensures r == Debug <==> debugBuild
  {
    if debugBuild then Debug else Release
  }

  /** `internalParameter` of a database type: its raw value as a string. */
  function Parameter(t: DatabaseType): (r: InternalParameter)
    ensures r.String? && FromRawValue(r.s) == Some(t)
  {
    String(RawValue(t))
  }

  /** `init(from:)`: a string holding one of the raw values. */
  function Decode(j: Json): (r: Decoded<DatabaseType>)
    ensures r.Success? <==> j.JString? && j.s in {"release", "debug", "testing"}
    ensures r.Success? ==> RawValue(r.value) == j.s
  {
    DecodeRaw(j, FromRawValue)
  }

  /** A database type survives being sent as a parameter and decoded again. */
  lemma DecodeParameter(t: DatabaseType)
    ensures Decode(ToJson(Parameter(t))) == Success(t)
  {
  }
}
