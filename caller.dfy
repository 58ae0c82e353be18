/**
 * `FFCaller`: calls a backend function with the call's parameters plus the
 * caller's private key and database type.
 *
 * The HTTPS request itself is a parameter `remote`: given the region, the
 * function name and the parameters, it yields the returned data or an error.
 */
module Caller {
  import opened Wrappers
  import opened Errors
  import opened ParameterValues
  import opened Parameters
  import opened DatabaseTypes

  /** `FFCallable`: a function name and its parameters. */
  datatype FunctionCall = FunctionCall(functionName: string, parameters: map<string, InternalParameter>)

  /** The transport: (region, function name, parameters) to returned data or an error. */
  type Remote = (string, string, map<string, AnyValue>) -> Result<AnyValue, Error>

  /** `FFCaller`: an optional private key and the database type. */
  datatype FFCaller = FFCaller(privateKey: Option<string>, databaseType: DatabaseType)

  /** `shared`: no private key, the build's default database. */
  function Shared(debugBuild: bool): (r: FFCaller)
    ensures r.privateKey.None? && r.databaseType == Default(debugBuild)
  {
    FFCaller(None, Default(debugBuild))
  }

  /** The parameters `createParameters(of:)` sends, or the error it throws. */
  function CreatedParameters(caller: FFCaller, call: FunctionCall): (r: Result<map<string, AnyValue>, Error>)
    ensures caller.privateKey.None? <==> r == Failure(Call(NoPrivateKey))
    ensures r.Success? ==> r.value.Keys == call.parameters.Keys + {"privateKey", "databaseType"}
    ensures r.Success? ==> r.value["privateKey"] == AnyString(caller.privateKey.value)
    ensures r.Success? ==> r.value["databaseType"] == AnyString(RawValue(caller.databaseType))
    ensures r.Success? ==> forall k :: k in call.parameters && k != "privateKey" && k != "databaseType"
                                  ==> r.value[k] == FirebaseFunctionParameter(call.parameters[k])
  {
    match caller.privateKey
    case None => Failure(Call(NoPrivateKey))
    case Some(key) =>
      var ps := call.parameters["privateKey" := String(key)]["databaseType" := DatabaseTypes.Parameter(caller.databaseType)];
      Success(map k | k in ps :: FirebaseFunctionParameter(ps[k]))
  }

  /**
   * `createParameters(of:)`: copies the call's parameters, fails without a private
   * key, appends the key and the database type (replacing call parameters of the
   * same names) and converts every parameter for the SDK.
   */
  method CreateParameters(caller: FFCaller, call: FunctionCall) returns (r: Result<map<string, AnyValue>, Error>)
    ensures r == CreatedParameters(caller, call)
  {
    var parameters := new FFParameters(call.parameters);
    if caller.privateKey.None? {
      return Failure(Call(NoPrivateKey));
    }
    parameters.Append(String(caller.privateKey.value), "privateKey");
    parameters.Append(DatabaseTypes.Parameter(caller.databaseType), "databaseType");
    r := Success(map k | k in parameters.parameters :: FirebaseFunctionParameter(parameters.parameters[k]));
  }

  /** The region the source passes to the Functions SDK. */
  const FunctionsRegionAsWritten: string := "europa-west1"

  /** The region the functions are evidently meant to be called in: the databases' region. */
  const FunctionsRegion: string := "europe-west1"

  /** The region written in the source is not the region the databases live in (it differs at its sixth letter). */
  lemma RegionAsWrittenDiffersFromDatabase()
    ensures FunctionsRegionAsWritten != DatabaseRegion
    ensures FunctionsRegionAsWritten[5] == 'a' && DatabaseRegion[5] == 'e'
  {
  }

  /** The corrected region is the one every database URL names. */
  lemma RegionMatchesDatabase(t: DatabaseType)
    ensures DatabaseUrl(t) == "https://" + DatabaseName(t) + "." + FunctionsRegion + ".firebasedatabase.app/"
  {
  }

  /** The private `call(_:)` with the region left open: the created parameters are handed to `remote` in `region`. */
  function RequestIn(region: string, caller: FFCaller, call: FunctionCall, remote: Remote): (r: Result<AnyValue, Error>)
    ensures caller.privateKey.None? ==> r == Failure(Call(NoPrivateKey))
    ensures caller.privateKey.Some? ==> r == remote(region, call.functionName, CreatedParameters(caller, call).value)
  {
    match CreatedParameters(caller, call)
    case Failure(e) => Failure(e)
    case Success(ps) => remote(region, call.functionName, ps)
  }

  /** The private `call(_:)` as written: the function is called in `"europa-west1"`. */
  function Request(caller: FFCaller, call: FunctionCall, remote: Remote): (r: Result<AnyValue, Error>)
    ensures caller.privateKey.None? ==> r == Failure(Call(NoPrivateKey))
    ensures caller.privateKey.Some? ==> r == remote("europa-west1", call.functionName, CreatedParameters(caller, call).value)
  {
    RequestIn(FunctionsRegionAsWritten, caller, call, remote)
  }

  /** The private `call(_:)` as evidently intended: the function is called in the databases' region. */
  function RequestCorrected(caller: FFCaller, call: FunctionCall, remote: Remote): (r: Result<AnyValue, Error>)
    ensures caller.privateKey.None? ==> r == Failure(Call(NoPrivateKey))
    ensures caller.privateKey.Some? ==>
              r == remote(DatabaseRegion, call.functionName, CreatedParameters(caller, call).value)
  {
    RequestIn(FunctionsRegion, caller, call, remote)
  }

  /** A backend whose functions are deployed in `region` only; a call elsewhere finds no function. */
  function DeployedIn(region: string): Remote
  {
    (r: string, name: string, ps: map<string, AnyValue>) =>
      if r == region then Success(AnyOptional(None)) else Failure(Thrown(404))
  }

  /**
   * The request as written misses functions deployed beside the databases: with a
   * private key set, the corrected request reaches them and the written one does not.
   */
  lemma RequestAsWrittenMissesDatabaseRegion(caller: FFCaller, call: FunctionCall)
    requires caller.privateKey.Some?
    ensures RequestCorrected(caller, call, DeployedIn(DatabaseRegion)) == Success(AnyOptional(None))
    ensures Request(caller, call, DeployedIn(DatabaseRegion)) == Failure(Thrown(404))
  {
    RegionAsWrittenDiffersFromDatabase();
  }

  /** The written and the corrected request differ only in the region: a transport that ignores the region answers both alike. */
  lemma RequestsDifferOnlyInRegion(caller: FFCaller, call: FunctionCall, remote: Remote)
    ensures (forall ps :: remote(FunctionsRegionAsWritten, call.functionName, ps) == remote(FunctionsRegion, call.functionName, ps))
            ==> Request(caller, call, remote) == RequestCorrected(caller, call, remote)
  {
  }

  /** The public `call(_:)` with a return type: the returned data decoded as that type. */
  function CallDecoding<R>(caller: FFCaller, call: FunctionCall, remote: Remote, decode: AnyValue -> Result<R, Error>): (r: Result<R, Error>)
    ensures Request(caller, call, remote).Failure? ==> r == Failure(Request(caller, call, remote).error)
    ensures Request(caller, call, remote).Success? ==> r == decode(Request(caller, call, remote).value)
  {
    match Request(caller, call, remote)
    case Failure(e) => Failure(e)
    case Success(data) => decode(data)
  }

  /** The public `call(_:)` without a return value: the same request, with its data discarded. */
  function CallVoid(caller: FFCaller, call: FunctionCall, remote: Remote): (r: Result<(), Error>)
    ensures r.Success? <==> Request(caller, call, remote).Success?
    ensures r.Failure? ==> r.error == Request(caller, call, remote).error
  {
    match Request(caller, call, remote)
    case Failure(e) => Failure(e)
    case Success(_) => Success(())
  }

  /**
   * The void call issues the same request as the decoding call: it fails exactly
   * when the request fails, with the same error, whatever the returned data is.
   */
  lemma CallVoidIgnoresData<R>(caller: FFCaller, call: FunctionCall, remote: Remote, decode: AnyValue -> Result<R, Error>)
    ensures CallVoid(caller, call, remote).Success? <==> Request(caller, call, remote).Success?
    ensures CallVoid(caller, call, remote).Failure? ==>
              CallDecoding(caller, call, remote, decode) == Failure(CallVoid(caller, call, remote).error)
  {
  }

  /** Without a private key no request is made: every call fails with `noPrivateKey`, whatever the transport does. */
  lemma NoPrivateKeyNoRequest<R>(caller: FFCaller, call: FunctionCall, remote: Remote, decode: AnyValue -> Result<R, Error>)
    requires caller.privateKey.None?
    ensures CallDecoding(caller, call, remote, decode) == Failure(Call(NoPrivateKey))
    ensures CallVoid(caller, call, remote) == Failure(Call(NoPrivateKey))
  {
  }

  /** `privateKey(_:)`: a copy with the private key set; the database type is kept. */
  function WithPrivateKey(caller: FFCaller, privateKey: string): (r: FFCaller)
    ensures r.privateKey == Some(privateKey) && r.databaseType == caller.databaseType
  {
    caller.(privateKey := Some(privateKey))
  }

  /** `forTesting`: a copy addressing the testing database; the private key is kept. */
  function ForTesting(caller: FFCaller): (r: FFCaller)
    ensures r.databaseType == Testing && r.privateKey == caller.privateKey
  {
    caller.(databaseType := Testing)
  }

  /** Once a private key is set, parameters are always created, and they carry that key. */
  lemma WithPrivateKeyCreatesParameters(caller: FFCaller, privateKey: string, call: FunctionCall)
    ensures CreatedParameters(WithPrivateKey(caller, privateKey), call).Success?
    ensures CreatedParameters(WithPrivateKey(caller, privateKey), call).value["privateKey"] == AnyString(privateKey)
  {
  }

  /** A testing caller always tells the backend to use the testing database. */
  lemma ForTestingSendsTesting(caller: FFCaller, call: FunctionCall)
    requires caller.privateKey.Some?
    ensures CreatedParameters(ForTesting(caller), call).value["databaseType"] == AnyString("testing")
  {
  }
}
