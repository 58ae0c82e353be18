# FirebaseInterface, modelled in Dafny

This project models the client-side core of the FirebaseInterface Swift package, the Firebase bridge of the Strafen app, in which a club keeps track of the fines of its members. The core has two halves.

- **Function calls** (`FirebaseFunction/`):
  - Typed arguments become `FFInternalParameterType` values. These are recursive bool/int/uint/double/float/string/optional/array/dictionary trees.
  - They are collected in `FFParameters` with the `FFParametersBuilder` result builder.
  - `FFCaller` wraps them with the private key and the database type. It calls the function in the region written in the source (`europa-west1`, see Findings) and decodes the result as the expected type; `Caller.RequestCorrected` is the same call in the databases' region.
- **Realtime database** (`FirebaseRealtimeDatabase/`):
  - `FRDFetcher` reads encrypted records once.
  - `FRDObserver` subscribes to them. It produces `FRDObservation` streams of whole values and `FRDChildObservation` streams of added, changed and removed children.
  - Both decrypt and decode each stored string. A stored `{deleted: true}` record (a tombstone) is treated as the removal of its id.

Each Swift file of the core has a Dafny module of its own:

- Value types (the parameter enums and structs, the `FRD` records, `KeyValuePair`) are datatypes, and their encoders and decoders are functions.
- Objects whose fields change are classes with `modifies` frames:
  - `FFParameters`;
  - `Observers`;
  - the `observationsToIgnore` countdown;
  - the database reference with its attached listeners;
  - `FRDObservation`;
  - `FRDChildObservation`.
- The loops in the sources become methods with loop invariants. These are `Observers.receive(value:)`, `append(contentsOf:)` and delivery of a sequence of snapshots.

Decoders work on a `Json` datatype, which stands for what a `Decoder` or a `DataSnapshot` hands over. `Json.ToJson` is the serialisation of an internal parameter that a decoder reads back. The round trips are stated over it.

## Model

| member | source | states |
|---|---|---|
| ParameterValues.FirebaseFunctionParameterLossless | Sources/FirebaseInterface/FirebaseFunction/FFParameters.swift:159-180 | every internal parameter is read back exactly from the untyped value handed to the SDK |
| ParameterValues.FirebaseFunctionParameterInjective | Sources/FirebaseInterface/FirebaseFunction/FFParameters.swift:159-180 | distinct parameters reach the SDK as distinct values, so nil, array order and dictionary keys survive |
| ParameterValues.ToJsonDictionary | Sources/FirebaseInterface/FirebaseFunction/FFParameters.swift:177-178 | the JSON of a dictionary parameter has the same keys, each holding the JSON of its value |
| ParameterValues.OfUuid | Sources/FirebaseInterface/FirebaseFunction/FFParameters.swift:247-251 | a UUID is sent as its 36-character text, which parses back to the UUID |
| ParameterValues.OfDate | Sources/FirebaseInterface/FirebaseFunction/FFParameters.swift:253-257 | a date is sent as its ISO 8601 text |
| ParameterValues.OfOptional | Sources/FirebaseInterface/FirebaseFunction/FFParameters.swift:232-235 | nil stays nil and a present value is converted |
| ParameterValues.OfArray | Sources/FirebaseInterface/FirebaseFunction/FFParameters.swift:237-240 | every element is converted, keeping length and order |
| ParameterValues.OfDictionary | Sources/FirebaseInterface/FirebaseFunction/FFParameters.swift:242-245 | every value is converted, keeping exactly the keys |
| Parameters.AppendAllLookup | Sources/FirebaseInterface/FirebaseFunction/FFParameters.swift:37-41 | after appending pairs in order, a key is present iff it was before or some pair has it; its value comes from the last such pair, else it is unchanged |
| Parameters.FFParameters.Empty | Sources/FirebaseInterface/FirebaseFunction/FFParameters.swift:17-19 | a new parameter set holds no parameters |
| Parameters.FFParameters.constructor | Sources/FirebaseInterface/FirebaseFunction/FFParameters.swift:23-25 | the new set holds exactly the given parameters |
| Parameters.FFParameters.Append | Sources/FirebaseInterface/FirebaseFunction/FFParameters.swift:31-33 | the key now maps to the parameter and every other key is unchanged |
| Parameters.FFParameters.AppendContentsOf | Sources/FirebaseInterface/FirebaseFunction/FFParameters.swift:37-41 | the new set is the old one with the pairs appended one by one, so the last pair for a key wins |
| Parameters.FFParameters.Remove | Sources/FirebaseInterface/FirebaseFunction/FFParameters.swift:45-47 | the key is gone and every other key is unchanged |
| Parameters.FFParameters.Get | Sources/FirebaseInterface/FirebaseFunction/FFParameters.swift:52-54 | the parameter under the key, or nil when there is none; nothing changes |
| Parameters.FFParameters.Subscript | Sources/FirebaseInterface/FirebaseFunction/FFParameters.swift:59-62 | the getter agrees with `get(with:)` |
| Parameters.FFParameters.SetSubscript | Sources/FirebaseInterface/FirebaseFunction/FFParameters.swift:63-65 | assigning a value stores it and assigning nil removes the key |
| Parameters.MergeAllLookup | Sources/FirebaseInterface/FirebaseFunction/FFParameters.swift:103-113 | a merged key comes from some component, and its value from the last component holding it |
| Parameters.MergeAllConcat | Sources/FirebaseInterface/FirebaseFunction/FFParameters.swift:103-113 | merging is associative: merging two runs separately and then together gives the same result as merging them all |
| Parameters.BuildExpression | Sources/FirebaseInterface/FirebaseFunction/FFParameters.swift:99-101 | an expression contributes exactly its one key and parameter |
| Parameters.BuildBlock | Sources/FirebaseInterface/FirebaseFunction/FFParameters.swift:103-107 | a block holds the keys of its statements, each with the value of the last statement setting it |
| Parameters.BuildArray | Sources/FirebaseInterface/FirebaseFunction/FFParameters.swift:109-113 | a loop's iterations are merged in order, with the last iteration winning |
| Parameters.BuildOptional | Sources/FirebaseInterface/FirebaseFunction/FFParameters.swift:115-117 | a skipped `if` contributes nothing and a taken one contributes its component |
| Parameters.BuildEitherFirst | Sources/FirebaseInterface/FirebaseFunction/FFParameters.swift:119-121 | the taken branch's component passes unchanged |
| Parameters.BuildEitherSecond | Sources/FirebaseInterface/FirebaseFunction/FFParameters.swift:123-125 | the taken branch's component passes unchanged |
| Parameters.BuildFinalResult | Sources/FirebaseInterface/FirebaseFunction/FFParameters.swift:95-97 | the built parameters hold exactly the component, key by key |
| Parameters.AppendAllIsMerge | Sources/FirebaseInterface/FirebaseFunction/FFParameters.swift:37-41 | appending pairs one by one gives the same set as a builder block of one expression per pair |
| Caller.Shared | Sources/FirebaseInterface/FirebaseFunction/FFCaller.swift:22-31 | the shared caller has no private key and uses the build's default database |
| Caller.CreatedParameters | Sources/FirebaseInterface/FirebaseFunction/FFCaller.swift:37-47 | without a private key this is the `noPrivateKey` error; otherwise it is the call's parameters plus `privateKey` and `databaseType`, which override same-named call parameters |
| Caller.CreateParameters | Sources/FirebaseInterface/FirebaseFunction/FFCaller.swift:37-47 | the method builds the parameter set step by step and returns what `CreatedParameters` describes |
| Caller.RegionAsWrittenDiffersFromDatabase | Sources/FirebaseInterface/FirebaseFunction/FFCaller.swift:56 | the region string written in the caller is none of the regions the database URLs name |
| Caller.RegionMatchesDatabase | Sources/FirebaseInterface/DatabaseType.swift:23-32 | the corrected functions region is the region of every database URL |
| Caller.Request | Sources/FirebaseInterface/FirebaseFunction/FFCaller.swift:52-57 | as written: a parameter error is returned without a call; otherwise the remote call gets the function name, the region `europa-west1` and the created parameters, and its outcome is passed on |
| Caller.RequestIn | Sources/FirebaseInterface/FirebaseFunction/FFCaller.swift:52-57 | the request with the region left open: no private key gives `noPrivateKey` and no call; otherwise the remote call in that region with the created parameters |
| Caller.RequestCorrected | Sources/FirebaseInterface/FirebaseFunction/FFCaller.swift:52-57 | the request as intended: the same call, made in the databases' region `europe-west1` |
| Caller.RequestsDifferOnlyInRegion | Sources/FirebaseInterface/FirebaseFunction/FFCaller.swift:52-57 | the written and the corrected request agree whenever the remote side answers the same in both regions |
| Caller.RequestAsWrittenMissesDatabaseRegion | Sources/FirebaseInterface/FirebaseFunction/FFCaller.swift:56 | with functions deployed only in the databases' region, the corrected request reaches them and the written one fails |
| Caller.CallDecoding | Sources/FirebaseInterface/FirebaseFunction/FFCaller.swift:62-70 | as written (through `Request`): a failed request passes its error on; otherwise the returned data is decoded as the expected type |
| Caller.CallVoid | Sources/FirebaseInterface/FirebaseFunction/FFCaller.swift:74-78 | as written (through `Request`): a call without a return value succeeds exactly when the request succeeds, and fails with the request's error |
| Caller.CallVoidIgnoresData | Sources/FirebaseInterface/FirebaseFunction/FFCaller.swift:74-78 | a call without a return value succeeds exactly when the request succeeds, whatever data comes back |
| Caller.NoPrivateKeyNoRequest | Sources/FirebaseInterface/FirebaseFunction/FFCaller.swift:41-43 | without a private key every call fails with `noPrivateKey`, whatever the transport would answer |
| Caller.WithPrivateKey | Sources/FirebaseInterface/FirebaseFunction/FFCaller.swift:83-87 | the copy has the given key and keeps the database type |
| Caller.ForTesting | Sources/FirebaseInterface/FirebaseFunction/FFCaller.swift:90-94 | the copy addresses the testing database and keeps the key |
| Caller.WithPrivateKeyCreatesParameters | Sources/FirebaseInterface/FirebaseFunction/FFCaller.swift:83-87 | once a key is set, parameters are always created, and they carry that key |
| Caller.ForTestingSendsTesting | Sources/FirebaseInterface/FirebaseFunction/FFCaller.swift:90-94 | a testing caller always sends `databaseType: "testing"` |
| DatabaseTypes.FromRawValue | Sources/FirebaseInterface/DatabaseType.swift:11-20 | exactly the three raw values are accepted, each giving its case |
| DatabaseTypes.FromRawValueOfRawValue | Sources/FirebaseInterface/DatabaseType.swift:11-20 | every case is read back from its raw value |
| DatabaseTypes.DatabaseUrlsDistinct | Sources/FirebaseInterface/DatabaseType.swift:23-32 | the three cases address three different databases |
| DatabaseTypes.DatabaseUrl | Sources/FirebaseInterface/DatabaseType.swift:23-32 | each URL is `https://`, then the case's database instance name, then the region `europe-west1`, under `firebasedatabase.app` |
| DatabaseTypes.Default | Sources/FirebaseInterface/DatabaseType.swift:35-41 | a debug build uses debug and a release build uses release; the default is never testing |
| DatabaseTypes.Parameter | Sources/FirebaseInterface/DatabaseType.swift:44-48 | a database type is sent as the string of its raw value |
| DatabaseTypes.Decode | Sources/FirebaseInterface/DatabaseType.swift:50 | decoding succeeds exactly on a string holding a raw value |
| DatabaseTypes.DecodeParameter | Sources/FirebaseInterface/DatabaseType.swift:44-50 | a database type survives being sent and decoded |
| FFAmount.Clamp | Sources/FirebaseInterface/FirebaseFunction/FFParameterTypes/FFAmountParameter.swift:17 | the result is in 0...99 and is the input when it already is |
| FFAmount.Parameter | Sources/FirebaseInterface/FirebaseFunction/FFParameterTypes/FFAmountParameter.swift:20-24 | the number sent is units plus hundredths divided by 100 |
| FFAmount.FromDouble | Sources/FirebaseInterface/FirebaseFunction/FFParameterTypes/FFAmountParameter.swift:27-30 | the units are the whole part and the hundredths are the truncated fractional hundredths, within 0...99 |
| FFAmount.FromDoubleTruncates | Sources/FirebaseInterface/FirebaseFunction/FFParameterTypes/FFAmountParameter.swift:27-30 | the amount read from a number is that number truncated to hundredths |
| FFAmount.Decode | Sources/FirebaseInterface/FirebaseFunction/FFParameterTypes/FFAmountParameter.swift:32-41 | an amount decodes exactly from a non-negative number, to `FromDouble` of it; a negative number is corrupted data, null a missing value, and anything else a type mismatch |
| FFAmount.DecodeInternal | Sources/FirebaseInterface/FirebaseFunction/FFParameterTypes/FFAmountParameter.swift:20-41 | an amount decodes back from what it is sent as |
| FFAmount.FromInterface | Sources/FirebaseInterface/FirebaseFunction/FFParameterTypes/FFAmountParameter.swift:48-51 | the units are copied and the hundredths clamped to 0...99 |
| FFAmount.ToInterface | Sources/FirebaseInterface/FirebaseFunction/FFParameterTypes/FFAmountParameter.swift:11-18 | the amount seen through `IAmount` keeps units and hundredths, and converts back to the same amount |
| FFAmount.InterfaceRoundTrip | Sources/FirebaseInterface/FirebaseFunction/FFParameterTypes/FFAmountParameter.swift:44-51 | converting to `IAmount` and back is the identity, and so is the reverse for in-range hundredths |
| FFChangeType.FromRawValue | Sources/FirebaseInterface/FirebaseFunction/FFParameterTypes/FFChangeTypeParameter.swift:11-18 | only "update" and "delete" are accepted, each giving its case |
| FFChangeType.Internal | Sources/FirebaseInterface/FirebaseFunction/FFParameterTypes/FFChangeTypeParameter.swift:20-24 | a change type is sent as the string of its raw value |
| FFChangeType.Decode | Sources/FirebaseInterface/FirebaseFunction/FFParameterTypes/FFChangeTypeParameter.swift:26 | decoding succeeds exactly on a string holding a raw value |
| FFChangeType.DecodeInternal | Sources/FirebaseInterface/FirebaseFunction/FFParameterTypes/FFChangeTypeParameter.swift:20-26 | a change type decodes back from what it is sent as |
| FFImportance.FromRawValue | Sources/FirebaseInterface/FirebaseFunction/FFParameterTypes/FFImportanceParameter.swift:11-21 | only "high", "medium" and "low" are accepted, each giving its case |
| FFImportance.Internal | Sources/FirebaseInterface/FirebaseFunction/FFParameterTypes/FFImportanceParameter.swift:23-27 | an importance is sent as the string of its raw value |
| FFImportance.Decode | Sources/FirebaseInterface/FirebaseFunction/FFParameterTypes/FFImportanceParameter.swift:29 | decoding succeeds exactly on a string holding a raw value |
| FFImportance.DecodeInternal | Sources/FirebaseInterface/FirebaseFunction/FFParameterTypes/FFImportanceParameter.swift:23-29 | an importance decodes back from what it is sent as |
| FFImportance.FromInterface | Sources/FirebaseInterface/FirebaseFunction/FFParameterTypes/FFImportanceParameter.swift:36-42 | each interface importance becomes the parameter of the same level |
| FFImportance.ConcreteImportance | Sources/FirebaseInterface/FirebaseFunction/FFParameterTypes/FFImportanceParameter.swift:44-50 | the interface level converts back to the same parameter |
| FFImportance.InterfaceRoundTrip | Sources/FirebaseInterface/FirebaseFunction/FFParameterTypes/FFImportanceParameter.swift:36-50 | the conversions to and from `IImportance` are mutually inverse |
| FFPayedState.Parameter | Sources/FirebaseInterface/FirebaseFunction/FFParameterTypes/FFPayedStateParameter.swift:23-41 | the state name is always sent, and `inApp` and `payDate` are sent exactly for a payed fine |
| FFPayedState.DecodeFields | Sources/FirebaseInterface/FirebaseFunction/FFParameterTypes/FFPayedStateParameter.swift:51-69 | decoding succeeds exactly when `state` names a known state and, for `payed`, `inApp` is a Bool and `payDate` a date; the result carries that state and those values; a missing `state` or `inApp`/`payDate` is reported by its key and an unknown state is corrupted data |
| FFPayedState.Decode | Sources/FirebaseInterface/FirebaseFunction/FFParameterTypes/FFPayedStateParameter.swift:51-54 | a non-object is a type mismatch; an object is decoded by its fields, with the outcome `DecodeFields` states |
| FFPayedState.DecodeFieldsIgnoresOtherKeys | Sources/FirebaseInterface/FirebaseFunction/FFParameterTypes/FFPayedStateParameter.swift:44-69 | only `state`, `inApp` and `payDate` are read; objects that agree on them decode alike |
| FFPayedState.DecodeInternal | Sources/FirebaseInterface/FirebaseFunction/FFParameterTypes/FFPayedStateParameter.swift:23-69 | a payed state decodes back from what it is sent as |
| FFFineReason.Parameter | Sources/FirebaseInterface/FirebaseFunction/FFParameterTypes/FFFineReasonParameter.swift:21-36 | a template reason sends only its template id, and a custom reason only its message, amount and importance |
| FFFineReason.Decode | Sources/FirebaseInterface/FirebaseFunction/FFParameterTypes/FFFineReasonParameter.swift:46-58 | a non-object is a type mismatch; a template reason comes from a UUID `reasonTemplateId`; a custom reason only when that id is absent or null, and then carries the decoded message, amount and importance; with neither id nor message the missing `reasonMessage` is reported |
| FFFineReason.TemplateIdWins | Sources/FirebaseInterface/FirebaseFunction/FFParameterTypes/FFFineReasonParameter.swift:49-52 | a well-formed template id decides the reason, whatever custom fields sit beside it |
| FFFineReason.MalformedTemplateIdFails | Sources/FirebaseInterface/FirebaseFunction/FFParameterTypes/FFFineReasonParameter.swift:49 | a template id that is present but not a UUID is an error, not a fall-back to the custom fields |
| FFFineReason.NoTemplateIdIsCustom | Sources/FirebaseInterface/FirebaseFunction/FFParameterTypes/FFFineReasonParameter.swift:54-57 | without a template id the reason is custom, or decoding fails |
| FFFineReason.DecodeInternal | Sources/FirebaseInterface/FirebaseFunction/FFParameterTypes/FFFineReasonParameter.swift:21-58 | both kinds of fine reason decode back from what they are sent as |
| FFDeletable.Parameter | Sources/FirebaseInterface/FirebaseFunction/FFParameterTypes/FFDeletableParameter.swift:20-32 | an item sends its own fields, and a deletion sends its id with `deleted: true` |
| FFDeletable.Decode | Sources/FirebaseInterface/FirebaseFunction/FFParameterTypes/FFDeletableParameter.swift:40-51 | `deleted: true` gives the deletion of the decoded `id` and fails exactly when the id does not decode; a non-object or an absent, null or false `deleted` gives exactly what the item's decoder gives; a `deleted` that is not a Bool is a type mismatch |
| FFDeletable.DecodeItem | Sources/FirebaseInterface/FirebaseFunction/FFParameterTypes/FFDeletableParameter.swift:49-50 | the item branch gives the item's decoder's result as an item |
| FFDeletable.DecodeDeleted | Sources/FirebaseInterface/FirebaseFunction/FFParameterTypes/FFDeletableParameter.swift:25-47 | a sent deletion decodes back to the deletion of the same id |
| FFDeletable.DecodeItemRoundTrip | Sources/FirebaseInterface/FirebaseFunction/FFParameterTypes/FFDeletableParameter.swift:20-51 | a sent item without a `deleted` key decodes back to that item when its own decoder reads it back |
| FFDeletable.NotDeletedIsItem | Sources/FirebaseInterface/FirebaseFunction/FFParameterTypes/FFDeletableParameter.swift:40-51 | `deleted: false`, or no `deleted` key, decodes as an item |
| FFDeletable.DeletedWithoutIdFails | Sources/FirebaseInterface/FirebaseFunction/FFParameterTypes/FFDeletableParameter.swift:41-45 | `deleted: true` without an id is an error |
| FFDeletable.NonBoolDeletedFails | Sources/FirebaseInterface/FirebaseFunction/FFParameterTypes/FFDeletableParameter.swift:41-43 | a `deleted` key that is not a Bool is an error, even if the item would decode |
| FFUpdatable.UpdatePropertiesParameter | Sources/FirebaseInterface/FirebaseFunction/FFParameterTypes/FFUpdatableParameter.swift:30-37 | the update properties send exactly a timestamp and a person id |
| FFUpdatable.DecodeUpdatePropertiesRoundTrip | Sources/FirebaseInterface/FirebaseFunction/FFParameterTypes/FFUpdatableParameter.swift:30-39 | update properties decode back from what they are sent as |
| FFUpdatable.DecodeUpdateProperties | Sources/FirebaseInterface/FirebaseFunction/FFParameterTypes/FFUpdatableParameter.swift:14-21 | update properties decode exactly when `timestamp` is a date and `personId` a UUID, and then carry those two values; a non-object is a type mismatch |
| FFUpdatable.Parameter | Sources/FirebaseInterface/FirebaseFunction/FFParameterTypes/FFUpdatableParameter.swift:41-47 | the property's own fields are sent, with `updateProperties` added and overriding any field of that name |
| FFUpdatable.Decode | Sources/FirebaseInterface/FirebaseFunction/FFParameterTypes/FFUpdatableParameter.swift:54-58 | `updateProperties` is required, and the property is decoded from the same object |
| FFUpdatable.DecodeRoundTrip | Sources/FirebaseInterface/FirebaseFunction/FFParameterTypes/FFUpdatableParameter.swift:41-58 | an updatable value decodes back when its property's decoder ignores the extra key |
| FFUpdatable.MissingUpdatePropertiesFails | Sources/FirebaseInterface/FirebaseFunction/FFParameterTypes/FFUpdatableParameter.swift:54-56 | without `updateProperties` decoding fails, whatever the property would decode to |
| FFLatePaymentInterest.UnitFromRawValue | Sources/FirebaseInterface/FirebaseFunction/FFParameterTypes/FFLatePaymentInterestParameter.swift:17-27 | only "day", "month" and "year" are accepted, each giving its unit |
| FFLatePaymentInterest.DecodeUnit | Sources/FirebaseInterface/FirebaseFunction/FFParameterTypes/FFLatePaymentInterestParameter.swift:55 | decoding succeeds exactly on a string holding a unit's raw value |
| FFLatePaymentInterest.TimePeriodParameter | Sources/FirebaseInterface/FirebaseFunction/FFParameterTypes/FFLatePaymentInterestParameter.swift:57-64 | a time period sends exactly two keys: `value` as an `.int` and `unit` as the string of its raw value, which reads back as the same unit |
| FFLatePaymentInterest.DecodeTimePeriod | Sources/FirebaseInterface/FirebaseFunction/FFParameterTypes/FFLatePaymentInterestParameter.swift:66 | a time period decodes exactly when it is an object with a whole-number `value` and a `unit` of `day`, `month` or `year`, and then carries that value and unit |
| FFLatePaymentInterest.DecodeTimePeriodRoundTrip | Sources/FirebaseInterface/FirebaseFunction/FFParameterTypes/FFLatePaymentInterestParameter.swift:57-66 | a time period decodes back from what it is sent as |
| FFLatePaymentInterest.Parameter | Sources/FirebaseInterface/FirebaseFunction/FFParameterTypes/FFLatePaymentInterestParameter.swift:68-77 | the interest sends exactly its two periods, its rate and its compound flag |
| FFLatePaymentInterest.Decode | Sources/FirebaseInterface/FirebaseFunction/FFParameterTypes/FFLatePaymentInterestParameter.swift:79 | all four fields are required |
| FFLatePaymentInterest.DecodeInternal | Sources/FirebaseInterface/FirebaseFunction/FFParameterTypes/FFLatePaymentInterestParameter.swift:68-79 | an interest decodes back from what it is sent as |
| FFPersonName.Parameter | Sources/FirebaseInterface/FirebaseFunction/FFParameterTypes/FFPersonNameParameter.swift:20-27 | both keys are always sent, and a missing last name is sent as nil |
| FFPersonName.Decode | Sources/FirebaseInterface/FirebaseFunction/FFParameterTypes/FFPersonNameParameter.swift:29 | `first` is required; `last` may be absent or null |
| FFPersonName.DecodeInternal | Sources/FirebaseInterface/FirebaseFunction/FFParameterTypes/FFPersonNameParameter.swift:20-29 | a name decodes back from what it is sent as |
| FFPerson.Parameter | Sources/FirebaseInterface/FirebaseFunction/FFParameterTypes/FFPersonParameter.swift:20-27 | a person sends exactly its id and its name |
| FFPerson.Decode | Sources/FirebaseInterface/FirebaseFunction/FFParameterTypes/FFPersonParameter.swift:29 | a person decodes exactly from an object whose `id` is a UUID string and whose `name` decodes as a name; the id is the parsed UUID and the name the decoded one; a non-object is a type mismatch |
| FFPerson.DecodeInternal | Sources/FirebaseInterface/FirebaseFunction/FFParameterTypes/FFPersonParameter.swift:20-29 | a person decodes back from what it is sent as |
| FFClubProperties.Parameter | Sources/FirebaseInterface/FirebaseFunction/FFParameterTypes/FFClubPropertiesParameter.swift:29-39 | club properties send exactly their five fields |
| FFClubProperties.Decode | Sources/FirebaseInterface/FirebaseFunction/FFParameterTypes/FFClubPropertiesParameter.swift:41 | all five fields are required, and the id must be a UUID |
| FFClubProperties.DecodeInternal | Sources/FirebaseInterface/FirebaseFunction/FFParameterTypes/FFClubPropertiesParameter.swift:29-41 | club properties decode back from what they are sent as |
| FFFine.Parameter | Sources/FirebaseInterface/FirebaseFunction/FFParameterTypes/FFFineParameter.swift:32-43 | a fine sends exactly its six fields, its number as a signed integer |
| FFFine.DecodePayedStateRoundTrip | Sources/FirebaseInterface/FirebaseFunction/FFParameterTypes/FFFineParameter.swift:20 | an updatable payed state decodes back, because the payed state's decoder skips `updateProperties` |
| FFFine.Decode | Sources/FirebaseInterface/FirebaseFunction/FFParameterTypes/FFFineParameter.swift:45 | all six fields are required |
| FFFine.DecodeOfFields | Sources/FirebaseInterface/FirebaseFunction/FFParameterTypes/FFFineParameter.swift:45 | when each field decodes to a part, the fine of those parts is the result |
| FFFine.DecodeInternal | Sources/FirebaseInterface/FirebaseFunction/FFParameterTypes/FFFineParameter.swift:32-45 | a fine decodes back from what it is sent as |
| FFFine.PayedStateNeedsUpdateProperties | Sources/FirebaseInterface/FirebaseFunction/FFParameterTypes/FFFineParameter.swift:20 | a fine whose payed state lacks `updateProperties` does not decode |
| FFReasonTemplate.Parameter | Sources/FirebaseInterface/FirebaseFunction/FFParameterTypes/FFReasonTemplateParameter.swift:26-35 | a template sends exactly its four fields |
| FFReasonTemplate.Decode | Sources/FirebaseInterface/FirebaseFunction/FFParameterTypes/FFReasonTemplateParameter.swift:37 | all four fields are required |
| FFReasonTemplate.DecodeInternal | Sources/FirebaseInterface/FirebaseFunction/FFParameterTypes/FFReasonTemplateParameter.swift:26-37 | a template decodes back from what it is sent as |
| FFReasonTemplate.FromInterface | Sources/FirebaseInterface/FirebaseFunction/FFParameterTypes/FFReasonTemplateParameter.swift:43-48 | id and message are copied, the amount converted with clamping and the importance converted to the same level |
| FFReasonTemplate.ToInterface | Sources/FirebaseInterface/FirebaseFunction/FFParameterTypes/FFReasonTemplateParameter.swift:11-24 | the template seen through `IReasonTemplate` converts back to the same template |
| FFReasonTemplate.InterfaceRoundTrip | Sources/FirebaseInterface/FirebaseFunction/FFParameterTypes/FFReasonTemplateParameter.swift:43-48 | converting to `IReasonTemplate` and back is the identity, and so is the reverse when the amount's hundredths are in range |
| FFPersonPropertiesWithIsAdmin.Parameter | Sources/FirebaseInterface/FirebaseFunction/FFParameterTypes/FFPersonPropertiesWithIsAdminParameter.swift:26-35 | the properties send exactly their four fields |
| FFPersonPropertiesWithIsAdmin.Decode | Sources/FirebaseInterface/FirebaseFunction/FFParameterTypes/FFPersonPropertiesWithIsAdminParameter.swift:37 | all four fields are required |
| FFPersonPropertiesWithIsAdmin.DecodeInternal | Sources/FirebaseInterface/FirebaseFunction/FFParameterTypes/FFPersonPropertiesWithIsAdminParameter.swift:26-37 | the properties decode back from what they are sent as |
| FFPersonPropertiesWithUserId.Parameter | Sources/FirebaseInterface/FirebaseFunction/FFParameterTypes/FFPersonPropertiesWithUserIdParameter.swift:26-35 | the properties send exactly their four fields |
| FFPersonPropertiesWithUserId.Decode | Sources/FirebaseInterface/FirebaseFunction/FFParameterTypes/FFPersonPropertiesWithUserIdParameter.swift:37 | all four fields are required |
| FFPersonPropertiesWithUserId.DecodeInternal | Sources/FirebaseInterface/FirebaseFunction/FFParameterTypes/FFPersonPropertiesWithUserIdParameter.swift:26-37 | the properties decode back from what they are sent as |
| FFSignInData.Parameter | Sources/FirebaseInterface/FirebaseFunction/FFParameterTypes/FFSignInDataParameter.swift:23-31 | sign-in data sends exactly three keys: `admin` as a `.bool`, `signInDate` as its ISO 8601 text and `userId` as a `.string` |
| FFSignInData.Decode | Sources/FirebaseInterface/FirebaseFunction/FFParameterTypes/FFSignInDataParameter.swift:33 | all three fields are required |
| FFSignInData.DecodeInternal | Sources/FirebaseInterface/FirebaseFunction/FFParameterTypes/FFSignInDataParameter.swift:23-33 | sign-in data decodes back from what it is sent as |
| FFSignInData.FromInterface | Sources/FirebaseInterface/FirebaseFunction/FFParameterTypes/FFSignInDataParameter.swift:39-43 | admin flag, sign-in date and user id are copied |
| FFSignInData.ToInterface | Sources/FirebaseInterface/FirebaseFunction/FFParameterTypes/FFSignInDataParameter.swift:11-21 | the sign-in data seen through `ISignInData` converts back to the same data |
| FFSignInData.InterfaceRoundTrip | Sources/FirebaseInterface/FirebaseFunction/FFParameterTypes/FFSignInDataParameter.swift:39-43 | the conversions to and from `ISignInData` are mutually inverse |
| FRDAmount.FromDouble | Sources/FirebaseInterface/FirebaseRealtimeDatabase/FRDTypes/FRDAmount.swift:21-24 | a stored number is truncated to units and hundredths, like the function-call amount |
| FRDAmount.Decode | Sources/FirebaseInterface/FirebaseRealtimeDatabase/FRDTypes/FRDAmount.swift:26-35 | an amount decodes exactly from a non-negative number; a negative one is corrupted data; the result is the number's whole units and its truncated hundredths |
| FRDAmount.DecodeAgreesWithFFAmount | Sources/FirebaseInterface/FirebaseRealtimeDatabase/FRDTypes/FRDAmount.swift:20-35 | the database and function-call amounts decode the same JSON to the same parts, and fail alike |
| FRDDeletable.FromDeletable | Sources/FirebaseInterface/FirebaseRealtimeDatabase/FRDTypes/FRDDeletable.swift:24-29 | an item stays an item and a deletion stays the deletion of the same id |
| FRDDeletable.ConcreteDeletable | Sources/FirebaseInterface/FirebaseRealtimeDatabase/FRDTypes/FRDDeletable.swift:31-36 | the conversion back keeps the case and its payload |
| FRDDeletable.RoundTrips | Sources/FirebaseInterface/FirebaseRealtimeDatabase/FRDTypes/FRDDeletable.swift:24-36 | the two conversions are mutually inverse |
| FRDDeleted.Make | Sources/FirebaseInterface/FirebaseRealtimeDatabase/FRDTypes/FRDDeleted.swift:15-17 | only `true` makes a tombstone |
| FRDDeleted.Deleted | Sources/FirebaseInterface/FirebaseRealtimeDatabase/FRDTypes/FRDDeleted.swift:20 | a tombstone always reports that it is deleted |
| FRDDeleted.Decode | Sources/FirebaseInterface/FirebaseRealtimeDatabase/FRDTypes/FRDDeleted.swift:28-34 | decoding succeeds exactly on an object whose `deleted` key holds `true` |
| FRDDeleted.IsTombstone | Sources/FirebaseInterface/FirebaseRealtimeDatabase/FRDFetcher.swift:164-165 | a payload is a tombstone exactly when it is an object whose `deleted` key holds `true`; the fetcher and observer use this probe to drop or report deleted records |
| FRDDeleted.DecodeFailures | Sources/FirebaseInterface/FirebaseRealtimeDatabase/FRDTypes/FRDDeleted.swift:29-33 | `deleted: false` is corrupted data and a missing key is a missing key |
| FRDDeleted.DecodeReadsOnlyDeleted | Sources/FirebaseInterface/FirebaseRealtimeDatabase/FRDTypes/FRDDeleted.swift:24-34 | only the `deleted` key is read; records that agree on it decode alike |
| FRDDeleted.AgreesWithFFDeletable | Sources/FirebaseInterface/FirebaseRealtimeDatabase/FRDTypes/FRDDeleted.swift:28-34 | a record the database sees as a tombstone is read by the function-call decoder as the deletion of its id; a record it rejects never decodes there as a deletion |
| FRDFineReason.Decode | Sources/FirebaseInterface/FirebaseRealtimeDatabase/FRDTypes/FRDFineReason.swift:28-40 | a template reason comes from a well-formed template id; a custom reason only when there is no template id and all three custom fields are present |
| FRDFineReason.DecodeAgreesWithFFFineReason | Sources/FirebaseInterface/FirebaseRealtimeDatabase/FRDTypes/FRDFineReason.swift:28-40 | the database and function-call decoders apply the same key priority and fail alike |
| FRDImportance.FromRawValue | Sources/FirebaseInterface/FirebaseRealtimeDatabase/FRDTypes/FRDImportance.swift:11-21 | only "high", "medium" and "low" are accepted, each giving its case |
| FRDImportance.Decode | Sources/FirebaseInterface/FirebaseRealtimeDatabase/FRDTypes/FRDImportance.swift:23 | decoding succeeds exactly on a string holding a raw value |
| FRDImportance.DecodeAgreesWithFFImportance | Sources/FirebaseInterface/FirebaseRealtimeDatabase/FRDTypes/FRDImportance.swift:11-23 | the database and function-call importances decode the same strings to the same case, and fail alike |
| FRDPayedState.Decode | Sources/FirebaseInterface/FirebaseRealtimeDatabase/FRDTypes/FRDPayedState.swift:30-48 | decoding succeeds exactly on the objects the function-call decoder reads; `state` decides the case, `payed` carries the stored `inApp` and `payDate`, a non-object is a type mismatch and an unknown state is corrupted data |
| FRDPayedState.StateWithoutDetails | Sources/FirebaseInterface/FirebaseRealtimeDatabase/FRDTypes/FRDPayedState.swift:40-45 | "unpayed" and "settled" decode whatever else the object holds |
| FRDPayedState.DecodeAgreesWithFFPayedState | Sources/FirebaseInterface/FirebaseRealtimeDatabase/FRDTypes/FRDPayedState.swift:30-48 | the database and function-call decoders read the same JSON to the same state, and fail alike |
| FRDLatePaymentInterest.UnitFromRawValue | Sources/FirebaseInterface/FirebaseRealtimeDatabase/FRDTypes/FRDLatePaymentInterest.swift:68-78 | only "day", "month" and "year" are accepted, each giving its unit |
| FRDLatePaymentInterest.DecodeUnit | Sources/FirebaseInterface/FirebaseRealtimeDatabase/FRDTypes/FRDLatePaymentInterest.swift:81 | decoding succeeds exactly on a string holding a unit's raw value |
| FRDLatePaymentInterest.UnitFromInterface | Sources/FirebaseInterface/FirebaseRealtimeDatabase/FRDTypes/FRDLatePaymentInterest.swift:87-93 | each interface unit becomes the stored unit of the same name |
| FRDLatePaymentInterest.ConcreteTimePeriodUnit | Sources/FirebaseInterface/FirebaseRealtimeDatabase/FRDTypes/FRDLatePaymentInterest.swift:95-101 | the interface unit converts back to the same stored unit |
| FRDLatePaymentInterest.UnitRoundTrips | Sources/FirebaseInterface/FirebaseRealtimeDatabase/FRDTypes/FRDLatePaymentInterest.swift:87-101 | the unit conversions to and from the interface are mutually inverse |
| FRDLatePaymentInterest.TimePeriodFromInterface | Sources/FirebaseInterface/FirebaseRealtimeDatabase/FRDTypes/FRDLatePaymentInterest.swift:59-62 | the value is copied and the unit converted |
| FRDLatePaymentInterest.DecodeTimePeriod | Sources/FirebaseInterface/FirebaseRealtimeDatabase/FRDTypes/FRDLatePaymentInterest.swift:53 | a time period decodes exactly when it is an object with a non-negative whole `value` and a `unit` of `day`, `month` or `year`, and then carries that value and unit |
| FRDLatePaymentInterest.Decode | Sources/FirebaseInterface/FirebaseRealtimeDatabase/FRDTypes/FRDLatePaymentInterest.swift:26 | an interest decodes exactly from an object whose two periods decode, whose rate is a number and whose compound flag is a Bool; the decoded fields are those stored; a non-object is a type mismatch and a missing interest-free period a missing key |
| FRDLatePaymentInterest.FromInterface | Sources/FirebaseInterface/FirebaseRealtimeDatabase/FRDTypes/FRDLatePaymentInterest.swift:32-37 | the rate and compound flag are copied and both periods converted |
| FRDLatePaymentInterest.ToInterface | Sources/FirebaseInterface/FirebaseRealtimeDatabase/FRDTypes/FRDLatePaymentInterest.swift:11-23 | the stored interest seen through `ILatePaymentInterest` converts back to the same interest |
| FRDLatePaymentInterest.ToParameter | Sources/FirebaseInterface/FirebaseRealtimeDatabase/FRDTypes/FRDLatePaymentInterest.swift:11-50 | the same interest as a function-call parameter: rate, compound flag and period values kept, each unit the one of the same raw value |
| FRDLatePaymentInterest.InterfaceRoundTrips | Sources/FirebaseInterface/FirebaseRealtimeDatabase/FRDTypes/FRDLatePaymentInterest.swift:28-101 | converting to the interface and back, or from it and back, changes nothing |
| FRDLatePaymentInterest.DecodeAgreesWithFFLatePaymentInterest | Sources/FirebaseInterface/FirebaseRealtimeDatabase/FRDTypes/FRDLatePaymentInterest.swift:11-53 | whatever the database decoder accepts, the function-call decoder reads as the same interest |
| FRDLatePaymentInterest.FFLatePaymentInterestAgreesWithDecode | Sources/FirebaseInterface/FirebaseRealtimeDatabase/FRDTypes/FRDLatePaymentInterest.swift:11-53 | whatever the function-call decoder accepts with non-negative periods, the database decoder accepts as the same interest |
| FRDLatePaymentInterest.TimePeriodAccepted | Sources/FirebaseInterface/FirebaseRealtimeDatabase/FRDTypes/FRDLatePaymentInterest.swift:43-53 | a function-call time period with a non-negative value is read as the same stored period |
| FRDLatePaymentInterest.TimePeriodAgrees | Sources/FirebaseInterface/FirebaseRealtimeDatabase/FRDTypes/FRDLatePaymentInterest.swift:43-53 | a stored time period is read as the same period by the function-call decoder |
| FRDClub.DecodePersonUserIds | Sources/FirebaseInterface/FirebaseRealtimeDatabase/FRDTypes/FRDClub.swift:26-29 | every entry of the stored map becomes a pair with a parsed person id, and a bad id fails |
| FRDClub.Decode | Sources/FirebaseInterface/FirebaseRealtimeDatabase/FRDTypes/FRDClub.swift:11-29 | a club decodes exactly when all five fields are present with the right kinds, and then carries exactly the stored values; a non-object is a type mismatch |
| FRDClub.FromInterface | Sources/FirebaseInterface/FirebaseRealtimeDatabase/FRDTypes/FRDClub.swift:35-41 | every stored property of the club is copied; the id is not stored |
| FRDClub.ClubPair | Sources/FirebaseInterface/FirebaseRealtimeDatabase/FRDTypes/FRDClub.swift:48-50 | the club's id is the key and its record the value |
| FRDClub.AsClub | Sources/FirebaseInterface/FirebaseRealtimeDatabase/FRDTypes/FRDClub.swift:52-74 | the pair's `id` is its key and every other accessor reads the value's field |
| FRDClub.ClubRoundTrips | Sources/FirebaseInterface/FirebaseRealtimeDatabase/FRDTypes/FRDClub.swift:48-74 | a club turned into a pair and read back is the same club, and conversely |
| KeyValuePairs.KeyValuePair.Id | Sources/FirebaseInterface/FirebaseRealtimeDatabase/KeyValuePair.swift:35-37 | the id of a pair is its key |
| KeyValuePairs.KeyValuePair.MapKey | Sources/FirebaseInterface/FirebaseRealtimeDatabase/KeyValuePair.swift:23-25 | the key is transformed and the value kept; a throwing transform gives its error |
| KeyValuePairs.KeyValuePair.MapValue | Sources/FirebaseInterface/FirebaseRealtimeDatabase/KeyValuePair.swift:30-32 | the value is transformed and the key kept; a throwing transform gives its error |
| KeyValuePairs.Tuples | Sources/FirebaseInterface/FirebaseRealtimeDatabase/KeyValuePair.swift:46 | one tuple per pair, in order |
| KeyValuePairs.Dictionary | Sources/FirebaseInterface/FirebaseRealtimeDatabase/KeyValuePair.swift:51-53 | the dictionary's keys are exactly the pairs' keys |
| KeyValuePairs.KeysOfDictionaryFromPairs | Sources/FirebaseInterface/Utilities.swift:28-30 | a dictionary built from tuples has exactly the tuples' keys |
| KeyValuePairs.DictionaryLastWins | Sources/FirebaseInterface/FirebaseRealtimeDatabase/KeyValuePair.swift:51-53 | the value under a key is that of the last pair with the key |
| KeyValuePairs.DictionaryEntryFromPair | Sources/FirebaseInterface/FirebaseRealtimeDatabase/KeyValuePair.swift:51-53 | every dictionary entry comes from some pair |
| KeyValuePairs.KeyValues | Sources/FirebaseInterface/FirebaseRealtimeDatabase/KeyValuePair.swift:56-58 | one pair per entry, each carrying its entry's value, with no key repeated |
| KeyValuePairs.KeyValuesComplete | Sources/FirebaseInterface/FirebaseRealtimeDatabase/KeyValuePair.swift:56-58 | every entry of the dictionary occurs among the pairs |
| KeyValuePairs.DictionaryOfKeyValues | Sources/FirebaseInterface/FirebaseRealtimeDatabase/KeyValuePair.swift:51-58 | turning a dictionary into pairs and back gives the same dictionary |
| KeyValuePairs.DistinctPairWins | Sources/FirebaseInterface/FirebaseRealtimeDatabase/KeyValuePair.swift:51-53 | with distinct keys every pair's value is the dictionary's value for its key |
| Utilities.DictionaryFromPairsLookup | Sources/FirebaseInterface/Utilities.swift:28-30 | a key is present iff some pair has it, and it maps to the last such pair's value |
| Utilities.DictionaryFromPairs | Sources/FirebaseInterface/Utilities.swift:28-30 | every pair's key is in the dictionary, and the last pair's value is the one kept for its key |
| Utilities.UniquingKeepingNewIsDictionaryFromPairs | Sources/FirebaseInterface/Utilities.swift:28-30 | uniquing keys by keeping the new value never fails and gives the last-wins dictionary |
| Utilities.UniquingDistinctKeys | Sources/FirebaseInterface/FirebaseRealtimeDatabase/KeyValuePair.swift:45-47 | with no repeated key the combine closure is never called, so the result is the plain dictionary |
| Utilities.UniquingKeys | Sources/FirebaseInterface/FirebaseRealtimeDatabase/KeyValuePair.swift:45-47 | building a dictionary with a combine closure can only fail when some key repeats |
| Utilities.UniquingKeysFromPairs | Sources/FirebaseInterface/FirebaseRealtimeDatabase/KeyValuePair.swift:45-47 | every key of the built dictionary comes from some pair |
| Utilities.DictionaryAppending | Sources/FirebaseInterface/Utilities.swift:37-41 | the copy maps the key to the value and keeps every other entry |
| Utilities.ArrayAppending | Sources/FirebaseInterface/Utilities.swift:49-53 | the copy is the array with the element at the end |
| Utilities.AppendingPairAgrees | Sources/FirebaseInterface/Utilities.swift:28-53 | appending a pair to the list and appending its entry to the dictionary built from the list agree |
| Utilities.IgnoreCountdown.constructor | Sources/FirebaseInterface/Utilities.swift:91 | the countdown starts at the number of notifications to ignore |
| Utilities.IgnoreCountdown.Notify | Sources/FirebaseInterface/Utilities.swift:92-97 | while the countdown is positive, a notification is swallowed and the countdown decreases; at zero it is forwarded |
| Utilities.Forwarded | Sources/FirebaseInterface/Utilities.swift:89-99 | the notifications passed on by a countdown starting at `ignore`: as many as arrive beyond the first `ignore`, the i-th being the (ignore+i)-th that arrived |
| Utilities.ForwardedSkipsFirst | Sources/FirebaseInterface/Utilities.swift:89-99 | exactly the first `ignore` notifications are suppressed, and the rest are forwarded in order |
| Utilities.MapThrowable | Sources/FirebaseInterface/Utilities.swift:114-118 | a failure stays, a success is transformed, and a throwing transform gives its error |
| Utilities.CompactMap | Sources/FirebaseInterface/Utilities.swift:123-130 | the outcome is dropped exactly when a success transforms to nil; failures and thrown errors pass as failures |
| Utilities.Filter | Sources/FirebaseInterface/Utilities.swift:135-143 | the outcome is dropped exactly when the predicate rejects a success; failures pass, and a throwing predicate gives its error |
| Utilities.MapThrowableIdentity | Sources/FirebaseInterface/Utilities.swift:114-118 | mapping with a transform that never throws is a plain map, and mapping with `success` is the identity |
| Utilities.MapThrowableCompose | Sources/FirebaseInterface/Utilities.swift:114-118 | mapping twice is mapping once with the composed transform |
| Utilities.CompactMapOfNonNil | Sources/FirebaseInterface/Utilities.swift:114-130 | a compact map whose transform never yields nil is a throwing map and never drops an outcome |
| Utilities.FilterIsCompactMap | Sources/FirebaseInterface/Utilities.swift:123-143 | filtering is the compact map that keeps the value exactly when the predicate holds |
| Observers.Fanout | Sources/FirebaseInterface/Observers.swift:29-33 | one call per listener with the value, in registration order |
| Observers.FanoutAppend | Sources/FirebaseInterface/Observers.swift:29-33 | a listener added last is called last |
| Observers.Observers.constructor | Sources/FirebaseInterface/Observers.swift:17-19 | a new list has no listeners |
| Observers.Observers.AddObserver | Sources/FirebaseInterface/Observers.swift:23-25 | the listener is appended after every earlier one |
| Observers.Observers.Receive | Sources/FirebaseInterface/Observers.swift:29-33 | every listener is called once with the value, in order, and the list is left unchanged |
| Observation.DatabaseReference.constructor | Sources/FirebaseInterface/Utilities.swift:77-79 | a new reference to the location has no listener attached |
| Observation.DatabaseReference.Observe | Sources/FirebaseInterface/Utilities.swift:92 | a fresh handle is issued and attached, and the other attached handles are kept |
| Observation.DatabaseReference.RemoveObserver | Sources/FirebaseInterface/FirebaseRealtimeDatabase/FRDObservation.swift:43 | exactly that handle is detached |
| Observation.FRDObservation.constructor | Sources/FirebaseInterface/FirebaseRealtimeDatabase/FRDObservation.swift:26-32 | the observation keeps the reference and handle, with a new empty listener list |
| Observation.FRDObservation.Deliver | Sources/FirebaseInterface/FirebaseRealtimeDatabase/FRDObservation.swift:29-31 | a result is handed to every listener in order, and a stopped observation delivers nothing |
| Observation.FRDObservation.Delivery | Sources/FirebaseInterface/FirebaseRealtimeDatabase/FRDObservation.swift:29-31 | a stopped observation makes no calls; otherwise one call per listener |
| Observation.FRDObservation.DeliveryCallsEveryListener | Sources/FirebaseInterface/FirebaseRealtimeDatabase/FRDObservation.swift:29-31 | the i-th call hands the result to the i-th listener |
| Observation.FRDObservation.AddObserver | Sources/FirebaseInterface/FirebaseRealtimeDatabase/FRDObservation.swift:36-38 | the listener is appended while the list exists, and nothing happens after a stop |
| Observation.FRDObservation.StopObservating | Sources/FirebaseInterface/FirebaseRealtimeDatabase/FRDObservation.swift:41-46 | with a handle, exactly that handle is detached and the reference and listeners are released; without one, the reference, its attached handles and the listeners stay; in both cases the handle and the reference's handle counter stay, so a detached handle is never issued again |
| Observation.FRDObservation.Map | Sources/FirebaseInterface/FirebaseRealtimeDatabase/FRDObservation.swift:54-61 | the derived observation shares the reference and handle, starts without listeners, and the source gains exactly the forwarding listener |
| Observation.FRDObservation.CompactMap | Sources/FirebaseInterface/FirebaseRealtimeDatabase/FRDObservation.swift:66-74 | the derived observation is built as for `map`, with the compact-map forwarder |
| Observation.FRDObservation.Filter | Sources/FirebaseInterface/FirebaseRealtimeDatabase/FRDObservation.swift:79-87 | the derived observation is built as for `map`, with the filter forwarder |
| Observation.ForwardMap | Sources/FirebaseInterface/FirebaseRealtimeDatabase/FRDObservation.swift:56-58 | the derived observation's listeners receive the transformed result |
| Observation.ForwardCompactMap | Sources/FirebaseInterface/FirebaseRealtimeDatabase/FRDObservation.swift:68-71 | a nil outcome reaches no one; any other outcome reaches the derived observation's listeners |
| Observation.ForwardFilter | Sources/FirebaseInterface/FirebaseRealtimeDatabase/FRDObservation.swift:81-84 | a rejected success reaches no one; anything else reaches the derived observation's listeners |
| Observation.ObserveEvent | Sources/FirebaseInterface/Utilities.swift:89-99 | one new transport listener is attached under a fresh handle, which the new observation holds, and the countdown starts at the number to ignore |
| Observation.OnSnapshot | Sources/FirebaseInterface/Utilities.swift:92-97 | while the countdown is positive a snapshot is swallowed and the countdown decreases; afterwards it is delivered to every listener |
| Observation.OnSnapshots | Sources/FirebaseInterface/Utilities.swift:89-99 | a run of snapshots delivers exactly those after the first `ignore`, in order, and the countdown ends at `max(ignore - n, 0)` |
| Observation.ForwardedAppend | Sources/FirebaseInterface/Utilities.swift:92-97 | one more notification is forwarded exactly when the countdown has run out by then |
| Observation.StoppedDeliversNothing | Sources/FirebaseInterface/FirebaseRealtimeDatabase/FRDObservation.swift:29-45 | once stopped, an observation delivers nothing |
| ChildObservation.ClassifyIdentifiable | Sources/FirebaseInterface/FirebaseRealtimeDatabase/FRDChildObservation.swift:57-67 | the added stream gives `added`, the changed stream `changed`, and the removed stream `removed` of the value's id |
| ChildObservation.ClassifyDeletable | Sources/FirebaseInterface/FirebaseRealtimeDatabase/FRDChildObservation.swift:74-99 | a tombstone on any stream is the removal of its id; an item is classified by its stream |
| ChildObservation.DeletableItemAgrees | Sources/FirebaseInterface/FirebaseRealtimeDatabase/FRDChildObservation.swift:57-99 | an item is classified as the identifiable classifier classifies its value |
| ChildObservation.RemovedStreamOnlyRemoves | Sources/FirebaseInterface/FirebaseRealtimeDatabase/FRDChildObservation.swift:91-98 | only removals come out of the removed stream |
| ChildObservation.IdentifiableChange | Sources/FirebaseInterface/FirebaseRealtimeDatabase/FRDChildObservation.swift:57-67 | a failure passes as a failure, and a success is classified by its stream |
| ChildObservation.DeletableChange | Sources/FirebaseInterface/FirebaseRealtimeDatabase/FRDChildObservation.swift:74-99 | a failure passes as a failure, and a success is classified with tombstones as removals |
| ChildObservation.FRDChildObservation.constructor | Sources/FirebaseInterface/FirebaseRealtimeDatabase/FRDChildObservation.swift:23-27 | the object holds the three given observations |
| ChildObservation.FRDChildObservation.StopObservating | Sources/FirebaseInterface/FirebaseRealtimeDatabase/FRDChildObservation.swift:30-34 | all three observations are stopped; each reference loses exactly the handles of the observations attached through it, and keeps its handle counter |
| ChildObservation.FRDChildObservation.AddObserver | Sources/FirebaseInterface/FirebaseRealtimeDatabase/FRDChildObservation.swift:57-67 | each of the three live observations gains exactly one classifying listener |
| ChildObservation.FRDChildObservation.Map | Sources/FirebaseInterface/FirebaseRealtimeDatabase/FRDChildObservation.swift:120-126 | each of the three observations is mapped, the derived ones sharing its reference and handle |
| ChildObservation.FRDChildObservation.CompactMap | Sources/FirebaseInterface/FirebaseRealtimeDatabase/FRDChildObservation.swift:131-137 | each of the three observations is compact-mapped the same way |
| ChildObservation.FRDChildObservation.Filter | Sources/FirebaseInterface/FirebaseRealtimeDatabase/FRDChildObservation.swift:142-148 | each of the three observations is filtered the same way |
| ChildObservation.ObserveChildren | Sources/FirebaseInterface/FirebaseRealtimeDatabase/FRDChildObservation.swift:108-112 | three listeners are attached to one reference under three distinct new handles; only the added stream skips the initial notifications |
| Fetcher.Shared | Sources/FirebaseInterface/FirebaseRealtimeDatabase/FRDFetcher.swift:33-42 | the shared fetcher has no cryption keys and reads the build's default database |
| Fetcher.Crypter | Sources/FirebaseInterface/FirebaseRealtimeDatabase/FRDFetcher.swift:45-52 | a crypter exists exactly when keys are set, and it uses them; otherwise the error is `noCryptionKeys` |
| Fetcher.WithCryptionKeys | Sources/FirebaseInterface/FirebaseRealtimeDatabase/FRDFetcher.swift:114-118 | the copy has the keys and keeps the database |
| Fetcher.ForTesting | Sources/FirebaseInterface/FirebaseRealtimeDatabase/FRDFetcher.swift:121-125 | the copy reads the testing database and keeps the keys |
| Fetcher.CrypterUsesLastKeys | Sources/FirebaseInterface/FirebaseRealtimeDatabase/FRDFetcher.swift:114-118 | after setting keys the crypter uses them, whichever database is read |
| Fetcher.Decode | Sources/FirebaseInterface/FirebaseRealtimeDatabase/FRDFetcher.swift:94-109 | a snapshot without data fails with `noDataInSnapshot`; with data it gives the snapshot's key with the decoded value exactly when the value decodes, and otherwise the decoding error |
| Fetcher.FetchValue | Sources/FirebaseInterface/FirebaseRealtimeDatabase/FRDFetcher.swift:59-62 | the snapshot read at the path of the fetcher's own database: no data fails with `noDataInSnapshot`; otherwise its key with the decoded value, or the decoding error |
| Fetcher.DecodeChild | Sources/FirebaseInterface/FirebaseRealtimeDatabase/FRDFetcher.swift:78-83 | a child that is not a snapshot fails with `childNoSnapshot`; a snapshot child is decoded and keeps its key, and succeeds whenever it has data that decodes |
| Fetcher.FetchChildren | Sources/FirebaseInterface/FirebaseRealtimeDatabase/FRDFetcher.swift:69-87 | without data the fetch fails; it succeeds exactly when every child decodes, else it gives the first failing child's error; the keys are the children's keys |
| Fetcher.FetchChildrenLastWins | Sources/FirebaseInterface/FirebaseRealtimeDatabase/FRDFetcher.swift:86 | a child with no later namesake is fetched under its key with its decoded value |
| Fetcher.ParseKey | Sources/FirebaseInterface/FirebaseRealtimeDatabase/FRDFetcher.swift:136-139 | a key parses exactly when it is a well-formed UUID text; otherwise the given error |
| Fetcher.FetchClub | Sources/FirebaseInterface/FirebaseRealtimeDatabase/FRDFetcher.swift:133-142 | the club is fetched at its own path; a fetch error passes on, a bad key fails with `snapshotKeyNoUUID`, and a fetched club with a UUID key always succeeds with that id and the stored fields |
| Fetcher.Decrypted | Sources/FirebaseInterface/FirebaseRealtimeDatabase/FRDFetcher.swift:158 | the keys are checked before decryption, and decryption uses those keys |
| Fetcher.FetchLatePaymentInterest | Sources/FirebaseInterface/FirebaseRealtimeDatabase/FRDFetcher.swift:147-169 | a location without data gives nil; a stored value that is not a string fails; a decryption error passes on; a tombstone gives nil; otherwise the decoded interest exactly when it decodes |
| Fetcher.ListEntry | Sources/FirebaseInterface/FirebaseRealtimeDatabase/FRDFetcher.swift:184-205 | a bad key is `snapshotKeyNoUUID`, a decrypt failure passes on, a tombstone is omitted, and otherwise the element is keyed by the parsed id |
| Fetcher.ListElements | Sources/FirebaseInterface/FirebaseRealtimeDatabase/FRDFetcher.swift:184-208 | any bad key fails the list; the list succeeds whenever every entry succeeds; on success every entry's element is present under its id and every element comes from a stored entry |
| Fetcher.FetchListElements | Sources/FirebaseInterface/FirebaseRealtimeDatabase/FRDFetcher.swift:178-209 | the list's entries are fetched as strings at the list's path and then turned into elements |
| Fetcher.DecodeListCounts | Sources/FirebaseInterface/FirebaseRealtimeDatabase/FRDFetcher.swift:236-243 | counts decode exactly when `total` and `undeleted` are both unsigned whole numbers, and then carry them; a non-object is a type mismatch and a missing key is reported by its name |
| Fetcher.FetchCount | Sources/FirebaseInterface/FirebaseRealtimeDatabase/FRDFetcher.swift:248-264 | the counts are read from the list's counts path; a snapshot without data fails, and stored counts that decode are returned |
| Fetcher.BadKeyFails | Sources/FirebaseInterface/FirebaseRealtimeDatabase/FRDFetcher.swift:187-189 | a map over all entries fails when any entry's transform fails |
| Observer.Shared | Sources/FirebaseInterface/FirebaseRealtimeDatabase/FRDObserver.swift:30-39 | the shared observer has no cryption keys and uses the build's default database |
| Observer.Crypter | Sources/FirebaseInterface/FirebaseRealtimeDatabase/FRDObserver.swift:42-49 | a crypter exists exactly when keys are set, and it uses them; otherwise the error is `noCryptionKeys` |
| Observer.WithCryptionKeys | Sources/FirebaseInterface/FirebaseRealtimeDatabase/FRDObserver.swift:100-104 | the copy has the keys and keeps the database |
| Observer.ForTesting | Sources/FirebaseInterface/FirebaseRealtimeDatabase/FRDObserver.swift:107-111 | the copy observes the testing database and keeps the keys |
| Observer.Decode | Sources/FirebaseInterface/FirebaseRealtimeDatabase/FRDObserver.swift:80-95 | a snapshot without data fails with `noDataInSnapshot`; with data it gives the snapshot's key with the decoded value exactly when the value decodes, and otherwise the decoding error |
| Observer.DecodeAgreesWithFetcher | Sources/FirebaseInterface/FirebaseRealtimeDatabase/FRDObserver.swift:80-95 | the observer's and the fetcher's decoders differ only in the error for a snapshot without data |
| Observer.Decrypted | Sources/FirebaseInterface/FirebaseRealtimeDatabase/FRDObserver.swift:123 | the keys are checked before decryption, and decryption uses those keys |
| Observer.LatePaymentInterest | Sources/FirebaseInterface/FirebaseRealtimeDatabase/FRDObserver.swift:120-135 | a tombstone gives nil, a decrypt or decode error passes on, and otherwise the interest |
| Observer.ListElement | Sources/FirebaseInterface/FirebaseRealtimeDatabase/FRDObserver.swift:144-167 | a bad key is `snapshotKeyNoUuid`, a tombstone is the deletion of the parsed id, and otherwise the item made from the decoded element |
| Observer.ListElementAgreesWithFetcher | Sources/FirebaseInterface/FirebaseRealtimeDatabase/FRDObserver.swift:143-167 | the observer reads an entry as the fetcher does: a deletion where the fetcher omits it, the same item where it keeps it |
| Observer.TombstoneIsRemoval | Sources/FirebaseInterface/FirebaseRealtimeDatabase/FRDObserver.swift:158-161 | on every stream an observed tombstone is reported as the removal of the id in its key |
| Observer.Reference | Sources/FirebaseInterface/FirebaseRealtimeDatabase/FRDObserver.swift:58 | a new reference to the path in the observer's database, with nothing attached |
| Observer.ObserveValue | Sources/FirebaseInterface/FirebaseRealtimeDatabase/FRDObserver.swift:57-61 | one transport listener on the path; the source has exactly the decoding forwarder, and the returned observation derives from it with the given countdown |
| Observer.OnValue | Sources/FirebaseInterface/FirebaseRealtimeDatabase/FRDObserver.swift:57-61 | while the countdown runs nothing is delivered; afterwards the decoded snapshot reaches the listeners |
| Observer.ObserveLatePaymentInterest | Sources/FirebaseInterface/FirebaseRealtimeDatabase/FRDObserver.swift:119-135 | one transport listener on the interest path, with a decoding stage and an interest stage chained behind it, skipping the initial value |
| Observer.OnLatePaymentInterest | Sources/FirebaseInterface/FirebaseRealtimeDatabase/FRDObserver.swift:119-135 | while the countdown runs a notification is swallowed and the countdown drops by one; afterwards the countdown stays at zero and the decoded interest (or nil for a tombstone) reaches the listeners |
| Observer.LatePaymentInterestOutcomes | Sources/FirebaseInterface/FirebaseRealtimeDatabase/FRDObserver.swift:119-135 | a stored tombstone is delivered as nil, and a snapshot without data as `noDataInSnapshot` |
| Observer.ObserveChildrenOf | Sources/FirebaseInterface/FirebaseRealtimeDatabase/FRDObserver.swift:69-73 | three listeners on the path's reference, with only the added stream skipping the initial notifications; the result derives from the source |
| Observer.ObserveListElements | Sources/FirebaseInterface/FirebaseRealtimeDatabase/FRDObserver.swift:143-167 | the list path's children are observed as strings and then mapped to list elements on all three streams |
| Observer.DefaultSkipsInitialValue | Sources/FirebaseInterface/FirebaseRealtimeDatabase/FRDObserver.swift:57 | by default the first notification, the value present when observing starts, is skipped and every later one passes |
| Snapshots.Segment | Sources/FirebaseInterface/FirebaseRealtimeDatabase/FRDFetcher.swift:214-230 | a list is stored under one of "persons", "reasonTemplates" and "fines" |
| Snapshots.SegmentsDistinct | Sources/FirebaseInterface/FirebaseRealtimeDatabase/FRDObserver.swift:174-194 | the three lists are stored under distinct segments |
| Snapshots.ClubPath | Sources/FirebaseInterface/FirebaseRealtimeDatabase/FRDFetcher.swift:134 | a club's location is its 36-character id text, which parses back to the id |
| Snapshots.Appending | Sources/FirebaseInterface/FirebaseRealtimeDatabase/FRDFetcher.swift:181 | the segment is joined below the location by one slash |
| Snapshots.ClubLocationsDistinct | Sources/FirebaseInterface/FirebaseRealtimeDatabase/FRDFetcher.swift:248-264 | lists and counts have injective paths, a list path is never a counts path, and neither is the interest path |
| Sequences.TryMap | Sources/FirebaseInterface/FirebaseRealtimeDatabase/FRDFetcher.swift:78-83 | success exactly when every element transforms, with the results in order; else the first element's error |
| Sequences.Compact | Sources/FirebaseInterface/FirebaseRealtimeDatabase/FRDFetcher.swift:208 | every kept element is present in the input and every present element is kept; a single element is kept exactly when present |
| Sequences.CompactAppend | Sources/FirebaseInterface/FirebaseRealtimeDatabase/FRDFetcher.swift:208 | compacting a concatenation is the concatenation of the compacted parts, which fixes order and multiplicity |
| Sequences.CompactOfPresent | Sources/FirebaseInterface/FirebaseRealtimeDatabase/FRDFetcher.swift:208 | a sequence with no nil is compacted to its payloads one for one |
| Uuids.UuidString | Sources/FirebaseInterface/FirebaseFunction/FFParameters.swift:247-251 | the text is 36 characters of upper-case hex digits with hyphens at the group borders |
| Uuids.ParseUuidString | Sources/FirebaseInterface/FirebaseFunction/FFParameters.swift:247-251 | every UUID survives being written out and read back |
| Uuids.Parse | Sources/FirebaseInterface/FirebaseRealtimeDatabase/FRDFetcher.swift:187 | a text parses exactly when it is well formed, in either letter case |
| Uuids.UuidStringOfParse | Sources/FirebaseInterface/FirebaseRealtimeDatabase/FRDFetcher.swift:136 | reading a text and writing it back gives the text with its hex letters upper-cased |
| Uuids.UuidStringInjective | Sources/FirebaseInterface/FirebaseFunction/FFParameters.swift:247-251 | distinct UUIDs have distinct texts |

## Left out

- Network and asynchrony:
  - `getData()`, `observe` and `httpsCallable(...).call` become function parameters or an explicit sequence of snapshots.
  - Swift concurrency and callback scheduling are not modelled.
- Firebase shares listeners per location. Here each database reference keeps its own set of attached handles.
- The `Crypter` package is imported by the fetcher and the observer, and is not part of this model. Decryption of a stored string, together with the JSON parsing of its plaintext, is one `decrypt` parameter.
- Swift closures registered as listeners are identified by numbers. What a listener does when called is outside the model; a call is recorded as a `Call`.
- The `Database` helpers of `Utilities.swift` (56-80) are not modelled. They resolve a URL and create a reference, which here is `DatabaseReference`.
- Not part of this model:
  - `FConfigurator` and `FAuthenticator` (app configuration and sign-in);
  - the `FFCalls` structs, one per remote function;
  - the `FFCallable` glue.
  `Caller` takes a call's name and parameters directly.
- The domain-model records `FRDPerson`, `FRDFine`, `FRDSignInData`, `FRDReasonTemplate` and `FRDPersonName` are not modelled one by one. Their decoders and conversions are the `decodeElement` and `make` parameters of the list operations.
- The model has one `FetchListElements`, `FetchCount` and `ObserveListElements`, selected by the list. They stand for `fetchPersons`, `fetchReasonTemplates`, `fetchFines`, their count fetchers and their observe variants.
- Integers and floating point:
  - Swift `Double` and `Float` are exact reals, so rounding in `Int(value * 100)` is not captured.
  - `Int` and `UInt` are unbounded `int` and `nat`, so overflow traps are not captured.
- `FFAmount.FromDouble`: states truncation for exact reals only. Binary floating point can yield one hundredth less than the decimal intent.
- Dates are opaque ISO 8601 strings, so any string decodes as a date. `ISO8601DateFormatter` parsing is not modelled.
- The internals of `JSONDecoder`, `FirebaseDecoder` and the Firebase SDK's value conversion are not modelled. Decoders read a `Json` tree, and a missing key, type mismatch or corrupted value are the three error kinds the sources rely on.
- Swift leaves the iteration order of a dictionary unspecified, so which entry's error is reported first is also unspecified:
  - `KeyValuePairs.KeyValues` picks the order with a ghost choice;
  - `FRDClub.DecodePersonUserIds`, `FRDClub.Decode`, `Fetcher.FetchClub`, `Fetcher.ListElements` and `Fetcher.FetchListElements` are therefore ghost functions.
- `Fetcher.ListElements`: states that every element comes from some stored entry, not which entry's error is reported when several fail, because that depends on the dictionary order.
- Where the test files and the sources disagree, the model follows the sources:
  - `FFFineParameter.swift:23` sends the fine number as `Int`, while the tests expect an unsigned value;
  - the fine's payed state needs `updateProperties` (`FFFineParameter.swift:20`), which a test fixture leaves out.

## Findings

| source | as written | input that shows it | evidently intended | confidence | as-written member | corrected member |
|---|---|---|---|---|---|---|
| Sources/FirebaseInterface/FirebaseFunction/FFCaller.swift:56 | every call is made in the region spelled `europa-west1` | a caller with a private key, and functions deployed only in `europe-west1`: the written request fails where the corrected one succeeds | `europe-west1`, the region named in every database URL of `DatabaseType.swift:23-32` | not executed | Caller.RequestAsWrittenMissesDatabaseRegion | Caller.RequestCorrected |
