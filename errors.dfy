/** The errors that the modelled code throws, gathered under Swift's existential `Error`. */
module Errors {

  /** The kinds of `DecodingError` the JSON decoders raise. */
  datatype DecodingError =
    | TypeMismatch
    | KeyNotFound(key: string)
    | ValueNotFound(key: string)
    | DataCorrupted

  /** `FRDFetcher.FetchError`. */
  datatype FetchError = FetchNoDataInSnapshot | ChildNoSnapshot | FetchSnapshotKeyNoUuid | FetchNoCryptionKeys

  /** `FRDObserver.ObserveError`. */
  datatype ObserveError = ObserveNoDataInSnapshot | ObserveNoCryptionKeys | ObserveSnapshotKeyNoUuid

  /** `FFCaller.CallError`. */
  datatype CallError = NoPrivateKey

  /** Anything a Swift function may throw. */
  datatype Error =
    | Decoding(decoding: DecodingError)
    | Fetch(fetch: FetchError)
    | Observe(observe: ObserveError)
    | Call(call: CallError)
    | Thrown(code: nat)  // an error raised by a caller-supplied closure or by an external library
}
