/** `FRDPayedState`: whether a stored fine is payed (in the app or not, and when), unpayed or settled. */
module FRDPayedState {
  import opened Wrappers
  import opened Errors
  import opened Json
  import Dates
  import FFPayedState

  datatype FRDPayedState = Payed(inApp: bool, payDate: Dates.Date) | Unpayed | Settled

  /**
   * `init(from:)`: a string `state` is required; `"payed"` also needs `inApp`
   * and `payDate`, `"unpayed"` and `"settled"` read nothing else, and any
   * other state is corrupted data.
   */
  function Decode(j: Json): (r: Decoded<FRDPayedState>)
    ensures r.Success? <==> j.JObject? && FFPayedState.ReadableFields(j.fields)
    ensures r.Success? && j.fields["state"].s == "payed" ==> r.value == Payed(j.fields["inApp"].b, Dates.Date(j.fields["payDate"].s))
    ensures r.Success? && j.fields["state"].s == "unpayed" ==> r.value == Unpayed
    ensures r.Success? && j.fields["state"].s == "settled" ==> r.value == Settled
    ensures !j.JObject? ==> r == Failure(Decoding(TypeMismatch))
    ensures (j.JObject? && "state" in j.fields && j.fields["state"].JString? && j.fields["state"].s !in {"payed", "unpayed", "settled"})
              ==> r == Failure(Decoding(DataCorrupted))
  {
    var fields :- KeyedContainer(j);
    var state :- Field(fields, "state", DecodeString);
    if state == "payed" then
      var inApp :- Field(fields, "inApp", DecodeBool);
      var payDate :- Field(fields, "payDate", DecodeDate);
      Success(Payed(inApp, payDate))
    else if state == "unpayed" then Success(Unpayed)
    else if state == "settled" then Success(Settled)
    else Failure(Decoding(DataCorrupted))
  }

  /** `"unpayed"` and `"settled"` decode whatever else the object holds. */
  lemma StateWithoutDetails(fields: map<string, Json>)
    ensures "state" in fields && fields["state"] == JString("unpayed") ==> Decode(JObject(fields)) == Success(Unpayed)
    ensures "state" in fields && fields["state"] == JString("settled") ==> Decode(JObject(fields)) == Success(Settled)
  {
  }

  /** The same state as a function-call payed state. */
  function FromParameter(s: FFPayedState.FFPayedStateParameter): FRDPayedState
  {
    match s
    case Payed(inApp, payDate) => Payed(inApp, payDate)
    case Unpayed => Unpayed
    case Settled => Settled
  }

  /** The database decoder and the function-call decoder read the same JSON to the same state, and fail alike. */
  lemma DecodeAgreesWithFFPayedState(j: Json)
    ensures Decode(j).Success? <==> FFPayedState.Decode(j).Success?
    ensures Decode(j).Success? ==> Decode(j).value == FromParameter(FFPayedState.Decode(j).value)
    ensures Decode(j).Failure? ==> Decode(j).error == FFPayedState.Decode(j).error
  {
  }
}
