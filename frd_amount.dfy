/** `FRDAmount`: an amount as stored in the realtime database. */
module FRDAmount {
  import opened Wrappers
  import opened Errors
  import opened Json
  import FFAmount

  datatype Amount = Amount(value: nat, subUnitValue: FFAmount.SubUnit)

  /** `init(fromDouble:)`: the same truncation as the function-call amount. */
  function FromDouble(x: real): (r: Amount)
    requires x >= 0.0
    ensures r.value == x.Floor
    ensures r.subUnitValue == (x * 100.0).Floor - 100 * x.Floor
  {
    var value := x.Floor;
    var sub := (x * 100.0).Floor - value * 100;
    assert 0 <= sub <= 99 by {
      assert value as real * 100.0 <= x * 100.0 < value as real * 100.0 + 100.0;
    }
    Amount(value, FFAmount.Clamp(sub))
  }

  /** `init(from:)`: a single non-negative number. */
  function Decode(j: Json): (r: Decoded<Amount>)
    ensures r.Success? <==> j.JNumber? && j.n >= 0.0
    ensures j.JNumber? && j.n < 0.0 ==> r == Failure(Decoding(DataCorrupted))
    ensures r.Success? ==> r.value.value == j.n.Floor && r.value.subUnitValue == (j.n * 100.0).Floor - 100 * j.n.Floor
  {
    var raw :- DecodeDouble(j);
    if raw >= 0.0 then Success(FromDouble(raw)) else Failure(Decoding(DataCorrupted))
  }

  /** The database amount and the function-call amount decode the same JSON to the same parts, and fail alike. */
  lemma DecodeAgreesWithFFAmount(j: Json)
    ensures Decode(j).Success? <==> FFAmount.Decode(j).Success?
    ensures Decode(j).Failure? ==> Decode(j).error == FFAmount.Decode(j).error
    ensures Decode(j).Success? ==>
              Decode(j).value.value == FFAmount.Decode(j).value.value
              && Decode(j).value.subUnitValue == FFAmount.Decode(j).value.subUnitValue
  {
  }
}
