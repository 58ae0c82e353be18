/**
 * `FFAmountParameter`: an amount of money as whole units and hundredths,
 * sent as a `Double` and decoded from one by truncation.
 *
 * `Double` is read as an exact real number here, so the truncation laws below
 * are those of exact arithmetic.
 */
module FFAmount {
  import opened Wrappers
  import opened Errors
  import opened Json
  import opened ParameterValues
  import ProjectTypes

  /** A sub-unit value, kept in 0...99 by `@Clamping(0...99)`. */
  type SubUnit = x: nat | x <= 99

  datatype FFAmountParameter = FFAmountParameter(value: nat, subUnitValue: SubUnit)

  /** `@Clamping(0...99)`: the nearest value in range. */
  function Clamp(x: int): (r: SubUnit)
    ensures 0 <= x <= 99 ==> r == x
  {
    if x < 0 then 0 else if x > 99 then 99 else x
  }

  /** `parameter`: units plus hundredths as one number. */
  function Parameter(a: FFAmountParameter): (r: real)
    ensures a.value as real <= r < a.value as real + 1.0
    ensures r * 100.0 == (a.value * 100 + a.subUnitValue) as real
  {
    a.value as real + a.subUnitValue as real / 100.0
  }

  /** `internalParameter`: the number as a `Double`. */
  function Internal(a: FFAmountParameter): InternalParameter
  {
    Double(Parameter(a))
  }

  /**
   * `init(fromDouble:)`: whole units by truncating the number, hundredths by
   * truncating a hundred times the number and subtracting the whole units.
   * The clamp never changes the hundredths: they are always in range.
   */
  function FromDouble(x: real): (r: FFAmountParameter)
    requires x >= 0.0
    ensures r.value == x.Floor
    ensures r.subUnitValue == (x * 100.0).Floor - 100 * x.Floor
  {
    var value := x.Floor;
    var sub := (x * 100.0).Floor - value * 100;
    assert 0 <= sub <= 99 by {
      assert value as real * 100.0 <= x * 100.0 < value as real * 100.0 + 100.0;
    }
    FFAmountParameter(value, Clamp(sub))
  }

  /** The amount decoded from a number is that number truncated to hundredths. */
  lemma FromDoubleTruncates(x: real)
    requires x >= 0.0
    ensures Parameter(FromDouble(x)) <= x < Parameter(FromDouble(x)) + 0.01
  {
    var a := FromDouble(x);
    assert Parameter(a) * 100.0 == (x * 100.0).Floor as real;
  }

  /** `init(from:)`: a single non-negative number. */
  function Decode(j: Json): (r: Decoded<FFAmountParameter>)
    ensures r.Success? <==> j.JNumber? && j.n >= 0.0
    ensures j.JNumber? && j.n < 0.0 ==> r == Failure(Decoding(DataCorrupted))
    ensures !j.JNumber? && j != JNull ==> r == Failure(Decoding(TypeMismatch))
    ensures j == JNull ==> r.Failure? && r.error.Decoding? && r.error.decoding.ValueNotFound?
    ensures r.Success? ==> r.value == FromDouble(j.n)
  {
    var raw :- DecodeDouble(j);
    if raw >= 0.0 then Success(FromDouble(raw)) else Failure(Decoding(DataCorrupted))
  }

  /** Decoding what an amount is sent as gives the amount back. */
  lemma DecodeInternal(a: FFAmountParameter)
    ensures Decode(ToJson(Internal(a))) == Success(a)
  {
    var x := Parameter(a);
    assert x.Floor == a.value;
    assert (x * 100.0).Floor == a.value * 100 + a.subUnitValue;
  }

  /** `init(_:)` from an `IAmount`: both parts copied, the hundredths clamped to 0...99. */
  function FromInterface(amount: ProjectTypes.Amount): (r: FFAmountParameter)
    ensures r.value == amount.value
    ensures amount.subUnitValue <= 99 ==> r.subUnitValue == amount.subUnitValue
    ensures amount.subUnitValue > 99 ==> r.subUnitValue == 99
  {
    FFAmountParameter(amount.value, Clamp(amount.subUnitValue))
  }

  /** The amount seen through `IAmount`. */
  function ToInterface(a: FFAmountParameter): (r: ProjectTypes.Amount)
    ensures r.value == a.value && r.subUnitValue == a.subUnitValue
    ensures FromInterface(r) == a
  {
    ProjectTypes.Amount(a.value, a.subUnitValue)
  }

  /** Converting to `IAmount` and back is the identity, and so is the other way round for in-range hundredths. */
  lemma InterfaceRoundTrip(a: FFAmountParameter, amount: ProjectTypes.Amount)
    ensures FromInterface(ToInterface(a)) == a
    ensures amount.subUnitValue <= 99 ==> ToInterface(FromInterface(amount)) == amount
  {
  }
}
