/** The parsed JSON value the decoder receives (serde_json's `Value`).
    Parsing JSON text is outside the model: values arrive already parsed. */
module Json {
  import opened Common

  /** A negative `i64`. */
  type NegativeInt = i: int | -0x8000_0000_0000_0000 <= i < 0 witness -1

  /** serde_json keeps a number in one of three representations: a `u64`,
      a negative `i64`, or a floating-point value (every literal with a
      fraction or an exponent, and every integer that fits neither integer
      type). The model keeps the integers exactly and treats all
      floating-point numbers alike, since the decoder only asks whether a
      number is a `u64`. */
  datatype NumberKind = PosInt(n: u64) | NegInt(i: NegativeInt) | Float

  datatype Value =
    | Null
    | Bool(b: bool)
    | Number(num: NumberKind)
    | String(s: string)
    | Array(items: seq<Value>)
    | Object(fields: map<string, Value>)

  /** `Number::as_u64`: the number as a `u64`, when it is a non-negative
      integer that fits 64 bits. */
  function AsU64(num: NumberKind): (r: Option<u64>)
    ensures r.Some? <==> num.PosInt?
    ensures r.Some? ==> num == PosInt(r.value)
  {
    match num
    case PosInt(n) => Some(n)
    case NegInt(_) => None
    case Float => None
  }
}
