/** The JSON client of the ANU QRNG service (`src/qrng_tester/qrng_api.rs`):
    the decoder that turns the service's JSON response into typed numbers
    or one of four errors, and the request URL that `get_block` builds.
    The HTTP round trip and the reading of the API key are not modelled. */
module QrngApi {
  import opened Common
  import opened Json
  import opened Params
  import Decimal
  import RequestParse

  /** The decoded numbers, tagged by the type the response announced. */
  datatype QrngNumbers = Uint8(bytes: seq<u8>) | Uint16(words: seq<u16>) | Hex(strings: seq<string>)

  /** The decoder's four errors, each a message without an underlying cause. */
  datatype DecodeError = InvalidJson | UnsuccessfulRequest | InvalidNumber | UnknownDataType

  function Message(e: DecodeError): string {
    match e
    case InvalidJson => "invalid json response"
    case UnsuccessfulRequest => "json success property is false"
    case InvalidNumber => "a number in the data does not conform to the type implied by the type property"
    case UnknownDataType => "unrecognized data type in type property"
  }

  /** The messages are the only thing that tells the errors apart; they are
      pairwise distinct. */
  lemma MessagesDistinct(e: DecodeError, f: DecodeError)
    ensures Message(e) == Message(f) <==> e == f
  {
  }

  // ---------------------------------------------------------------------
  // Vocabulary of the decoder's contract

  /** The element type `uint_vector` is instantiated with. */
  datatype UintWidth = W8 | W16

  function MaxOf(w: UintWidth): nat {
    match w
    case W8 => 0xFF
    case W16 => 0xFFFF
  }

  /** `v` is a JSON number that denotes an integer in `0..=max`. */
  predicate IsUintUpTo(v: Value, max: nat) {
    v.Number? && v.num.PosInt? && v.num.n <= max
  }

  /** `data` is, element for element, the JSON rendering of `n`. */
  predicate Represents(data: seq<Value>, n: QrngNumbers) {
    match n
    case Uint8(b) => |b| == |data| && forall i :: 0 <= i < |b| ==> data[i] == Number(PosInt(b[i]))
    case Uint16(w) => |w| == |data| && forall i :: 0 <= i < |w| ==> data[i] == Number(PosInt(w[i]))
    case Hex(h) => |h| == |data| && forall i :: 0 <= i < |h| ==> data[i] == String(h[i])
  }

  /** The variant of `n` is the one the type string `t` announces. */
  predicate VariantMatches(t: string, n: QrngNumbers) {
    match n
    case Uint8(_) => t == "uint8"
    case Uint16(_) => t == "uint16"
    case Hex(_) => t == "hex8" || t == "hex16"
  }

  predicate IsKnownType(t: string) {
    t == "uint8" || t == "uint16" || t == "hex8" || t == "hex16"
  }

  /** `json` is an object whose field `key` holds a boolean. */
  predicate HasBool(json: Value, key: string) {
    json.Object? && key in json.fields && json.fields[key].Bool?
  }

  predicate HasArray(json: Value, key: string) {
    json.Object? && key in json.fields && json.fields[key].Array?
  }

  predicate HasString(json: Value, key: string) {
    json.Object? && key in json.fields && json.fields[key].String?
  }

  /** The response says it succeeded and carries a `data` array and a
      `type` string: every check before the dispatch on `type` passes. */
  predicate Envelope(json: Value) {
    HasBool(json, "success") && json.fields["success"].b
    && HasArray(json, "data") && HasString(json, "type")
  }

  function DataOf(json: Value): seq<Value>
    requires Envelope(json)
  {
    json.fields["data"].items
  }

  function TypeOf(json: Value): string
    requires Envelope(json)
  {
    json.fields["type"].s
  }

  // ---------------------------------------------------------------------
  // The decoder

  /** `T::try_from(u64)` for `T` = `u8` or `u16`. */
  function TryInto(n: u64, w: UintWidth): Option<nat> {
    if n <= MaxOf(w) then Some(n) else None
  }

  /** One element of the `uint_vector` loop: it must be a number, the number
      must be a `u64`, and the `u64` must fit the element type. */
  function UintElement(v: Value, w: UintWidth): (r: Option<nat>)
    ensures r.Some? <==> IsUintUpTo(v, MaxOf(w))
    ensures r.Some? ==> r.value <= MaxOf(w) && v == Number(PosInt(r.value))
  {
    if !v.Number? then None
    else match AsU64(v.num)
      case None => None
      case Some(n) => TryInto(n, w)
  }

  /** The `for val in values` loop of `uint_vector`: `acc` is `ret_vec` so
      far; the first element that fails ends the loop with INVALID_NUMBER. */
  function UintLoop(values: seq<Value>, w: UintWidth, acc: seq<nat>): (r: Result<seq<nat>, DecodeError>)
    requires forall j :: 0 <= j < |acc| ==> acc[j] <= MaxOf(w)
    ensures r.Success? <==> forall i :: 0 <= i < |values| ==> IsUintUpTo(values[i], MaxOf(w))
    ensures r.Failure? ==> r.error == InvalidNumber
    ensures r.Success? ==> |r.value| == |acc| + |values| && r.value[..|acc|] == acc
    ensures r.Success? ==> forall j :: 0 <= j < |r.value| ==> r.value[j] <= MaxOf(w)
    ensures r.Success? ==> forall i :: 0 <= i < |values| ==> values[i] == Number(PosInt(r.value[|acc| + i]))
    decreases |values|
  {
    if |values| == 0 then Success(acc)
    else match UintElement(values[0], w)
      case None => Failure(InvalidNumber)
      case Some(n) => UintLoop(values[1..], w, acc + [n])
  }

  /** `ret_vec.into()`: the `From<Vec<u8>>` or `From<Vec<u16>>` conversion. */
  function Into(w: UintWidth, v: seq<nat>): (r: QrngNumbers)
    requires forall j :: 0 <= j < |v| ==> v[j] <= MaxOf(w)
    ensures r.Uint8? <==> w == W8
    ensures r.Uint16? <==> w == W16
    ensures r.Uint8? ==> r.bytes == v
    ensures r.Uint16? ==> r.words == v
  {
    match w
    case W8 =>
      assert MaxOf(w) == 0xFF;
      assert forall j :: 0 <= j < |v| ==> v[j] < 0x100;
      QrngNumbers.Uint8(v)
    case W16 =>
      assert MaxOf(w) == 0xFFFF;
      assert forall j :: 0 <= j < |v| ==> v[j] < 0x1_0000;
      QrngNumbers.Uint16(v)
  }

  /** `uint_vector::<T>`: every element must be an integer in `T`'s range. */
  function UintVector(values: seq<Value>, w: UintWidth): (r: Result<QrngNumbers, DecodeError>)
    ensures r.Success? <==> forall i :: 0 <= i < |values| ==> IsUintUpTo(values[i], MaxOf(w))
    ensures r.Failure? ==> r.error == InvalidNumber
    ensures r.Success? ==> Represents(values, r.value) && (r.value.Uint8? <==> w == W8) && !r.value.Hex?
  {
    match UintLoop(values, w, [])
    case Failure(e) => Failure(e)
    case Success(v) => Success(Into(w, v))
  }

  /** The `for val in values` loop of the hex branch: every element must be
      a string, and is kept as it is. */
  function HexLoop(values: seq<Value>, acc: seq<string>): (r: Result<seq<string>, DecodeError>)
    ensures r.Success? <==> forall i :: 0 <= i < |values| ==> values[i].String?
    ensures r.Failure? ==> r.error == InvalidJson
    ensures r.Success? ==> |r.value| == |acc| + |values| && r.value[..|acc|] == acc
    ensures r.Success? ==> forall i :: 0 <= i < |values| ==> values[i] == String(r.value[|acc| + i])
    decreases |values|
  {
    if |values| == 0 then Success(acc)
    else if !values[0].String? then Failure(InvalidJson)
    else HexLoop(values[1..], acc + [values[0].s])
  }

  /** `qrng_numbers_from_json`: the checks run in a fixed order (object,
      `success`, `data`, `type`), then the `type` string selects the element
      decoding. */
  function Decode(json: Value): (r: Result<QrngNumbers, DecodeError>)
    ensures !json.Object? ==> r == Failure(InvalidJson)
    ensures json.Object? && !HasBool(json, "success") ==> r == Failure(InvalidJson)
    ensures HasBool(json, "success") && !json.fields["success"].b ==> r == Failure(UnsuccessfulRequest)
    ensures (HasBool(json, "success") && json.fields["success"].b
             && !(HasArray(json, "data") && HasString(json, "type"))) ==> r == Failure(InvalidJson)
    ensures Envelope(json) && !IsKnownType(TypeOf(json)) ==> r == Failure(UnknownDataType)
    ensures r.Success? ==> Envelope(json) && VariantMatches(TypeOf(json), r.value) && Represents(DataOf(json), r.value)
  {
    if !json.Object? then Failure(InvalidJson)
    else
      var obj := json.fields;
      if !("success" in obj && obj["success"].Bool?) then Failure(InvalidJson)
      else if !obj["success"].b then Failure(UnsuccessfulRequest)
      else if !("data" in obj && obj["data"].Array?) then Failure(InvalidJson)
      else
        var values := obj["data"].items;
        // `obj.remove("data")` takes the array out before `type` is read
        var rest := obj - {"data"};
        if !("type" in rest && rest["type"].String?) then Failure(InvalidJson)
        else
          DecodeData(rest["type"].s, values)
  }

  /** The closing `match` of `qrng_numbers_from_json`: the `type` string
      selects how `data` is decoded. */
  function DecodeData(typeOfData: string, values: seq<Value>): (r: Result<QrngNumbers, DecodeError>)
    ensures !IsKnownType(typeOfData) ==> r == Failure(UnknownDataType)
    ensures r.Success? ==> VariantMatches(typeOfData, r.value) && Represents(values, r.value)
  {
    if typeOfData == "uint8" then UintVector(values, W8)
    else if typeOfData == "uint16" then UintVector(values, W16)
    else if typeOfData == "hex8" || typeOfData == "hex16" then
      match HexLoop(values, [])
      case Failure(e) => Failure(e)
      case Success(h) => Success(Hex(h))
    else Failure(UnknownDataType)
  }

  /** Once the envelope checks pass, the decode is the dispatch on `type`. */
  lemma DecodeEnvelope(json: Value)
    requires Envelope(json)
    ensures Decode(json) == DecodeData(TypeOf(json), DataOf(json))
  {
  }

  // ---------------------------------------------------------------------
  // Facts about the decoder

  /** With `success: true` and the `type` "uint8", the decode succeeds
      exactly when every `data` element is an integer in `0..=255`; any other
      element is an invalid number, and the result is the `Uint8` variant. */
  lemma DecodeUint8(json: Value)
    requires Envelope(json) && TypeOf(json) == "uint8"
    ensures Decode(json).Success? <==> forall i :: 0 <= i < |DataOf(json)| ==> IsUintUpTo(DataOf(json)[i], 0xFF)
    ensures Decode(json).Failure? ==> Decode(json).error == InvalidNumber
    ensures Decode(json).Success? ==> Decode(json).value.Uint8?
  {
    DecodeEnvelope(json);
  }

  /** The same for "uint16", with the bound 65535. */
  lemma DecodeUint16(json: Value)
    requires Envelope(json) && TypeOf(json) == "uint16"
    ensures Decode(json).Success? <==> forall i :: 0 <= i < |DataOf(json)| ==> IsUintUpTo(DataOf(json)[i], 0xFFFF)
    ensures Decode(json).Failure? ==> Decode(json).error == InvalidNumber
    ensures Decode(json).Success? ==> Decode(json).value.Uint16?
  {
    DecodeEnvelope(json);
  }

  /** For "hex8" and "hex16" the decode succeeds exactly when every element
      is a string; the strings are kept unchecked, whatever their content or
      width, and a non-string element is invalid JSON. */
  lemma DecodeHex(json: Value)
    requires Envelope(json) && (TypeOf(json) == "hex8" || TypeOf(json) == "hex16")
    ensures Decode(json).Success? <==> forall i :: 0 <= i < |DataOf(json)| ==> DataOf(json)[i].String?
    ensures Decode(json).Failure? ==> Decode(json).error == InvalidJson
    ensures Decode(json).Success? ==> Decode(json).value.Hex? && Represents(DataOf(json), Decode(json).value)
  {
    DecodeEnvelope(json);
  }

  /** Fields other than `success`, `data` and `type` (such as the `length`
      the service sends) do not affect the decode. */
  lemma DecodeIgnoresOtherFields(fields: map<string, Value>, key: string, v: Value)
    requires key != "success" && key != "data" && key != "type"
    ensures Decode(Object(fields[key := v])) == Decode(Object(fields))
  {
  }

  /** Two results that the same `data` represents, with variants the same
      type string announces, are equal. */
  lemma RepresentsUnique(t: string, data: seq<Value>, m: QrngNumbers, n: QrngNumbers)
    requires Represents(data, m) && Represents(data, n)
    requires VariantMatches(t, m) && VariantMatches(t, n)
    ensures m == n
  {
  }

  /** The `data` array the service sends for `n`. */
  function DataFor(n: QrngNumbers): (data: seq<Value>)
    ensures Represents(data, n)
  {
    match n
    case Uint8(b) => seq(|b|, i requires 0 <= i < |b| => Number(PosInt(b[i])))
    case Uint16(w) => seq(|w|, i requires 0 <= i < |w| => Number(PosInt(w[i])))
    case Hex(h) => seq(|h|, i requires 0 <= i < |h| => String(h[i]))
  }

  /** A successful response of type `t` carrying `data`. */
  function Response(t: string, data: seq<Value>): (json: Value)
    ensures Envelope(json) && TypeOf(json) == t && DataOf(json) == data
  {
    Object(map["success" := Bool(true), "type" := String(t), "data" := Array(data)])
  }

  /** Decoding inverts the service's encoding: a successful response whose
      `type` announces the variant of `n` and whose `data` renders `n`
      decodes to `n`, and nothing else decodes from it. */
  lemma {:induction false} DecodeResponse(n: QrngNumbers, t: string)
    requires VariantMatches(t, n)
    ensures Decode(Response(t, DataFor(n))) == Success(n)
  {
    var data := DataFor(n);
    var json := Response(t, data);
    if n.Uint8? {
      DecodeUint8(json);
      forall i | 0 <= i < |data| ensures IsUintUpTo(data[i], 0xFF) {
        assert data[i] == Number(PosInt(n.bytes[i]));
      }
    } else if n.Uint16? {
      DecodeUint16(json);
      forall i | 0 <= i < |data| ensures IsUintUpTo(data[i], 0xFFFF) {
        assert data[i] == Number(PosInt(n.words[i]));
      }
    } else {
      DecodeHex(json);
      forall i | 0 <= i < |data| ensures data[i].String? {
        assert data[i] == String(n.strings[i]);
      }
    }
    RepresentsUnique(t, data, Decode(json).value, n);
  }

  // ---------------------------------------------------------------------
  // The request URL

  /** The `type` query value of each data type (the first `match` of
      `get_block`). */
  function TypeStr(dt: DataType): (t: string)
    ensures IsKnownType(t)
  {
    match dt
    case Uint8 => "uint8"
    case Uint16 => "uint16"
    case Hex8(_) => "hex8"
    case Hex16(_) => "hex16"
  }

  /** The URL `get_block` requests: the length and type, then the block
      size for the hex types. */
  function RequestUrl(dt: DataType, length: ArrayLength): string {
    var url := BaseUrl + "?length=" + Decimal.Show(ArrayLengthValue(length)) + "&type=" + TypeStr(dt);
    if dt.Hex8? || dt.Hex16? then url + "&size=" + Decimal.Show(BlockSizeValue(dt.size)) else url
  }

  /** The request URL reads back as the data type and length it was built
      from: `length` and `type` always, `size` exactly for the hex types. */
  lemma {:induction false} RequestUrlRoundTrip(dt: DataType, length: ArrayLength)
    ensures RequestParse.ParseRequestUrl(RequestUrl(dt, length)) == Some((dt, length))
  {
    var head := BaseUrl + "?length=";
    var query := Decimal.Show(length) + ("&type=" + (TypeStr(dt) + SizeParam(dt)));
    RequestUrlShape(dt, length);
    assert (head + query)[|head|..] == query;
    QueryRoundTrip(dt, length);
  }

  /** The request URL is the fixed head followed by the query. */
  lemma RequestUrlShape(dt: DataType, length: ArrayLength)
    ensures RequestUrl(dt, length)
            == (BaseUrl + "?length=") + (Decimal.Show(length) + ("&type=" + (TypeStr(dt) + SizeParam(dt))))
  {
    Regroup(BaseUrl + "?length=", Decimal.Show(length), "&type=", TypeStr(dt), SizeParam(dt));
  }

  lemma Regroup(a: string, b: string, c: string, d: string, e: string)
    ensures a + b + c + d + e == a + (b + (c + (d + e)))
  {
  }

  /** The query after `?length=` reads back as the request. */
  lemma QueryRoundTrip(dt: DataType, length: ArrayLength)
    ensures RequestParse.ParseQuery(Decimal.Show(length) + ("&type=" + (TypeStr(dt) + SizeParam(dt)))) == Some((dt, length))
  {
    var lengthText := Decimal.Show(length);
    var tail := "&type=" + (TypeStr(dt) + SizeParam(dt));
    RequestParse.SpanDigitsOf(lengthText, tail);
    Decimal.ReadShow(length);
    assert tail[6..] == TypeStr(dt) + SizeParam(dt);
    TypeParamRoundTrip(dt);
  }

  /** The block-size parameter `get_block` appends, empty for the integer
      types. */
  function SizeParam(dt: DataType): string {
    if dt.Hex8? || dt.Hex16? then "&size=" + Decimal.Show(BlockSizeValue(dt.size)) else ""
  }

  /** The `type` and `size` parameters read back as the data type. */
  lemma TypeParamRoundTrip(dt: DataType)
    ensures RequestParse.ParseType(TypeStr(dt) + SizeParam(dt)) == Some(dt)
  {
    RequestParse.SpanUntilOf(TypeStr(dt), SizeParam(dt), '&');
    if dt.Hex8? || dt.Hex16? {
      assert SizeParam(dt)[6..] == Decimal.Show(dt.size);
      Decimal.ReadShow(dt.size);
    }
  }

  /** Different requests have different URLs. */
  lemma RequestUrlInjective(dt: DataType, length: ArrayLength, dt': DataType, length': ArrayLength)
    ensures RequestUrl(dt, length) == RequestUrl(dt', length') ==> dt == dt' && length == length'
  {
    RequestUrlRoundTrip(dt, length);
    RequestUrlRoundTrip(dt', length');
  }

  /** The type a request asks for is one the decoder knows, and a successful
      decode of a response to it has the matching variant. */
  lemma RequestedTypeDecodes(dt: DataType, json: Value)
    requires Envelope(json) && TypeOf(json) == TypeStr(dt)
    ensures Decode(json) != Failure(UnknownDataType)
    ensures Decode(json).Success? ==>
              (Decode(json).value.Uint8? <==> dt.Uint8?) && (Decode(json).value.Uint16? <==> dt.Uint16?)
  {
  }
}
