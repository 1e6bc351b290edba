/** Concrete responses and what the decoder makes of them. */
module DecodeCases {
  import opened Common
  import opened Json
  import opened QrngApi

  /** The response quoted in the module's test decodes to its five words;
      the `length` field is ignored. */
  lemma TestResponse()
    ensures Decode(Object(map[
              "success" := Bool(true), "type" := String("uint16"), "length" := String("5"),
              "data" := Array(DataFor(QrngNumbers.Uint16([49840, 24264, 44448, 26560, 22008])))]))
            == Success(QrngNumbers.Uint16([49840, 24264, 44448, 26560, 22008]))
  {
    var fields := map["success" := Bool(true), "type" := String("uint16"),
                      "data" := Array(DataFor(QrngNumbers.Uint16([49840, 24264, 44448, 26560, 22008])))];
    DecodeIgnoresOtherFields(fields, "length", String("5"));
    assert fields["length" := String("5")] == map[
              "success" := Bool(true), "type" := String("uint16"), "length" := String("5"),
              "data" := Array(DataFor(QrngNumbers.Uint16([49840, 24264, 44448, 26560, 22008])))];
    assert Object(fields) == Response("uint16", DataFor(QrngNumbers.Uint16([49840, 24264, 44448, 26560, 22008])));
    DecodeResponse(QrngNumbers.Uint16([49840, 24264, 44448, 26560, 22008]), "uint16");
  }

  /** `success: false` is reported as such, whatever `data` and `type` hold. */
  lemma UnsuccessfulResponse(data: Value, t: Value)
    ensures Decode(Object(map["success" := Bool(false), "type" := t, "data" := data]))
            == Failure(UnsuccessfulRequest)
  {
  }

  /** 300 does not fit a `u8`. */
  lemma OutOfRangeByte()
    ensures Decode(Response("uint8", [Number(PosInt(300))])) == Failure(InvalidNumber)
  {
  }

  /** A string among the numbers is an invalid number, not invalid JSON. */
  lemma StringAmongNumbers()
    ensures Decode(Response("uint16", [Number(PosInt(1)), String("2")])) == Failure(InvalidNumber)
  {
  }

  /** A number among the hex strings is invalid JSON. */
  lemma NumberAmongHex()
    ensures Decode(Response("hex8", [String("a1"), Number(PosInt(7))])) == Failure(InvalidJson)
  {
  }

  /** Hex strings are kept as they are. */
  lemma HexResponse()
    ensures Decode(Response("hex16", [String("a1b2"), String("c3d4")]))
            == Success(Hex(["a1b2", "c3d4"]))
  {
    var n := Hex(["a1b2", "c3d4"]);
    assert DataFor(n) == [String("a1b2"), String("c3d4")];
    DecodeResponse(n, "hex16");
  }

  /** A top-level array is invalid JSON. */
  lemma ArrayResponse()
    ensures Decode(Array([Bool(true)])) == Failure(InvalidJson)
  {
  }

  /** An unrecognised type is reported once the envelope is well formed. */
  lemma UnknownType()
    ensures Decode(Response("ternary", [])) == Failure(UnknownDataType)
  {
  }

  /** The `data` check comes first: an unrecognised type with a `data`
      that is not an array is invalid JSON. */
  lemma UnknownTypeBadData()
    ensures Decode(Object(map["success" := Bool(true), "type" := String("ternary"), "data" := Null]))
            == Failure(InvalidJson)
  {
  }
}
