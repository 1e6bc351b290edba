/** The earlier client, `src/qrng_tester/qrng.rs`: it builds the request URL
    with a single `match` and prints the raw response. Only the URL is
    modelled; it is shown to agree with the one `qrng_api.rs` builds. */
module Qrng {
  import opened Common
  import opened Params
  import Decimal
  import QrngApi
  import RequestParse

  /** `get_type_str`: the `type` query value of a data type. */
  function GetTypeStr(dt: DataType): string {
    match dt
    case Uint8 => "uint8"
    case Uint16 => "uint16"
    case Hex8(_) => "hex8"
    case Hex16(_) => "hex16"
  }

  /** The two data types ask for the same kind of values, whatever their
      block sizes. */
  predicate SameKind(a: DataType, b: DataType) {
    (a.Uint8? && b.Uint8?) || (a.Uint16? && b.Uint16?) || (a.Hex8? && b.Hex8?) || (a.Hex16? && b.Hex16?)
  }

  /** The four type strings are pairwise distinct, and the block size does
      not affect them. */
  lemma GetTypeStrDistinguishesKinds(a: DataType, b: DataType)
    ensures GetTypeStr(a) == GetTypeStr(b) <==> SameKind(a, b)
  {
  }

  /** `get_type_str` and the inline `match` of `qrng_api.rs` agree. */
  lemma GetTypeStrAgrees(dt: DataType)
    ensures GetTypeStr(dt) == QrngApi.TypeStr(dt)
  {
  }

  /** The URL of `get_block`: length and type for the integer types, and the
      block size after them for the hex types. */
  function Url(dt: DataType, length: ArrayLength): string {
    match dt
    case Uint8 | Uint16 =>
      BaseUrl + "?length=" + Decimal.Show(ArrayLengthValue(length)) + "&type=" + GetTypeStr(dt)
    case Hex8(_) | Hex16(_) =>
      BaseUrl + "?length=" + Decimal.Show(ArrayLengthValue(length)) + "&type=" + GetTypeStr(dt)
        + "&size=" + Decimal.Show(BlockSizeValue(dt.size))
  }

  /** Both clients request the same URL for every data type and length. */
  lemma UrlAgrees(dt: DataType, length: ArrayLength)
    ensures Url(dt, length) == QrngApi.RequestUrl(dt, length)
  {
  }

  /** The URL reads back as the data type and length it was built from. */
  lemma UrlRoundTrip(dt: DataType, length: ArrayLength)
    ensures RequestParse.ParseRequestUrl(Url(dt, length)) == Some((dt, length))
  {
    UrlAgrees(dt, length);
    QrngApi.RequestUrlRoundTrip(dt, length);
  }
}
