/** The request parameters: the range-checked block size and array length,
    and the four data types the service offers. `src/qrng_tester/qrng.rs`
    and `src/qrng_tester/qrng_api.rs` declare these types with the same
    fields and the same range checks (only the panic messages differ), so
    they are modelled once here. */
module Params {
  import opened Common

  /** Hex digits per returned value; every value of the type is in range. */
  type BlockSize = b: u8 | 1 <= b <= 10 witness 1

  /** Number of values requested; every value of the type is in range. */
  type ArrayLength = n: u16 | 1 <= n <= 1024 witness 1

  /** The service's endpoint, which both request builders start from. */
  const BaseUrl: string := "https://api.quantumnumbers.anu.edu.au"

  datatype DataType = Uint8 | Uint16 | Hex8(size: BlockSize) | Hex16(size: BlockSize)

  /** `BlockSize::new`. The source panics on an out-of-range value; here that
      is `None`. */
  function NewBlockSize(value: u8): (r: Option<BlockSize>)
    ensures r.Some? <==> 1 <= value <= 10
    ensures r.Some? ==> BlockSizeValue(r.value) == value
  {
    if 1 <= value <= 10 then Some(value) else None
  }

  /** `BlockSize::value`. */
  function BlockSizeValue(b: BlockSize): u8 {
    b
  }

  /** `ArrayLength::new`, with `None` for the source's panic. */
  function NewArrayLength(value: u16): (r: Option<ArrayLength>)
    ensures r.Some? <==> 1 <= value <= 1024
    ensures r.Some? ==> ArrayLengthValue(r.value) == value
  {
    if 1 <= value <= 1024 then Some(value) else None
  }

  /** `ArrayLength::value`. */
  function ArrayLengthValue(n: ArrayLength): u16 {
    n
  }

  /** `value()` and `new` are inverse: every block size is rebuilt from its
      value, and only from it. */
  lemma BlockSizeRoundTrip(b: BlockSize, v: u8)
    ensures NewBlockSize(BlockSizeValue(b)) == Some(b)
    ensures NewBlockSize(v) == Some(b) <==> v == BlockSizeValue(b)
  {
  }

  /** The same for array lengths. */
  lemma ArrayLengthRoundTrip(n: ArrayLength, v: u16)
    ensures NewArrayLength(ArrayLengthValue(n)) == Some(n)
    ensures NewArrayLength(v) == Some(n) <==> v == ArrayLengthValue(n)
  {
  }
}
