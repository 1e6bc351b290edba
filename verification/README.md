# QRNG client: a Dafny model

This project models the client of the ANU quantum random number generator
(QRNG) web service found in `src/qrng_tester/`. It covers three parts:

- **The response decoder** `qrng_numbers_from_json` (`qrng_api.rs`). It takes
  a parsed JSON value and returns either typed numbers (`Uint8`, `Uint16` or
  `Hex`) or one of four errors. The errors are invalid JSON, unsuccessful
  request, invalid number and unknown data type.
- **The range-checked request parameters.** `BlockSize` accepts 1 to 10 and
  `ArrayLength` accepts 1 to 1024. Both source files declare them with the
  same fields and the same range checks; module `Params` models them once.
- **The request URL.** There are two versions: the prefix of `get_block` in
  `qrng_api.rs`, and `get_type_str` plus the `match` in `get_block` in
  `qrng.rs`. The model proves that the two build the same URL, and that the
  URL reads back as the data type and length it was built from.

Modules:

| module | file | contents |
|---|---|---|
| `Common` | common.dfy | `u8`/`u16`/`u64` as integer ranges; `Option` and `Result` |
| `Json` | json.dfy | serde_json's `Value`, with numbers as `PosInt`, `NegInt` or `Float`; `as_u64` |
| `Decimal` | decimal.dfy | `format!("{}", n)` for unsigned integers, and reading digits back |
| `Params` | params.dfy | `BlockSize`, `ArrayLength` (subset types), `DataType`, the constructors |
| `QrngApi` | qrng_api.dfy | `QrngNumbers`, the errors, the decoder, `get_block`'s URL |
| `RequestParse` | request_parse.dfy | a reader for the URLs the two clients build, used as their inverse |
| `Qrng` | qrng.dfy | `get_type_str` and the URL of `qrng.rs`, shown equal to `QrngApi`'s |
| `DecodeCases` | decode_cases.dfy | concrete responses and their decodes |

Modelling choices:

- The panicking constructors `BlockSize::new` and `ArrayLength::new` return
  `Option`, with `None` standing for the panic. The types are subset types, so
  a value that exists is always in range. `value()` is the identity.
- A JSON number is a non-negative integer, a negative integer, or `Float`.
  serde_json stores integers of 2^64 or more as floating-point numbers, so
  `PosInt` carries a `u64`, and `Json.AsU64` answers `None` for every `Float`,
  as `as_u64` does.
- `obj.remove("data")` is modelled as map subtraction before `type` is
  looked up. `QrngApi.DecodeEnvelope` shows that the removal does not change
  the value of `type`.
- The generic `uint_vector::<T>` becomes `UintVector` with a width parameter
  (`W8` or `W16`). `T::try_from(u64)` becomes a bound check against 255 or
  65535. The `for` loops with early return are tail-recursive functions over
  an accumulator.
- Every bad element of `uint8`/`uint16` data gives INVALID_NUMBER: a
  non-number, a string, a negative or fractional number, and an integer that
  is too large alike (`qrng_api.rs:153-155`). A non-string element of hex data
  gives INVALID_JSON (`qrng_api.rs:166`).
- Purity is built in: `Decode` is a function, so decoding the same value twice
  gives the same result.

## Model

| member | source | states |
|---|---|---|
| `Params.NewBlockSize` | src/qrng_tester/qrng_api.rs:34-43 | gives a block size exactly for 1..=10, and its `value()` is the input; out-of-range input (the panic) gives `None` |
| `Params.NewArrayLength` | src/qrng_tester/qrng_api.rs:50-59 | gives an array length exactly for 1..=1024, and its `value()` is the input; otherwise `None` |
| `Params.BlockSizeRoundTrip` | src/qrng_tester/qrng.rs:12-21 | `new(b.value())` rebuilds every block size `b`, and `new(v)` yields `b` only for `v == b.value()` |
| `Params.ArrayLengthRoundTrip` | src/qrng_tester/qrng.rs:28-37 | the same round trip for array lengths |
| `Json.AsU64` | src/qrng_tester/qrng_api.rs:154 | a number converts to `u64` exactly when serde_json holds it as a non-negative integer, and the result is that integer |
| `QrngApi.MessagesDistinct` | src/qrng_tester/qrng_api.rs:119-122 | the four error messages are pairwise distinct, so a message identifies its error |
| `QrngApi.UintElement` | src/qrng_tester/qrng_api.rs:153-155 | one element passes the number, `as_u64` and `try_into` steps exactly when it is an integer in `0..=max`, and yields that integer |
| `QrngApi.UintLoop` | src/qrng_tester/qrng_api.rs:151-156 | the loop succeeds exactly when every element is an integer in range; it fails only with INVALID_NUMBER; on success it extends the accumulator by the elements' values in order |
| `QrngApi.Into` | src/qrng_tester/qrng_api.rs:67-76 | the `From` conversions wrap the vector unchanged, in `Uint8` for `u8` and `Uint16` for `u16` |
| `QrngApi.UintVector` | src/qrng_tester/qrng_api.rs:146-158 | succeeds exactly when every element fits the width; the error is INVALID_NUMBER; the result represents the input element for element, in the variant of the width |
| `QrngApi.HexLoop` | src/qrng_tester/qrng_api.rs:164-168 | succeeds exactly when every element is a string; a non-string is INVALID_JSON; the strings are kept unchanged and in order |
| `QrngApi.Decode` | src/qrng_tester/qrng_api.rs:111-145 | the checks run in a fixed order. A non-object, or a missing or non-boolean `success`, gives INVALID_JSON. `success: false` gives UNSUCCESSFUL_REQUEST whatever the rest holds. A missing or mistyped `data` or `type` gives INVALID_JSON. An unknown `type` gives UNKNOWN_DATA_TYPE. A success has the variant `type` names and represents `data` element for element |
| `QrngApi.DecodeData` | src/qrng_tester/qrng_api.rs:160-172 | any type string other than the four known ones is UNKNOWN_DATA_TYPE; a success matches the type string and represents the data |
| `QrngApi.DecodeEnvelope` | src/qrng_tester/qrng_api.rs:135-145 | once `success` is true and `data`/`type` are well typed, removing `data` first leaves `type` intact and the decode is the dispatch on `type` |
| `QrngApi.DecodeUint8` | src/qrng_tester/qrng_api.rs:146-161 | for "uint8": success exactly when every element is an integer in 0..=255; any failure is INVALID_NUMBER; success is `Uint8` |
| `QrngApi.DecodeUint16` | src/qrng_tester/qrng_api.rs:146-162 | for "uint16": success exactly when every element is an integer in 0..=65535; any failure is INVALID_NUMBER; success is `Uint16` |
| `QrngApi.DecodeHex` | src/qrng_tester/qrng_api.rs:163-170 | for "hex8" or "hex16": success exactly when every element is a string, and the result is exactly those strings (no hex or width check); failure is INVALID_JSON |
| `QrngApi.DecodeIgnoresOtherFields` | src/qrng_tester/qrng_api.rs:124-144 | adding or changing any field other than `success`, `data` and `type` does not change the decode |
| `QrngApi.DecodeResponse` | src/qrng_tester/qrng_api.rs:111-173 | round trip: a successful response whose `type` names the variant of `n` and whose `data` renders `n` decodes to exactly `n` |
| `QrngApi.RequestUrlRoundTrip` | src/qrng_tester/qrng_api.rs:176-190 | the URL reads back as its data type and array length: `length` and `type` always, `size` exactly for the hex types |
| `QrngApi.RequestUrlInjective` | src/qrng_tester/qrng_api.rs:183-190 | different (data type, length) pairs give different URLs |
| `QrngApi.RequestedTypeDecodes` | src/qrng_tester/qrng_api.rs:176-181 | the type string of every data type is one the decoder knows, and a successful decode of it has the matching variant |
| `Decimal.ReadShow` | src/qrng_tester/qrng_api.rs:183-189 | the decimal rendering written into the URL reads back as the number |
| `Qrng.GetTypeStrDistinguishesKinds` | src/qrng_tester/qrng.rs:41-48 | two data types get the same type string exactly when they are the same variant; the block size does not matter |
| `Qrng.GetTypeStrAgrees` | src/qrng_tester/qrng.rs:41-48 | `get_type_str` agrees with the type `match` of the other client |
| `Qrng.UrlAgrees` | src/qrng_tester/qrng.rs:50-62 | for every data type and length this URL equals the one built by the other client's `get_block` |
| `Qrng.UrlRoundTrip` | src/qrng_tester/qrng.rs:50-62 | the URL reads back as its data type and length; `size` is present exactly for the hex types |
| `DecodeCases.TestResponse` | src/qrng_tester/qrng_api.rs:225 | the response quoted in the module's test decodes to `Uint16([49840, 24264, 44448, 26560, 22008])`; its `length` field is ignored |
| `DecodeCases.UnsuccessfulResponse` | src/qrng_tester/qrng_api.rs:131-133 | `success: false` yields UNSUCCESSFUL_REQUEST for every `data` and `type` |
| `DecodeCases.OutOfRangeByte` | src/qrng_tester/qrng_api.rs:155 | 300 in "uint8" data is INVALID_NUMBER |
| `DecodeCases.StringAmongNumbers` | src/qrng_tester/qrng_api.rs:153 | a string element in "uint16" data is INVALID_NUMBER, not INVALID_JSON |
| `DecodeCases.NumberAmongHex` | src/qrng_tester/qrng_api.rs:166 | a number element in "hex8" data is INVALID_JSON |
| `DecodeCases.HexResponse` | src/qrng_tester/qrng_api.rs:163-170 | `["a1b2", "c3d4"]` in "hex16" data decodes to `Hex(["a1b2", "c3d4"])` |
| `DecodeCases.ArrayResponse` | src/qrng_tester/qrng_api.rs:124 | a top-level array is INVALID_JSON |
| `DecodeCases.UnknownType` | src/qrng_tester/qrng_api.rs:171 | type "ternary" with a well-formed envelope is UNKNOWN_DATA_TYPE |
| `DecodeCases.UnknownTypeBadData` | src/qrng_tester/qrng_api.rs:135-139 | type "ternary" with a `data` that is not an array is INVALID_JSON, because the `data` check comes before the dispatch |

## Left out

- HTTP transport (`Client::new`, the `x-api-key` header, `.send()`, `.json()`, `.text()`, at `qrng_api.rs:192-196` and `qrng.rs:64-71`): network I/O through a foreign library. The model starts from the parsed response value and ends at the URL string.
- `get_api_key` (`qrng_api.rs:206-216`): file-system I/O.
- Parsing JSON text into `Value`: the decoder's input is modelled as an already-parsed value.
- `GenericError`'s `Display` and `source`, and the boxing of errors (`qrng_api.rs:95-109`, `200-203`): errors are a four-case datatype. The decoder never attaches a cause, and `Message` keeps each error's text.
- Floating-point values: `Float` carries no payload, because the decoder rejects every float alike.
- The panic messages of `BlockSize::new` and `ArrayLength::new`, which differ between the two files (`qrng_api.rs:36`, `52` and `qrng.rs:14`, `30`), and the visibility of these functions (`pub fn` in `qrng_api.rs`, private in `qrng.rs`): both panics become `None`, so the message is not kept.
- `src/main.rs`: it draws one random `f64` and prints it (randomness, floats, console output).
- Console printing in `qrng.rs` (line 73) and the tests that call the network (`qrng.rs:82-85`).
