/** A reader for the URLs the two clients build, used as their inverse: it
    takes the `length`, `type` and (for the hex types) `size` parameters in
    the order the clients write them, and accepts leading zeros in the
    numbers. */
module RequestParse {
  import opened Common
  import opened Params
  import Decimal

  /** Splits `s` after its longest prefix of decimal digits. */
  function SpanDigits(s: string): (r: (string, string))
    ensures r.0 + r.1 == s
    ensures Decimal.AllDigits(r.0)
    ensures r.1 == [] || !Decimal.IsDigit(r.1[0])
  {
    if |s| == 0 || !Decimal.IsDigit(s[0]) then ([], s)
    else
      var t := SpanDigits(s[1..]);
      ([s[0]] + t.0, t.1)
  }

  predicate Excludes(s: string, c: char) {
    forall i :: 0 <= i < |s| ==> s[i] != c
  }

  /** Splits `s` before its first occurrence of `c` (at its end if none). */
  function SpanUntil(s: string, c: char): (r: (string, string))
    ensures r.0 + r.1 == s
    ensures Excludes(r.0, c)
    ensures r.1 == [] || r.1[0] == c
  {
    if |s| == 0 || s[0] == c then ([], s)
    else
      var t := SpanUntil(s[1..], c);
      ([s[0]] + t.0, t.1)
  }

  /** The digit prefix is unique: any split into digits and a remainder
      that does not start with a digit is the one `SpanDigits` finds. */
  lemma {:induction false} SpanDigitsOf(d: string, rest: string)
    requires Decimal.AllDigits(d)
    requires rest == [] || !Decimal.IsDigit(rest[0])
    ensures SpanDigits(d + rest) == (d, rest)
  {
    if d == [] {
      assert d + rest == rest;
    } else {
      assert (d + rest)[1..] == d[1..] + rest;
      SpanDigitsOf(d[1..], rest);
      assert [d[0]] + d[1..] == d;
    }
  }

  /** The same uniqueness for `SpanUntil`. */
  lemma {:induction false} SpanUntilOf(t: string, rest: string, c: char)
    requires Excludes(t, c)
    requires rest == [] || rest[0] == c
    ensures SpanUntil(t + rest, c) == (t, rest)
  {
    if t == [] {
      assert t + rest == rest;
    } else {
      assert (t + rest)[1..] == t[1..] + rest;
      SpanUntilOf(t[1..], rest, c);
      assert [t[0]] + t[1..] == t;
    }
  }

  /** The number a non-empty digit string denotes. */
  function ReadNumber(text: string): (r: Option<nat>)
    ensures r.Some? <==> |text| > 0 && Decimal.AllDigits(text)
  {
    if |text| > 0 && Decimal.AllDigits(text) then Some(Decimal.Read(text)) else None
  }

  /** The data type and array length a request URL asks for, or `None` for
      a URL that is not a well-formed request. */
  function ParseRequestUrl(url: string): Option<(DataType, ArrayLength)> {
    var head := BaseUrl + "?length=";
    if head <= url then ParseQuery(url[|head|..]) else None
  }

  /** The query after `?length=`: the length digits, then `&type=`. */
  function ParseQuery(query: string): Option<(DataType, ArrayLength)> {
    var (lengthText, afterLength) := SpanDigits(query);
    match ReadNumber(lengthText)
    case None => None
    case Some(n) =>
      if 1 <= n <= 1024 && "&type=" <= afterLength then
        var length: ArrayLength := n;
        match ParseType(afterLength[6..])
        case None => None
        case Some(dt) => Some((dt, length))
      else None
  }

  /** The text after `&type=`: the type name, then `&size=` and the block
      size for the hex types and nothing for the others. */
  function ParseType(text: string): Option<DataType> {
    var (typeText, afterType) := SpanUntil(text, '&');
    if afterType == [] then
      if typeText == "uint8" then Some(Uint8)
      else if typeText == "uint16" then Some(Uint16)
      else None
    else if "&size=" <= afterType && (typeText == "hex8" || typeText == "hex16") then
      match ReadNumber(afterType[6..])
      case None => None
      case Some(k) =>
        if 1 <= k <= 10 then
          var size: BlockSize := k;
          Some(if typeText == "hex8" then Hex8(size) else Hex16(size))
        else None
    else None
  }
}
