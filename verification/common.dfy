/**
 * Shared vocabulary: optional values, results, JavaScript truthiness of strings,
 * string interpolation of `undefined`, decimal and hexadecimal rendering.
 */
module Common {

  datatype Option<+T> = None | Some(value: T)

  datatype Result<+T, +E> = Ok(value: T) | Err(error: E)

  /** An octet. */
  newtype byte = x: int | 0 <= x < 256

  type Bytes = seq<byte>

  /** JavaScript truthiness of a value that is a string or `undefined`. */
  predicate Truthy(o: Option<string>) {
    o.Some? && o.value != ""
  }

  /** `o || fallback` for a string-or-undefined `o`. */
  function Or(o: Option<string>, fallback: string): string {
    if Truthy(o) then o.value else fallback
  }

  /** Template-literal interpolation `${o}`: `undefined` prints as "undefined". */
  function JsText(o: Option<string>): string {
    match o
    case None => "undefined"
    case Some(s) => s
  }

  predicate StartsWith(s: string, prefix: string) {
    |prefix| <= |s| && s[..|prefix|] == prefix
  }

  predicate EndsWith(s: string, suffix: string) {
    |suffix| <= |s| && s[|s| - |suffix|..] == suffix
  }

  /** `Array.prototype.join(sep)` on strings. */
  function Join(xs: seq<string>, sep: string): string {
    if |xs| == 0 then ""
    else if |xs| == 1 then xs[0]
    else xs[0] + sep + Join(xs[1..], sep)
  }

  // ---------------------------------------------------------------- decimal

  predicate IsDigit(c: char) {
    '0' <= c <= '9'
  }

  function DigitChar(d: nat): (c: char)
    requires d < 10
    ensures IsDigit(c) && (c as int) - ('0' as int) == d
  {
    (('0' as int) + d) as char
  }

  /** `String(n)` for a non-negative integer: shortest decimal numeral. */
  function NatToDecimal(n: nat): (r: string)
    ensures |r| >= 1
    ensures forall i :: 0 <= i < |r| ==> IsDigit(r[i])
    ensures |r| > 1 ==> r[0] != '0'
  {
    if n < 10 then [DigitChar(n)] else NatToDecimal(n / 10) + [DigitChar(n % 10)]
  }

  /** `String(n)` for any integer. */
  function IntToDecimal(n: int): (r: string)
    ensures r != ""
    ensures n >= 0 ==> (forall i :: 0 <= i < |r| ==> IsDigit(r[i])) && DecimalValue(r) == n
    ensures n < 0 ==> |r| >= 2 && r[0] == '-'
                      && (forall i :: 1 <= i < |r| ==> IsDigit(r[i])) && DecimalValue(r[1..]) == -n
  {
    if n < 0 then
      var d := NatToDecimal(-n);
      DecimalRoundTrip(-n);
      assert ("-" + d)[1..] == d;
      "-" + d
    else
      DecimalRoundTrip(n);
      NatToDecimal(n)
  }

  /** The value a decimal numeral denotes; the inverse of NatToDecimal. */
  function DecimalValue(s: string): nat
    requires forall i :: 0 <= i < |s| ==> IsDigit(s[i])
  {
    if s == [] then 0
    else DecimalValue(s[..|s| - 1]) * 10 + DigitValue(s[|s| - 1])
  }

  function DigitValue(c: char): (d: nat)
    requires IsDigit(c)
    ensures d < 10
  {
    (c as int) - ('0' as int)
  }

  lemma {:induction false} DecimalRoundTrip(n: nat)
    ensures DecimalValue(NatToDecimal(n)) == n
  {
    if n >= 10 {
      var r := NatToDecimal(n);
      assert r[..|r| - 1] == NatToDecimal(n / 10);
      DecimalRoundTrip(n / 10);
    }
  }

  // ------------------------------------------------------------ hexadecimal

  predicate IsHexDigit(c: char) {
    '0' <= c <= '9' || 'a' <= c <= 'f'
  }

  function HexDigit(d: nat): (c: char)
    requires d < 16
    ensures IsHexDigit(c)
  {
    if d < 10 then (('0' as int) + d) as char else (('a' as int) + d - 10) as char
  }

  function HexDigitValue(c: char): (d: nat)
    requires IsHexDigit(c)
    ensures d < 16
  {
    if c <= '9' then (c as int) - ('0' as int) else (c as int) - ('a' as int) + 10
  }

  /** The two lower-case hexadecimal digits of one byte, high nibble first. */
  function HexByte(x: byte): (r: string)
    ensures |r| == 2 && IsHexDigit(r[0]) && IsHexDigit(r[1])
  {
    [HexDigit(x as int / 16), HexDigit(x as int % 16)]
  }

  /** The byte two hexadecimal digits spell. */
  function UnhexByte(hi: char, lo: char): byte
    requires IsHexDigit(hi) && IsHexDigit(lo)
  {
    (HexDigitValue(hi) * 16 + HexDigitValue(lo)) as byte
  }

  lemma HexByteRoundTrip(x: byte)
    ensures UnhexByte(HexByte(x)[0], HexByte(x)[1]) == x
  {
    var n := x as int;
    HexDigitInverse(n / 16);
    HexDigitInverse(n % 16);
  }

  /** `buffer.toString("hex")`: two lower-case hexadecimal digits per byte. */
  function Hex(bytes: Bytes): (r: string)
    ensures |r| == 2 * |bytes|
    ensures forall i :: 0 <= i < |r| ==> IsHexDigit(r[i])
  {
    if bytes == [] then "" else HexByte(bytes[0]) + Hex(bytes[1..])
  }

  /** Decoding of a hexadecimal string; the inverse of Hex. */
  function Unhex(s: string): Bytes
    requires |s| % 2 == 0
    requires forall i :: 0 <= i < |s| ==> IsHexDigit(s[i])
  {
    if s == [] then [] else [UnhexByte(s[0], s[1])] + Unhex(s[2..])
  }

  lemma {:induction false} HexRoundTrip(bytes: Bytes)
    ensures Unhex(Hex(bytes)) == bytes
  {
    if bytes != [] {
      var h, p := Hex(bytes), HexByte(bytes[0]);
      assert h == p + Hex(bytes[1..]);
      assert h[0] == p[0] && h[1] == p[1] && h[2..] == Hex(bytes[1..]);
      HexByteRoundTrip(bytes[0]);
      HexRoundTrip(bytes[1..]);
      assert bytes == [bytes[0]] + bytes[1..];
    }
  }

  lemma HexDigitInverse(d: nat)
    requires d < 16
    ensures HexDigitValue(HexDigit(d)) == d
  {
  }
}
