/**
 * The token generator: 32 random bytes written as lower-case, zero-padded
 * hexadecimal, two characters per byte (`generateSecureToken`). The random
 * bytes are a parameter; the random source itself is not modelled.
 */
module HexToken {
  import opened Wrappers

  /** One element of a `Uint8Array`. */
  type byte = x: int | 0 <= x < 256

  /** Length of the `Uint8Array` that is filled with random bytes. */
  const TokenBytes: nat := 32

  predicate IsLowerHex(c: char) {
    '0' <= c <= '9' || 'a' <= c <= 'f'
  }

  /** Every character of `s` is a lower-case hexadecimal digit. */
  predicate AllLowerHex(s: string) {
    forall i :: 0 <= i < |s| ==> IsLowerHex(s[i])
  }

  /** The digit `Number.prototype.toString(16)` writes for a value below 16. */
  function HexDigit(d: nat): (c: char)
    requires d < 16
    ensures IsLowerHex(c)
  {
    if d < 10 then ('0' as int + d) as char else ('a' as int + d - 10) as char
  }

  /** The value of a lower-case hexadecimal digit. */
  function DigitValue(c: char): (d: nat)
    requires IsLowerHex(c)
    ensures d < 16 && HexDigit(d) == c
  {
    if c <= '9' then c as int - '0' as int else c as int - 'a' as int + 10
  }

  lemma DigitRoundTrip(d: nat)
    requires d < 16
    ensures DigitValue(HexDigit(d)) == d
  {
  }

  /** `n.toString(16)`: the shortest lower-case hexadecimal numeral of `n`. */
  function ToHexString(n: nat): (s: string)
    ensures 1 <= |s| && AllLowerHex(s)
    ensures n < 16 <==> |s| == 1
    decreases n
  {
    if n < 16 then [HexDigit(n)] else ToHexString(n / 16) + [HexDigit(n % 16)]
  }

  /** The number a (big-endian) lower-case hexadecimal numeral denotes. */
  function NumeralValue(s: string): nat
    requires AllLowerHex(s)
  {
    if s == [] then 0 else 16 * NumeralValue(s[..|s| - 1]) + DigitValue(s[|s| - 1])
  }

  /** `toString(16)` writes a numeral that reads back as the same number. */
  lemma {:induction false} ToHexStringValue(n: nat)
    ensures NumeralValue(ToHexString(n)) == n
    decreases n
  {
    var s := ToHexString(n);
    if n < 16 {
      DigitRoundTrip(n);
    } else {
      ToHexStringValue(n / 16);
      assert s[..|s| - 1] == ToHexString(n / 16);
      DigitRoundTrip(n % 16);
    }
  }

  /** `s.padStart(width, fill)` with a one-character fill string. */
  function PadStart(s: string, width: nat, fill: char): string
    decreases width - |s|
  {
    if |s| >= width then s else PadStart([fill] + s, width, fill)
  }

  /** `byte.toString(16).padStart(2, '0')`: always the two digits of the byte. */
  function ByteToHex(b: byte): (s: string)
    ensures s == [HexDigit(b / 16), HexDigit(b % 16)]
  {
    var digits := ToHexString(b);
    if b < 16 then
      assert digits == [HexDigit(b)];
      assert PadStart(digits, 2, '0') == PadStart(['0'] + digits, 2, '0') == ['0'] + digits;
      PadStart(digits, 2, '0')
    else
      assert digits == ToHexString(b / 16) + [HexDigit(b % 16)];
      PadStart(digits, 2, '0')
  }

  /** `Array.from(bytes, ByteToHex).join('')`. */
  function HexEncode(bytes: seq<byte>): (s: string)
    ensures |s| == 2 * |bytes| && AllLowerHex(s)
  {
    if bytes == [] then ""
    else
      var head, rest := ByteToHex(bytes[0]), HexEncode(bytes[1..]);
      assert forall i :: 2 <= i < |head + rest| ==> (head + rest)[i] == rest[i - 2];
      head + rest
  }

  /** Characters `2i` and `2i+1` of the encoding are the two digits of byte `i`. */
  lemma {:induction false} HexEncodeAt(bytes: seq<byte>, i: nat)
    requires i < |bytes|
    ensures HexEncode(bytes)[2 * i..2 * i + 2] == ByteToHex(bytes[i])
  {
    if i > 0 {
      HexEncodeAt(bytes[1..], i - 1);
      var rest := HexEncode(bytes[1..]);
      assert HexEncode(bytes) == ByteToHex(bytes[0]) + rest;
      assert HexEncode(bytes)[2 * i..2 * i + 2] == rest[2 * (i - 1)..2 * (i - 1) + 2];
    }
  }

  /** The inverse of HexEncode: pairs of lower-case digits back to bytes. */
  function HexDecode(s: string): (r: Option<seq<byte>>)
    ensures r.Some? ==> 2 * |r.value| == |s|
  {
    if s == [] then Some([])
    else if |s| < 2 || !IsLowerHex(s[0]) || !IsLowerHex(s[1]) then None
    else match HexDecode(s[2..])
      case None => None
      case Some(rest) => Some([16 * DigitValue(s[0]) + DigitValue(s[1])] + rest)
  }

  /** Decoding is defined exactly on even-length strings of lower-case digits. */
  lemma {:induction false} HexDecodeDefined(s: string)
    ensures HexDecode(s).Some? <==> |s| % 2 == 0 && AllLowerHex(s)
    decreases |s|
  {
    if |s| >= 2 {
      HexDecodeDefined(s[2..]);
      assert forall i :: 2 <= i < |s| ==> s[i] == s[2..][i - 2];
    }
  }

  lemma {:induction false} DecodeEncode(bytes: seq<byte>)
    ensures HexDecode(HexEncode(bytes)) == Some(bytes)
  {
    if bytes != [] {
      var s := HexEncode(bytes);
      var b := bytes[0];
      DecodeEncode(bytes[1..]);
      assert s[2..] == HexEncode(bytes[1..]);
      DigitRoundTrip(b / 16);
      DigitRoundTrip(b % 16);
      assert [b] + bytes[1..] == bytes;
    }
  }

  lemma {:induction false} EncodeDecode(s: string, bytes: seq<byte>)
    requires HexDecode(s) == Some(bytes)
    ensures HexEncode(bytes) == s
    decreases |s|
  {
    if s != [] {
      var rest := HexDecode(s[2..]).value;
      EncodeDecode(s[2..], rest);
      assert bytes == [bytes[0]] + rest;
      var hi, lo := DigitValue(s[0]), DigitValue(s[1]);
      assert bytes[0] / 16 == hi && bytes[0] % 16 == lo;
      assert bytes[1..] == rest;
      assert s == [s[0], s[1]] + s[2..];
    }
  }

  /** Distinct byte strings never encode to the same token. */
  lemma HexEncodeInjective(a: seq<byte>, b: seq<byte>)
    requires HexEncode(a) == HexEncode(b)
    ensures a == b
  {
    DecodeEncode(a);
    DecodeEncode(b);
  }

  /** `generateSecureToken` with the 32 random bytes passed in. */
  function GenerateSecureToken(random: seq<byte>): (token: string)
    requires |random| == TokenBytes
    ensures |token| == 2 * TokenBytes && AllLowerHex(token)
    ensures HexDecode(token) == Some(random)
  {
    DecodeEncode(random);
    HexEncode(random)
  }
}
