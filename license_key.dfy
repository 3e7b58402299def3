/** License keys made by `generateLicenseKey` in api/_lib/store.js: eight
    random bytes and four random bytes, each written as lower-case hex (as
    Node's `Buffer.toString('hex')` does) and joined by a hyphen. The random
    bytes are parameters here; nothing checks a generated key against the
    keys already stored. */
module LicenseKeys {
  import opened Wrappers

  type Byte = x: int | 0 <= x < 256

  predicate IsLowerHexDigit(c: char)
  {
    '0' <= c <= '9' || 'a' <= c <= 'f'
  }

  predicate IsLowerHex(s: string)
  {
    forall i :: 0 <= i < |s| ==> IsLowerHexDigit(s[i])
  }

  /** The digit Node writes for a nibble. */
  function HexDigit(n: int): (c: char)
    requires 0 <= n < 16
    ensures IsLowerHexDigit(c)
  {
    if n < 10 then ('0' as int + n) as char else ('a' as int + n - 10) as char
  }

  /** The nibble a lower-case hex digit stands for. */
  function DigitValue(c: char): (n: int)
    requires IsLowerHexDigit(c)
    ensures 0 <= n < 16
    ensures HexDigit(n) == c
  {
    if c <= '9' then c as int - '0' as int else c as int - 'a' as int + 10
  }

  /** `Buffer.from(bytes).toString('hex')`: two digits per byte, high nibble first. */
  function HexEncode(bytes: seq<Byte>): (s: string)
    ensures |s| == 2 * |bytes|
    ensures IsLowerHex(s)
  {
    if bytes == [] then []
    else [HexDigit(bytes[0] / 16), HexDigit(bytes[0] % 16)] + HexEncode(bytes[1..])
  }

  /** Reads an even-length lower-case hex string back into bytes. */
  function HexDecode(s: string): (r: Option<seq<Byte>>)
    ensures r.Some? <==> |s| % 2 == 0 && IsLowerHex(s)
    ensures r.Some? ==> 2 * |r.value| == |s|
  {
    if s == [] then Some([])
    else if |s| < 2 || !IsLowerHexDigit(s[0]) || !IsLowerHexDigit(s[1]) then None
    else
      match HexDecode(s[2..])
      case None => None
      case Some(rest) => Some([DigitValue(s[0]) * 16 + DigitValue(s[1])] + rest)
  }

  /** Byte `i` is written at positions `2*i` and `2*i+1`, high nibble first. */
  lemma {:induction false} HexEncodeAt(bytes: seq<Byte>, i: int)
    requires 0 <= i < |bytes|
    ensures HexEncode(bytes)[2 * i] == HexDigit(bytes[i] / 16)
    ensures HexEncode(bytes)[2 * i + 1] == HexDigit(bytes[i] % 16)
  {
    if i > 0 {
      HexEncodeAt(bytes[1..], i - 1);
    }
  }

  /** Hex encoding loses nothing: decoding gives the bytes back. */
  lemma {:induction false} HexRoundTrip(bytes: seq<Byte>)
    ensures HexDecode(HexEncode(bytes)) == Some(bytes)
  {
    if bytes != [] {
      var s := HexEncode(bytes);
      assert s[2..] == HexEncode(bytes[1..]);
      HexRoundTrip(bytes[1..]);
      var b := bytes[0];
      assert DigitValue(HexDigit(b / 16)) == b / 16;
      assert DigitValue(HexDigit(b % 16)) == b % 16;
      assert [b] + bytes[1..] == bytes;
    }
  }

  /** Every even-length lower-case hex string is the encoding of some bytes. */
  lemma {:induction false} HexDecodeRoundTrip(s: string)
    requires |s| % 2 == 0 && IsLowerHex(s)
    ensures HexDecode(s).Some? && HexEncode(HexDecode(s).value) == s
  {
    if s != [] {
      HexDecodeRoundTrip(s[2..]);
      var bytes := HexDecode(s).value;
      var hi, lo := DigitValue(s[0]), DigitValue(s[1]);
      assert bytes[0] == hi * 16 + lo;
      assert bytes[0] / 16 == hi && bytes[0] % 16 == lo;
      assert bytes[1..] == HexDecode(s[2..]).value;
      assert s == [s[0], s[1]] + s[2..];
    }
  }

  /** The format of a generated key: 16 lower-case hex digits, a hyphen,
      8 lower-case hex digits. */
  predicate IsLicenseKey(k: string)
  {
    |k| == 25 && IsLowerHex(k[..16]) && k[16] == '-' && IsLowerHex(k[17..])
  }

  /** `generateLicenseKey()` given the outputs of `randomBytes(8)` and
      `randomBytes(4)`. */
  function GenerateLicenseKey(high: seq<Byte>, low: seq<Byte>): (k: string)
    requires |high| == 8 && |low| == 4
    ensures IsLicenseKey(k)
  {
    var k := HexEncode(high) + "-" + HexEncode(low);
    assert k[..16] == HexEncode(high) && k[17..] == HexEncode(low);
    k
  }

  /** The two random byte groups a key in the generated format was made from. */
  function ParseLicenseKey(k: string): (r: Option<(seq<Byte>, seq<Byte>)>)
    ensures r.Some? ==> |r.value.0| == 8 && |r.value.1| == 4
  {
    if |k| != 25 || k[16] != '-' then None
    else
      match (HexDecode(k[..16]), HexDecode(k[17..]))
      case (Some(high), Some(low)) => Some((high, low))
      case _ => None
  }

  /** A generated key determines the random bytes it was made from. */
  lemma GeneratedKeyParses(high: seq<Byte>, low: seq<Byte>)
    requires |high| == 8 && |low| == 4
    ensures ParseLicenseKey(GenerateLicenseKey(high, low)) == Some((high, low))
  {
    var k := GenerateLicenseKey(high, low);
    assert k[..16] == HexEncode(high) && k[17..] == HexEncode(low);
    HexRoundTrip(high);
    HexRoundTrip(low);
  }

  /** The format is exact: every string in it is a key some pair of random
      byte groups generates. */
  lemma LicenseKeyFormatIsExact(k: string)
    requires IsLicenseKey(k)
    ensures ParseLicenseKey(k).Some?
    ensures GenerateLicenseKey(ParseLicenseKey(k).value.0, ParseLicenseKey(k).value.1) == k
  {
    HexDecodeRoundTrip(k[..16]);
    HexDecodeRoundTrip(k[17..]);
    assert k == k[..16] + "-" + k[17..];
  }
}
