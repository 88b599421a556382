/** Bytes, the two string-to-byte conversions the signers use, and the
    cryptographic primitives they call as black boxes. */
module Encoding {
  import opened Wrappers

  newtype byte = b: int | 0 <= b < 256

  /** Go's `[]byte(s)` and crypto-js's `Utf8.parse`: the UTF-8 encoding of
      each code point. */
  function Utf8Char(c: char): (bs: seq<byte>)
    ensures 1 <= |bs| <= 4
    ensures (c as int) < 0x80 <==> |bs| == 1
  {
    var n := c as int;
    if n < 0x80 then [n as byte]
    else if n < 0x800 then [(0xC0 + n / 64) as byte, (0x80 + n % 64) as byte]
    else if n < 0x10000 then
      [(0xE0 + n / 4096) as byte, (0x80 + (n / 64) % 64) as byte, (0x80 + n % 64) as byte]
    else
      [(0xF0 + n / 262144) as byte, (0x80 + (n / 4096) % 64) as byte,
       (0x80 + (n / 64) % 64) as byte, (0x80 + n % 64) as byte]
  }

  function Utf8(s: string): seq<byte> {
    if |s| == 0 then [] else Utf8Char(s[0]) + Utf8(s[1..])
  }

  predicate IsAscii(s: string) {
    forall i :: 0 <= i < |s| ==> (s[i] as int) < 0x80
  }

  /** `btoa`'s reading of a string: one byte per character, and an
      `InvalidCharacterError` when a character lies above U+00FF. */
  function Latin1(s: string): (r: Option<seq<byte>>)
    ensures r.Some? <==> forall i :: 0 <= i < |s| ==> (s[i] as int) < 0x100
    ensures r.Some? ==> |r.value| == |s|
    ensures r.Some? ==> forall i :: 0 <= i < |s| ==> r.value[i] as int == s[i] as int
  {
    if |s| == 0 then Some([])
    else if (s[0] as int) >= 0x100 then None
    else match Latin1(s[1..])
      case None => None
      case Some(rest) => Some([s[0] as int as byte] + rest)
  }

  /** On ASCII text the two conversions agree byte for byte. */
  lemma {:induction false} AsciiLatin1IsUtf8(s: string)
    requires IsAscii(s)
    ensures Latin1(s) == Some(Utf8(s))
    decreases |s|
  {
    if |s| > 0 {
      assert IsAscii(s[1..]) by {
        forall i | 0 <= i < |s[1..]| ensures (s[1..][i] as int) < 0x80 {
          assert s[1..][i] == s[i + 1];
        }
      }
      AsciiLatin1IsUtf8(s[1..]);
    }
  }

  /** Every code point takes at least one UTF-8 byte, and one above ASCII
      at least two. */
  lemma {:induction false} Utf8Length(s: string)
    ensures |Utf8(s)| >= |s|
    ensures !IsAscii(s) ==> |Utf8(s)| > |s|
    decreases |s|
  {
    if |s| > 0 {
      Utf8Length(s[1..]);
      if (s[0] as int) < 0x80 && !IsAscii(s) {
        var i :| 0 <= i < |s| && (s[i] as int) >= 0x80;
        assert s[1..][i - 1] == s[i];
      }
    }
  }

  /** Above ASCII the two conversions always differ: a text `btoa` accepts
      that holds a character in U+0080..U+00FF is one byte per character to
      `btoa` and longer in UTF-8. */
  lemma Latin1DiffersFromUtf8(s: string)
    requires Latin1(s).Some? && !IsAscii(s)
    ensures Latin1(s).value != Utf8(s)
  {
    Utf8Length(s);
  }

  /** Go's `base64.StdEncoding.DecodeString`: the bytes decoded before any
      error, and whether an error occurred. */
  datatype KeyDecoding = KeyDecoding(bytes: seq<byte>, failed: bool)

  /** The library calls both signers make, as uninterpreted functions:
      HMAC (RFC 2104) over SHA-256, base64 encoding with the standard
      alphabet of section 4 of RFC 4648, Go's key decoding, and crypto-js's
      `Base64.parse` of the key. */
  datatype Crypto = Crypto(
    hmacSha256: (seq<byte>, seq<byte>) -> seq<byte>,
    base64: seq<byte> -> string,
    goDecodeKey: string -> KeyDecoding,
    jsParseKey: string -> seq<byte>)

  /** Characters of the standard base64 alphabet, padding included. */
  predicate IsBase64Char(c: char) {
    ('A' <= c <= 'Z') || ('a' <= c <= 'z') || ('0' <= c <= '9') || c == '+' || c == '/' || c == '='
  }

  /** What RFC 4648 promises of the encoder's output, which the header
      layout relies on: no space and no colon can appear in it. */
  ghost predicate StandardAlphabet(crypto: Crypto) {
    forall bs: seq<byte>, i :: 0 <= i < |crypto.base64(bs)| ==> IsBase64Char(crypto.base64(bs)[i])
  }
}
