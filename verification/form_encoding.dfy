/** The `application/x-www-form-urlencoded` serializer of the WHATWG URL
    Standard (section 5.2), which `URLSearchParams.toString()` applies to
    every name and every value. The standard maps the UTF-8 bytes of the
    text; since the bytes it keeps are ASCII, mapping code point by code
    point gives the same text. */
module FormEncoding {
  import opened Encoding
  import opened Text

  /** The code points the serializer keeps: ASCII letters and digits and `*-._`. */
  predicate Unreserved(c: char) {
    ('A' <= c <= 'Z') || ('a' <= c <= 'z') || ('0' <= c <= '9') || c == '*' || c == '-' || c == '.' || c == '_'
  }

  /** Every code point of `s` is kept. */
  predicate AllUnreserved(s: string)
    decreases |s|
  {
    |s| == 0 || (Unreserved(s[0]) && AllUnreserved(s[1..]))
  }

  /** An upper-case hexadecimal digit. */
  function HexDigit(n: nat): (c: char)
    requires n < 16
    ensures c != ':' && c != '%'
  {
    if n < 10 then (('0' as int) + n) as char else (('A' as int) + n - 10) as char
  }

  /** `%XX` for every byte. */
  function PercentEncode(bs: seq<byte>): (s: string)
    ensures |s| == 3 * |bs|
    ensures ':' !in s
  {
    if |bs| == 0 then ""
    else ['%', HexDigit(bs[0] as int / 16), HexDigit(bs[0] as int % 16)] + PercentEncode(bs[1..])
  }

  /** One code point: itself when kept, `+` for a space, otherwise its
      UTF-8 bytes percent-encoded. */
  function EncodeChar(c: char): (s: string)
    ensures ':' !in s
    ensures Unreserved(c) <==> s == [c]
    ensures c == ' ' <==> s == "+"
    ensures !Unreserved(c) && c != ' ' ==> |s| >= 3 && s[0] == '%'
  {
    if Unreserved(c) then [c]
    else if c == ' ' then "+"
    else PercentEncode(Utf8Char(c))
  }

  /** Each code point of `s`, encoded. */
  function EncodedParts(s: string): (parts: seq<string>)
    ensures |parts| == |s|
    ensures Free(parts, ':')
  {
    seq(|s|, i requires 0 <= i < |s| => EncodeChar(s[i]))
  }

  /** The serializer applied to one name or value: the encoded code points
      one after another. It never writes a colon. */
  function FormEncode(s: string): (r: string)
    ensures ':' !in r
  {
    JoinAvoids(EncodedParts(s), "", ':');
    Join(EncodedParts(s), "")
  }

  /** The encoding of a non-empty text starts with that of its first code point. */
  lemma FormEncodeCons(s: string)
    requires |s| > 0
    ensures FormEncode(s) == EncodeChar(s[0]) + FormEncode(s[1..])
  {
    var parts := EncodedParts(s);
    assert parts == [EncodeChar(s[0])] + EncodedParts(s[1..]);
    if |s| > 1 {
      JoinCons(EncodeChar(s[0]), EncodedParts(s[1..]), "");
    }
  }

  /** The encoding is never shorter than the text. */
  lemma {:induction false} FormEncodeLength(s: string)
    ensures |FormEncode(s)| >= |s|
    decreases |s|
  {
    if |s| > 0 {
      FormEncodeCons(s);
      FormEncodeLength(s[1..]);
    }
  }

  /** The colon of a timestamp becomes `%3A`. */
  lemma ColonEncoded()
    ensures EncodeChar(':') == "%3A"
  {
    assert Utf8Char(':') == [58 as byte];
  }

  /** A space becomes `+`. */
  lemma SpaceEncoded()
    ensures EncodeChar(' ') == "+"
  {
  }

  /** Encoding works piece by piece. */
  lemma {:induction false} FormEncodeAppend(a: string, b: string)
    ensures FormEncode(a + b) == FormEncode(a) + FormEncode(b)
    decreases |a|
  {
    if |a| > 0 {
      assert (a + b)[0] == a[0];
      assert (a + b)[1..] == a[1..] + b;
      FormEncodeCons(a);
      FormEncodeCons(a + b);
      FormEncodeAppend(a[1..], b);
    } else {
      assert a + b == b;
    }
  }

  /** Texts the encoder keeps stay kept when put together. */
  lemma {:induction false} AllUnreservedAppend(a: string, b: string)
    requires AllUnreserved(a) && AllUnreserved(b)
    ensures AllUnreserved(a + b)
    decreases |a|
  {
    if |a| > 0 {
      assert (a + b)[1..] == a[1..] + b;
      AllUnreservedAppend(a[1..], b);
    } else {
      assert a + b == b;
    }
  }

  /** The encoding changes exactly the texts that hold a code point it does
      not keep. */
  lemma {:induction false} FormEncodeUnchanged(s: string)
    ensures FormEncode(s) == s <==> AllUnreserved(s)
    decreases |s|
  {
    if |s| > 0 {
      FormEncodeCons(s);
      FormEncodeUnchanged(s[1..]);
      FormEncodeLength(s[1..]);
      if FormEncode(s) == s {
        if !Unreserved(s[0]) {
          assert false;
        }
        assert s == [s[0]] + s[1..];
      }
    }
  }
}
