/** The Go backend's HMAC request signing (`hmacStringArray`,
    `signedHmacBytes`, `authHeader`, `signedGetRequest`): the exact byte
    layout around the HMAC and base64 black boxes. */
module Signer {
  import opened Wrappers
  import opened Text
  import opened IsoTime
  import opened Encoding

  /** `hmacStringArray`: method, content type, timestamp, path, service
      headers, content checksum and client id, in that order. */
  function HmacFields(date: Time, clientId: string, path: string): seq<string> {
    ["GET", "", FormatIso(date), path, "", "", clientId]
  }

  /** The string that is signed: the seven fields joined by `delim`. With
      the newline delimiter, a four-digit year and no newline in the path
      or the client id, splitting it at newlines gives back the seven
      fields. */
  function Message(date: Time, clientId: string, path: string, delim: string): (m: string)
    ensures delim == "\n" && FourDigitYear(date) && NoNewline(path) && NoNewline(clientId)
      ==> Split(m, '\n') == HmacFields(date, clientId, path)
  {
    FieldsSplit(date, clientId, path);
    Join(HmacFields(date, clientId, path), delim)
  }

  predicate NoNewline(s: string) {
    '\n' !in s
  }

  /** Newline-joined fields free of newlines split back into themselves. */
  lemma FieldsSplit(date: Time, clientId: string, path: string)
    ensures FourDigitYear(date) && NoNewline(path) && NoNewline(clientId)
      ==> Split(Join(HmacFields(date, clientId, path), "\n"), '\n') == HmacFields(date, clientId, path)
  {
    if FourDigitYear(date) && NoNewline(path) && NoNewline(clientId) {
      FormatIsoNoNewline(date);
      assert Free(HmacFields(date, clientId, path), '\n');
      SplitJoin(HmacFields(date, clientId, path), '\n');
    }
  }

  /** `signedHmacBytes`: HMAC-SHA256 of the UTF-8 message under the key's
      base64 decoding. A decoding error is dropped: whatever bytes were
      decoded before it become the key. */
  function SignedHmacBytes(crypto: Crypto, data: string, signingKey: string): seq<byte> {
    crypto.hmacSha256(crypto.goDecodeKey(signingKey).bytes, Utf8(data))
  }

  /** `authHeader`: `<authMethod> <base64(clientId)>:<base64(mac)>`. The
      header is unambiguous: with a scheme free of spaces and a base64
      encoder that keeps to its alphabet, a verifier splitting at the first
      space and then the first colon recovers all three parts. */
  function AuthHeader(crypto: Crypto, authMethod: string, clientId: string, mac: seq<byte>): (h: string)
    ensures ' ' !in authMethod && StandardAlphabet(crypto)
      ==> SplitAuthorization(h) == Some((authMethod, crypto.base64(Utf8(clientId)), crypto.base64(mac)))
  {
    EncodedPartsSplit(crypto, authMethod, Utf8(clientId), mac);
    authMethod + " " + crypto.base64(Utf8(clientId)) + ":" + crypto.base64(mac)
  }

  /** An outbound request as `net/http` holds it: method, URL and header
      map from canonical name to values. */
  datatype Request = Request(httpMethod: string, url: string, headers: map<string, seq<string>>)

  /** What `http.NewRequest` makes of a URL: `None` when it parses, otherwise
      the error it reports. URL parsing itself is not modelled. */
  type UrlCheck = string -> Option<string>

  /** `signedGetRequest` with `time.Now().UTC()` passed in as `now`. */
  function SignedGetRequest(
    crypto: Crypto, urlCheck: UrlCheck, now: Time,
    server: string, path: string, clientId: string, secretKey: string,
    authMethod: string, delim: string): (r: Result<Request, string>)
    ensures r.Success? <==> urlCheck(server + path).None?
    ensures r.Failure? ==> r.error == urlCheck(server + path).value
    ensures r.Success? ==> r.value.httpMethod == "GET" && r.value.url == server + path
    ensures r.Success? ==> r.value.headers.Keys == {"Authorization", "Date"}
    ensures r.Success? ==> r.value.headers["Date"] == [FormatIso(now)]
    ensures r.Success? ==> (r.value.headers["Authorization"] ==
      [AuthHeader(crypto, authMethod, clientId,
         SignedHmacBytes(crypto, Message(now, clientId, path, delim), secretKey))])
  {
    var data := HmacFields(now, clientId, path);
    var mac := SignedHmacBytes(crypto, Join(data, delim), secretKey);
    var auth := AuthHeader(crypto, authMethod, clientId, mac);
    var url := server + path;
    match urlCheck(url)
    case Some(err) => Failure(err)
    case None =>
      var isoDate := FormatIso(now);
      Success(Request("GET", url, map["Authorization" := [auth], "Date" := [isoDate]]))
  }

  // ---- the canonical message ------------------------------------------------

  /** The seven fields joined by newlines, as `Join` nests them. */
  lemma SevenFieldsNested(d: string, path: string, clientId: string)
    ensures Join(["GET", "", d, path, "", "", clientId], "\n")
      == "GET" + "\n" + ("" + "\n" + (d + "\n" + (path + "\n" + ("" + "\n" + ("" + "\n" + clientId)))))
  {
    assert ["GET", "", d, path, "", "", clientId] == ["GET"] + ["", d, path, "", "", clientId];
    assert ["", d, path, "", "", clientId] == [""] + [d, path, "", "", clientId];
    assert [d, path, "", "", clientId] == [d] + [path, "", "", clientId];
    assert [path, "", "", clientId] == [path] + ["", "", clientId];
    assert ["", "", clientId] == [""] + ["", clientId];
    assert ["", clientId] == [""] + [clientId];
    JoinCons("", [clientId], "\n");
    JoinCons("", ["", clientId], "\n");
    JoinCons(path, ["", "", clientId], "\n");
    JoinCons(d, [path, "", "", clientId], "\n");
    JoinCons("", [d, path, "", "", clientId], "\n");
    JoinCons("GET", ["", d, path, "", "", clientId], "\n");
  }

  /** The seven fields joined by newlines, spelled out for any timestamp text. */
  lemma SevenFieldsLayout(d: string, path: string, clientId: string)
    ensures Join(["GET", "", d, path, "", "", clientId], "\n")
      == "GET\n\n" + d + "\n" + path + "\n\n\n" + clientId
  {
    SevenFieldsNested(d, path, clientId);
  }

  /** The signed message spelled out: `GET`, an empty content type, the
      timestamp, the path, two empty fields and the client id, one
      newline between neighbours. */
  lemma MessageLayout(date: Time, clientId: string, path: string)
    ensures Message(date, clientId, path, "\n")
      == "GET\n\n" + FormatIso(date) + "\n" + path + "\n\n\n" + clientId
  {
    SevenFieldsLayout(FormatIso(date), path, clientId);
  }

  /** 33 fixed characters around the path and the client id. */
  lemma MessageLength(date: Time, clientId: string, path: string)
    requires FourDigitYear(date)
    ensures |Message(date, clientId, path, "\n")| == 33 + |path| + |clientId|
  {
    MessageLayout(date, clientId, path);
  }

  const ReferenceEndpoint: string := "/xcloud/data-export/sites"

  /** The reference message is 94 characters long exactly when the client
      id has 36 characters (the length of a textual UUID). */
  lemma ReferenceMessageLength(clientId: string)
    ensures |Message(ReferenceTime, clientId, ReferenceEndpoint, "\n")| == 94 <==> |clientId| == 36
  {
    MessageLength(ReferenceTime, clientId, ReferenceEndpoint);
  }

  /** The timestamp sits at a fixed place in the message, characters 5
      onwards, whatever the path and client id hold. */
  lemma DateAtFixedOffset(date: Time, clientId: string, path: string)
    ensures var m := Message(date, clientId, path, "\n");
      var d := FormatIso(date);
      5 + |d| <= |m| && m[5..5 + |d|] == d
  {
    MessageLayout(date, clientId, path);
  }

  /** With newline-free paths and client ids, two messages are equal exactly
      when they were built from the same millisecond, path and client id. */
  lemma MessageInjective(d1: Time, c1: string, p1: string, d2: Time, c2: string, p2: string)
    requires FourDigitYear(d1) && FourDigitYear(d2)
    requires NoNewline(p1) && NoNewline(c1) && NoNewline(p2) && NoNewline(c2)
    ensures Message(d1, c1, p1, "\n") == Message(d2, c2, p2, "\n")
      <==> TruncMillis(d1) == TruncMillis(d2) && p1 == p2 && c1 == c2
  {
    if Message(d1, c1, p1, "\n") == Message(d2, c2, p2, "\n") {
      assert HmacFields(d1, c1, p1)[2] == HmacFields(d2, c2, p2)[2];
      FormatIsoInjective(d1, d2);
    }
    if TruncMillis(d1) == TruncMillis(d2) && p1 == p2 && c1 == c2 {
      FormatIsoInjective(d1, d2);
    }
  }

  /** Without that restriction the layout is ambiguous: a path and client
      id that trade a run of three newlines sign the same message. */
  lemma MessageCollision(date: Time)
    ensures Message(date, "c", "a\n\n\nb", "\n") == Message(date, "b\n\n\nc", "a", "\n")
  {
    MessageLayout(date, "c", "a\n\n\nb");
    MessageLayout(date, "b\n\n\nc", "a");
  }

  // ---- the signed request ---------------------------------------------------

  /** The `Date` header is the very timestamp inside the signed message. */
  lemma DateHeaderIsSigned(
    crypto: Crypto, urlCheck: UrlCheck, now: Time,
    server: string, path: string, clientId: string, secretKey: string, authMethod: string)
    requires urlCheck(server + path).None?
    ensures var r := SignedGetRequest(crypto, urlCheck, now, server, path, clientId, secretKey, authMethod, "\n");
      var m := Message(now, clientId, path, "\n");
      var d := r.value.headers["Date"][0];
      r.Success? && 5 + |d| <= |m| && m[5..5 + |d|] == d
  {
    DateAtFixedOffset(now, clientId, path);
  }

  /** Go's decoder with its error flag cleared. */
  function IgnoringKeyErrors(crypto: Crypto): (c: Crypto)
    ensures forall k :: !c.goDecodeKey(k).failed
  {
    crypto.(goDecodeKey := (k: string) => KeyDecoding(crypto.goDecodeKey(k).bytes, false))
  }

  /** A key that does not decode never turns into an error: the request is
      the one built from the partially decoded bytes as if decoding had
      succeeded. */
  lemma KeyErrorIgnored(
    crypto: Crypto, urlCheck: UrlCheck, now: Time,
    server: string, path: string, clientId: string, secretKey: string,
    authMethod: string, delim: string)
    ensures SignedGetRequest(crypto, urlCheck, now, server, path, clientId, secretKey, authMethod, delim)
      == SignedGetRequest(IgnoringKeyErrors(crypto), urlCheck, now, server, path, clientId, secretKey, authMethod, delim)
  {
  }

  /** The MAC depends on the key text only through the bytes Go's decoder
      gets out of it: two keys that decode to the same bytes, cleanly or
      not, sign every message alike. */
  lemma KeysSignAlike(crypto: Crypto, data: string, k1: string, k2: string)
    requires crypto.goDecodeKey(k1).bytes == crypto.goDecodeKey(k2).bytes
    ensures SignedHmacBytes(crypto, data, k1) == SignedHmacBytes(crypto, data, k2)
    ensures SignedHmacBytes(crypto, data, k1) == SignedHmacBytes(IgnoringKeyErrors(crypto), data, k2)
  {
  }

  // ---- reading the Authorization header back ------------------------------

  function FirstIndex(s: string, c: char): (r: Option<nat>)
    ensures r.Some? ==> r.value < |s| && s[r.value] == c && c !in s[..r.value]
    ensures r.None? ==> c !in s
  {
    if |s| == 0 then None
    else if s[0] == c then Some(0)
    else match FirstIndex(s[1..], c)
      case None => None
      case Some(i) => assert s[..i + 1] == [s[0]] + s[1..][..i]; Some(i + 1)
  }

  /** How a verifier splits an Authorization value: the scheme up to the
      first space, then the encoded client id up to the first colon, then
      the encoded MAC. */
  function SplitAuthorization(h: string): Option<(string, string, string)> {
    match FirstIndex(h, ' ')
    case None => None
    case Some(i) =>
      var rest := h[i + 1..];
      match FirstIndex(rest, ':')
      case None => None
      case Some(j) => Some((h[..i], rest[..j], rest[j + 1..]))
  }

  lemma FirstIndexAfter(a: string, c: char, b: string)
    requires c !in a
    ensures FirstIndex(a + [c] + b, c) == Some(|a|)
  {
    var s := a + [c] + b;
    assert s[..|a|] == a;
    assert s[|a|] == c;
    assert forall k | |a| < k <= |s| :: s[..k][|a|] == c;
  }

  /** A scheme without spaces and a client id without colons are read back
      from `scheme id:mac`. */
  lemma AuthorizationSplits(a: string, id: string, m: string)
    requires ' ' !in a && ':' !in id
    ensures SplitAuthorization(a + " " + id + ":" + m) == Some((a, id, m))
  {
    var h := a + " " + id + ":" + m;
    assert h == a + [' '] + (id + [':'] + m);
    FirstIndexAfter(a, ' ', id + [':'] + m);
    var rest := h[|a| + 1..];
    assert rest == id + [':'] + m;
    FirstIndexAfter(id, ':', m);
    assert h[..|a|] == a;
    assert rest[..|id|] == id;
    assert rest[|id| + 1..] == m;
  }

  /** The base64 text of the client id holds no colon, so the header splits. */
  lemma EncodedPartsSplit(crypto: Crypto, a: string, idBytes: seq<byte>, mac: seq<byte>)
    ensures ' ' !in a && StandardAlphabet(crypto) ==>
      SplitAuthorization(a + " " + crypto.base64(idBytes) + ":" + crypto.base64(mac))
        == Some((a, crypto.base64(idBytes), crypto.base64(mac)))
  {
    if ' ' !in a && StandardAlphabet(crypto) {
      var id := crypto.base64(idBytes);
      assert ':' !in id by {
        forall k | 0 <= k < |id| ensures id[k] != ':' {
          assert IsBase64Char(crypto.base64(idBytes)[k]);
        }
      }
      AuthorizationSplits(a, id, crypto.base64(mac));
    }
  }
}
