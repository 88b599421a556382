/** The front end's signer (`src/hmac.ts`): the same seven-field message
    and Authorization layout as the backend, built with `toISOString`,
    crypto-js and `btoa`, and the request paths of its three queries. */
module ReferenceSigner {
  import opened Wrappers
  import opened Text
  import opened IsoTime
  import opened Encoding
  import opened Signer
  import opened ResourceClient
  import opened FormEncoding
  import opened SearchParams

  /** The string `hmacAuth` signs: the seven fields joined by newlines, the
      timestamp written by `toISOString`. Within years 0..9999, and with no
      newline in the path or the client id, splitting it at newlines gives
      the backend's seven fields. */
  function JsMessage(date: Time, path: string, clientId: string): (m: string)
    ensures FourDigitYear(date) && NoNewline(path) && NoNewline(clientId)
      ==> Split(m, '\n') == HmacFields(date, clientId, path)
  {
    FieldsSplit(date, clientId, path);
    Join(["GET", "", ToIsoString(date), path, "", "", clientId], "\n")
  }

  const InvalidCharacterError: string := "InvalidCharacterError"

  /** `hmacAuth`. crypto-js reads the message as UTF-8 and the key as base64;
      `btoa` reads the client id one byte per character and throws on a
      character above U+00FF. */
  function HmacAuth(crypto: Crypto, date: Time, path: string, authMethod: string, clientId: string,
                    secretKey: string): (r: Result<string, string>)
    ensures r.Success? <==> forall i :: 0 <= i < |clientId| ==> (clientId[i] as int) < 0x100
    ensures r.Failure? ==> r.error == InvalidCharacterError
    ensures r.Success? ==>
      r.value == authMethod + " " + crypto.base64(Latin1(clientId).value) + ":"
        + crypto.base64(crypto.hmacSha256(crypto.jsParseKey(secretKey), Utf8(JsMessage(date, path, clientId))))
    ensures r.Success? && ' ' !in authMethod && StandardAlphabet(crypto) ==>
      SplitAuthorization(r.value) == Some((authMethod, crypto.base64(Latin1(clientId).value),
        crypto.base64(crypto.hmacSha256(crypto.jsParseKey(secretKey), Utf8(JsMessage(date, path, clientId))))))
  {
    var message := JsMessage(date, path, clientId);
    var mac := crypto.hmacSha256(crypto.jsParseKey(secretKey), Utf8(message));
    var hmac := crypto.base64(mac);
    match Latin1(clientId)
    case None => Failure(InvalidCharacterError)
    case Some(bytes) =>
      EncodedPartsSplit(crypto, authMethod, bytes, mac);
      Success(authMethod + " " + crypto.base64(bytes) + ":" + hmac)
  }

  /** The two headers `hmacHeaders` returns. */
  datatype Headers = Headers(date: string, authorization: string)

  /** `hmacHeaders`, with `new Date()` passed in as `now`: one instant
      serves both the `Date` header and the signature. */
  function HmacHeaders(crypto: Crypto, now: Time, path: string, authMethod: string, clientId: string,
                       secretKey: string): (r: Result<Headers, string>)
    ensures r.Success? <==> HmacAuth(crypto, now, path, authMethod, clientId, secretKey).Success?
    ensures r.Success? ==>
      && r.value.date == ToIsoString(now)
      && r.value.authorization == HmacAuth(crypto, now, path, authMethod, clientId, secretKey).value
  {
    match HmacAuth(crypto, now, path, authMethod, clientId, secretKey)
    case Failure(e) => Failure(e)
    case Success(auth) => Success(Headers(ToIsoString(now), auth))
  }

  /** The request `getRequestWithHmac` hands to `fetch`. */
  datatype FetchRequest = FetchRequest(url: string, headers: Headers)

  /** `getRequestWithHmac`: the URL is the server and the path, concatenated,
      and the headers are those `hmacHeaders` signs for the path alone. */
  function GetRequestWithHmac(crypto: Crypto, now: Time, server: string, path: string, authMethod: string,
                              clientId: string, secretKey: string): (r: Result<FetchRequest, string>)
    ensures r.Success? <==> forall i :: 0 <= i < |clientId| ==> (clientId[i] as int) < 0x100
    ensures r.Success? ==> r.value.url == server + path && r.value.headers.date == ToIsoString(now)
    ensures r.Success? ==> r.value.headers == HmacHeaders(crypto, now, path, authMethod, clientId, secretKey).value
  {
    match HmacHeaders(crypto, now, path, authMethod, clientId, secretKey)
    case Failure(e) => Failure(e)
    case Success(h) => Success(FetchRequest(server + path, h))
  }

  // ---- agreement with the backend -----------------------------------------

  /** For the same timestamp text, path and client id the two messages are
      the same string. */
  lemma MessagesAgree(goDate: Time, jsDate: Time, path: string, clientId: string)
    requires FormatIso(goDate) == ToIsoString(jsDate)
    ensures JsMessage(jsDate, path, clientId) == Message(goDate, clientId, path, "\n")
  {
  }

  /** The `Date` header is the timestamp field of the signed message. */
  lemma JsDateHeaderIsSigned(crypto: Crypto, now: Time, path: string, authMethod: string, clientId: string,
                             secretKey: string)
    requires HmacHeaders(crypto, now, path, authMethod, clientId, secretKey).Success?
    ensures var h := HmacHeaders(crypto, now, path, authMethod, clientId, secretKey).value;
      var m := JsMessage(now, path, clientId);
      5 + |h.date| <= |m| && m[5..5 + |h.date|] == h.date
  {
    JsMessageDate(now, path, clientId);
  }

  /** The timestamp sits right after `GET` and the empty content type. */
  lemma JsMessageDate(now: Time, path: string, clientId: string)
    ensures var d, m := ToIsoString(now), JsMessage(now, path, clientId);
      5 + |d| <= |m| && m[5..5 + |d|] == d
  {
    var d := ToIsoString(now);
    SevenFieldsLayout(d, path, clientId);
    var m := "GET\n\n" + d + "\n" + path + "\n\n\n" + clientId;
    assert m[5..5 + |d|] == d;
  }

  /** Within years 0..9999, for an ASCII client id, and when crypto-js and Go
      decode the key to the same bytes, the front end's Authorization value
      is exactly the backend's. */
  lemma AuthorizationAgrees(crypto: Crypto, date: Time, path: string, authMethod: string, clientId: string,
                            secretKey: string)
    requires FourDigitYear(date) && IsAscii(clientId)
    requires crypto.goDecodeKey(secretKey).bytes == crypto.jsParseKey(secretKey)
    ensures HmacAuth(crypto, date, path, authMethod, clientId, secretKey)
      == Success(AuthHeader(crypto, authMethod, clientId,
                   SignedHmacBytes(crypto, Message(date, clientId, path, "\n"), secretKey)))
  {
    GoMatchesJs(date);
    MessagesAgree(date, date, path, clientId);
    AsciiLatin1IsUtf8(clientId);
  }

  /** Within years 0..9999, for an ASCII client id, when crypto-js and Go
      decode the key alike and Go accepts the URL, the request the front end
      fetches is the one the backend builds: the same URL, `Date` and
      `Authorization`. */
  lemma RequestsAgree(crypto: Crypto, urlCheck: UrlCheck, now: Time, server: string, path: string,
                      authMethod: string, clientId: string, secretKey: string)
    requires FourDigitYear(now) && IsAscii(clientId)
    requires crypto.goDecodeKey(secretKey).bytes == crypto.jsParseKey(secretKey)
    requires urlCheck(server + path).None?
    ensures var js := GetRequestWithHmac(crypto, now, server, path, authMethod, clientId, secretKey);
      var go := SignedGetRequest(crypto, urlCheck, now, server, path, clientId, secretKey, authMethod, "\n");
      && js.Success? && go.Success?
      && js.value.url == go.value.url
      && go.value.headers["Date"] == [js.value.headers.date]
      && go.value.headers["Authorization"] == [js.value.headers.authorization]
  {
    AuthorizationAgrees(crypto, now, path, authMethod, clientId, secretKey);
    GoMatchesJs(now);
  }

  /** For every client id with a character in U+0080..U+00FF and none
      above, the front end signs, but `btoa` encodes other bytes than the
      backend's UTF-8 conversion. */
  lemma ClientIdEncodingsDiffer(crypto: Crypto, date: Time, path: string, authMethod: string, clientId: string,
                                secretKey: string)
    requires Latin1(clientId).Some? && !IsAscii(clientId)
    ensures HmacAuth(crypto, date, path, authMethod, clientId, secretKey).Success?
    ensures Latin1(clientId).value != Utf8(clientId)
  {
    Latin1DiffersFromUtf8(clientId);
  }

  /** Past year 9999 the signed timestamps differ, so the messages do. */
  lemma MessagesDifferAfter9999(t: Time, path: string, clientId: string)
    requires t.year > 9999
    ensures JsMessage(t, path, clientId) != Message(t, clientId, path, "\n")
  {
    GoDiffersFromJsAfter9999(t);
    DateAtFixedOffset(t, clientId, path);
    SevenFieldsLayout(ToIsoString(t), path, clientId);
    assert JsMessage(t, path, clientId)[5] == ToIsoString(t)[0];
  }

  // ---- request paths ------------------------------------------------------

  /** `getThings`. */
  const ThingsPath: string := "/sites"

  /** `getDataStreams`. */
  function JsDataStreamsPath(thingId: string): string {
    "/site/" + thingId + "/datastreams"
  }

  /** `getObservations`: the query string holds no colon, because the colons
      of both timestamps are written `%3A`. */
  function JsObservationsPath(from: Time, until: Time, ids: seq<string>): (p: string)
    ensures ':' !in p
  {
    "/observations?" + Serialize(ObservationPairs(ToIsoString(from), ToIsoString(until), ids))
  }

  /** The backend asks for the same resources under its base path. */
  lemma PathsUnderBasePath(basePath: string, thingId: string)
    ensures IndexPath(basePath) == basePath + ThingsPath
    ensures DataStreamsPath(basePath, thingId) == basePath + JsDataStreamsPath(thingId)
  {
  }

  /** Within years 0..9999 the backend's observations path carries the
      colon between the hour and the minute of `from`, 32 characters past
      the base path. */
  lemma ObservationsPathHasColon(basePath: string, from: Time, until: Time, ids: seq<string>)
    requires FourDigitYear(from)
    ensures var p := ObservationsPath(basePath, from, until, ids);
      |basePath| + 32 < |p| && p[|basePath| + 32] == ':'
  {
    var x := basePath + QueryPath + "?" + QueryStart + "=";
    var f := FormatIso(from);
    assert (x + f)[|x| + 13] == ':';
  }

  /** Within years 0..9999 the two observations paths never agree, whatever
      the ids: the backend writes the timestamps' colons as they are and
      `URLSearchParams` writes them as `%3A`. */
  lemma ObservationsNeverAgree(basePath: string, from: Time, until: Time, ids: seq<string>)
    requires FourDigitYear(from)
    ensures ObservationsPath(basePath, from, until, ids) != basePath + JsObservationsPath(from, until, ids)
  {
    ObservationsPathHasColon(basePath, from, until, ids);
    var j := JsObservationsPath(from, until, ids);
    if |basePath + j| > |basePath| + 32 {
      assert (basePath + j)[|basePath| + 32] == j[32];
    }
  }

  /** The backend's observations path with no base path, over the
      timestamp texts. */
  function GoObservationsPath(f: string, u: string, ids: seq<string>): string {
    "" + QueryPath + "?" + QueryStart + "=" + f + "&" + QueryEnd + "=" + u + "&" + QueryTags + "=" + Join(ids, ",")
  }

  lemma GoObservationsPathIs(from: Time, until: Time, ids: seq<string>)
    ensures ObservationsPath("", from, until, ids) == GoObservationsPath(FormatIso(from), FormatIso(until), ids)
  {
  }

  lemma MergeThree(x: string, a: string, b: string, c: string)
    ensures x + a + b + c == x + (a + b + c)
  {
  }

  /** The one-id query, its literal runs merged. */
  lemma GoOneIdSpelled(f: string, u: string, id: string)
    ensures GoObservationsPath(f, u, [id]) == "/observations?from=" + f + "&until=" + u + "&datastreamIds=" + id
  {
    assert Join([id], ",") == id;
    var p := "" + QueryPath + "?" + QueryStart + "=";
    assert p == "/observations?from=";
    assert "&" + QueryEnd + "=" == "&until=";
    assert "&" + QueryTags + "=" == "&datastreamIds=";
    MergeThree(p + f, "&", QueryEnd, "=");
    MergeThree(p + f + "&until=" + u, "&", QueryTags, "=");
  }

  lemma JsOneIdSpelled(f: string, u: string, id: string)
    ensures "/observations?" + ("from=" + f + "&" + ("until=" + u + "&" + ("datastreamIds=" + id)))
      == "/observations?from=" + f + "&until=" + u + "&datastreamIds=" + id
  {
  }

  /** The two query layouts are the same: for one id and texts the encoder
      keeps, the backend's string is the front end's. Timestamps are never
      such texts, so the real paths differ only by the encoding of their
      colons. */
  lemma ObservationShapesAgree(f: string, u: string, id: string)
    requires AllUnreserved(f) && AllUnreserved(u) && AllUnreserved(id)
    ensures GoObservationsPath(f, u, [id]) == "/observations?" + Serialize(ObservationPairs(f, u, [id]))
  {
    SerializeOneId(f, u, id);
    GoOneIdSpelled(f, u, id);
    JsOneIdSpelled(f, u, id);
  }

  /** With two ids the layouts part ways too: the front end repeats the key,
      the backend joins the ids with a comma under one key. */
  lemma ObservationsDifferOnTwoIds(from: Time, until: Time, a: string, b: string)
    ensures ObservationsPath("", from, until, [a, b])
      == ObservationsPrefix("", from, until) + a + "," + b
    ensures JsObservationsPath(from, until, [a, b])
      == "/observations?" + Join(["from=" + FormEncode(ToIsoString(from)), "until=" + FormEncode(ToIsoString(until)),
                                  "datastreamIds=" + FormEncode(a), "datastreamIds=" + FormEncode(b)], "&")
  {
    TwoIdAssignments(ToIsoString(from), ToIsoString(until), a, b);
    var q := ObservationsPrefix("", from, until);
    JoinCons(a, [b], ",");
    assert q + Join([a, b], ",") == q + a + "," + b;
  }
}
