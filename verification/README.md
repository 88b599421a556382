# grafana-hmac-datasource, modelled in Dafny

A Grafana data-source plugin that reads time series from a remote
"partner data access" API. Every call to that API is a GET signed with an
HMAC. The project models the plugin's core:

- **Signing** (`signer.dfy`, `iso_time.dfy`, `encoding.dfy`, `text.dfy`):
  - the `ISO_COMPATIBILITY` timestamp layout;
  - the seven-field message `hmacStringArray` builds and `request` joins with newlines;
  - the Authorization header of `authHeader`;
  - the request `signedGetRequest` returns.

  HMAC-SHA256, base64 and Go's key decoding are uninterpreted functions, fields of the `Crypto` datatype. The model pins down the exact character layout around them.
- **One signed fetch** (`resource_client.dfy`). The handlers all follow the same sequence: build the request, send it, read the body, check for status 200, decode. The module also holds the three request paths.
- **`query`** (`query_pipeline.dfy`). One panel query makes two fetches: the thing's datastreams, then their observations. It produces one frame per entry of the observations object that holds at least one number. The frame is named after the datastream with that id, or "" when the id is not among the datastreams. The series loop keeps Go's `int64` multiplication, which wraps.
- **`CheckHealth`** (`health_probe.dfy`). The first missing setting is reported; otherwise one fetch of the sites index decides.
- **`CallResource`** (`resource_aggregator.dfy`). The index fetch is followed by an ordered loop over the sites, and the first failure ends it.
- **The TypeScript signer `src/hmac.ts`** (`reference_signer.dfy`), including its three request paths. In years 0..9999, for an ASCII client id and a key both decoders read alike, its message, its Authorization value and the request it fetches (URL, Date and Authorization) are proved equal to the Go signer's. The two are shown to part past year 9999 (different signed messages) and on every observations path. For every client id above ASCII that `btoa` accepts, the two sides encode the client id as different bytes; whether the Authorization values then differ depends on the base64 encoder, which is left uninterpreted. On the observations path, the browser's form encoding (`form_encoding.dfy`, `search_params.dfy`) writes the timestamps' colons as `%3A`, while the backend sends them raw.
- **Settings loading** (`models.dfy`). This module also holds the records of `pkg/models/settings.go`.

The network, the clock, URL parsing and JSON decoding are parameters of each operation:

- `Env.net` maps a request to `DoFailed`, `ReadFailed` or `Reply(status, body)`.
- `Env.clock(k)` is the k-th `time.Now().UTC()` of a handler call.
- `Env.urlCheck` is what `http.NewRequest` says about a URL.
- The JSON decoders are fields of a `Codecs` datatype.

Each handler returns its response together with the requests it put on the wire. That makes order, path and signing facts statable.

Four behaviours of the code are easy to assume otherwise; the model follows the code:

- **NaN observations.** `query` sizes both columns `len(obs)` and leaves NaN slots as Go's zero `time.Time` and `0`. It only drops a series whose every value is NaN. The slots are not compacted.
- **Undecodable secret key.** An undecodable key is not a configuration error. `signedHmacBytes` drops the decode error and signs with whatever bytes were decoded.
- **Range bounds.** The bounds are formatted with the same layout but are not converted to UTC first. The trailing `Z` is a literal of the layout, so the model formats whatever civil components it is given.
- **Non-200 replies in `CallResource`.** A non-200 reply to the index request is passed through with its status. The same reply to a per-site request becomes a 500.

## Model

| member | source | states |
|---|---|---|
| IsoTime.FormatIso | pkg/plugin/datasource.go:23-24 | In years 0..9999 the timestamp is 24 characters, with `-`,`-`,`T`,`:`,`:`,`.`,`Z` at positions 4, 7, 10, 13, 16, 19 and 23. Past year 9999 it begins with a digit of the year. |
| IsoTime.ToIsoString | src/hmac.ts:52 | In years 0..9999 JavaScript's `toISOString` is the Go layout exactly. Past year 9999 it begins with `+`, and before year 0 with `-`. |
| IsoTime.FormatThenParse | pkg/plugin/datasource.go:23-24 | In years 0..9999, reading a formatted timestamp back gives the instant truncated to the millisecond. |
| IsoTime.ParseThenFormat | pkg/plugin/datasource.go:23-24 | Any text the layout accepts is the formatting of the whole-millisecond instant it denotes. The layout is therefore a bijection onto its texts. |
| IsoTime.FormatIsoInjective | pkg/plugin/datasource.go:23-24 | In years 0..9999, two instants format alike exactly when they agree to the millisecond. |
| IsoTime.FormatIgnoresSubMillis | pkg/plugin/datasource.go:23-24 | The layout's `.000` keeps milliseconds and drops finer digits. |
| IsoTime.ReadRender | pkg/plugin/datasource.go:23-24 | Zero-padded fields that fit their widths are read back, separators included, as the same values. |
| IsoTime.RenderRead | pkg/plugin/datasource.go:23-24 | Text that reads as a layout is re-rendered exactly from the values read. |
| IsoTime.GoMatchesJs | pkg/plugin/datasource.go:23-24 | In years 0..9999 the Go layout equals JavaScript's `toISOString`, as its comment claims. |
| IsoTime.GoDiffersFromJsAfter9999 | pkg/plugin/datasource.go:23-24 | In every year past 9999 the two formats part: Go's text begins with `1`, JavaScript's with the sign `+` of its expanded year. |
| IsoTime.ReferenceFormat | pkg/plugin/datasource_test.go:18-31 | The reference instant, 2025-05-25 13:24:56.789 UTC, formats to exactly the reference date text. |
| IsoTime.ReferenceDateRoundTrip | pkg/plugin/datasource_test.go:18-31 | The reference date reads as that instant, and the instant formats back to the same 24 characters. |
| Encoding.Latin1 | src/hmac.ts:60 | `btoa`'s input bytes: one byte per character, defined exactly when every character is at most U+00FF. |
| Encoding.AsciiLatin1IsUtf8 | src/hmac.ts:60 | For ASCII text, `btoa`'s bytes are Go's `[]byte(clientId)`. |
| Encoding.Latin1DiffersFromUtf8 | src/hmac.ts:60 | For any text `btoa` accepts that holds a character above ASCII, `btoa`'s bytes differ from Go's UTF-8 bytes. |
| Text.SplitJoin | pkg/plugin/datasource.go:314 | Joining at least one part free of the delimiter with `strings.Join`, then splitting at the delimiter, gives back the parts in order. |
| Text.JoinSplit | pkg/plugin/datasource.go:91 | Splitting any text at a delimiter and joining the pieces with it gives back the text. |
| Signer.MessageLayout | pkg/plugin/datasource.go:52-69 | The signed message is `GET`, an empty content type, the timestamp, the path, two empty fields and the client id, separated by single newlines. |
| Signer.MessageLength | pkg/plugin/datasource.go:52-69 | In years 0..9999 the message is 33 characters longer than path and client id together. |
| Signer.ReferenceMessageLength | pkg/plugin/datasource_test.go:59-63 | With the reference date and endpoint, the message has 94 characters exactly when the client id has 36. |
| Signer.Message | pkg/plugin/datasource.go:52-69 | With the newline delimiter, in years 0..9999 and for a path and client id without newlines, splitting the message at newlines recovers the seven fields. |
| Signer.MessageInjective | pkg/plugin/datasource.go:52-69 | Under the same condition, two messages are equal exactly when millisecond, path and client id are. |
| Signer.MessageCollision | pkg/plugin/datasource.go:52-69 | Without that condition, different paths and client ids can sign the same message. |
| Signer.SignedGetRequest | pkg/plugin/datasource.go:88-102 | A request exists exactly when `server + path` parses; otherwise the parse error is returned. The request is a GET to that URL, unnormalised, with only the Authorization and Date headers. Date is the instant in the layout. Authorization is the scheme, then base64 of the client id's UTF-8, then base64 of the HMAC of the message signed at that instant. |
| Signer.DateHeaderIsSigned | pkg/plugin/datasource.go:89-100 | The Date header is the text at characters 5.. of the signed message, the same instant. |
| Signer.KeyErrorIgnored | pkg/plugin/datasource.go:72-77 | A key that fails to decode never causes an error. The request equals the one built as if the partially decoded bytes had decoded cleanly. |
| Signer.KeysSignAlike | pkg/plugin/datasource.go:72-77 | The MAC depends on the key text only through the bytes Go decodes from it: two keys with the same decoded bytes sign every message alike, with or without a decode error. |
| Signer.AuthHeader | pkg/plugin/datasource.go:80-85 | With a space-free scheme and a standard-alphabet encoder, a verifier splitting at the first space and the first colon recovers the scheme, the encoded client id and the encoded MAC. |
| Models.LoadSecretPluginSettings | pkg/models/settings.go:79-84 | The key comes from the `secretKey` entry and the client id from the `clientId` entry. Each is "" when absent. |
| Models.SecretsIgnoreOtherEntries | pkg/models/settings.go:79-84 | Maps that agree on those two entries load the same secrets, whatever else they hold. |
| Models.LoadPluginSettings | pkg/models/settings.go:68-76 | Loading fails exactly when the JSON does not decode, with the prefixed message and the cause. On success the three plain fields come from the JSON and the secrets are always present. |
| Models.LoadErrorPrefix | pkg/models/settings.go:70-73 | Every load error starts with `could not unmarshal PluginSettings json`. |
| ResourceClient.DatasourceRequest | pkg/plugin/datasource.go:268-270 | The handlers sign with the configured server, secrets and scheme, always with the newline delimiter. |
| ResourceClient.Fetch | pkg/plugin/datasource.go:282-301 | A fetch issues no request exactly when the request cannot be built, and otherwise exactly that request. It succeeds exactly on a 200 reply whose body decodes. Every other outcome of the exchange is its own step: a transport error, a read error, a non-200 reply with its status and body, or the decoder's error. |
| ResourceClient.DetailOfFetch | pkg/plugin/datasource.go:282-301 | What a failed fetch passes on is exactly what its failing stage produced: the build, transport, read or decode error, or the remote body after a non-200 reply. |
| ResourceClient.DataStreamsPath | pkg/plugin/datasource.go:280-281 | The datastreams path is `basePath/site/thingId/datastreams`, with no slash normalisation. |
| ResourceClient.IndexPath | pkg/plugin/datasource.go:396 | The index path is `basePath/sites`. |
| ResourceClient.ObservationsPath | pkg/plugin/datasource.go:309-314 | The path begins with the prefix holding both bounds. When there is at least one id and no id holds a comma, the `datastreamIds` value splits at commas into the datastream ids in order. |
| ResourceClient.ObservationsPathWithoutIds | pkg/plugin/datasource.go:303-314 | With no datastreams the filter is still sent, empty. That path is the same as for a single empty id. |
| QueryPipeline.Wrap64 | pkg/plugin/datasource.go:350 | Go `int64` arithmetic: equal to the true value within range, congruent to it modulo 2^64 always. |
| QueryPipeline.Nanos | pkg/plugin/datasource.go:350 | Milliseconds within about 292 years of the epoch convert to nanoseconds exactly. Beyond that the result is congruent to the true product modulo 2^64. |
| QueryPipeline.NanosWraps | pkg/plugin/datasource.go:350 | One millisecond further, the product wraps around to a negative instant. |
| QueryPipeline.BuildSeries | pkg/plugin/datasource.go:343-356 | Both columns have one slot per observation. A number's slot holds its instant and value; a NaN's slot holds the zero time and 0. The count is positive exactly when some observation is a number. |
| QueryPipeline.CountPositive | pkg/plugin/datasource.go:345-354 | The counter is non-zero exactly when some observation is a number. |
| QueryPipeline.NameLookup | pkg/plugin/datasource.go:303-308 | The lookup's keys are exactly the datastream ids. |
| QueryPipeline.NameLookupLastWins | pkg/plugin/datasource.go:305-308 | An id's name is that of its last datastream. |
| QueryPipeline.FrameOf | pkg/plugin/datasource.go:337-363 | An entry yields a frame exactly when it decodes and holds a number. The frame is named by the lookup, or "" for an unknown id, and has the slots described for BuildSeries. |
| QueryPipeline.FramesOf | pkg/plugin/datasource.go:337-364 | A frame is in the response exactly when some entry of the observations object yields it, and there are never more frames than entries. |
| QueryPipeline.FramesCount | pkg/plugin/datasource.go:337-364 | Each frame occurs in the response exactly as many times as there are entries that yield it, so no entry's frame is repeated or lost. |
| QueryPipeline.FramesSkipUndecodable | pkg/plugin/datasource.go:338-342 | An entry that fails to decode is skipped wherever it stands, and the other entries give the same frames. |
| QueryPipeline.FramesOrderIndependent | pkg/plugin/datasource.go:337 | Any two iteration orders of the observations object give the same frames as a multiset. |
| QueryPipeline.TwoStreamsOneFrame | pkg/plugin/datasource.go:337-364 | Take datastreams A (Temp) and B (Flow) with one reading each, B's NaN. The result is exactly one frame, Temp, with one slot. |
| QueryPipeline.Proceed | pkg/plugin/datasource.go:282-364 | A failed datastreams fetch ends the query with its step's message. Otherwise the observations fetch follows, and its failure names its step or its entries become the frames. |
| QueryPipeline.StreamsError | pkg/plugin/datasource.go:282-301 | The message ends with the failure's detail verbatim. It starts with `request: ` exactly for a build, transport or status failure, with `body: ` exactly for a read failure, and with `unmarshal: ` exactly for a decode failure. |
| QueryPipeline.ObservationsError | pkg/plugin/datasource.go:316-335 | The message ends with the failure's detail verbatim. It starts with `signed request: `, `request failed: `, `reading body: ` or `partial unmarshaling failed: ` exactly for a build, transport-or-status, read or decode failure respectively. |
| QueryPipeline.Query | pkg/plugin/datasource.go:273-366 | A model that does not decode is a bad request with no request issued. At most two requests are issued, and frames come only after both. |
| QueryPipeline.QueryFirstRequest | pkg/plugin/datasource.go:280-285 | The first request goes to the thing's datastreams path, signed with the first clock reading. |
| QueryPipeline.QueryStopsOnStreamsFailure | pkg/plugin/datasource.go:282-302 | A failed datastreams fetch issues nothing further and reports its step. |
| QueryPipeline.QueryObservationsRequest | pkg/plugin/datasource.go:309-316 | The second request carries the range bounds in the layout and the ids in datastream order. It is signed with the second clock reading. |
| QueryPipeline.QueryObservations | pkg/plugin/datasource.go:316-364 | The observations fetch decides the response: a bad request naming its step, or the frames of its entries named after the datastreams. |
| QueryPipeline.QueryWithoutDataStreams | pkg/plugin/datasource.go:303-316 | A thing without datastreams still sends the observations request, with an empty id list. |
| HealthProbe.MissingSetting | pkg/plugin/datasource.go:376-395 | Nothing is reported missing exactly when all five settings are non-empty. |
| HealthProbe.MissingSettingIsFirstEmpty | pkg/plugin/datasource.go:376-395 | The message reported is that of the first empty setting in the order key, client id, server URL, base path, scheme. |
| HealthProbe.CheckHealth | pkg/plugin/datasource.go:372-431 | The Go error is always nil. A missing setting is reported before any request. OK exactly when all settings are present and the index fetch returns a non-empty list. At most one request, to `basePath/sites`. |
| HealthProbe.ProbeError | pkg/plugin/datasource.go:397-421 | The message ends with the failure's detail verbatim, right after the label. It starts with `Request failed:` exactly for a build, transport or status failure, with `Error reading body:` exactly for a read failure, and with `Unmarshaling failed:` exactly for a decode failure. |
| HealthProbe.EmptyIndexIsError | pkg/plugin/datasource.go:423-426 | An index without sites is an error with its own message. |
| HealthProbe.FailedIndexIsReported | pkg/plugin/datasource.go:396-422 | A failed index fetch is reported with the message of the step that failed. |
| HealthProbe.AbsentKeyIsReported | pkg/models/settings.go:80-81 | A secure map without `secretKey` loads an empty key, which the check reports without a request. |
| HealthProbe.AbsentClientIdIsReported | pkg/models/settings.go:80-82 | Likewise an absent `clientId` once a key is present. |
| ResourceAggregator.GatherSucceedsIffAllFetched | pkg/plugin/datasource.go:200-244 | The loop completes exactly when every site's fetch succeeds. |
| ResourceAggregator.Gather | pkg/plugin/datasource.go:200-244 | A completed loop has one pair per site. A failed loop carries the detail of some site's failed fetch. |
| ResourceAggregator.GatherPairs | pkg/plugin/datasource.go:200-244 | A completed loop pairs each site, in index order, with the datastreams fetched for it. |
| ResourceAggregator.GatherIssued | pkg/plugin/datasource.go:201-218 | A completed loop issues one request per site, in site order. |
| ResourceAggregator.GatherStopsAtFirstFailure | pkg/plugin/datasource.go:204-239 | The first failing site ends the loop with its error, or with the remote body, and nothing after it is requested. |
| ResourceAggregator.Answer | pkg/plugin/datasource.go:246-259 | Status 200 with a JSON content type exactly when the loop and the marshalling succeed; otherwise 500 with the error. |
| ResourceAggregator.CallResource | pkg/plugin/datasource.go:155-260 | A non-200 index reply is passed through with its status and body. Any other index failure is a 500 with its error. A decoded index leads to the answer over its sites. 200 implies the index was fetched. |
| ResourceAggregator.IndexRequestComesFirst | pkg/plugin/datasource.go:163-164 | The first request is the index under `basePath + "/" + path`, signed at the first clock reading. |
| ResourceAggregator.SiteRequest | pkg/plugin/datasource.go:202-218 | A site's fetch issues at most one request, and a fetched site's request went to its datastreams path. |
| ResourceAggregator.SitesIssueOneRequestEach | pkg/plugin/datasource.go:202-218 | The handler's site fetch issues one request per fetched site. |
| ResourceAggregator.AnswerPairsEverySite | pkg/plugin/datasource.go:200-259 | A 200 answer marshals one pair per site, in index order, after exactly one request per site. |
| ResourceAggregator.FirstSiteFailureDecides | pkg/plugin/datasource.go:226-231 | The first failing site decides: 500 with its error or remote body, unlike the pass-through for the index. |
| ResourceAggregator.EmptyIndexAnswer | pkg/plugin/datasource.go:200-259 | An empty index is answered with the marshalling of no pairs after the single request. |
| ReferenceSigner.HmacAuth | src/hmac.ts:42-61 | The front end signs exactly when `btoa` accepts the client id; otherwise it throws `InvalidCharacterError`. The value is the scheme, a space, base64 of the client id's one-byte-per-character encoding, a colon, and base64 of the HMAC of the message's UTF-8 under crypto-js's key. With a space-free scheme and a standard-alphabet encoder, splitting at the first space and colon recovers those three parts. |
| ReferenceSigner.JsMessage | src/hmac.ts:49-57 | In years 0..9999, for a path and client id without newlines, splitting the front end's message at newlines gives the backend's seven fields. |
| ReferenceSigner.HmacHeaders | src/hmac.ts:65-79 | The Date header and the signature come from one instant. |
| ReferenceSigner.GetRequestWithHmac | src/hmac.ts:81-89 | The request exists exactly when `btoa` accepts the client id. The fetched URL is server and path concatenated, and its headers are the Date and Authorization `hmacHeaders` signs for the path alone. |
| ReferenceSigner.MessagesAgree | src/hmac.ts:49-57 | For the same timestamp text, path and client id, the front end's message is the backend's. |
| ReferenceSigner.JsDateHeaderIsSigned | src/hmac.ts:69-76 | The Date header is the timestamp field inside the signed message. |
| ReferenceSigner.AuthorizationAgrees | src/hmac.ts:58-60 | In years 0..9999, for an ASCII client id and a key both decoders read alike, the two Authorization values are equal. |
| ReferenceSigner.RequestsAgree | src/hmac.ts:81-89 | In years 0..9999, for an ASCII client id, a key both decoders read alike and a URL Go accepts, the front end's request and the backend's `signedGetRequest` both exist and have the same URL, Date and Authorization. |
| ReferenceSigner.ClientIdEncodingsDiffer | src/hmac.ts:60 | For every client id `btoa` accepts that holds a character above ASCII, the front end signs, but it encodes different bytes from the backend's UTF-8. |
| ReferenceSigner.MessagesDifferAfter9999 | src/hmac.ts:49-57 | In every year past 9999 the two sides sign different messages for every path and client id. |
| SearchParams.ObservationPairs | src/hmac.ts:130-136 | The query pairs are `from`, then `until`, then one `datastreamIds` pair per id in order. |
| SearchParams.Serialize | src/hmac.ts:137-138 | The serialised query never holds a colon. |
| SearchParams.PairsAssignments | src/hmac.ts:130-138 | The pairs serialise as `from=`, `until=`, then one `datastreamIds=` per id in order, each value form-encoded. |
| SearchParams.SerializeOneId | src/hmac.ts:130-138 | With one id and values the encoder keeps, the query is `from=f&until=u&datastreamIds=id`. |
| FormEncoding.EncodeChar | src/hmac.ts:137-138 | A code point is kept exactly when it is an ASCII letter or digit or one of `*-._`, a space becomes `+` and nothing else does, anything else is `%` and hex digits, and a colon is never written. |
| FormEncoding.FormEncode | src/hmac.ts:137-138 | An encoded name or value never holds a colon. |
| FormEncoding.FormEncodeUnchanged | src/hmac.ts:137-138 | The encoder leaves a text unchanged exactly when every code point in it is kept. |
| FormEncoding.FormEncodeAppend | src/hmac.ts:137-138 | Encoding works piece by piece: the encoding of a concatenation is the concatenation of the encodings. |
| FormEncoding.ColonEncoded | src/hmac.ts:137-138 | The colon of a timestamp is written `%3A`. |
| ReferenceSigner.PathsUnderBasePath | src/hmac.ts:95-117 | The backend's index and datastreams paths are the front end's under the base path. |
| ReferenceSigner.JsObservationsPath | src/hmac.ts:124-138 | The front end's observations path holds no colon. |
| ReferenceSigner.ObservationsPathHasColon | pkg/plugin/datasource.go:309-314 | In years 0..9999 the backend's observations path has the raw colon of `from`'s hour and minute 32 characters past the base path. |
| ReferenceSigner.ObservationsNeverAgree | src/hmac.ts:124-143 | In years 0..9999 the backend's observations path is never the front end's under the base path, whatever the ids. |
| ReferenceSigner.ObservationShapesAgree | src/hmac.ts:130-138 | The two query layouts match: for one id and texts the encoder keeps, the backend's path is `/observations?` and the front end's serialisation. |
| ReferenceSigner.ObservationsDifferOnTwoIds | src/hmac.ts:130-138 | With two ids the backend comma-joins the ids under one key, while the front end repeats the key with each value form-encoded. |

## Left out

- HTTP transport (`Client.Do`, `io.ReadAll`, `fetch`, `defer resp.Body.Close()`): each request's outcome is the `Env.net` parameter.
- JSON decoding and `json.Marshal`: the decoders and the marshaller are parameters (`Codecs`). The observations object is the sequence of its entries in the order Go's map iteration visits them, and frames are proved independent of that order. A Go map holds each key once (a key repeated in the JSON keeps its last value); the `entries` decoder is expected to do likewise, and the model does not require it.
- HMAC-SHA256, SHA-256, base64, Go's `base64.StdEncoding.DecodeString` and crypto-js's `Base64.parse`: uninterpreted functions. One assumption is built into the model: the two sides share these functions. A single `base64` stands for Go's `StdEncoding.EncodeToString`, crypto-js's `Base64` stringify and the encoding inside `btoa`, and a single `hmacSha256` stands for Go's `crypto/hmac` with SHA-256 and crypto-js's `HmacSHA256`. This is sound because both sides follow RFC 4648 and RFC 2104, and `ReferenceSigner.AuthorizationAgrees` relies on it. Two further assumptions are stated where they are used. The base64 encoder keeps to the standard alphabet (section 4 of RFC 4648), used by `Signer.AuthHeader` and `ReferenceSigner.HmacAuth`. Go's decoder and crypto-js's `Base64.parse` give the same bytes for the key (`goDecodeKey(k).bytes == jsParseKey(k)`), a premise of `ReferenceSigner.AuthorizationAgrees`.
- URL parsing by `http.NewRequest`: the `UrlCheck` parameter.
- `time.Now()` and `new Date()`: the clock is a parameter, read once per signed request.
- `URLSearchParams` beyond `toString()`: only its serialiser is modelled (`FormEncoding`, `SearchParams`). A Dafny `char` is a Unicode scalar value, so the lone UTF-16 surrogates the URL Standard replaces by U+FFFD cannot arise.
- The unused `context.Context` arguments, `QueryData`'s loop over queries, `NewDatasource` and `Dispose`: plugin SDK glue with no logic of its own.
- Grafana SDK envelopes: a frame is its name and its two columns, and a `DataResponse` is a bad request or frames.
- `float64` and `float32`: a value is `Num(real)` or `NaN`. Infinities are not distinguished, since nothing computes on values. Go's `encoding/json` rejects `NaN` tokens, so from JSON text the `math.IsNaN` branch of the series loop is unreachable; the decoder is a parameter, and the model keeps the branch as the code has it.
- Time zones: a time is its civil components, valid dates only, with no leap seconds. A range bound in another zone would be formatted with its own components and the literal `Z`, as the Go code does.
- JavaScript `Date` limits: `toISOString`'s `RangeError` beyond ±8.64e15 ms is not modelled.
- The test file `pkg/plugin/datasource_test.go` calls functions the source does not define. Only its reference date, reference endpoint and expected length 94 are used. `src/hmac_test.ts` is a live network script.
- The UI (`ConfigEditor`, `QueryEditor`, module bootstrap): user-interface state outside the backend.
- QueryPipeline.Query: its own contract states only the decode failure, the request count and that frames follow two requests. The full request and response facts are in `QueryFirstRequest`, `QueryStopsOnStreamsFailure`, `QueryObservationsRequest`, `QueryObservations` and `Proceed`, which split them to keep each proof small.
- Models.LoadPluginSettings: the nil settings returned with an error are the `Failure` case; the identity of the returned Go reference is not modelled.
