/** One signed GET against the remote API as the handlers perform it:
    build the request (`Datasource.request`), send it, read the body, check
    for status 200, decode. Transport and JSON decoding are parameters. */
module ResourceClient {
  import opened Wrappers
  import opened Text
  import opened IsoTime
  import opened Encoding
  import opened Signer
  import opened Models

  /** What `Client.Do` and `io.ReadAll` make of one request. */
  datatype Exchange = DoFailed(err: string) | ReadFailed(err: string) | Reply(status: int, body: string)

  /** The world outside one handler call: the crypto library, URL parsing,
      the network, and the clock (`clock(k)` is the k-th `time.Now().UTC()`
      of the call). */
  datatype Env = Env(crypto: Crypto, urlCheck: UrlCheck, net: Request -> Exchange, clock: nat -> Time)

  /** The query editor's model: the selected thing. */
  datatype QueryModel = QueryModel(thingId: string)

  /** The JSON codecs of the handlers: the decoders of the panel model, the
      sites index, a site's datastreams, the observations reply and one
      datastream's observations, and the marshaller of the resource answer.
      `entries` is the top-level object of the observations reply as its
      keys and raw values, in the order Go's map iteration visits them. */
  datatype Codecs = Codecs(
    queryModel: string -> Result<QueryModel, string>,
    things: string -> Result<seq<ThingWithLocation>, string>,
    dataStreams: string -> Result<seq<DataStream>, string>,
    entries: string -> Result<seq<(string, string)>, string>,
    observations: string -> Result<seq<Observation>, string>,
    marshal: seq<ThingWithDataStreams> -> Result<string, string>)

  /** `Datasource.request`: the configured server, secrets and scheme, and
      always the newline delimiter. */
  function DatasourceRequest(cfg: PluginSettings, env: Env, tick: nat, path: string): (r: Result<Request, string>)
    ensures r.Success? <==> env.urlCheck(cfg.serverUrl + path).None?
    ensures r.Success? ==> r.value.url == cfg.serverUrl + path
    ensures r.Success? ==> r.value.headers.Keys == {"Authorization", "Date"}
    ensures r.Success? ==> r.value.headers["Date"] == [FormatIso(env.clock(tick))]
    ensures r.Success? ==> (r.value.headers["Authorization"] ==
      [AuthHeader(env.crypto, cfg.authMethod, cfg.secrets.clientId,
         SignedHmacBytes(env.crypto, Message(env.clock(tick), cfg.secrets.clientId, path, "\n"),
           cfg.secrets.secretKey))])
  {
    SignedGetRequest(env.crypto, env.urlCheck, env.clock(tick), cfg.serverUrl, path,
      cfg.secrets.clientId, cfg.secrets.secretKey, cfg.authMethod, "\n")
  }

  /** Where a fetch stopped, each with the detail Go reports. */
  datatype Step<T> =
    | Unbuilt(err: string)
    | Unsent(err: string)
    | Unread(err: string)
    | Refused(status: int, body: string)
    | Undecoded(err: string)
    | Fetched(value: T)

  /** What Go passes on from a failed fetch: the remote body after a
      non-200 reply, otherwise the error of the stage that failed. */
  function Detail<T>(s: Step<T>): string
    requires !s.Fetched?
  {
    match s
    case Unbuilt(e) => e
    case Unsent(e) => e
    case Unread(e) => e
    case Refused(_, body) => body
    case Undecoded(e) => e
  }

  /** A fetch's outcome and the requests it put on the wire (none or one). */
  datatype Call<T> = Call(step: Step<T>, issued: seq<Request>)

  /** Build, send, read, check status 200, decode. */
  function Fetch<T>(cfg: PluginSettings, env: Env, tick: nat, path: string, decode: string -> Result<T, string>)
    : (c: Call<T>)
    ensures c.step.Unbuilt? <==> c.issued == []
    ensures c.step.Unbuilt? ==> DatasourceRequest(cfg, env, tick, path) == Failure(c.step.err)
    ensures c.issued != [] ==>
      DatasourceRequest(cfg, env, tick, path).Success? && c.issued == [DatasourceRequest(cfg, env, tick, path).value]
    ensures c.step.Refused? ==> c.step.status != 200 && env.net(c.issued[0]) == Reply(c.step.status, c.step.body)
    ensures c.step.Fetched? ==>
      && env.net(c.issued[0]).Reply?
      && env.net(c.issued[0]).status == 200
      && decode(env.net(c.issued[0]).body) == Success(c.step.value)
    ensures c.issued != [] ==> var x := env.net(c.issued[0]);
      && (c.step.Fetched? <==> x.Reply? && x.status == 200 && decode(x.body).Success?)
      && (x.Reply? && x.status != 200 ==> c.step == Refused(x.status, x.body))
      && (x.Reply? && x.status == 200 && decode(x.body).Failure? ==> c.step == Undecoded(decode(x.body).error))
      && (x.DoFailed? ==> c.step == Unsent(x.err))
      && (x.ReadFailed? ==> c.step == Unread(x.err))
  {
    match DatasourceRequest(cfg, env, tick, path)
    case Failure(err) => Call(Unbuilt(err), [])
    case Success(req) =>
      var step :=
        match env.net(req)
        case DoFailed(err) => Unsent(err)
        case ReadFailed(err) => Unread(err)
        case Reply(status, body) =>
          if status != 200 then Refused(status, body)
          else match decode(body)
            case Failure(err) => Undecoded(err)
            case Success(v) => Fetched(v);
      Call(step, [req])
  }

  /** The detail of a failed fetch is, stage by stage, exactly what that
      stage failed with: the request builder's error, the transport's or
      the body reader's error, the remote body of a non-200 reply, or the
      decoder's error. */
  lemma DetailOfFetch<T>(cfg: PluginSettings, env: Env, tick: nat, path: string, decode: string -> Result<T, string>)
    requires !Fetch(cfg, env, tick, path, decode).step.Fetched?
    ensures var c := Fetch(cfg, env, tick, path, decode);
      && (c.issued == [] ==> DatasourceRequest(cfg, env, tick, path) == Failure(Detail(c.step)))
      && (c.issued != [] ==> var x := env.net(c.issued[0]);
            && (x.DoFailed? || x.ReadFailed? ==> Detail(c.step) == x.err)
            && (x.Reply? && x.status != 200 ==> Detail(c.step) == x.body)
            && (x.Reply? && x.status == 200 ==> decode(x.body) == Failure(Detail(c.step))))
  {
  }

  // ---- request paths --------------------------------------------------------

  const IndexName: string := "sites"
  const QueryRoot: string := "site"
  const QueryCollection: string := "datastreams"
  const QueryPath: string := "/observations"
  const QueryStart: string := "from"
  const QueryEnd: string := "until"
  const QueryTags: string := "datastreamIds"

  /** The index path the health check lists: `basePath/sites`. */
  function IndexPath(basePath: string): (p: string)
    ensures p == basePath + "/sites"
  {
    Join([basePath, IndexName], "/")
  }

  /** `basePath/site/thingId/datastreams`, with no normalisation of slashes. */
  function DataStreamsPath(basePath: string, thingId: string): (p: string)
    ensures p == basePath + "/site/" + thingId + "/datastreams"
  {
    JoinCons(thingId, [QueryCollection], "/");
    JoinCons(QueryRoot, [thingId, QueryCollection], "/");
    JoinCons(basePath, [QueryRoot, thingId, QueryCollection], "/");
    Join([basePath, QueryRoot, thingId, QueryCollection], "/")
  }

  /** Everything of the observations path before the id list. */
  function ObservationsPrefix(basePath: string, from: Time, until: Time): string {
    basePath + QueryPath + "?" + QueryStart + "=" + FormatIso(from)
      + "&" + QueryEnd + "=" + FormatIso(until) + "&" + QueryTags + "="
  }

  /** The observations path: the range bounds in the ISO layout and the
      datastream ids comma-joined in the order given. A server reading the
      `datastreamIds` value back at commas recovers the ids, in order, as
      long as there is at least one and none holds a comma. */
  function ObservationsPath(basePath: string, from: Time, until: Time, ids: seq<string>): (p: string)
    ensures var q := ObservationsPrefix(basePath, from, until);
      && q <= p
      && (|ids| >= 1 && Free(ids, ',') ==> Split(p[|q|..], ',') == ids)
  {
    var q := ObservationsPrefix(basePath, from, until);
    if |ids| >= 1 && Free(ids, ',') then
      SplitJoin(ids, ',');
      assert (q + Join(ids, ","))[|q|..] == Join(ids, ",");
      q + Join(ids, ",")
    else
      q + Join(ids, ",")
  }

  /** With no ids the filter is still sent, with an empty value; the same
      path results from a single empty id, so the two cannot be told apart. */
  lemma ObservationsPathWithoutIds(basePath: string, from: Time, until: Time)
    ensures ObservationsPath(basePath, from, until, []) == ObservationsPrefix(basePath, from, until)
    ensures ObservationsPath(basePath, from, until, [""]) == ObservationsPrefix(basePath, from, until)
  {
  }
}
