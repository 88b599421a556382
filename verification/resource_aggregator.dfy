/** `Datasource.CallResource`: fetch the sites index at the requested path,
    then the datastreams of every site in turn, and answer with the sites
    paired with their datastreams. The first failure ends the call. */
module ResourceAggregator {
  import opened Wrappers
  import opened IsoTime
  import opened Signer
  import opened Models
  import opened ResourceClient

  /** A `backend.CallResourceResponse`. */
  datatype Response = Response(status: int, body: string, headers: map<string, seq<string>>)

  datatype ResourceRun = ResourceRun(response: Response, issued: seq<Request>)

  const InternalError: int := 500

  /** How the loop fetches one site's datastreams at a given clock reading. */
  type SiteFetch = (ThingWithLocation, nat) -> Call<seq<DataStream>>

  /** The handler's site fetch: a signed GET of the site's datastreams path. */
  function Sites(cfg: PluginSettings, env: Env, decode: string -> Result<seq<DataStream>, string>): SiteFetch {
    (thing: ThingWithLocation, tick: nat) => Fetch(cfg, env, tick, DataStreamsPath(cfg.basePath, thing.id), decode)
  }

  /** The outcome of the loop over sites: the pairs, or the body of the 500
      answer; and the requests issued. */
  datatype Gathered = Gathered(outcome: Result<seq<ThingWithDataStreams>, string>, issued: seq<Request>)

  /** The loop over `things`, the k-th site fetched at clock reading
      `tick + k`; the first failure ends it. */
  function Gather(fetch: SiteFetch, things: seq<ThingWithLocation>, tick: nat): (g: Gathered)
    ensures g.outcome.Success? ==> |g.outcome.value| == |things|
    ensures g.outcome.Failure? ==>
      exists k :: 0 <= k < |things| && !fetch(things[k], tick + k).step.Fetched?
        && g.outcome.error == Detail(fetch(things[k], tick + k).step)
    decreases |things|
  {
    if |things| == 0 then Gathered(Success([]), [])
    else
      var call := fetch(things[0], tick);
      match call.step
      case Fetched(ds) =>
        var rest := Gather(fetch, things[1..], tick + 1);
        var issued := call.issued + rest.issued;
        assert rest.outcome.Failure? ==>
          exists k :: 0 <= k < |things| && !fetch(things[k], tick + k).step.Fetched?
            && rest.outcome.error == Detail(fetch(things[k], tick + k).step) by {
          if rest.outcome.Failure? {
            var k :| 0 <= k < |things[1..]| && !fetch(things[1..][k], tick + 1 + k).step.Fetched?
              && rest.outcome.error == Detail(fetch(things[1..][k], tick + 1 + k).step);
            assert things[1..][k] == things[k + 1] && tick + 1 + k == tick + (k + 1);
          }
        }
        (match rest.outcome
         case Success(pairs) => Gathered(Success([ThingWithDataStreams(things[0], ds)] + pairs), issued)
         case Failure(body) => Gathered(Failure(body), issued))
      case _ => Gathered(Failure(Detail(call.step)), call.issued)
  }

  /** The loop completes exactly when every site's fetch succeeds. */
  lemma {:induction false} GatherSucceedsIffAllFetched(fetch: SiteFetch, things: seq<ThingWithLocation>, tick: nat)
    ensures Gather(fetch, things, tick).outcome.Success? <==>
      forall k :: 0 <= k < |things| ==> fetch(things[k], tick + k).step.Fetched?
    decreases |things|
  {
    if |things| > 0 {
      GatherSucceedsIffAllFetched(fetch, things[1..], tick + 1);
      forall k | 0 < k < |things|
        ensures fetch(things[k], tick + k) == fetch(things[1..][k - 1], tick + 1 + (k - 1))
      {
        assert things[1..][k - 1] == things[k];
      }
    }
  }

  /** A completed loop has one pair per site, in order, each holding the
      datastreams fetched for it. */
  lemma {:induction false} GatherPairs(fetch: SiteFetch, things: seq<ThingWithLocation>, tick: nat)
    requires Gather(fetch, things, tick).outcome.Success?
    ensures var pairs := Gather(fetch, things, tick).outcome.value;
      && |pairs| == |things|
      && forall k :: 0 <= k < |things| ==>
           pairs[k].thing == things[k] && fetch(things[k], tick + k).step == Fetched(pairs[k].dataStreams)
    decreases |things|
  {
    if |things| > 0 {
      var call := fetch(things[0], tick);
      var rest := Gather(fetch, things[1..], tick + 1);
      GatherPairs(fetch, things[1..], tick + 1);
      var pairs := [ThingWithDataStreams(things[0], call.step.value)] + rest.outcome.value;
      assert Gather(fetch, things, tick).outcome.value == pairs;
      forall k | 0 < k < |things|
        ensures pairs[k] == rest.outcome.value[k - 1]
        ensures things[k] == things[1..][k - 1] && tick + k == tick + 1 + (k - 1)
      {
      }
    }
  }

  /** When every site's fetch succeeds with one request, the loop's
      requests are those, in site order. */
  lemma {:induction false} GatherIssued(fetch: SiteFetch, things: seq<ThingWithLocation>, tick: nat)
    requires forall k :: 0 <= k < |things| ==>
      fetch(things[k], tick + k).step.Fetched? && |fetch(things[k], tick + k).issued| == 1
    ensures var g := Gather(fetch, things, tick);
      && |g.issued| == |things|
      && forall k :: 0 <= k < |things| ==> g.issued[k] == fetch(things[k], tick + k).issued[0]
    decreases |things|
  {
    if |things| > 0 {
      var call := fetch(things[0], tick);
      var rest := Gather(fetch, things[1..], tick + 1);
      forall k | 0 <= k < |things[1..]|
        ensures things[1..][k] == things[k + 1] && tick + 1 + k == tick + (k + 1)
      {
      }
      GatherIssued(fetch, things[1..], tick + 1);
      var issued := call.issued + rest.issued;
      assert Gather(fetch, things, tick).issued == issued;
      forall k | 0 < k < |things|
        ensures issued[k] == rest.issued[k - 1]
      {
      }
    }
  }

  /** The loop stops at the first site whose fetch fails, with that fetch's
      error or body, and issues nothing after it. */
  lemma {:induction false} GatherStopsAtFirstFailure(fetch: SiteFetch, things: seq<ThingWithLocation>, tick: nat, n: nat)
    requires n < |things|
    requires forall k :: 0 <= k < n ==> fetch(things[k], tick + k).step.Fetched?
    requires !fetch(things[n], tick + n).step.Fetched?
    requires forall k :: 0 <= k < n ==> |fetch(things[k], tick + k).issued| == 1
    ensures var g := Gather(fetch, things, tick);
      && g.outcome == Failure(Detail(fetch(things[n], tick + n).step))
      && |g.issued| == n + |fetch(things[n], tick + n).issued|
    decreases n
  {
    if n > 0 {
      assert fetch(things[0], tick).step.Fetched?;
      forall k | 0 <= k <= n - 1
        ensures things[1..][k] == things[k + 1] && tick + 1 + k == tick + (k + 1)
      {
      }
      GatherStopsAtFirstFailure(fetch, things[1..], tick + 1, n - 1);
    }
  }

  /** The fetch of the requested path under the base path. */
  function IndexCallAt(cfg: PluginSettings, env: Env, codecs: Codecs, path: string): Call<seq<ThingWithLocation>> {
    Fetch(cfg, env, 0, cfg.basePath + "/" + path, codecs.things)
  }

  /** What the handler answers once the index is decoded: the marshalled
      pairs with a JSON content type, or a 500 with the loop's or the
      marshaller's error. */
  function Answer(fetch: SiteFetch, marshal: seq<ThingWithDataStreams> -> Result<string, string>,
                  things: seq<ThingWithLocation>): (run: ResourceRun)
    ensures run.issued == Gather(fetch, things, 1).issued
    ensures run.response.status == 200 <==>
      Gather(fetch, things, 1).outcome.Success? && marshal(Gather(fetch, things, 1).outcome.value).Success?
    ensures run.response.status == 200 ==>
      && run.response.headers == map["Content-Type" := ["application/json"]]
      && run.response.body == marshal(Gather(fetch, things, 1).outcome.value).value
    ensures run.response.status != 200 ==> run.response.status == InternalError && run.response.headers == map[]
    ensures Gather(fetch, things, 1).outcome.Failure? ==>
      run.response.body == Gather(fetch, things, 1).outcome.error
  {
    var g := Gather(fetch, things, 1);
    match g.outcome
    case Failure(body) => ResourceRun(Response(InternalError, body, map[]), g.issued)
    case Success(resource) =>
      match marshal(resource)
      case Failure(err) => ResourceRun(Response(InternalError, err, map[]), g.issued)
      case Success(result) =>
        ResourceRun(Response(200, result, map["Content-Type" := ["application/json"]]), g.issued)
  }

  /** `CallResource`: a failure of the index fetch is a 500 with its error,
      except a non-200 reply, whose status and body are passed through. */
  function CallResource(cfg: PluginSettings, env: Env, codecs: Codecs, path: string): (run: ResourceRun)
    ensures IndexCallAt(cfg, env, codecs, path).step.Fetched? ==>
      var answer := Answer(Sites(cfg, env, codecs.dataStreams), codecs.marshal, IndexCallAt(cfg, env, codecs, path).step.value);
      run == ResourceRun(answer.response, IndexCallAt(cfg, env, codecs, path).issued + answer.issued)
    ensures IndexCallAt(cfg, env, codecs, path).step.Refused? ==>
      var s := IndexCallAt(cfg, env, codecs, path).step;
      run.response == Response(s.status, s.body, map[]) && |run.issued| == 1
    ensures !IndexCallAt(cfg, env, codecs, path).step.Fetched? && !IndexCallAt(cfg, env, codecs, path).step.Refused? ==>
      run.response == Response(InternalError, Detail(IndexCallAt(cfg, env, codecs, path).step), map[])
    ensures run.response.status == 200 ==> IndexCallAt(cfg, env, codecs, path).step.Fetched?
  {
    var first := IndexCallAt(cfg, env, codecs, path);
    match first.step
    case Refused(status, body) => ResourceRun(Response(status, body, map[]), first.issued)
    case Fetched(things) =>
      var answer := Answer(Sites(cfg, env, codecs.dataStreams), codecs.marshal, things);
      ResourceRun(answer.response, first.issued + answer.issued)
    case _ => ResourceRun(Response(InternalError, Detail(first.step), map[]), first.issued)
  }

  /** The first request, when there is one, is the index request at the
      base path joined to the requested path by a slash, signed at the
      first clock reading. */
  lemma IndexRequestComesFirst(cfg: PluginSettings, env: Env, codecs: Codecs, path: string)
    ensures var run := CallResource(cfg, env, codecs, path);
      run.issued != [] ==>
        && run.issued[0].url == cfg.serverUrl + cfg.basePath + "/" + path
        && run.issued[0].headers.Keys == {"Authorization", "Date"}
        && run.issued[0].headers["Date"] == [FormatIso(env.clock(0))]
  {
    var first := IndexCallAt(cfg, env, codecs, path);
    var run := CallResource(cfg, env, codecs, path);
    if first.step.Fetched? {
      var answer := Answer(Sites(cfg, env, codecs.dataStreams), codecs.marshal, first.step.value);
      assert run.issued == first.issued + answer.issued;
      assert run.issued[0] == first.issued[0];
    }
  }

  /** One site's fetch issues at most one request, and a fetched site's
      request went to its datastreams path. */
  lemma SiteRequest(cfg: PluginSettings, env: Env, decode: string -> Result<seq<DataStream>, string>,
                    thing: ThingWithLocation, tick: nat)
    ensures var c := Sites(cfg, env, decode)(thing, tick);
      && |c.issued| <= 1
      && (c.step.Fetched? ==>
            |c.issued| == 1 && c.issued[0].url == cfg.serverUrl + cfg.basePath + "/site/" + thing.id + "/datastreams")
  {
  }

  /** Every fetch issues at most one request, and exactly one when it
      fetched something. */
  ghost predicate OneRequestEach(fetch: SiteFetch) {
    forall thing, tick ::
      |fetch(thing, tick).issued| <= 1 && (fetch(thing, tick).step.Fetched? ==> |fetch(thing, tick).issued| == 1)
  }

  /** The handler's site fetch is such a fetch. */
  lemma SitesIssueOneRequestEach(cfg: PluginSettings, env: Env, decode: string -> Result<seq<DataStream>, string>)
    ensures OneRequestEach(Sites(cfg, env, decode))
  {
    forall thing, tick
      ensures var c := Sites(cfg, env, decode)(thing, tick);
        |c.issued| <= 1 && (c.step.Fetched? ==> |c.issued| == 1)
    {
      SiteRequest(cfg, env, decode, thing, tick);
    }
  }

  /** A successful answer pairs every site, in index order, with the
      datastreams fetched for it at clock reading 1 + k, after one request
      per site in the same order. */
  lemma AnswerPairsEverySite(fetch: SiteFetch, marshal: seq<ThingWithDataStreams> -> Result<string, string>,
                             things: seq<ThingWithLocation>)
    requires OneRequestEach(fetch)
    requires Answer(fetch, marshal, things).response.status == 200
    ensures var pairs := Gather(fetch, things, 1).outcome.value;
      var run := Answer(fetch, marshal, things);
      && run.response.body == marshal(pairs).value
      && |pairs| == |things|
      && (forall k :: 0 <= k < |things| ==>
            pairs[k].thing == things[k] && fetch(things[k], 1 + k).step == Fetched(pairs[k].dataStreams))
      && |run.issued| == |things|
      && (forall k :: 0 <= k < |things| ==> run.issued[k] == fetch(things[k], 1 + k).issued[0])
  {
    GatherSucceedsIffAllFetched(fetch, things, 1);
    GatherPairs(fetch, things, 1);
    GatherIssued(fetch, things, 1);
  }

  /** The first site whose fetch fails decides the answer: status 500 with
      that fetch's error, or with the remote body after a non-200 reply,
      although the same reply to the index request is passed through. */
  lemma FirstSiteFailureDecides(fetch: SiteFetch, marshal: seq<ThingWithDataStreams> -> Result<string, string>,
                                things: seq<ThingWithLocation>, n: nat)
    requires OneRequestEach(fetch)
    requires n < |things|
    requires forall k :: 0 <= k < n ==> fetch(things[k], 1 + k).step.Fetched?
    requires !fetch(things[n], 1 + n).step.Fetched?
    ensures var run := Answer(fetch, marshal, things);
      && run.response == Response(InternalError, Detail(fetch(things[n], 1 + n).step), map[])
      && |run.issued| == n + |fetch(things[n], 1 + n).issued|
      && |run.issued| <= n + 1
  {
    GatherStopsAtFirstFailure(fetch, things, 1, n);
  }

  /** An empty index is answered with the marshalling of no pairs, after
      that single request. */
  lemma EmptyIndexAnswer(cfg: PluginSettings, env: Env, codecs: Codecs, path: string)
    requires IndexCallAt(cfg, env, codecs, path).step == Fetched([])
    requires codecs.marshal([]).Success?
    ensures CallResource(cfg, env, codecs, path)
      == ResourceRun(Response(200, codecs.marshal([]).value, map["Content-Type" := ["application/json"]]),
                     IndexCallAt(cfg, env, codecs, path).issued)
  {
  }
}
