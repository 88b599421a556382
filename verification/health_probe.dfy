/** `Datasource.CheckHealth`: the configuration check behind the data
    source's test button. The first missing setting is reported; otherwise
    one signed fetch of the sites index decides. */
module HealthProbe {
  import opened Wrappers
  import opened Text
  import opened IsoTime
  import opened Signer
  import opened Models
  import opened ResourceClient

  datatype HealthStatus = HealthOk | HealthError

  datatype HealthResult = HealthResult(status: HealthStatus, message: string)

  /** The result, the Go error return, and the requests put on the wire. */
  datatype HealthRun = HealthRun(result: HealthResult, err: Option<string>, issued: seq<Request>)

  const Working: string := "Data source is working"
  const NoRootNodes: string := "No root nodes found"

  /** The first entry, in order, whose value is empty: its message. */
  function FirstEmpty(checks: seq<(string, string)>): (r: Option<string>)
    ensures r.Some? <==> exists i :: 0 <= i < |checks| && checks[i].0 == ""
    ensures r.Some? ==> exists i :: (0 <= i < |checks| && checks[i].0 == "" && r.value == checks[i].1
      && forall j :: 0 <= j < i ==> checks[j].0 != "")
    decreases |checks|
  {
    if |checks| == 0 then None
    else if checks[0].0 == "" then Some(checks[0].1)
    else
      var r := FirstEmpty(checks[1..]);
      assert forall i :: 0 < i < |checks| ==> checks[i] == checks[1..][i - 1];
      if r.Some? then
        var i :| 0 <= i < |checks[1..]| && checks[1..][i].0 == "" && r.value == checks[1..][i].1
          && forall j :: 0 <= j < i ==> checks[1..][j].0 != "";
        assert checks[i + 1] == checks[1..][i];
        r
      else r
  }

  /** The settings in the order they are checked, each with its message. */
  function Required(cfg: PluginSettings): seq<(string, string)> {
    [ (cfg.secrets.secretKey, "HMAC signing key is missing"),
      (cfg.secrets.clientId, "Client ID is missing"),
      (cfg.serverUrl, "Server URL is missing"),
      (cfg.basePath, "BasePath is missing"),
      (cfg.authMethod, "AuthMethod is missing") ]
  }

  /** The chain of emptiness checks at the top of `CheckHealth`. */
  function MissingSetting(cfg: PluginSettings): (r: Option<string>)
    ensures r.None? <==>
      cfg.secrets.secretKey != "" && cfg.secrets.clientId != "" && cfg.serverUrl != ""
      && cfg.basePath != "" && cfg.authMethod != ""
  {
    if cfg.secrets.secretKey == "" then Some("HMAC signing key is missing")
    else if cfg.secrets.clientId == "" then Some("Client ID is missing")
    else if cfg.serverUrl == "" then Some("Server URL is missing")
    else if cfg.basePath == "" then Some("BasePath is missing")
    else if cfg.authMethod == "" then Some("AuthMethod is missing")
    else None
  }

  /** The chain reports exactly the first empty setting of the fixed order. */
  lemma MissingSettingIsFirstEmpty(cfg: PluginSettings)
    ensures MissingSetting(cfg) == FirstEmpty(Required(cfg))
  {
    var c := Required(cfg);
    var c1, c2, c3, c4 := c[1..], c[2..], c[3..], c[4..];
    assert c1[1..] == c2 && c2[1..] == c3 && c3[1..] == c4 && c4[1..] == [];
    assert FirstEmpty(c4) == (if cfg.authMethod == "" then Some("AuthMethod is missing") else None);
    assert FirstEmpty(c3) == (if cfg.basePath == "" then Some("BasePath is missing") else FirstEmpty(c4));
    assert FirstEmpty(c2) == (if cfg.serverUrl == "" then Some("Server URL is missing") else FirstEmpty(c3));
    assert FirstEmpty(c1) == (if cfg.secrets.clientId == "" then Some("Client ID is missing") else FirstEmpty(c2));
  }

  const ProbeLabels: seq<string> := ["Request failed:", "Error reading body:", "Unmarshaling failed:"]

  /** The three labels differ at their first character. */
  lemma ProbeLabelsApart(k: nat, x: string)
    requires k < 3
    ensures "Request failed:" <= ProbeLabels[k] + x <==> k == 0
    ensures "Error reading body:" <= ProbeLabels[k] + x <==> k == 1
    ensures "Unmarshaling failed:" <= ProbeLabels[k] + x <==> k == 2
  {
    var labels := ProbeLabels;
    assert labels[0] == "Request failed:" && labels[1] == "Error reading body:" && labels[2] == "Unmarshaling failed:";
    LabelledApart(labels, 0, k, x);
  }

  /** The message for a fetch of the index that did not return a list: the
      stage's label, then the failure's detail verbatim, with no space
      between. */
  function ProbeError<T>(s: Step<T>): (e: string)
    requires !s.Fetched?
    ensures |Detail(s)| <= |e| && e[|e| - |Detail(s)|..] == Detail(s)
    ensures "Request failed:" <= e <==> s.Unbuilt? || s.Unsent? || s.Refused?
    ensures "Error reading body:" <= e <==> s.Unread?
    ensures "Unmarshaling failed:" <= e <==> s.Undecoded?
  {
    var labels := ProbeLabels;
    var k := match s case Unread(_) => 1 case Undecoded(_) => 2 case _ => 0;
    ProbeLabelsApart(k, Detail(s));
    labels[k] + Detail(s)
  }

  /** The fetch of the sites index, signed at the first clock reading. */
  function IndexCall(cfg: PluginSettings, env: Env, decode: string -> Result<seq<ThingWithLocation>, string>)
    : Call<seq<ThingWithLocation>>
  {
    Fetch(cfg, env, 0, IndexPath(cfg.basePath), decode)
  }

  /** `CheckHealth`: OK only when every setting is present and the index
      returns a non-empty list of sites; the Go error is always nil. */
  function CheckHealth(cfg: PluginSettings, env: Env, decode: string -> Result<seq<ThingWithLocation>, string>)
    : (h: HealthRun)
    ensures h.err.None?
    ensures MissingSetting(cfg).Some? ==>
      h.issued == [] && h.result == HealthResult(HealthError, MissingSetting(cfg).value)
    ensures h.result.status == HealthOk <==>
      && MissingSetting(cfg).None?
      && IndexCall(cfg, env, decode).step.Fetched?
      && |IndexCall(cfg, env, decode).step.value| > 0
    ensures h.result.status == HealthOk ==> h.result.message == Working
    ensures |h.issued| <= 1
    ensures h.issued != [] ==>
      && MissingSetting(cfg).None?
      && h.issued[0].url == cfg.serverUrl + cfg.basePath + "/sites"
      && h.issued[0].headers.Keys == {"Authorization", "Date"}
      && h.issued[0].headers["Date"] == [FormatIso(env.clock(0))]
  {
    match MissingSetting(cfg)
    case Some(message) => HealthRun(HealthResult(HealthError, message), None, [])
    case None =>
      var call := IndexCall(cfg, env, decode);
      var result :=
        match call.step
        case Fetched(things) =>
          if |things| == 0 then HealthResult(HealthError, NoRootNodes)
          else HealthResult(HealthOk, Working)
        case _ => HealthResult(HealthError, ProbeError(call.step));
      HealthRun(result, None, call.issued)
  }

  /** An index with no sites is an error with its own message. */
  lemma EmptyIndexIsError(cfg: PluginSettings, env: Env, decode: string -> Result<seq<ThingWithLocation>, string>)
    requires MissingSetting(cfg).None?
    requires IndexCall(cfg, env, decode).step == Fetched([])
    ensures CheckHealth(cfg, env, decode).result == HealthResult(HealthError, NoRootNodes)
    ensures |CheckHealth(cfg, env, decode).issued| == 1
  {
  }

  /** A failed fetch of the index is reported with the step that failed. */
  lemma FailedIndexIsReported(cfg: PluginSettings, env: Env, decode: string -> Result<seq<ThingWithLocation>, string>)
    requires MissingSetting(cfg).None?
    requires !IndexCall(cfg, env, decode).step.Fetched?
    ensures CheckHealth(cfg, env, decode).result == HealthResult(HealthError, ProbeError(IndexCall(cfg, env, decode).step))
  {
  }

  /** A secure-settings map without a `secretKey` entry loads as an empty
      key, which the check reports before anything is requested. */
  lemma AbsentKeyIsReported(json: Result<SettingsJson, string>, secure: map<string, string>, env: Env,
                            decode: string -> Result<seq<ThingWithLocation>, string>)
    requires json.Success?
    requires "secretKey" !in secure
    ensures var cfg := LoadPluginSettings(json, secure).value;
      CheckHealth(cfg, env, decode) == HealthRun(HealthResult(HealthError, "HMAC signing key is missing"), None, [])
  {
  }

  /** Likewise an absent `clientId` entry, once a key is present. */
  lemma AbsentClientIdIsReported(json: Result<SettingsJson, string>, secure: map<string, string>, env: Env,
                                 decode: string -> Result<seq<ThingWithLocation>, string>)
    requires json.Success?
    requires "secretKey" in secure && secure["secretKey"] != ""
    requires "clientId" !in secure
    ensures var cfg := LoadPluginSettings(json, secure).value;
      CheckHealth(cfg, env, decode) == HealthRun(HealthResult(HealthError, "Client ID is missing"), None, [])
  {
  }
}
