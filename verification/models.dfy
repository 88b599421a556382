/** The records of `pkg/models/settings.go` and how plugin settings are
    loaded from the host's instance settings. */
module Models {
  import opened Wrappers

  /** Go `int64`. */
  newtype int64 = x: int | -0x8000_0000_0000_0000 <= x < 0x8000_0000_0000_0000

  /** A decoded `float64`: a finite number or NaN. Nothing is computed on
      values, so a real number stands for the finite ones. */
  datatype Float = Num(r: real) | NaN

  datatype UnitOfMeasurement = UnitOfMeasurement(name: string, symbol: string)

  /** A SensorThings datastream: one measured quantity of a thing. */
  datatype DataStream = DataStream(
    id: string, name: string, description: string, unitOfMeasurement: UnitOfMeasurement)

  /** One sample; `phenomenonTime` counts milliseconds since the Unix epoch. */
  datatype Observation = Observation(value: Float, phenomenonTime: int64)

  /** A `float32` coordinate pair, kept as reals. */
  datatype Location = Location(latitude: real, longitude: real)

  /** A site as the index endpoint lists it. */
  datatype ThingWithLocation = ThingWithLocation(
    id: string, name: string, description: string, location: seq<Location>)

  /** What the resource handler hands to the front end. */
  datatype ThingWithDataStreams = ThingWithDataStreams(
    thing: ThingWithLocation, dataStreams: seq<DataStream>)

  datatype SecretPluginSettings = SecretPluginSettings(secretKey: string, clientId: string)

  /** The plain settings; `secrets` is a value, so it is present in every
      loaded configuration (Go never leaves it nil after loading). */
  datatype PluginSettings = PluginSettings(
    serverUrl: string, basePath: string, authMethod: string, secrets: SecretPluginSettings)

  /** The three plain fields as JSON decoding fills them; absent fields are "". */
  datatype SettingsJson = SettingsJson(serverUrl: string, basePath: string, authMethod: string)

  /** `loadSecretPluginSettings`: reads two entries of the decrypted map,
      each "" when absent. */
  function LoadSecretPluginSettings(source: map<string, string>): (s: SecretPluginSettings)
    ensures "secretKey" in source ==> s.secretKey == source["secretKey"]
    ensures "secretKey" !in source ==> s.secretKey == ""
    ensures "clientId" in source ==> s.clientId == source["clientId"]
    ensures "clientId" !in source ==> s.clientId == ""
  {
    SecretPluginSettings(Lookup(source, "secretKey"), Lookup(source, "clientId"))
  }

  /** Two maps that agree on the two entries read give the same secrets. */
  predicate AgreeOnSecrets(m1: map<string, string>, m2: map<string, string>) {
    && ("secretKey" in m1 <==> "secretKey" in m2)
    && ("secretKey" in m1 ==> m1["secretKey"] == m2["secretKey"])
    && ("clientId" in m1 <==> "clientId" in m2)
    && ("clientId" in m1 ==> m1["clientId"] == m2["clientId"])
  }

  /** Every other entry of the map is ignored. */
  lemma SecretsIgnoreOtherEntries(m1: map<string, string>, m2: map<string, string>)
    requires AgreeOnSecrets(m1, m2)
    ensures LoadSecretPluginSettings(m1) == LoadSecretPluginSettings(m2)
  {
  }

  const UnmarshalError: string := "could not unmarshal PluginSettings json"

  /** `LoadPluginSettings` with the JSON decoding of `JSONData` given as its
      outcome. */
  function LoadPluginSettings(json: Result<SettingsJson, string>, secure: map<string, string>)
    : (r: Result<PluginSettings, string>)
    ensures r.Failure? <==> json.Failure?
    ensures json.Failure? ==> r.error == UnmarshalError + ": " + json.error
    ensures r.Success? ==>
      && r.value.serverUrl == json.value.serverUrl
      && r.value.basePath == json.value.basePath
      && r.value.authMethod == json.value.authMethod
      && r.value.secrets == LoadSecretPluginSettings(secure)
  {
    match json
    case Failure(err) => Failure(UnmarshalError + ": " + err)
    case Success(s) =>
      Success(PluginSettings(s.serverUrl, s.basePath, s.authMethod, LoadSecretPluginSettings(secure)))
  }

  /** A failed load names its cause after a fixed prefix. */
  lemma LoadErrorPrefix(json: Result<SettingsJson, string>, secure: map<string, string>)
    requires json.Failure?
    ensures var r := LoadPluginSettings(json, secure);
      r.Failure? && |UnmarshalError| <= |r.error| && r.error[..|UnmarshalError|] == UnmarshalError
  {
  }
}
