/** What the core hands to the SDK's HTTP client provider: `getTimeout` and
    `HTTPClientOptions`, including the basic-auth user choice and the SigV4
    settings. */
module ClientOptions {
  import opened Outcomes
  import opened GoInts
  import opened Durations
  import opened Json
  import opened Models
  import opened Decryption
  import opened Headers
  import opened Tls
  import opened SigV4

  /** `ds.getTimeout()`: the JSON `timeout` (seconds) unless it is zero or
      unreadable, else `setting.DataProxyTimeout`. */
  function Timeout(jsonData: Option<Object>, settings: Settings): (d: Int64)
    ensures jsonData.None? ==> d == Seconds(settings.dataProxyTimeout)
    ensures jsonData.Some? && "timeout" in jsonData.value && jsonData.value["timeout"].Number?
            && jsonData.value["timeout"].n != 0
            ==> d == Seconds(jsonData.value["timeout"].n)
    ensures jsonData.Some? && !("timeout" in jsonData.value && jsonData.value["timeout"].Number?
            && jsonData.value["timeout"].n != 0)
            ==> d == Seconds(settings.dataProxyTimeout)
  {
    var timeout := if jsonData.Some? then MustInt(Get(jsonData.value, "timeout")) else 0;
    Seconds(if timeout == 0 then settings.dataProxyTimeout else timeout)
  }

  /** A data-source timeout within range is honoured to the nanosecond and,
      when positive, never collapses to a zero or negative duration. */
  lemma TimeoutOverride(json: Object, settings: Settings, t: Int64)
    requires Get(json, "timeout") == Some(Number(t))
    requires 0 < t <= MaxSeconds
    ensures Timeout(Some(json), settings) == t * NanosPerSecond
    ensures Timeout(Some(json), settings) > 0
  {
  }

  /** `httpclient.TimeoutOptions`. */
  datatype TimeoutOptions = TimeoutOptions(
    timeout: Int64,
    keepAlive: Int64,
    tlsHandshakeTimeout: Int64,
    expectContinueTimeout: Int64,
    maxIdleConns: Int64,
    idleConnTimeout: Int64)

  /** Only the connection timeout is per data source; the rest always come
      from the settings. */
  function TimeoutsOf(ds: DataSource, settings: Settings): TimeoutOptions
  {
    TimeoutOptions(
      Timeout(ds.jsonData, settings),
      Seconds(settings.dataProxyKeepAlive),
      Seconds(settings.dataProxyTLSHandshakeTimeout),
      Seconds(settings.dataProxyExpectContinueTimeout),
      settings.dataProxyMaxIdleConns,
      Seconds(settings.dataProxyIdleConnTimeout))
  }

  /** `httpclient.BasicAuthOptions`; the password is not modelled. */
  datatype BasicAuthOptions = BasicAuthOptions(user: string)

  /** The basic-auth user: `BasicAuthUser` when basic auth is on, else `User`
      when it is non-empty, else no basic auth. */
  function BasicAuthOf(ds: DataSource): (b: Option<BasicAuthOptions>)
    ensures b.None? <==> !ds.basicAuth && ds.user == ""
    ensures ds.basicAuth ==> b == Some(BasicAuthOptions(ds.basicAuthUser))
    ensures !ds.basicAuth && ds.user != "" ==> b == Some(BasicAuthOptions(ds.user))
  {
    if ds.basicAuth then Some(BasicAuthOptions(ds.basicAuthUser))
    else if !ds.basicAuth && ds.user != "" then Some(BasicAuthOptions(ds.user))
    else None
  }

  /** `httpclient.Options`. */
  datatype HttpClientOptions = HttpClientOptions(
    timeouts: TimeoutOptions,
    headers: map<string, string>,
    labels: map<string, string>,
    tls: TlsOptions,
    customOptions: Option<Object>,
    basicAuth: Option<BasicAuthOptions>,
    sigV4: Option<SigV4Config>)

  function Labels(ds: DataSource): map<string, string>
  {
    map["datasource_name" := ds.name, "datasource_uid" := ds.uid, "kind" := "datasource"]
  }

  /** `ds.HTTPClientOptions()`. Only the data source's own `sigV4Auth` flag
      decides signing here; an unsupported type then panics after the TLS
      options have already gone through the decryption cache. */
  function HTTPClientOptions(ds: DataSource, env: Env, c: DecryptionCache): (r: Lookup<Outcome<HttpClientOptions>>)
    ensures var tls := TLSOptions(ds, env.decrypt, c);
      && !r.value.Error?
      && (r.value.Panic? <==> SigV4Requested(ds.jsonData) && AwsServiceNamespace(ds.dsType).Panic?)
      && (r.value.Panic? ==> r.value.reason == UnsupportedDatasource(ds.dsType) && r.cache == tls.cache)
      && (!SigV4Requested(ds.jsonData) ==> r.cache == tls.cache && r.decrypted == tls.decrypted)
      && (SigV4Requested(ds.jsonData) && r.value.Return? ==> r.cache == DecryptedValues(ds, env.decrypt, tls.cache).cache)
      && (SigV4Requested(ds.jsonData) && r.value.Return? ==>
            var all := DecryptedValues(ds, env.decrypt, c);
            && r.cache == all.cache
            && r.decrypted == all.decrypted
            && r.value.value.sigV4 == Some(ConfigFrom(ds.jsonData.value, AwsServiceNamespace(ds.dsType).value,
                                                      Secret(all.value, "sigV4AccessKey"), Secret(all.value, "sigV4SecretKey"))))
      && (r.value.Return? ==>
            var o := r.value.value;
            && o.timeouts == TimeoutsOf(ds, env.settings)
            && o.headers == GetCustomHeaders(ds, env.decrypt)
            && o.tls == tls.value
            && o.customOptions == ds.jsonData
            && o.basicAuth == BasicAuthOf(ds)
            && o.labels == Labels(ds)
            && (o.sigV4.Some? <==> SigV4Requested(ds.jsonData))
            && (o.sigV4.Some? ==> o.sigV4.value.service == AwsServiceNamespace(ds.dsType).value))
  {
    var tls := TLSOptions(ds, env.decrypt, c);
    var opts := HttpClientOptions(
      TimeoutsOf(ds, env.settings),
      GetCustomHeaders(ds, env.decrypt),
      Labels(ds),
      tls.value,
      ds.jsonData,
      BasicAuthOf(ds),
      None);
    if !SigV4Requested(ds.jsonData) then Lookup(Return(opts), tls.cache, tls.decrypted)
    else
      match AwsServiceNamespace(ds.dsType)
      case Return(service) =>
        var access := DecryptedValue(ds, "sigV4AccessKey", env.decrypt, tls.cache);
        var secret := DecryptedValue(ds, "sigV4SecretKey", env.decrypt, access.cache);
        var cfg := ConfigFrom(ds.jsonData.value, service, ValueOrEmpty(access.value), ValueOrEmpty(secret.value));
        Lookup(Return(opts.(sigV4 := Some(cfg))), secret.cache, tls.decrypted || access.decrypted || secret.decrypted)
      case _ =>
        Lookup(Panic(UnsupportedDatasource(ds.dsType)), tls.cache, tls.decrypted)
  }

  /** `if val, exists := …; exists { field = val }`. */
  function ValueOrEmpty(v: Option<string>): string
  {
    if v.Some? then v.value else ""
  }

  /** The SigV4 keys come from the same cached decrypted map as the TLS
      material; a missing key leaves the field empty. */
  lemma HTTPClientOptionsSigV4Keys(ds: DataSource, env: Env, c: DecryptionCache)
    requires HTTPClientOptions(ds, env, c).value.Return?
    requires SigV4Requested(ds.jsonData)
    ensures var cfg := HTTPClientOptions(ds, env, c).value.value.sigV4.value;
      var dec := DecryptedValues(ds, env.decrypt, c).value;
      && cfg.accessKey == Secret(dec, "sigV4AccessKey")
      && cfg.secretKey == Secret(dec, "sigV4SecretKey")
      && cfg.region == MustString(Get(ds.jsonData.value, "sigV4Region"))
  {
  }

  /** With a coherent decryption cache the options do not depend on what the
      cache held: they are those of a cold start. */
  lemma HTTPClientOptionsIgnoreCoherentCache(ds: DataSource, env: Env, c: DecryptionCache)
    requires Coherent(c, ds, env.decrypt)
    ensures HTTPClientOptions(ds, env, c).value == HTTPClientOptions(ds, env, map[]).value
    ensures Coherent(HTTPClientOptions(ds, env, c).cache, ds, env.decrypt)
  {
    var f := FlagsOf(ds.jsonData);
    if UsesSecrets(f) {
      TLSOptionsReadsDecryptedValues(ds, env.decrypt, c);
      TLSOptionsReadsDecryptedValues(ds, env.decrypt, map[]);
      DecryptedValuesSound(ds, env.decrypt, c);
    }
    if SigV4Requested(ds.jsonData) && HTTPClientOptions(ds, env, c).value.Return? {
      HTTPClientOptionsSigV4Keys(ds, env, c);
      HTTPClientOptionsSigV4Keys(ds, env, map[]);
      DecryptedValuesSound(ds, env.decrypt, c);
      DecryptedValuesSound(ds, env.decrypt, TLSOptions(ds, env.decrypt, c).cache);
    }
  }
}
