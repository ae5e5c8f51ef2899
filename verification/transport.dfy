/** The two transport caches: `GetHttpTransport` (the legacy chain built here)
    and `GetHttpTransport2` (a round tripper from the SDK provider), and the
    clients wrapping them. A transport is reused while the data source's
    `Updated` matches the cached entry; a failed build stores nothing. */
module Transport {
  import opened Outcomes
  import opened GoInts
  import opened Durations
  import opened Cache
  import opened Models
  import opened Decryption
  import opened Headers
  import opened Tls
  import opened SigV4
  import opened ClientOptions

  /** The fields of `http.Transport` the core sets; the proxy is always
      taken from the environment. */
  datatype HttpTransport = HttpTransport(
    tlsClientConfig: TlsConfig,
    dialTimeout: Int64,
    keepAlive: Int64,
    tlsHandshakeTimeout: Int64,
    expectContinueTimeout: Int64,
    maxIdleConns: Int64,
    idleConnTimeout: Int64)

  /** The handler a request is finally passed to. */
  datatype RoundTripper =
    | Direct(transport: HttpTransport)
    | Signed(config: SigV4Config, inner: HttpTransport)

  /** `dataSourceTransport`: headers to set on each request, then `next`. */
  datatype DataSourceTransport = DataSourceTransport(
    datasourceName: string,
    headers: map<string, string>,
    transport: HttpTransport,
    next: RoundTripper)

  /** The knobs of a transport, in the shape the provider receives them. */
  function TimeoutsOfTransport(t: HttpTransport): TimeoutOptions
  {
    TimeoutOptions(t.dialTimeout, t.keepAlive, t.tlsHandshakeTimeout, t.expectContinueTimeout,
                   t.maxIdleConns, t.idleConnTimeout)
  }

  /** The legacy chain signs only when the data source asks for it AND the
      server-wide switch is on. */
  predicate SigV4Gate(ds: DataSource, settings: Settings)
  {
    SigV4Requested(ds.jsonData) && settings.sigV4AuthEnabled
  }

  /** `ds.sigV4Middleware(next)`: reads the cached decrypted data first, then
      resolves the service, which panics on an unsupported type. */
  function SigV4Middleware(ds: DataSource, decrypt: Decryptor, c: DecryptionCache, next: HttpTransport): (r: Lookup<Outcome<RoundTripper>>)
    requires ds.jsonData.Some?
    ensures var all := DecryptedValues(ds, decrypt, c);
      && r.cache == all.cache
      && r.decrypted == all.decrypted
      && !r.value.Error?
      && (r.value.Panic? <==> AwsServiceNamespace(ds.dsType).Panic?)
      && (r.value.Panic? ==> r.value.reason == UnsupportedDatasource(ds.dsType))
      && (r.value.Return? ==>
            r.value.value == Signed(
              ConfigFrom(ds.jsonData.value, AwsServiceNamespace(ds.dsType).value,
                         Secret(all.value, "sigV4AccessKey"), Secret(all.value, "sigV4SecretKey")),
              next))
  {
    var all := DecryptedValues(ds, decrypt, c);
    match AwsServiceNamespace(ds.dsType)
    case Return(service) =>
      var cfg := ConfigFrom(ds.jsonData.value, service, Secret(all.value, "sigV4AccessKey"), Secret(all.value, "sigV4SecretKey"));
      Lookup(Return(Signed(cfg, next)), all.cache, all.decrypted)
    case _ =>
      Lookup(Panic(UnsupportedDatasource(ds.dsType)), all.cache, all.decrypted)
  }

  /** The miss path of `GetHttpTransport`: everything after the cache check
      and before the store. */
  function BuildTransport(ds: DataSource, env: Env, c: DecryptionCache): (r: Lookup<Outcome<DataSourceTransport>>)
    ensures var tls := GetTLSConfig(ds, env.decrypt, env.pki);
      && (r.value.Error? <==> tls.Error?)
      && (r.value.Error? ==> r.value.failure == tls.failure && r.cache == c && !r.decrypted)
      && (r.value.Panic? <==> tls.Return? && SigV4Gate(ds, env.settings) && AwsServiceNamespace(ds.dsType).Panic?)
      && (r.value.Panic? ==> r.value.reason == UnsupportedDatasource(ds.dsType))
      && (!SigV4Gate(ds, env.settings) ==> r.cache == c && !r.decrypted)
      && (tls.Return? && SigV4Gate(ds, env.settings) ==>
            r.cache == DecryptedValues(ds, env.decrypt, c).cache
            && r.decrypted == DecryptedValues(ds, env.decrypt, c).decrypted)
      && (r.value.Return? ==>
            var t := r.value.value;
            && t.datasourceName == ds.name
            && t.headers == GetCustomHeaders(ds, env.decrypt)
            && t.transport.tlsClientConfig == tls.value.(renegotiation := RenegotiateFreelyAsClient)
            && TimeoutsOfTransport(t.transport) == TimeoutsOf(ds, env.settings)
            && (t.next.Signed? <==> SigV4Gate(ds, env.settings))
            && (t.next.Signed? ==> t.next.inner == t.transport)
            && (t.next.Signed? ==> ds.jsonData.Some? && SigV4Middleware(ds, env.decrypt, c, t.transport).value == Return(t.next))
            && (!t.next.Signed? ==> t.next == Direct(t.transport)))
  {
    match GetTLSConfig(ds, env.decrypt, env.pki)
    case Error(failure) => Lookup(Error(failure), c, false)
    case Panic(reason) => Lookup(Panic(reason), c, false)
    case Return(tlsConfig) =>
      var s := env.settings;
      var transport := HttpTransport(
        tlsConfig.(renegotiation := RenegotiateFreelyAsClient),
        Timeout(ds.jsonData, s),
        Seconds(s.dataProxyKeepAlive),
        Seconds(s.dataProxyTLSHandshakeTimeout),
        Seconds(s.dataProxyExpectContinueTimeout),
        s.dataProxyMaxIdleConns,
        Seconds(s.dataProxyIdleConnTimeout));
      var headers := GetCustomHeaders(ds, env.decrypt);
      if SigV4Gate(ds, s) then
        var signed := SigV4Middleware(ds, env.decrypt, c, transport);
        match signed.value
        case Return(next) => Lookup(Return(DataSourceTransport(ds.name, headers, transport, next)), signed.cache, signed.decrypted)
        case Error(failure) => Lookup(Error(failure), signed.cache, signed.decrypted)
        case Panic(reason) => Lookup(Panic(reason), signed.cache, signed.decrypted)
      else
        Lookup(Return(DataSourceTransport(ds.name, headers, transport, Direct(transport))), c, false)
  }

  /** The outcome of one call on a transport cache: the result, both caches
      afterwards, and whether a build was attempted. */
  datatype Call<+V, T> = Call(result: Outcome<V>, transports: Cache<T>, decryptions: DecryptionCache, built: bool)

  /** `ds.GetHttpTransport()`. */
  function GetHttpTransport(ds: DataSource, env: Env, ptc: Cache<DataSourceTransport>, dc: DecryptionCache): (r: Call<DataSourceTransport, DataSourceTransport>)
    ensures r.built <==> !Fresh(ptc, ds.id, ds.updated)
    ensures !r.built ==> r.result == Return(ptc[ds.id].value) && r.transports == ptc && r.decryptions == dc
    ensures r.built ==> r.result == BuildTransport(ds, env, dc).value && r.decryptions == BuildTransport(ds, env, dc).cache
    ensures r.result.Return? ==> Fresh(r.transports, ds.id, ds.updated) && r.transports[ds.id].value == r.result.value
    ensures !r.result.Return? ==> r.transports == ptc
    ensures forall id :: id != ds.id ==> SameEntry(ptc, r.transports, id)
  {
    if Fresh(ptc, ds.id, ds.updated) then
      Call(Return(ptc[ds.id].value), ptc, dc, false)
    else
      var b := BuildTransport(ds, env, dc);
      match b.value
      case Return(t) => Call(Return(t), Store(ptc, ds.id, ds.updated, t), b.cache, true)
      case Error(failure) => Call(Error(failure), ptc, b.cache, true)
      case Panic(reason) => Call(Panic(reason), ptc, b.cache, true)
  }

  /** Identity stability: right after a successful call, the same data source
      gets the very same transport back without any build, and neither cache
      moves. */
  lemma GetHttpTransportSecondCallHits(ds: DataSource, env: Env, ptc: Cache<DataSourceTransport>, dc: DecryptionCache)
    requires GetHttpTransport(ds, env, ptc, dc).result.Return?
    ensures var first := GetHttpTransport(ds, env, ptc, dc);
      var second := GetHttpTransport(ds, env, first.transports, first.decryptions);
      && !second.built
      && second.result == first.result
      && second.transports == first.transports
      && second.decryptions == first.decryptions
  {
  }

  /** A failed build leaves the transport cache exactly as it was and never
      touches the decryption cache when it is the TLS material that fails. */
  lemma GetHttpTransportFailureStoresNothing(ds: DataSource, env: Env, ptc: Cache<DataSourceTransport>, dc: DecryptionCache)
    requires GetTLSConfig(ds, env.decrypt, env.pki).Error?
    ensures var r := GetHttpTransport(ds, env, ptc, dc);
      && r.transports == ptc
      && (r.built ==> r.result == Error(GetTLSConfig(ds, env.decrypt, env.pki).failure))
      && r.decryptions == dc
  {
  }

  /** An unsupported type with signing switched on panics, but only after the
      signer has read the decryption cache: that cache is refreshed while the
      transport cache is left alone. */
  lemma GetHttpTransportPanicRefreshesSecrets(ds: DataSource, env: Env, ptc: Cache<DataSourceTransport>, dc: DecryptionCache)
    requires !Fresh(ptc, ds.id, ds.updated)
    requires GetTLSConfig(ds, env.decrypt, env.pki).Return?
    requires SigV4Gate(ds, env.settings)
    requires AwsServiceNamespace(ds.dsType).Panic?
    ensures var r := GetHttpTransport(ds, env, ptc, dc);
      && r.result == Panic(UnsupportedDatasource(ds.dsType))
      && r.transports == ptc
      && Fresh(r.decryptions, ds.id, ds.updated)
  {
  }

  /** Invalidation: a changed `Updated` discards the cached transport and
      rebuilds, even when nothing else about the data source changed. */
  lemma GetHttpTransportStaleRebuilds(ds: DataSource, env: Env, ptc: Cache<DataSourceTransport>, dc: DecryptionCache)
    requires ds.id in ptc && ptc[ds.id].updated != ds.updated
    requires BuildTransport(ds, env, dc).value.Return?
    ensures var r := GetHttpTransport(ds, env, ptc, dc);
      && r.built
      && r.transports[ds.id] == Entry(ds.updated, BuildTransport(ds, env, dc).value.value)
  {
  }

  /** The legacy transport and the provider options read the same knobs:
      per-data-source timeout, every other limit from the settings. */
  lemma TransportTimeoutsMatchClientOptions(ds: DataSource, env: Env, dc: DecryptionCache, dc': DecryptionCache)
    ensures BuildTransport(ds, env, dc).value.Return? && HTTPClientOptions(ds, env, dc').value.Return? ==>
      TimeoutsOfTransport(BuildTransport(ds, env, dc).value.value.transport)
         == HTTPClientOptions(ds, env, dc').value.value.timeouts
  {
  }

  /** The two paths gate signing differently: the provider options carry
      SigV4 settings whenever the data source asks, the legacy chain signs
      only when the server-wide switch is on as well. */
  lemma SigV4GatesDiffer(ds: DataSource, env: Env, dc: DecryptionCache, dc': DecryptionCache)
    ensures HTTPClientOptions(ds, env, dc').value.Return? ==>
      (HTTPClientOptions(ds, env, dc').value.value.sigV4.Some? <==> SigV4Requested(ds.jsonData))
    ensures BuildTransport(ds, env, dc).value.Return? && HTTPClientOptions(ds, env, dc').value.Return? ==>
      (BuildTransport(ds, env, dc).value.value.next.Signed? <==>
         HTTPClientOptions(ds, env, dc').value.value.sigV4.Some? && env.settings.sigV4AuthEnabled)
  {
  }

  /** With a coherent decryption cache the chain built does not depend on
      what that cache held. */
  lemma BuildTransportIgnoresCoherentCache(ds: DataSource, env: Env, dc: DecryptionCache)
    requires Coherent(dc, ds, env.decrypt)
    ensures BuildTransport(ds, env, dc).value == BuildTransport(ds, env, map[]).value
    ensures Coherent(BuildTransport(ds, env, dc).cache, ds, env.decrypt)
  {
  }

  /** The cached transport for `ds` is the one a cold build would produce. */
  ghost predicate TransportCoherent(ptc: Cache<DataSourceTransport>, ds: DataSource, env: Env)
  {
    Fresh(ptc, ds.id, ds.updated) ==> BuildTransport(ds, env, map[]).value == Return(ptc[ds.id].value)
  }

  /** Caching is transparent: as long as a data source never changes without
      its `Updated` changing (the caches are coherent), every call answers
      exactly what a cold build answers, and both caches stay coherent. */
  lemma GetHttpTransportTransparent(ds: DataSource, env: Env, ptc: Cache<DataSourceTransport>, dc: DecryptionCache)
    requires Coherent(dc, ds, env.decrypt) && TransportCoherent(ptc, ds, env)
    ensures var r := GetHttpTransport(ds, env, ptc, dc);
      && r.result == BuildTransport(ds, env, map[]).value
      && TransportCoherent(r.transports, ds, env)
      && Coherent(r.decryptions, ds, env.decrypt)
  {
  }

  /** `http.Client`: a timeout and a transport. */
  datatype Client<+T> = Client(timeout: Int64, transport: T)

  /** `ds.GetHttpClient()`: the cached transport with the data source's
      timeout; an error or panic yields no client. */
  function GetHttpClient(ds: DataSource, env: Env, ptc: Cache<DataSourceTransport>, dc: DecryptionCache): (r: Call<Client<DataSourceTransport>, DataSourceTransport>)
    ensures var t := GetHttpTransport(ds, env, ptc, dc);
      && r.transports == t.transports && r.decryptions == t.decryptions && r.built == t.built
      && (r.result.Return? <==> t.result.Return?)
      && (r.result.Return? ==> r.result.value == Client(Timeout(ds.jsonData, env.settings), t.result.value))
      && (r.result.Error? ==> t.result == Error(r.result.failure))
      && (r.result.Panic? ==> t.result == Panic(r.result.reason))
  {
    var t := GetHttpTransport(ds, env, ptc, dc);
    match t.result
    case Return(transport) => Call(Return(Client(Timeout(ds.jsonData, env.settings), transport)), t.transports, t.decryptions, t.built)
    case Error(failure) => Call(Error(failure), t.transports, t.decryptions, t.built)
    case Panic(reason) => Call(Panic(reason), t.transports, t.decryptions, t.built)
  }

  /** `provider.GetTransport(options)`. */
  type Provider<RT> = HttpClientOptions -> Result<RT>

  /** `ds.GetHttpTransport2(provider)`. On a miss the options are derived
      (which may panic and which reads the decryption cache) and handed to the
      provider; a provider error stores nothing. */
  function GetHttpTransport2<RT>(ds: DataSource, env: Env, provider: Provider<RT>, ptc2: Cache<RT>, dc: DecryptionCache): (r: Call<RT, RT>)
    ensures r.built <==> !Fresh(ptc2, ds.id, ds.updated)
    ensures !r.built ==> r.result == Return(ptc2[ds.id].value) && r.transports == ptc2 && r.decryptions == dc
    ensures r.built ==> r.decryptions == HTTPClientOptions(ds, env, dc).cache
    ensures r.built && HTTPClientOptions(ds, env, dc).value.Panic? ==> r.result == Panic(HTTPClientOptions(ds, env, dc).value.reason)
    ensures r.built && HTTPClientOptions(ds, env, dc).value.Return? ==>
      var provided := provider(HTTPClientOptions(ds, env, dc).value.value);
      && (provided.Ok? ==> r.result == Return(provided.value))
      && (provided.Err? ==> r.result == Error(ProviderFailure(provided.reason)))
    ensures r.result.Return? ==> Fresh(r.transports, ds.id, ds.updated) && r.transports[ds.id].value == r.result.value
    ensures !r.result.Return? ==> r.transports == ptc2
    ensures forall id :: id != ds.id ==> SameEntry(ptc2, r.transports, id)
  {
    if Fresh(ptc2, ds.id, ds.updated) then
      Call(Return(ptc2[ds.id].value), ptc2, dc, false)
    else
      var opts := HTTPClientOptions(ds, env, dc);
      match opts.value
      case Return(o) =>
        (match provider(o)
         case Ok(rt) => Call(Return(rt), Store(ptc2, ds.id, ds.updated, rt), opts.cache, true)
         case Err(reason) => Call(Error(ProviderFailure(reason)), ptc2, opts.cache, true))
      case Error(failure) => Call(Error(failure), ptc2, opts.cache, true)
      case Panic(reason) => Call(Panic(reason), ptc2, opts.cache, true)
  }

  /** Identity stability for the provider cache. */
  lemma GetHttpTransport2SecondCallHits<RT>(ds: DataSource, env: Env, provider: Provider<RT>, ptc2: Cache<RT>, dc: DecryptionCache)
    requires GetHttpTransport2(ds, env, provider, ptc2, dc).result.Return?
    ensures var first := GetHttpTransport2(ds, env, provider, ptc2, dc);
      var second := GetHttpTransport2(ds, env, provider, first.transports, first.decryptions);
      && !second.built
      && second.result == first.result
      && second.transports == first.transports
      && second.decryptions == first.decryptions
  {
  }

  /** `ds.GetHttpClient2(provider)`. */
  function GetHttpClient2<RT>(ds: DataSource, env: Env, provider: Provider<RT>, ptc2: Cache<RT>, dc: DecryptionCache): (r: Call<Client<RT>, RT>)
    ensures var t := GetHttpTransport2(ds, env, provider, ptc2, dc);
      && r.transports == t.transports && r.decryptions == t.decryptions && r.built == t.built
      && (r.result.Return? <==> t.result.Return?)
      && (r.result.Return? ==> r.result.value == Client(Timeout(ds.jsonData, env.settings), t.result.value))
      && (r.result.Error? ==> t.result == Error(r.result.failure))
      && (r.result.Panic? ==> t.result == Panic(r.result.reason))
  {
    var t := GetHttpTransport2(ds, env, provider, ptc2, dc);
    match t.result
    case Return(rt) => Call(Return(Client(Timeout(ds.jsonData, env.settings), rt)), t.transports, t.decryptions, t.built)
    case Error(failure) => Call(Error(failure), t.transports, t.decryptions, t.built)
    case Panic(reason) => Call(Panic(reason), t.transports, t.decryptions, t.built)
  }

  /** The cached round tripper for `ds` is what the provider returns for
      cold-start options. */
  ghost predicate ProviderCoherent<RT>(ptc2: Cache<RT>, ds: DataSource, env: Env, provider: Provider<RT>)
  {
    Fresh(ptc2, ds.id, ds.updated) ==>
      && HTTPClientOptions(ds, env, map[]).value.Return?
      && provider(HTTPClientOptions(ds, env, map[]).value.value) == Ok(ptc2[ds.id].value)
  }

  /** Caching is transparent for the provider path too: with coherent caches
      a call answers what the provider answers for cold-start options (or the
      cold-start panic), and both caches stay coherent. */
  lemma GetHttpTransport2Transparent<RT>(ds: DataSource, env: Env, provider: Provider<RT>, ptc2: Cache<RT>, dc: DecryptionCache)
    requires Coherent(dc, ds, env.decrypt) && ProviderCoherent(ptc2, ds, env, provider)
    ensures var r := GetHttpTransport2(ds, env, provider, ptc2, dc);
      var cold := HTTPClientOptions(ds, env, map[]).value;
      && (cold.Panic? ==> r.result == Panic(cold.reason))
      && (cold.Return? && provider(cold.value).Ok? ==> r.result == Return(provider(cold.value).value))
      && (cold.Return? && provider(cold.value).Err? ==> r.result == Error(ProviderFailure(provider(cold.value).reason)))
      && ProviderCoherent(r.transports, ds, env, provider)
      && Coherent(r.decryptions, ds, env.decrypt)
  {
    HTTPClientOptionsIgnoreCoherentCache(ds, env, dc);
  }
}
