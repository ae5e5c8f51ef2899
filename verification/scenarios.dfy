/** Concrete data sources run through the model. */
module Scenarios {
  import opened Outcomes
  import opened Json
  import opened Decimal
  import opened Cache
  import opened Models
  import opened Headers
  import opened Tls
  import opened SigV4
  import opened Transport

  /** Header names at indices 1 and 3 but none at 2: only the first header is
      produced; the one at index 3 is never reached. */
  lemma HeaderScanStopsAtIndexTwo()
    ensures CustomHeaders(
              Some(map["httpHeaderName1" := String("X-A"), "httpHeaderName3" := String("X-C")]),
              map["httpHeaderValue1" := "a", "httpHeaderValue3" := "c"])
         == map["X-A" := "a"]
  {
    var json := map["httpHeaderName1" := String("X-A"), "httpHeaderName3" := String("X-C")];
    var dec := map["httpHeaderValue1" := "a", "httpHeaderValue3" := "c"];
    assert Itoa(1) == "1" && Itoa(2) == "2";
    assert NameKey(1) == "httpHeaderName1" && ValueKey(1) == "httpHeaderValue1";
    assert NameKey(2) == "httpHeaderName2";
    assert NameKey(2) != "httpHeaderName1" && NameKey(2) != "httpHeaderName3";
    assert NameAt(json, 1) == "X-A";
    assert NameAt(json, 2) == "";
    VisitCollects(json, dec, 1, map[]);
    var acc := Visit(json, dec, 1, map[]);
    assert acc == map["X-A" := "a"];
    assert Scan(json, dec, 2, acc) == acc;
  }

  function SigningSource(dsType: string): DataSource
  {
    DataSource(7, 1000, "logs", "uid-7", dsType,
               Some(map["sigV4Auth" := Bool(true), "sigV4Region" := String("us-east-1")]),
               SecureJsonData(map[]), false, "", "")
  }

  /** A signed Elasticsearch data source builds a chain whose signer uses the
      "es" namespace and the configured region, and caches it under its id. */
  lemma ElasticsearchSigningBuilds(env: Env)
    requires env.settings.sigV4AuthEnabled
    ensures var r := GetHttpTransport(SigningSource(DsEs), env, map[], map[]);
      && r.result.Return?
      && r.result.value.next.Signed?
      && r.result.value.next.config.service == "es"
      && r.result.value.next.config.region == "us-east-1"
      && Fresh(r.transports, 7, 1000)
  {
    var ds := SigningSource(DsEs);
    assert FlagsOf(ds.jsonData) == TlsFlags(false, false, false, "");
    assert GetTLSConfig(ds, env.decrypt, env.pki).Return?;
    assert AwsServiceNamespace(ds.dsType) == Return("es");
    assert SigV4Gate(ds, env.settings);
    var b := BuildTransport(ds, env, map[]);
    assert b.value.Return?;
    var t := b.value.value;
    assert t.next.Signed?;
    assert SigV4Middleware(ds, env.decrypt, map[], t.transport).value == Return(t.next);
    assert MustString(Get(ds.jsonData.value, "sigV4Region")) == "us-east-1";
  }

  /** The same data source with an unknown type panics at build time and
      leaves the transport cache empty. */
  lemma UnknownTypeSigningPanics(env: Env)
    requires env.settings.sigV4AuthEnabled
    ensures var r := GetHttpTransport(SigningSource("unknown-plugin"), env, map[], map[]);
      && r.result == Panic(UnsupportedDatasource("unknown-plugin"))
      && r.transports == map[]
  {
    var ds := SigningSource("unknown-plugin");
    assert FlagsOf(ds.jsonData) == TlsFlags(false, false, false, "");
    assert GetTLSConfig(ds, env.decrypt, env.pki).Return?;
    assert AwsServiceNamespace(ds.dsType).Panic?;
    assert SigV4Gate(ds, env.settings);
    assert BuildTransport(ds, env, map[]).value == Panic(UnsupportedDatasource(ds.dsType));
  }

  function CASource(): DataSource
  {
    DataSource(9, 5, "metrics", "uid-9", DsPrometheus,
               Some(map["tlsAuthWithCACert" := Bool(true)]),
               SecureJsonData(map[]), false, "", "")
  }

  /** CA-only TLS: unparseable PEM is an error with no insecure fallback,
      parseable PEM makes that CA the only trust root. */
  lemma CAOnlyTls(env: Env, ca: string)
    requires env.decrypt(CASource().secureJsonData) == map["tlsCACert" := ca]
    requires ca != ""
    ensures var r := GetTLSConfig(CASource(), env.decrypt, env.pki);
      && (!env.pki.pemHasCertificate(ca) ==> r == Error(CAParseFailure))
      && (env.pki.pemHasCertificate(ca) ==> r.Return? && r.value.rootCAs == Some(CertPool(ca)) && r.value.certificates == [])
  {
  }

  /** An empty CA with `tlsAuthWithCACert` set is skipped rather than rejected. */
  lemma EmptyCAIsSkipped(env: Env)
    requires env.decrypt(CASource().secureJsonData) == map["tlsCACert" := ""]
    ensures GetTLSConfig(CASource(), env.decrypt, env.pki).Return?
    ensures GetTLSConfig(CASource(), env.decrypt, env.pki).value.rootCAs == None
  {
  }
}
