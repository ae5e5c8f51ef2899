/** TLS settings of a data source: `TLSOptions` (plain options for the SDK
    provider, read through the decryption cache) and `GetTLSConfig` (the
    `tls.Config` for the legacy transport, decrypting directly). */
module Tls {
  import opened Outcomes
  import opened Json
  import opened Models
  import opened Decryption

  /** The four TLS switches read from the JSON data. */
  datatype TlsFlags = TlsFlags(clientAuth: bool, withCACert: bool, skipVerify: bool, serverName: string)

  function FlagsOf(jsonData: Option<Object>): (f: TlsFlags)
    ensures jsonData.None? ==> f == TlsFlags(false, false, false, "")
    ensures jsonData.Some? ==> f.clientAuth == MustBool(Get(jsonData.value, "tlsAuth"), false)
    ensures jsonData.Some? ==> f.withCACert == MustBool(Get(jsonData.value, "tlsAuthWithCACert"), false)
    ensures jsonData.Some? ==> f.skipVerify == MustBool(Get(jsonData.value, "tlsSkipVerify"), false)
    ensures jsonData.Some? ==> f.serverName == MustString(Get(jsonData.value, "serverName"))
  {
    if jsonData.None? then TlsFlags(false, false, false, "")
    else
      var json := jsonData.value;
      TlsFlags(
        MustBool(Get(json, "tlsAuth"), false),
        MustBool(Get(json, "tlsAuthWithCACert"), false),
        MustBool(Get(json, "tlsSkipVerify"), false),
        MustString(Get(json, "serverName")))
  }

  /** Whether any secret material is needed at all. */
  predicate UsesSecrets(f: TlsFlags)
  {
    f.clientAuth || f.withCACert
  }

  /** `httpclient.TLSOptions`; an unset field is "". */
  datatype TlsOptions = TlsOptions(
    insecureSkipVerify: bool,
    serverName: string,
    caCertificate: string,
    clientCertificate: string,
    clientKey: string)

  /** `if val, exists := …; exists && len(val) > 0 { field = val }`. */
  function ValueIfNonEmpty(v: Option<string>): string
  {
    if v.Some? && |v.value| > 0 then v.value else ""
  }

  /** The options derived directly from a decrypted map; the reference
      against which the cache-threaded `TLSOptions` is checked. */
  function TlsOptionsFrom(f: TlsFlags, dec: map<string, string>): TlsOptions
  {
    TlsOptions(
      f.skipVerify,
      f.serverName,
      if f.withCACert then Secret(dec, "tlsCACert") else "",
      if f.clientAuth then Secret(dec, "tlsClientCert") else "",
      if f.clientAuth then Secret(dec, "tlsClientKey") else "")
  }

  /** `ds.TLSOptions()`. */
  function TLSOptions(ds: DataSource, decrypt: Decryptor, c: DecryptionCache): (r: Lookup<TlsOptions>)
    ensures var f := FlagsOf(ds.jsonData);
      && r.value.insecureSkipVerify == f.skipVerify
      && r.value.serverName == f.serverName
      && (r.value.caCertificate != "" ==> f.withCACert)
      && (r.value.clientCertificate != "" || r.value.clientKey != "" ==> f.clientAuth)
      && (!UsesSecrets(f) ==> r.cache == c && !r.decrypted && r.value.caCertificate == "")
      && (UsesSecrets(f) ==>
            r.cache == DecryptedValues(ds, decrypt, c).cache
            && r.decrypted == DecryptedValues(ds, decrypt, c).decrypted)
  {
    var f := FlagsOf(ds.jsonData);
    var base := TlsOptions(f.skipVerify, f.serverName, "", "", "");
    if !UsesSecrets(f) then Lookup(base, c, false)
    else
      var ca := if f.withCACert then DecryptedValue(ds, "tlsCACert", decrypt, c) else Lookup(None, c, false);
      var withCA := base.(caCertificate := ValueIfNonEmpty(ca.value));
      if f.clientAuth then
        var cert := DecryptedValue(ds, "tlsClientCert", decrypt, ca.cache);
        var key := DecryptedValue(ds, "tlsClientKey", decrypt, cert.cache);
        Lookup(withCA.(clientCertificate := ValueIfNonEmpty(cert.value), clientKey := ValueIfNonEmpty(key.value)),
               key.cache, ca.decrypted || cert.decrypted || key.decrypted)
      else
        Lookup(withCA, ca.cache, ca.decrypted)
  }

  /** The options are those of the decrypted map the cache hands out once:
      the second and third lookups hit the entry the first one left. */
  lemma TLSOptionsReadsDecryptedValues(ds: DataSource, decrypt: Decryptor, c: DecryptionCache)
    ensures var f := FlagsOf(ds.jsonData);
      UsesSecrets(f) ==>
        TLSOptions(ds, decrypt, c).value == TlsOptionsFrom(f, DecryptedValues(ds, decrypt, c).value)
  {
  }

  datatype Renegotiation = RenegotiateNever | RenegotiateFreelyAsClient

  /** A root pool built from these PEM bytes. */
  datatype CertPool = CertPool(pem: string)

  /** A client certificate built from this certificate/key PEM pair. */
  datatype Certificate = Certificate(certPem: string, keyPem: string)

  /** The fields of `tls.Config` the core sets. */
  datatype TlsConfig = TlsConfig(
    insecureSkipVerify: bool,
    serverName: string,
    rootCAs: Option<CertPool>,
    certificates: seq<Certificate>,
    renegotiation: Renegotiation)

  /** `ds.GetTLSConfig()`. An empty CA certificate with `tlsAuthWithCACert`
      set is skipped; a CA that fails to parse and a bad key pair are errors. */
  function GetTLSConfig(ds: DataSource, decrypt: Decryptor, pki: Pki): (r: Outcome<TlsConfig>)
    ensures var f := FlagsOf(ds.jsonData);
      var dec := decrypt(ds.secureJsonData);
      var ca := Secret(dec, "tlsCACert");
      var cert := Secret(dec, "tlsClientCert");
      var key := Secret(dec, "tlsClientKey");
      var caRejected := f.withCACert && ca != "" && !pki.pemHasCertificate(ca);
      && !r.Panic?
      && (!UsesSecrets(f) ==> r == Return(TlsConfig(f.skipVerify, f.serverName, None, [], RenegotiateNever)))
      && (r.Return? <==> !caRejected && !(f.clientAuth && pki.keyPairError(cert, key).Some?))
      && (r.Error? ==> r.failure.CAParseFailure? || r.failure.KeyPairFailure?)
      && (r == Error(CAParseFailure) <==> caRejected)
      && (r.Error? && r.failure.KeyPairFailure? <==> !caRejected && f.clientAuth && pki.keyPairError(cert, key).Some?)
      && (r.Error? && r.failure.KeyPairFailure? ==> r.failure.reason == pki.keyPairError(cert, key).value)
      && (r.Return? ==>
            && r.value.insecureSkipVerify == f.skipVerify
            && r.value.serverName == f.serverName
            && r.value.renegotiation == RenegotiateNever
            && r.value.rootCAs == (if f.withCACert && ca != "" then Some(CertPool(ca)) else None)
            && r.value.certificates == (if f.clientAuth then [Certificate(cert, key)] else []))
  {
    var f := FlagsOf(ds.jsonData);
    var base := TlsConfig(f.skipVerify, f.serverName, None, [], RenegotiateNever);
    if !UsesSecrets(f) then Return(base)
    else
      var dec := decrypt(ds.secureJsonData);
      var ca := Secret(dec, "tlsCACert");
      if f.withCACert && |ca| > 0 && !pki.pemHasCertificate(ca) then Error(CAParseFailure)
      else
        var withCA := if f.withCACert && |ca| > 0 then base.(rootCAs := Some(CertPool(ca))) else base;
        if !f.clientAuth then Return(withCA)
        else
          var cert := Secret(dec, "tlsClientCert");
          var key := Secret(dec, "tlsClientKey");
          match pki.keyPairError(cert, key)
          case Some(reason) => Error(KeyPairFailure(reason))
          case None => Return(withCA.(certificates := [Certificate(cert, key)]))
  }

  /** The two TLS derivations agree: with a coherent decryption cache, a
      successful `GetTLSConfig` trusts exactly the CA that `TLSOptions`
      hands to the provider and presents exactly its client pair. */
  lemma TLSOptionsAgreeWithTLSConfig(ds: DataSource, decrypt: Decryptor, pki: Pki, c: DecryptionCache)
    requires Coherent(c, ds, decrypt)
    requires GetTLSConfig(ds, decrypt, pki).Return?
    ensures var o := TLSOptions(ds, decrypt, c).value;
      var cfg := GetTLSConfig(ds, decrypt, pki).value;
      && cfg.insecureSkipVerify == o.insecureSkipVerify
      && cfg.serverName == o.serverName
      && cfg.rootCAs == (if o.caCertificate == "" then None else Some(CertPool(o.caCertificate)))
      && cfg.certificates == (if FlagsOf(ds.jsonData).clientAuth then [Certificate(o.clientCertificate, o.clientKey)] else [])
  {
  }
}
