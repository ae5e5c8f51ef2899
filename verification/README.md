# Data-source transport and secret caches (Grafana `pkg/models/datasource_cache.go`)

A Dafny model of how Grafana builds, caches and invalidates the outbound HTTP
transport of a data source, and the cache of its decrypted secure JSON data.

- **Caches.** Each of the three process-wide caches (`ptc`, `ptc2`,
  `dsDecryptionCache`) is a `map<int, Entry<T>>` keyed by data-source id.
  Every operation takes the cache(s) it touches and returns the new ones, so
  one call is one atomic step under the cache's lock. An entry is reused only
  while its stored `updated` equals the data source's `Updated`. Otherwise
  the value is rebuilt and the entry replaced wholesale. A failed build
  returns before the store. Results carry a `built` / `decrypted` flag that
  records whether the builder or decryptor ran.
- **Collaborators.** `SecureJsonData.Decrypt`, `AppendCertsFromPEM`,
  `tls.X509KeyPair` and `provider.GetTransport` are function-valued
  parameters (`Models.Env`, `Transport.Provider`). The built transport is a
  record of the chosen parameters.
- **Go semantics.** A Go `panic` is the explicit outcome `Outcome.Panic`, next
  to `Return` and `Error`. Go's int64 is the range type `GoInts.Int64`;
  durations are int64 nanoseconds with explicit wrap-around
  (`Durations.Seconds`). JSON data is a map with simplejson's
  defaulting accessors (`Json.MustString`, `MustBool`, `MustInt`).
- **Header scan.** `getCustomHeaders` is a recursion over the index. It
  terminates because decimal rendering is injective
  (`Decimal.ItoaInjective`): a run of `k` named indices occupies `k`
  distinct JSON keys.

Points where the code behaves in ways that are easy to misread:

- An unsupported data-source type with signing enabled panics in
  `awsServiceNamespace` instead of returning an `error`.
- The panic in the legacy chain comes after `sigV4Middleware` has read the
  decryption cache. So the decryption cache is refreshed while the transport
  cache is untouched.
- A provider error in `GetHttpTransport2` leaves `ptc2` untouched. The
  decryption cache may already have been refreshed by `HTTPClientOptions`.
- `GetTLSConfig` and `getCustomHeaders` decrypt directly and bypass the
  decryption cache. Only `TLSOptions`, `HTTPClientOptions` and
  `sigV4Middleware` use it.
- With `tlsAuthWithCACert` set, an empty CA certificate is skipped, not
  rejected.
- The header scan stops at the first empty or missing name.

## Model

| member | source | states |
|---|---|---|
| Durations.Seconds | pkg/models/datasource_cache.go:66 | `time.Duration(n) * time.Second` is congruent to n·10⁹ modulo 2⁶⁴ and equals it exactly when n is within ±9 223 372 036 |
| Cache.Store | pkg/models/datasource_cache.go:127-130 | storing makes the entry fresh for the new timestamp with the new value, leaves every other id's entry as it was, and adds only that id |
| Decryption.DecryptedValues | pkg/models/datasource_cache.go:380-395 | decrypts iff the entry is missing or stale; a hit returns the stored map with the cache unchanged; afterwards the entry is fresh and holds the returned map; other ids are untouched |
| Decryption.DecryptedValue | pkg/models/datasource_cache.go:398-401 | a key is found iff it is in the map `DecryptedValues` returns, with that value, and the cache moves exactly as in `DecryptedValues` |
| Decryption.ClearDSDecryptionCache | pkg/models/datasource_cache.go:404-409 | after a clear no id is fresh for any timestamp |
| Decryption.DecryptedValuesSound | pkg/models/datasource_cache.go:384-394 | a cache coherent with the decryptor returns exactly the decrypted data and stays coherent |
| Decryption.DecryptedValuesIdempotent | pkg/models/datasource_cache.go:384-386 | a second call with the same timestamp does not decrypt and returns the same map and cache |
| Decryption.StaleEntryDecryptsAgain | pkg/models/datasource_cache.go:384-392 | a stale timestamp forces decryption and replaces the entry with the new timestamp and map |
| Decryption.ClearForcesDecrypt | pkg/models/datasource_cache.go:404-409 | after a clear the next lookup of any data source and key decrypts again and reads the fresh map |
| Decimal.Itoa | pkg/models/datasource_cache.go:347-348 | the `%d` rendering is a non-empty digit string whose decimal value is n, with no leading zero, one digit long exactly for n < 10 |
| Headers.NamedRunBound | pkg/models/datasource_cache.go:345-360 | a run of k non-empty header names needs at least k JSON keys, so the loop ends |
| Headers.FirstGapFrom | pkg/models/datasource_cache.go:345-355 | the scan's stopping index has an empty name and every index before it has a non-empty one |
| Headers.FirstGap | pkg/models/datasource_cache.go:345-355 | the scan from index 1 stops at the first empty or missing name |
| Headers.VisitCollects | pkg/models/datasource_cache.go:356-359 | one loop iteration extends the gathered headers from indices below k to indices up to k |
| Headers.Scan | pkg/models/datasource_cache.go:345-360 | the loop yields exactly the names at indices before the gap whose `httpHeaderValueN` key exists, each with the value of its last such index |
| Headers.CustomHeaders | pkg/models/datasource_cache.go:338-363 | nil JSON data gives no headers; otherwise the result is characterised as for `Scan` from index 1 |
| Headers.GetCustomHeaders | pkg/models/datasource_cache.go:338-363 | the same, over the directly decrypted secure data |
| Headers.HeaderValueIsLastWritten | pkg/models/datasource_cache.go:356-358 | each header's value comes from the last index before the gap that names it |
| Headers.HeadersIgnorePastGap | pkg/models/datasource_cache.go:350-354 | JSON data agreeing on names up to the gap gives the same headers whatever follows the gap |
| Headers.ScanIgnoresPastGap | pkg/models/datasource_cache.go:345-360 | the same from any index, and the gap itself is the same |
| Tls.FlagsOf | pkg/models/datasource_cache.go:243-248 | nil JSON data gives all switches off and no server name; otherwise `tlsAuth`, `tlsAuthWithCACert` and `tlsSkipVerify` are read with default false and `serverName` with default "" |
| Tls.TLSOptions | pkg/models/datasource_cache.go:239-273 | skip-verify and server name always come from JSON; a CA only with `tlsAuthWithCACert`; a client pair only with `tlsAuth`; with neither flag the cache is not consulted and nothing is decrypted |
| Tls.TLSOptionsReadsDecryptedValues | pkg/models/datasource_cache.go:255-270 | with a secret-using flag, the options equal those derived from the map `DecryptedValues` returns: later lookups hit the entry the first left |
| Tls.GetTLSConfig | pkg/models/datasource_cache.go:293-330 | never panics; it fails only with a CA parse or key-pair error and succeeds iff neither happens; neither flag gives only skip-verify and server name; the CA parse error happens iff a non-empty CA fails to parse; a key-pair error happens iff client auth is on, the CA passed and the pair is bad; on success the root pool is that CA iff one was given and the certificate list is that pair iff `tlsAuth` is set |
| Tls.TLSOptionsAgreeWithTLSConfig | pkg/models/datasource_cache.go:239-330 | with a coherent cache, a successful TLS config trusts exactly the CA `TLSOptions` reports and presents exactly its client pair |
| SigV4.AwsServiceNamespace | pkg/models/datasource_cache.go:411-420 | the two Elasticsearch types map to "es" and Prometheus to "aps"; any other type panics naming the type |
| SigV4.ConfigFrom | pkg/models/datasource_cache.go:278-288 | the signer config carries the given service and keys, and its region, assume-role ARN, auth type, external id and profile come from `sigV4Region`, `sigV4AssumeRoleArn`, `sigV4AuthType`, `sigV4ExternalId` and `sigV4Profile` |
| ClientOptions.Timeout | pkg/models/datasource_cache.go:58-67 | nil JSON data, a missing, non-numeric or zero `timeout` all give `DataProxyTimeout`; a non-zero `timeout` wins; either is scaled to a duration in seconds |
| ClientOptions.TimeoutOverride | pkg/models/datasource_cache.go:58-67 | an in-range positive `timeout` is honoured to the nanosecond and stays positive |
| ClientOptions.BasicAuthOf | pkg/models/datasource_cache.go:205-215 | `BasicAuthUser` when basic auth is on, else `User` when non-empty, else no basic auth (and only then) |
| ClientOptions.HTTPClientOptions | pkg/models/datasource_cache.go:182-237 | never returns an error; panics iff `sigV4Auth` is set and the type is unsupported, keeping the cache as `TLSOptions` left it; options carry SigV4 settings iff the data source's own flag is set, with no global switch, and then the signer config is `ConfigFrom` of the JSON, the resolved service and the access and secret keys of the cached decrypted map, with the cache and the decrypted flag those of one `DecryptedValues` lookup; headers, TLS options, basic auth and timeouts are those derived elsewhere |
| ClientOptions.HTTPClientOptionsSigV4Keys | pkg/models/datasource_cache.go:217-234 | the SigV4 access and secret keys come from the cached decrypted map, and a missing key is left empty |
| ClientOptions.HTTPClientOptionsIgnoreCoherentCache | pkg/models/datasource_cache.go:198-234 | with a coherent decryption cache the options are the cold-start options, and the cache stays coherent |
| Transport.SigV4Middleware | pkg/models/datasource_cache.go:275-291 | reads the decryption cache first; panics iff the type is unsupported; otherwise a signer around the given transport whose config is `ConfigFrom` of the JSON (region, assume-role ARN, auth type, external id, profile), the resolved service and the decrypted access and secret keys |
| Transport.BuildTransport | pkg/models/datasource_cache.go:90-125 | fails iff the TLS config fails, leaving the decryption cache alone; panics iff TLS succeeds, the gate is open and the type is unsupported, naming that type; signs iff `sigV4Auth` and `SigV4AuthEnabled` both hold, with exactly the signer `SigV4Middleware` builds; renegotiation is freely-as-client; timeouts match the provider options; headers are the scanned ones |
| Transport.GetHttpTransport | pkg/models/datasource_cache.go:82-133 | builds iff the entry is missing or stale; a hit returns the stored transport with both caches unchanged; only a successful build is stored, under the current timestamp; other ids are untouched |
| Transport.GetHttpTransportSecondCallHits | pkg/models/datasource_cache.go:86-88 | right after a success, a second call returns the same transport without building and moves neither cache |
| Transport.GetHttpTransportFailureStoresNothing | pkg/models/datasource_cache.go:90-93 | a TLS failure is returned as the error and leaves both caches as they were |
| Transport.GetHttpTransportPanicRefreshesSecrets | pkg/models/datasource_cache.go:116-118 | on a miss with the gate open and an unsupported type, the call panics, the transport cache is unchanged and the decryption entry is fresh |
| Transport.GetHttpTransportStaleRebuilds | pkg/models/datasource_cache.go:86-132 | a changed `Updated` rebuilds and replaces the entry even if nothing else changed |
| Transport.TransportTimeoutsMatchClientOptions | pkg/models/datasource_cache.go:102-109 | the legacy transport and the provider options use the same timeout and pool settings |
| Transport.SigV4GatesDiffer | pkg/models/datasource_cache.go:116-118 | the provider options request signing iff the data source does; the legacy chain signs iff that holds and `SigV4AuthEnabled` is on |
| Transport.BuildTransportIgnoresCoherentCache | pkg/models/datasource_cache.go:275-288 | with a coherent decryption cache the chain built is the cold-start chain, and the cache stays coherent |
| Transport.GetHttpTransportTransparent | pkg/models/datasource_cache.go:82-133 | with coherent caches every call answers exactly what a cold build answers (transport, error or panic) and both caches stay coherent |
| Transport.GetHttpClient | pkg/models/datasource_cache.go:69-79 | a client exists iff the transport call returned one and pairs it with the data-source timeout; errors and panics pass through; caches move as in `GetHttpTransport` |
| Transport.GetHttpTransport2 | pkg/models/datasource_cache.go:161-180 | builds iff missing or stale; a hit returns the stored round tripper; on a miss the options' panic or the provider's error is returned and nothing is stored; the decryption cache moves as `HTTPClientOptions` moves it |
| Transport.GetHttpTransport2SecondCallHits | pkg/models/datasource_cache.go:165-167 | right after a success, a second call returns the same round tripper without building |
| Transport.GetHttpTransport2Transparent | pkg/models/datasource_cache.go:161-180 | with coherent caches every call answers what the provider answers for cold-start options, or the cold-start panic, and both caches stay coherent |
| Transport.GetHttpClient2 | pkg/models/datasource_cache.go:149-159 | the same bundling as `GetHttpClient` over the provider cache |
| Scenarios.HeaderScanStopsAtIndexTwo | pkg/models/datasource_cache.go:350-354 | names at indices 1 and 3 but not 2 yield only the index-1 header |
| Scenarios.ElasticsearchSigningBuilds | pkg/models/datasource_cache.go:413-414 | a signed `elasticsearch` data source builds a signer with service "es" and its region, cached under its id |
| Scenarios.UnknownTypeSigningPanics | pkg/models/datasource_cache.go:417-418 | the same data source with an unknown type panics and caches nothing |
| Scenarios.CAOnlyTls | pkg/models/datasource_cache.go:311-318 | CA-only TLS: bad PEM is an error; good PEM makes that CA the only root, with no client certificate |
| Scenarios.EmptyCAIsSkipped | pkg/models/datasource_cache.go:311 | an empty CA with `tlsAuthWithCACert` set succeeds with no root pool |

## Left out

- Locking (`sync.Mutex` on each cache). Each cache call is one atomic step, so concurrent interleavings and the single-build guarantee under contention are not modelled.
- `RoundTrip` (lines 34-46). `req.Header.Set` canonicalises keys in net/http, and the metrics middleware is foreign code. The model stops at the headers and the next handler stored in the transport.
- `http.Transport`, `net.Dialer`, `http.ProxyFromEnvironment` and `sigv4.New` are not built. The transport is a record of the settings chosen, and the proxy is always taken from the environment.
- `SecureJsonData.Decrypt`, `AppendCertsFromPEM` and `tls.X509KeyPair` are uninterpreted parameters. A decryption failure is not modelled because `Decrypt` returns no error here.
- `GetTLSConfig2` (lines 332-334). It only hands `TLSOptions` to the provider's own `GetTLSConfig`, whose behaviour is not visible. `TLSOptions` itself is modelled.
- ClientOptions.HTTPClientOptions: the basic-auth password is not modelled. `DecryptedBasicAuthPassword` is defined in pkg/models/datasource.go, which is not part of this model. So any decryption-cache read it makes is not modelled either.
- `DS_ES`, `DS_ES_OPEN_DISTRO` and `DS_PROMETHEUS` are also defined in pkg/models/datasource.go. They are taken as "elasticsearch", "grafana-es-open-distro-datasource" and "prometheus".
- JSON numbers are 64-bit integers only. Fractional numbers, and the conversions simplejson performs on them, are not modelled.
- The `decrypted` flag records decryption-cache misses only. The direct `Decrypt` calls in `GetTLSConfig` and `getCustomHeaders` are not counted.
- Cache growth (entries are never evicted except by a full clear) is visible in the model's maps, but no bound on it is stated.
