/** AWS SigV4 request signing: which data-source types may be signed, under
    which service namespace, and the signer settings read from the JSON data. */
module SigV4 {
  import opened Outcomes
  import opened Json

  /** Data-source type names (`DS_ES`, `DS_ES_OPEN_DISTRO`, `DS_PROMETHEUS`). */
  const DsEs: string := "elasticsearch"
  const DsEsOpenDistro: string := "grafana-es-open-distro-datasource"
  const DsPrometheus: string := "prometheus"

  /** `awsServiceNamespace(dsType)`: an allow-list; any other type panics. */
  function AwsServiceNamespace(dsType: string): (r: Outcome<string>)
    ensures !r.Error?
    ensures r == Return("es") <==> dsType == DsEs || dsType == DsEsOpenDistro
    ensures r == Return("aps") <==> dsType == DsPrometheus
    ensures r.Panic? <==> dsType != DsEs && dsType != DsEsOpenDistro && dsType != DsPrometheus
    ensures r.Panic? ==> r.reason == UnsupportedDatasource(dsType)
  {
    if dsType == DsEs || dsType == DsEsOpenDistro then Return("es")
    else if dsType == DsPrometheus then Return("aps")
    else Panic(UnsupportedDatasource(dsType))
  }

  /** The data source asks for signing: non-nil JSON data with `sigV4Auth` true. */
  predicate SigV4Requested(jsonData: Option<Object>)
  {
    jsonData.Some? && MustBool(Get(jsonData.value, "sigV4Auth"), false)
  }

  /** `sigv4.Config` / `httpclient.SigV4Config`. */
  datatype SigV4Config = SigV4Config(
    service: string,
    region: string,
    assumeRoleArn: string,
    authType: string,
    externalId: string,
    profile: string,
    accessKey: string,
    secretKey: string)

  /** The signer settings with the given service and keys, the rest read
      from the JSON data. */
  function ConfigFrom(json: Object, service: string, accessKey: string, secretKey: string): (cfg: SigV4Config)
    ensures cfg.service == service && cfg.accessKey == accessKey && cfg.secretKey == secretKey
    ensures cfg.region == MustString(Get(json, "sigV4Region"))
    ensures cfg.assumeRoleArn == MustString(Get(json, "sigV4AssumeRoleArn"))
    ensures cfg.authType == MustString(Get(json, "sigV4AuthType"))
    ensures cfg.externalId == MustString(Get(json, "sigV4ExternalId"))
    ensures cfg.profile == MustString(Get(json, "sigV4Profile"))
  {
    SigV4Config(
      service,
      MustString(Get(json, "sigV4Region")),
      MustString(Get(json, "sigV4AssumeRoleArn")),
      MustString(Get(json, "sigV4AuthType")),
      MustString(Get(json, "sigV4ExternalId")),
      MustString(Get(json, "sigV4Profile")),
      accessKey,
      secretKey)
  }
}
