/** The data source as the core sees it, the process-wide settings it reads,
    and the collaborators it calls but whose code is not modelled. */
module Models {
  import opened Outcomes
  import opened GoInts
  import Json

  /** Encrypted secure JSON data; only the decryptor looks inside. */
  datatype SecureJsonData = SecureJsonData(encrypted: map<string, seq<bv8>>)

  /** `time.Time` values are reduced to integers; `Equal` is `==`. */
  datatype DataSource = DataSource(
    id: int,
    updated: int,
    name: string,
    uid: string,
    dsType: string,
    jsonData: Option<Json.Object>,  // None for a nil JsonData
    secureJsonData: SecureJsonData,
    basicAuth: bool,
    basicAuthUser: string,
    user: string)

  /** The `setting.DataProxy*` knobs (in seconds) and `setting.SigV4AuthEnabled`. */
  datatype Settings = Settings(
    dataProxyTimeout: Int64,
    dataProxyKeepAlive: Int64,
    dataProxyTLSHandshakeTimeout: Int64,
    dataProxyExpectContinueTimeout: Int64,
    dataProxyMaxIdleConns: Int64,
    dataProxyIdleConnTimeout: Int64,
    sigV4AuthEnabled: bool)

  /** `SecureJsonData.Decrypt()`. */
  type Decryptor = SecureJsonData -> map<string, string>

  /** PEM and X.509 parsing: whether `AppendCertsFromPEM` accepts the bytes,
      and the error (if any) `tls.X509KeyPair` reports for a cert/key pair. */
  datatype Pki = Pki(
    pemHasCertificate: string -> bool,
    keyPairError: (string, string) -> Option<string>)

  /** Everything a build consults besides the data source and the caches. */
  datatype Env = Env(settings: Settings, decrypt: Decryptor, pki: Pki)

  /** A Go map index: a missing key reads as "". */
  function Secret(decrypted: map<string, string>, key: string): string
  {
    if key in decrypted then decrypted[key] else ""
  }
}
