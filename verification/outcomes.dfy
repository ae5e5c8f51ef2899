/** Result shapes shared by the model: an optional value, and the three ways a
    build step can end in Go — a normal return, a returned `error`, or a panic. */
module Outcomes {

  datatype Option<+T> = None | Some(value: T)

  /** The `error` values the core returns to its callers. */
  datatype Failure =
    | CAParseFailure                   // "failed to parse TLS CA PEM certificate"
    | KeyPairFailure(reason: string)   // error of tls.X509KeyPair, passed through
    | ProviderFailure(reason: string)  // error of provider.GetTransport, passed through

  /** Why a call panicked instead of returning. */
  datatype PanicReason = UnsupportedDatasource(dsType: string)

  datatype Outcome<+T> =
    | Return(value: T)
    | Error(failure: Failure)
    | Panic(reason: PanicReason)

  /** A Go `(T, error)` pair coming back from a collaborator. */
  datatype Result<+T> = Ok(value: T) | Err(reason: string)
}
