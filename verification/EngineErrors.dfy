/** Engine failures and which of them a route may fall back on (src/error.rs). */
module EngineErrors {

  datatype EngineError =
    | ModelNotFound(id: string)
    | ModelLoadFailed(reason: string)
    | InferenceFailed(reason: string)
    | ContextLengthExceeded(requested: nat, max: nat)
    | Timeout
    | Network(reason: string)
    | UpstreamServerError(status: nat, body: string)
    | RateLimited(retryAfterSecs: nat)
    | AllBackendsFailed(routeId: string, attempts: seq<Attempt>)
    | BackendPoisoned
    | BackendDraining
    | ModelUnavailable(reason: string)
    | BackendBusy
    | NotImplemented(reason: string)
  {
    predicate IsRetryable() {
      Timeout? || Network? || UpstreamServerError? || RateLimited? || ModelUnavailable?
    }
  }

  /** Everything else is final for the client: what is wrong with the request or the
      model, a backend on its way out, and the busy signal that is meant for evictions. */
  lemma RetryableOrFinal(e: EngineError)
    ensures !e.IsRetryable() <==>
              || e.ModelNotFound? || e.ModelLoadFailed? || e.InferenceFailed? || e.ContextLengthExceeded?
              || e.AllBackendsFailed? || e.BackendPoisoned? || e.BackendDraining? || e.BackendBusy?
              || e.NotImplemented?
  {
    match e
    case UpstreamServerError(_, _) =>
    case _ =>
  }

  /** One target that was tried and the failure that made the route move on. */
  datatype Attempt = Attempt(targetId: string, error: EngineError)
}
