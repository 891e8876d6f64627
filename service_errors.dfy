/**
 * The plain `{ code, message }` objects the analysis service throws.
 */
module ServiceErrors {
  import opened Text

  datatype ServiceError =
    | LimitReached(waitMinutes: int)
    | RateLimited
    | ServiceFailure
    | InvalidInput(message: string)
  {
    function Code(): string {
      match this
      case LimitReached(_) => "AI_LIMIT_REACHED"
      case RateLimited => "AI_RATE_LIMITED"
      case ServiceFailure => "AI_SERVICE_ERROR"
      case InvalidInput(_) => "INVALID_INPUT"
    }

    function Message(): string {
      match this
      case LimitReached(w) =>
        "You have reached your hourly analysis limit. Please try again in " + DecimalText(w) + " minutes."
      case RateLimited => "AI service is temporarily busy. Please try again in a few moments."
      case ServiceFailure => "Failed to get analysis from AI service. Please try again later."
      case InvalidInput(m) => m
    }
  }

  /** The code a caller tests for to answer 503; no error of the service carries it. */
  const TemporarilyUnavailable: string := "AI_TEMPORARILY_UNAVAILABLE"

  lemma NoErrorIsTemporarilyUnavailable(e: ServiceError)
    ensures e.Code() != TemporarilyUnavailable
  {
  }
}
