/** Classification of delivery failures (internal/delivery/failure.go). */
module Delivery {
  import opened Text

  datatype Kind = Retryable | Permanent

  /** A failed attempt; `status` is absent when no HTTP response was received. */
  datatype Failure = Failure(kind: Kind, status: Option<nat>)

  datatype FailureAction = Retry | DeadLetter

  /** What one delivery attempt returned. */
  datatype Attempt = Success(code: Option<nat>) | Failed(failure: Failure)

  function ClassifyHTTPStatus(code: nat): Option<Kind> {
    if code == 408 || code == 425 || code == 429 then Some(Retryable)
    else if 500 <= code <= 599 then Some(Retryable)
    else if 400 <= code <= 499 then Some(Permanent)
    else None
  }

  /** The tail of processWebhookMessageWithResult: a code of 400 or more is an
      error only when the classifier gives it a kind. */
  function AttemptOfResponse(code: nat): Attempt {
    if code < 400 then Success(Some(code))
    else match ClassifyHTTPStatus(code)
      case None => Success(Some(code))
      case Some(kind) => Failed(Failure(kind, Some(code)))
  }

  function DecideFailureAction(failure: Failure, retry: int, maxRetries: int): FailureAction {
    if failure.kind.Permanent? then DeadLetter
    else if retry < maxRetries then Retry
    else DeadLetter
  }

  /** Exactly the codes outside 400..599 count as delivered, 600 and above included. */
  lemma ResponseDeliveredIff(code: nat)
    ensures AttemptOfResponse(code).Success? <==> code < 400 || code >= 600
    ensures AttemptOfResponse(code).Failed? ==>
              AttemptOfResponse(code).failure.status == Some(code)
  {
  }
}
