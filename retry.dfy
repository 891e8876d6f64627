/**
 * `executeAICall`: up to three calls to the model, with exponential back-off
 * between retryable failures.
 *
 * The model provider is a parameter: `replies(n)` is what the `n`-th call
 * (numbered from 1) gives back. An attempt fails when the provider raises an
 * error, when the answer is blank, or when `parseAIResponse` rejects it; it is
 * retried only when it fails with HTTP status 429, 503 or any status from 500
 * up, or with a message containing "429", and only while fewer than three
 * calls have been made. When the calls stop without a value the caller gets
 * `AI_RATE_LIMITED` if the last failure had status 429 and `AI_SERVICE_ERROR`
 * otherwise.
 */
module Retry {
  import opened Wrappers
  import opened Text
  import opened Json
  import opened Sanitizer
  import opened ServiceErrors

  const MaxRetries: nat := 3
  const RetryDelayBase: nat := 1000

  /** What one `generateContent` call gives back: response text, or a raised error. */
  datatype Reply = Answered(text: string) | Raised(status: Option<int>, message: string)

  /** The error an attempt ends with: the HTTP status it carries, if any, and its message. */
  datatype CallError = CallError(status: Option<int>, message: string)

  type Provider = nat -> Reply

  const EmptyResponse: string := "Empty response from AI service."

  /** The body of the `try` block for one attempt. */
  function AttemptResult(reply: Reply, parse: JsonParser): Result<JsonValue, CallError> {
    match reply
    case Raised(status, message) => Failure(CallError(status, message))
    case Answered(text) =>
      if Trim(text) == "" then Failure(CallError(None, EmptyResponse))
      else match ParseAIResponse(text, parse)
        case Success(v) => Success(v)
        case Failure(f) => Failure(CallError(None, f.Message()))
  }

  predicate IsRetryable(e: CallError) {
    || e.status == Some(429)
    || e.status == Some(503)
    || (e.status.Some? && e.status.value >= 500)
    || Includes(e.message, "429")
  }

  function Pow2(n: nat): nat {
    if n == 0 then 1 else 2 * Pow2(n - 1)
  }

  /** The delay in milliseconds after a retryable failure of attempt `attempt`. */
  function Backoff(attempt: nat): nat
    requires attempt >= 1
  {
    RetryDelayBase * Pow2(attempt - 1)
  }

  /** The error thrown once the calls stop without a value. */
  function FinalError(last: CallError): (r: ServiceError)
    ensures r == RateLimited <==> last.status == Some(429)
    ensures r == RateLimited || r == ServiceFailure
  {
    if last.status == Some(429) then RateLimited else ServiceFailure
  }

  /** How a run of `executeAICall` ends: its outcome, how many calls it made, the delays it waited. */
  datatype Run = Run(outcome: Result<JsonValue, ServiceError>, calls: nat, delays: seq<nat>)

  /** What each attempt, numbered from 1, ends with. */
  type Attempts = nat -> Result<JsonValue, CallError>

  function AttemptsOf(replies: Provider, parse: JsonParser): Attempts {
    (n: nat) => AttemptResult(replies(n), parse)
  }

  /** The run from attempt `attempt` on, after waiting `delays`. */
  function RunFrom(results: Attempts, attempt: nat, delays: seq<nat>): Run
    requires 1 <= attempt <= MaxRetries
    decreases MaxRetries - attempt
  {
    match results(attempt)
    case Success(v) => Run(Success(v), attempt, delays)
    case Failure(e) =>
      if IsRetryable(e) && attempt < MaxRetries then
        RunFrom(results, attempt + 1, delays + [Backoff(attempt)])
      else
        Run(Failure(FinalError(e)), attempt, delays)
  }

  function Execution(replies: Provider, parse: JsonParser): Run {
    RunFrom(AttemptsOf(replies, parse), 1, [])
  }

  /** `executeAICall` itself, with the loop of the source. */
  method ExecuteAICall(replies: Provider, parse: JsonParser) returns (outcome: Result<JsonValue, ServiceError>, calls: nat, delays: seq<nat>)
    ensures Run(outcome, calls, delays) == Execution(replies, parse)
  {
    var attempt: nat := 1;
    var lastError: Option<CallError> := None;
    delays := [];
    while attempt <= MaxRetries
      invariant 1 <= attempt <= MaxRetries
      invariant RunFrom(AttemptsOf(replies, parse), attempt, delays) == Execution(replies, parse)
      decreases MaxRetries - attempt
    {
      var result := AttemptResult(replies(attempt), parse);
      if result.Success? {
        outcome, calls := Success(result.value), attempt;
        return;
      }
      lastError := Some(result.error);
      if IsRetryable(result.error) && attempt < MaxRetries {
        delays := delays + [Backoff(attempt)];
        attempt := attempt + 1;
        continue;
      }
      break;
    }
    outcome, calls := Failure(FinalError(lastError.value)), attempt;
  }

  // ---------------------------------------------------------------------------
  // What a run is, stated without the recursion.

  /** Attempt `n` is the last one: it produced a value, failed for good, or was the third. */
  predicate Stops(results: Attempts, n: nat) {
    n == MaxRetries || results(n).Success? || !IsRetryable(results(n).error)
  }

  /** The outcome of a run whose last attempt is `n`. */
  function OutcomeAt(results: Attempts, n: nat): Result<JsonValue, ServiceError> {
    match results(n)
    case Success(v) => Success(v)
    case Failure(e) => Failure(FinalError(e))
  }

  /** The delays waited before attempt `n`: 1000 ms, then 2000 ms. */
  function DelaysBefore(n: nat): (d: seq<nat>)
    requires n >= 1
    ensures |d| == n - 1
    ensures forall i :: 0 <= i < |d| ==> d[i] == Backoff(i + 1)
  {
    if n == 1 then [] else DelaysBefore(n - 1) + [Backoff(n - 1)]
  }

  lemma {:induction false} RunFromCharacterized(results: Attempts, attempt: nat)
    requires 1 <= attempt <= MaxRetries
    requires forall m :: 1 <= m < attempt ==> !Stops(results, m)
    ensures var run := RunFrom(results, attempt, DelaysBefore(attempt));
      && attempt <= run.calls <= MaxRetries
      && Stops(results, run.calls)
      && (forall m :: 1 <= m < run.calls ==> !Stops(results, m))
      && run.delays == DelaysBefore(run.calls)
      && run.outcome == OutcomeAt(results, run.calls)
    decreases MaxRetries - attempt
  {
    if !Stops(results, attempt) {
      RunFromCharacterized(results, attempt + 1);
    }
  }

  /**
   * A run makes calls up to the first attempt that stops; its outcome is that
   * attempt's value or the error derived from that attempt's failure; it waits
   * 1000 ms before the second call and 2000 ms before the third.
   */
  lemma ExecutionCharacterized(replies: Provider, parse: JsonParser)
    ensures var run := Execution(replies, parse);
      var results := AttemptsOf(replies, parse);
      && 1 <= run.calls <= MaxRetries
      && Stops(results, run.calls)
      && (forall m :: 1 <= m < run.calls ==> !Stops(results, m))
      && |run.delays| == run.calls - 1
      && (forall i :: 0 <= i < |run.delays| ==> run.delays[i] == RetryDelayBase * Pow2(i))
      && run.outcome == OutcomeAt(results, run.calls)
  {
    RunFromCharacterized(AttemptsOf(replies, parse), 1);
  }

  /** A run that fails, fails with `AI_RATE_LIMITED` or `AI_SERVICE_ERROR`: never with a quota or input error. */
  lemma {:induction false} RunFromFailsWithCallError(results: Attempts, attempt: nat, delays: seq<nat>)
    requires 1 <= attempt <= MaxRetries
    ensures var o := RunFrom(results, attempt, delays).outcome;
      o.Failure? ==> o.error == RateLimited || o.error == ServiceFailure
    decreases MaxRetries - attempt
  {
    if results(attempt).Failure? && IsRetryable(results(attempt).error) && attempt < MaxRetries {
      RunFromFailsWithCallError(results, attempt + 1, delays + [Backoff(attempt)]);
    }
  }

  /** The run fails with `AI_RATE_LIMITED` exactly when its last call failed with status 429. */
  lemma RateLimitedIffLast429(replies: Provider, parse: JsonParser)
    ensures var run := Execution(replies, parse);
      var last := AttemptsOf(replies, parse)(run.calls);
      run.outcome == Failure(RateLimited) <==> last.Failure? && last.error.status == Some(429)
  {
    ExecutionCharacterized(replies, parse);
  }

  /** A blank answer is not retried: one call, then `AI_SERVICE_ERROR`. */
  lemma BlankAnswerNotRetried(replies: Provider, parse: JsonParser)
    requires replies(1).Answered? && Trim(replies(1).text) == ""
    ensures Execution(replies, parse) == Run(Failure(ServiceFailure), 1, [])
  {
    var results := AttemptsOf(replies, parse);
    assert results(1) == AttemptResult(replies(1), parse) == Failure(CallError(None, EmptyResponse));
    EmptyResponseNotRetryable();
    StopsAtFirst(results);
  }

  lemma EmptyResponseNotRetryable()
    ensures !IsRetryable(CallError(None, EmptyResponse))
  {
    ExcludesWithoutFirstChar(EmptyResponse, "429");
  }

  /** An answer `parseAIResponse` rejects is not retried either. */
  lemma UnparsableAnswerNotRetried(replies: Provider, parse: JsonParser)
    requires replies(1).Answered? && Trim(replies(1).text) != ""
    requires ParseAIResponse(replies(1).text, parse).Failure?
    ensures Execution(replies, parse) == Run(Failure(ServiceFailure), 1, [])
  {
    var results := AttemptsOf(replies, parse);
    var f := ParseAIResponse(replies(1).text, parse).error;
    ParseMessageNotRetryable(f);
    assert results(1) == AttemptResult(replies(1), parse) == Failure(CallError(None, f.Message()));
    StopsAtFirst(results);
  }

  /** A first attempt that fails without status and is not retryable ends the run as `AI_SERVICE_ERROR`. */
  lemma StopsAtFirst(results: Attempts)
    requires results(1).Failure? && results(1).error.status.None? && !IsRetryable(results(1).error)
    ensures RunFrom(results, 1, []) == Run(Failure(ServiceFailure), 1, [])
  {
  }

  /** A failure without status whose message has no digit 4 is not retried. */
  lemma NotRetryableWithoutFour(m: string)
    requires '4' !in m
    ensures !IsRetryable(CallError(None, m))
  {
    ExcludesWithoutFirstChar(m, "429");
  }

  lemma ParseMessageNotRetryable(f: ParseFailure)
    ensures !IsRetryable(CallError(None, f.Message()))
  {
    ParseMessagesHaveNoFour(f);
    NotRetryableWithoutFour(f.Message());
  }

  /** Two 503s, whatever their messages, and then a good answer: three calls, 1000 ms and 2000 ms of waiting, and the value. */
  lemma TwoOverloadsThenSuccess(replies: Provider, parse: JsonParser, v: JsonValue)
    requires replies(1).Raised? && replies(1).status == Some(503)
    requires replies(2).Raised? && replies(2).status == Some(503)
    requires replies(3).Answered? && Trim(replies(3).text) != ""
    requires ParseAIResponse(replies(3).text, parse) == Success(v)
    ensures Execution(replies, parse) == Run(Success(v), 3, [1000, 2000])
  {
    var results := AttemptsOf(replies, parse);
    assert results(1) == AttemptResult(replies(1), parse);
    assert results(2) == AttemptResult(replies(2), parse);
    assert results(3) == AttemptResult(replies(3), parse);
    AnsweredAttempt(replies(3), parse, v);
    RetriedTwiceThenValue(results, v);
  }

  lemma RetriedTwiceThenValue(results: Attempts, v: JsonValue)
    requires results(1).Failure? && results(1).error.status == Some(503)
    requires results(2).Failure? && results(2).error.status == Some(503)
    requires results(3) == Success(v)
    ensures RunFrom(results, 1, []) == Run(Success(v), 3, [1000, 2000])
  {
    RetriedAfter(results, 1, []);
    RetriedAfter(results, 2, [Backoff(1)]);
    assert [Backoff(1)] + [Backoff(2)] == [1000, 2000];
  }

  /** A retryable failure before the last attempt leads to the next attempt after the back-off. */
  lemma RetriedAfter(results: Attempts, attempt: nat, delays: seq<nat>)
    requires 1 <= attempt < MaxRetries
    requires results(attempt).Failure? && IsRetryable(results(attempt).error)
    ensures RunFrom(results, attempt, delays) == RunFrom(results, attempt + 1, delays + [Backoff(attempt)])
  {
  }

  lemma AnsweredAttempt(reply: Reply, parse: JsonParser, v: JsonValue)
    requires reply.Answered? && Trim(reply.text) != ""
    requires ParseAIResponse(reply.text, parse) == Success(v)
    ensures AttemptResult(reply, parse) == Success(v)
  {
  }

  /** A "429" that appears only in the message is retried, but the run ends as `AI_SERVICE_ERROR`, not `AI_RATE_LIMITED`. */
  lemma QuotaMessageWithoutStatus(replies: Provider, parse: JsonParser)
    requires forall n :: replies(n) == Raised(None, "429 Too Many Requests")
    ensures Execution(replies, parse) == Run(Failure(ServiceFailure), 3, [1000, 2000])
  {
    var m := "429 Too Many Requests";
    assert m[0..3] == "429";
    assert OccursAt(m, "429", 0);
  }
}
