/** The nested retries around one request to the model: attempts of one invocation, rate-limit
    retries of the invocation, and a further invocation for a reply that does not parse. */
module Retry {
  import opened Wrappers
  import opened ResultParser
  import Ascii
  import FencedJson

  datatype ErrorType = Timeout | RateLimit | ProcessCrash

  /** The outcome of one process launch; `output` is its standard output, `error` its message. A launch
      that throws, such as one with arguments that are too long, never comes to a result. */
  datatype Launch = Succeeded(output: string) | Failed(errorType: ErrorType, error: string) | Threw(error: string)

  // The constants in force.
  const MAX_ATTEMPTS := 3
  const MAX_RATE_LIMIT_RETRIES := 3
  const INITIAL_RATE_LIMIT_DELAY_MS := 60000
  const MAX_JSON_PARSE_RETRIES := 1

  function Pow2(n: nat): (p: nat)
    ensures p >= 1
  {
    if n == 0 then 1 else 2 * Pow2(n - 1)
  }

  /** The delay before retry number `attempt`, counted from 1. */
  function RetryDelay(e: ErrorType, attempt: nat): nat
    requires attempt >= 1
  {
    (if e.RateLimit? then 60000 else 5000) * Pow2(attempt - 1)
  }

  // ---- invokeClaudeCode -----------------------------------------------------------------------

  /** Launches are drawn from a stream; a call reports the one it returns, the index behind the last
      one it used, and the milliseconds it slept. */
  datatype Use<+T> = Use(result: T, next: nat, slept: nat)

  function Invoke(launch: nat -> Launch, from: nat, attempt: nat, maxAttempts: nat): (u: Use<Launch>)
    requires attempt < maxAttempts
    ensures from < u.next && u.result == launch(u.next - 1)
    ensures u.next - from <= maxAttempts - attempt
    ensures u.slept <= 60000 * (Pow2(maxAttempts - 1) - Pow2(attempt))
    ensures u.result.Failed? ==> u.next - from == maxAttempts - attempt
    ensures forall i :: from <= i < u.next - 1 ==> launch(i).Failed?
    decreases maxAttempts - attempt
  {
    var l := launch(from);
    if !l.Failed? || attempt + 1 == maxAttempts then
      PowMonotone(attempt, maxAttempts - 1);
      Use(l, from + 1, 0)
    else
      var u := Invoke(launch, from + 1, attempt + 1, maxAttempts);
      u.(slept := u.slept + RetryDelay(l.errorType, attempt + 1))
  }

  lemma {:induction false} PowMonotone(a: nat, b: nat)
    requires a <= b
    ensures Pow2(a) <= Pow2(b)
    decreases b - a
  {
    if a < b { PowMonotone(a, b - 1); }
  }

  method InvokeClaudeCode(launch: nat -> Launch, from: nat, maxRetries: nat)
    returns (result: Launch, next: nat, slept: nat)
    requires maxRetries > 0
    ensures Use(result, next, slept) == Invoke(launch, from, 0, maxRetries)
  {
    var attempt := 0;
    next, slept := from, 0;
    while attempt < maxRetries
      invariant attempt < maxRetries && next == from + attempt
      invariant var u := Invoke(launch, next, attempt, maxRetries);
        u.(slept := u.slept + slept) == Invoke(launch, from, 0, maxRetries)
    {
      result := launch(next);
      next := next + 1;
      if !result.Failed? {
        return;
      }
      attempt := attempt + 1;
      if attempt >= maxRetries {
        return;
      }
      slept := slept + RetryDelay(result.errorType, attempt);
    }
  }

  // ---- retryWithBackoff around an invocation --------------------------------------------------

  predicate Mentions(error: string, word: string) {
    FencedJson.Contains(Ascii.Lower(error), word)
  }

  predicate IsRateLimitError(l: Launch) {
    l.Failed? && (l.errorType.RateLimit? || Mentions(l.error, "rate limit") || Mentions(l.error, "429") ||
      Mentions(l.error, "too many requests") || Mentions(l.error, "quota exceeded"))
  }

  predicate IsTimeoutError(l: Launch) {
    l.Failed? && (l.errorType.Timeout? || Mentions(l.error, "timeout") || Mentions(l.error, "timed out") ||
      Mentions(l.error, "etimedout"))
  }

  /** What `retryWithBackoff` catches: a rate limit turned into an exception, or an exception. */
  predicate Caught(l: Launch) {
    l.Threw? || IsRateLimitError(l)
  }

  /** None: the retries are exhausted. */
  function Backoff(launch: nat -> Launch, from: nat, attempt: nat, maxRetries: nat, maxAttempts: nat): (u: Use<Option<Launch>>)
    requires attempt <= maxRetries && maxAttempts > 0
    ensures u.result.Some? ==> u.next > from && u.result.value == launch(u.next - 1) && !Caught(u.result.value)
    ensures from < u.next <= from + (maxRetries - attempt + 1) * maxAttempts
    ensures u.slept <= INITIAL_RATE_LIMIT_DELAY_MS * (Pow2(maxRetries) - Pow2(attempt))
      + (maxRetries - attempt + 1) * (60000 * (Pow2(maxAttempts - 1) - 1))
    decreases maxRetries - attempt
  {
    var u := Invoke(launch, from, 0, maxAttempts);
    ScaleBound(maxRetries - attempt, maxAttempts);
    ScaleBound(maxRetries - attempt, 60000 * (Pow2(maxAttempts - 1) - 1));
    PowMonotone(attempt, maxRetries);
    if !Caught(u.result) then Use(Some(u.result), u.next, u.slept)
    else if attempt == maxRetries then Use(None, u.next, u.slept)
    else
      var v := Backoff(launch, u.next, attempt + 1, maxRetries, maxAttempts);
      v.(slept := v.slept + u.slept + INITIAL_RATE_LIMIT_DELAY_MS * Pow2(attempt))
  }

  lemma ScaleBound(n: nat, m: nat)
    ensures (n + 1) * m == n * m + m && 0 <= n * m
  {}

  method RetryWithBackoff(launch: nat -> Launch, from: nat, maxRetries: nat)
    returns (result: Option<Launch>, next: nat, slept: nat)
    ensures Use(result, next, slept) == Backoff(launch, from, 0, maxRetries, MAX_ATTEMPTS)
  {
    hide Caught, Pow2, Invoke;
    next, slept := from, 0;
    var attempt := 0;
    while attempt <= maxRetries
      invariant attempt <= maxRetries
      invariant var u := Backoff(launch, next, attempt, maxRetries, MAX_ATTEMPTS);
        u.(slept := u.slept + slept) == Backoff(launch, from, 0, maxRetries, MAX_ATTEMPTS)
    {
      var ir, n, s := InvokeClaudeCode(launch, next, MAX_ATTEMPTS);
      next, slept := n, slept + s;
      if !Caught(ir) {
        return Some(ir), next, slept;
      }
      if attempt == maxRetries {
        return None, next, slept;
      }
      slept := slept + INITIAL_RATE_LIMIT_DELAY_MS * Pow2(attempt);
      attempt := attempt + 1;
    }
  }

  // ---- Reading the reply, with a further invocation if it is malformed ------------------------

  datatype ReplyError = BadReply(e: ParseError) | NoVerifications

  /** The messages that mention "json", "parse", "unexpected token" or "malformed". */
  predicate IsJsonParseError(e: ReplyError) {
    e == BadReply(NoJsonFound) || e == NoVerifications
  }

  /** What a reader makes of a reply; the retries depend on it only through its verdict. */
  type Reader = string -> Result<seq<Verification>, ReplyError>

  /** Why a request comes to nothing; every case becomes a NOT_TESTED result. */
  datatype Failure =
    | RateLimitExhausted
    | TimedOut
    | InvocationFailed(launch: Launch)
    | RetryFailed(launch: Launch)
    | RetryThrew(error: string)
    | Unparseable(retries: nat, why: ReplyError)

  datatype Answer = Answer(output: string, verifications: seq<Verification>)

  predicate Answered(l: Launch) {
    l.Succeeded? && l.output != ""
  }

  /** An answer is the output of the last launch, as the reader reads it. */
  ghost predicate IsAnswer(read: Reader, launch: nat -> Launch, u: Use<Result<Answer, Failure>>) {
    u.result.Ok? ==> (
      && u.next > 0
      && launch(u.next - 1) == Succeeded(u.result.value.output)
      && read(u.result.value.output) == Ok(u.result.value.verifications))
  }

  function ReadWithRetry(read: Reader, launch: nat -> Launch, from: nat, output: string, retries: nat, maxRetries: nat, maxAttempts: nat)
    : (u: Use<Result<Answer, Failure>>)
    requires retries <= maxRetries && maxAttempts > 0 && from > 0 && launch(from - 1) == Succeeded(output)
    ensures IsAnswer(read, launch, u)
    ensures from <= u.next <= from + (maxRetries - retries) * maxAttempts
    ensures u.slept <= (maxRetries - retries) * (60000 * (Pow2(maxAttempts - 1) - 1))
    decreases maxRetries - retries
  {
    match read(output)
    case Ok(vs) => Bounds(maxRetries - retries, maxAttempts); Use(Ok(Answer(output, vs)), from, 0)
    case Err(e) =>
      Bounds(maxRetries - retries, maxAttempts);
      if !(IsJsonParseError(e) && retries < maxRetries) then Use(Err(Unparseable(retries, e)), from, 0) else
        var u := Invoke(launch, from, 0, maxAttempts);
        Bounds(maxRetries - retries - 1, maxAttempts);
        if u.result.Threw? then Use(Err(RetryThrew(u.result.error)), u.next, u.slept)
        else if !Answered(u.result) then Use(Err(RetryFailed(u.result)), u.next, u.slept)
        else
          var v := ReadWithRetry(read, launch, u.next, u.result.output, retries + 1, maxRetries, maxAttempts);
          v.(slept := v.slept + u.slept)
  }

  lemma Bounds(n: nat, maxAttempts: nat)
    requires maxAttempts > 0
    ensures 0 <= n * maxAttempts && (n + 1) * maxAttempts == n * maxAttempts + maxAttempts
    ensures var w := 60000 * (Pow2(maxAttempts - 1) - 1); 0 <= n * w && (n + 1) * w == n * w + w
  {}

  /** The whole request of one batch. */
  function Ask(read: Reader, launch: nat -> Launch, maxRateRetries: nat, maxAttempts: nat, maxParseRetries: nat)
    : (u: Use<Result<Answer, Failure>>)
    requires maxAttempts > 0
    ensures IsAnswer(read, launch, u)
    ensures 0 < u.next <= (maxRateRetries + 1) * maxAttempts + maxParseRetries * maxAttempts
    ensures u.slept <= INITIAL_RATE_LIMIT_DELAY_MS * (Pow2(maxRateRetries) - 1)
      + (maxRateRetries + 1 + maxParseRetries) * (60000 * (Pow2(maxAttempts - 1) - 1))
  {
    var u := Backoff(launch, 0, 0, maxRateRetries, maxAttempts);
    SumBound(maxRateRetries + 1, maxParseRetries, 60000 * (Pow2(maxAttempts - 1) - 1));
    SumBound(0, maxParseRetries, maxAttempts);
    match u.result
    case None => Use(Err(RateLimitExhausted), u.next, u.slept)
    case Some(l) =>
      if IsTimeoutError(l) then Use(Err(TimedOut), u.next, u.slept)
      else if !Answered(l) then Use(Err(InvocationFailed(l)), u.next, u.slept)
      else
        var v := ReadWithRetry(read, launch, u.next, l.output, 0, maxParseRetries, maxAttempts);
        v.(slept := v.slept + u.slept)
  }

  lemma SumBound(a: nat, b: nat, m: nat)
    ensures (a + b) * m == a * m + b * m && 0 <= a * m && 0 <= b * m
  {}

  function AskInForce(read: Reader, launch: nat -> Launch): Use<Result<Answer, Failure>> {
    Ask(read, launch, MAX_RATE_LIMIT_RETRIES, MAX_ATTEMPTS, MAX_JSON_PARSE_RETRIES)
  }

  method AskModel(read: Reader, launch: nat -> Launch) returns (answer: Result<Answer, Failure>, next: nat, slept: nat)
    ensures Use(answer, next, slept) == AskInForce(read, launch)
  {
    hide IsTimeoutError, Backoff, Invoke, IsJsonParseError, Pow2, ReadWithRetry;
    var limited;
    limited, next, slept := RetryWithBackoff(launch, 0, MAX_RATE_LIMIT_RETRIES);
    if limited.None? { return Err(RateLimitExhausted), next, slept; }
    var invocation := limited.value;
    if IsTimeoutError(invocation) { return Err(TimedOut), next, slept; }
    if !Answered(invocation) { return Err(InvocationFailed(invocation)), next, slept; }
    var outputToParse := invocation.output;
    var jsonParseRetryCount := 0;
    var parseSuccessful := false;
    answer := Err(TimedOut);
    while !parseSuccessful && jsonParseRetryCount <= MAX_JSON_PARSE_RETRIES
      invariant jsonParseRetryCount <= MAX_JSON_PARSE_RETRIES
      invariant next > 0 && launch(next - 1) == Succeeded(outputToParse)
      invariant var u := ReadWithRetry(read, launch, next, outputToParse, jsonParseRetryCount, MAX_JSON_PARSE_RETRIES, MAX_ATTEMPTS);
        u.(slept := u.slept + slept) == AskInForce(read, launch)
      invariant parseSuccessful ==> Use(answer, next, slept) == AskInForce(read, launch)
      decreases MAX_JSON_PARSE_RETRIES - jsonParseRetryCount, !parseSuccessful
    {
      ReadStep(read, launch, next, outputToParse, jsonParseRetryCount, MAX_JSON_PARSE_RETRIES, MAX_ATTEMPTS);
      match read(outputToParse) {
        case Ok(verifications) =>
          answer := Ok(Answer(outputToParse, verifications));
          parseSuccessful := true;
        case Err(e) =>
          if !(IsJsonParseError(e) && jsonParseRetryCount < MAX_JSON_PARSE_RETRIES) {
            return Err(Unparseable(jsonParseRetryCount, e)), next, slept;
          }
          jsonParseRetryCount := jsonParseRetryCount + 1;
          var retryResult, n, s := InvokeClaudeCode(launch, next, MAX_ATTEMPTS);
          next, slept := n, slept + s;
          if retryResult.Threw? {
            return Err(RetryThrew(retryResult.error)), next, slept;
          }
          if !Answered(retryResult) {
            return Err(RetryFailed(retryResult)), next, slept;
          }
          outputToParse := retryResult.output;
      }
    }
  }

  /** One round of the loop, as the specification sees it. */
  lemma ReadStep(read: Reader, launch: nat -> Launch, from: nat, output: string, retries: nat, maxRetries: nat, maxAttempts: nat)
    requires retries <= maxRetries && maxAttempts > 0 && from > 0 && launch(from - 1) == Succeeded(output)
    ensures var now := ReadWithRetry(read, launch, from, output, retries, maxRetries, maxAttempts);
      match read(output)
      case Ok(vs) => now == Use(Result.Ok(Answer(output, vs)), from, 0)
      case Err(e) =>
        if !(IsJsonParseError(e) && retries < maxRetries) then now == Use(Err(Unparseable(retries, e)), from, 0)
        else
          var u := Invoke(launch, from, 0, maxAttempts);
          if u.result.Threw? then now == Use(Err(RetryThrew(u.result.error)), u.next, u.slept)
          else if !Answered(u.result) then now == Use(Err(RetryFailed(u.result)), u.next, u.slept)
          else
            var v := ReadWithRetry(read, launch, u.next, u.result.output, retries + 1, maxRetries, maxAttempts);
            now == v.(slept := v.slept + u.slept)
  {
    hide Invoke, IsJsonParseError, Pow2;
  }

  /** The budget of one batch with the constants in force: 15 launches and 22 minutes of sleep ... */
  lemma BatchBudget(read: Reader, launch: nat -> Launch)
    ensures AskInForce(read, launch).next <= 15 && AskInForce(read, launch).slept <= 1320000
  {
    assert Pow2(3) == 8 && Pow2(2) == 4;
  }

  /** Eleven rate limits, a reply that cannot be read, and three more rate limits. */
  function WorstCase(i: nat): Launch {
    if i == 11 then Succeeded("?") else Failed(RateLimit, "")
  }

  /** ... and both bounds are reached. */
  lemma BudgetIsTight(read: Reader)
    requires read("?") == Err(BadReply(NoJsonFound))
    ensures AskInForce(read, WorstCase).next == 15 && AskInForce(read, WorstCase).slept == 1320000
  {
    hide Mentions, Backoff;
    BackoffWorst();
    InvokeWorst(12);
  }

  lemma BackoffWorst()
    ensures Backoff(WorstCase, 0, 0, 3, 3) == Use(Some(Succeeded("?")), 12, 1140000)
  {
    hide Mentions, Invoke;
    InvokeWorst(0);
    InvokeWorst(3);
    InvokeWorst(6);
    InvokeWorst(9);
    assert Pow2(0) == 1 && Pow2(1) == 2 && Pow2(2) == 4;
    assert Backoff(WorstCase, 9, 3, 3, 3) == Use(Some(Succeeded("?")), 12, 180000);
    assert Backoff(WorstCase, 6, 2, 3, 3) == Use(Some(Succeeded("?")), 12, 600000);
    assert Backoff(WorstCase, 3, 1, 3, 3) == Use(Some(Succeeded("?")), 12, 900000);
  }

  lemma InvokeWorst(from: nat)
    requires from != 11 && from + 1 != 11
    ensures Invoke(WorstCase, from, 0, 3) == Use(WorstCase(from + 2), from + 3, 180000)
  {
    InvokeLast(from + 2);
    assert Pow2(0) == 1 && Pow2(1) == 2;
    hide Pow2;
    assert Invoke(WorstCase, from + 1, 1, 3) == Use(WorstCase(from + 2), from + 3, 120000);
  }

  lemma InvokeLast(from: nat)
    ensures Invoke(WorstCase, from, 2, 3) == Use(WorstCase(from), from + 1, 0)
  {}
}
