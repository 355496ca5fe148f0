/** What the request of one batch comes to, told from the launches alone. */
module RetryOutcomes {
  import opened Wrappers
  import opened ResultParser
  import opened Retry
  import Ascii
  import FencedJson

  // ---- What is retried ------------------------------------------------------------------------

  /** A letter of a message matches a letter of a phrase in small letters, whatever its case. */
  predicate Matches(c: char, p: char) {
    c == p || ('A' <= c <= 'Z' && c as int + 32 == p as int)
  }

  predicate SaysAt(error: string, phrase: string, i: nat) {
    i + |phrase| <= |error| && forall k :: 0 <= k < |phrase| ==> Matches(error[i + k], phrase[k])
  }

  ghost predicate Says(error: string, phrase: string) {
    exists i: nat :: SaysAt(error, phrase, i)
  }

  predicate Small(phrase: string) {
    forall k :: 0 <= k < |phrase| ==> !('A' <= phrase[k] <= 'Z')
  }

  lemma SaysAtIff(error: string, phrase: string, i: nat)
    requires Small(phrase)
    ensures SaysAt(error, phrase, i) <==> FencedJson.At(Ascii.Lower(error), phrase, i)
  {
    var s := Ascii.Lower(error);
    if i + |phrase| <= |error| {
      var part := s[i..i + |phrase|];
      assert forall k :: 0 <= k < |phrase| ==> part[k] == s[i + k];
      if SaysAt(error, phrase, i) { assert part == phrase; }
    }
  }

  lemma SaysIff(error: string, phrase: string)
    requires Small(phrase)
    ensures Mentions(error, phrase) <==> Says(error, phrase)
  {
    hide SaysAt, FencedJson.At, Small;
    var s := Ascii.Lower(error);
    if Says(error, phrase) {
      var i: nat :| SaysAt(error, phrase, i);
      SaysAtIff(error, phrase, i);
      AtWithin(s, phrase, i);
    }
    if Mentions(error, phrase) {
      var i :| 0 <= i <= |s| && FencedJson.At(s, phrase, i);
      SaysAtIff(error, phrase, i);
    }
  }

  lemma AtWithin(s: string, phrase: string, i: nat)
    requires FencedJson.At(s, phrase, i)
    ensures FencedJson.Contains(s, phrase)
  {}

  const LIMIT_PHRASES: set<string> := {"rate limit", "429", "too many requests", "quota exceeded"}
  const TIMEOUT_PHRASES: set<string> := {"timeout", "timed out", "etimedout"}

  /** An exception or a rate limit. */
  ghost predicate RetriedAfter(l: Launch) {
    l.Threw? || RateLimited(l)
  }

  /** A failure that is a rate limit by its type or its message. */
  ghost predicate RateLimited(l: Launch) {
    l.Failed? && (l.errorType == RateLimit || exists phrase :: phrase in LIMIT_PHRASES && Says(l.error, phrase))
  }

  ghost predicate TimesOut(l: Launch) {
    l.Failed? && (l.errorType == Timeout || exists phrase :: phrase in TIMEOUT_PHRASES && Says(l.error, phrase))
  }

  lemma SmallPhrases()
    ensures forall phrase :: phrase in LIMIT_PHRASES + TIMEOUT_PHRASES ==> Small(phrase)
  {}

  /** Exactly rate limits and exceptions are retried with backoff. */
  lemma CaughtIff(l: Launch)
    ensures Caught(l) <==> RetriedAfter(l)
    ensures IsTimeoutError(l) <==> TimesOut(l)
  {
    hide Mentions, Says, Small;
    SmallPhrases();
    if l.Failed? {
      forall phrase | phrase in LIMIT_PHRASES + TIMEOUT_PHRASES ensures Mentions(l.error, phrase) <==> Says(l.error, phrase) {
        SaysIff(l.error, phrase);
      }
    }
  }

  // ---- One invocation -------------------------------------------------------------------------

  /** An invocation that starts with launch `from` ends with launch `e`: the first one that does not fail,
      or the last one allowed. */
  ghost predicate EndsAt(launch: nat -> Launch, from: nat, maxAttempts: nat, e: nat) {
    && from <= e < from + maxAttempts
    && (forall i :: from <= i < e ==> launch(i).Failed?)
    && (launch(e).Failed? ==> e == from + maxAttempts - 1)
  }

  /** A minute after a rate limit, five seconds after any other failure. */
  function BaseDelay(l: Launch): nat {
    if l.Failed? && l.errorType == RateLimit then 60000 else 5000
  }

  /** The sleep between launches `from` and `e`: the delay doubles every time. */
  function Slept(launch: nat -> Launch, from: nat, e: nat): nat
    requires from <= e
    decreases e - from
  {
    if e == from then 0 else Slept(launch, from, e - 1) + BaseDelay(launch(e - 1)) * Pow2(e - 1 - from)
  }

  lemma {:induction false} InvokeFrom(launch: nat -> Launch, from: nat, maxAttempts: nat, e: nat, i: nat)
    requires EndsAt(launch, from, maxAttempts, e) && from <= i <= e
    ensures var u := Invoke(launch, i, i - from, maxAttempts);
      u.result == launch(e) && u.next == e + 1 && Slept(launch, from, i) + u.slept == Slept(launch, from, e)
    decreases e - i
  {
    hide Pow2;
    if i < e { InvokeFrom(launch, from, maxAttempts, e, i + 1); }
  }

  lemma InvokeIs(launch: nat -> Launch, from: nat, maxAttempts: nat, e: nat)
    requires EndsAt(launch, from, maxAttempts, e)
    ensures Invoke(launch, from, 0, maxAttempts) == Use(launch(e), e + 1, Slept(launch, from, e))
  {
    InvokeFrom(launch, from, maxAttempts, e, from);
  }

  lemma {:induction false} SomeEnd(launch: nat -> Launch, from: nat, maxAttempts: nat) returns (e: nat)
    requires maxAttempts > 0
    ensures EndsAt(launch, from, maxAttempts, e)
    decreases maxAttempts
  {
    if maxAttempts == 1 || !launch(from).Failed? { e := from; } else { e := SomeEnd(launch, from + 1, maxAttempts - 1); }
  }

  // ---- Invocations one after the other --------------------------------------------------------

  function Start(ends: seq<nat>, k: nat): nat
    requires k <= |ends|
  {
    if k == 0 then 0 else ends[k - 1] + 1
  }

  /** Invocations that end with these launches, each but possibly the last with one that is retried. */
  ghost predicate Retried(launch: nat -> Launch, maxAttempts: nat, ends: seq<nat>) {
    && (forall k :: 0 <= k < |ends| ==> Start(ends, k) <= ends[k] && EndsAt(launch, Start(ends, k), maxAttempts, ends[k]))
    && (forall k :: 0 <= k < |ends| - 1 ==> RetriedAfter(launch(ends[k])))
  }

  /** The sleep within the invocations up to number `k`. */
  ghost function SleptWithin(launch: nat -> Launch, ends: seq<nat>, k: nat): nat
    requires k <= |ends| && forall i :: 0 <= i < |ends| ==> Start(ends, i) <= ends[i]
  {
    if k == 0 then 0 else SleptWithin(launch, ends, k - 1) + Slept(launch, Start(ends, k - 1), ends[k - 1])
  }

  /** Between them it is one minute, two, four and so on. */
  ghost function TotalSlept(launch: nat -> Launch, ends: seq<nat>): int
    requires ends != [] && forall i :: 0 <= i < |ends| ==> Start(ends, i) <= ends[i]
  {
    SleptWithin(launch, ends, |ends|) + 60000 * (Pow2(|ends| - 1) - 1)
  }

  lemma BackoffStep(launch: nat -> Launch, from: nat, attempt: nat, maxRetries: nat, maxAttempts: nat, e: nat)
    requires attempt <= maxRetries && EndsAt(launch, from, maxAttempts, e)
    ensures var u := Backoff(launch, from, attempt, maxRetries, maxAttempts);
      var l, slept := launch(e), Slept(launch, from, e);
      if !RetriedAfter(l) then u == Use(Some(l), e + 1, slept)
      else if attempt == maxRetries then u == Use(None, e + 1, slept)
      else
        var v := Backoff(launch, e + 1, attempt + 1, maxRetries, maxAttempts);
        u == Use(v.result, v.next, v.slept + slept + 60000 * Pow2(attempt))
  {
    hide RetriedAfter, Caught, Invoke, Slept, Pow2;
    InvokeIs(launch, from, maxAttempts, e);
    CaughtIff(launch(e));
  }

  lemma {:induction false} BackoffFrom(launch: nat -> Launch, ends: seq<nat>, k: nat, maxRetries: nat, maxAttempts: nat)
    requires Retried(launch, maxAttempts, ends) && k < |ends| <= maxRetries + 1 && maxAttempts > 0
    requires RetriedAfter(launch(ends[|ends| - 1])) ==> |ends| == maxRetries + 1
    ensures var last := launch(ends[|ends| - 1]);
      var u := Backoff(launch, Start(ends, k), k, maxRetries, maxAttempts);
      && u.result == (if RetriedAfter(last) then None else Some(last))
      && u.next == ends[|ends| - 1] + 1
      && SleptWithin(launch, ends, k) + u.slept == SleptWithin(launch, ends, |ends|) + 60000 * (Pow2(|ends| - 1) - Pow2(k))
    decreases |ends| - k
  {
    hide RetriedAfter, Backoff, Slept, Pow2, EndsAt, SleptWithin, Start;
    StartNext(ends, k);
    BackoffStep(launch, Start(ends, k), k, maxRetries, maxAttempts, ends[k]);
    PowNext(k);
    SleptNext(launch, ends, k);
    if k < |ends| - 1 {
      BackoffFrom(launch, ends, k + 1, maxRetries, maxAttempts);
    }
  }

  lemma SleptNext(launch: nat -> Launch, ends: seq<nat>, k: nat)
    requires k < |ends| && forall i :: 0 <= i < |ends| ==> Start(ends, i) <= ends[i]
    ensures SleptWithin(launch, ends, k + 1) == SleptWithin(launch, ends, k) + Slept(launch, Start(ends, k), ends[k])
  {}

  lemma StartNext(ends: seq<nat>, k: nat)
    requires k < |ends|
    ensures Start(ends, k + 1) == ends[k] + 1 && Start(ends, 0) == 0
  {}

  lemma RetriedMore(launch: nat -> Launch, maxAttempts: nat, ends: seq<nat>, e: nat)
    requires Retried(launch, maxAttempts, ends) && EndsAt(launch, Start(ends, |ends|), maxAttempts, e)
    requires ends != [] ==> RetriedAfter(launch(ends[|ends| - 1]))
    ensures Retried(launch, maxAttempts, ends + [e])
  {
    hide RetriedAfter, Start, EndsAt;
    EndIsLater(launch, Start(ends, |ends|), maxAttempts, e);
    forall k | 0 <= k < |ends + [e]| ensures Start(ends + [e], k) <= (ends + [e])[k] && EndsAt(launch, Start(ends + [e], k), maxAttempts, (ends + [e])[k]) {
      StartSame(ends, e, k);
    }
  }

  lemma EndIsLater(launch: nat -> Launch, from: nat, maxAttempts: nat, e: nat)
    requires EndsAt(launch, from, maxAttempts, e)
    ensures from <= e
  {}

  lemma StartSame(ends: seq<nat>, e: nat, k: nat)
    requires k <= |ends|
    ensures Start(ends + [e], k) == Start(ends, k)
  {}

  lemma PowNext(k: nat)
    ensures Pow2(k + 1) == 2 * Pow2(k) && Pow2(0) == 1
  {}

  /** For every stream of launches there are such invocations, up to one that is not retried or to the
      last one allowed. */
  lemma {:induction false} SomeEnds(launch: nat -> Launch, maxRetries: nat, maxAttempts: nat) returns (ends: seq<nat>)
    requires maxAttempts > 0
    ensures Retried(launch, maxAttempts, ends) && 0 < |ends| <= maxRetries + 1
    ensures RetriedAfter(launch(ends[|ends| - 1])) ==> |ends| == maxRetries + 1
  {
    hide RetriedAfter, EndsAt, Retried, Start;
    if maxRetries == 0 {
      NothingRetried(launch, maxAttempts);
      var e := SomeEnd(launch, 0, maxAttempts);
      RetriedMore(launch, maxAttempts, [], e);
      ends := [] + [e];
    } else {
      ends := SomeEnds(launch, maxRetries - 1, maxAttempts);
      if RetriedAfter(launch(ends[|ends| - 1])) {
        var e := SomeEnd(launch, Start(ends, |ends|), maxAttempts);
        RetriedMore(launch, maxAttempts, ends, e);
        ends := ends + [e];
      }
    }
  }

  lemma NothingRetried(launch: nat -> Launch, maxAttempts: nat)
    ensures Retried(launch, maxAttempts, []) && Start([], 0) == 0
  {}

  // ---- The whole request ----------------------------------------------------------------------

  /** Whether the chain of invocations is complete: it ends with one that is not retried, or the retries
      are used up. */
  ghost predicate Complete(launch: nat -> Launch, maxRetries: nat, maxAttempts: nat, ends: seq<nat>) {
    && Retried(launch, maxAttempts, ends) && 0 < |ends| <= maxRetries + 1
    && (RetriedAfter(launch(ends[|ends| - 1])) ==> |ends| == maxRetries + 1)
  }

  lemma BackoffIs(launch: nat -> Launch, maxRetries: nat, maxAttempts: nat, ends: seq<nat>)
    requires maxAttempts > 0 && Complete(launch, maxRetries, maxAttempts, ends)
    ensures var e := ends[|ends| - 1];
      Backoff(launch, 0, 0, maxRetries, maxAttempts)
        == Use(if RetriedAfter(launch(e)) then None else Some(launch(e)), e + 1, TotalSlept(launch, ends))
  {
    hide RetriedAfter, Backoff, Slept, Pow2, EndsAt;
    BackoffFrom(launch, ends, 0, maxRetries, maxAttempts);
    PowNext(0);
  }

  /** A request fails for its rate limit if and only if each of its invocations ends with a rate limit
      or an exception. */
  lemma RateLimitExhaustedIff(read: Reader, launch: nat -> Launch, maxRetries: nat, maxAttempts: nat, maxParseRetries: nat)
    requires maxAttempts > 0
    ensures Ask(read, launch, maxRetries, maxAttempts, maxParseRetries).result == Err(RateLimitExhausted)
      <==> exists ends :: Retried(launch, maxAttempts, ends) && |ends| == maxRetries + 1 && RetriedAfter(launch(ends[maxRetries]))
  {
    hide RetriedAfter, Backoff, Retried, Pow2, Invoke, ReadWithRetry;
    var ends := SomeEnds(launch, maxRetries, maxAttempts);
    BackoffIs(launch, maxRetries, maxAttempts, ends);
    NotExhausted(read, launch, maxRetries, maxAttempts, maxParseRetries);
    if all :| Retried(launch, maxAttempts, all) && |all| == maxRetries + 1 && RetriedAfter(launch(all[maxRetries])) {
      BackoffIs(launch, maxRetries, maxAttempts, all);
    }
  }

  lemma {:induction false} ReadNotExhausted(read: Reader, launch: nat -> Launch, from: nat, output: string, retries: nat, maxRetries: nat, maxAttempts: nat)
    requires retries <= maxRetries && maxAttempts > 0 && from > 0 && launch(from - 1) == Launch.Succeeded(output)
    ensures ReadWithRetry(read, launch, from, output, retries, maxRetries, maxAttempts).result != Err(RateLimitExhausted)
    decreases maxRetries - retries
  {
    hide ReadWithRetry, Invoke;
    ReadStep(read, launch, from, output, retries, maxRetries, maxAttempts);
    var u := Invoke(launch, from, 0, maxAttempts);
    if read(output).Err? && retries < maxRetries && Answered(u.result) {
      ReadNotExhausted(read, launch, u.next, u.result.output, retries + 1, maxRetries, maxAttempts);
    }
  }

  lemma NotExhausted(read: Reader, launch: nat -> Launch, maxRetries: nat, maxAttempts: nat, maxParseRetries: nat)
    requires maxAttempts > 0
    ensures var u := Backoff(launch, 0, 0, maxRetries, maxAttempts);
      Ask(read, launch, maxRetries, maxAttempts, maxParseRetries).result == Err(RateLimitExhausted) <==> u.result == None
  {
    hide Backoff, ReadWithRetry, Pow2, IsTimeoutError;
    var u := Backoff(launch, 0, 0, maxRetries, maxAttempts);
    if u.result.Some? && Answered(u.result.value) {
      ReadNotExhausted(read, launch, u.next, u.result.value.output, 0, maxParseRetries, maxAttempts);
    }
  }

  /** What a further invocation, after a reply that cannot be read, comes to. */
  function SecondOutcome(read: Reader, l: Launch): Result<Answer, Failure> {
    match l
    case Threw(error) => Err(RetryThrew(error))
    case Failed(_, _) => Err(RetryFailed(l))
    case Succeeded(output) =>
      if output == "" then Err(RetryFailed(l)) else
        match read(output) case Ok(vs) => Result.Ok(Answer(output, vs)) case Err(why) => Err(Unparseable(1, why))
  }

  /** What a request comes to with the constants in force, given where its invocations end: what the last
      one says decides, and only a reply without JSON or without verifications is asked for again, once. */
  lemma AskIs(read: Reader, launch: nat -> Launch, ends: seq<nat>, f: nat)
    requires Complete(launch, 3, 3, ends) && EndsAt(launch, ends[|ends| - 1] + 1, 3, f)
    ensures var u, e := AskInForce(read, launch), ends[|ends| - 1];
      var slept := TotalSlept(launch, ends);
      match launch(e)
      case Threw(_) => u == Use(Err(RateLimitExhausted), e + 1, slept)
      case Failed(_, _) =>
        if RateLimited(launch(e)) then u == Use(Err(RateLimitExhausted), e + 1, slept)
        else if TimesOut(launch(e)) then u == Use(Err(TimedOut), e + 1, slept)
        else u == Use(Err(InvocationFailed(launch(e))), e + 1, slept)
      case Succeeded(output) =>
        if output == "" then u == Use(Err(InvocationFailed(launch(e))), e + 1, slept) else
          match read(output)
          case Ok(vs) => u == Use(Result.Ok(Answer(output, vs)), e + 1, slept)
          case Err(BadReply(NotAnObject)) => u == Use(Err(Unparseable(0, BadReply(NotAnObject))), e + 1, slept)
          case Err(BadReply(MissingArray)) => u == Use(Err(Unparseable(0, BadReply(MissingArray))), e + 1, slept)
          case Err(_) => u == Use(SecondOutcome(read, launch(f)), f + 1, slept + Slept(launch, e + 1, f))
  {
    hide Backoff, Invoke, Slept, Pow2, EndsAt, Retried, TotalSlept, ReadWithRetry, IsTimeoutError, RateLimited, TimesOut, Ask;
    var e := ends[|ends| - 1];
    BackoffIs(launch, 3, 3, ends);
    CaughtIff(launch(e));
    AskStep(read, launch);
    OnlyFailuresLimit(launch(e));
    if launch(e).Succeeded? && launch(e).output != "" { ReadIs(read, launch, e, f); }
  }

  lemma OnlyFailuresLimit(l: Launch)
    ensures RateLimited(l) || TimesOut(l) ==> l.Failed?
  {}

  lemma AskStep(read: Reader, launch: nat -> Launch)
    ensures var u := Backoff(launch, 0, 0, 3, 3);
      var now := AskInForce(read, launch);
      match u.result
      case None => now == Use(Err(RateLimitExhausted), u.next, u.slept)
      case Some(l) =>
        if IsTimeoutError(l) then now == Use(Err(TimedOut), u.next, u.slept)
        else if !Answered(l) then now == Use(Err(InvocationFailed(l)), u.next, u.slept)
        else
          var v := ReadWithRetry(read, launch, u.next, l.output, 0, 1, 3);
          now == Use(v.result, v.next, v.slept + u.slept)
  {
    hide Backoff, ReadWithRetry, IsTimeoutError, Pow2;
  }

  lemma ReadIs(read: Reader, launch: nat -> Launch, e: nat, f: nat)
    requires launch(e).Succeeded? && launch(e).output != "" && EndsAt(launch, e + 1, 3, f)
    ensures var u := ReadWithRetry(read, launch, e + 1, launch(e).output, 0, 1, 3);
      match read(launch(e).output)
      case Ok(vs) => u == Use(Result.Ok(Answer(launch(e).output, vs)), e + 1, 0)
      case Err(BadReply(NotAnObject)) => u == Use(Err(Unparseable(0, BadReply(NotAnObject))), e + 1, 0)
      case Err(BadReply(MissingArray)) => u == Use(Err(Unparseable(0, BadReply(MissingArray))), e + 1, 0)
      case Err(_) => u == Use(SecondOutcome(read, launch(f)), f + 1, Slept(launch, e + 1, f))
  {
    hide Invoke, Slept, EndsAt, ReadWithRetry;
    InvokeIs(launch, e + 1, 3, f);
    ReadStep(read, launch, e + 1, launch(e).output, 0, 1, 3);
    if launch(f).Succeeded? && launch(f).output != "" { ReadStep(read, launch, f + 1, launch(f).output, 1, 1, 3); }
  }

  /** An ordinary failure is not retried with backoff: three launches, the delays between them, and the
      failure of the last one is what the request comes to. */
  lemma PlainFailureIsFinal(read: Reader, launch: nat -> Launch)
    requires launch(0).Failed? && launch(1).Failed? && launch(2).Failed? && !RateLimited(launch(2))
    ensures var why := if TimesOut(launch(2)) then TimedOut else InvocationFailed(launch(2));
      AskInForce(read, launch) == Use(Err(why), 3, BaseDelay(launch(0)) + 2 * BaseDelay(launch(1)))
  {
    hide RateLimited, TimesOut, AskInForce, BaseDelay;
    var f := SomeEnd(launch, 3, 3);
    FirstInvocation(launch);
    AskIs(read, launch, [2], f);
  }

  lemma FirstInvocation(launch: nat -> Launch)
    requires launch(0).Failed? && launch(1).Failed? && launch(2).Failed? && !RateLimited(launch(2))
    ensures Complete(launch, 3, 3, [2])
    ensures TotalSlept(launch, [2]) == BaseDelay(launch(0)) + 2 * BaseDelay(launch(1))
  {
    hide RateLimited, BaseDelay;
    assert Pow2(0) == 1 && Pow2(1) == 2;
    assert Slept(launch, 0, 0) == 0 && Slept(launch, 0, 1) == BaseDelay(launch(0));
    assert Slept(launch, 0, 2) == BaseDelay(launch(0)) + 2 * BaseDelay(launch(1));
    assert SleptWithin(launch, [2], 0) == 0;
  }
}
