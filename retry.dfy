/**
 * `retryWithBackoff` (appsumo-crawler.js:21-38) and the error tests the crawl
 * loops apply to a failed scrape (appsumo-crawler.js:120-127, 1236-1243).
 *
 * The scrape is an oracle: `op(k)` is what the k-th attempt (from 0) returns or
 * throws. Sleeping is recorded as the list of delays asked for, in order.
 */
module Retry {
  import opened Wrappers
  import opened Text

  /** A thrown error; JavaScript errors may lack either property. */
  datatype FetchError = FetchError(statusCode: Option<int>, message: Option<string>)

  /** What one call of the scrape does: return a document or throw. */
  datatype Fetched<D> = Ok(doc: D) | Err(error: FetchError)

  /** `error.message?.includes(t)`: `t` occurs at some position of the message. */
  predicate MessageHas(e: FetchError, t: string) {
    e.message.Some? && exists j | 0 <= j <= |e.message.value| :: OccursAt(e.message.value, t, j)
  }

  /** `error.statusCode === n`. */
  predicate StatusIs(e: FetchError, n: int) {
    e.statusCode == Some(n)
  }

  /** The only errors `retryWithBackoff` retries (line 26). */
  predicate Is429(e: FetchError) {
    MessageHas(e, "429") || StatusIs(e, 429)
  }

  /** `isTimeout` of lines 121-122 and 1237-1238. */
  predicate IsTimeout(e: FetchError) {
    MessageHas(e, "408") || StatusIs(e, 408) || MessageHas(e, "timed out") || MessageHas(e, "timeout")
  }

  /** `isServerError` of lines 123-125 and 1239-1241. */
  predicate IsServerError(e: FetchError) {
    MessageHas(e, "502") || StatusIs(e, 502) || MessageHas(e, "503") || StatusIs(e, 503)
    || MessageHas(e, "504") || StatusIs(e, 504)
  }

  /** Errors that put a URL on the rate-limited list instead of dropping it (lines 127, 1243). */
  predicate IsSetAside(e: FetchError) {
    Is429(e) || IsTimeout(e) || IsServerError(e)
  }

  function Pow2(n: nat): (r: nat)
    ensures r >= 1
  {
    if n == 0 then 1 else 2 * Pow2(n - 1)
  }

  /** How a call of `retryWithBackoff` ends: the document, the error it rethrows, or
      `undefined` when the loop never runs (maxRetries <= 0). */
  datatype RetryOutcome<D> = Succeeded(doc: D) | Threw(error: FetchError) | NoAttempt

  /** A whole call: its outcome, the delays it slept for, and how many attempts it made. */
  datatype RetryRun<D> = RetryRun(outcome: RetryOutcome<D>, delays: seq<int>, attempts: nat)

  /** The rest of a call from attempt number `attempt` on. */
  function RetryFrom<D>(op: nat -> Fetched<D>, maxRetries: int, baseDelay: int, attempt: nat): RetryRun<D>
    decreases maxRetries - attempt
  {
    if attempt >= maxRetries then RetryRun(NoAttempt, [], 0)
    else
      match op(attempt)
      case Ok(d) => RetryRun(Succeeded(d), [], 1)
      case Err(e) =>
        if Is429(e) && attempt != maxRetries - 1 then
          var rest := RetryFrom(op, maxRetries, baseDelay, attempt + 1);
          RetryRun(rest.outcome, [baseDelay * Pow2(attempt)] + rest.delays, 1 + rest.attempts)
        else
          RetryRun(Threw(e), [], 1)
  }

  /** `retryWithBackoff(op, maxRetries, baseDelay)` as a value. */
  function RetrySpec<D>(op: nat -> Fetched<D>, maxRetries: int, baseDelay: int): RetryRun<D> {
    RetryFrom(op, maxRetries, baseDelay, 0)
  }

  /** A retried attempt: one delay, then the rest of the call. */
  lemma RetryStep<D>(op: nat -> Fetched<D>, maxRetries: int, baseDelay: int, attempt: nat)
    requires attempt < maxRetries - 1 && op(attempt).Err? && Is429(op(attempt).error)
    ensures RetryFrom(op, maxRetries, baseDelay, attempt).outcome == RetryFrom(op, maxRetries, baseDelay, attempt + 1).outcome
    ensures RetryFrom(op, maxRetries, baseDelay, attempt).delays
      == [baseDelay * Pow2(attempt)] + RetryFrom(op, maxRetries, baseDelay, attempt + 1).delays
    ensures RetryFrom(op, maxRetries, baseDelay, attempt).attempts == 1 + RetryFrom(op, maxRetries, baseDelay, attempt + 1).attempts
  {
  }

  /** An attempt that is not retried ends the call. */
  lemma RetryStop<D>(op: nat -> Fetched<D>, maxRetries: int, baseDelay: int, attempt: nat)
    requires attempt < maxRetries
    requires op(attempt).Err? ==> !Is429(op(attempt).error) || attempt == maxRetries - 1
    ensures op(attempt).Ok? ==> RetryFrom(op, maxRetries, baseDelay, attempt) == RetryRun(Succeeded(op(attempt).doc), [], 1)
    ensures op(attempt).Err? ==> RetryFrom(op, maxRetries, baseDelay, attempt) == RetryRun(Threw(op(attempt).error), [], 1)
  {
  }

  /** The attempt loop of lines 21-38, sleeping by recording the delay. */
  method RetryWithBackoff<D>(op: nat -> Fetched<D>, maxRetries: int, baseDelay: int)
    returns (outcome: RetryOutcome<D>, delays: seq<int>, attempts: nat)
    ensures RetryRun(outcome, delays, attempts) == RetrySpec(op, maxRetries, baseDelay)
  {
    delays := [];
    var attempt: nat := 0;
    while attempt < maxRetries
      invariant attempt == |delays|
      invariant attempt == 0 || attempt < maxRetries
      invariant RetrySpec(op, maxRetries, baseDelay)
        == RetryRun(RetryFrom(op, maxRetries, baseDelay, attempt).outcome,
                    delays + RetryFrom(op, maxRetries, baseDelay, attempt).delays,
                    attempt + RetryFrom(op, maxRetries, baseDelay, attempt).attempts)
      decreases maxRetries - attempt
    {
      var r := op(attempt);
      if r.Ok? {
        RetryStop(op, maxRetries, baseDelay, attempt);
        return Succeeded(r.doc), delays, attempt + 1;
      }
      var is429 := Is429(r.error);
      var isLastAttempt := attempt == maxRetries - 1;
      if is429 && !isLastAttempt {
        var delay := baseDelay * Pow2(attempt);
        RetryStep(op, maxRetries, baseDelay, attempt);
        assert delays + RetryFrom(op, maxRetries, baseDelay, attempt).delays
          == (delays + [delay]) + RetryFrom(op, maxRetries, baseDelay, attempt + 1).delays;
        delays := delays + [delay];
        attempt := attempt + 1;
      } else {
        RetryStop(op, maxRetries, baseDelay, attempt);
        return Threw(r.error), delays, attempt + 1;
      }
    }
    return NoAttempt, delays, attempt;
  }

  // ---------------------------------------------------------------- properties

  /** Attempts are bounded by maxRetries; one delay separates consecutive attempts;
      nothing runs when maxRetries <= 0. */
  lemma {:induction false} RetryAttempts<D>(op: nat -> Fetched<D>, maxRetries: int, baseDelay: int, attempt: nat)
    requires attempt < maxRetries || attempt == 0
    ensures var r := RetryFrom(op, maxRetries, baseDelay, attempt);
      && (r.attempts == 0 <==> maxRetries <= 0)
      && (r.outcome.NoAttempt? <==> maxRetries <= 0)
      && attempt + r.attempts <= (if maxRetries < 0 then 0 else maxRetries)
      && |r.delays| == (if r.attempts == 0 then 0 else r.attempts - 1)
    decreases maxRetries - attempt
  {
    if attempt < maxRetries && op(attempt).Err? && Is429(op(attempt).error) && attempt != maxRetries - 1 {
      RetryAttempts(op, maxRetries, baseDelay, attempt + 1);
    }
  }

  /** The k-th delay is baseDelay * 2^k: pure exponential backoff. */
  lemma {:induction false} RetryDelaysDouble<D>(op: nat -> Fetched<D>, maxRetries: int, baseDelay: int, attempt: nat)
    ensures forall k :: 0 <= k < |RetryFrom(op, maxRetries, baseDelay, attempt).delays| ==>
      RetryFrom(op, maxRetries, baseDelay, attempt).delays[k] == baseDelay * Pow2(attempt + k)
    decreases maxRetries - attempt
  {
    if attempt < maxRetries && op(attempt).Err? && Is429(op(attempt).error) && attempt != maxRetries - 1 {
      RetryDelaysDouble(op, maxRetries, baseDelay, attempt + 1);
      var r := RetryFrom(op, maxRetries, baseDelay, attempt);
      var rest := RetryFrom(op, maxRetries, baseDelay, attempt + 1);
      assert r.delays == [baseDelay * Pow2(attempt)] + rest.delays;
      forall k | 1 <= k < |r.delays| ensures r.delays[k] == baseDelay * Pow2(attempt + k) {
        var j := k - 1;
        assert 0 <= j < |rest.delays|;
        assert rest.delays[j] == baseDelay * Pow2(attempt + 1 + j);
        assert r.delays[k] == rest.delays[j];
      }
    }
  }

  /** Every attempt before the last one threw a 429 error, and the outcome is what the
      last attempt did: its document, or its error rethrown unchanged when that error
      is not a 429 or the attempt was the final one allowed. */
  lemma {:induction false} RetryOnlyOn429<D>(op: nat -> Fetched<D>, maxRetries: int, baseDelay: int, attempt: nat)
    requires attempt < maxRetries
    ensures var r := RetryFrom(op, maxRetries, baseDelay, attempt);
      && r.attempts >= 1
      && (forall k :: attempt <= k < attempt + r.attempts - 1 ==> op(k).Err? && Is429(op(k).error))
      && var last := op(attempt + r.attempts - 1);
      && (r.outcome.Succeeded? ==> last == Ok(r.outcome.doc))
      && (r.outcome.Threw? ==>
            last == Err(r.outcome.error) && (!Is429(r.outcome.error) || attempt + r.attempts == maxRetries))
      && (last.Ok? ==> r.outcome == Succeeded(last.doc))
      && (last.Err? ==> r.outcome == Threw(last.error))
    decreases maxRetries - attempt
  {
    if op(attempt).Err? && Is429(op(attempt).error) && attempt != maxRetries - 1 {
      RetryOnlyOn429(op, maxRetries, baseDelay, attempt + 1);
    }
  }

  /** An error that is not a 429 is rethrown after exactly one attempt, with no sleep. */
  lemma RetryNon429Once<D>(op: nat -> Fetched<D>, maxRetries: int, baseDelay: int)
    requires maxRetries >= 1 && op(0).Err? && !Is429(op(0).error)
    ensures RetrySpec(op, maxRetries, baseDelay) == RetryRun(Threw(op(0).error), [], 1)
  {
  }

  /** With the defaults (3 attempts, 2000 ms) the only sleeps are 2000 ms and then 4000 ms. */
  lemma RetryDefaultDelays<D>(op: nat -> Fetched<D>)
    ensures var r := RetrySpec(op, 3, 2000);
      r.attempts <= 3 && r.delays == [2000, 4000][..|r.delays|]
  {
    var r := RetrySpec(op, 3, 2000);
    RetryAttempts(op, 3, 2000, 0);
    RetryDelaysDouble(op, 3, 2000, 0);
    assert Pow2(1) == 2;
  }

  /** Two 429 failures and then a success: three attempts, sleeping 2000 ms and 4000 ms. */
  lemma RetryTwice429ThenSuccess<D>(op: nat -> Fetched<D>, d: D)
    requires op(0).Err? && Is429(op(0).error) && op(1).Err? && Is429(op(1).error) && op(2) == Ok(d)
    ensures RetrySpec(op, 3, 2000) == RetryRun(Succeeded(d), [2000, 4000], 3)
  {
    assert Pow2(1) == 2;
  }
}
