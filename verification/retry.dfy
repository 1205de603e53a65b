/** The retrying query middleware (`querier/middleware/retry.rs`): run a request until it
    succeeds or the attempts are used up, sleeping before each retry for a delay that starts
    at the base backoff and doubles every time. The answer of each attempt is a parameter. */
module QueryRetry {
  import opened Wrappers

  /** `QueryRetryMiddleware`, with the backoff in nanoseconds. */
  datatype QueryRetryMiddleware = QueryRetryMiddleware(maxAttempts: nat, backoff: nat)

  /** The default: 3 attempts, 100 ms base backoff. */
  const DEFAULT_RETRY := QueryRetryMiddleware(3, 100_000_000)

  function Pow2(k: nat): (r: nat)
    ensures r >= 1
  {
    if k == 0 then 1 else 2 * Pow2(k - 1)
  }

  /** The number of attempts the loop allows: `max_attempts`, but at least one. */
  function AttemptBudget(m: QueryRetryMiddleware): (r: nat)
    ensures r >= 1 && r >= m.maxAttempts
    ensures m.maxAttempts >= 1 ==> r == m.maxAttempts
  {
    if m.maxAttempts == 0 then 1 else m.maxAttempts
  }

  /** `QueryRetryMiddleware::run`, where `attempt(i)` is the answer of the request's i-th
      attempt (counting from 0). Returns the result, the number of attempts made and the
      delays slept, in order. */
  method Run<R, E>(m: QueryRetryMiddleware, attempt: nat -> Result<R, E>)
    returns (r: Result<R, E>, attempts: nat, delays: seq<nat>)
    ensures 1 <= attempts <= AttemptBudget(m)
    ensures r == attempt(attempts - 1)
    ensures forall i :: 0 <= i < attempts - 1 ==> attempt(i).Err?
    ensures r.Err? ==> attempts == AttemptBudget(m)
    ensures |delays| == attempts - 1
    ensures forall k :: 0 <= k < |delays| ==> delays[k] == m.backoff * Pow2(k)
  {
    attempts := 0;
    var backoff := m.backoff;
    delays := [];
    while true
      invariant attempts < AttemptBudget(m)
      invariant forall i :: 0 <= i < attempts ==> attempt(i).Err?
      invariant |delays| == attempts
      invariant forall k :: 0 <= k < |delays| ==> delays[k] == m.backoff * Pow2(k)
      invariant backoff == m.backoff * Pow2(attempts)
      decreases AttemptBudget(m) - attempts
    {
      attempts := attempts + 1;
      var answer := attempt(attempts - 1);
      if answer.Ok? || attempts >= m.maxAttempts {
        r := answer;
        return;
      }
      DelayStep(m.backoff, delays, backoff);
      delays := delays + [backoff];
      backoff := backoff * 2;
    }
  }

  /** Sleeping once more appends the current delay, and doubling it gives the next one. */
  lemma {:induction false} DelayStep(base: nat, delays: seq<nat>, backoff: nat)
    requires forall k :: 0 <= k < |delays| ==> delays[k] == base * Pow2(k)
    requires backoff == base * Pow2(|delays|)
    ensures forall k :: 0 <= k < |delays| + 1 ==> (delays + [backoff])[k] == base * Pow2(k)
    ensures backoff * 2 == base * Pow2(|delays| + 1)
  {
    var p := Pow2(|delays|);
    assert Pow2(|delays| + 1) == 2 * p;
    assert base * (2 * p) == (base * p) * 2;
  }

  /** The answer `Run` gives, as a definition independent of the loop: the first successful
      attempt within the budget, else the last failure. */
  function RetryAnswer<R, E>(budget: nat, attempt: nat -> Result<R, E>, from: nat): Result<R, E>
    requires from < budget
    decreases budget - from
  {
    if attempt(from).Ok? || from + 1 == budget then attempt(from) else RetryAnswer(budget, attempt, from + 1)
  }

  /** The loop and the definition agree. */
  method RunMatchesAnswer<R, E>(m: QueryRetryMiddleware, attempt: nat -> Result<R, E>) returns (r: Result<R, E>)
    ensures r == RetryAnswer(AttemptBudget(m), attempt, 0)
  {
    var attempts, delays;
    r, attempts, delays := Run(m, attempt);
    RetryAnswerIsFirstStop(AttemptBudget(m), attempt, 0, attempts - 1);
  }

  /** `RetryAnswer` from `from` stops at the first success, or at the last attempt. */
  lemma {:induction false} RetryAnswerIsFirstStop<R, E>(budget: nat, attempt: nat -> Result<R, E>, from: nat, stop: nat)
    requires from <= stop < budget
    requires forall i :: from <= i < stop ==> attempt(i).Err?
    requires attempt(stop).Ok? || stop + 1 == budget
    ensures RetryAnswer(budget, attempt, from) == attempt(stop)
    decreases stop - from
  {
    if from < stop {
      RetryAnswerIsFirstStop(budget, attempt, from + 1, stop);
    }
  }
}
