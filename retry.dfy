/** `retry_after_timeout`: call an operation up to `retries` times, sleeping a fixed
    delay after every failed attempt but the last, and return the first result or a
    failure sentinel. The operation is a function of the attempt number; the sleeps are
    returned as the list of delays slept. */
module Retry {
  import opened Text

  const DEFAULT_RETRIES: int := 3
  const DEFAULT_DELAY: int := 2

  /** One awaited call of the operation: it returns a value or raises (a Playwright
      timeout, an asyncio timeout or any other exception). */
  datatype Attempt<T> = Returns(value: T) | Throws

  /** What `retry_after_timeout` returns: the operation's result, or the sentinel string. */
  datatype Outcome<T> = Succeeded(value: T) | GaveUp(message: string)

  /** The sentinel returned when every attempt raised. */
  function Sentinel(retries: int): string {
    "Failed after " + IntToString(retries) + " attempts"
  }

  /** The first attempt among 1..n that returns, if any. */
  function FirstSuccess<T>(call: nat -> Attempt<T>, n: nat): (k: Option<nat>)
    ensures k.Some? ==> 1 <= k.value <= n && call(k.value).Returns? &&
                        forall j :: 1 <= j < k.value ==> call(j).Throws?
    ensures k.None? ==> forall j :: 1 <= j <= n ==> call(j).Throws?
  {
    if n == 0 then None
    else match FirstSuccess(call, n - 1)
      case Some(k) => Some(k)
      case None => if call(n).Returns? then Some(n) else None
  }

  /** `range(1, retries + 1)` has this many attempts. */
  function AttemptCount(retries: int): nat {
    if retries > 0 then retries else 0
  }

  function Delays(n: nat, delay: int): (s: seq<int>)
    ensures |s| == n && forall i :: 0 <= i < n ==> s[i] == delay
  {
    seq(n, _ => delay)
  }

  /** The loop: `calls` is the number of times the operation was invoked and `sleeps`
      the delays slept, in order. */
  method RetryAfterTimeout<T>(call: nat -> Attempt<T>, retries: int, delay: int)
    returns (result: Outcome<T>, calls: nat, sleeps: seq<int>)
    ensures match FirstSuccess(call, AttemptCount(retries))
      case Some(k) =>
        result == Succeeded(call(k).value) && calls == k && sleeps == Delays(k - 1, delay)
      case None =>
        result == GaveUp(Sentinel(retries)) && calls == AttemptCount(retries) &&
        sleeps == Delays(if retries > 1 then retries - 1 else 0, delay)
  {
    calls := 0;
    sleeps := [];
    var attempt := 1;
    while attempt <= retries
      invariant 1 <= attempt && (retries >= 1 ==> attempt <= retries + 1) && (retries < 1 ==> attempt == 1)
      invariant calls == attempt - 1
      invariant FirstSuccess(call, attempt - 1).None?
      invariant sleeps == Delays(if attempt <= retries || attempt == 1 then attempt - 1 else attempt - 2, delay)
    {
      calls := calls + 1;
      match call(attempt) {
        case Returns(v) =>
          assert FirstSuccess(call, attempt) == Some(attempt);
          FirstSuccessStable(call, attempt, AttemptCount(retries));
          result := Succeeded(v);
          return;
        case Throws =>
          if attempt < retries {
            sleeps := sleeps + [delay];
          }
      }
      attempt := attempt + 1;
    }
    if retries < 1 {
      assert attempt == 1 && AttemptCount(retries) == 0;
    } else {
      assert attempt == retries + 1;
      assert attempt - 1 == AttemptCount(retries);
    }
    result := GaveUp(Sentinel(retries));
  }

  // ---------------------------------------------------------------- lemmas

  /** Allowing more attempts never changes an earlier success. */
  lemma {:induction false} FirstSuccessStable<T>(call: nat -> Attempt<T>, n: nat, m: nat)
    requires n <= m && FirstSuccess(call, n).Some?
    ensures FirstSuccess(call, m) == FirstSuccess(call, n)
  {
    if m > n {
      FirstSuccessStable(call, n, m - 1);
    }
  }

  /** `k - 1` failures followed by a success within the allowed attempts: the `k`-th
      result is returned after `k` calls and `k - 1` sleeps. */
  lemma {:induction false} FailuresThenSuccess<T>(call: nat -> Attempt<T>, k: nat, n: nat)
    requires 1 <= k <= n && call(k).Returns?
    requires forall j :: 1 <= j < k ==> call(j).Throws?
    ensures FirstSuccess(call, n) == Some(k)
  {
    FirstSuccessUpTo(call, k - 1);
    assert FirstSuccess(call, k) == Some(k);
    FirstSuccessStable(call, k, n);
  }

  lemma {:induction false} FirstSuccessUpTo<T>(call: nat -> Attempt<T>, n: nat)
    requires forall j :: 1 <= j <= n ==> call(j).Throws?
    ensures FirstSuccess(call, n) == None
  {
    if n > 0 {
      FirstSuccessUpTo(call, n - 1);
    }
  }

  /** With the default of three attempts, an operation that always raises gives
      "Failed after 3 attempts". */
  lemma DefaultSentinel()
    ensures Sentinel(DEFAULT_RETRIES) == "Failed after 3 attempts"
  {
    assert NatToString(3) == "3";
  }

}
