/** `withRetry`: run an operation up to `maxRetries` times, waiting `baseDelay * 2^(k-1)` ms after
    the k-th failure, and rethrow the last failure. Shared by src/lib/koncile.ts and
    src/lib/koncile-new.ts. The operation is any effectful computation on the world. */
module Backoff {
  import opened Wrappers
  import opened Transport

  /** `KONCILE_CONFIG.MAX_RETRIES` and `KONCILE_CONFIG.RETRY_DELAY`, the defaults of both callers. */
  const MaxRetries: int := 3
  const RetryDelay: nat := 1000

  const UnexpectedMessage: string := "Retry mechanism failed unexpectedly"

  function Pow2(k: nat): (r: nat)
    ensures r >= 1
  {
    if k == 0 then 1 else 2 * Pow2(k - 1)
  }

  lemma {:induction false} Pow2Monotone(i: nat, j: nat)
    requires i <= j
    ensures Pow2(i) <= Pow2(j)
    decreases j
  {
    if i < j {
      Pow2Monotone(i, j - 1);
    }
  }

  /** `baseDelay * Math.pow(2, attempt - 1)`. */
  function BackoffDelay(baseDelay: nat, attempt: nat): nat
    requires attempt >= 1
  {
    baseDelay * Pow2(attempt - 1)
  }

  /** The outcome of a run of `withRetry`: what it returns or throws, the final world, how many
      times the operation ran, the backoff delays it waited (in order), and the world the last
      operation call started from. */
  datatype Run<T> = Run(result: Result<T>, world: World, calls: nat, delays: seq<nat>, last: World)

  /** The loop of `withRetry` from iteration `attempt` on. */
  function RetryFrom<T>(op: World -> (Result<T>, World), w: World, attempt: nat, maxRetries: int, baseDelay: nat): Run<T>
    requires attempt >= 1
    decreases if attempt <= maxRetries then maxRetries - attempt + 1 else 0
  {
    if attempt > maxRetries then Run(Err(Error(UnexpectedMessage)), w, 0, [], w)
    else
      var (r, w1) := op(w);
      if r.Ok? || attempt == maxRetries then Run(r, w1, 1, [], w)
      else
        var d := BackoffDelay(baseDelay, attempt);
        var rest := RetryFrom(op, Sleep(w1, d), attempt + 1, maxRetries, baseDelay);
        rest.(calls := rest.calls + 1, delays := [d] + rest.delays)
  }

  function Retry<T>(op: World -> (Result<T>, World), w: World, maxRetries: int, baseDelay: nat): Run<T> {
    RetryFrom(op, w, 1, maxRetries, baseDelay)
  }

  /** The world in which the `i`-th call (counting from 0) of a run starting at iteration
      `attempt` begins, if every earlier call failed: the world the previous call left, after its
      backoff wait. */
  function CallStart<T>(op: World -> (Result<T>, World), w: World, baseDelay: nat, attempt: nat, i: nat): World
    requires attempt >= 1
    decreases i
  {
    if i == 0 then w
    else Sleep(op(CallStart(op, w, baseDelay, attempt, i - 1)).1, BackoffDelay(baseDelay, attempt + i - 1))
  }

  /** Starting one iteration later from the world after the first call and its wait is the same
      as skipping that first call. */
  lemma {:induction false} CallStartShift<T>(op: World -> (Result<T>, World), w: World, baseDelay: nat, attempt: nat, i: nat)
    requires attempt >= 1
    ensures CallStart(op, Sleep(op(w).1, BackoffDelay(baseDelay, attempt)), baseDelay, attempt + 1, i)
         == CallStart(op, w, baseDelay, attempt, i + 1)
    decreases i
  {
    if i > 0 {
      CallStartShift(op, w, baseDelay, attempt, i - 1);
    }
  }

  /** The loop from iteration `attempt` on: it calls the operation between once and once per
      remaining attempt, each call after a failed one and its backoff wait; every call but the
      last failed; it returns exactly what the last call returned, and fails only when every
      remaining attempt has been used. */
  lemma {:induction false} RetryFromShape<T>(op: World -> (Result<T>, World), w: World, attempt: nat, maxRetries: int, baseDelay: nat)
    requires 1 <= attempt <= maxRetries
    ensures var run := RetryFrom(op, w, attempt, maxRetries, baseDelay);
      && 1 <= run.calls <= maxRetries - attempt + 1
      && |run.delays| == run.calls - 1
      && (forall i :: 0 <= i < |run.delays| ==> run.delays[i] == BackoffDelay(baseDelay, attempt + i))
      && (forall i :: 0 <= i < run.calls - 1 ==> op(CallStart(op, w, baseDelay, attempt, i)).0.Err?)
      && run.last == CallStart(op, w, baseDelay, attempt, run.calls - 1)
      && (run.result, run.world) == op(run.last)
      && (run.result.Err? ==> run.calls == maxRetries - attempt + 1)
    decreases maxRetries - attempt
  {
    var (r, w1) := op(w);
    if !(r.Ok? || attempt == maxRetries) {
      var d := BackoffDelay(baseDelay, attempt);
      var w2 := Sleep(w1, d);
      RetryFromShape(op, w2, attempt + 1, maxRetries, baseDelay);
      var rest := RetryFrom(op, w2, attempt + 1, maxRetries, baseDelay);
      forall i | 0 <= i < |rest.delays| + 1
        ensures ([d] + rest.delays)[i] == BackoffDelay(baseDelay, attempt + i)
      {
        if i > 0 { assert ([d] + rest.delays)[i] == rest.delays[i - 1]; }
      }
      forall i | 0 <= i < rest.calls
        ensures op(CallStart(op, w, baseDelay, attempt, i)).0.Err?
      {
        if i > 0 { CallStartShift(op, w, baseDelay, attempt, i - 1); }
      }
      CallStartShift(op, w, baseDelay, attempt, rest.calls - 1);
    }
  }

  /** `withRetry(op, maxRetries, baseDelay)`: at most `maxRetries` calls, `calls - 1` waits of
      `baseDelay * 2^(k-1)` after the k-th failure, the first success returned at once, the last
      call's result returned or rethrown unchanged, and a failure only after all `maxRetries`
      calls. With `maxRetries < 1` the operation never runs and the fixed error is thrown. */
  lemma RetryShape<T>(op: World -> (Result<T>, World), w: World, maxRetries: int, baseDelay: nat)
    ensures var run := Retry(op, w, maxRetries, baseDelay);
      && (maxRetries < 1 ==> run == Run(Err(Error(UnexpectedMessage)), w, 0, [], w))
      && (maxRetries >= 1 ==>
            && 1 <= run.calls <= maxRetries
            && |run.delays| == run.calls - 1
            && (forall i :: 0 <= i < |run.delays| ==> run.delays[i] == BackoffDelay(baseDelay, i + 1))
            && (forall i :: 0 <= i < run.calls - 1 ==> op(CallStart(op, w, baseDelay, 1, i)).0.Err?)
            && run.last == CallStart(op, w, baseDelay, 1, run.calls - 1)
            && (run.result, run.world) == op(run.last)
            && (run.result.Err? ==> run.calls == maxRetries))
  {
    if maxRetries >= 1 {
      RetryFromShape(op, w, 1, maxRetries, baseDelay);
    }
  }

  /** An operation that fails `k < maxRetries` times and then succeeds: `withRetry` returns that
      success after exactly `k` waits, the doubling delays, and calls the operation no more. */
  lemma FailuresThenSuccess<T>(op: World -> (Result<T>, World), w: World, maxRetries: int, baseDelay: nat, k: nat)
    requires k < maxRetries
    requires forall i :: 0 <= i < k ==> op(CallStart(op, w, baseDelay, 1, i)).0.Err?
    requires op(CallStart(op, w, baseDelay, 1, k)).0.Ok?
    ensures var run := Retry(op, w, maxRetries, baseDelay);
      && run.calls == k + 1
      && run.result == op(CallStart(op, w, baseDelay, 1, k)).0
      && run.world == op(CallStart(op, w, baseDelay, 1, k)).1
      && run.delays == seq(k, i requires 0 <= i < k => BackoffDelay(baseDelay, i + 1))
  {
    RetryShape(op, w, maxRetries, baseDelay);
  }

  /** The waits of a run alone: one fewer than the calls, and the `i`-th is the doubling delay
      of iteration `i + 1`. */
  lemma RetryDelays<T>(op: World -> (Result<T>, World), w: World, maxRetries: int, baseDelay: nat)
    ensures var run := Retry(op, w, maxRetries, baseDelay);
      && |run.delays| == (if maxRetries < 1 then 0 else run.calls - 1)
      && (maxRetries >= 1 ==> 1 <= run.calls <= maxRetries)
      && (forall i :: 0 <= i < |run.delays| ==> run.delays[i] == BackoffDelay(baseDelay, i + 1))
  {
    RetryShape(op, w, maxRetries, baseDelay);
  }

  /** The backoff delays never decrease. */
  lemma RetryDelaysNonDecreasing<T>(op: World -> (Result<T>, World), w: World, maxRetries: int, baseDelay: nat)
    ensures var run := Retry(op, w, maxRetries, baseDelay);
      forall i, j :: 0 <= i <= j < |run.delays| ==> run.delays[i] <= run.delays[j]
  {
    var run := Retry(op, w, maxRetries, baseDelay);
    RetryDelays(op, w, maxRetries, baseDelay);
    forall i, j | 0 <= i <= j < |run.delays| ensures run.delays[i] <= run.delays[j] {
      Pow2Monotone(i, j);
      assert run.delays[i] == baseDelay * Pow2(i) && run.delays[j] == baseDelay * Pow2(j);
    }
  }

  /** With the defaults (3 attempts, 1000 ms) the run makes 1 to 3 calls and waits at most
      1000 ms and then 2000 ms. */
  lemma DefaultSchedule<T>(op: World -> (Result<T>, World), w: World)
    ensures var run := Retry(op, w, MaxRetries, RetryDelay);
      && 1 <= run.calls <= 3
      && run.delays == [1000, 2000][..run.calls - 1]
  {
    var run := Retry(op, w, MaxRetries, RetryDelay);
    RetryDelays(op, w, MaxRetries, RetryDelay);
    assert Pow2(1) == 2;
  }

  /** A counter of the world that each operation call advances by at most `k`, and that waiting
      leaves alone, advances by at most `k` per call over a run. */
  lemma {:induction false} RetryFromCounter<T>(op: World -> (Result<T>, World), w: World, attempt: nat, maxRetries: int, baseDelay: nat, f: World -> int, k: nat)
    requires attempt >= 1
    requires forall v: World :: f(v) <= f(op(v).1) <= f(v) + k
    requires forall v: World, d: nat :: f(Sleep(v, d)) == f(v)
    ensures var run := RetryFrom(op, w, attempt, maxRetries, baseDelay);
      f(w) <= f(run.world) <= f(w) + k * run.calls
    decreases if attempt <= maxRetries then maxRetries - attempt + 1 else 0
  {
    if attempt <= maxRetries {
      var (r, w1) := op(w);
      if !(r.Ok? || attempt == maxRetries) {
        var d := BackoffDelay(baseDelay, attempt);
        RetryFromCounter(op, Sleep(w1, d), attempt + 1, maxRetries, baseDelay, f, k);
        var rest := RetryFrom(op, Sleep(w1, d), attempt + 1, maxRetries, baseDelay);
        assert k * (rest.calls + 1) == k * rest.calls + k;
      }
    }
  }

  lemma RetryCounter<T>(op: World -> (Result<T>, World), w: World, maxRetries: int, baseDelay: nat, f: World -> int, k: nat)
    requires forall v: World :: f(v) <= f(op(v).1) <= f(v) + k
    requires forall v: World, d: nat :: f(Sleep(v, d)) == f(v)
    ensures var run := Retry(op, w, maxRetries, baseDelay);
      f(w) <= f(run.world) <= f(w) + k * run.calls
  {
    RetryFromCounter(op, w, 1, maxRetries, baseDelay, f, k);
  }

  /** The `for` loop of `withRetry`, proved to follow `Retry`. */
  method WithRetry<T>(op: World -> (Result<T>, World), w0: World, maxRetries: int, baseDelay: nat)
    returns (run: Run<T>)
    ensures run == Retry(op, w0, maxRetries, baseDelay)
  {
    var w := w0;
    var attempt := 1;
    var calls := 0;
    var delays: seq<nat> := [];
    while attempt <= maxRetries
      invariant attempt == calls + 1
      invariant var rest := RetryFrom(op, w, attempt, maxRetries, baseDelay);
        Retry(op, w0, maxRetries, baseDelay) == rest.(calls := rest.calls + calls, delays := delays + rest.delays)
      decreases maxRetries - attempt
    {
      var (r, w1) := op(w);
      calls := calls + 1;
      if r.Ok? || attempt == maxRetries {
        return Run(r, w1, calls, delays, w);
      }
      var d := BackoffDelay(baseDelay, attempt);
      delays := delays + [d];
      w := Sleep(w1, d);
      attempt := attempt + 1;
    }
    run := Run(Err(Error(UnexpectedMessage)), w, calls, delays, w);
  }
}
