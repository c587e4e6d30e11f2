/** The HTTP retry loop.

Models `DoWithRetryPolicy` of internal/shared/client.go. The transport, the context and
the sleeping timer are arbitrary. The response to the k-th send is named `k`, which is
what makes "drained exactly once" a statement about a sequence of numbers.
*/
module HttpRetry {
  import opened Text

  /** A request body: none, one that GetBody can recreate, or one that cannot be replayed. */
  datatype Body = NoBody | Replayable(recreated: nat -> bool) | OneShot

  datatype Send = SendFailed | Got(status: int)

  /** `done(k)`: the context is seen done after the k-th send failed.
  `cut(k)`: the k-th sleep is cut short by the context after that long. */
  datatype Env = Env(nilRequest: bool, body: Body, send: nat -> Send, done: nat -> bool, cut: nat -> Option<nat>)

  datatype Policy = Policy(attempts: int, backoff: int)

  datatype Result =
    | Returned(k: nat)         // the response to the k-th send
    | SendError(k: nat)        // the error of the k-th send
    | SetupError               // the request cannot be (re)built
    | ContextError
    | AttemptsExhausted

  /** 408, 429, 500, 502, 503, 504. */
  predicate RetryableStatus(status: int) {
    status in {408, 429, 500, 502, 503, 504}
  }

  function Attempts(p: Policy): (n: nat)
    ensures n >= 1
  {
    if p.attempts <= 0 then 1 else p.attempts
  }

  /** requestForRetryAttempt succeeds. */
  predicate Prepared(e: Env, k: nat) {
    !e.nilRequest && (k == 0 || e.body.NoBody? || (e.body.Replayable? && e.body.recreated(k)))
  }

  function Delay(p: Policy, k: nat): (d: nat) {
    if p.backoff <= 0 then 0 else p.backoff * (k + 1)
  }

  predicate SleepCut(e: Env, p: Policy, k: nat) {
    p.backoff > 0 && e.cut(k).Some?
  }

  function Slept(e: Env, p: Policy, k: nat): (d: nat)
    ensures d <= Delay(p, k)
    ensures !SleepCut(e, p, k) ==> d == Delay(p, k)
  {
    if SleepCut(e, p, k) && e.cut(k).value < Delay(p, k) then e.cut(k).value else Delay(p, k)
  }

  // ---------------------------------------------------------------------------
  // What the loop may report
  // ---------------------------------------------------------------------------

  /** The k-th send ended in a way that is worth another one. */
  predicate WorthRetry(e: Env, p: Policy, k: nat) {
    match e.send(k)
    case SendFailed => !e.done(k)
    case Got(status) => RetryableStatus(status) && k < Attempts(p) - 1
  }

  /** The loop goes on past the k-th attempt. */
  predicate GoesOn(e: Env, p: Policy, k: nat) {
    Prepared(e, k) && WorthRetry(e, p, k) && !SleepCut(e, p, k)
  }

  /** The responses received in the first `n` sends, in order. */
  function Received(e: Env, n: nat): seq<nat> {
    if n == 0 then [] else Received(e, n - 1) + (if e.send(n - 1).Got? then [n - 1] else [])
  }

  /** The first attempt that does not go on decides the result. */
  ghost predicate Explains(e: Env, p: Policy, sends: nat, r: Result) {
    && sends <= Attempts(p)
    && (forall k :: 0 <= k < sends - 1 ==> GoesOn(e, p, k))
    && match r
       case SetupError => sends < Attempts(p) && !Prepared(e, sends) && (sends > 0 ==> GoesOn(e, p, sends - 1))
       case Returned(k) =>
         && k == sends - 1 && Prepared(e, k) && e.send(k).Got?
         && (RetryableStatus(e.send(k).status) ==> sends == Attempts(p))
       case SendError(k) =>
         && k == sends - 1 && Prepared(e, k) && e.send(k).SendFailed?
         && (e.done(k) || SleepCut(e, p, k) || sends == Attempts(p))
       case ContextError =>
         sends > 0 && Prepared(e, sends - 1) && e.send(sends - 1).Got? && WorthRetry(e, p, sends - 1)
             && SleepCut(e, p, sends - 1)
       case AttemptsExhausted => false
  }

  /** Total delay of the sleeps after the first `n` sends, none of them cut. */
  function FullDelay(p: Policy, n: nat): nat {
    if n == 0 then 0 else FullDelay(p, n - 1) + Delay(p, n - 1)
  }

  method DoWithRetryPolicy(e: Env, p: Policy) returns (r: Result, sends: nat, drained: seq<nat>, slept: nat)
    ensures Explains(e, p, sends, r)
    ensures drained + (if r.Returned? then [r.k] else []) == Received(e, sends)
    ensures slept <= FullDelay(p, sends)
    ensures r.SetupError? ==> slept == FullDelay(p, sends)
    ensures r.Returned? ==> slept == FullDelay(p, sends - 1)
  {
    var attempts := if p.attempts <= 0 then 1 else p.attempts;
    var lastErr: Option<nat> := None;
    sends, drained, slept := 0, [], 0;
    for attempt := 0 to attempts
      invariant sends == attempt
      invariant forall k :: 0 <= k < attempt ==> GoesOn(e, p, k)
      invariant drained == Received(e, attempt) && slept == FullDelay(p, attempt)
      invariant attempt > 0 ==> lastErr == if e.send(attempt - 1).SendFailed? then Some(attempt - 1) else None
    {
      if !Prepared(e, attempt) {
        return SetupError, sends, drained, slept;
      }
      var resp := e.send(attempt);
      sends := sends + 1;
      if resp.Got? && !RetryableStatus(resp.status) {
        return Returned(attempt), sends, drained, slept;
      }
      if resp.Got? && attempt == attempts - 1 {
        return Returned(attempt), sends, drained, slept;
      }
      if resp.SendFailed? && e.done(attempt) {
        return SendError(attempt), sends, drained, slept;
      }
      if resp.Got? {
        drained := drained + [attempt];
      }
      lastErr := if resp.SendFailed? then Some(attempt) else None;
      slept := slept + Slept(e, p, attempt);
      if SleepCut(e, p, attempt) {
        return if lastErr.Some? then SendError(lastErr.value) else ContextError, sends, drained, slept;
      }
    }
    assert GoesOn(e, p, attempts - 1);
    if lastErr.Some? {
      return SendError(lastErr.value), sends, drained, slept;
    }
    return AttemptsExhausted, sends, drained, slept;
  }

  // ---------------------------------------------------------------------------
  // What follows
  // ---------------------------------------------------------------------------

  /** The full delay is backoff * n(n+1)/2. */
  lemma {:induction false} FullDelayIsTriangular(p: Policy, n: nat)
    ensures p.backoff > 0 ==> 2 * FullDelay(p, n) == p.backoff * (n * (n + 1))
    ensures p.backoff <= 0 ==> FullDelay(p, n) == 0
  {
    if n > 0 {
      FullDelayIsTriangular(p, n - 1);
      if p.backoff > 0 {
        AddRow(p.backoff, n);
      }
    }
  }

  lemma AddRow(b: int, n: nat)
    requires n > 0
    ensures b * ((n - 1) * n) + 2 * (b * n) == b * (n * (n + 1))
  {
    var m := n * n;
    assert (n - 1) * n == m - n && n * (n + 1) == m + n;
    assert b * (m - n) == b * m - b * n && b * (m + n) == b * m + b * n;
  }

  /** A response is received at most once, in order of sending. */
  lemma {:induction false} ReceivedOnce(e: Env, n: nat)
    ensures forall i, j :: 0 <= i < j < |Received(e, n)| ==> Received(e, n)[i] < Received(e, n)[j]
    ensures forall k: nat :: k in Received(e, n) <==> k < n && e.send(k).Got?
  {
    if n > 0 {
      ReceivedOnce(e, n - 1);
      var before := Received(e, n - 1);
      assert forall i :: 0 <= i < |before| ==> before[i] in before;
    }
  }

  /** Exactly one number of sends and one result is possible: the first attempt that does not go on decides. */
  lemma ResultDetermined(e: Env, p: Policy, m: nat, q: Result, n: nat, r: Result)
    requires Explains(e, p, m, q) && Explains(e, p, n, r)
    ensures m == n && q == r
  {
    StopsHere(e, p, m, q);
    StopsHere(e, p, n, r);
  }

  /** The attempt after the last that went on: it was not prepared, did not go on, or would exceed the budget. */
  lemma StopsHere(e: Env, p: Policy, n: nat, r: Result)
    requires Explains(e, p, n, r)
    ensures n > 0 && !r.SetupError? ==> n == Attempts(p) || !GoesOn(e, p, n - 1)
    ensures r.SetupError? ==> !GoesOn(e, p, n) && (n > 0 ==> GoesOn(e, p, n - 1))
    ensures n == 0 ==> r.SetupError?
  {
  }

  /** Another send follows only a lost send or a retryable response, with a live context, an unbroken sleep and a body
  that can be rebuilt. */
  lemma GoesOnForCause(e: Env, p: Policy, n: nat, r: Result, k: nat)
    requires Explains(e, p, n, r) && k + 1 < n
    ensures !e.nilRequest && (e.send(k).SendFailed? ==> !e.done(k)) && (p.backoff > 0 ==> e.cut(k).None?)
    ensures e.body.NoBody? || (e.body.Replayable? && e.body.recreated(k + 1))
  {
    assert GoesOn(e, p, k);
    assert k + 1 < n - 1 ==> GoesOn(e, p, k + 1);
    assert r.SetupError? ==> GoesOn(e, p, n - 1);
  }

  /** And it does follow: a send that was lost under a live context is the last one only when the sleep after it was
  cut, the attempts are used up, or the request cannot be rebuilt. */
  lemma LostSendIsRetried(e: Env, p: Policy, n: nat, r: Result)
    requires Explains(e, p, n, r) && n > 0 && e.send(n - 1).SendFailed? && !e.done(n - 1)
    requires p.backoff <= 0 || e.cut(n - 1).None?
    ensures n == (if p.attempts <= 0 then 1 else p.attempts) || r == SetupError
  {
  }

  /** A body that cannot be replayed is sent at most once, and a success is never resent. */
  lemma NoUnsafeResend(e: Env, p: Policy, n: nat, r: Result)
    requires Explains(e, p, n, r)
    ensures e.body.OneShot? ==> n <= 1
    ensures forall k: nat :: k < n - 1 && e.send(k).Got? ==> RetryableStatus(e.send(k).status)
    ensures forall k: nat :: k < n && e.send(k).Got? && k + 1 < (if p.attempts <= 0 then 1 else p.attempts) ==>
              (e.send(k).status in {408, 429, 500, 502, 503, 504} <==> r != Returned(k))
  {
    if n > 1 {
      assert r.SetupError? || Prepared(e, n - 1);
      assert GoesOn(e, p, n - 2);
      assert r.SetupError? ==> GoesOn(e, p, n - 1);
    }
    forall k: nat | k < n - 1 && e.send(k).Got?
      ensures RetryableStatus(e.send(k).status)
    {
      assert GoesOn(e, p, k);
    }
    forall k: nat | k < n && e.send(k).Got? && k < Attempts(p) - 1
      ensures RetryableStatus(e.send(k).status) <==> r != Returned(k)
    {
      assert k == n - 1 || GoesOn(e, p, k);
      assert r.SetupError? && k == n - 1 ==> GoesOn(e, p, k);
    }
  }
}
