/**
 * The retry loop of `makeRequest`: one transport call per attempt, at most
 * `maxRetries + 1` attempts, a capped exponential backoff between attempts,
 * and the last failure rethrown when the budget is spent.
 *
 * The transport is a script: `outcomes[k]` is what attempt `k` yields. A
 * timer abort is one kind of outcome; waiting is replaced by the list of
 * backoff delays the loop would sleep for.
 */
module Retry {
  import opened Wrappers
  import opened Json
  import JsString

  /** The retry policy of a client. */
  datatype RetryConfig = RetryConfig(maxRetries: int, baseDelay: int, maxDelay: int, timeout: int)

  /** The policy every client uses. */
  const ServiceRetry: RetryConfig := RetryConfig(3, 1000, 5000, 30000)

  /** What one transport call yields. */
  datatype Outcome =
    | Responded(status: nat, statusText: string, body: Json)  // fetch resolved with a response
    | NetworkError(message: string)                           // fetch rejected
    | TimedOut                                                // the per-attempt deadline aborted the call

  /** `response.ok`: a status in 200-299. */
  predicate IsOk(status: nat) {
    200 <= status <= 299
  }

  /** The error an attempt records as `lastError`. */
  datatype TransportError = ApiError(status: nat, statusText: string) | Network(message: string) | Aborted

  const ApiErrorPrefix: string := "B\U{0142}\U{0105}d API: "

  /**
   * The message of the error thrown for a response that is not ok: the fixed
   * prefix, the status in decimal, a space, and the status text.
   */
  function ApiErrorMessage(status: nat, statusText: string): (m: string)
    ensures |ApiErrorPrefix| + |JsString.NatToString(status)| + 1 + |statusText| == |m|
    ensures m[..|ApiErrorPrefix|] == ApiErrorPrefix
    ensures m[|ApiErrorPrefix|..|ApiErrorPrefix| + |JsString.NatToString(status)|] == JsString.NatToString(status)
    ensures JsString.DecimalValue(m[|ApiErrorPrefix|..|ApiErrorPrefix| + |JsString.NatToString(status)|]) == status
    ensures m[|m| - |statusText| - 1..] == " " + statusText
  {
    var digits := JsString.NatToString(status);
    var m := ApiErrorPrefix + digits + " " + statusText;
    assert m[|ApiErrorPrefix|..|ApiErrorPrefix| + |digits|] == digits;
    assert m[|m| - |statusText| - 1..] == " " + statusText;
    JsString.NatToStringRoundTrip(status);
    m
  }

  /**
   * The `message` of the error an attempt records as `lastError`, and so of
   * the error `sendMessage` rethrows. An abort's message comes from the
   * runtime's `AbortError` and is not fixed by the client.
   */
  function ErrorMessage(e: TransportError): (m: Option<string>)
    ensures m.None? <==> e.Aborted?
    ensures e.Network? ==> m == Some(e.message)
    ensures e.ApiError? ==> m == Some(ApiErrorMessage(e.status, e.statusText))
  {
    match e
    case ApiError(status, text) => Some(ApiErrorMessage(status, text))
    case Network(message) => Some(message)
    case Aborted => None
  }

  /** A 500 is reported as "Błąd API: 500 Internal Server Error". */
  lemma ServerErrorMessage()
    ensures ErrorMessage(Failed(Responded(500, "Internal Server Error", JNull)).value)
         == Some(ApiErrorPrefix + "500" + " " + "Internal Server Error")
  {
    assert JsString.NatToString(5) == "5";
    assert JsString.NatToString(50) == "50";
    assert JsString.NatToString(500) == "500";
    assert Failed(Responded(500, "Internal Server Error", JNull)) == Some(ApiError(500, "Internal Server Error"));
    assert ApiErrorMessage(500, "Internal Server Error") == ApiErrorPrefix + "500" + " " + "Internal Server Error";
  }

  /** The error an outcome raises inside the loop, or None when the attempt delivered a body. */
  function Failed(o: Outcome): (e: Option<TransportError>)
    ensures e.None? <==> o.Responded? && IsOk(o.status)
    ensures o.TimedOut? <==> e == Some(Aborted)
  {
    match o
    case Responded(status, text, _) => if IsOk(status) then None else Some(ApiError(status, text))
    case NetworkError(m) => Some(Network(m))
    case TimedOut => Some(Aborted)
  }

  /** How `makeRequest` ends: with a body, by rethrowing the last failure, or by throwing `null`. */
  datatype LoopResult = Delivered(body: Json) | Rethrown(error: TransportError) | NullThrown

  /** The observable run of the loop: transport calls made, delays slept, and the end. */
  datatype Trace = Trace(attempts: nat, delays: seq<int>, result: LoopResult)

  function Pow2(k: nat): (r: nat)
    ensures r >= 1
  {
    if k == 0 then 1 else 2 * Pow2(k - 1)
  }

  /** `Math.min(baseDelay * Math.pow(2, k), maxDelay)`. */
  function Delay(rc: RetryConfig, k: nat): (d: int)
    ensures d <= rc.maxDelay
    ensures d <= rc.baseDelay * Pow2(k)
    ensures d == rc.maxDelay || d == rc.baseDelay * Pow2(k)
  {
    if rc.baseDelay * Pow2(k) <= rc.maxDelay then rc.baseDelay * Pow2(k) else rc.maxDelay
  }

  /** The delays slept after attempts `from`, ..., `from + n - 1`. */
  function Delays(rc: RetryConfig, from: nat, n: nat): (ds: seq<int>)
    ensures |ds| == n
    ensures forall i :: 0 <= i < n ==> ds[i] == Delay(rc, from + i)
  {
    seq(n, i requires 0 <= i < n => Delay(rc, from + i))
  }

  /**
   * The `while (retryCount <= maxRetries)` loop entered with counter
   * `retryCount` and the error recorded so far. A successful response leaves
   * the loop; a failure on the last allowed attempt is rethrown; any other
   * failure sleeps `Delay(rc, retryCount)` and tries again. Leaving through
   * the loop guard throws the recorded error, which is `null` if no attempt
   * was made.
   */
  function Loop(rc: RetryConfig, outcomes: seq<Outcome>, retryCount: nat, lastError: Option<TransportError>): (t: Trace)
    requires rc.maxRetries < |outcomes|
    ensures retryCount <= rc.maxRetries + 1 ==> retryCount + t.attempts <= rc.maxRetries + 1
    ensures retryCount <= rc.maxRetries <==> t.attempts > 0
    ensures |t.delays| == if t.attempts == 0 then 0 else t.attempts - 1
    ensures forall i :: 0 <= i < |t.delays| ==> t.delays[i] == Delay(rc, retryCount + i)
    ensures forall i :: retryCount <= i < retryCount + t.attempts - 1 ==> Failed(outcomes[i]).Some?
    ensures t.result.Delivered? ==>
      t.attempts > 0 && Failed(outcomes[retryCount + t.attempts - 1]).None?
      && t.result.body == outcomes[retryCount + t.attempts - 1].body
    ensures t.result.Rethrown? && t.attempts > 0 ==>
      Failed(outcomes[retryCount + t.attempts - 1]) == Some(t.result.error)
      && retryCount + t.attempts - 1 == rc.maxRetries
    ensures t.result.NullThrown? ==> t.attempts == 0 && lastError.None?
    decreases rc.maxRetries - retryCount
  {
    if retryCount > rc.maxRetries then
      Trace(0, [], if lastError.Some? then Rethrown(lastError.value) else NullThrown)
    else
      match Failed(outcomes[retryCount])
      case None => Trace(1, [], Delivered(outcomes[retryCount].body))
      case Some(e) =>
        if retryCount == rc.maxRetries then Trace(1, [], Rethrown(e))
        else
          var rest := Loop(rc, outcomes, retryCount + 1, Some(e));
          Trace(1 + rest.attempts, [Delay(rc, retryCount)] + rest.delays, rest.result)
  }

  /** `makeRequest`: the loop from its initial state. */
  function MakeRequest(rc: RetryConfig, outcomes: seq<Outcome>): (t: Trace)
    requires rc.maxRetries < |outcomes|
    ensures t.attempts <= if rc.maxRetries < 0 then 0 else rc.maxRetries + 1
  {
    Loop(rc, outcomes, 0, None)
  }

  /** The index of the first attempt among the first `n` that delivers a body, or `n` if none does. */
  function FirstSuccess(outcomes: seq<Outcome>, n: nat): (k: nat)
    requires n <= |outcomes|
    ensures k <= n
    ensures forall i :: 0 <= i < k ==> Failed(outcomes[i]).Some?
    ensures k < n ==> Failed(outcomes[k]).None?
  {
    if n == 0 then 0
    else
      var k := FirstSuccess(outcomes, n - 1);
      if k < n - 1 then k
      else if Failed(outcomes[n - 1]).None? then n - 1
      else n
  }

  /**
   * The run `makeRequest` should have, stated without the loop: no attempt for
   * a negative budget; otherwise attempts up to and including the first
   * success within the budget, with the backoff delays between them; or, if
   * every attempt in the budget fails, all of them and the last failure.
   */
  function Expected(rc: RetryConfig, outcomes: seq<Outcome>): Trace
    requires rc.maxRetries < |outcomes|
  {
    if rc.maxRetries < 0 then Trace(0, [], NullThrown)
    else
      var k := FirstSuccess(outcomes, rc.maxRetries + 1);
      if k <= rc.maxRetries then Trace(k + 1, Delays(rc, 0, k), Delivered(outcomes[k].body))
      else Trace(rc.maxRetries + 1, Delays(rc, 0, rc.maxRetries), Rethrown(Failed(outcomes[rc.maxRetries]).value))
  }

  /** From counter `j`, failures up to `k` and a success at `k` give `k - j + 1` attempts and the body of `k`. */
  lemma {:induction false} LoopSucceedsAt(rc: RetryConfig, outcomes: seq<Outcome>, j: nat, k: nat, last: Option<TransportError>)
    requires rc.maxRetries < |outcomes|
    requires j <= k <= rc.maxRetries
    requires forall i :: j <= i < k ==> Failed(outcomes[i]).Some?
    requires Failed(outcomes[k]).None?
    ensures Loop(rc, outcomes, j, last) == Trace(k - j + 1, Delays(rc, j, k - j), Delivered(outcomes[k].body))
    decreases k - j
  {
    if j < k {
      var e := Failed(outcomes[j]).value;
      LoopSucceedsAt(rc, outcomes, j + 1, k, Some(e));
      assert [Delay(rc, j)] + Delays(rc, j + 1, k - j - 1) == Delays(rc, j, k - j);
    }
  }

  /** From counter `j`, failures on every remaining attempt rethrow the failure of attempt `maxRetries`. */
  lemma {:induction false} LoopExhausts(rc: RetryConfig, outcomes: seq<Outcome>, j: nat, last: Option<TransportError>)
    requires rc.maxRetries < |outcomes|
    requires j <= rc.maxRetries
    requires forall i :: j <= i <= rc.maxRetries ==> Failed(outcomes[i]).Some?
    ensures Loop(rc, outcomes, j, last)
         == Trace(rc.maxRetries - j + 1, Delays(rc, j, rc.maxRetries - j), Rethrown(Failed(outcomes[rc.maxRetries]).value))
    decreases rc.maxRetries - j
  {
    if j < rc.maxRetries {
      var e := Failed(outcomes[j]).value;
      LoopExhausts(rc, outcomes, j + 1, Some(e));
      assert [Delay(rc, j)] + Delays(rc, j + 1, rc.maxRetries - j - 1) == Delays(rc, j, rc.maxRetries - j);
    }
  }

  /** The loop does exactly what the loop-free reference says, for every script and every policy. */
  lemma MakeRequestMatchesExpected(rc: RetryConfig, outcomes: seq<Outcome>)
    requires rc.maxRetries < |outcomes|
    ensures MakeRequest(rc, outcomes) == Expected(rc, outcomes)
  {
    if rc.maxRetries >= 0 {
      var k := FirstSuccess(outcomes, rc.maxRetries + 1);
      if k <= rc.maxRetries {
        LoopSucceedsAt(rc, outcomes, 0, k, None);
      } else {
        LoopExhausts(rc, outcomes, 0, None);
      }
    }
  }

  /** k failures followed by a success within the budget: exactly k + 1 calls, k delays, that body. */
  lemma SuccessAfterFailures(rc: RetryConfig, outcomes: seq<Outcome>, k: nat)
    requires rc.maxRetries < |outcomes|
    requires k <= rc.maxRetries
    requires forall i :: 0 <= i < k ==> Failed(outcomes[i]).Some?
    requires Failed(outcomes[k]).None?
    ensures MakeRequest(rc, outcomes) == Trace(k + 1, Delays(rc, 0, k), Delivered(outcomes[k].body))
  {
    LoopSucceedsAt(rc, outcomes, 0, k, None);
  }

  /** maxRetries + 1 failures: every attempt is made, no delay follows the last, and its error is rethrown. */
  lemma AllAttemptsFail(rc: RetryConfig, outcomes: seq<Outcome>)
    requires 0 <= rc.maxRetries < |outcomes|
    requires forall i :: 0 <= i <= rc.maxRetries ==> Failed(outcomes[i]).Some?
    ensures MakeRequest(rc, outcomes)
         == Trace(rc.maxRetries + 1, Delays(rc, 0, rc.maxRetries), Rethrown(Failed(outcomes[rc.maxRetries]).value))
  {
    LoopExhausts(rc, outcomes, 0, None);
  }

  /** The trailing `throw lastError` (of `null`) is reached exactly when the budget is negative. */
  lemma NullThrownOnlyWithoutBudget(rc: RetryConfig, outcomes: seq<Outcome>)
    requires rc.maxRetries < |outcomes|
    ensures MakeRequest(rc, outcomes).result.NullThrown? <==> rc.maxRetries < 0
  {
  }

  /** With the client's policy the delays between four attempts are 1000, 2000 and 4000 ms. */
  lemma ServiceDelays()
    ensures Delays(ServiceRetry, 0, 3) == [1000, 2000, 4000]
  {
    assert Pow2(1) == 2 && Pow2(2) == 4;
  }

  /** With the client's policy the cap of 5000 ms is first reached after the fourth failure. */
  lemma ServiceDelayCap()
    ensures Delay(ServiceRetry, 3) == 5000
    ensures forall k :: 0 <= k < 3 ==> Delay(ServiceRetry, k) < 5000
  {
    assert Pow2(1) == 2 && Pow2(2) == 4 && Pow2(3) == 8;
    forall k | 0 <= k < 3
      ensures Delay(ServiceRetry, k) < 5000
    {
      assert k == 0 || k == 1 || k == 2;
    }
  }
}
