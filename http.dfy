/**
 * `get_with_backoff`: one GET retried on 429 (Too Many Requests, section 4
 * of RFC 6585) and on 500, 502, 503 and 504 (section 15.6 of RFC 9110),
 * sleeping 1, 2, 4, 8, 8, ... seconds between attempts.
 */
module Http {
  import opened Outcomes
  import opened Json
  import opened Transport

  const RetryableStatuses: set<int> := {429, 500, 502, 503, 504}
  const InitialDelay: nat := 1
  const MaxDelay: nat := 8
  const DefaultMaxRetries := 5

  /** The body of a returned pair: `r.json()` for a 200, `r.text` otherwise (kept with what it decodes to). */
  datatype Body = JsonBody(value: Json) | TextBody(text: string, decoded: Option<Json>)

  /** Why a call raised instead of returning a pair. */
  datatype Fault = RequestError | BodyNotJson

  /** What one call of `get_with_backoff` does: return a (status, body) pair or raise. */
  datatype Fetched = Returned(status: int, body: Body) | Raised(fault: Fault)

  /** The observable trace of one call: its outcome, how many requests it issued, and the sleeps between them. */
  datatype Trace = Trace(result: Fetched, requests: nat, sleeps: seq<nat>)

  /** The dict returned once every attempt was retryable. */
  const RateLimitedBody: Body := JsonBody(JObj(map["error" := JStr("rate_limited")]))

  predicate Retryable(reply: Reply)
  {
    reply.Answered? && reply.response.status in RetryableStatuses
  }

  /** A reply after which the loop returns or raises without another attempt. */
  predicate Settles(reply: Reply)
  {
    !Retryable(reply)
  }

  /** What the call hands back on a reply it does not retry. */
  function Settle(reply: Reply): (f: Fetched)
    requires Settles(reply)
    ensures reply.RequestFailed? ==> f == Raised(RequestError)
    ensures reply.Answered? ==> (f.Returned? <==> reply.response.status != 200 || reply.response.json.Some?)
    ensures f.Returned? ==> reply.Answered? && f.status == reply.response.status
    ensures f.Returned? && f.status == 200 ==> f.body == JsonBody(reply.response.json.value)
    ensures f.Returned? && f.status != 200 ==> f.body == TextBody(reply.response.text, reply.response.json)
  {
    match reply
    case RequestFailed => Raised(RequestError)
    case Answered(r) =>
      if r.status == 200 then
        (if r.json.Some? then Returned(200, JsonBody(r.json.value)) else Raised(BodyNotJson))
      else Returned(r.status, TextBody(r.text, r.json))
  }

  /** The delay slept after the k-th retryable reply. */
  function Delay(k: nat): nat
  {
    Doubling(InitialDelay, MaxDelay, k)
  }

  /** The specification of `get_with_backoff`: what it returns, how many requests it makes, and how long it sleeps. */
  function Backoff(server: Server, maxRetries: int): Trace
  {
    var n := Attempts(maxRetries);
    var k := FirstMatch(server, Settles, 0, n);
    if k < n then Trace(Settle(server(k)), k + 1, Schedule(InitialDelay, MaxDelay, k))
    else Trace(Returned(429, RateLimitedBody), n, Schedule(InitialDelay, MaxDelay, n))
  }

  method GetWithBackoff(server: Server, maxRetries: int) returns (result: Fetched, requests: nat, sleeps: seq<nat>)
    ensures Trace(result, requests, sleeps) == Backoff(server, maxRetries)
  {
    var delay := InitialDelay;
    requests, sleeps := 0, [];
    for i := 0 to Attempts(maxRetries)
      invariant requests == i
      invariant sleeps == Schedule(InitialDelay, MaxDelay, i)
      invariant delay == Delay(i)
      invariant forall j | 0 <= j < i :: Retryable(server(j))
    {
      var reply := server(i);
      requests := requests + 1;
      if reply.RequestFailed? {
        FirstMatchIs(server, Settles, Attempts(maxRetries), i);
        return Raised(RequestError), requests, sleeps;
      }
      var r := reply.response;
      if r.status == 200 {
        FirstMatchIs(server, Settles, Attempts(maxRetries), i);
        if r.json.None? {
          return Raised(BodyNotJson), requests, sleeps;
        }
        return Returned(200, JsonBody(r.json.value)), requests, sleeps;
      }
      if r.status in RetryableStatuses {
        sleeps := sleeps + [delay];
        delay := Min(delay * 2, MaxDelay);
        continue;
      }
      FirstMatchIs(server, Settles, Attempts(maxRetries), i);
      return Returned(r.status, TextBody(r.text, r.json)), requests, sleeps;
    }
    FirstMatchIs(server, Settles, Attempts(maxRetries), Attempts(maxRetries));
    result := Returned(429, RateLimitedBody);
  }

  /** A 200 on attempt k is returned at once: k + 1 requests, and a sleep only after each of the k retryable replies before it. */
  lemma SuccessReturnsAtOnce(server: Server, maxRetries: int, k: nat, text: string, body: Json)
    requires k < Attempts(maxRetries)
    requires forall i | 0 <= i < k :: Retryable(server(i))
    requires server(k) == Answered(Response(200, text, Some(body)))
    ensures Backoff(server, maxRetries) == Trace(Returned(200, JsonBody(body)), k + 1, Schedule(InitialDelay, MaxDelay, k))
  {
    FirstMatchIs(server, Settles, Attempts(maxRetries), k);
  }

  /** Any other status that is not retried is returned unchanged on the attempt it arrives, with no sleep after it. */
  lemma OtherStatusReturnedUnchanged(server: Server, maxRetries: int, k: nat)
    requires k < Attempts(maxRetries)
    requires forall i | 0 <= i < k :: Retryable(server(i))
    requires server(k).Answered? && server(k).response.status != 200
    requires server(k).response.status !in RetryableStatuses
    ensures var t := Backoff(server, maxRetries);
      && t.result == Returned(server(k).response.status, TextBody(server(k).response.text, server(k).response.json))
      && t.requests == k + 1
      && |t.sleeps| == k
  {
    FirstMatchIs(server, Settles, Attempts(maxRetries), k);
  }

  /** Only when every allowed attempt was retryable does the call give the synthetic (429, rate_limited) pair. */
  lemma RateLimitedExactlyWhenExhausted(server: Server, maxRetries: int)
    ensures var t := Backoff(server, maxRetries);
      (forall i | 0 <= i < Attempts(maxRetries) :: Retryable(server(i)))
      <==> (t.result == Returned(429, RateLimitedBody) && t.requests == Attempts(maxRetries))
  {
    var n := Attempts(maxRetries);
    var k := FirstMatch(server, Settles, 0, n);
    if k < n {
      assert !Retryable(server(k));
    }
  }

  /** With no attempts allowed, nothing is requested and nothing slept. */
  lemma NoAttemptsNoRequests(server: Server, maxRetries: int)
    requires maxRetries <= 0
    ensures Backoff(server, maxRetries) == Trace(Returned(429, RateLimitedBody), 0, [])
  {
  }

  /** At most max_retries requests are issued, whatever the server does. */
  lemma RequestsBounded(server: Server, maxRetries: int)
    ensures Backoff(server, maxRetries).requests <= Attempts(maxRetries)
    ensures Backoff(server, maxRetries).requests == 0 <==> maxRetries <= 0
  {
  }

  /** The k-th sleep is min(2^k, 8) seconds: 1, 2, 4, 8, 8, ... and never more than 8. */
  lemma DelayIsCappedPowerOfTwo(k: nat)
    ensures Delay(k) == Min(Pow2(k), MaxDelay)
    ensures 1 <= Delay(k) <= MaxDelay
  {
    if k >= 1 {
      DoublingClosedForm(InitialDelay, MaxDelay, k);
    }
    DoublingBounds(InitialDelay, MaxDelay, k);
  }

  /** One sleep per retryable reply received, including a last sleep when the final attempt was retryable. */
  lemma {:induction false} SleepsCountRetryableReplies(server: Server, maxRetries: int)
    ensures var t := Backoff(server, maxRetries);
      |t.sleeps| == Count(server, Retryable, t.requests)
  {
    var n := Attempts(maxRetries);
    var k := FirstMatch(server, Settles, 0, n);
    CountAll(server, Retryable, k);
    if k == n {
      assert Count(server, Retryable, n) == n;
    } else {
      assert Count(server, Retryable, k + 1) == k;
    }
  }
}
