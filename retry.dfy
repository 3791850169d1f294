/**
 * `_get_json_with_retry`, the older retry loop of the market-chart module:
 * it retries on every non-200 status and on every request exception,
 * doubling its sleep up to 16 seconds, and on exhaustion raises with the
 * status of the last response it actually received.
 */
module LegacyRetry {
  import opened Outcomes
  import opened Json
  import opened Transport

  const DefaultRetries := 6
  const DefaultBackoff: nat := 1
  const MaxBackoff: nat := 16

  /** `RuntimeError(f"HTTP {code}")`: `lastStatus` is None where the message reads "HTTP N/A". */
  datatype RetryError = HttpExhausted(lastStatus: Option<int>)

  datatype RetryTrace = RetryTrace(result: Result<Json, RetryError>, requests: nat, sleeps: seq<nat>)

  /**
   * The reply that ends the loop: a 200 whose body decodes. A 200 whose body
   * does not decode makes `r.json()` raise a decoding error that is a
   * RequestException, so it is caught and retried like a failed request.
   */
  predicate Succeeds(reply: Reply)
  {
    reply.Answered? && reply.response.status == 200 && reply.response.json.Some?
  }

  /** `getattr(last, "status_code", "N/A")`: the status of the latest response among the first n replies. */
  function LastStatus(server: Server, n: nat): (s: Option<int>)
    ensures s.None? <==> forall i | 0 <= i < n :: server(i).RequestFailed?
  {
    if n == 0 then None
    else if server(n - 1).Answered? then Some(server(n - 1).response.status)
    else LastStatus(server, n - 1)
  }

  /** The specification of `_get_json_with_retry`. */
  function Retrying(server: Server, retries: int, backoff: nat): RetryTrace
  {
    var n := Attempts(retries);
    var k := FirstMatch(server, Succeeds, 0, n);
    if k < n then RetryTrace(Ok(server(k).response.json.value), k + 1, Schedule(backoff, MaxBackoff, k))
    else RetryTrace(Err(HttpExhausted(LastStatus(server, n))), n, Schedule(backoff, MaxBackoff, n))
  }

  method GetJsonWithRetry(server: Server, retries: int, backoff: nat) returns (result: Result<Json, RetryError>, requests: nat, sleeps: seq<nat>)
    ensures RetryTrace(result, requests, sleeps) == Retrying(server, retries, backoff)
  {
    var last: Option<Response> := None;
    var delay := backoff;
    requests, sleeps := 0, [];
    for i := 0 to Attempts(retries)
      invariant requests == i
      invariant sleeps == Schedule(backoff, MaxBackoff, i)
      invariant delay == Doubling(backoff, MaxBackoff, i)
      invariant forall j | 0 <= j < i :: !Succeeds(server(j))
      invariant (if last.Some? then Some(last.value.status) else None) == LastStatus(server, i)
    {
      var reply := server(i);
      requests := requests + 1;
      if reply.Answered? {
        var r := reply.response;
        last := Some(r);
        if r.status == 200 && r.json.Some? {
          FirstMatchIs(server, Succeeds, Attempts(retries), i);
          return Ok(r.json.value), requests, sleeps;
        }
      }
      sleeps := sleeps + [delay];
      delay := Min(delay * 2, MaxBackoff);
    }
    FirstMatchIs(server, Succeeds, Attempts(retries), Attempts(retries));
    var code := if last.Some? then Some(last.value.status) else None;
    result := Err(HttpExhausted(code));
  }

  /** The first 200 with a decodable body is returned, after exactly k + 1 requests. */
  lemma FirstSuccessReturned(server: Server, retries: int, backoff: nat, k: nat, text: string, body: Json)
    requires k < Attempts(retries)
    requires forall i | 0 <= i < k :: !Succeeds(server(i))
    requires server(k) == Answered(Response(200, text, Some(body)))
    ensures Retrying(server, retries, backoff).result == Ok(body)
    ensures Retrying(server, retries, backoff).requests == k + 1
  {
    FirstMatchIs(server, Succeeds, Attempts(retries), k);
  }

  /** At most `retries` requests, and exactly that many when none succeeds. */
  lemma RequestsBounded(server: Server, retries: int, backoff: nat)
    ensures var t := Retrying(server, retries, backoff);
      && t.requests <= Attempts(retries)
      && (t.result.Err? ==> t.requests == Attempts(retries))
  {
  }

  /** One sleep after every failed attempt, the last included; from the second on each doubles the one before, capped at 16. */
  lemma SleepsDoubleUpTo16(server: Server, retries: int, backoff: nat, k: nat)
    requires k < |Retrying(server, retries, backoff).sleeps|
    ensures var s := Retrying(server, retries, backoff).sleeps;
      && s[0] == backoff
      && (0 < k ==> s[k] == Min(2 * s[k - 1], MaxBackoff) && s[k] <= MaxBackoff)
  {
    DoublingBounds(backoff, MaxBackoff, k);
  }

  /** With the default backoff the sleeps are min(2^k, 16): 1, 2, 4, 8, 16, 16. */
  lemma DefaultSleepsArePowersOfTwo(server: Server, retries: int, k: nat)
    requires k < |Retrying(server, retries, DefaultBackoff).sleeps|
    ensures Retrying(server, retries, DefaultBackoff).sleeps[k] == Min(Pow2(k), MaxBackoff)
  {
    if k >= 1 {
      DoublingClosedForm(DefaultBackoff, MaxBackoff, k);
    }
  }

  /**
   * On exhaustion the error carries the status of the latest response
   * received: a request exception after it does not overwrite it.
   */
  lemma {:induction false} LastStatusIsLatestResponse(server: Server, n: nat, j: nat)
    requires j < n && server(j).Answered?
    requires forall i | j < i < n :: server(i).RequestFailed?
    ensures LastStatus(server, n) == Some(server(j).response.status)
  {
    if j < n - 1 {
      LastStatusIsLatestResponse(server, n - 1, j);
    }
  }

  /** When every attempt raised, the error reads "HTTP N/A". */
  lemma AllRaisedReportsNA(server: Server, retries: int, backoff: nat)
    requires forall i | 0 <= i < Attempts(retries) :: server(i).RequestFailed?
    ensures Retrying(server, retries, backoff).result == Err(HttpExhausted(None))
  {
    FirstMatchIs(server, Succeeds, Attempts(retries), Attempts(retries));
  }
}
