/**
 * What both retry loops share: the replies a server gives to successive
 * requests of one call, the search for the first reply that ends the loop,
 * and the doubling, capped sleep schedule.
 */
module Transport {
  import opened Outcomes
  import opened Json

  /** A response: its status code, its body text, and what decoding that text as JSON gives (None if it is not JSON). */
  datatype Response = Response(status: int, text: string, json: Option<Json>)

  /** The outcome of one `requests.get`: a response, or a RequestException (connection error, timeout). */
  datatype Reply = Answered(response: Response) | RequestFailed

  /** A server, seen from one call: its reply to the i-th request of that call. */
  type Server = nat -> Reply

  function Min(a: int, b: int): int { if a <= b then a else b }

  function Pow2(k: nat): (p: nat)
    ensures p >= 1
  {
    if k == 0 then 1 else 2 * Pow2(k - 1)
  }

  /** `range(n)` runs no iteration at all for a negative n. */
  function Attempts(n: int): (a: nat)
    ensures n >= 0 ==> a == n
    ensures n < 0 ==> a == 0
  {
    if n < 0 then 0 else n
  }

  /**
   * The first index in [from, n) whose reply satisfies `stop`, or n when
   * there is none: the attempt at which a retry loop over n attempts ends.
   */
  function FirstMatch(server: Server, stop: Reply -> bool, from: nat, n: nat): (k: nat)
    requires from <= n
    ensures from <= k <= n
    ensures forall i | from <= i < k :: !stop(server(i))
    ensures k < n ==> stop(server(k))
    decreases n - from
  {
    if from == n then n
    else if stop(server(from)) then from
    else FirstMatch(server, stop, from + 1, n)
  }

  /** The first match is determined by the replies alone: no later reply can change it. */
  lemma FirstMatchIs(server: Server, stop: Reply -> bool, n: nat, k: nat)
    requires k <= n
    requires forall i | 0 <= i < k :: !stop(server(i))
    requires k < n ==> stop(server(k))
    ensures FirstMatch(server, stop, 0, n) == k
  {
  }

  /**
   * The k-th sleep of a loop that starts at `initial` and after each sleep
   * sets the delay to min(2 * delay, cap).
   */
  function Doubling(initial: nat, cap: nat, k: nat): nat
  {
    if k == 0 then initial else Min(2 * Doubling(initial, cap, k - 1), cap)
  }

  lemma MulDouble(a: nat, p: nat)
    ensures a * (2 * p) == 2 * (a * p)
  {
  }

  /** After the first sleep the delay is the initial one doubled k times, capped. */
  lemma {:induction false} DoublingClosedForm(initial: nat, cap: nat, k: nat)
    requires k >= 1
    ensures Doubling(initial, cap, k) == Min(initial * Pow2(k), cap)
  {
    if k > 1 {
      DoublingClosedForm(initial, cap, k - 1);
      var before := initial * Pow2(k - 1);
      assert Pow2(k) == 2 * Pow2(k - 1);
      MulDouble(initial, Pow2(k - 1));
      if before <= cap {
        assert Doubling(initial, cap, k) == Min(2 * before, cap);
      } else {
        assert Doubling(initial, cap, k) == cap;
      }
    }
  }

  /** No sleep after the first exceeds the cap, and none is below the smaller of the start and the cap. */
  lemma {:induction false} DoublingBounds(initial: nat, cap: nat, k: nat)
    ensures k >= 1 ==> Doubling(initial, cap, k) <= cap
    ensures Min(initial, cap) <= Doubling(initial, cap, k)
  {
    if k >= 1 {
      DoublingBounds(initial, cap, k - 1);
    }
  }

  /** The sleeps of the first n retries, in order. */
  function Schedule(initial: nat, cap: nat, n: nat): (s: seq<nat>)
    ensures |s| == n
    ensures forall k | 0 <= k < n :: s[k] == Doubling(initial, cap, k)
  {
    if n == 0 then [] else Schedule(initial, cap, n - 1) + [Doubling(initial, cap, n - 1)]
  }

  /** How many of the first n replies satisfy `p`. */
  function Count(server: Server, p: Reply -> bool, n: nat): (c: nat)
    ensures c <= n
  {
    if n == 0 then 0 else Count(server, p, n - 1) + (if p(server(n - 1)) then 1 else 0)
  }

  /** When every one of the first n replies satisfies `p`, all n are counted. */
  lemma {:induction false} CountAll(server: Server, p: Reply -> bool, n: nat)
    requires forall i | 0 <= i < n :: p(server(i))
    ensures Count(server, p, n) == n
  {
    if n > 0 {
      CountAll(server, p, n - 1);
    }
  }
}
