/**
 * The ccxt provider: daily OHLCV candles paginated with a `since` cursor, and
 * a fallback over exchanges (kraken first, then binance) that records why
 * each exchange failed.
 */
module Ccxt {
  import opened Outcomes
  import opened Frames

  const OhlcvLimit := 1000

  /** One candle: `[ms, open, high, low, close, volume]`. */
  datatype Candle = Candle(ms: int, open: int, high: int, low: int, close: int, volume: int)

  /** `ex.fetch_ohlcv(symbol, timeframe="1d", since=since, limit=1000)` of one market: the page for a cursor, or the exception. */
  type OhlcvFeed = Option<int> -> Result<seq<Candle>, string>

  function LastMs(page: seq<Candle>): int
    requires page != []
  {
    page[|page| - 1].ms
  }

  /**
   * Every full page ends at or after the cursor it was asked for and no later
   * than `latest`, the newest candle the exchange has; without this the loop
   * of `_fetch_all_ohlcv` need not end.
   */
  ghost predicate Bounded(feed: OhlcvFeed, latest: int)
  {
    forall since :: PageBounded(feed, latest, since)
  }

  /** The page asked for with `since`, if full, ends in [since, latest]. */
  ghost predicate PageBounded(feed: OhlcvFeed, latest: int, since: Option<int>)
  {
    feed(since).Ok? && |feed(since).value| >= OhlcvLimit ==>
      && (since.Some? ==> LastMs(feed(since).value) >= since.value)
      && LastMs(feed(since).value) <= latest
  }

  /** The pages fetched, the cursor of every request, and the exception that ended the loop, if any. */
  datatype OhlcvWalk = OhlcvWalk(pages: seq<seq<Candle>>, sinces: seq<Option<int>>, failure: Option<string>)

  /** The request loop of `_fetch_all_ohlcv`, from cursor `since` on. */
  function OhlcvPages(feed: OhlcvFeed, latest: int, since: Option<int>): (w: OhlcvWalk)
    requires Bounded(feed, latest)
    ensures |w.sinces| == |w.pages| || |w.sinces| == |w.pages| + 1
    decreases (if since.None? then 1 else 0), (if since.Some? then latest + 1 - since.value else 0)
  {
    match feed(since)
    case Err(e) => OhlcvWalk([], [since], Some(e))
    case Ok(data) =>
      if data == [] then OhlcvWalk([], [since], None)
      else if |data| < OhlcvLimit then OhlcvWalk([data], [since], None)
      else
        assert PageBounded(feed, latest, since);
        var rest := OhlcvPages(feed, latest, Some(LastMs(data) + 1));
        OhlcvWalk([data] + rest.pages, [since] + rest.sinces, rest.failure)
  }

  /**
   * The first request has cursor `since`; each page is the feed's answer at
   * its cursor and is not empty; every page but the last is full; a failure
   * is the feed's exception at the last cursor.
   */
  lemma {:induction false} OhlcvWalkPages(feed: OhlcvFeed, latest: int, since: Option<int>)
    requires Bounded(feed, latest)
    ensures var w := OhlcvPages(feed, latest, since);
      && |w.sinces| >= 1 && w.sinces[0] == since
      && (forall i | 0 <= i < |w.pages| :: w.pages[i] != [] && feed(w.sinces[i]) == Ok(w.pages[i]))
      && (forall i | 0 <= i < |w.pages| - 1 :: |w.pages[i]| >= OhlcvLimit)
      && (w.failure.Some? ==> |w.sinces| == |w.pages| + 1 && feed(w.sinces[|w.pages|]) == Err(w.failure.value))
    decreases (if since.None? then 1 else 0), (if since.Some? then latest + 1 - since.value else 0)
  {
    var w := OhlcvPages(feed, latest, since);
    if feed(since).Ok? && feed(since).value != [] && |feed(since).value| >= OhlcvLimit {
      var data := feed(since).value;
      var next := Some(LastMs(data) + 1);
      assert PageBounded(feed, latest, since);
      OhlcvWalkPages(feed, latest, next);
      var rest := OhlcvPages(feed, latest, next);
      assert w.pages == [data] + rest.pages && w.sinces == [since] + rest.sinces;
      forall i | 1 <= i < |w.pages| ensures w.pages[i] != [] && feed(w.sinces[i]) == Ok(w.pages[i]) && (i < |w.pages| - 1 ==> |w.pages[i]| >= OhlcvLimit) {
        assert w.pages[i] == rest.pages[i - 1] && w.sinces[i] == rest.sinces[i - 1];
      }
      if w.failure.Some? {
        assert w.sinces[|w.pages|] == rest.sinces[|rest.pages|];
      }
    }
  }

  /** A full page: the walk records it and goes on from its last timestamp + 1, past `since` and no later than `latest` + 1. */
  lemma OhlcvFullStep(feed: OhlcvFeed, latest: int, since: Option<int>)
    requires Bounded(feed, latest)
    requires feed(since).Ok? && |feed(since).value| >= OhlcvLimit
    ensures var data := feed(since).value;
      var next := LastMs(data) + 1;
      var rest := OhlcvPages(feed, latest, Some(next));
      && (since.Some? ==> next > since.value) && next <= latest + 1
      && OhlcvPages(feed, latest, since) == OhlcvWalk([data] + rest.pages, [since] + rest.sinces, rest.failure)
  {
    assert PageBounded(feed, latest, since);
  }

  /** A failed, empty or short page is the walk's last request. */
  lemma OhlcvEndStep(feed: OhlcvFeed, latest: int, since: Option<int>)
    requires Bounded(feed, latest)
    requires !(feed(since).Ok? && |feed(since).value| >= OhlcvLimit)
    ensures OhlcvPages(feed, latest, since).sinces == [since]
  {
  }

  /** The walk's first request asks from `since`. */
  lemma OhlcvFirstSince(feed: OhlcvFeed, latest: int, since: Option<int>)
    requires Bounded(feed, latest)
    ensures var w := OhlcvPages(feed, latest, since);
      |w.sinces| >= 1 && w.sinces[0] == since
  {
    if feed(since).Ok? && |feed(since).value| >= OhlcvLimit {
      OhlcvFullStep(feed, latest, since);
    } else {
      OhlcvEndStep(feed, latest, since);
    }
  }

  /** The cursor after page `i` is that page's last timestamp + 1. */
  lemma {:induction false} OhlcvNextSince(feed: OhlcvFeed, latest: int, since: Option<int>, i: nat)
    requires Bounded(feed, latest)
    requires i + 1 < |OhlcvPages(feed, latest, since).sinces|
    ensures var w := OhlcvPages(feed, latest, since);
      w.pages[i] != [] && w.sinces[i + 1] == Some(LastMs(w.pages[i]) + 1)
    decreases (if since.None? then 1 else 0), (if since.Some? then latest + 1 - since.value else 0)
  {
    if feed(since).Ok? && |feed(since).value| >= OhlcvLimit {
      OhlcvFullStep(feed, latest, since);
      var next := Some(LastMs(feed(since).value) + 1);
      if i > 0 {
        OhlcvNextSince(feed, latest, next, i - 1);
      } else {
        OhlcvFirstSince(feed, latest, next);
      }
    } else {
      OhlcvEndStep(feed, latest, since);
    }
  }

  /** Every cursor after the first is a timestamp past `since`. */
  lemma {:induction false} OhlcvSinceAfter(feed: OhlcvFeed, latest: int, since: Option<int>, i: nat)
    requires Bounded(feed, latest)
    requires 1 <= i < |OhlcvPages(feed, latest, since).sinces|
    ensures var w := OhlcvPages(feed, latest, since);
      w.sinces[i].Some? && (since.Some? ==> w.sinces[i].value > since.value)
    decreases (if since.None? then 1 else 0), (if since.Some? then latest + 1 - since.value else 0)
  {
    if feed(since).Ok? && |feed(since).value| >= OhlcvLimit {
      OhlcvFullStep(feed, latest, since);
      var next := Some(LastMs(feed(since).value) + 1);
      if i > 1 {
        OhlcvSinceAfter(feed, latest, next, i - 1);
      } else {
        OhlcvFirstSince(feed, latest, next);
      }
    } else {
      OhlcvEndStep(feed, latest, since);
    }
  }

  /** The cursors after the first strictly increase: no page is asked for twice. */
  lemma {:induction false} OhlcvSincesIncrease(feed: OhlcvFeed, latest: int, since: Option<int>, i: nat, j: nat)
    requires Bounded(feed, latest)
    requires 1 <= i < j < |OhlcvPages(feed, latest, since).sinces|
    ensures var w := OhlcvPages(feed, latest, since);
      w.sinces[i].Some? && w.sinces[j].Some? && w.sinces[i].value < w.sinces[j].value
    decreases (if since.None? then 1 else 0), (if since.Some? then latest + 1 - since.value else 0)
  {
    if feed(since).Ok? && |feed(since).value| >= OhlcvLimit {
      OhlcvFullStep(feed, latest, since);
      var next := Some(LastMs(feed(since).value) + 1);
      if i > 1 {
        OhlcvSincesIncrease(feed, latest, next, i - 1, j - 1);
      } else {
        OhlcvFirstSince(feed, latest, next);
        OhlcvSinceAfter(feed, latest, next, j - 1);
      }
    } else {
      OhlcvEndStep(feed, latest, since);
    }
  }

  /**
   * The walk asks from `since` first, each next cursor is the last candle's
   * timestamp + 1, every later cursor lies past `since`, and the later
   * cursors strictly increase.
   */
  lemma OhlcvWalkCursors(feed: OhlcvFeed, latest: int, since: Option<int>)
    requires Bounded(feed, latest)
    ensures var w := OhlcvPages(feed, latest, since);
      && |w.sinces| >= 1 && w.sinces[0] == since
      && (forall i | 0 <= i < |w.sinces| - 1 :: w.pages[i] != [] && w.sinces[i + 1] == Some(LastMs(w.pages[i]) + 1))
      && (forall i | 1 <= i < |w.sinces| :: w.sinces[i].Some? && (since.Some? ==> w.sinces[i].value > since.value))
      && (forall i, j | 1 <= i < j < |w.sinces| :: w.sinces[i].Some? && w.sinces[j].Some? && w.sinces[i].value < w.sinces[j].value)
  {
    var w := OhlcvPages(feed, latest, since);
    OhlcvFirstSince(feed, latest, since);
    forall i | 0 <= i < |w.sinces| - 1 ensures w.pages[i] != [] && w.sinces[i + 1] == Some(LastMs(w.pages[i]) + 1) {
      OhlcvNextSince(feed, latest, since, i);
    }
    forall i | 1 <= i < |w.sinces| ensures w.sinces[i].Some? && (since.Some? ==> w.sinces[i].value > since.value) {
      OhlcvSinceAfter(feed, latest, since, i);
    }
    forall i, j | 1 <= i < j < |w.sinces| ensures w.sinces[i].Some? && w.sinces[j].Some? && w.sinces[i].value < w.sinces[j].value {
      OhlcvSincesIncrease(feed, latest, since, i, j);
    }
  }


  /** The loop ends on an empty page, on a short page, or on an exception. */
  lemma {:induction false} OhlcvWalkStops(feed: OhlcvFeed, latest: int, since: Option<int>)
    requires Bounded(feed, latest)
    ensures var w := OhlcvPages(feed, latest, since);
      && (w.failure.None? && |w.sinces| == |w.pages| + 1 ==> feed(w.sinces[|w.pages|]) == Ok([]))
      && (w.failure.None? && |w.sinces| == |w.pages| ==> w.pages != [] && |w.pages[|w.pages| - 1]| < OhlcvLimit)
    decreases (if since.None? then 1 else 0), (if since.Some? then latest + 1 - since.value else 0)
  {
    if feed(since).Ok? && feed(since).value != [] && |feed(since).value| >= OhlcvLimit {
      assert PageBounded(feed, latest, since);
      OhlcvWalkStops(feed, latest, Some(LastMs(feed(since).value) + 1));
    }
  }

  /** Why one exchange gave no frame. */
  datatype Fault =
    | SymbolMissing(symbol: string)   // "symbol {symbol} missing"
    | NoOhlcv(symbol: string)         // "No OHLCV from {ex.id} {symbol}"
    | Raised(message: string)         // repr of any other exception

  function CandleRow(c: Candle): CloseRow
  {
    CloseRow(c.ms, DayOf(c.ms), Some(c.close), Some(c.volume))
  }

  /** The frame's columns: one row per candle, its UTC timestamp, the day of that timestamp, its close and its volume. */
  function CandleRows(candles: seq<Candle>): (r: seq<CloseRow>)
    ensures |r| == |candles|
    ensures forall i | 0 <= i < |candles| ::
      && r[i].timestampMs == candles[i].ms && r[i].date == DayOf(candles[i].ms)
      && r[i].close == Some(candles[i].close) && r[i].volume == Some(candles[i].volume)
  {
    seq(|candles|, i requires 0 <= i < |candles| => CandleRow(candles[i]))
  }

  /** The specification of `_fetch_all_ohlcv`: all pages' candles, ordered by timestamp. */
  function AllOhlcv(feed: OhlcvFeed, latest: int, symbol: string): (r: Result<seq<CloseRow>, Fault>)
    requires Bounded(feed, latest)
  {
    var w := OhlcvPages(feed, latest, None);
    if w.failure.Some? then Err(Raised(w.failure.value))
    else if Concat(w.pages) == [] then Err(NoOhlcv(symbol))
    else Ok(SortBy(CandleRows(Concat(w.pages)), CloseTimestamp))
  }

  /** The frame holds every fetched candle, once each, ordered by timestamp; zero candles raise. */
  lemma OhlcvFrameIsSortedPermutation(feed: OhlcvFeed, latest: int, symbol: string)
    requires Bounded(feed, latest)
    ensures var w := OhlcvPages(feed, latest, None);
      var r := AllOhlcv(feed, latest, symbol);
      && (r.Ok? <==> w.failure.None? && Concat(w.pages) != [])
      && (r == Err(NoOhlcv(symbol)) <==> w.failure.None? && Concat(w.pages) == [])
      && (r.Ok? ==> SortedBy(r.value, CloseTimestamp) && multiset(r.value) == multiset(CandleRows(Concat(w.pages))))
  {
  }

  /** What the loop of `_fetch_all_ohlcv` ends with when it resumes from `since` holding `rows` and `sinces`. */
  ghost function Collected(feed: OhlcvFeed, latest: int, since: Option<int>, rows: seq<Candle>, sinces: seq<Option<int>>): (seq<Candle>, seq<Option<int>>, Option<string>)
    requires Bounded(feed, latest)
  {
    var w := OhlcvPages(feed, latest, since);
    (rows + Concat(w.pages), sinces + w.sinces, w.failure)
  }

  /** A full page: the loop takes it and goes on from its last timestamp + 1, which lies past `since` and no later than `latest`. */
  lemma CollectFullPage(feed: OhlcvFeed, latest: int, since: Option<int>, rows: seq<Candle>, sinces: seq<Option<int>>)
    requires Bounded(feed, latest)
    requires feed(since).Ok? && |feed(since).value| >= OhlcvLimit
    ensures var next := LastMs(feed(since).value) + 1;
      && (since.Some? ==> next > since.value) && next <= latest + 1
      && Collected(feed, latest, since, rows, sinces)
         == Collected(feed, latest, Some(next), rows + feed(since).value, sinces + [since])
  {
    assert PageBounded(feed, latest, since);
    var data := feed(since).value;
    var rest := OhlcvPages(feed, latest, Some(LastMs(data) + 1));
    ConcatCons(data, rest.pages);
    assert rows + (data + Concat(rest.pages)) == (rows + data) + Concat(rest.pages);
    assert sinces + ([since] + rest.sinces) == (sinces + [since]) + rest.sinces;
  }

  /** A failed, empty or short page ends the loop there. */
  lemma CollectLastPage(feed: OhlcvFeed, latest: int, since: Option<int>, rows: seq<Candle>, sinces: seq<Option<int>>)
    requires Bounded(feed, latest)
    requires feed(since).Err? || |feed(since).value| < OhlcvLimit
    ensures Collected(feed, latest, since, rows, sinces)
         == if feed(since).Err? then (rows, sinces + [since], Some(feed(since).error))
            else (rows + feed(since).value, sinces + [since], None)
  {
    if feed(since).Ok? && feed(since).value != [] {
      var data := feed(since).value;
      assert [data][..0] == [];
      assert Concat([data]) == [] + data == data;
    } else {
      assert rows + Concat<Candle>([]) == rows;
    }
  }

  /** The `while True` loop of `_fetch_all_ohlcv`: the candles it collects, the cursors it sends, and the exception that ends it. */
  method CollectOhlcv(feed: OhlcvFeed, latest: int) returns (rows: seq<Candle>, sinces: seq<Option<int>>, failure: Option<string>)
    requires Bounded(feed, latest)
    ensures var w := OhlcvPages(feed, latest, None);
      rows == Concat(w.pages) && sinces == w.sinces && failure == w.failure
  {
    ghost var goal := Collected(feed, latest, None, [], []);
    ghost var w := OhlcvPages(feed, latest, None);
    assert goal == (Concat(w.pages), w.sinces, w.failure) by {
      assert [] + Concat(w.pages) == Concat(w.pages);
      assert [] + w.sinces == w.sinces;
    }
    var since: Option<int> := None;
    rows, sinces := [], [];
    while true
      invariant Collected(feed, latest, since, rows, sinces) == goal
      decreases (if since.None? then 1 else 0), (if since.Some? then latest + 1 - since.value else 0)
    {
      var fetched := feed(since);
      if fetched.Err? {
        CollectLastPage(feed, latest, since, rows, sinces);
        return rows, sinces + [since], Some(fetched.error);
      }
      var data := fetched.value;
      if data == [] {
        CollectLastPage(feed, latest, since, rows, sinces);
        sinces := sinces + [since];
        break;
      }
      if |data| < OhlcvLimit {
        CollectLastPage(feed, latest, since, rows, sinces);
      } else {
        CollectFullPage(feed, latest, since, rows, sinces);
      }
      rows := rows + data;
      sinces := sinces + [since];
      since := Some(LastMs(data) + 1);
      if |data| < OhlcvLimit {
        break;
      }
    }
    failure := None;
  }

  method FetchAllOhlcv(feed: OhlcvFeed, latest: int, symbol: string) returns (r: Result<seq<CloseRow>, Fault>, sinces: seq<Option<int>>)
    requires Bounded(feed, latest)
    ensures r == AllOhlcv(feed, latest, symbol)
    ensures sinces == OhlcvPages(feed, latest, None).sinces
  {
    var rows, failure;
    rows, sinces, failure := CollectOhlcv(feed, latest);
    if failure.Some? {
      return Err(Raised(failure.value)), sinces;
    }
    if rows == [] {
      return Err(NoOhlcv(symbol)), sinces;
    }
    r := Ok(SortBy(CandleRows(rows), CloseTimestamp));
  }

  // ---------------- The exchange fallback ----------------

  /**
   * One ccxt exchange as the fallback sees it: the outcome of creating it and
   * loading its markets, the OHLCV feed of each symbol, and its newest candle.
   */
  datatype Exchange = Exchange(markets: Result<set<string>, string>, ohlcv: string -> OhlcvFeed, latest: int)

  type Pair = (string, string)

  /** `_SYMBOLS.get(coin_id)`: USD first on kraken, then USDT on binance; no entry is the empty list. */
  function Symbols(coinId: string): (pairs: seq<Pair>)
    ensures pairs != [] <==> coinId in {"bitcoin", "ethereum"}
    ensures pairs != [] ==> |pairs| == 2 && pairs[0].0 == "kraken" && pairs[1].0 == "binance"
  {
    if coinId == "bitcoin" then [("kraken", "BTC/USD"), ("binance", "BTC/USDT")]
    else if coinId == "ethereum" then [("kraken", "ETH/USD"), ("binance", "ETH/USDT")]
    else []
  }

  /** The feed of a market ends. */
  ghost predicate Ends(exchanges: string -> Exchange, pair: Pair)
  {
    Bounded(exchanges(pair.0).ohlcv(pair.1), exchanges(pair.0).latest)
  }

  /** Every listed market's feed ends. */
  ghost predicate WellBehaved(exchanges: string -> Exchange, pairs: seq<Pair>)
  {
    forall p | p in pairs :: Ends(exchanges, p)
  }

  /** The body of the `try` for one exchange. */
  function Attempt(exchanges: string -> Exchange, pair: Pair): Result<seq<CloseRow>, Fault>
    requires Ends(exchanges, pair)
  {
    var (ex, symbol) := (exchanges(pair.0), pair.1);
    match ex.markets
    case Err(e) => Err(Raised(e))
    case Ok(markets) =>
      if symbol !in markets then Err(SymbolMissing(symbol))
      else AllOhlcv(ex.ohlcv(symbol), ex.latest, symbol)
  }

  /** The result of the loop and the exchanges it contacted, in order. */
  datatype Tried = Tried(result: Result<seq<CloseRow>, seq<(string, Fault)>>, contacted: seq<string>)

  /** The `for` loop over the pairs: the first success, or every exchange's fault in order. */
  function TryPairs(exchanges: string -> Exchange, pairs: seq<Pair>): (t: Tried)
    requires WellBehaved(exchanges, pairs)
  {
    if pairs == [] then Tried(Err([]), [])
    else
      match Attempt(exchanges, pairs[0])
      case Ok(df) => Tried(Ok(df), [pairs[0].0])
      case Err(f) =>
        var rest := TryPairs(exchanges, pairs[1..]);
        Tried(if rest.result.Ok? then rest.result else Err([(pairs[0].0, f)] + rest.result.error),
              [pairs[0].0] + rest.contacted)
  }

  datatype CcxtError =
    | NoMapping(coinId: string)                                  // ValueError
    | AllFailed(coinId: string, errors: seq<(string, Fault)>)    // "CCXT failed for {coin_id}: {errors}"

  datatype CcxtOutcome = CcxtOutcome(result: Result<seq<CloseRow>, CcxtError>, contacted: seq<string>)

  /** The specification of `fetch_daily_close_ccxt`. */
  function CcxtDaily(exchanges: string -> Exchange, coinId: string): CcxtOutcome
    requires WellBehaved(exchanges, Symbols(coinId))
  {
    var pairs := Symbols(coinId);
    if pairs == [] then CcxtOutcome(Err(NoMapping(coinId)), [])
    else
      var t := TryPairs(exchanges, pairs);
      CcxtOutcome(if t.result.Ok? then Ok(t.result.value) else Err(AllFailed(coinId, t.result.error)), t.contacted)
  }

  /** The body of the `try`: create the exchange, load its markets, check the symbol, fetch its candles. */
  method TryExchange(exchanges: string -> Exchange, pair: Pair) returns (attempt: Result<seq<CloseRow>, Fault>)
    requires Ends(exchanges, pair)
    ensures attempt == Attempt(exchanges, pair)
  {
    var (exId, symbol) := pair;
    var ex := exchanges(exId);
    if ex.markets.Err? {
      return Err(Raised(ex.markets.error));
    }
    if symbol !in ex.markets.value {
      return Err(SymbolMissing(symbol));
    }
    var sinces;
    attempt, sinces := FetchAllOhlcv(ex.ohlcv(symbol), ex.latest, symbol);
  }

  /** What the loop of `fetch_daily_close_ccxt` ends with when it resumes at pair `i` holding `errors` and `contacted`. */
  ghost function Pending(exchanges: string -> Exchange, pairs: seq<Pair>, i: nat, errors: seq<(string, Fault)>, contacted: seq<string>): Tried
    requires WellBehaved(exchanges, pairs) && i <= |pairs|
  {
    var t := TryPairs(exchanges, pairs[i..]);
    Tried(if t.result.Ok? then t.result else Err(errors + t.result.error), contacted + t.contacted)
  }

  /** One step of the loop: the pair at `i` is tried; success ends the loop, a failure is recorded and the loop moves on. */
  lemma PendingStep(exchanges: string -> Exchange, pairs: seq<Pair>, i: nat, errors: seq<(string, Fault)>, contacted: seq<string>)
    requires WellBehaved(exchanges, pairs) && i < |pairs|
    ensures var here := Attempt(exchanges, pairs[i]);
      Pending(exchanges, pairs, i, errors, contacted) ==
        if here.Ok? then Tried(Ok(here.value), contacted + [pairs[i].0])
        else Pending(exchanges, pairs, i + 1, errors + [(pairs[i].0, here.error)], contacted + [pairs[i].0])
  {
    assert pairs[i..][0] == pairs[i] && pairs[i..][1..] == pairs[i + 1..];
    var here := Attempt(exchanges, pairs[i]);
    var rest := TryPairs(exchanges, pairs[i + 1..]);
    if here.Err? {
      var e := (pairs[i].0, here.error);
      if rest.result.Err? {
        assert errors + ([e] + rest.result.error) == (errors + [e]) + rest.result.error;
      }
      assert contacted + ([pairs[i].0] + rest.contacted) == (contacted + [pairs[i].0]) + rest.contacted;
    }
  }

  method FetchDailyCloseCcxt(exchanges: string -> Exchange, coinId: string) returns (r: Result<seq<CloseRow>, CcxtError>, contacted: seq<string>)
    requires WellBehaved(exchanges, Symbols(coinId))
    ensures CcxtOutcome(r, contacted) == CcxtDaily(exchanges, coinId)
  {
    var pairs := Symbols(coinId);
    contacted := [];
    if pairs == [] {
      return Err(NoMapping(coinId)), contacted;
    }
    ghost var full := TryPairs(exchanges, pairs);
    var errors: seq<(string, Fault)> := [];
    assert Pending(exchanges, pairs, 0, errors, contacted) == full by {
      assert pairs[0..] == pairs;
      assert full.result.Err? ==> [] + full.result.error == full.result.error;
      assert [] + full.contacted == full.contacted;
    }
    for i := 0 to |pairs|
      invariant Pending(exchanges, pairs, i, errors, contacted) == full
    {
      var exId := pairs[i].0;
      assert pairs[i] in pairs;
      PendingStep(exchanges, pairs, i, errors, contacted);
      contacted := contacted + [exId];
      var attempt := TryExchange(exchanges, pairs[i]);
      if attempt.Ok? {
        return Ok(attempt.value), contacted;
      }
      errors := errors + [(exId, attempt.error)];
    }
    assert pairs[|pairs|..] == [] && errors + [] == errors && contacted + [] == contacted;
    r := Err(AllFailed(coinId, errors));
  }

  /** An unmapped coin raises ValueError before any exchange is contacted. */
  lemma UnmappedCoinContactsNoExchange(exchanges: string -> Exchange, coinId: string)
    requires coinId != "bitcoin" && coinId != "ethereum"
    ensures CcxtDaily(exchanges, coinId) == CcxtOutcome(Err(NoMapping(coinId)), [])
  {
  }

  /**
   * The exchanges are contacted in listed order, each only after every
   * earlier one failed; the result is that of the last one contacted, and a
   * success stops the loop.
   */
  lemma {:induction false} FirstSuccessfulExchangeWins(exchanges: string -> Exchange, pairs: seq<Pair>)
    requires WellBehaved(exchanges, pairs)
    ensures var t := TryPairs(exchanges, pairs);
      && |t.contacted| <= |pairs|
      && (forall j | 0 <= j < |t.contacted| :: t.contacted[j] == pairs[j].0)
      && (forall j | 0 <= j < |t.contacted| - 1 :: Attempt(exchanges, pairs[j]).Err?)
      && (t.result.Ok? <==> t.contacted != [] && Attempt(exchanges, pairs[|t.contacted| - 1]).Ok?)
      && (t.result.Ok? ==> Ok(t.result.value) == Attempt(exchanges, pairs[|t.contacted| - 1]))
    decreases |pairs|
  {
    if pairs != [] && Attempt(exchanges, pairs[0]).Err? {
      var tail := pairs[1..];
      FirstSuccessfulExchangeWins(exchanges, tail);
      var t := TryPairs(exchanges, pairs);
      var rest := TryPairs(exchanges, tail);
      assert t.contacted == [pairs[0].0] + rest.contacted;
      forall j | 1 <= j < |t.contacted| ensures t.contacted[j] == pairs[j].0 {
        assert t.contacted[j] == rest.contacted[j - 1] && tail[j - 1] == pairs[j];
      }
      forall j | 1 <= j < |t.contacted| - 1 ensures Attempt(exchanges, pairs[j]).Err? {
        assert tail[j - 1] == pairs[j];
      }
      if rest.contacted != [] {
        assert tail[|rest.contacted| - 1] == pairs[|t.contacted| - 1];
      }
    }
  }

  /** When all fail: one error and one contact per exchange, and position j holds exchange j with its own fault. */
  lemma {:induction false} FailedAt(exchanges: string -> Exchange, pairs: seq<Pair>, j: nat)
    requires WellBehaved(exchanges, pairs)
    requires TryPairs(exchanges, pairs).result.Err?
    ensures var t := TryPairs(exchanges, pairs);
      && |t.result.error| == |pairs| && |t.contacted| == |pairs|
      && (j < |pairs| ==>
            && Attempt(exchanges, pairs[j]).Err?
            && t.result.error[j] == (pairs[j].0, Attempt(exchanges, pairs[j]).error)
            && t.contacted[j] == pairs[j].0)
    decreases |pairs|
  {
    if pairs != [] {
      var tail := pairs[1..];
      assert Attempt(exchanges, pairs[0]).Err?;
      if j > 0 {
        FailedAt(exchanges, tail, j - 1);
        if j < |pairs| {
          assert tail[j - 1] == pairs[j];
        }
      } else {
        FailedAt(exchanges, tail, 0);
      }
    }
  }

  /** When every exchange fails, the error lists every exchange once, in try order, with its own fault. */
  lemma AllFailedListsEveryExchange(exchanges: string -> Exchange, pairs: seq<Pair>)
    requires WellBehaved(exchanges, pairs)
    ensures var t := TryPairs(exchanges, pairs);
      t.result.Err? ==>
        && |t.result.error| == |pairs| && t.contacted == seq(|pairs|, j requires 0 <= j < |pairs| => pairs[j].0)
        && (forall j | 0 <= j < |pairs| ::
              Attempt(exchanges, pairs[j]).Err? && t.result.error[j] == (pairs[j].0, Attempt(exchanges, pairs[j]).error))
    decreases |pairs|
  {
    var t := TryPairs(exchanges, pairs);
    if t.result.Err? {
      FailedAt(exchanges, pairs, 0);
      forall j | 0 <= j < |pairs|
        ensures Attempt(exchanges, pairs[j]).Err? && t.result.error[j] == (pairs[j].0, Attempt(exchanges, pairs[j]).error)
      {
        FailedAt(exchanges, pairs, j);
      }
      forall j | 0 <= j < |pairs| ensures t.contacted[j] == pairs[j].0 {
        FailedAt(exchanges, pairs, j);
      }
    }
  }


  /** For bitcoin and ethereum kraken is always contacted first. */
  lemma KrakenFirst(exchanges: string -> Exchange, coinId: string)
    requires coinId in {"bitcoin", "ethereum"}
    requires WellBehaved(exchanges, Symbols(coinId))
    ensures |CcxtDaily(exchanges, coinId).contacted| >= 1 && CcxtDaily(exchanges, coinId).contacted[0] == "kraken"
  {
  }
}
