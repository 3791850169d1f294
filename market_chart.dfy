/**
 * The market-chart fetcher: three providers (CoinGecko, CoinCap, Binance
 * klines), each ending in one row per date sorted by date, and the chain
 * that falls back from one to the next and tags the result with its source.
 */
module MarketChart {
  import opened Outcomes
  import opened Frames
  import opened LegacyRetry

  const KlineLimit := 1000
  const DefaultDays := 365 * 10

  datatype ProviderError = Upstream(cause: RetryError) | NoData

  // ---------------- CoinGecko (primary) ----------------

  /** The three series of a market-chart payload (`raw.get(field, [])`, so a missing one is empty). */
  datatype MarketChartPayload = MarketChartPayload(prices: seq<Point>, marketCaps: seq<Point>, totalVolumes: seq<Point>)

  /** Every pairing of `p` with a row of `series` on the same date, in the order of `series`: an inner merge for one left row. */
  function MatchesOn(p: Point, series: seq<Point>): (r: seq<Point>)
    ensures forall i | 0 <= i < |r| :: r[i] in series && DayOf(r[i].ms) == DayOf(p.ms)
    ensures forall q | q in series && DayOf(q.ms) == DayOf(p.ms) :: q in r
  {
    if series == [] then []
    else (if DayOf(series[0].ms) == DayOf(p.ms) then [series[0]] else []) + MatchesOn(p, series[1..])
  }

  /** The row the join makes of a price point, a market cap and a volume. */
  function Joined(p: Point, m: Point, v: Point): ChartRow
  {
    ChartRow(DayOf(p.ms), p.value, m.value, v.value)
  }

  /** `row` joins a point of `prices`, one of `caps` and one of `vols` that fall on the same date. */
  ghost predicate JoinedFrom(prices: seq<Point>, caps: seq<Point>, vols: seq<Point>, row: ChartRow)
  {
    exists p, m, v | p in prices && m in caps && v in vols ::
      DayOf(m.ms) == DayOf(p.ms) && DayOf(v.ms) == DayOf(p.ms) && row == Joined(p, m, v)
  }

  /** A joined row stays one when the series it was drawn from grow. */
  lemma JoinedFromWithin(prices: seq<Point>, caps: seq<Point>, vols: seq<Point>,
                         allPrices: seq<Point>, allCaps: seq<Point>, row: ChartRow)
    requires JoinedFrom(prices, caps, vols, row)
    requires forall p | p in prices :: p in allPrices
    requires forall m | m in caps :: m in allCaps
    ensures JoinedFrom(allPrices, allCaps, vols, row)
  {
    var p, m, v :| p in prices && m in caps && v in vols &&
      DayOf(m.ms) == DayOf(p.ms) && DayOf(v.ms) == DayOf(p.ms) && row == Joined(p, m, v);
    assert p in allPrices && m in allCaps;
  }

  /** The rows of `p.merge(m, on="date")` for one price point `p` and its matching market caps, each joined with the matching volumes. */
  function JoinOne(p: Point, caps: seq<Point>, vols: seq<Point>): (r: seq<ChartRow>)
    requires forall m | m in caps :: DayOf(m.ms) == DayOf(p.ms)
    ensures forall row | row in r :: JoinedFrom([p], caps, vols, row)
    ensures forall m, v | m in caps && v in vols && DayOf(v.ms) == DayOf(p.ms) :: Joined(p, m, v) in r
  {
    if caps == [] then []
    else
      var m := caps[0];
      var matching := MatchesOn(p, vols);
      var here := JoinVolumes(p, m, matching);
      var rest := JoinOne(p, caps[1..], vols);
      forall row | row in here ensures JoinedFrom([p], caps, vols, row) {
        var i :| 0 <= i < |here| && here[i] == row;
        assert matching[i] in vols && p in [p] && m in caps;
      }
      forall row | row in rest ensures JoinedFrom([p], caps, vols, row) {
        JoinedFromWithin([p], caps[1..], vols, [p], caps, row);
      }
      forall m', v | m' in caps && v in vols && DayOf(v.ms) == DayOf(p.ms) ensures Joined(p, m', v) in here + rest {
        if m' == m {
          var i :| 0 <= i < |matching| && matching[i] == v;
          assert here[i] == Joined(p, m, v);
        } else {
          assert m' in caps[1..];
        }
      }
      here + rest
  }

  function JoinVolumes(p: Point, m: Point, vols: seq<Point>): (r: seq<ChartRow>)
    ensures |r| == |vols|
    ensures forall i | 0 <= i < |r| :: r[i] == Joined(p, m, vols[i])
  {
    if vols == [] then [] else [Joined(p, m, vols[0])] + JoinVolumes(p, m, vols[1..])
  }

  /**
   * `p.merge(m, on="date").merge(v, on="date")`: inner joins of the three
   * series on the calendar date. Every row joins a price, a market cap and a
   * volume of one date, and every such triple has its row.
   */
  function JoinOnDate(payload: MarketChartPayload): (r: seq<ChartRow>)
    ensures forall row | row in r :: JoinedFrom(payload.prices, payload.marketCaps, payload.totalVolumes, row)
    ensures forall p, m, v | p in payload.prices && m in payload.marketCaps && v in payload.totalVolumes
                             && DayOf(m.ms) == DayOf(p.ms) && DayOf(v.ms) == DayOf(p.ms) :: Joined(p, m, v) in r
    decreases |payload.prices|
  {
    if payload.prices == [] then []
    else
      var p := payload.prices[0];
      var caps := MatchesOn(p, payload.marketCaps);
      var here := JoinOne(p, caps, payload.totalVolumes);
      var tail := payload.(prices := payload.prices[1..]);
      var rest := JoinOnDate(tail);
      forall row | row in here ensures JoinedFrom(payload.prices, payload.marketCaps, payload.totalVolumes, row) {
        JoinedFromWithin([p], caps, payload.totalVolumes, payload.prices, payload.marketCaps, row);
      }
      forall row | row in rest ensures JoinedFrom(payload.prices, payload.marketCaps, payload.totalVolumes, row) {
        JoinedFromWithin(tail.prices, tail.marketCaps, tail.totalVolumes, payload.prices, payload.marketCaps, row);
      }
      forall p', m, v | p' in payload.prices && m in payload.marketCaps && v in payload.totalVolumes
                        && DayOf(m.ms) == DayOf(p'.ms) && DayOf(v.ms) == DayOf(p'.ms)
        ensures Joined(p', m, v) in here + rest
      {
        if p' == p {
          assert m in caps;
        } else {
          assert p' in tail.prices;
        }
      }
      here + rest
  }

  /** Price point `p` has a market cap and a volume on its date. */
  ghost predicate HasPartners(payload: MarketChartPayload, p: Point)
  {
    && (exists m | m in payload.marketCaps :: DayOf(m.ms) == DayOf(p.ms))
    && (exists v | v in payload.totalVolumes :: DayOf(v.ms) == DayOf(p.ms))
  }

  /** The dates on which all three series have a point: the dates the join keeps. */
  ghost function JoinDates(payload: MarketChartPayload): set<int>
  {
    set p | p in payload.prices && HasPartners(payload, p) :: DayOf(p.ms)
  }

  /** Every date of the join is one on which all three series have a point. */
  lemma JoinKeysSound(payload: MarketChartPayload, row: ChartRow)
    requires row in JoinOnDate(payload)
    ensures ChartDate(row) in JoinDates(payload)
  {
    var p, m, v :| p in payload.prices && m in payload.marketCaps && v in payload.totalVolumes &&
      DayOf(m.ms) == DayOf(p.ms) && DayOf(v.ms) == DayOf(p.ms) && row == Joined(p, m, v);
    assert HasPartners(payload, p);
  }

  /** Every date on which all three series have a point has a row in the join. */
  lemma JoinKeysComplete(payload: MarketChartPayload, p: Point)
    requires p in payload.prices && HasPartners(payload, p)
    ensures DayOf(p.ms) in Keys(JoinOnDate(payload), ChartDate)
  {
    var m :| m in payload.marketCaps && DayOf(m.ms) == DayOf(p.ms);
    var v :| v in payload.totalVolumes && DayOf(v.ms) == DayOf(p.ms);
    var row := Joined(p, m, v);
    assert row in JoinOnDate(payload);
    assert ChartDate(row) == DayOf(p.ms);
  }

  /** The join has a row on exactly the dates on which all three series have a point. */
  lemma JoinKeys(payload: MarketChartPayload)
    ensures Keys(JoinOnDate(payload), ChartDate) == JoinDates(payload)
  {
    var r := JoinOnDate(payload);
    forall d | d in Keys(r, ChartDate) ensures d in JoinDates(payload) {
      var row :| row in r && ChartDate(row) == d;
      JoinKeysSound(payload, row);
    }
    forall d | d in JoinDates(payload) ensures d in Keys(r, ChartDate) {
      var p :| p in payload.prices && HasPartners(payload, p) && DayOf(p.ms) == d;
      JoinKeysComplete(payload, p);
    }
  }

  /**
   * `_coingecko_daily` after its payload is obtained: one row per date on
   * which all three series have a point, in date order, each a joined row.
   */
  function CoinGeckoDaily(raw: Result<MarketChartPayload, RetryError>): (r: Result<seq<ChartRow>, ProviderError>)
    ensures raw.Err? ==> r == Err(Upstream(raw.error))
    ensures raw.Ok? ==> r.Ok?
    ensures r.Ok? ==> StrictlySortedBy(r.value, ChartDate)
    ensures r.Ok? ==> Keys(r.value, ChartDate) == JoinDates(raw.value)
    ensures r.Ok? ==> forall row | row in r.value :: JoinedFrom(raw.value.prices, raw.value.marketCaps, raw.value.totalVolumes, row)
  {
    match raw
    case Err(e) => Err(Upstream(e))
    case Ok(payload) =>
      JoinKeys(payload);
      Ok(SortDedupBy(JoinOnDate(payload), ChartDate))
  }

  // ---------------- CoinCap (fallback #1) ----------------

  /** One entry of CoinCap's `data` list; None where `to_numeric(..., errors="coerce")` gives NaN. */
  datatype CoinCapPoint = CoinCapPoint(timeMs: int, priceUsd: Option<int>, marketCapUsd: Option<int>, volumeUsd: Option<int>)

  /** The frame row of one CoinCap entry. */
  function CoinCapRow(d: CoinCapPoint): ChartRow
  {
    ChartRow(DayOf(d.timeMs), d.priceUsd, d.marketCapUsd, d.volumeUsd)
  }

  /** `row` is the row of an entry of `data` that has a price. */
  ghost predicate PricedRowOf(data: seq<CoinCapPoint>, row: ChartRow)
  {
    exists d | d in data && d.priceUsd.Some? :: row == CoinCapRow(d)
  }

  /** The rows of the CoinCap frame, without those whose price is NaN (`dropna(subset=["price"])`). */
  function CoinCapRows(data: seq<CoinCapPoint>): (r: seq<ChartRow>)
    ensures forall i | 0 <= i < |r| :: r[i].price.Some?
    ensures forall d | d in data && d.priceUsd.Some? :: CoinCapRow(d) in r
    ensures forall row | row in r :: PricedRowOf(data, row)
  {
    if data == [] then []
    else
      var d := data[0];
      var here := if d.priceUsd.Some? then [CoinCapRow(d)] else [];
      var rest := CoinCapRows(data[1..]);
      forall row | row in here + rest ensures PricedRowOf(data, row) {
        if row in rest {
          var e :| e in data[1..] && e.priceUsd.Some? && row == CoinCapRow(e);
          assert e in data;
        } else {
          assert row == CoinCapRow(d) && d in data;
        }
      }
      here + rest
  }

  /** The dates of the entries that have a price. */
  ghost function PricedDays(data: seq<CoinCapPoint>): set<int>
  {
    set d | d in data && d.priceUsd.Some? :: DayOf(d.timeMs)
  }

  /** The CoinCap frame has a row on exactly the dates of the priced entries. */
  lemma CoinCapKeys(data: seq<CoinCapPoint>)
    ensures Keys(CoinCapRows(data), ChartDate) == PricedDays(data)
  {
    var r := CoinCapRows(data);
    forall day | day in Keys(r, ChartDate) ensures day in PricedDays(data) {
      var row :| row in r && ChartDate(row) == day;
      var d :| d in data && d.priceUsd.Some? && row == CoinCapRow(d);
    }
    forall day | day in PricedDays(data) ensures day in Keys(r, ChartDate) {
      var d :| d in data && d.priceUsd.Some? && DayOf(d.timeMs) == day;
      assert CoinCapRow(d) in r;
    }
  }

  /**
   * `_coincap_btc_daily` after its request: an empty `data` list raises,
   * otherwise one row per date of a priced entry, in date order, each the
   * row of a priced entry.
   */
  function CoinCapDaily(fetched: Result<seq<CoinCapPoint>, RetryError>): (r: Result<seq<ChartRow>, ProviderError>)
    ensures fetched.Err? ==> r == Err(Upstream(fetched.error))
    ensures fetched.Ok? ==> (r == Err(NoData) <==> fetched.value == [])
    ensures fetched.Ok? && fetched.value != [] ==> r.Ok?
    ensures r.Ok? ==> StrictlySortedBy(r.value, ChartDate)
    ensures r.Ok? ==> Keys(r.value, ChartDate) == PricedDays(fetched.value)
    ensures r.Ok? ==> forall row | row in r.value :: row.price.Some? && PricedRowOf(fetched.value, row)
  {
    match fetched
    case Err(e) => Err(Upstream(e))
    case Ok(data) =>
      if data == [] then Err(NoData)
      else
        CoinCapKeys(data);
        Ok(SortDedupBy(CoinCapRows(data), ChartDate))
  }

  // ---------------- Binance klines (fallback #2) ----------------

  /** The fields of a kline the frame keeps: close_time, close and quote_asset_volume (None where not numeric). */
  datatype Kline = Kline(closeTime: int, close: Option<int>, quoteVolume: Option<int>)

  /** The answer of the retrying GET to a klines request whose startTime is the given cursor. */
  type KlineFeed = int -> Result<seq<Kline>, RetryError>

  /** The exchange answers a request with candles that close at or after the startTime asked for. */
  ghost predicate Progressing(feed: KlineFeed)
  {
    forall cur :: Advances(feed, cur)
  }

  /** The page asked for at `cur`, if not empty, closes at or after `cur`. */
  ghost predicate Advances(feed: KlineFeed, cur: int)
  {
    feed(cur).Ok? && feed(cur).value != [] ==> feed(cur).value[|feed(cur).value| - 1].closeTime >= cur
  }

  function LastClose(page: seq<Kline>): int
    requires page != []
  {
    page[|page| - 1].closeTime
  }

  /** The pages fetched, the cursor of every request, and the error that ended the loop, if any. */
  datatype Walk = Walk(pages: seq<seq<Kline>>, cursors: seq<int>, failure: Option<RetryError>)

  /** The specification of the pagination loop from cursor `cur` on. */
  function KlineWalk(feed: KlineFeed, cur: int, endTs: int): (w: Walk)
    requires Progressing(feed)
    ensures cur >= endTs ==> w == Walk([], [], None)
    ensures |w.cursors| == |w.pages| || |w.cursors| == |w.pages| + 1
    decreases endTs - cur
  {
    if cur >= endTs then Walk([], [], None)
    else match feed(cur)
      case Err(e) => Walk([], [cur], Some(e))
      case Ok(page) =>
        if page == [] then Walk([], [cur], None)
        else if |page| < KlineLimit then Walk([page], [cur], None)
        else
          assert Advances(feed, cur);
          var rest := KlineWalk(feed, LastClose(page) + 1, endTs);
          Walk([page] + rest.pages, [cur] + rest.cursors, rest.failure)
  }

  /**
   * The walk requests from `cur` first; each page is the feed's answer at its
   * cursor, every page but the last is full (at least the limit), and a
   * failure is the feed's error at the last cursor.
   */
  lemma {:induction false} KlineWalkPages(feed: KlineFeed, cur: int, endTs: int)
    requires Progressing(feed)
    ensures var w := KlineWalk(feed, cur, endTs);
      && (cur < endTs ==> |w.cursors| >= 1 && w.cursors[0] == cur)
      && (forall i | 0 <= i < |w.pages| :: w.pages[i] != [] && feed(w.cursors[i]) == Ok(w.pages[i]))
      && (forall i | 0 <= i < |w.pages| - 1 :: |w.pages[i]| >= KlineLimit)
      && (w.failure.Some? ==> |w.cursors| == |w.pages| + 1 && feed(w.cursors[|w.pages|]) == Err(w.failure.value))
    decreases endTs - cur
  {
    var w := KlineWalk(feed, cur, endTs);
    if cur < endTs && feed(cur).Ok? && feed(cur).value != [] && |feed(cur).value| >= KlineLimit {
      var page := feed(cur).value;
      var next := LastClose(page) + 1;
      assert Advances(feed, cur);
      KlineWalkPages(feed, next, endTs);
      var rest := KlineWalk(feed, next, endTs);
      assert w.pages == [page] + rest.pages && w.cursors == [cur] + rest.cursors;
      forall i | 1 <= i < |w.pages| ensures w.pages[i] != [] && feed(w.cursors[i]) == Ok(w.pages[i]) && (i < |w.pages| - 1 ==> |w.pages[i]| >= KlineLimit) {
        assert w.pages[i] == rest.pages[i - 1] && w.cursors[i] == rest.cursors[i - 1];
      }
      if w.failure.Some? {
        assert w.cursors[|w.pages|] == rest.cursors[|rest.pages|];
      }
    }
  }

  /** The i-th cursor lies in [cur, end_ts), and the one after it is the i-th page's last close_time + 1. */
  lemma {:induction false} KlineCursorAt(feed: KlineFeed, cur: int, endTs: int, i: nat)
    requires Progressing(feed)
    requires i < |KlineWalk(feed, cur, endTs).cursors|
    ensures var w := KlineWalk(feed, cur, endTs);
      && w.cursors[0] == cur
      && cur <= w.cursors[i] < endTs
      && (i + 1 < |w.cursors| ==> w.pages[i] != [] && w.cursors[i + 1] == LastClose(w.pages[i]) + 1)
    decreases endTs - cur
  {
    var w := KlineWalk(feed, cur, endTs);
    if cur < endTs && feed(cur).Ok? && feed(cur).value != [] && |feed(cur).value| >= KlineLimit {
      var page := feed(cur).value;
      var next := LastClose(page) + 1;
      assert Advances(feed, cur);
      var rest := KlineWalk(feed, next, endTs);
      assert w.pages == [page] + rest.pages && w.cursors == [cur] + rest.cursors;
      if i > 0 {
        KlineCursorAt(feed, next, endTs, i - 1);
        assert w.cursors[i] == rest.cursors[i - 1];
        if i + 1 < |w.cursors| {
          assert w.cursors[i + 1] == rest.cursors[i] && w.pages[i] == rest.pages[i - 1];
        }
      } else if 1 < |w.cursors| {
        KlineCursorAt(feed, next, endTs, 0);
      }
    }
  }

  /** Every cursor lies in [cur, end_ts), and the next cursor is the last close_time + 1. */
  lemma KlineWalkCursors(feed: KlineFeed, cur: int, endTs: int)
    requires Progressing(feed)
    ensures var w := KlineWalk(feed, cur, endTs);
      && (forall i | 0 <= i < |w.cursors| :: cur <= w.cursors[i] < endTs)
      && (forall i | 0 <= i < |w.cursors| - 1 :: w.pages[i] != [] && w.cursors[i + 1] == LastClose(w.pages[i]) + 1)
  {
    var w := KlineWalk(feed, cur, endTs);
    forall i | 0 <= i < |w.cursors| ensures cur <= w.cursors[i] < endTs {
      KlineCursorAt(feed, cur, endTs, i);
    }
    forall i | 0 <= i < |w.cursors| - 1 ensures w.pages[i] != [] && w.cursors[i + 1] == LastClose(w.pages[i]) + 1 {
      KlineCursorAt(feed, cur, endTs, i);
    }
  }

  /** The loop ends only for a reason the source names: a raised request, an empty page, a short page, or the cursor reaching end_ts. */
  lemma {:induction false} KlineWalkStops(feed: KlineFeed, cur: int, endTs: int)
    requires Progressing(feed)
    ensures var w := KlineWalk(feed, cur, endTs);
      && (w.failure.None? && |w.cursors| == |w.pages| + 1 ==> feed(w.cursors[|w.pages|]) == Ok([]))
      && (w.failure.None? && |w.cursors| == |w.pages| && w.pages != [] ==>
            var last := w.pages[|w.pages| - 1];
            |last| < KlineLimit || LastClose(last) + 1 >= endTs)
    decreases endTs - cur
  {
    if cur < endTs && feed(cur).Ok? && |feed(cur).value| >= KlineLimit {
      assert Advances(feed, cur);
      KlineWalkStops(feed, LastClose(feed(cur).value) + 1, endTs);
    }
  }

  function KlineRow(k: Kline): ChartRow
  {
    ChartRow(DayOf(k.closeTime), k.close, None, k.quoteVolume)
  }

  function KlineRows(page: seq<Kline>): (r: seq<ChartRow>)
    ensures |r| == |page|
    ensures forall i | 0 <= i < |page| :: r[i] == KlineRow(page[i])
  {
    if page == [] then [] else [KlineRow(page[0])] + KlineRows(page[1..])
  }

  /** One frame per page, as the loop appends them. */
  function PageFrames(pages: seq<seq<Kline>>): seq<seq<ChartRow>>
  {
    seq(|pages|, i requires 0 <= i < |pages| => KlineRows(pages[i]))
  }

  /** The rows of two runs of klines, one after the other, are the rows of the two runs joined. */
  lemma KlineRowsAppend(a: seq<Kline>, b: seq<Kline>)
    ensures KlineRows(a + b) == KlineRows(a) + KlineRows(b)
  {
  }

  /** `pd.concat(frames)`: concatenating the pages' frames gives the rows of all the klines, page after page. */
  lemma {:induction false} PageFramesFlatten(pages: seq<seq<Kline>>)
    ensures Concat(PageFrames(pages)) == KlineRows(Concat(pages))
    decreases |pages|
  {
    if pages != [] {
      var init, last := pages[..|pages| - 1], pages[|pages| - 1];
      assert PageFrames(pages)[..|pages| - 1] == PageFrames(init);
      PageFramesFlatten(init);
      KlineRowsAppend(Concat(init), last);
    }
  }

  function StartTs(now: int, days: int): int
  {
    now - days * MsPerDay
  }

  /** The specification of `_binance_btcusdt_daily`: `now` is the clock in milliseconds, the feed the exchange. */
  function BinanceDaily(feed: KlineFeed, now: int, days: int): (r: Result<seq<ChartRow>, ProviderError>)
    requires Progressing(feed)
  {
    var w := KlineWalk(feed, StartTs(now, days), now);
    if w.failure.Some? then Err(Upstream(w.failure.value))
    else if w.pages == [] then Err(NoData)
    else Ok(SortDedupBy(Concat(PageFrames(w.pages)), ChartDate))
  }

  /** The frames of one more page in front are that page's frame in front. */
  lemma PageFramesCons(page: seq<Kline>, pages: seq<seq<Kline>>)
    ensures PageFrames([page] + pages) == [KlineRows(page)] + PageFrames(pages)
  {
    var l, r := PageFrames([page] + pages), [KlineRows(page)] + PageFrames(pages);
    forall i | 0 <= i < |l| ensures l[i] == r[i] {
      if i > 0 {
        assert ([page] + pages)[i] == pages[i - 1];
      }
    }
  }

  /** What the loop of `binance_btcusdt_daily` ends with when it resumes from `cur` holding `frames` and `cursors`. */
  ghost function Gathered(feed: KlineFeed, cur: int, endTs: int, frames: seq<seq<ChartRow>>, cursors: seq<int>): (seq<seq<ChartRow>>, seq<int>, Option<RetryError>)
    requires Progressing(feed)
  {
    var w := KlineWalk(feed, cur, endTs);
    (frames + PageFrames(w.pages), cursors + w.cursors, w.failure)
  }

  /** A full page inside the window is recorded, and the walk goes on from its last close time + 1, past `cur`. */
  lemma KlineFullStep(feed: KlineFeed, cur: int, endTs: int)
    requires Progressing(feed)
    requires cur < endTs && feed(cur).Ok? && |feed(cur).value| >= KlineLimit
    ensures var page := feed(cur).value;
      var rest := KlineWalk(feed, LastClose(page) + 1, endTs);
      && LastClose(page) + 1 > cur
      && KlineWalk(feed, cur, endTs) == Walk([page] + rest.pages, [cur] + rest.cursors, rest.failure)
  {
    assert Advances(feed, cur);
  }

  /** A full page inside the window: the loop keeps its frame and moves the cursor past its last close time. */
  lemma GatherFullPage(feed: KlineFeed, cur: int, endTs: int, frames: seq<seq<ChartRow>>, cursors: seq<int>)
    requires Progressing(feed)
    requires cur < endTs && feed(cur).Ok? && |feed(cur).value| >= KlineLimit
    ensures var next := LastClose(feed(cur).value) + 1;
      && next > cur
      && Gathered(feed, cur, endTs, frames, cursors)
         == Gathered(feed, next, endTs, frames + [KlineRows(feed(cur).value)], cursors + [cur])
  {
    KlineFullStep(feed, cur, endTs);
    var page := feed(cur).value;
    var rest := KlineWalk(feed, LastClose(page) + 1, endTs);
    PageFramesCons(page, rest.pages);
    assert frames + ([KlineRows(page)] + PageFrames(rest.pages)) == (frames + [KlineRows(page)]) + PageFrames(rest.pages);
    assert cursors + ([cur] + rest.cursors) == (cursors + [cur]) + rest.cursors;
  }

  /** A failed, empty or short page ends the loop there. */
  lemma GatherLastPage(feed: KlineFeed, cur: int, endTs: int, frames: seq<seq<ChartRow>>, cursors: seq<int>)
    requires Progressing(feed)
    requires cur < endTs && (feed(cur).Err? || |feed(cur).value| < KlineLimit)
    ensures Gathered(feed, cur, endTs, frames, cursors)
         == if feed(cur).Err? then (frames, cursors + [cur], Some(feed(cur).error))
            else if feed(cur).value == [] then (frames, cursors + [cur], None)
            else (frames + [KlineRows(feed(cur).value)], cursors + [cur], None)
  {
    if feed(cur).Ok? && feed(cur).value != [] {
      assert PageFrames([feed(cur).value]) == [KlineRows(feed(cur).value)];
    } else {
      assert frames + PageFrames([]) == frames;
    }
  }

  /** The paging loop of `binance_btcusdt_daily`: one frame per page, the cursor of every request, and the error that ended it. */
  method CollectKlines(feed: KlineFeed, startTs: int, endTs: int) returns (frames: seq<seq<ChartRow>>, cursors: seq<int>, failure: Option<RetryError>)
    requires Progressing(feed)
    ensures var w := KlineWalk(feed, startTs, endTs);
      frames == PageFrames(w.pages) && cursors == w.cursors && failure == w.failure
  {
    ghost var full := KlineWalk(feed, startTs, endTs);
    ghost var goal := Gathered(feed, startTs, endTs, [], []);
    assert goal == (PageFrames(full.pages), full.cursors, full.failure) by {
      assert [] + PageFrames(full.pages) == PageFrames(full.pages);
      assert [] + full.cursors == full.cursors;
    }
    frames, cursors := [], [];
    var cur := startTs;
    while cur < endTs
      invariant Gathered(feed, cur, endTs, frames, cursors) == goal
      decreases endTs - cur
    {
      var arr := feed(cur);
      if arr.Err? {
        GatherLastPage(feed, cur, endTs, frames, cursors);
        return frames, cursors + [cur], Some(arr.error);
      }
      var page := arr.value;
      if page == [] {
        GatherLastPage(feed, cur, endTs, frames, cursors);
        cursors := cursors + [cur];
        break;
      }
      if |page| < KlineLimit {
        GatherLastPage(feed, cur, endTs, frames, cursors);
      } else {
        GatherFullPage(feed, cur, endTs, frames, cursors);
      }
      frames := frames + [KlineRows(page)];
      cursors := cursors + [cur];
      cur := LastClose(page) + 1;
      if |page| < KlineLimit {
        break;
      }
    }
    if cur >= endTs {
      assert frames + PageFrames([]) == frames && cursors + [] == cursors;
    }
    failure := None;
  }

  /** `binance_btcusdt_daily`: the paged klines over the last `days` days, then one frame sorted by date with one row per date. */
  method BinanceBtcUsdtDaily(feed: KlineFeed, now: int, days: int) returns (r: Result<seq<ChartRow>, ProviderError>, cursors: seq<int>)
    requires Progressing(feed)
    ensures r == BinanceDaily(feed, now, days)
    ensures cursors == KlineWalk(feed, StartTs(now, days), now).cursors
  {
    var frames, failure;
    frames, cursors, failure := CollectKlines(feed, StartTs(now, days), now);
    if failure.Some? {
      return Err(Upstream(failure.value)), cursors;
    }
    if frames == [] {
      return Err(NoData), cursors;
    }
    r := Ok(SortDedupBy(Concat(frames), ChartDate));
  }



  /** With no time window (days <= 0) nothing is requested and the fetch raises "Binance returned no data". */
  lemma EmptyWindowHasNoData(feed: KlineFeed, now: int, days: int)
    requires Progressing(feed) && days <= 0
    ensures BinanceDaily(feed, now, days) == Err(NoData)
    ensures KlineWalk(feed, StartTs(now, days), now).cursors == []
  {
  }

  // ---------------- The fallback chain ----------------

  datatype Source = CoinGecko | CoinCap | Binance

  /** The source string returned beside the frame. */
  function SourceTag(s: Source): (tag: string)
    ensures tag in {"coingecko", "coincap", "binance"}
  {
    match s
    case CoinGecko => "coingecko"
    case CoinCap => "coincap"
    case Binance => "binance"
  }

  function LowerChar(c: char): char
  {
    if 'A' <= c <= 'Z' then (c as int + 32) as char else c
  }

  /** `str.lower()` on ASCII letters. */
  function Lower(s: string): (r: string)
    ensures |r| == |s|
    ensures forall i | 0 <= i < |s| :: r[i] == LowerChar(s[i])
  {
    if s == [] then [] else [LowerChar(s[0])] + Lower(s[1..])
  }

  predicate IsBitcoinUsd(coinId: string, vs: string)
  {
    Lower(coinId) == "bitcoin" && Lower(vs) == "usd"
  }

  /** The outcome of the chain and the providers it called, in order. */
  datatype Chain<E> = Chain(result: Result<(seq<ChartRow>, Source), E>, contacted: seq<Source>)

  /** What the provider tagged `s` produced. */
  function OutcomeOf<E>(s: Source, coingecko: Result<seq<ChartRow>, E>, coincap: Result<seq<ChartRow>, E>, binance: Result<seq<ChartRow>, E>): Result<seq<ChartRow>, E>
  {
    match s
    case CoinGecko => coingecko
    case CoinCap => coincap
    case Binance => binance
  }

  /**
   * `get_market_chart_daily` over what each provider would produce: CoinGecko,
   * then CoinCap for bitcoin/usd only, then Binance, whose failure is not caught.
   */
  function MarketChartDaily<E>(coinId: string, vs: string, coingecko: Result<seq<ChartRow>, E>,
                               coincap: Result<seq<ChartRow>, E>, binance: Result<seq<ChartRow>, E>): (c: Chain<E>)
    ensures |c.contacted| >= 1 && c.contacted[0] == CoinGecko
    ensures coingecko.Ok? ==> c == Chain(Ok((coingecko.value, CoinGecko)), [CoinGecko])
    ensures CoinCap in c.contacted <==> coingecko.Err? && IsBitcoinUsd(coinId, vs)
    ensures Binance in c.contacted <==> coingecko.Err? && !(IsBitcoinUsd(coinId, vs) && coincap.Ok?)
    ensures c.result.Ok? ==> c.contacted[|c.contacted| - 1] == c.result.value.1
    ensures c.result.Ok? ==> OutcomeOf(c.result.value.1, coingecko, coincap, binance) == Ok(c.result.value.0)
    ensures c.result.Err? ==> binance.Err? && c.result.error == binance.error && c.contacted[|c.contacted| - 1] == Binance
  {
    if coingecko.Ok? then Chain(Ok((coingecko.value, CoinGecko)), [CoinGecko])
    else if IsBitcoinUsd(coinId, vs) && coincap.Ok? then Chain(Ok((coincap.value, CoinCap)), [CoinGecko, CoinCap])
    else
      var tried := if IsBitcoinUsd(coinId, vs) then [CoinGecko, CoinCap] else [CoinGecko];
      match binance
      case Ok(frame) => Chain(Ok((frame, Binance)), tried + [Binance])
      case Err(e) => Chain(Err(e), tried + [Binance])
  }

  /** Whichever provider answers, the frame returned has one row per date, in date order. */
  lemma ChainFrameHasOneRowPerDate(coinId: string, vs: string, cgRaw: Result<MarketChartPayload, RetryError>,
                                   ccRaw: Result<seq<CoinCapPoint>, RetryError>, feed: KlineFeed, now: int, days: int)
    requires Progressing(feed)
    ensures var c := MarketChartDaily(coinId, vs, CoinGeckoDaily(cgRaw), CoinCapDaily(ccRaw), BinanceDaily(feed, now, days));
      c.result.Ok? ==> StrictlySortedBy(c.result.value.0, ChartDate) && SourceTag(c.result.value.1) in {"coingecko", "coincap", "binance"}
  {
    var c := MarketChartDaily(coinId, vs, CoinGeckoDaily(cgRaw), CoinCapDaily(ccRaw), BinanceDaily(feed, now, days));
    if c.result.Ok? {
      var b := BinanceDaily(feed, now, days);
      assert b.Ok? ==> StrictlySortedBy(b.value, ChartDate);
    }
  }

  /** Lowering twice is lowering once. */
  lemma LowerIdempotent(s: string)
    ensures Lower(Lower(s)) == Lower(s)
  {
    var l := Lower(s);
    forall i | 0 <= i < |l| ensures Lower(l)[i] == l[i] {
      assert l[i] == LowerChar(s[i]);
    }
  }

  /** The CoinCap test ignores case: any spelling of bitcoin/usd reaches CoinCap exactly as its lower-case form does. */
  lemma CoinCapIsCaseInsensitive(coinId: string, vs: string)
    ensures IsBitcoinUsd(coinId, vs) <==> IsBitcoinUsd(Lower(coinId), Lower(vs))
  {
    LowerIdempotent(coinId);
    LowerIdempotent(vs);
  }
}
