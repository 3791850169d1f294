/**
 * `fetch_daily_close_coin`: serve the cached market chart while it is fresh,
 * otherwise fetch it with backoff (once more with days "365" when CoinGecko
 * answers 401 with error code 10012 for days "max"), stamp it, write it back,
 * and build the daily-close frame from it.
 */
module CoinGeckoDaily {
  import opened Outcomes
  import opened Json
  import opened Transport
  import opened Http
  import opened Cache
  import opened Frames

  const DefaultTtl := 24 * 3600
  const DowngradedDays := "365"
  const PlanLimitCode := 10012

  /** Why the fetch raised. */
  datatype CoinError =
    | CacheUnreadable(stampFault: FreshnessFault)   // is_fresh raised on the cached document
    | Transport(requestFault: Fault)                  // get_with_backoff raised
    | BadErrorBody(lookupFault: JsonFault)           // the error-code lookup met a value that is not a dict
    | ApiError(status: int, body: Body)        // "CoinGecko error {status}: {payload}"
    | PayloadNotADict                          // `payload["_fetched_at"] = ...` on a non-dict
    | MalformedSeries                          // a prices or total_volumes entry that is not [ms, value]

  /** `cache_dir / f"{coin_id}_{vs_currency}_{days}_market_chart.json"`. */
  function CachePath(cacheDir: seq<string>, coinId: string, vs: string, days: string): Path
  {
    Path(cacheDir, coinId + "_" + vs + "_" + days + "_market_chart", ".json")
  }

  // ---------------- The downgrade guard ----------------

  /** `payload.get("error", {}).get("status", {}).get("error_code") == 10012` on a dict payload. */
  function HasPlanLimitCode(payload: Json): Result<bool, JsonFault>
  {
    match Get(payload, "error", EmptyObject)
    case Err(e) => Err(e)
    case Ok(err) =>
      match Get(err, "status", EmptyObject)
      case Err(e) => Err(e)
      case Ok(st) =>
        match Get(st, "error_code", JNull)
        case Err(e) => Err(e)
        case Ok(code) => Ok(code == JNum(PlanLimitCode))
  }

  /** The rest of the guard once the payload is known to be a dict: the code test, then `days == "max"`. */
  function PlanLimitForMax(payload: Json, days: string): Result<bool, JsonFault>
  {
    match HasPlanLimitCode(payload)
    case Err(e) => Err(e)
    case Ok(hit) => Ok(hit && days == "max")
  }

  /**
   * The guard as written: `status == 401 and isinstance(payload, dict)`,
   * where `payload` is the body `get_with_backoff` returned.
   */
  function DowngradeAsWritten(status: int, body: Body, days: string): Result<bool, JsonFault>
  {
    if status == 401 && body.JsonBody? && body.value.JObj? then PlanLimitForMax(body.value, days)
    else Ok(false)
  }

  /** The error document of a returned body: the decoded JSON, whether it came back decoded or as text. */
  function ErrorDocument(body: Body): Option<Json>
  {
    match body
    case JsonBody(j) => Some(j)
    case TextBody(_, decoded) => decoded
  }

  /** The guard as intended: the 401 body is decoded before the dict test. */
  function Downgrade(status: int, body: Body, days: string): (r: Result<bool, JsonFault>)
    ensures r == Ok(true) ==>
      && status == 401 && days == "max"
      && ErrorDocument(body).Some? && HasPlanLimitCode(ErrorDocument(body).value) == Ok(true)
    ensures (&& status == 401 && days == "max"
             && ErrorDocument(body).Some? && ErrorDocument(body).value.JObj?
             && HasPlanLimitCode(ErrorDocument(body).value) == Ok(true)) ==> r == Ok(true)
  {
    var doc := ErrorDocument(body);
    if status == 401 && doc.Some? && doc.value.JObj? then PlanLimitForMax(doc.value, days)
    else Ok(false)
  }

  /** As written, the guard never fires on anything `get_with_backoff` returns: a 401 always comes back as text. */
  lemma AsWrittenNeverDowngrades(server: Server, maxRetries: int, days: string)
    ensures var f := Backoff(server, maxRetries).result;
      f.Returned? ==> DowngradeAsWritten(f.status, f.body, days) == Ok(false)
  {
  }

  const PlanLimitDocument: Json :=
    JObj(map["error" := JObj(map["status" := JObj(map["error_code" := JNum(PlanLimitCode)])])])

  const PlanLimitText := "{\"error\": {\"status\": {\"error_code\": 10012}}}"

  /** A server that answers every request with CoinGecko's 401 "plan limit" error. */
  function PlanLimitServer(i: nat): Reply
  {
    Answered(Response(401, PlanLimitText, Some(PlanLimitDocument)))
  }

  /**
   * The input that shows the dead branch: for days "max" CoinGecko answers
   * 401 with error code 10012; the guard as written does not downgrade, the
   * intended guard does.
   */
  lemma PlanLimitReplyShowsDeadBranch()
    ensures Backoff(PlanLimitServer, DefaultMaxRetries).result == Returned(401, TextBody(PlanLimitText, Some(PlanLimitDocument)))
    ensures DowngradeAsWritten(401, TextBody(PlanLimitText, Some(PlanLimitDocument)), "max") == Ok(false)
    ensures Downgrade(401, TextBody(PlanLimitText, Some(PlanLimitDocument)), "max") == Ok(true)
  {
    FirstMatchIs(PlanLimitServer, Settles, DefaultMaxRetries, 0);
  }

  // ---------------- Building the frame ----------------

  /** `[ms, value]` pairs: a list of two-element lists, ms a number, value a number or null; null is an empty frame. */
  function Series(j: Json): (r: Option<seq<Point>>)
    ensures r.Some? <==> j.JNull? || (j.JArr? && forall i | 0 <= i < |j.items| :: SeriesEntry(j.items[i]).Some?)
    ensures j.JNull? ==> r == Some([])
    ensures r.Some? && j.JArr? ==>
      |r.value| == |j.items| && forall i | 0 <= i < |j.items| :: SeriesEntry(j.items[i]) == Some(r.value[i])
  {
    if j.JNull? then Some([])
    else if j.JArr? then Entries(j.items) else None
  }

  /** The entries of a series list: parsed exactly when every entry is a well-formed pair. */
  function Entries(items: seq<Json>): (r: Option<seq<Point>>)
    ensures r.Some? <==> forall i | 0 <= i < |items| :: SeriesEntry(items[i]).Some?
    ensures r.Some? ==> |r.value| == |items|
    ensures r.Some? ==> forall i | 0 <= i < |items| :: SeriesEntry(items[i]) == Some(r.value[i])
  {
    if items == [] then Some([])
    else
      var head := SeriesEntry(items[0]);
      var rest := Entries(items[1..]);
      assert forall i | 1 <= i < |items| :: items[i] == items[1..][i - 1];
      if head.Some? && rest.Some? then Some([head.value] + rest.value) else None
  }

  /** One `[ms, value]` entry: a two-element list of a number and a number or null. */
  function SeriesEntry(j: Json): Option<Point>
  {
    match j
    case JArr(pair) =>
      if |pair| == 2 && pair[0].JNum? && (pair[1].JNum? || pair[1].JNull?) then
        Some(Point(pair[0].n, if pair[1].JNum? then Some(pair[1].n) else None))
      else None
    case _ => None
  }

  /** The volumes recorded at exactly `ms`, in order. */
  function VolumesAt(ms: int, vols: seq<Point>): (r: seq<Option<int>>)
    ensures forall v | v in r :: exists q | q in vols :: q.ms == ms && q.value == v
    ensures forall q | q in vols && q.ms == ms :: q.value in r
  {
    if vols == [] then []
    else (if vols[0].ms == ms then [vols[0].value] else []) + VolumesAt(ms, vols[1..])
  }

  /** The volumes are taken in the order of the series: those of a concatenation are those of each part, one after the other. */
  lemma {:induction false} VolumesAtConcat(ms: int, a: seq<Point>, b: seq<Point>)
    ensures VolumesAt(ms, a + b) == VolumesAt(ms, a) + VolumesAt(ms, b)
    decreases |a|
  {
    if a == [] {
      assert a + b == b;
    } else {
      var here := if a[0].ms == ms then [a[0].value] else [];
      assert (a + b)[0] == a[0] && (a + b)[1..] == a[1..] + b;
      calc {
        VolumesAt(ms, a + b);
        here + VolumesAt(ms, a[1..] + b);
        { VolumesAtConcat(ms, a[1..], b); }
        here + (VolumesAt(ms, a[1..]) + VolumesAt(ms, b));
        (here + VolumesAt(ms, a[1..])) + VolumesAt(ms, b);
        VolumesAt(ms, a) + VolumesAt(ms, b);
      }
    }
  }

  /** The frame row of price point `p` with the given volume. */
  function MergeRow(p: Point, volume: Option<int>): CloseRow
  {
    CloseRow(p.ms, DayOf(p.ms), p.value, volume)
  }

  /** `row` is a row the left merge makes of `p`: with a volume recorded at p's ms, or with none when no volume is recorded there. */
  ghost predicate MergedRow(p: Point, vols: seq<Point>, row: CloseRow)
  {
    || (exists q | q in vols && q.ms == p.ms :: row == MergeRow(p, q.value))
    || ((forall q | q in vols :: q.ms != p.ms) && row == MergeRow(p, None))
  }

  /** The rows of one price point under a left merge on ms: one per matching volume, or one with no volume. */
  function PriceRows(p: Point, vols: seq<Point>): (r: seq<CloseRow>)
    ensures |r| == if VolumesAt(p.ms, vols) == [] then 1 else |VolumesAt(p.ms, vols)|
    ensures forall i | 0 <= i < |r| :: r[i].timestampMs == p.ms && r[i].date == DayOf(p.ms) && r[i].close == p.value
    ensures forall row | row in r :: MergedRow(p, vols, row)
    ensures forall q | q in vols && q.ms == p.ms :: MergeRow(p, q.value) in r
    ensures (forall q | q in vols :: q.ms != p.ms) ==> r == [MergeRow(p, None)]
  {
    var matches := VolumesAt(p.ms, vols);
    if matches == [] then [MergeRow(p, None)]
    else
      var r := seq(|matches|, i requires 0 <= i < |matches| => MergeRow(p, matches[i]));
      forall row | row in r ensures MergedRow(p, vols, row) {
        var i :| 0 <= i < |r| && r[i] == row;
        assert matches[i] in matches;
      }
      forall q | q in vols && q.ms == p.ms ensures MergeRow(p, q.value) in r {
        var i :| 0 <= i < |matches| && matches[i] == q.value;
        assert r[i] == MergeRow(p, q.value);
      }
      assert matches[0] in matches;
      r
  }

  /** `row` is a row the left merge makes of some point of `prices`. */
  ghost predicate LeftMerged(prices: seq<Point>, vols: seq<Point>, row: CloseRow)
  {
    exists p | p in prices :: MergedRow(p, vols, row)
  }

  /**
   * `df_p.merge(df_v, on="ms", how="left")`, left rows in order: every row
   * is a price point with a volume recorded at its ms or, when there is none,
   * with no volume; and every such pairing has its row.
   */
  function LeftMergeOnMs(prices: seq<Point>, vols: seq<Point>): (r: seq<CloseRow>)
    ensures |r| >= |prices|
    ensures forall i | 0 <= i < |r| :: r[i].date == DayOf(r[i].timestampMs)
    ensures forall row | row in r :: LeftMerged(prices, vols, row)
    ensures forall p, q | p in prices && q in vols && q.ms == p.ms :: MergeRow(p, q.value) in r
    ensures forall p | p in prices && (forall q | q in vols :: q.ms != p.ms) :: MergeRow(p, None) in r
  {
    if prices == [] then []
    else
      var p := prices[0];
      var here := PriceRows(p, vols);
      var rest := LeftMergeOnMs(prices[1..], vols);
      var r := here + rest;
      assert forall i | 0 <= i < |rest| :: rest[i] == r[|here| + i];
      forall row | row in r ensures LeftMerged(prices, vols, row) {
        if row in here {
          assert MergedRow(p, vols, row);
        } else {
          var p' :| p' in prices[1..] && MergedRow(p', vols, row);
        }
      }
      forall p' | p' in prices && p' != p ensures p' in prices[1..] {
      }
      r
  }

  /** The left merge keeps every price point: each has a row with its timestamp and its close. */
  lemma EveryPricePointKept(prices: seq<Point>, vols: seq<Point>, p: Point)
    requires p in prices
    ensures exists row | row in LeftMergeOnMs(prices, vols) :: row.timestampMs == p.ms && row.close == p.value
  {
    var r := LeftMergeOnMs(prices, vols);
    if q :| q in vols && q.ms == p.ms {
      assert MergeRow(p, q.value) in r;
    } else {
      assert MergeRow(p, None) in r;
    }
  }

  /** Reordering rows keeps every row's date that of its timestamp. */
  lemma PermutationKeepsDates(a: seq<CloseRow>, b: seq<CloseRow>)
    requires multiset(a) == multiset(b)
    requires forall i | 0 <= i < |a| :: a[i].date == DayOf(a[i].timestampMs)
    ensures forall i | 0 <= i < |b| :: b[i].date == DayOf(b[i].timestampMs)
  {
    forall i | 0 <= i < |b| ensures b[i].date == DayOf(b[i].timestampMs) {
      assert b[i] in multiset(a);
      var j :| 0 <= j < |a| && a[j] == b[i];
    }
  }

  /** `_build_df_from_payload`: the merged rows ordered by timestamp_utc. */
  function BuildFrame(payload: Json): (r: Result<seq<CloseRow>, CoinError>)
    ensures r.Ok? ==> SortedBy(r.value, CloseTimestamp)
    ensures r.Ok? ==> forall i | 0 <= i < |r.value| :: r.value[i].date == DayOf(r.value[i].timestampMs)
    ensures r.Ok? ==> payload.JObj?
    ensures r.Ok? ==> (exists prices, vols ::
                         && Series(PricesOf(payload)) == Some(prices) && Series(VolumesOf(payload)) == Some(vols)
                         && multiset(r.value) == multiset(LeftMergeOnMs(prices, vols)))
  {
    if !payload.JObj? then Err(PayloadNotADict)
    else
      match (Series(PricesOf(payload)), Series(VolumesOf(payload)))
      case (Some(prices), Some(vols)) =>
        var merged := LeftMergeOnMs(prices, vols);
        var sorted := SortBy(merged, CloseTimestamp);
        PermutationKeepsDates(merged, sorted);
        Ok(sorted)
      case _ => Err(MalformedSeries)
  }

  function PricesOf(payload: Json): Json
    requires payload.JObj?
  {
    if "prices" in payload.fields then payload.fields["prices"] else JArr([])
  }

  function VolumesOf(payload: Json): Json
    requires payload.JObj?
  {
    if "total_volumes" in payload.fields then payload.fields["total_volumes"] else JArr([])
  }

  // ---------------- The fetch ----------------

  /** What one call does: its result, the `days` value of each request batch it issued, and the cache afterwards. */
  datatype FetchOutcome = FetchOutcome(result: Result<seq<CloseRow>, CoinError>, requested: seq<string>, files: map<Path, Json>)

  /**
   * Which downgrade guard a fetch runs: the one the code has (`AsWritten`),
   * or the one it evidently intends (`Intended`).
   */
  datatype Guard = AsWritten | Intended

  function DowngradeBy(guard: Guard, status: int, body: Body, days: string): Result<bool, JsonFault>
  {
    match guard
    case AsWritten => DowngradeAsWritten(status, body, days)
    case Intended => Downgrade(status, body, days)
  }

  /** `if meta and is_fresh(meta, ttl_seconds)`. */
  function CacheHit(meta: Option<Json>, ttl: int, now: int): Result<bool, FreshnessFault>
  {
    if meta.Some? && Truthy(meta.value) then IsFresh(meta.value, ttl, now) else Ok(false)
  }

  /**
   * The end of the fetch, once the final answer is known: a raised request or
   * a status other than 200 is an error; otherwise the payload is stamped,
   * written to `path`, and the frame is built from what was written.
   */
  function Settle(final: Fetched, requested: seq<string>, files: map<Path, Json>, path: Path, now: int): (out: FetchOutcome)
    ensures out.requested == requested
    ensures final.Raised? ==> out.result == Err(Transport(final.fault)) && out.files == files
    ensures final.Returned? && final.status != 200 ==> out.result == Err(ApiError(final.status, final.body)) && out.files == files
    ensures final.Returned? && final.status == 200 && final.body.JsonBody? && final.body.value.JObj? ==>
      && out.files == AfterWrite(files, path, Stamp(final.body.value, now).value)
      && out.result == BuildFrame(Stamp(final.body.value, now).value)
    ensures final.Returned? && final.status == 200 && !(final.body.JsonBody? && final.body.value.JObj?) ==>
      out.result == Err(PayloadNotADict) && out.files == files
    ensures out.result.Err? && out.result.error != MalformedSeries ==> out.files == files
    ensures out.result.Ok? ==>
      && final.Returned? && final.status == 200
      && Lookup(out.files, path).Some?
      && FetchedAt(Lookup(out.files, path).value) == Ok(now)
      && out.files == AfterWrite(files, path, out.files[path])
      && out.result == BuildFrame(out.files[path])
  {
    if final.Raised? then FetchOutcome(Err(Transport(final.fault)), requested, files)
    else if final.status != 200 then FetchOutcome(Err(ApiError(final.status, final.body)), requested, files)
    else
      var payload := if final.body.JsonBody? then final.body.value else JStr(final.body.text);
      match Stamp(payload, now)
      case None => FetchOutcome(Err(PayloadNotADict), requested, files)
      case Some(stamped) => FetchOutcome(BuildFrame(stamped), requested, AfterWrite(files, path, stamped))
  }

  /** The fetch once the cache was not used, from the first request batch on, under the given guard. */
  function FetchAndStore(guard: Guard, files: map<Path, Json>, path: Path, market: string -> Server, days: string, now: int): FetchOutcome
  {
    var first := Backoff(market(days), DefaultMaxRetries).result;
    if first.Raised? then FetchOutcome(Err(Transport(first.fault)), [days], files)
    else match DowngradeBy(guard, first.status, first.body, days)
      case Err(e) => FetchOutcome(Err(BadErrorBody(e)), [days], files)
      case Ok(retry) =>
        if retry then Settle(Backoff(market(DowngradedDays), DefaultMaxRetries).result, [days, DowngradedDays], files, path, now)
        else Settle(first, [days], files, path, now)
  }

  /** The answer the fetch settles on: the "365" batch's when the guard fired on the first answer, the first answer otherwise. */
  function LastAnswer(guard: Guard, market: string -> Server, days: string): Fetched
  {
    var first := Backoff(market(days), DefaultMaxRetries).result;
    if first.Returned? && DowngradeBy(guard, first.status, first.body, days) == Ok(true)
    then Backoff(market(DowngradedDays), DefaultMaxRetries).result
    else first
  }

  /** At most two request batches: the first with `days`, a second with "365" only when the guard fired on the first answer. */
  lemma StoreRequests(guard: Guard, files: map<Path, Json>, path: Path, market: string -> Server, days: string, now: int)
    ensures var out := FetchAndStore(guard, files, path, market, days, now);
      var first := Backoff(market(days), DefaultMaxRetries).result;
      && 1 <= |out.requested| <= 2 && out.requested[0] == days
      && (|out.requested| == 2 ==>
            out.requested[1] == DowngradedDays && first.Returned? && DowngradeBy(guard, first.status, first.body, days) == Ok(true))
  {
  }

  /**
   * As written, the fetch sends exactly one request batch and its answer is
   * final: a raised request raises, a status other than 200 raises
   * "CoinGecko error", and only a 200 is stamped and stored.
   */
  lemma AsWrittenAnswerIsFinal(files: map<Path, Json>, path: Path, market: string -> Server, days: string, now: int)
    ensures var out := FetchAndStore(AsWritten, files, path, market, days, now);
      out == Settle(Backoff(market(days), DefaultMaxRetries).result, [days], files, path, now)
  {
    AsWrittenNeverDowngrades(market(days), DefaultMaxRetries, days);
  }

  /** Only a stamped payload is written, and an error raised before the write leaves the files alone. */
  lemma StoreFailure(guard: Guard, files: map<Path, Json>, path: Path, market: string -> Server, days: string, now: int)
    ensures var out := FetchAndStore(guard, files, path, market, days, now);
      out.result.Err? && out.result.error != MalformedSeries ==> out.files == files
  {
    var first := Backoff(market(days), DefaultMaxRetries).result;
    if !first.Raised? && DowngradeBy(guard, first.status, first.body, days).Ok? {
      var out := FetchAndStore(guard, files, path, market, days, now);
      assert out.result.Err? && out.files != files ==> out.result == Err(MalformedSeries);
    }
  }

  /**
   * A successful fetch wrote the last answer's payload, stamped with `now`,
   * at `path`, and built the frame from it; conversely, once the guard has
   * decided, a 200 whose body is a dict is stamped, written and built.
   */
  lemma StoreSuccess(guard: Guard, files: map<Path, Json>, path: Path, market: string -> Server, days: string, now: int)
    ensures var out := FetchAndStore(guard, files, path, market, days, now);
      var last := LastAnswer(guard, market, days);
      out.result.Ok? ==>
        && last.Returned? && last.status == 200 && last.body.JsonBody? && last.body.value.JObj?
        && Lookup(out.files, path).Some?
        && FetchedAt(Lookup(out.files, path).value) == Ok(now)
        && out.files == AfterWrite(files, path, Stamp(last.body.value, now).value)
        && out.result == BuildFrame(Stamp(last.body.value, now).value)
    ensures var out := FetchAndStore(guard, files, path, market, days, now);
      var first := Backoff(market(days), DefaultMaxRetries).result;
      var last := LastAnswer(guard, market, days);
      first.Returned? && DowngradeBy(guard, first.status, first.body, days).Ok? &&
      last.Returned? && last.status == 200 && last.body.JsonBody? && last.body.value.JObj? ==>
        && out.files == AfterWrite(files, path, Stamp(last.body.value, now).value)
        && out.result == BuildFrame(Stamp(last.body.value, now).value)
  {
  }

  /**
   * The specification of `fetch_daily_close_coin` over the cache `files`,
   * the API (`market(d)` answers the requests made with days = d) and the
   * clock `now` in seconds, under the given downgrade guard.
   */
  function FetchDailyClose(guard: Guard, files: map<Path, Json>, market: string -> Server, coinId: string, vs: string,
                           days: string, cacheDir: seq<string>, ttl: int, now: int): FetchOutcome
  {
    var path := CachePath(cacheDir, coinId, vs, days);
    var meta := Lookup(files, path);
    match CacheHit(meta, ttl, now)
    case Err(e) => FetchOutcome(Err(CacheUnreadable(e)), [], files)
    case Ok(hit) =>
      if hit then FetchOutcome(BuildFrame(meta.value), [], files)
      else FetchAndStore(guard, files, path, market, days, now)
  }

  /** `fetch_daily_close_coin` as written: the cache, then the fetch under the guard the code has. */
  method FetchDailyCloseCoin(cache: JsonCache, market: string -> Server, coinId: string, vs: string,
                             days: string, cacheDir: seq<string>, ttl: int, now: int)
    returns (r: Result<seq<CloseRow>, CoinError>, requested: seq<string>)
    modifies cache
    ensures FetchOutcome(r, requested, cache.files) == FetchDailyClose(AsWritten, old(cache.files), market, coinId, vs, days, cacheDir, ttl, now)
  {
    var path := CachePath(cacheDir, coinId, vs, days);
    var meta := cache.Read(path);
    requested := [];
    var useCache := false;
    if meta.Some? && Truthy(meta.value) {
      var verdict := IsFresh(meta.value, ttl, now);
      if verdict.Err? {
        return Err(CacheUnreadable(verdict.error)), requested;
      }
      useCache := verdict.value;
    }
    if useCache {
      r := BuildFrame(meta.value);
      return;
    }
    r, requested := FetchAndStoreCoin(cache, AsWritten, path, market, days, now);
  }

  /**
   * The part of `fetch_daily_close_coin` after the cache was not used: the
   * requests, the downgrade guard, and the tail. Under the guard as written
   * the second request batch is never reached (`AsWrittenAnswerIsFinal`).
   */
  method FetchAndStoreCoin(cache: JsonCache, guard: Guard, path: Path, market: string -> Server, days: string, now: int)
    returns (r: Result<seq<CloseRow>, CoinError>, requested: seq<string>)
    modifies cache
    ensures FetchOutcome(r, requested, cache.files) == FetchAndStore(guard, old(cache.files), path, market, days, now)
  {
    var status: int, body: Body;
    var fetched, n1, s1 := GetWithBackoff(market(days), DefaultMaxRetries);
    requested := [days];
    if fetched.Raised? {
      return Err(Transport(fetched.fault)), requested;
    }
    status, body := fetched.status, fetched.body;
    var retry := DowngradeBy(guard, status, body, days);
    if retry.Err? {
      return Err(BadErrorBody(retry.error)), requested;
    }
    if retry.value {
      var n2, s2;
      fetched, n2, s2 := GetWithBackoff(market(DowngradedDays), DefaultMaxRetries);
      requested := requested + [DowngradedDays];
      if fetched.Raised? {
        return Err(Transport(fetched.fault)), requested;
      }
      status, body := fetched.status, fetched.body;
    }
    r := SettleFetched(cache, Returned(status, body), requested, path, now);
  }

  /** The tail of `fetch_daily_close_coin`: the status check, the stamp, the cache write and the frame. */
  method SettleFetched(cache: JsonCache, final: Fetched, requested: seq<string>, path: Path, now: int)
    returns (r: Result<seq<CloseRow>, CoinError>)
    requires final.Returned?
    modifies cache
    ensures FetchOutcome(r, requested, cache.files) == Settle(final, requested, old(cache.files), path, now)
  {
    if final.status != 200 {
      return Err(ApiError(final.status, final.body));
    }
    var payload := if final.body.JsonBody? then final.body.value else JStr(final.body.text);
    var stamped := Stamp(payload, now);
    if stamped.None? {
      return Err(PayloadNotADict);
    }
    cache.Write(path, stamped.value);
    r := BuildFrame(stamped.value);
  }

  /** A fresh cached entry is used as it is: no request, no write. */
  lemma FreshCacheIsServedWithoutRequests(guard: Guard, files: map<Path, Json>, market: string -> Server, coinId: string, vs: string,
                                          days: string, cacheDir: seq<string>, ttl: int, now: int)
    requires var meta := Lookup(files, CachePath(cacheDir, coinId, vs, days));
      meta.Some? && Truthy(meta.value) && IsFresh(meta.value, ttl, now) == Ok(true)
    ensures var out := FetchDailyClose(guard, files, market, coinId, vs, days, cacheDir, ttl, now);
      out.requested == [] && out.files == files
      && out.result == BuildFrame(files[CachePath(cacheDir, coinId, vs, days)])
  {
  }

  /**
   * On a cache miss the call as written raises on whatever a non-200 first
   * answer is, after that one request batch, and leaves the cache alone; a
   * raised request propagates.
   */
  lemma NonOkStatusRaises(files: map<Path, Json>, market: string -> Server, coinId: string, vs: string,
                          days: string, cacheDir: seq<string>, ttl: int, now: int)
    requires CacheHit(Lookup(files, CachePath(cacheDir, coinId, vs, days)), ttl, now) == Ok(false)
    ensures var out := FetchDailyClose(AsWritten, files, market, coinId, vs, days, cacheDir, ttl, now);
      var first := Backoff(market(days), DefaultMaxRetries).result;
      && out.requested == [days]
      && (first.Raised? ==> out.result == Err(Transport(first.fault)) && out.files == files)
      && (first.Returned? && first.status != 200 ==> out.result == Err(ApiError(first.status, first.body)) && out.files == files)
  {
    AsWrittenAnswerIsFinal(files, CachePath(cacheDir, coinId, vs, days), market, days, now);
  }

  /**
   * At most two request batches; a second one, with days "365", only after
   * a 401 carrying error code 10012 for days "max".
   */
  lemma AtMostOneDowngrade(guard: Guard, files: map<Path, Json>, market: string -> Server, coinId: string, vs: string,
                           days: string, cacheDir: seq<string>, ttl: int, now: int)
    ensures var out := FetchDailyClose(guard, files, market, coinId, vs, days, cacheDir, ttl, now);
      && |out.requested| <= 2
      && (|out.requested| >= 1 ==> out.requested[0] == days)
      && (|out.requested| == 2 ==>
            var first := Backoff(market(days), DefaultMaxRetries).result;
            && out.requested[1] == DowngradedDays && days == "max"
            && first.Returned? && first.status == 401
            && ErrorDocument(first.body).Some? && HasPlanLimitCode(ErrorDocument(first.body).value) == Ok(true))
  {
    StoreRequests(guard, files, CachePath(cacheDir, coinId, vs, days), market, days, now);
  }

  /** A call that raises leaves the cache as it was, unless the frame building itself failed after the write. */
  lemma FailureLeavesCacheUnchanged(guard: Guard, files: map<Path, Json>, market: string -> Server, coinId: string, vs: string,
                                    days: string, cacheDir: seq<string>, ttl: int, now: int)
    ensures var out := FetchDailyClose(guard, files, market, coinId, vs, days, cacheDir, ttl, now);
      out.result.Err? && out.result.error != MalformedSeries ==> out.files == files
  {
    StoreFailure(guard, files, CachePath(cacheDir, coinId, vs, days), market, days, now);
  }

  /**
   * A fetched payload is stamped with the clock and stored under the path of
   * the ORIGINAL days value, even after a downgrade to "365"; no other entry
   * but the temporary file changes.
   */
  lemma FetchedPayloadIsStampedAndStored(guard: Guard, files: map<Path, Json>, market: string -> Server, coinId: string, vs: string,
                                         days: string, cacheDir: seq<string>, ttl: int, now: int)
    requires FetchDailyClose(guard, files, market, coinId, vs, days, cacheDir, ttl, now).requested != []
    requires FetchDailyClose(guard, files, market, coinId, vs, days, cacheDir, ttl, now).result.Ok?
    ensures var out := FetchDailyClose(guard, files, market, coinId, vs, days, cacheDir, ttl, now);
      var path := CachePath(cacheDir, coinId, vs, days);
      var last := LastAnswer(guard, market, days);
      && last.Returned? && last.status == 200 && last.body.JsonBody? && last.body.value.JObj?
      && Lookup(out.files, path).Some?
      && FetchedAt(Lookup(out.files, path).value) == Ok(now)
      && out.files == AfterWrite(files, path, Stamp(last.body.value, now).value)
      && out.result == BuildFrame(Stamp(last.body.value, now).value)
  {
    StoreSuccess(guard, files, CachePath(cacheDir, coinId, vs, days), market, days, now);
  }

  // ---------------- The dead downgrade, end to end ----------------

  /** An empty market-chart document, as a 200 carries it. */
  const EmptyChart: Json := JObj(map[])

  /** A server that answers every request with 200 and an empty market chart. */
  function EmptyChartServer(i: nat): Reply
  {
    Answered(Response(200, "{}", Some(EmptyChart)))
  }

  /** The API on a free plan: every "max" request answers 401 with error code 10012, every other request 200. */
  function FreePlanMarket(days: string): Server
  {
    if days == "max" then PlanLimitServer else EmptyChartServer
  }

  /** The empty chart is returned on the first attempt, and once stamped it builds an empty frame. */
  lemma EmptyChartSettles(now: int)
    ensures Backoff(EmptyChartServer, DefaultMaxRetries).result == Returned(200, JsonBody(EmptyChart))
    ensures Stamp(EmptyChart, now).Some? && BuildFrame(Stamp(EmptyChart, now).value) == Ok([])
  {
    FirstMatchIs(EmptyChartServer, Settles, DefaultMaxRetries, 0);
    var stamped := JObj(map[StampKey := JNum(now)]);
    assert Stamp(EmptyChart, now) == Some(stamped);
    assert PricesOf(stamped) == JArr([]) && VolumesOf(stamped) == JArr([]);
    assert Series(JArr([])) == Some([]);
  }

  /**
   * On a free plan, with no cached entry: the call as written raises
   * "CoinGecko error 401" after one request batch with days "max"; the
   * intended call retries with days "365" and returns the frame.
   */
  lemma FreePlanShowsDeadDowngrade(now: int)
    ensures var out := FetchDailyClose(AsWritten, map[], FreePlanMarket, "bitcoin", "usd", "max", [], DefaultTtl, now);
      out == FetchOutcome(Err(ApiError(401, TextBody(PlanLimitText, Some(PlanLimitDocument)))), ["max"], map[])
    ensures var out := FetchDailyClose(Intended, map[], FreePlanMarket, "bitcoin", "usd", "max", [], DefaultTtl, now);
      out.requested == ["max", DowngradedDays] && out.result.Ok?
  {
    PlanLimitReplyShowsDeadBranch();
    EmptyChartSettles(now);
  }
}
