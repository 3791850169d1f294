# Price-fetching decision logic of crypto-index-bootcamp, in Dafny

This project models how the repository fetches daily crypto prices, and
proves what that logic promises. It covers four parts:

- **Retry and backoff.**
  - `get_with_backoff` retries 429/500/502/503/504. The waits double from 1 s, capped at 8 s. When the attempts run out it returns a synthetic `(429, rate_limited)`.
  - The older `_get_json_with_retry` retries every non-200 status and every request exception, capped at 16 s. When it gives up it reports the status of the last response it received.
- **Provider fallback chains.**
  - `get_market_chart_daily`: CoinGecko, then CoinCap (bitcoin/usd only), then Binance klines.
  - `fetch_daily_close_ccxt`: kraken, then binance, collecting one error per exchange.
  - The `pull_prices` command: CoinGecko, Yahoo, ccxt, with a forced-provider mode that fails fast.
- **Cursor pagination.** The Binance klines loop and ccxt's `_fetch_all_ohlcv` both move their cursor to the last timestamp + 1. Both stop on an empty or short page; Binance also stops at the end of its time window.
- **A JSON file cache with a TTL.**
  - Cached documents are read whole and replaced whole, through a `.tmp` sibling.
  - `is_fresh` compares the `_fetched_at` stamp against the TTL.
  - `fetch_daily_close_coin` serves a fresh entry without any request. Otherwise it fetches, stamps the payload and writes it back. Its intended retry with days `365` after a plan-limit 401 for `max` never runs as written (see Findings). The fetch therefore takes the downgrade guard as a value: `AsWritten`, which the method runs, or `Intended`.

The outside world is passed in as parameters:

| stands in for | in the model |
|---|---|
| the HTTP server | a `Server` function: the reply to the i-th request of one call |
| a kline or OHLCV API | a function from a cursor to a page |
| a ccxt exchange | an `Exchange` value: markets, feeds and newest candle |
| each provider's outcome | a `Result` |
| the clock | an integer parameter |
| the cache directory | a `map<Path, Json>` field of the `JsonCache` class |

Wherever the source runs a loop or updates state, the model has a method with that loop. Each method is proved equal to a specification function:

| method | specification function |
|---|---|
| `GetWithBackoff` | `Backoff` |
| `GetJsonWithRetry` | `Retrying` |
| `CollectKlines` | `KlineWalk` |
| `BinanceBtcUsdtDaily` | `BinanceDaily` |
| `CollectOhlcv` | `OhlcvPages` |
| `FetchAllOhlcv` | `AllOhlcv` |
| `FetchDailyCloseCcxt` | `CcxtDaily` |
| `SettleFetched` | `Settle` |
| `FetchAndStoreCoin` | `FetchAndStore`, under the guard passed in |
| `FetchDailyCloseCoin` | `FetchDailyClose` under the guard as written |
| `PullPrices` | `Pull` |

The lemmas state the source's promises about these functions.

Modules, one per file: `Outcomes`, `Json`, `Transport`, `Http`, `LegacyRetry`, `Frames`, `MarketChart`, `Cache`, `CoinGeckoDaily`, `Ccxt` and `PullPrices`.

Pandas frames are sequences of rows. `sort_values` is an insertion sort by key. `drop_duplicates(key)` after it keeps the first row of each key.

## Model

| member | source | states |
|---|---|---|
| Json.Get | src/data/coingecko.py:41-42 | `dict.get`: on a dict, the value of a present key or the default; on anything else an AttributeError |
| Transport.FirstMatch | src/utils/http.py:7-14 | the attempt that ends a retry loop: no earlier reply stops it, and it stops there unless the attempts ran out |
| Transport.DoublingClosedForm | src/utils/http.py:6-12 | a delay that starts at `initial` and doubles with a cap is `min(initial * 2^k, cap)` after k doublings |
| Transport.DoublingBounds | src/coingecko.py:29-33 | every doubled delay stays between min(initial, cap) and the cap |
| Transport.CountAll | src/utils/http.py:11-13 | when all of the first n replies are retryable, n of them are counted |
| Http.Settle | src/utils/http.py:9-14 | a reply that ends the loop: 200 gives its decoded body; any other status gives `(status, r.text)`; an undecodable 200 or a failed request raises |
| Http.GetWithBackoff | src/utils/http.py:5-15 | the loop issues exactly the requests, and sleeps exactly the delays, of `Backoff`; it returns the same result as `Backoff` |
| Http.SuccessReturnsAtOnce | src/utils/http.py:8-10 | a 200 on attempt k returns `(200, body)` after k + 1 requests, with a sleep only after each earlier retryable reply |
| Http.OtherStatusReturnedUnchanged | src/utils/http.py:11-14 | a status other than 200 and the retryable five is returned unchanged with its text on the attempt it arrives, with no sleep after it |
| Http.RateLimitedExactlyWhenExhausted | src/utils/http.py:15 | the result is `(429, rate_limited)` with every attempt used if and only if every reply was retryable |
| Http.NoAttemptsNoRequests | src/utils/http.py:7-15 | with max_retries <= 0 nothing is requested or slept and `(429, rate_limited)` is returned |
| Http.RequestsBounded | src/utils/http.py:7 | at most max_retries requests; none exactly when max_retries <= 0 |
| Http.DelayIsCappedPowerOfTwo | src/utils/http.py:6-12 | the k-th delay is min(2^k, 8), between 1 and 8 |
| Http.SleepsCountRetryableReplies | src/utils/http.py:11-13 | the number of sleeps equals the number of retryable replies received, the one after the final attempt included |
| LegacyRetry.LastStatus | src/coingecko.py:26-34 | there is no status ("N/A") exactly when no attempt got a response |
| LegacyRetry.GetJsonWithRetry | src/coingecko.py:20-35 | the loop issues exactly the requests, and sleeps exactly the delays, of `Retrying`; it gives the same result as `Retrying` |
| LegacyRetry.FirstSuccessReturned | src/coingecko.py:23-28 | for any initial backoff, the JSON of the first 200 with a decodable body is returned after exactly k + 1 requests |
| LegacyRetry.RequestsBounded | src/coingecko.py:23 | at most `retries` requests, and exactly that many when the call fails |
| LegacyRetry.SleepsDoubleUpTo16 | src/coingecko.py:29-33 | the first sleep is the initial backoff; each later one doubles the previous, capped at 16 |
| LegacyRetry.DefaultSleepsArePowersOfTwo | src/coingecko.py:21-33 | with backoff 1 the k-th sleep is min(2^k, 16) |
| LegacyRetry.LastStatusIsLatestResponse | src/coingecko.py:26-35 | the reported status is that of the latest response; later request exceptions do not overwrite it |
| LegacyRetry.AllRaisedReportsNA | src/coingecko.py:34-35 | when every attempt raised, the failure reads "HTTP N/A" |
| Frames.InsertBy | src/coingecko.py:61 | inserting a row into a frame sorted by key keeps it sorted, and adds exactly that row |
| Frames.SortBy | src/data/coingecko.py:20 | `sort_values(key)`: sorted by key, and a permutation of the input |
| Frames.DropDuplicatesBy | src/coingecko.py:61 | `drop_duplicates(key)` with `keep="first"`: every kept row is the first row of its key in the input, every key is kept once, and a sorted input gives a strictly sorted result |
| Frames.SortDedupBy | src/coingecko.py:61 | sort then drop duplicates: one row per key in strictly increasing key order, with the same set of keys |
| MarketChart.MatchesOn | src/coingecko.py:60 | the rows of a series on the same date as a point are exactly those kept for the inner merge |
| MarketChart.JoinOnDate | src/coingecko.py:57-60 | every row of the three-way inner merge joins a price, a market cap and a volume point of one date, with their values; every such triple has its row |
| MarketChart.JoinOne | src/coingecko.py:60 | for one price point and caps of its date, every row joins it with one of those caps and a volume of its date, and every such pair has its row |
| MarketChart.JoinKeys | src/coingecko.py:57-60 | the join has a row on exactly the dates on which all three series have a point |
| MarketChart.CoinGeckoDaily | src/coingecko.py:40-61 | a fetch error propagates; otherwise one row per date, sorted, on exactly the dates on which all three series have a point, each row a joined price, market cap and volume |
| MarketChart.CoinCapRows | src/coingecko.py:80-86 | rows with a NaN price are dropped: every priced data point has its row, and every row is that of a priced data point |
| MarketChart.CoinCapKeys | src/coingecko.py:80-86 | the CoinCap frame has a row on exactly the dates of the priced entries |
| MarketChart.CoinCapDaily | src/coingecko.py:75-87 | "CoinCap returned no data" exactly when `data` is empty; otherwise one row per date of a priced entry, sorted, each the row of a priced entry |
| MarketChart.KlineWalk | src/coingecko.py:99-117 | no request when the window is empty; one cursor per page, plus one more when the loop ends on an empty page or an error |
| MarketChart.KlineWalkPages | src/coingecko.py:98-117 | the first cursor is start_ts; each page is the API's non-empty answer at its cursor; every page but the last is full; an error comes from the last request |
| MarketChart.KlineCursorAt | src/coingecko.py:98-115 | the cursor at any position lies in [start_ts, end_ts), and the one after a page is that page's last close_time + 1 |
| MarketChart.KlineWalkCursors | src/coingecko.py:98-115 | every cursor lies in [start_ts, end_ts), and each next cursor is the previous page's last close_time + 1 |
| MarketChart.PageFramesFlatten | src/coingecko.py:105-121 | concatenating the pages' frames gives the rows of all the klines, page after page, so the concat loses and reorders nothing |
| MarketChart.KlineFullStep | src/coingecko.py:99-117 | a full page inside the window is recorded and the walk goes on from its last close_time + 1, strictly past the current cursor |
| MarketChart.GatherFullPage | src/coingecko.py:99-117 | a full page inside the window keeps its frame and moves the cursor strictly forward, to its last close_time + 1 |
| MarketChart.GatherLastPage | src/coingecko.py:99-117 | a raised request, an empty page or a short page is the loop's last request; a short page's frame is kept, an empty page adds none |
| MarketChart.CollectKlines | src/coingecko.py:97-117 | the `while` loop keeps one frame per page of the walk, sends exactly the walk's cursors, and ends with the walk's error |
| MarketChart.KlineWalkStops | src/coingecko.py:99-117 | the loop ends only on an empty page, a short page, or a cursor at or past end_ts |
| MarketChart.BinanceBtcUsdtDaily | src/coingecko.py:93-122 | the `while` loop requests exactly the cursors of the walk, and returns `BinanceDaily`: the error, "Binance returned no data", or all pages' rows sorted with one row per date |
| MarketChart.EmptyWindowHasNoData | src/coingecko.py:96-120 | with days <= 0 nothing is requested and the call raises "Binance returned no data" |
| MarketChart.SourceTag | src/coingecko.py:130-138 | the tag is one of coingecko, coincap, binance |
| MarketChart.Lower | src/coingecko.py:134 | `str.lower` maps each character to its lower case |
| MarketChart.MarketChartDaily | src/coingecko.py:124-138 | CoinGecko is tried first, and its success is returned with no other call. CoinCap is tried exactly when CoinGecko failed and the pair is bitcoin/usd. Binance is tried exactly when neither answered. The tag names the last provider tried, and the frame is that provider's. Only Binance's failure escapes |
| MarketChart.ChainFrameHasOneRowPerDate | src/coingecko.py:124-138 | whichever provider answers, the frame has one row per date in date order, and the tag is one of the three |
| MarketChart.LowerIdempotent | src/coingecko.py:134 | lowering an already lowered string changes nothing |
| MarketChart.CoinCapIsCaseInsensitive | src/coingecko.py:134 | the CoinCap test gives the same answer for any spelling as for its lower-case form, because lowering is idempotent |
| Cache.AfterWrite | src/utils/cache.py:12-17 | after a write, reading p gives the payload; the `.tmp` file does not remain; no other entry changes |
| Cache.JsonCache.Read | src/utils/cache.py:6-10 | reading gives the stored document, or None when no file is there |
| Cache.JsonCache.Write | src/utils/cache.py:12-17 | dumping to the `.tmp` sibling and replacing p leaves exactly `AfterWrite` |
| Cache.Stamp | src/data/coingecko.py:49 | stamping succeeds exactly on a dict; it sets `_fetched_at` to now, keeps every other key and value, and adds no other key |
| Cache.FreshIffWithinTtl | src/utils/cache.py:19-21 | an entry is fresh if and only if now - `_fetched_at` < ttl |
| Cache.MissingStampCountsAsZero | src/utils/cache.py:20 | a dict with no stamp counts as stamped at 0 |
| Cache.StaleStaysStale | src/utils/cache.py:21 | once stale, an entry stays stale as the clock advances |
| Cache.StampedIsFreshUntilTtl | src/data/coingecko.py:49-50 | a payload stamped now is fresh for a positive ttl, and stale once ttl seconds have passed |
| CoinGeckoDaily.Downgrade | src/data/coingecko.py:39-44 | the corrected guard asks for the "365" retry exactly on a 401 for days "max" whose decoded body is a dict carrying error_code 10012 |
| CoinGeckoDaily.AsWrittenNeverDowngrades | src/data/coingecko.py:37-44 | as written, the downgrade guard never fires on anything `get_with_backoff` returns |
| CoinGeckoDaily.PlanLimitReplyShowsDeadBranch | src/data/coingecko.py:40-44 | for a 401 carrying error_code 10012 on days "max": the written guard does not downgrade, but the intended one does |
| CoinGeckoDaily.Series | src/data/coingecko.py:13-16 | a series parses exactly when it is null (an empty series) or a list of well-formed `[ms, value]` entries; then it has one point per entry, each the parse of its entry |
| CoinGeckoDaily.Entries | src/data/coingecko.py:15-16 | a list of entries parses exactly when every entry is a well-formed pair; then each point is the parse of the entry at its position |
| CoinGeckoDaily.VolumesAt | src/data/coingecko.py:17 | the volumes matched to a timestamp: each comes from a volume point with that timestamp, and every such point's volume is there |
| CoinGeckoDaily.VolumesAtConcat | src/data/coingecko.py:17 | the volumes are taken in series order: those of a concatenation are those of each part, one after the other |
| CoinGeckoDaily.PriceRows | src/data/coingecko.py:17-19 | a price point yields one row per volume recorded at its ms, each with that volume, or one row with no volume when none is recorded; every such volume has its row |
| CoinGeckoDaily.LeftMergeOnMs | src/data/coingecko.py:17-19 | every row is a price point with a volume recorded at its ms, or with no volume when none is; every such pairing has its row; every row's date is the UTC day of its timestamp |
| CoinGeckoDaily.EveryPricePointKept | src/data/coingecko.py:17 | the left merge keeps every price point: each has a row with its timestamp and close |
| CoinGeckoDaily.BuildFrame | src/data/coingecko.py:12-21 | the frame is ordered by timestamp, dates are UTC days, and it is a permutation of the left merge of prices and volumes |
| CoinGeckoDaily.Settle | src/data/coingecko.py:46-52 | after the final answer: a raised request propagates, and a status other than 200 raises "CoinGecko error" with that status and body; both write nothing. A 200 whose body is a dict has `Stamp(body, now)` written at the cache path and the frame built from that document; a 200 whose body is not a dict raises and writes nothing; only a 200 succeeds |
| CoinGeckoDaily.StoreRequests | src/data/coingecko.py:36-44 | under either guard, a fetch issues one or two request batches, the first with the given days; the second, with "365", only when that guard fired on the first answer |
| CoinGeckoDaily.AsWrittenAnswerIsFinal | src/data/coingecko.py:37-52 | as written, the fetch ends with its first answer: one request batch, then the status check, the stamp and the write |
| CoinGeckoDaily.NonOkStatusRaises | src/data/coingecko.py:31-47 | on a cache miss the call as written sends one batch; a raised request propagates, and a status other than 200 raises "CoinGecko error" with that status and body; neither changes the cache |
| CoinGeckoDaily.StoreFailure | src/data/coingecko.py:36-50 | a fetch that raises before the write leaves the files unchanged |
| CoinGeckoDaily.StoreSuccess | src/data/coingecko.py:49-52 | a fetch succeeds only on a 200 dict from the last request batch (`LastAnswer`), and then writes `Stamp` of that payload at the cache path, changes nothing else but the temporary file, and builds the frame from it; conversely, once the guard has decided, a 200 dict from the last batch is written and built |
| CoinGeckoDaily.SettleFetched | src/data/coingecko.py:46-52 | the tail of the method gives the result, and leaves the cache, of `Settle` |
| CoinGeckoDaily.FetchAndStoreCoin | src/data/coingecko.py:35-52 | the requests, the downgrade guard passed in and the tail give the result, the requests and the cache of `FetchAndStore` under that guard |
| CoinGeckoDaily.FetchDailyCloseCoin | src/data/coingecko.py:23-52 | the cache-then-fetch method gives the result of `FetchDailyClose` under the guard as written, issues its requests, and leaves its cache |
| CoinGeckoDaily.FreshCacheIsServedWithoutRequests | src/data/coingecko.py:32-34 | a truthy, fresh cached entry is built into the frame with no request and no write |
| CoinGeckoDaily.AtMostOneDowngrade | src/data/coingecko.py:36-44 | under either guard, at most two request batches, the first with the given days. A second with "365" only for days "max", after a 401 whose body carries error_code 10012 |
| CoinGeckoDaily.FreePlanShowsDeadDowngrade | src/data/coingecko.py:37-47 | on a free plan with no cached entry, the call as written raises "CoinGecko error 401" after one "max" batch; the intended call retries with "365" and returns the frame |
| CoinGeckoDaily.FailureLeavesCacheUnchanged | src/data/coingecko.py:46-50 | a call that raises before the write leaves the cache as it was |
| CoinGeckoDaily.FetchedPayloadIsStampedAndStored | src/data/coingecko.py:31-52 | on a cache miss that succeeds, the last batch's payload, stamped with now, is stored under the path of the ORIGINAL days, with no other change than that write; the frame is built from it |
| Ccxt.OhlcvPages | src/data/ccxt_provider.py:17-31 | one cursor per page, plus one when the loop ends on an empty page or an exception |
| Ccxt.OhlcvWalkPages | src/data/ccxt_provider.py:17-31 | the first request has no `since`; each page is the exchange's answer at its cursor and is not empty; every page but the last is full; an exception comes from the last request |
| Ccxt.OhlcvFullStep | src/data/ccxt_provider.py:21-32 | a full page is recorded and the walk goes on from its last timestamp + 1, which lies past the current `since` |
| Ccxt.OhlcvEndStep | src/data/ccxt_provider.py:21-32 | a raised request, an empty page or a short page is the walk's last request |
| Ccxt.OhlcvFirstSince | src/data/ccxt_provider.py:17-21 | the first request asks from the initial `since` |
| Ccxt.OhlcvNextSince | src/data/ccxt_provider.py:26-27 | the `since` after a page is that page's last timestamp + 1 |
| Ccxt.OhlcvSinceAfter | src/data/ccxt_provider.py:26-27 | every later `since` is a timestamp past the initial one |
| Ccxt.OhlcvSincesIncrease | src/data/ccxt_provider.py:20-27 | the cursors after the first strictly increase |
| Ccxt.OhlcvWalkCursors | src/data/ccxt_provider.py:17-27 | the first request has the initial `since`; each next `since` is the last candle's timestamp + 1; every later one lies past an initial `since`, and the later ones strictly increase |
| Ccxt.CollectFullPage | src/data/ccxt_provider.py:21-32 | a full page is added to the rows and the loop goes on from its last timestamp + 1 |
| Ccxt.CollectLastPage | src/data/ccxt_provider.py:21-32 | an exception, an empty page or a short page ends the loop; a short page's candles are kept |
| Ccxt.CollectOhlcv | src/data/ccxt_provider.py:17-32 | the `while True` loop collects exactly the candles of the walk's pages, sends exactly its cursors, and ends with its exception |
| Ccxt.OhlcvWalkStops | src/data/ccxt_provider.py:22-32 | the loop ends only on an empty page, a short page, or an exception |
| Ccxt.CandleRows | src/data/ccxt_provider.py:36-39 | one row per candle, in order: its timestamp is the candle's ms, its date the UTC day of that ms, its close and volume the candle's |
| Ccxt.OhlcvFrameIsSortedPermutation | src/data/ccxt_provider.py:33-39 | a frame exactly when no exception and some rows; "No OHLCV" exactly when none; the frame is the fetched candles, in timestamp order |
| Ccxt.FetchAllOhlcv | src/data/ccxt_provider.py:15-40 | the `while True` loop requests exactly the cursors of the walk and returns `AllOhlcv` |
| Ccxt.Symbols | src/data/ccxt_provider.py:10-13 | a mapping exists exactly for bitcoin and ethereum: kraken first, then binance |
| Ccxt.TryExchange | src/data/ccxt_provider.py:49-55 | trying one exchange gives `Attempt`: the markets error, "symbol missing", or the OHLCV fetch |
| Ccxt.PendingStep | src/data/ccxt_provider.py:47-58 | one step of the exchange loop: a success returns at once; a failure is appended to the errors and the loop moves on to the next exchange |
| Ccxt.FetchDailyCloseCcxt | src/data/ccxt_provider.py:42-59 | the `for` loop contacts exactly the exchanges of `CcxtDaily` and returns its result |
| Ccxt.UnmappedCoinContactsNoExchange | src/data/ccxt_provider.py:43-45 | an unmapped coin raises ValueError before any exchange is contacted |
| Ccxt.FirstSuccessfulExchangeWins | src/data/ccxt_provider.py:47-58 | exchanges are contacted in listed order, each only after every earlier one failed; the result is the first success |
| Ccxt.AllFailedListsEveryExchange | src/data/ccxt_provider.py:46-59 | when all fail, the error lists every exchange once, in try order, each with its own fault |
| Ccxt.KrakenFirst | src/data/ccxt_provider.py:10-13 | for bitcoin and ethereum, kraken is contacted first |
| PullPrices.Name | src/cli/pull_prices.py:36-46 | the provider names are coingecko, yahoo, ccxt |
| PullPrices.PullPrices | src/cli/pull_prices.py:25-70 | the try/except code of `main` calls exactly the providers `Pull` calls, and ends as `Pull` does |
| PullPrices.AutoTriesInOrder | src/cli/pull_prices.py:33-65 | auto mode calls CoinGecko, Yahoo, ccxt in that order, each only after the earlier ones raised. A written frame is that of the last provider called, tagged with its name |
| PullPrices.AutoRaisesOnlyWhenAllRaise | src/cli/pull_prices.py:53-65 | auto mode raises a provider error exactly when all three raise, and then it is ccxt's |
| PullPrices.ForcedProviderOnly | src/cli/pull_prices.py:33-51 | a forced provider is the only one called; its exception propagates unchanged and its frame is the one written |
| PullPrices.EmptyCoinGeckoFrameEndsTheChain | src/cli/pull_prices.py:35-68 | an empty CoinGecko frame calls no other provider and raises "All providers returned empty data frame." |
| PullPrices.WrittenFrameIsNonEmptyAndNamed | src/cli/pull_prices.py:67-70 | a written frame is not empty and goes to `out_root/<provider>/<coin>_usd_daily.parquet`; an empty frame is never written |

## Left out

- Real I/O is not modelled: HTTP requests, `time.sleep`, `time.time`, ccxt exchange objects, printing and parquet writing. Each is a parameter or an output value instead. For example, the sleeps are returned as the sequence of delays, and the written file as a `Written` value.
- Floating-point values are not modelled. Timestamps, prices and volumes are integers. The delays of the two backoff loops (starting at 1.0, capped at 8 and 16) are whole numbers of seconds, so integers model them exactly.
- The fixed sleeps between pages are not modelled: 0.2 s in the Binance klines loop (src/coingecko.py:118) and `ex.rateLimit / 1000.0` in `_fetch_all_ohlcv` (src/data/ccxt_provider.py:29).
- LegacyRetry.GetJsonWithRetry: a 200 whose body does not decode is retried like a failed request. That holds with requests 2.27 or later, where the decoding error of `r.json()` is a `RequestException`; with an older requests the `ValueError` would escape the loop instead.
- pandas internals are abstracted.
  - `to_datetime(...).normalize()` / `.dt.date` is the Euclidean floor of the millisecond timestamp by 86 400 000.
  - `to_numeric(errors="coerce")` is an `Option`: None for NaN.
  - `merge` is a nested-loop join.
- Frame columns are not modelled: rows are records of exactly the four output columns.
- Frames.SortDedupBy: promises that the row kept for each date comes from the input, not which one, because `sort_values` is unstable in pandas and may order rows of one date either way before `drop_duplicates` keeps the first.
- MarketChart.CoinGeckoDaily: takes the payload already split into its three series. The `_hash`-keyed file cache of `_coingecko_daily` (src/coingecko.py:16-18,43-49) is left out, because its key is a SHA-256 digest. A payload that is not a dict, or whose series entries are not pairs, is not modelled here.
- CoinGeckoDaily.BuildFrame: a series entry that is not `[number, number-or-null]` gives `MalformedSeries`; pandas' own handling of odd shapes is not modelled.
- CoinGeckoDaily.FailureLeavesCacheUnchanged: excludes `MalformedSeries`, which is raised after the write-back.
- MarketChart.Lower: only ASCII letters are lowered; Unicode case mapping is not modelled.
- MarketChart.BinanceBtcUsdtDaily: requires that every non-empty kline page closes at or after the startTime asked for (`Progressing`), which the source's loop needs to end; an API that keeps answering with pages that never advance is not modelled.
- MarketChart.CollectKlines: the same requirement as `BinanceBtcUsdtDaily`.
- Ccxt.FetchAllOhlcv: requires that every full page ends at or after the `since` asked for and no later than the exchange's newest candle (`Bounded`). The first half is what the source's loop needs to make progress; the second bounds the number of pages, which Dafny needs to see the loop end. An exchange that keeps answering with full pages that never advance, or that has no newest candle, is not modelled.
- Ccxt.CollectOhlcv: the same requirement as `FetchAllOhlcv`.
- The `--coin_id` choices and the other argument parsing of `main` are not modelled. The model takes the parsed values as parameters.
- The JSON cache holds parsed documents. Invalid JSON on disk, `json.dump` encoding, directory creation and the atomicity of `os.replace` are not modelled.
- Yahoo (`src/data/yahoo.py`) is not part of this model; in `PullPrices` its outcome is a parameter.
- `get_market_chart_daily` falls back to Binance BTCUSDT for any coin, not only bitcoin. It is modelled as written.

## Findings

| source | as written | input that shows it | evidently intended | confidence | as-written member | corrected member |
|---|---|---|---|---|---|---|
| src/data/coingecko.py:40-44 | the downgrade to days "365" is guarded by `isinstance(payload, dict)`, but for a 401 `get_with_backoff` returns `r.text`, a string (src/utils/http.py:14), so the guard is always false and the retry never happens | days "max" and every reply a 401 with body `{"error": {"status": {"error_code": 10012}}}`: the call raises "CoinGecko error 401" instead of retrying with "365" (`FreePlanShowsDeadDowngrade`) | decode the 401 body and retry with days "365" when its error_code is 10012 | not executed | CoinGeckoDaily.DowngradeAsWritten | CoinGeckoDaily.Downgrade |
