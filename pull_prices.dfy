/**
 * The `pull_prices` command: choose a provider (CoinGecko, Yahoo, ccxt),
 * either forced or by the automatic fallback chain, refuse an empty frame,
 * and name the parquet file after the provider that produced the frame.
 */
module PullPrices {
  import opened Outcomes
  import opened Frames
  import opened Cache

  datatype Provider = CoinGecko | Yahoo | Ccxt

  /** The `--provider` choice. */
  datatype Mode = Auto | Force(provider: Provider)

  /** The provider's name, which is also its output sub-directory. */
  function Name(p: Provider): (s: string)
    ensures s in {"coingecko", "yahoo", "ccxt"}
  {
    match p
    case CoinGecko => "coingecko"
    case Yahoo => "yahoo"
    case Ccxt => "ccxt"
  }

  type Frame = seq<CloseRow>

  /** `out_root / provider / f"{coin}_usd_daily.parquet"`. */
  function OutputPath(outRoot: seq<string>, p: Provider, coin: string): Path
  {
    Path(outRoot + [Name(p)], coin + "_usd_daily", ".parquet")
  }

  /** What the command writes: the frame, the provider that produced it, and where. */
  datatype Written = Written(provider: Provider, path: Path, frame: Frame)

  /** Why the command fails: a provider's exception, passed on unchanged, or an empty frame. */
  datatype PullError<E> = Raised(cause: E) | AllEmpty

  /** The command's result and the providers it called, in order. */
  datatype Pulled<E> = Pulled(result: Result<Written, PullError<E>>, calls: seq<Provider>)

  function OutcomeOf<E>(p: Provider, coingecko: Result<Frame, E>, yahoo: Result<Frame, E>, ccxt: Result<Frame, E>): Result<Frame, E>
  {
    match p
    case CoinGecko => coingecko
    case Yahoo => yahoo
    case Ccxt => ccxt
  }

  /** The end of the command once `provider` gave `frame`: an empty frame raises, any other is written. */
  function Finish<E>(p: Provider, frame: Frame, outRoot: seq<string>, coin: string, calls: seq<Provider>): Pulled<E>
  {
    if frame == [] then Pulled(Err(AllEmpty), calls)
    else Pulled(Ok(Written(p, OutputPath(outRoot, p, coin), frame)), calls)
  }

  /**
   * What the command does, as a decision table: a forced provider is the
   * only one called and its exception propagates; in auto mode the
   * providers are called in the order CoinGecko, Yahoo, ccxt until one
   * returns a frame, and the last one's exception propagates.
   */
  function Pull<E>(mode: Mode, coin: string, outRoot: seq<string>,
                   coingecko: Result<Frame, E>, yahoo: Result<Frame, E>, ccxt: Result<Frame, E>): Pulled<E>
  {
    match mode
    case Force(p) =>
      var o := OutcomeOf(p, coingecko, yahoo, ccxt);
      if o.Err? then Pulled(Err(Raised(o.error)), [p]) else Finish(p, o.value, outRoot, coin, [p])
    case Auto =>
      if coingecko.Ok? then Finish(CoinGecko, coingecko.value, outRoot, coin, [CoinGecko])
      else if yahoo.Ok? then Finish(Yahoo, yahoo.value, outRoot, coin, [CoinGecko, Yahoo])
      else if ccxt.Ok? then Finish(Ccxt, ccxt.value, outRoot, coin, [CoinGecko, Yahoo, Ccxt])
      else Pulled(Err(Raised(ccxt.error)), [CoinGecko, Yahoo, Ccxt])
  }

  /**
   * `main`, over the outcome each provider would have for this coin. The
   * `try` block and its `except` handler are kept as written: `df` and
   * `provider` are threaded through guarded calls, and `failure` stands for
   * the exception that moved control to the handler.
   */
  method PullPrices<E>(mode: Mode, coin: string, outRoot: seq<string>,
                       coingecko: Result<Frame, E>, yahoo: Result<Frame, E>, ccxt: Result<Frame, E>)
    returns (r: Result<Written, PullError<E>>, calls: seq<Provider>)
    ensures Pulled(r, calls) == Pull(mode, coin, outRoot, coingecko, yahoo, ccxt)
  {
    var df: Option<Frame> := None;
    var provider: Option<Provider> := None;
    var failure: Option<E> := None;
    calls := [];
    // the try block
    if mode == Auto || mode == Force(CoinGecko) {
      calls := calls + [CoinGecko];
      if coingecko.Err? {
        failure := Some(coingecko.error);
      } else {
        df, provider := Some(coingecko.value), Some(CoinGecko);
      }
    }
    if failure.None? && df.None? && (mode == Auto || mode == Force(Yahoo)) {
      calls := calls + [Yahoo];
      if yahoo.Err? {
        failure := Some(yahoo.error);
      } else {
        df, provider := Some(yahoo.value), Some(Yahoo);
      }
    }
    if failure.None? && df.None? && (mode == Auto || mode == Force(Ccxt)) {
      calls := calls + [Ccxt];
      if ccxt.Err? {
        failure := Some(ccxt.error);
      } else {
        df, provider := Some(ccxt.value), Some(Ccxt);
      }
    }
    // the except handler
    if failure.Some? {
      if mode != Auto {
        return Err(Raised(failure.value)), calls;
      }
      if provider.None? {
        calls := calls + [Yahoo];
        if yahoo.Ok? {
          df, provider := Some(yahoo.value), Some(Yahoo);
        } else {
          calls := calls + [Ccxt];
          if ccxt.Err? {
            return Err(Raised(ccxt.error)), calls;
          }
          df, provider := Some(ccxt.value), Some(Ccxt);
        }
      }
    }
    if df.None? || df.value == [] {
      return Err(AllEmpty), calls;
    }
    r := Ok(Written(provider.value, OutputPath(outRoot, provider.value, coin), df.value));
  }

  /**
   * In auto mode the providers are called in the order CoinGecko, Yahoo,
   * ccxt; each is called only after every earlier one raised, and a written
   * frame is that of the last provider called, tagged with its name.
   */
  lemma AutoTriesInOrder<E>(coin: string, outRoot: seq<string>,
                            coingecko: Result<Frame, E>, yahoo: Result<Frame, E>, ccxt: Result<Frame, E>)
    ensures var out := Pull(Auto, coin, outRoot, coingecko, yahoo, ccxt);
      && 1 <= |out.calls| <= 3
      && out.calls == [CoinGecko, Yahoo, Ccxt][..|out.calls|]
      && (forall j | 0 <= j < |out.calls| - 1 :: OutcomeOf(out.calls[j], coingecko, yahoo, ccxt).Err?)
      && (out.result.Ok? ==>
            && out.result.value.provider == out.calls[|out.calls| - 1]
            && OutcomeOf(out.result.value.provider, coingecko, yahoo, ccxt) == Ok(out.result.value.frame))
  {
  }

  /** In auto mode the command raises exactly when all three providers raise, and then with ccxt's exception. */
  lemma AutoRaisesOnlyWhenAllRaise<E>(coin: string, outRoot: seq<string>,
                                      coingecko: Result<Frame, E>, yahoo: Result<Frame, E>, ccxt: Result<Frame, E>)
    ensures var out := Pull(Auto, coin, outRoot, coingecko, yahoo, ccxt);
      (out.result.Err? && out.result.error.Raised?) <==> (coingecko.Err? && yahoo.Err? && ccxt.Err?)
    ensures var out := Pull(Auto, coin, outRoot, coingecko, yahoo, ccxt);
      out.result.Err? && out.result.error.Raised? ==> out.result.error.cause == ccxt.error
  {
  }

  /** A forced provider is the only one called, and its exception propagates unchanged. */
  lemma ForcedProviderOnly<E>(p: Provider, coin: string, outRoot: seq<string>,
                              coingecko: Result<Frame, E>, yahoo: Result<Frame, E>, ccxt: Result<Frame, E>)
    ensures var out := Pull(Force(p), coin, outRoot, coingecko, yahoo, ccxt);
      var o := OutcomeOf(p, coingecko, yahoo, ccxt);
      && out.calls == [p]
      && (o.Err? <==> out.result.Err? && out.result.error.Raised?)
      && (o.Err? ==> out.result == Err(Raised(o.error)))
      && (out.result.Ok? ==> out.result.value.provider == p && out.result.value.frame == o.value)
  {
  }

  /**
   * An empty frame from CoinGecko is not a failure: no other provider is
   * called and the command raises "All providers returned empty data frame."
   */
  lemma EmptyCoinGeckoFrameEndsTheChain<E>(mode: Mode, coin: string, outRoot: seq<string>,
                                           yahoo: Result<Frame, E>, ccxt: Result<Frame, E>)
    requires mode == Auto || mode == Force(CoinGecko)
    ensures Pull(mode, coin, outRoot, Ok([]), yahoo, ccxt) == Pulled(Err(AllEmpty), [CoinGecko])
  {
  }

  /**
   * Whatever the mode, a written frame is not empty and lies at
   * `out_root/<provider>/<coin>_usd_daily.parquet`, and an empty frame
   * from the chosen provider is never written.
   */
  lemma WrittenFrameIsNonEmptyAndNamed<E>(mode: Mode, coin: string, outRoot: seq<string>,
                                          coingecko: Result<Frame, E>, yahoo: Result<Frame, E>, ccxt: Result<Frame, E>)
    ensures var out := Pull(mode, coin, outRoot, coingecko, yahoo, ccxt);
      out.result.Ok? ==>
        && out.result.value.frame != []
        && out.result.value.path == Path(outRoot + [Name(out.result.value.provider)], coin + "_usd_daily", ".parquet")
        && out.calls[|out.calls| - 1] == out.result.value.provider
    ensures var out := Pull(mode, coin, outRoot, coingecko, yahoo, ccxt);
      out.calls != [] && OutcomeOf(out.calls[|out.calls| - 1], coingecko, yahoo, ccxt) == Ok([]) ==> out.result == Err(AllEmpty)
  {
  }
}
