/**
 * The simulation driver `SimulationBackend` (src/sim_backend.py). One call of
 * Step is one pass through the body of `_run_loop`: collect the price of every
 * symbol at the current tick, feed each strategy its symbol's price, route the
 * resulting orders through the order book and into the portfolio, take a
 * mark-to-market snapshot tagged with the tick, and advance the tick. Run is the
 * whole loop. Threads, the lock and the sleep between ticks are not modelled:
 * each tick is one atomic sequential step and the stop event is a boolean field.
 */
module SimBackend {
  import opened Common
  import opened Ledger
  import opened Engine
  import opened Orderbook

  /** A price series: `(timestamp, price)` rows in tick order. */
  type Series = seq<(Timestamp, real)>

  /** No key occurs twice in a dictionary modelled as an association list. */
  predicate KeysDistinct<X>(d: seq<(Symbol, X)>)
  {
    forall i, j :: 0 <= i < j < |d| ==> d[i].0 != d[j].0
  }

  /** Each registered strategy is its own object. */
  predicate EnginesDistinct(engines: seq<(Symbol, MAStrategy)>)
  {
    forall i, j :: 0 <= i < j < |engines| ==> engines[i].1 != engines[j].1
  }

  predicate EnginesValid(engines: seq<(Symbol, MAStrategy)>)
  {
    forall j :: 0 <= j < |engines| ==> engines[j].1.Valid()
  }

  // ---------------------------------------------------------------------------
  // Collecting the prices of one tick

  /**
   * The position of the first symbol, at or after `from`, whose series has no
   * row at `idx` (`|ps|` when there is none): where price collection breaks.
   */
  function FirstExhausted(ps: seq<(Symbol, Series)>, idx: nat, from: nat): (n: nat)
    requires from <= |ps|
    ensures from <= n <= |ps|
    ensures forall j :: from <= j < n ==> idx < |ps[j].1|
    ensures n < |ps| ==> idx >= |ps[n].1|
    decreases |ps| - from
  {
    if from == |ps| then |ps|
    else if idx >= |ps[from].1| then from
    else FirstExhausted(ps, idx, from + 1)
  }

  /** The quotes of the first `n` symbols at tick `idx`. */
  function PricesUpTo(ps: seq<(Symbol, Series)>, idx: nat, n: nat): (m: map<Symbol, real>)
    requires n <= |ps| && forall j :: 0 <= j < n ==> idx < |ps[j].1|
    ensures forall s :: s in m <==> exists j :: 0 <= j < n && ps[j].0 == s
    ensures KeysDistinct(ps) ==> forall j :: 0 <= j < n ==> m[ps[j].0] == ps[j].1[idx].1
  {
    if n == 0 then map[]
    else PricesUpTo(ps, idx, n - 1)[ps[n - 1].0 := ps[n - 1].1[idx].1]
  }

  /** The market prices of tick `idx`: every symbol before the first exhausted one. */
  function MarketPricesAt(ps: seq<(Symbol, Series)>, idx: nat): map<Symbol, real>
  {
    PricesUpTo(ps, idx, FirstExhausted(ps, idx, 0))
  }

  /**
   * The quotes of a tick come from series that still have a row at it; when no
   * series is exhausted, every symbol is quoted at its own series' price.
   */
  lemma QuotesOfTick(ps: seq<(Symbol, Series)>, idx: nat)
    ensures forall s :: s in MarketPricesAt(ps, idx) ==>
              exists j :: 0 <= j < |ps| && ps[j].0 == s && idx < |ps[j].1|
    ensures (forall j :: 0 <= j < |ps| ==> idx < |ps[j].1|) ==>
              forall j :: 0 <= j < |ps| ==> ps[j].0 in MarketPricesAt(ps, idx)
    ensures KeysDistinct(ps) && (forall j :: 0 <= j < |ps| ==> idx < |ps[j].1|) ==>
              forall j :: 0 <= j < |ps| ==> MarketPricesAt(ps, idx)[ps[j].0] == ps[j].1[idx].1
  {
    var n := FirstExhausted(ps, idx, 0);
    var m := MarketPricesAt(ps, idx);
    forall s | s in m
      ensures exists j :: 0 <= j < |ps| && ps[j].0 == s && idx < |ps[j].1|
    {
      var j :| 0 <= j < n && ps[j].0 == s;
      assert idx < |ps[j].1|;
    }
  }

  /** The tick's timestamp: the first symbol's, or none when it is already exhausted. */
  function TickTimestamp(ps: seq<(Symbol, Series)>, idx: nat): (ts: Option<Timestamp>)
    ensures ts.Some? <==> |ps| > 0 && idx < |ps[0].1|
    ensures ts.Some? ==> ts.value == ps[0].1[idx].0
  {
    if FirstExhausted(ps, idx, 0) == 0 then None else Some(ps[0].1[idx].0)
  }

  /** The length of the shortest series. */
  function MinLen(ps: seq<(Symbol, Series)>): (m: nat)
    requires |ps| > 0
    ensures forall j :: 0 <= j < |ps| ==> m <= |ps[j].1|
    ensures exists j :: 0 <= j < |ps| && m == |ps[j].1|
  {
    if |ps| == 1 then |ps[0].1|
    else
      var rest := MinLen(ps[1..]);
      if |ps[0].1| <= rest then |ps[0].1| else rest
  }

  /** Collection breaks before the end exactly when the tick is past the shortest series. */
  lemma ExhaustedIffPastShortest(ps: seq<(Symbol, Series)>, idx: nat)
    requires |ps| > 0
    ensures FirstExhausted(ps, idx, 0) < |ps| <==> idx >= MinLen(ps)
  {
    var n := FirstExhausted(ps, idx, 0);
    if idx >= MinLen(ps) {
      var j :| 0 <= j < |ps| && MinLen(ps) == |ps[j].1|;
      assert !(idx < |ps[j].1|);
    }
  }

  /**
   * The price-collection loop of `_run_loop`: walks the symbols in order, records
   * each one's price at `idx`, and breaks at the first exhausted series.
   */
  method CollectMarketPrices(prices: seq<(Symbol, Series)>, idx: nat)
    returns (marketPrices: map<Symbol, real>, timestamp: Option<Timestamp>, exhausted: bool)
    ensures exhausted <==> exists j :: 0 <= j < |prices| && idx >= |prices[j].1|
    ensures marketPrices == MarketPricesAt(prices, idx)
    ensures timestamp == TickTimestamp(prices, idx)
  {
    marketPrices := map[];
    timestamp := None;
    exhausted := false;
    var k := 0;
    while k < |prices|
      invariant 0 <= k <= |prices|
      invariant forall j :: 0 <= j < k ==> idx < |prices[j].1|
      invariant FirstExhausted(prices, idx, k) == FirstExhausted(prices, idx, 0)
      invariant marketPrices == PricesUpTo(prices, idx, k)
      invariant timestamp == if k == 0 then None else Some(prices[0].1[idx].0)
      invariant !exhausted
    {
      var (s, series) := prices[k];
      if idx >= |series| {
        exhausted := true;
        break;
      }
      var (ts, price) := series[idx];
      marketPrices := marketPrices[s := price];
      timestamp := if timestamp.None? then Some(ts) else timestamp;
      k := k + 1;
    }
  }

  // ---------------------------------------------------------------------------
  // Trading on the signals of one tick

  /** The order a signal asks for: BUY is `+order_size`, SELL `-order_size`, none is 0. */
  function OrderSize(signal: Signal, orderSize: int): (size: int)
    ensures size == 0 <==> signal == NoSignal || orderSize == 0
    ensures signal != NoSignal ==> (size == orderSize <==> signal == Buy || orderSize == 0)
    ensures signal != NoSignal ==> (size == -orderSize <==> signal == Sell || orderSize == 0)
  {
    match signal
    case Buy => orderSize
    case Sell => -orderSize
    case NoSignal => 0
  }

  /**
   * One order of the tick: a zero size touches nothing; otherwise the order book
   * prices it and the portfolio applies it, and a rejected trade is swallowed.
   */
  function ApplyOrder(acct: Account, s: Symbol, size: int, price: real, book: OrderBook): (r: Account)
    requires WellFormed(acct.positions) && book.depth + Eps != 0.0
    ensures WellFormed(r.positions)
    ensures size == 0 ==> r == acct
    ensures size != 0 && ApplyTrade(acct, s, size, ExecuteMarketOrder(book, size, price).price).Ok? ==>
              r == ApplyTrade(acct, s, size, ExecuteMarketOrder(book, size, price).price).value
    ensures size != 0 && ApplyTrade(acct, s, size, ExecuteMarketOrder(book, size, price).price).Err? ==> r == acct
  {
    if size == 0 then acct
    else
      var fill := ExecuteMarketOrder(book, size, price);
      match ApplyTrade(acct, s, fill.size, fill.price)
      case Ok(next) => next
      case Err(_) => acct
  }

  /**
   * The account after the strategies `es` (in order) have seen this tick's
   * prices `mp` and their orders have been applied; strategies whose symbol has
   * no price are skipped.
   */
  function TradeAll(acct: Account, es: seq<(Symbol, MAStrategy)>, mp: map<Symbol, real>, book: OrderBook): (r: Account)
    requires WellFormed(acct.positions) && EnginesValid(es) && book.depth + Eps != 0.0
    reads set j | 0 <= j < |es| :: es[j].1
    ensures WellFormed(r.positions)
    decreases |es|
  {
    if es == [] then acct
    else
      var prev := TradeAll(acct, es[..|es| - 1], mp, book);
      var (s, engine) := es[|es| - 1];
      if s in mp then
        var signal := MASignal(engine.prices + [mp[s]], engine.shortWindow, engine.longWindow);
        ApplyOrder(prev, s, OrderSize(signal, engine.orderSize), mp[s], book)
      else prev
  }

  /** A whole tick of trading keeps `cash + Σ size*avg_price - realized_pnl` unchanged. */
  lemma {:induction false} TradeAllConservesBalance(acct: Account, es: seq<(Symbol, MAStrategy)>, mp: map<Symbol, real>, book: OrderBook)
    requires WellFormed(acct.positions) && EnginesValid(es) && book.depth + Eps != 0.0
    ensures Balance(TradeAll(acct, es, mp, book)) == Balance(acct)
    decreases |es|
  {
    if es != [] {
      var prev := TradeAll(acct, es[..|es| - 1], mp, book);
      TradeAllConservesBalance(acct, es[..|es| - 1], mp, book);
      var (s, engine) := es[|es| - 1];
      if s in mp {
        var signal := MASignal(engine.prices + [mp[s]], engine.shortWindow, engine.longWindow);
        var size := OrderSize(signal, engine.orderSize);
        var r := ApplyOrder(prev, s, size, mp[s], book);
        if r != prev {
          TradeConservesBalance(prev, s, size, ExecuteMarketOrder(book, size, mp[s]).price);
        }
      }
    }
  }

  /** Without any quote, no strategy is consulted and the account is untouched. */
  lemma {:induction false} NoQuotesNoTrades(acct: Account, es: seq<(Symbol, MAStrategy)>, book: OrderBook)
    requires WellFormed(acct.positions) && EnginesValid(es) && book.depth + Eps != 0.0
    ensures TradeAll(acct, es, map[], book) == acct
    decreases |es|
  {
    if es != [] {
      NoQuotesNoTrades(acct, es[..|es| - 1], book);
    }
  }

  /** What `get_state` returns. */
  datatype BackendState = BackendState(idx: nat, history: seq<Snapshot>, portfolio: Portfolio?)

  // ---------------------------------------------------------------------------
  // The backend object

  class SimulationBackend {
    var prices: seq<(Symbol, Series)>
    var engines: seq<(Symbol, MAStrategy)>
    var portfolio: Portfolio?
    const orderbook: OrderBook := DefaultBook
    var idx: nat
    var tickInterval: real
    var history: seq<Snapshot>
    var stopRequested: bool

    /** The strategy objects a tick may update. */
    function EngineObjects(): set<MAStrategy>
      reads this
    {
      set j | 0 <= j < |engines| :: engines[j].1
    }

    ghost predicate Valid()
      reads this, portfolio
    {
      && KeysDistinct(prices) && KeysDistinct(engines)
      && EnginesDistinct(engines) && EnginesValid(engines)
      && (|prices| > 0 ==> portfolio != null)
      && (portfolio != null ==> portfolio.Valid())
      && orderbook == DefaultBook
    }

    /** The history holds one snapshot per tick, in tick order. */
    ghost predicate Aligned()
      reads this
    {
      |history| == idx && forall i :: 0 <= i < |history| ==> history[i].tick == Some(i)
    }

    /** `SimulationBackend()`: nothing configured. */
    constructor ()
      ensures Valid() && Aligned()
      ensures prices == [] && engines == [] && portfolio == null && orderbook == DefaultBook
      ensures idx == 0 && tickInterval == 0.01 && history == [] && !stopRequested
    {
      prices := [];
      engines := [];
      portfolio := null;
      idx := 0;
      tickInterval := 0.01;
      history := [];
      stopRequested := false;
    }

    /** `configure`: install the run's inputs, rewind to tick 0 and clear the stop request. */
    method Configure(prices: seq<(Symbol, Series)>, engines: seq<(Symbol, MAStrategy)>,
                     portfolio: Portfolio, tickInterval: real)
      requires KeysDistinct(prices) && KeysDistinct(engines)
      requires EnginesDistinct(engines) && EnginesValid(engines) && portfolio.Valid()
      modifies this
      ensures Valid() && Aligned()
      ensures this.prices == prices && this.engines == engines && this.portfolio == portfolio
      ensures this.tickInterval == tickInterval
      ensures idx == 0 && history == [] && !stopRequested
    {
      this.prices := prices;
      this.engines := engines;
      this.portfolio := portfolio;
      this.tickInterval := tickInterval;
      idx := 0;
      history := [];
      stopRequested := false;
    }

    /** `reset`: rewind to tick 0 and empty both histories, keeping everything installed. */
    method Reset()
      requires Valid()
      modifies this, portfolio
      ensures Valid() && Aligned()
      ensures idx == 0 && history == []
      ensures prices == old(prices) && engines == old(engines) && portfolio == old(portfolio)
      ensures tickInterval == old(tickInterval) && stopRequested == old(stopRequested)
      ensures portfolio != null ==> portfolio.history == [] && portfolio.State() == old(portfolio.State())
    {
      idx := 0;
      history := [];
      if portfolio != null {
        portfolio.history := [];
      }
    }

    /** `get_state`: the tick index, a copy of the history and the portfolio. */
    method GetState() returns (state: BackendState)
      ensures state.idx == idx && state.history == history && state.portfolio == portfolio
    {
      state := BackendState(idx, history, portfolio);
    }

    /**
     * The strategy loop of one tick: every strategy whose symbol has a price sees
     * it, and its BUY or SELL goes through the order book into the portfolio.
     */
    method TradeOnSignals(marketPrices: map<Symbol, real>)
      requires Valid() && portfolio != null
      modifies portfolio, EngineObjects()
      ensures portfolio.Valid()
      ensures portfolio.State() == old(TradeAll(portfolio.State(), engines, marketPrices, orderbook))
      ensures portfolio.history == old(portfolio.history)
      ensures forall j :: 0 <= j < |engines| ==>
                engines[j].1.prices == old(engines[j].1.prices) +
                  (if engines[j].0 in marketPrices then [marketPrices[engines[j].0]] else [])
    {
      var k := 0;
      while k < |engines|
        invariant 0 <= k <= |engines|
        invariant portfolio.Valid()
        invariant portfolio.State() == old(TradeAll(portfolio.State(), engines[..k], marketPrices, orderbook))
        invariant portfolio.history == old(portfolio.history)
        invariant forall j :: 0 <= j < k ==>
                    engines[j].1.prices == old(engines[j].1.prices) +
                      (if engines[j].0 in marketPrices then [marketPrices[engines[j].0]] else [])
        invariant forall j :: k <= j < |engines| ==> engines[j].1.prices == old(engines[j].1.prices)
      {
        var (s, engine) := engines[k];
        assert engines[..k + 1][..k] == engines[..k];
        if s in marketPrices {
          var price := marketPrices[s];
          var action := engine.OnPrice(price);
          var size := 0;
          if action == Buy {
            size := engine.orderSize;
          } else if action == Sell {
            size := -engine.orderSize;
          }
          if size != 0 {
            var fill := ExecuteMarketOrder(orderbook, size, price);
            // A rejected trade raises in the source and is swallowed here.
            var _ := portfolio.ExecuteTrade(s, fill.size, fill.price);
          }
        }
        k := k + 1;
      }
      assert engines[..k] == engines;
    }

    /**
     * One pass of the `_run_loop` body. With no symbol configured it reports the
     * exit and changes nothing. Otherwise it collects the prices (requesting a stop
     * when some series is exhausted, yet finishing the tick on the prices already
     * collected), trades, appends the tagged snapshot and advances the tick.
     */
    method Step() returns (exited: bool)
      requires Valid()
      modifies this, portfolio, EngineObjects()
      ensures Valid()
      ensures prices == old(prices) && engines == old(engines) && portfolio == old(portfolio)
      ensures tickInterval == old(tickInterval)
      ensures exited <==> prices == []
      ensures exited ==> idx == old(idx) && history == old(history) && stopRequested == old(stopRequested)
      ensures exited ==> forall j :: 0 <= j < |engines| ==> engines[j].1.prices == old(engines[j].1.prices)
      ensures exited && portfolio != null ==> unchanged(portfolio)
      ensures !exited ==>
                var mp := MarketPricesAt(prices, old(idx));
                && idx == old(idx) + 1
                && stopRequested == (old(stopRequested) || exists j :: 0 <= j < |prices| && old(idx) >= |prices[j].1|)
                && portfolio.State() == old(TradeAll(portfolio.State(), engines, mp, orderbook))
                && history == old(history) +
                     [Snapshot(TickTimestamp(prices, old(idx)), portfolio.cash, portfolio.realizedPnl,
                               UnrealizedPnl(portfolio.positions, mp), TotalExposure(portfolio.positions, mp),
                               Some(old(idx)))]
                && portfolio.history == old(portfolio.history) + [history[|history| - 1]]
                && forall j :: 0 <= j < |engines| ==>
                     engines[j].1.prices == old(engines[j].1.prices) +
                       (if engines[j].0 in mp then [mp[engines[j].0]] else [])
      ensures old(Aligned()) ==> Aligned()
    {
      if |prices| == 0 {
        return true;
      }
      exited := false;
      Tick();
    }

    /**
     * The body of one tick with at least one symbol: collect the prices
     * (requesting a stop when some series is exhausted, yet finishing the tick on
     * the prices already collected), trade, append the tagged snapshot and
     * advance the tick.
     */
    method Tick()
      requires Valid() && prices != []
      modifies this, portfolio, EngineObjects()
      ensures Valid()
      ensures prices == old(prices) && engines == old(engines) && portfolio == old(portfolio)
      ensures tickInterval == old(tickInterval)
      ensures var mp := MarketPricesAt(prices, old(idx));
                && idx == old(idx) + 1
                && stopRequested == (old(stopRequested) || exists j :: 0 <= j < |prices| && old(idx) >= |prices[j].1|)
                && portfolio.State() == old(TradeAll(portfolio.State(), engines, mp, orderbook))
                && history == old(history) +
                     [Snapshot(TickTimestamp(prices, old(idx)), portfolio.cash, portfolio.realizedPnl,
                               UnrealizedPnl(portfolio.positions, mp), TotalExposure(portfolio.positions, mp),
                               Some(old(idx)))]
                && portfolio.history == old(portfolio.history) + [history[|history| - 1]]
                && forall j :: 0 <= j < |engines| ==>
                     engines[j].1.prices == old(engines[j].1.prices) +
                       (if engines[j].0 in mp then [mp[engines[j].0]] else [])
      ensures old(Aligned()) ==> Aligned()
    {
      var marketPrices, timestamp, exhausted := CollectMarketPrices(prices, idx);
      if exhausted {
        stopRequested := true;
      }
      TradeOnSignals(marketPrices);
      RecordSnapshot(marketPrices, timestamp);
    }

    /**
     * The end of a tick: the portfolio's mark-to-market snapshot, tagged with the
     * tick, is appended to the history, and the tick advances.
     */
    method RecordSnapshot(marketPrices: map<Symbol, real>, timestamp: Option<Timestamp>)
      requires Valid() && portfolio != null
      modifies this, portfolio
      ensures Valid()
      ensures prices == old(prices) && engines == old(engines) && portfolio == old(portfolio)
      ensures tickInterval == old(tickInterval) && stopRequested == old(stopRequested)
      ensures portfolio.State() == old(portfolio.State())
      ensures idx == old(idx) + 1
      ensures history == old(history) +
                [Snapshot(timestamp, portfolio.cash, portfolio.realizedPnl,
                          UnrealizedPnl(portfolio.positions, marketPrices),
                          TotalExposure(portfolio.positions, marketPrices), Some(old(idx)))]
      ensures portfolio.history == old(portfolio.history) + [history[|history| - 1]]
      ensures old(Aligned()) ==> Aligned()
    {
      var snapshot := portfolio.MarkToMarket(marketPrices, timestamp);
      // The snapshot is one dictionary shared by both histories; tagging it with
      // the tick is seen through the portfolio's history as well.
      var tagged := snapshot.(tick := Some(idx));
      portfolio.history := portfolio.history[..|portfolio.history| - 1] + [tagged];
      history := history + [tagged];
      idx := idx + 1;
    }

    /**
     * `_run_loop` without its threading: tick until a stop is requested or no
     * symbol is configured. From a tick at most the shortest series' length, the
     * run ends one tick past it: the exhausted tick still records a snapshot.
     */
    method Run()
      requires Valid()
      modifies this, portfolio, EngineObjects()
      ensures Valid()
      ensures prices == old(prices) && engines == old(engines) && portfolio == old(portfolio)
      ensures old(Aligned()) ==> Aligned()
      ensures old(stopRequested) ==> idx == old(idx) && history == old(history)
      ensures prices != [] ==> stopRequested
      ensures prices != [] && !old(stopRequested) && old(idx) <= MinLen(prices) ==>
                idx == MinLen(prices) + 1 && |history| == |old(history)| + MinLen(prices) + 1 - old(idx)
    {
      ghost var startIdx, startLen := idx, |history|;
      while !stopRequested
        invariant Valid()
        invariant prices == old(prices) && engines == old(engines) && portfolio == old(portfolio)
        invariant old(Aligned()) ==> Aligned()
        invariant |history| - startLen == idx - startIdx
        invariant idx >= startIdx
        invariant old(stopRequested) ==> idx == startIdx && history == old(history)
        invariant prices != [] && !old(stopRequested) && startIdx <= MinLen(prices) ==>
                    idx <= MinLen(prices) + 1 && (stopRequested <==> idx == MinLen(prices) + 1)
        decreases if stopRequested || prices == [] then 0
                  else if idx <= MinLen(prices) then MinLen(prices) - idx + 2 else 1
      {
        ghost var before := idx;
        var exited := Step();
        if exited {
          break;
        }
        ExhaustedIffPastShortest(prices, before);
        assert stopRequested <==> old(stopRequested) || before >= MinLen(prices) by {
          if before >= MinLen(prices) {
            assert FirstExhausted(prices, before, 0) < |prices|;
          }
        }
      }
    }
  }
}
