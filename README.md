# sim-trader: a verified model of the simulation and execution core

This project models the core of sim-trader, an intraday trading simulator, in Dafny. A price stream feeds moving-average strategies. Their BUY/SELL signals become market orders. A market-impact order book prices each order, and a position/PnL ledger books it. Every tick ends with a mark-to-market snapshot. Prices, cash and PnL are exact `real`s and sizes are `int`s, so Python's floating point is replaced by exact arithmetic.

- `orderbook.dfy` (module `Orderbook`): `SimpleOrderBook`, a configuration value `OrderBook(depth, spread)` with the pure pricing function `ExecuteMarketOrder`.
- `engine.dfy` (module `Engine`): `SimpleMAStrategy`, a class `MAStrategy` with its price list as a `seq<real>` field, plus pure `Sum`, `Mean` and `MASignal`.
- `portfolio.dfy` (module `Ledger`): `Portfolio`. The pure functions `ApplyBuy`, `ApplySell` and `ApplyTrade` say what one trade does to the account `(cash, positions, realized PnL)`. The class `Portfolio` updates its fields in place and is proved to match those functions. `mark_to_market` is a loop proved against `UnrealizedPnl` and `TotalExposure`.
- `sim_backend.dfy` (module `SimBackend`): `SimulationBackend`. `Step` is one pass of the `_run_loop` body and `Run` is the whole loop. A tick with at least one symbol is `Tick`, whose three phases are the helpers `CollectMarketPrices`, `TradeOnSignals` and `RecordSnapshot`. `Configure`, `Reset` and `GetState` are the control operations.
- `common.dfy` (module `Common`): `Option` and `Result`.

Python dictionaries (positions, price series per symbol, strategies per symbol) are association lists `seq<(Symbol, X)>` with distinct keys. They keep the insertion order the source relies on. The tick's timestamp comes from the first symbol, and price collection stops at the first exhausted symbol in dictionary order. Updating a held symbol keeps its place, a new symbol is appended, and a deleted symbol is removed. The dictionary of quotes passed to `mark_to_market` is only looked up, so it is a `map`.

Where the behaviour one might expect and the code differ, the model follows the code:
- The `break` at src/sim_backend.py:66 leaves only the price-collection loop. The tick that finds an exhausted series still trades on the prices collected before it and still records a snapshot. Its timestamp is absent when the first symbol is the exhausted one. The run stops only at the next check of the stop flag. A run from tick 0 therefore records `min(len) + 1` snapshots, not `min(len)`.
- A trade of size 0 is not a no-op. It goes to `_sell` and fails on a symbol that is not held. On a held symbol it succeeds and changes nothing (`ZeroTrade`).
- Positions are never short. A sell larger than the held size, or of an unheld symbol, fails with `NotEnoughPosition`.
- The code has no slippage, commission, position limit, `PositionLimitExceeded` or configuration-conflict error. Snapshots carry no copy of the positions. None of these is modelled.
- `mark_to_market` returns a dictionary that the backend then tags with `'tick'`. That dictionary is the same object as the one in the portfolio's history, so both histories hold the tagged snapshot (`RecordSnapshot`).

## Model

| member | source | states |
|---|---|---|
| Orderbook.Impact | src/orderbook.py:18 | the relative price impact is 0 for a zero size and never negative when depth and spread are non-negative |
| Orderbook.ExecuteMarketOrder | src/orderbook.py:13-23 | the fill size always equals the requested size; a zero-size order fills at exactly mid; with non-negative mid, depth and spread a buy pays at least mid and anything else receives at most mid |
| Orderbook.BuySellSymmetric | src/orderbook.py:18-22 | a buy and a sell of equal magnitude are priced symmetrically: their prices average to mid |
| Orderbook.LargerBuyPaysMore | src/orderbook.py:18-20 | a larger buy never gets a better price than a smaller one (non-negative depth, spread and mid) |
| Engine.MAStrategy.constructor | src/engine.py:5-9 | the windows and order size are the given ones and the price list is empty |
| Engine.MAStrategy.OnPrice | src/engine.py:11-22 | appends exactly the given price and returns the moving-average signal of the extended history |
| Engine.MASignal | src/engine.py:13-22 | a BUY or SELL is only ever given once the history covers both windows |
| Engine.NoSignalEarly | src/engine.py:13-14 | fewer than `long_window` prices give no signal |
| Engine.BuyIffShortSumAbove | src/engine.py:15-19 | BUY exactly when the history covers both windows and `long_window * Σshort > short_window * Σlong`, i.e. the short mean is strictly above the long mean |
| Engine.SellIffShortSumBelow | src/engine.py:15-21 | SELL exactly when the history covers both windows and the short mean is strictly below the long mean |
| Engine.NoSignalIff | src/engine.py:13-22 | no signal exactly when the history is shorter than either window (NaN rolling mean) or the two means are equal |
| Engine.FlatPricesNoSignal | src/engine.py:15-22 | a constant price history never produces a signal |
| Engine.EqualWindowsNoSignal | src/engine.py:16-22 | equal windows never produce a signal |
| Engine.OnlyTrailingPricesMatter | src/engine.py:15-17 | with `short_window <= long_window`, prices older than the trailing `long_window` do not change the signal |
| Engine.BuyIffShortAboveOlder | src/engine.py:16-19 | with `short_window < long_window`, BUY exactly when the short mean is above the mean of the older part of the long window |
| Engine.RisingExampleBuys | src/engine.py:15-19 | prices 100, 101, 102 with windows 2 and 3 give BUY |
| Engine.FallingExampleSells | src/engine.py:15-21 | prices 102, 101, 100 with windows 2 and 3 give SELL |
| Ledger.NewAccount | src/portfolio.py:5-9 | a new account holds no position, has well-formed positions and its balance `cash + Σ size*avg_price - realized_pnl` is the initial cash |
| Ledger.Find | src/portfolio.py:20 | the looked-up entry of a well-formed ledger has a positive size |
| Ledger.Put | src/portfolio.py:24-27 | after storing an entry, the symbol maps to it, every other symbol keeps its entry, keys stay distinct and sizes stay positive |
| Ledger.Delete | src/portfolio.py:36-37 | after deleting, the symbol is absent, every other symbol keeps its entry, keys stay distinct and sizes stay positive |
| Ledger.WeightedAverage | src/portfolio.py:23 | the new average times the new size equals the old cost plus the bought lot's cost |
| Ledger.AddLot | src/portfolio.py:20-27 | buying into an unheld symbol creates `{size, price}`; into a held one adds the sizes and re-averages so that the entry's cost grows by exactly `size * price` |
| Ledger.ApplyBuy | src/portfolio.py:19-28 | cash drops by exactly `size * price`, realized PnL is unchanged, the symbol's entry is the added lot, other symbols are untouched, and the positions stay well-formed |
| Ledger.RemoveLot | src/portfolio.py:34-37 | selling part of a holding lowers its size and keeps its average price; selling all of it deletes the entry; other symbols are untouched; cost basis drops by `size * avg_price` |
| Ledger.RealizedGain | src/portfolio.py:34 | the realized gain plus the sold lot's cost equals the proceeds |
| Ledger.ApplySell | src/portfolio.py:30-39 | fails exactly when the symbol is not held or fewer units are held; otherwise cash grows by `size * price`, realized PnL by `(price - avg) * size`, and the positions are those after removing the lot |
| Ledger.ApplyTrade | src/portfolio.py:11-17 | a success leaves well-formed positions (no zero or short size); only non-positive sizes, which take the sell path, can fail |
| Ledger.BuyConservesBalance | src/portfolio.py:19-28 | a buy leaves `cash + Σ size*avg_price - realized_pnl` unchanged |
| Ledger.SellConservesBalance | src/portfolio.py:30-39 | a successful sell leaves `cash + Σ size*avg_price - realized_pnl` unchanged |
| Ledger.TradeConservesBalance | src/portfolio.py:11-39 | every successful trade leaves `cash + Σ size*avg_price - realized_pnl` unchanged |
| Ledger.ZeroTrade | src/portfolio.py:14-17 | a zero-size trade fails on an unheld symbol and otherwise leaves the account exactly as it was |
| Ledger.BuyThenSellAll | src/portfolio.py:13-39 | buying `q` of an unheld symbol at `p1` and selling all of it at `p2` restores the positions and adds `(p2 - p1) * q` to both cash and realized PnL |
| Ledger.TwoBuysAverage | src/portfolio.py:19-28 | two buys hold the summed size at the size-weighted average price, and cash pays for both |
| Ledger.Replay | src/portfolio.py:11-39 | any sequence of trades, rejected ones skipped, keeps the positions well-formed |
| Ledger.ReplayConservesBalance | src/portfolio.py:11-39 | a sequence of trades, rejected ones skipped, keeps `cash + Σ size*avg_price - realized_pnl` |
| Ledger.ReplayConservesCash | src/portfolio.py:5-39 | from a new portfolio, `cash + Σ size*avg_price == initial_cash + realized_pnl` after any sequence of trades |
| Ledger.MarkAtCostNoPnl | src/portfolio.py:42-47 | unrealized PnL (`Ledger.UnrealizedPnl`) is zero when every quoted position is quoted at its average price |
| Ledger.ExposureNonNegative | src/portfolio.py:42-49 | total exposure (`Ledger.TotalExposure`) of long positions at non-negative quotes is non-negative |
| Ledger.ExposureMinusUnrealized | src/portfolio.py:44-49 | total exposure minus unrealized PnL is the cost basis of the quoted positions |
| Ledger.UnquotedSkipped | src/portfolio.py:45-46 | a held position without a quote, wherever it sits among the positions, adds nothing to unrealized PnL or to exposure: both sums equal those of the positions without it |
| Ledger.ExtraQuoteIgnored | src/portfolio.py:44-48 | a quote for a symbol that is not held changes neither sum |
| Ledger.SinglePositionMark | src/portfolio.py:41-49 | one position of size `s` at average `avg` quoted `m` gives unrealized `(m - avg) * s` and exposure `s * m` |
| Ledger.Portfolio.constructor | src/portfolio.py:5-9 | a new portfolio has the given cash, no positions, zero realized PnL and an empty history |
| Ledger.Portfolio.ExecuteTrade | src/portfolio.py:11-17 | the new state is the trade's result when it succeeds; on failure cash, positions and realized PnL are unchanged; the history is untouched |
| Ledger.Portfolio.Buy | src/portfolio.py:19-28 | the in-place buy reaches exactly the account `ApplyBuy` describes |
| Ledger.Portfolio.Sell | src/portfolio.py:30-39 | the in-place sell rejects over-selling before any change and otherwise reaches exactly the account `ApplySell` describes |
| Ledger.Portfolio.MarkToMarket | src/portfolio.py:41-53 | the snapshot carries cash, realized PnL, `Σ (m - avg)*size` and `Σ size*m` over quoted positions; cash, positions and realized PnL are unchanged; the history grows by exactly that snapshot |
| SimBackend.FirstExhausted | src/sim_backend.py:61-66 | the index where collection breaks: every earlier series has a row at the tick, and the series there (if any) has none |
| SimBackend.PricesUpTo | src/sim_backend.py:61-68 | the collected quotes are keyed by exactly the symbols visited, each holding its series' price at the tick |
| SimBackend.QuotesOfTick | src/sim_backend.py:59-68 | every quote of a tick (`SimBackend.MarketPricesAt`) belongs to a symbol whose series has a row at the tick; when no series is exhausted every symbol is quoted, at its own series' price |
| SimBackend.TickTimestamp | src/sim_backend.py:60-69 | the tick has a timestamp exactly when the first symbol's series has a row at it, and it is that row's timestamp |
| SimBackend.MinLen | src/sim_backend.py:61-66 | the length of the shortest series: no longer than any series and equal to one of them |
| SimBackend.ExhaustedIffPastShortest | src/sim_backend.py:61-66 | collection breaks at some symbol exactly when the tick has reached the shortest series' length |
| SimBackend.CollectMarketPrices | src/sim_backend.py:59-69 | reports exhaustion exactly when some series has no row at the tick; returns the quotes of the symbols before the first exhausted one and the first symbol's timestamp |
| SimBackend.OrderSize | src/sim_backend.py:77-82 | the order is zero exactly when there is no signal or the order size is zero; otherwise it is `+order_size` exactly for BUY and `-order_size` exactly for SELL |
| SimBackend.ApplyOrder | src/sim_backend.py:83-89 | a zero-size order touches nothing; a non-zero order whose trade the portfolio accepts yields exactly that trade's account at the order book's price; one it rejects is swallowed and leaves the account unchanged |
| SimBackend.TradeAll | src/sim_backend.py:72-89 | trading a whole tick keeps the positions well-formed |
| SimBackend.TradeAllConservesBalance | src/sim_backend.py:72-89 | trading a whole tick keeps `cash + Σ size*avg_price - realized_pnl` |
| SimBackend.NoQuotesNoTrades | src/sim_backend.py:72-75 | with no quotes, a tick's trading (`TradeAll`) leaves the account unchanged |
| SimBackend.SimulationBackend.constructor | src/sim_backend.py:9-19 | nothing is configured; tick 0, empty history, default order book, tick interval 0.01 |
| SimBackend.SimulationBackend.Configure | src/sim_backend.py:21-29 | installs the series, strategies, portfolio and interval; tick 0, empty history, stop cleared; the history is aligned with the tick |
| SimBackend.SimulationBackend.Reset | src/sim_backend.py:43-48 | tick 0, both histories empty, everything installed and the portfolio's accounts kept |
| SimBackend.SimulationBackend.GetState | src/sim_backend.py:98-104 | returns the current tick, a copy of the history (a value, so later ticks cannot alter it) and the shared portfolio reference, changing nothing |
| SimBackend.SimulationBackend.TradeOnSignals | src/sim_backend.py:71-89 | each strategy with a quote sees exactly that price and no other strategy sees any; BUY/SELL become `±order_size` orders priced by the order book and booked by the portfolio as `TradeAll` describes |
| SimBackend.SimulationBackend.RecordSnapshot | src/sim_backend.py:90-94 | appends the mark-to-market snapshot tagged with the tick to both histories and advances the tick by one |
| SimBackend.SimulationBackend.Step | src/sim_backend.py:52-57 | exits exactly when no symbol is configured, and then changes nothing: tick, history, stop flag, strategies' prices and every field of the portfolio stay as they were; otherwise it runs one `Tick` |
| SimBackend.SimulationBackend.Tick | src/sim_backend.py:58-94 | a stop is requested exactly when some series is exhausted at the tick; the portfolio reaches the account `TradeAll` gives for the collected prices; each quoted strategy has seen its price; one tagged snapshot is appended to both histories and the tick grows by 1; `|history| == idx` with `history[i].tick == i` is preserved |
| SimBackend.SimulationBackend.Run | src/sim_backend.py:50-96 | with at least one symbol the loop ends with a stop request; from a tick at most the shortest length it ends at tick `min(len) + 1`, having added one snapshot per tick; a stop already requested runs no tick |

## Left out

- Threads, the lock, the stop `Event`, `start`/`stop` with the join timeout and the sleep between ticks (src/sim_backend.py:10-12, 31-41, 53, 96; src/orderbook.py:11, 17): concurrency. A tick is one atomic step and the stop event is the boolean `stopRequested`.
- The module-level singleton wrappers and `persist` (src/sim_backend.py:107-133): thin wrappers. `persist_history` is not part of this model.
- src/generator.py, src/ui.py, src/plot_pnl.py and src/runner.py: random price generation, UI, plotting and a script that writes CSV files.
- Floating point: all arithmetic is exact. Rounding and the pandas rolling-window mechanics are not modelled.
- Timestamps are opaque integers. A series row whose timestamp is itself `None` is not modelled.
- Default argument values (`cash=100000.0`, windows 20/50, order size 10, depth 1000): callers pass every argument. The backend's own order book is `DefaultBook`.
- The `symbol` argument of `execute_market_order` is unused by the source and is dropped.
- Engine.MAStrategy.constructor: requires both windows to be at least 1. pandas raises on a negative window, and a non-positive `long_window` reaches `rolling` with every price.
- SimBackend.SimulationBackend.Configure: requires a non-null portfolio and distinct strategy objects. The source accepts `None` (the next tick then crashes) and one strategy object registered under two symbols (it then sees two prices per tick).
- Orderbook.ExecuteMarketOrder: requires `depth + 1e-9 != 0`. Otherwise the source divides by zero.
- The `except Exception` at src/sim_backend.py:87 swallows any error. The only error the modelled portfolio raises is the over-sell `ValueError`.
- The backend accepts any strategy object with `on_price` and `order_size` (src/sim_backend.py:21, 72-80). It is modelled with moving-average strategies (`MAStrategy`) only.
- Order sizes are integers. The source's `int(engine.order_size)` (src/sim_backend.py:78, 80) truncates any other number; here the strategy's `orderSize` is already an `int`, so the conversion is the identity.
