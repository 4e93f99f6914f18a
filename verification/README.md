# StockMarketApp state layer in Dafny

StockMarketApp is a React Native stock-tracking app. This project models its in-memory
state layer and proves properties about it. The layer has three parts:

- The mock **portfolio service**. It keeps a table of portfolios and changes it in place
  when positions are added, repriced or removed. After each change it recomputes the
  portfolio totals.
- The Redux **slices**: portfolio, stocks, watchlist, alerts, user and news. Each reducer
  is a method on a class that holds the slice state. Its contract states the whole new
  state, including which fields stay as they were.
- The mock **stock service**. It covers lookup in a fixed three-stock table, an ordered
  lookup of several symbols, a case-insensitive search, and synthetic chart points.

Ids, timestamps, dates and random draws come from `Date.now()`, `new Date()` and
`Math.random()` in the source. Here they are parameters. Prices and quantities are exact
`real`s.

Files, one module each:

- `common.dfy`: `Option`/`Result`, `find`/`filter`/`reduce` as `FirstWhere`/`Filter`/`Sum`, and `message || fallback`.
- `types.dfy`: the record shapes.
- `positions.dfy`: position lookups and sums shared by the service and the slice.
- `portfolio_service.dfy`
- `portfolio_slice.dfy`
- `stocks_slice.dfy`
- `watchlist_slice.dfy`
- `alerts_slice.dfy`
- `user_slice.dfy`
- `news_slice.dfy`
- `stock_service.dfy`

Some behaviour of the code is easy to assume wrongly. The model follows the code in each case:

- Removing an unknown position id is not a no-op on the totals. The recompute still runs. On the seed portfolio, whose stored totals (25000/2500) are not the sums of its positions (23009.65/1509.65), the value total changes (`PortfolioService.SeedRemoveAbsentChangesTotals`).
- Chart candles are always well ordered for a positive base price: low < open < high and low < close < high. The open, high and low factors fall in disjoint ranges around the close (`StockService.ChartPointOrdered`, `StockService.CandleOrdered`).
- The `fulfilled` cases do not clear `error`. Only the `pending` cases of the fetch thunks do, and `searchStocks.pending` does not clear it at all.
- The slice's percentage (gain over value less gain) and the service's (gain over cost) differ. Both are modelled as written. They agree on consistent positions with positive value and cost (`PortfolioSlice.RevaluedAgreesWithService`), and they can disagree otherwise: a written-down holding gets 0% from the slice and −100% from the service (`PortfolioSlice.PercentsDisagree`), and a zero-cost holding makes the slice divide by zero where the service reports 0% (`PortfolioSlice.ZeroCostDividesByZero`).

## Model

| member | source | states |
|---|---|---|
| Common.FirstWhere | src/services/portfolioService.ts:69 | `find`/`findIndex`: the index of the first match, every earlier element fails the test, and none exactly when no element passes |
| Common.Filter | src/services/portfolioService.ts:125 | `filter`: each kept element occurs as often as in the input, rejected ones not at all; never longer |
| Common.Sum | src/services/portfolioService.ts:130-136 | `reduce` from 0: the empty sum is 0, non-negative terms give a non-negative sum, all-zero terms give 0 |
| Common.SumAppend | src/services/portfolioService.ts:130-136 | the sum over a + b is the sum over a plus the sum over b |
| Common.MessageOr | src/store/slices/portfolioSlice.ts:117 | `message \|\| fallback`: a non-empty message is kept, an absent or empty one gives the fallback, so the result is never empty |
| Positions.PortfolioIndex | src/services/portfolioService.ts:69 | the first portfolio with the id, or none when no portfolio has it |
| Positions.PositionIndex | src/services/portfolioService.ts:103 | the first position with the id, or none when no position has it |
| Positions.WithoutPosition | src/services/portfolioService.ts:125 | keeps exactly the positions with another id |
| Positions.WithoutAbsentPosition | src/services/portfolioService.ts:125 | removing an id no position has returns the list unchanged |
| Positions.WithoutPositionAppend | src/services/portfolioService.ts:125 | removal keeps the order of the remaining positions |
| Positions.TotalsAppend | src/services/portfolioService.ts:130-136 | appending a position adds its value, gain and cost to the three sums |
| Positions.TotalsWithout | src/services/portfolioService.ts:130-136 | each sum splits into the sum over the kept positions plus the sum over the removed ones |
| Positions.ConsistentTotals | src/services/portfolioService.ts:110-111 | over positions whose value is quantity × current price and whose gain is value less cost, the gain total is the value total less the cost total |
| PortfolioService.CostBasisPercent | src/services/portfolioService.ts:133-138 | percent × total cost = gain total × 100 when the cost is positive, else 0 |
| PortfolioService.WithTotals | src/services/portfolioService.ts:129-140 | `updatePortfolioTotals`: afterwards the stored totals are the sums and the cost-basis percent; positions, id, name and createdAt are kept; updatedAt is the new stamp |
| PortfolioService.NewPosition | src/services/portfolioService.ts:74-84 | the whole record: the given id, symbol, quantity and purchase date; bought at `price` (average = current = price); value quantity × price; zero gain and zero percent; consistent |
| PortfolioService.Repriced | src/services/portfolioService.ts:108-112 | new quantity and average price, current price kept, result consistent, percent × cost = gain × 100 for a positive price and 0 otherwise |
| PortfolioService.SeedPositionsConsistent | src/services/portfolioService.ts:12-35 | each seed position is consistent in itself |
| PortfolioService.SeedTotalsStale | src/services/portfolioService.ts:9-35 | the seed's positions sum to 23009.65/1509.65, so its stored totals are not current |
| PortfolioService.AddPositionTotals | src/services/portfolioService.ts:80-87 | the recomputed value total is the old positions' value sum plus quantity × price and the recomputed gain total is their gain sum; the stored totals move by exactly that only when they were current before |
| PortfolioService.RemovePositionTotals | src/services/portfolioService.ts:125-126 | the recomputed totals are the old positions' sums minus the removed positions' figures; the stored totals drop by exactly that only when they were current before |
| PortfolioService.RemoveAbsentPosition | src/services/portfolioService.ts:125-126 | removing an unknown id keeps the positions; the totals are kept if and only if they were already current |
| PortfolioService.SeedRemoveAbsentChangesTotals | src/services/portfolioService.ts:119-127 | on the seed, removing an unknown id rewrites the value total from 25000 to 23009.65 |
| PortfolioService.ConsistentRecompute | src/services/portfolioService.ts:129-140 | after a recompute over consistent positions, gain total = value total − total cost |
| PortfolioService.Service.constructor | src/services/portfolioService.ts:5-39 | the table starts as the single seed portfolio; every stored position is consistent |
| PortfolioService.Service.GetPortfolios | src/services/portfolioService.ts:41-45 | returns the table as it stands |
| PortfolioService.Service.CreatePortfolio | src/services/portfolioService.ts:47-61 | appends and returns an empty portfolio with zero (and current) totals and two separately read stamps; others unchanged |
| PortfolioService.Service.AddPosition | src/services/portfolioService.ts:63-90 | "Portfolio not found" and no change for an unknown id; otherwise the new position is appended to the first matching portfolio, whose totals are recomputed, and it is returned with the portfolio id |
| PortfolioService.Service.UpdatePosition | src/services/portfolioService.ts:92-117 | "Portfolio not found" / "Position not found" with no change; otherwise the first matching position is repriced in place and the totals recomputed; consistency is preserved |
| PortfolioService.Service.RemovePosition | src/services/portfolioService.ts:119-127 | "Portfolio not found" with no change; otherwise every position with the id is dropped and the totals recomputed, even when nothing matched |
| PortfolioSlice.SlicePercent | src/store/slices/portfolioSlice.ts:90-92 | percent × (value − gain) = gain × 100 when the value total is positive, else 0 |
| PortfolioSlice.Revalued | src/store/slices/portfolioSlice.ts:86-93 | new positions, totals equal to their sums, the slice's percent, updatedAt stamped; id, name and createdAt kept |
| PortfolioSlice.RevaluedAgreesWithService | src/store/slices/portfolioSlice.ts:88-92 | for consistent positions with positive value and cost, the slice's recompute equals the service's |
| PortfolioSlice.PercentsDisagree | src/store/slices/portfolioSlice.ts:90-92 | a consistent written-down holding gets 0% from the slice but −100% from the service |
| PortfolioSlice.ZeroCostDividesByZero | src/store/slices/portfolioSlice.ts:90-92 | a consistent zero-cost holding makes the slice's divisor zero while the service reports 0% |
| PortfolioSlice.AppendLeavesTotalsStale | src/store/slices/portfolioSlice.ts:126-132 | appending a position with non-zero value to a portfolio with current totals leaves them stale |
| PortfolioSlice.PortfolioState.constructor | src/store/slices/portfolioSlice.ts:12-17 | empty list, no current portfolio, not loading, no error |
| PortfolioSlice.PortfolioState.SetCurrentPortfolio | src/store/slices/portfolioSlice.ts:77-79 | the first portfolio with the id, or none; nothing else changes |
| PortfolioSlice.PortfolioState.ClearError | src/store/slices/portfolioSlice.ts:80-82 | error cleared, nothing else changes |
| PortfolioSlice.PortfolioState.UpdatePortfolioValues | src/store/slices/portfolioSlice.ts:83-99 | the first matching portfolio is revalued; currentPortfolio is replaced exactly when its id matches; unknown id: no change |
| PortfolioSlice.PortfolioState.FetchPortfoliosPending | src/store/slices/portfolioSlice.ts:104-107 | loading set, error cleared, lists kept |
| PortfolioSlice.PortfolioState.FetchPortfoliosFulfilled | src/store/slices/portfolioSlice.ts:108-114 | loading cleared, list replaced, first element selected only when none is current and the payload is non-empty; error kept |
| PortfolioSlice.PortfolioState.FetchPortfoliosRejected | src/store/slices/portfolioSlice.ts:115-118 | loading cleared, error is the message or "Failed to fetch portfolios" and never empty |
| PortfolioSlice.PortfolioState.CreatePortfolioFulfilled | src/store/slices/portfolioSlice.ts:121-123 | payload appended, nothing else changes |
| PortfolioSlice.PortfolioState.AddPositionFulfilled | src/store/slices/portfolioSlice.ts:126-132 | position appended to the first matching portfolio with its three totals untouched |
| PortfolioSlice.PortfolioState.UpdatePositionFulfilled | src/store/slices/portfolioSlice.ts:135-144 | the first position with the payload's id is overwritten at its index; length and other entries kept; no change when either id is unknown |
| PortfolioSlice.PortfolioState.RemovePositionFulfilled | src/store/slices/portfolioSlice.ts:147-153 | every position with the id dropped from the first matching portfolio |
| StocksSlice.StockRepriced | src/store/slices/stocksSlice.ts:76-84 | same keys; only price, change, changePercent and lastUpdated of a cached symbol change; other entries equal |
| StocksSlice.Merged | src/store/slices/stocksSlice.ts:108-114 | the merged cache's keys are the old keys plus the payload symbols |
| StocksSlice.MergedKeepsUntouched | src/store/slices/stocksSlice.ts:110-112 | a cached symbol the payload does not carry keeps its quote |
| StocksSlice.MergedLastWins | src/store/slices/stocksSlice.ts:110-112 | for a symbol the payload repeats, the last record wins |
| StocksSlice.MergedKeyed | src/store/slices/stocksSlice.ts:110-112 | merging keeps every quote filed under its own symbol |
| StocksSlice.MergedAppend | src/store/slices/stocksSlice.ts:110-112 | merging a then b equals merging a + b |
| StocksSlice.MergedSingle | src/store/slices/stocksSlice.ts:95 | a one-record merge is the single keyed store of `fetchStock.fulfilled` |
| StocksSlice.StocksState.constructor | src/store/slices/stocksSlice.ts:15-23 | the empty initial state |
| StocksSlice.StocksState.ClearError | src/store/slices/stocksSlice.ts:70-72 | only error changes, to none |
| StocksSlice.StocksState.ClearSearchResults | src/store/slices/stocksSlice.ts:73-75 | only searchResults changes, to empty |
| StocksSlice.StocksState.UpdateStockPrice | src/store/slices/stocksSlice.ts:76-84 | only the cache changes, as StockRepriced says; the cache stays keyed by symbol |
| StocksSlice.StocksState.FetchStockPending | src/store/slices/stocksSlice.ts:89-92 | only loading (set) and error (cleared) change |
| StocksSlice.StocksState.FetchStockFulfilled | src/store/slices/stocksSlice.ts:93-97 | quote stored under its symbol, loading cleared, lastUpdated stamped, error kept |
| StocksSlice.StocksState.FetchStockRejected | src/store/slices/stocksSlice.ts:98-101 | loading cleared, error is the message or "Failed to fetch stock" |
| StocksSlice.StocksState.FetchMultipleStocksPending | src/store/slices/stocksSlice.ts:104-107 | only loading (set) and error (cleared) change |
| StocksSlice.StocksState.FetchMultipleStocksFulfilled | src/store/slices/stocksSlice.ts:108-114 | the `forEach` loop leaves the cache equal to Merged(old cache, payload); loading cleared, lastUpdated stamped |
| StocksSlice.StocksState.FetchMultipleStocksRejected | src/store/slices/stocksSlice.ts:115-118 | loading cleared, error is the message or "Failed to fetch stocks" |
| StocksSlice.StocksState.FetchMarketIndicesFulfilled | src/store/slices/stocksSlice.ts:121-123 | only marketIndices changes; loading is untouched |
| StocksSlice.StocksState.FetchChartDataFulfilled | src/store/slices/stocksSlice.ts:126-128 | only chartData[symbol] changes |
| StocksSlice.StocksState.SearchStocksPending | src/store/slices/stocksSlice.ts:131-133 | only loading changes; error is left as it was |
| StocksSlice.StocksState.SearchStocksFulfilled | src/store/slices/stocksSlice.ts:134-137 | loading cleared, results replaced |
| StocksSlice.StocksState.SearchStocksRejected | src/store/slices/stocksSlice.ts:138-141 | loading cleared, error is the message or "Search failed" |
| WatchlistSlice.WatchlistIndex | src/store/slices/watchlistSlice.ts:24 | the first watchlist with the id, or none |
| WatchlistSlice.SymbolAdded | src/store/slices/watchlistSlice.ts:22-29 | only the first matching watchlist changes; afterwards it lists the symbol; the symbol is appended and the stamp set only if it was absent; unknown id: no change |
| WatchlistSlice.SymbolRemoved | src/store/slices/watchlistSlice.ts:30-37 | only the first matching watchlist changes; it keeps exactly the other symbols in order and is stamped even if the symbol was absent |
| WatchlistSlice.AddTwice | src/store/slices/watchlistSlice.ts:25 | adding twice equals adding once, whatever the second stamp |
| WatchlistSlice.RemoveTwice | src/store/slices/watchlistSlice.ts:34-35 | removing twice equals removing once with the later stamp |
| WatchlistSlice.RemoveUndoesAdd | src/store/slices/watchlistSlice.ts:22-37 | on one watchlist, removing right after adding equals removing alone |
| WatchlistSlice.AddThenRemove | src/store/slices/watchlistSlice.ts:22-37 | over all watchlists, removing right after adding equals removing alone |
| WatchlistSlice.EditsKeepDistinct | src/store/slices/watchlistSlice.ts:25-34 | add and remove keep every watchlist free of repeated symbols |
| WatchlistSlice.WatchlistState.constructor | src/store/slices/watchlistSlice.ts:11-16 | the empty initial state |
| WatchlistSlice.WatchlistState.AddToWatchlist | src/store/slices/watchlistSlice.ts:22-29 | the index-based update equals SymbolAdded; no repeated symbols; other fields kept |
| WatchlistSlice.WatchlistState.RemoveFromWatchlist | src/store/slices/watchlistSlice.ts:30-37 | the index-based update equals SymbolRemoved; no repeated symbols; other fields kept |
| WatchlistSlice.WatchlistState.CreateWatchlist | src/store/slices/watchlistSlice.ts:38-47 | appends one empty watchlist with the name and two separately read stamps; the rest unchanged |
| AlertsSlice.NewAlert | src/store/slices/alertsSlice.ts:21-25 | the alert carries the payload fields plus the given id and createdAt |
| AlertsSlice.WithoutAlert | src/store/slices/alertsSlice.ts:28-30 | keeps exactly the alerts with another id, each as often as before |
| AlertsSlice.WithoutAbsentAlert | src/store/slices/alertsSlice.ts:28-30 | removing an unknown id changes nothing |
| AlertsSlice.Toggled | src/store/slices/alertsSlice.ts:31-36 | only the first alert with the id changes, and only its isActive, which flips; unknown id: no change |
| AlertsSlice.ToggleTwice | src/store/slices/alertsSlice.ts:34 | toggling the same id twice restores the list |
| AlertsSlice.PricesUpdated | src/store/slices/alertsSlice.ts:37-44 | every alert on the symbol gets the price; only currentPrice changes; alerts on other symbols are equal |
| AlertsSlice.PricesUpdatedTwice | src/store/slices/alertsSlice.ts:37-44 | a later price overrides an earlier one for the same symbol, so the update is idempotent |
| AlertsSlice.PricesUpdatedCommute | src/store/slices/alertsSlice.ts:37-44 | updates for different symbols commute |
| AlertsSlice.AlertTermsKept | src/store/slices/alertsSlice.ts:31-44 | toggling and repricing never change an alert's symbol, kind or target price |
| AlertsSlice.AlertsState.constructor | src/store/slices/alertsSlice.ts:10-14 | the empty initial state |
| AlertsSlice.AlertsState.AddAlert | src/store/slices/alertsSlice.ts:20-27 | exactly one new alert appended |
| AlertsSlice.AlertsState.RemoveAlert | src/store/slices/alertsSlice.ts:28-30 | the list becomes WithoutAlert |
| AlertsSlice.AlertsState.ToggleAlert | src/store/slices/alertsSlice.ts:31-36 | the in-place flip at the found index equals Toggled |
| AlertsSlice.AlertsState.UpdateAlertPrice | src/store/slices/alertsSlice.ts:37-44 | the `forEach` loop leaves the list equal to PricesUpdated |
| UserSlice.MergePreferences | src/store/slices/userSlice.ts:28 | the shallow spread: each key the partial carries replaces the old value whole (notifications included); absent keys are kept |
| UserSlice.MergeEmpty | src/store/slices/userSlice.ts:28 | an empty partial changes nothing |
| UserSlice.MergeIdempotent | src/store/slices/userSlice.ts:28 | merging the same partial twice equals merging it once |
| UserSlice.MergeSequence | src/store/slices/userSlice.ts:28 | two merges equal one merge of the right-biased union |
| UserSlice.MergeFull | src/store/slices/userSlice.ts:28 | a partial carrying every key replaces the preferences |
| UserSlice.UserState.constructor | src/store/slices/userSlice.ts:11-16 | no user, not authenticated, not loading, no error |
| UserSlice.UserState.SetUser | src/store/slices/userSlice.ts:22-25 | user stored, authenticated; the flag follows the user |
| UserSlice.UserState.UpdatePreferences | src/store/slices/userSlice.ts:26-30 | no change when signed out; otherwise only the preferences change, by the shallow merge |
| UserSlice.UserState.Logout | src/store/slices/userSlice.ts:31-34 | user cleared, not authenticated |
| UserSlice.UserState.SetLoading | src/store/slices/userSlice.ts:35-37 | only loading changes |
| UserSlice.UserState.SetError | src/store/slices/userSlice.ts:38-40 | only error changes |
| NewsSlice.NewsState.constructor | src/store/slices/newsSlice.ts:11-16 | empty news, not loading, no error, no stamp |
| NewsSlice.NewsState.SetNews | src/store/slices/newsSlice.ts:22-25 | list replaced wholesale, stamp set |
| NewsSlice.NewsState.SetLoading | src/store/slices/newsSlice.ts:26-28 | only loading changes |
| NewsSlice.NewsState.SetError | src/store/slices/newsSlice.ts:29-31 | only error changes |
| StockService.MockTableAgrees | src/services/stockService.ts:4-47 | data check on the literal table: it is keyed by symbol, holds AAPL, GOOGL and MSFT, and its values are the three records |
| StockService.GetStock | src/services/stockService.ts:77-94 | the record if and only if the symbol is an own key, else "Stock <symbol> not found" |
| StockService.GetStockMatchesSymbol | src/services/stockService.ts:80-81 | on a table keyed by symbol, a found record carries the requested symbol |
| StockService.GetStockAsWritten | src/services/stockService.ts:80-89 | the lookup as written succeeds exactly on own keys and inherited member names |
| StockService.GetStockAsWrittenFindsToString | src/services/stockService.ts:80-82 | "toString" is rejected by GetStock but returned by the as-written lookup |
| StockService.GetStockAgreesOffPrototype | src/services/stockService.ts:80-89 | off the inherited member names, the two lookups agree |
| StockService.GetMultipleStocks | src/services/stockService.ts:96-108 | never longer than the request; only table records; every known requested symbol yields its record |
| StockService.GetMultipleStocksAppend | src/services/stockService.ts:99-101 | results follow request order: the lookup of a + b is the lookup of a then of b |
| StockService.GetMultipleStocksSymbols | src/services/stockService.ts:99-101 | the result's symbols are exactly the known requested symbols, in order, duplicates kept |
| StockService.Lower | src/services/stockService.ts:158-159 | same length, each character lower-cased |
| StockService.SearchStocks | src/services/stockService.ts:152-173 | the filter `Matches` (lowered symbol or name `Includes` the lowered query, `Includes` being `String.prototype.includes` as a bounded search over start indices): every matching stock yields a result and every result comes from a matching stock; type 'stock', exchange "NASDAQ" |
| StockService.SearchStocksAppend | src/services/stockService.ts:155-166 | results keep table order |
| StockService.EmptyQueryMatchesAll | src/services/stockService.ts:157-160 | the empty query returns one result per stock, in order |
| StockService.SearchGoog | src/services/stockService.ts:155-166 | on the mock table, "goog" finds Alphabet only |
| StockService.ChartDays | src/services/stockService.ts:125 | 1 for '1D', 5 for '5D', 30 for anything else |
| StockService.BasePrice | src/services/stockService.ts:131 | the table price when present and non-zero, else 100; never zero |
| StockService.MockBasePricePositive | src/services/stockService.ts:131 | data check on the literal table: every base price drawn from it is positive |
| StockService.ChartPoint | src/services/stockService.ts:132-142 | one day's point: it carries the given timestamp, its close is within 5% of a positive base, and its volume is in [1e6, 1.1e7) |
| StockService.ChartPointOrdered | src/services/stockService.ts:132-141 | for a positive base: low < open < high and low < close < high |
| StockService.CandleOrdered | src/services/stockService.ts:137-140 | open, high and low factors in their ranges order any positive close into a well-formed candle |
| StockService.GetChartData | src/services/stockService.ts:120-150 | days + 1 points, oldest first; point k is dated days − k days ago and drawn from the k-th random draws |

## Left out

- Asynchrony: promises, thunks, the 500 ms delay of `getPortfolios`, and `console.error` logging with its rethrow. Each thunk outcome is a separate method.
- Object sharing: `getPortfolios` hands out the service's own array, and the service keeps the objects it returns. The model passes values, so the store and the service never share an object, and immer's copying and freezing of shared objects are not modelled.
- The clock, `Date.now()` ids and `Math.random()`: these are parameters. Uniqueness of ids is not assumed.
- Floating point: prices are exact reals, so JavaScript's rounding is not reproduced.
- PortfolioService.Service.UpdatePosition: requires that a found position is not repriced with quantity 0 and a positive price. JavaScript computes 0/0 (NaN) there, and reals have no NaN.
- PortfolioService.Repriced: requires the same of the position it reprices, for the same reason.
- PortfolioSlice.PortfolioState.UpdatePortfolioValues: requires that a found portfolio does not get positions whose positive value total equals their gain total. JavaScript divides by zero (Infinity) there.
- PortfolioSlice.SlicePercent: requires the same of its positions, for the same reason.
- PortfolioSlice.Revalued: requires the same of its positions, because it stores SlicePercent.
- StockService.Lower: lower-cases ASCII letters only. `toLowerCase` also folds other Unicode letters.
- StockService.GetMultipleStocks: looks up own keys only, as `GetStock` does. As written, `.filter(Boolean)` would also keep an inherited member such as `toString`; this is the same defect as the finding below.
- StocksSlice.StocksState.UpdateStockPrice: tests own keys of the cache. As written, the truthiness test would also accept inherited member names.
- UserSlice.UserState.UpdatePreferences: a partial that holds a key explicitly set to `undefined` cannot be expressed. The spread would copy that `undefined` over the old value.
- `getMarketIndices` returns the fixed list `StockService.MockIndices`, so there is nothing to prove about it.
- The random OHLC values are not modelled beyond their ranges.
- `transformStockData` is never called.
- Not part of this model: the UI (screens, components, navigation), display formatting, and the store setup in `src/store/index.ts`.

## Findings

| source | as written | input that shows it | evidently intended | confidence | as-written member | corrected member |
|---|---|---|---|---|---|---|
| src/services/stockService.ts:80-81 | `if (MOCK_STOCKS[symbol])` tests a property read on an object literal, and such a read also finds members inherited from `Object.prototype` | `getStock("toString")` resolves to the native `toString` function instead of rejecting | reject every symbol that is not one of the table's own keys, with "Stock toString not found" | not executed | StockService.GetStockAsWritten | StockService.GetStock |
