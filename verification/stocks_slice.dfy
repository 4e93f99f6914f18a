/**
 * The stocks slice (`src/store/slices/stocksSlice.ts`): the quote cache keyed by symbol,
 * market indices, chart series, search results, and the loading/error flags that the
 * fetch lifecycles drive. Each `pending`/`fulfilled`/`rejected` case is one method; the
 * clock and the thunk's error message are parameters.
 */
module StocksSlice {
  import opened Common
  import opened Types
  import opened StockService

  /** `state.stocks[symbol]` repriced by `updateStockPrice`, when the symbol is cached. */
  function StockRepriced(m: map<string, Stock>, symbol: string, price: real, change: real,
                         changePercent: real, now: string): (r: map<string, Stock>)
    ensures r.Keys == m.Keys
    ensures forall k :: k in m && k != symbol ==> r[k] == m[k]
    ensures symbol in m ==>
      && r[symbol].price == price && r[symbol].change == change
      && r[symbol].changePercent == changePercent && r[symbol].lastUpdated == now
      && r[symbol].(price := m[symbol].price, change := m[symbol].change,
                    changePercent := m[symbol].changePercent, lastUpdated := m[symbol].lastUpdated) == m[symbol]
  {
    if symbol in m
    then m[symbol := m[symbol].(price := price, change := change, changePercent := changePercent, lastUpdated := now)]
    else m
  }

  /** The cache after storing each payload record under its symbol, in payload order. */
  function Merged(m: map<string, Stock>, payload: seq<Stock>): (r: map<string, Stock>)
    ensures r.Keys == m.Keys + (set s | s in payload :: s.symbol)
    decreases |payload|
  {
    if |payload| == 0 then m
    else
      var last := payload[|payload| - 1];
      var front := payload[..|payload| - 1];
      assert forall s :: s in payload <==> s in front || s == last;
      Merged(m, front)[last.symbol := last]
  }

  /** A cached quote whose symbol the payload does not carry is kept. */
  lemma {:induction false} MergedKeepsUntouched(m: map<string, Stock>, payload: seq<Stock>, k: string)
    requires k in m && forall j :: 0 <= j < |payload| ==> payload[j].symbol != k
    ensures Merged(m, payload)[k] == m[k]
    decreases |payload|
  {
    if |payload| > 0 {
      MergedKeepsUntouched(m, payload[..|payload| - 1], k);
    }
  }

  /** For a symbol the payload carries, its last record in the payload wins. */
  lemma {:induction false} MergedLastWins(m: map<string, Stock>, payload: seq<Stock>, i: nat)
    requires i < |payload| && forall j :: i < j < |payload| ==> payload[j].symbol != payload[i].symbol
    ensures Merged(m, payload)[payload[i].symbol] == payload[i]
    decreases |payload|
  {
    if i < |payload| - 1 {
      var front := payload[..|payload| - 1];
      assert front[i] == payload[i];
      MergedLastWins(m, front, i);
    }
  }

  /** Merging records into a cache keyed by symbol keeps it keyed by symbol. */
  lemma {:induction false} MergedKeyed(m: map<string, Stock>, payload: seq<Stock>)
    requires KeyedBySymbol(m)
    ensures KeyedBySymbol(Merged(m, payload))
    decreases |payload|
  {
    if |payload| > 0 {
      MergedKeyed(m, payload[..|payload| - 1]);
    }
  }

  /** Merging `a` then `b` is merging `a + b`: each `fetchMultipleStocks` batch extends the last. */
  lemma {:induction false} MergedAppend(m: map<string, Stock>, a: seq<Stock>, b: seq<Stock>)
    ensures Merged(Merged(m, a), b) == Merged(m, a + b)
    decreases |b|
  {
    if |b| == 0 {
      assert a + b == a;
    } else {
      MergedAppend(m, a, b[..|b| - 1]);
      assert (a + b)[..|a + b| - 1] == a + b[..|b| - 1];
      assert (a + b)[|a + b| - 1] == b[|b| - 1];
    }
  }

  /** Storing one record is merging a one-record payload. */
  lemma MergedSingle(m: map<string, Stock>, stock: Stock)
    ensures Merged(m, [stock]) == m[stock.symbol := stock]
  {
    assert [stock][..0] == [];
  }

  /** Every field of the slice, for stating that a case changes only some of them. */
  datatype StocksView = StocksView(
    stocks: map<string, Stock>,
    marketIndices: seq<MarketIndex>,
    chartData: map<string, seq<ChartData>>,
    searchResults: seq<SearchResult>,
    loading: bool,
    error: Option<string>,
    lastUpdated: Option<string>)

  /** `StocksState` */
  class StocksState {
    var stocks: map<string, Stock>
    var marketIndices: seq<MarketIndex>
    var chartData: map<string, seq<ChartData>>
    var searchResults: seq<SearchResult>
    var loading: bool
    var error: Option<string>
    var lastUpdated: Option<string>

    function View(): StocksView
      reads this
    {
      StocksView(stocks, marketIndices, chartData, searchResults, loading, error, lastUpdated)
    }

    /** Every cached quote is filed under its own symbol. */
    ghost predicate Valid()
      reads this
    {
      KeyedBySymbol(stocks)
    }

    /** `initialState` */
    constructor()
      ensures Valid()
      ensures View() == StocksView(map[], [], map[], [], false, None, None)
    {
      stocks := map[];
      marketIndices := [];
      chartData := map[];
      searchResults := [];
      loading := false;
      error := None;
      lastUpdated := None;
    }

    /** `clearError` */
    method ClearError()
      requires Valid()
      modifies this
      ensures Valid()
      ensures View() == old(View()).(error := None)
    {
      error := None;
    }

    /** `clearSearchResults` */
    method ClearSearchResults()
      requires Valid()
      modifies this
      ensures Valid()
      ensures View() == old(View()).(searchResults := [])
    {
      searchResults := [];
    }

    /** `updateStockPrice`: no effect on a symbol that is not cached. */
    method UpdateStockPrice(symbol: string, price: real, change: real, changePercent: real, now: string)
      requires Valid()
      modifies this
      ensures Valid()
      ensures View() == old(View()).(stocks := StockRepriced(old(stocks), symbol, price, change, changePercent, now))
    {
      if symbol in stocks {
        var s := stocks[symbol];
        stocks := stocks[symbol := s.(price := price, change := change, changePercent := changePercent, lastUpdated := now)];
      }
    }

    /** `fetchStock.pending` */
    method FetchStockPending()
      requires Valid()
      modifies this
      ensures Valid()
      ensures View() == old(View()).(loading := true, error := None)
    {
      loading := true;
      error := None;
    }

    /** `fetchStock.fulfilled`: cache the quote; the error is left as it was. */
    method FetchStockFulfilled(stock: Stock, now: string)
      requires Valid()
      modifies this
      ensures Valid()
      ensures View() == old(View()).(loading := false, stocks := old(stocks)[stock.symbol := stock], lastUpdated := Some(now))
    {
      loading := false;
      stocks := stocks[stock.symbol := stock];
      lastUpdated := Some(now);
    }

    /** `fetchStock.rejected` */
    method FetchStockRejected(message: Option<string>)
      requires Valid()
      modifies this
      ensures Valid()
      ensures View() == old(View()).(loading := false, error := Some(MessageOr(message, "Failed to fetch stock")))
    {
      loading := false;
      error := Some(MessageOr(message, "Failed to fetch stock"));
    }

    /** `fetchMultipleStocks.pending` */
    method FetchMultipleStocksPending()
      requires Valid()
      modifies this
      ensures Valid()
      ensures View() == old(View()).(loading := true, error := None)
    {
      loading := true;
      error := None;
    }

    /** `fetchMultipleStocks.fulfilled`: store each quote in payload order, so a later duplicate wins. */
    method FetchMultipleStocksFulfilled(payload: seq<Stock>, now: string)
      requires Valid()
      modifies this
      ensures Valid()
      ensures View() == old(View()).(loading := false, stocks := Merged(old(stocks), payload), lastUpdated := Some(now))
    {
      loading := false;
      var i := 0;
      while i < |payload|
        invariant 0 <= i <= |payload|
        invariant stocks == Merged(old(stocks), payload[..i])
        invariant View() == old(View()).(loading := false, stocks := stocks)
      {
        assert payload[..i + 1][..i] == payload[..i];
        stocks := stocks[payload[i].symbol := payload[i]];
        i := i + 1;
      }
      assert payload[..i] == payload;
      MergedKeyed(old(stocks), payload);
      lastUpdated := Some(now);
    }

    /** `fetchMultipleStocks.rejected` */
    method FetchMultipleStocksRejected(message: Option<string>)
      requires Valid()
      modifies this
      ensures Valid()
      ensures View() == old(View()).(loading := false, error := Some(MessageOr(message, "Failed to fetch stocks")))
    {
      loading := false;
      error := Some(MessageOr(message, "Failed to fetch stocks"));
    }

    /** `fetchMarketIndices.fulfilled` */
    method FetchMarketIndicesFulfilled(payload: seq<MarketIndex>)
      requires Valid()
      modifies this
      ensures Valid()
      ensures View() == old(View()).(marketIndices := payload)
    {
      marketIndices := payload;
    }

    /** `fetchChartData.fulfilled`: replace the series for one symbol. */
    method FetchChartDataFulfilled(symbol: string, data: seq<ChartData>)
      requires Valid()
      modifies this
      ensures Valid()
      ensures View() == old(View()).(chartData := old(chartData)[symbol := data])
    {
      chartData := chartData[symbol := data];
    }

    /** `searchStocks.pending`: unlike the fetches, it leaves the error as it was. */
    method SearchStocksPending()
      requires Valid()
      modifies this
      ensures Valid()
      ensures View() == old(View()).(loading := true)
    {
      loading := true;
    }

    /** `searchStocks.fulfilled` */
    method SearchStocksFulfilled(payload: seq<SearchResult>)
      requires Valid()
      modifies this
      ensures Valid()
      ensures View() == old(View()).(loading := false, searchResults := payload)
    {
      loading := false;
      searchResults := payload;
    }

    /** `searchStocks.rejected` */
    method SearchStocksRejected(message: Option<string>)
      requires Valid()
      modifies this
      ensures Valid()
      ensures View() == old(View()).(loading := false, error := Some(MessageOr(message, "Search failed")))
    {
      loading := false;
      error := Some(MessageOr(message, "Search failed"));
    }
  }
}
