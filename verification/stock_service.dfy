/**
 * The mock stock service (`src/services/stockService.ts`): lookups and a search over a
 * fixed table of three stocks, and synthetic chart points. The table's `lastUpdated`
 * stamp (taken when the module loads), the clock and `Math.random` are parameters.
 */
module StockService {
  import opened Common
  import opened Types

  /** The three mock records, in the order the table literal lists them. */
  function MockStockList(loadedAt: string): seq<Stock>
  {
    [ Stock("AAPL", "Apple Inc.", 175.43, 2.15, 1.24, 45678900, 2800000000000,
            Some(28.5), Some(0.52), 198.23, 124.17, loadedAt),
      Stock("GOOGL", "Alphabet Inc.", 2847.63, -15.42, -0.54, 1234567, 1900000000000,
            Some(25.8), Some(0.0), 3030.93, 2193.62, loadedAt),
      Stock("MSFT", "Microsoft Corporation", 378.85, 4.23, 1.13, 23456789, 2900000000000,
            Some(32.1), Some(0.68), 384.30, 213.43, loadedAt) ]
  }

  /** `MOCK_STOCKS`: the same records keyed by symbol. */
  function MockStocks(loadedAt: string): map<string, Stock>
  {
    var list := MockStockList(loadedAt);
    map[list[0].symbol := list[0], list[1].symbol := list[1], list[2].symbol := list[2]]
  }

  /** Every record is filed under its own symbol. */
  predicate KeyedBySymbol(table: map<string, Stock>)
  {
    forall k :: k in table ==> table[k].symbol == k
  }

  /** The mock map is keyed by symbol and holds exactly the records of the mock list. */
  lemma MockTableAgrees(loadedAt: string)
    ensures KeyedBySymbol(MockStocks(loadedAt))
    ensures MockStocks(loadedAt).Keys == {"AAPL", "GOOGL", "MSFT"}
    ensures forall s :: s in MockStockList(loadedAt) <==> s in MockStocks(loadedAt).Values
  {
  }

  /** `getStock`: the table's record, or the "not found" error. */
  function GetStock(table: map<string, Stock>, symbol: string): (r: Result<Stock>)
    ensures r.Ok? <==> symbol in table
    ensures r.Ok? ==> r.value == table[symbol]
    ensures r.Err? ==> r.message == "Stock " + symbol + " not found"
  {
    if symbol in table then Ok(table[symbol]) else Err("Stock " + symbol + " not found")
  }

  /** On a table keyed by symbol, a found record carries the requested symbol. */
  lemma GetStockMatchesSymbol(table: map<string, Stock>, symbol: string)
    requires KeyedBySymbol(table)
    ensures GetStock(table, symbol).Ok? ==> GetStock(table, symbol).value.symbol == symbol
  {
  }

  /*
   * As written, `getStock` tests `MOCK_STOCKS[symbol]` for truthiness. On an object
   * literal that also reads the members every object inherits, so a symbol such as
   * "toString" yields a function instead of the "not found" error.
   */

  /** Members every plain JavaScript object inherits from `Object.prototype`. */
  const InheritedMembers: set<string> := {
    "__proto__", "__defineGetter__", "__defineSetter__", "__lookupGetter__", "__lookupSetter__",
    "constructor", "hasOwnProperty", "isPrototypeOf", "propertyIsEnumerable",
    "toLocaleString", "toString", "valueOf" }

  /** What `MOCK_STOCKS[key]` evaluates to. */
  datatype Property = OwnRecord(stock: Stock) | InheritedMember(name: string) | Undefined

  function PropertyOf(table: map<string, Stock>, key: string): Property
  {
    if key in table then OwnRecord(table[key])
    else if key in InheritedMembers then InheritedMember(key)
    else Undefined
  }

  /** `getStock` as written: any truthy property counts as found. */
  function GetStockAsWritten(table: map<string, Stock>, symbol: string): (r: Result<Property>)
    ensures r.Ok? <==> symbol in table || symbol in InheritedMembers
  {
    var p := PropertyOf(table, symbol);
    if !p.Undefined? then Ok(p) else Err("Stock " + symbol + " not found")
  }

  /** "toString" is not a stock, yet the as-written lookup returns it instead of failing. */
  lemma GetStockAsWrittenFindsToString(loadedAt: string)
    ensures GetStock(MockStocks(loadedAt), "toString").Err?
    ensures GetStockAsWritten(MockStocks(loadedAt), "toString") == Ok(InheritedMember("toString"))
  {
  }

  /** The two lookups agree on every key that is not an inherited member name. */
  lemma GetStockAgreesOffPrototype(table: map<string, Stock>, symbol: string)
    requires symbol !in InheritedMembers
    ensures GetStockAsWritten(table, symbol).Ok? == GetStock(table, symbol).Ok?
    ensures GetStock(table, symbol).Ok? ==> GetStockAsWritten(table, symbol).value == OwnRecord(GetStock(table, symbol).value)
  {
  }

  /**
   * `getMultipleStocks`: map each requested symbol to its record and drop the symbols the
   * table lacks (own keys, as in `GetStock`).
   */
  function GetMultipleStocks(table: map<string, Stock>, symbols: seq<string>): (r: seq<Stock>)
    ensures |r| <= |symbols|
    ensures forall s :: s in r ==> s in table.Values
    ensures forall k :: k in symbols && k in table ==> table[k] in r
  {
    if |symbols| == 0 then []
    else
      var rest := GetMultipleStocks(table, symbols[1..]);
      if symbols[0] in table then [table[symbols[0]]] + rest else rest
  }

  /** Lookups keep request order: the result for a concatenation is the concatenation of results. */
  lemma {:induction false} GetMultipleStocksAppend(table: map<string, Stock>, a: seq<string>, b: seq<string>)
    ensures GetMultipleStocks(table, a + b) == GetMultipleStocks(table, a) + GetMultipleStocks(table, b)
  {
    if |a| == 0 {
      assert a + b == b;
    } else {
      assert (a + b)[0] == a[0];
      assert (a + b)[1..] == a[1..] + b;
      GetMultipleStocksAppend(table, a[1..], b);
    }
  }

  function InTable(table: map<string, Stock>): string -> bool
  {
    k => k in table
  }

  function SymbolsOf(stocks: seq<Stock>): (r: seq<string>)
    ensures |r| == |stocks| && forall i :: 0 <= i < |r| ==> r[i] == stocks[i].symbol
  {
    if |stocks| == 0 then [] else [stocks[0].symbol] + SymbolsOf(stocks[1..])
  }

  /**
   * On a table keyed by symbol the result's symbols are exactly the known requested
   * symbols, in request order and with repeats kept.
   */
  lemma {:induction false} GetMultipleStocksSymbols(table: map<string, Stock>, symbols: seq<string>)
    requires KeyedBySymbol(table)
    ensures SymbolsOf(GetMultipleStocks(table, symbols)) == Filter(symbols, InTable(table))
  {
    if |symbols| > 0 {
      GetMultipleStocksSymbols(table, symbols[1..]);
      var rest := GetMultipleStocks(table, symbols[1..]);
      if symbols[0] in table {
        assert SymbolsOf([table[symbols[0]]] + rest)[1..] == SymbolsOf(rest);
      }
    }
  }

  /** ASCII upper case to lower case, as `toLowerCase` does for these characters. */
  function LowerChar(c: char): char
  {
    if 'A' <= c <= 'Z' then (c as int + 32) as char else c
  }

  function Lower(s: string): (r: string)
    ensures |r| == |s| && forall i :: 0 <= i < |s| ==> r[i] == LowerChar(s[i])
  {
    if |s| == 0 then "" else [LowerChar(s[0])] + Lower(s[1..])
  }

  /** `sub` occurs in `s` starting at index `i`. */
  predicate OccursAt(s: string, sub: string, i: int)
  {
    0 <= i && i + |sub| <= |s| && s[i..i + |sub|] == sub
  }

  /** `String.prototype.includes`: `sub` occurs somewhere in `s`. */
  predicate Includes(s: string, sub: string)
  {
    exists i | 0 <= i <= |s| - |sub| :: OccursAt(s, sub, i)
  }

  /** Every string includes the empty string. */
  lemma IncludesEmpty(s: string)
    ensures Includes(s, "")
  {
    assert OccursAt(s, "", 0);
  }

  /** A string that lacks the first character of `sub` does not include `sub`. */
  lemma LacksFirst(s: string, sub: string)
    requires |sub| > 0 && sub[0] !in s
    ensures !Includes(s, sub)
  {
  }

  /** Lower-casing a string without upper-case letters leaves it as it is. */
  lemma LowerKeeps(s: string)
    requires forall i :: 0 <= i < |s| ==> !('A' <= s[i] <= 'Z')
    ensures Lower(s) == s
  {
  }

  /** A lower-case letter occurs in the lower-cased string only if it or its capital occurs. */
  lemma LowerLacks(s: string, c: char)
    requires 'a' <= c <= 'z'
    requires c !in s && (c as int - 32) as char !in s
    ensures c !in Lower(s)
  {
  }

  /** The filter of `searchStocks`: symbol or name contains the query, ignoring case. */
  predicate Matches(stock: Stock, query: string)
  {
    Includes(Lower(stock.symbol), Lower(query)) || Includes(Lower(stock.name), Lower(query))
  }

  /** The record `searchStocks` reports for a matching stock. */
  function AsSearchResult(stock: Stock): SearchResult
  {
    SearchResult(stock.symbol, stock.name, StockSecurity, "NASDAQ")
  }

  /** `searchStocks` over the table's records in table order. */
  function SearchStocks(stocks: seq<Stock>, query: string): (r: seq<SearchResult>)
    ensures |r| <= |stocks|
    ensures forall i :: 0 <= i < |r| ==> r[i].kind == StockSecurity && r[i].exchange == "NASDAQ"
    ensures forall s :: s in stocks && Matches(s, query) ==> AsSearchResult(s) in r
    ensures forall x :: x in r ==> exists s :: s in stocks && Matches(s, query) && x == AsSearchResult(s)
  {
    if |stocks| == 0 then []
    else
      var rest := SearchStocks(stocks[1..], query);
      assert forall s :: s in stocks ==> s == stocks[0] || s in stocks[1..];
      if Matches(stocks[0], query) then [AsSearchResult(stocks[0])] + rest else rest
  }

  /** Search results keep table order. */
  lemma {:induction false} SearchStocksAppend(a: seq<Stock>, b: seq<Stock>, query: string)
    ensures SearchStocks(a + b, query) == SearchStocks(a, query) + SearchStocks(b, query)
  {
    if |a| == 0 {
      assert a + b == b;
    } else {
      assert (a + b)[0] == a[0];
      assert (a + b)[1..] == a[1..] + b;
      SearchStocksAppend(a[1..], b, query);
    }
  }

  /** An empty query matches every stock: one result per record, in table order. */
  lemma {:induction false} EmptyQueryMatchesAll(stocks: seq<Stock>)
    ensures |SearchStocks(stocks, "")| == |stocks|
    ensures forall i :: 0 <= i < |stocks| ==> SearchStocks(stocks, "")[i] == AsSearchResult(stocks[i])
  {
    if |stocks| > 0 {
      EmptyQueryMatchesAll(stocks[1..]);
      assert Lower("") == "";
      IncludesEmpty(Lower(stocks[0].symbol));
      assert Matches(stocks[0], "");
      var rest := SearchStocks(stocks[1..], "");
      assert SearchStocks(stocks, "") == [AsSearchResult(stocks[0])] + rest;
      forall i | 0 < i < |stocks|
        ensures SearchStocks(stocks, "")[i] == AsSearchResult(stocks[i])
      {
        assert stocks[1..][i - 1] == stocks[i];
      }
    }
  }

  /** The stocks "goog" matches and misses, one per mock record. */
  lemma GoogMatches(loadedAt: string)
    ensures Matches(MockStockList(loadedAt)[1], "goog")
  {
    LowerKeeps("goog");
    var l := Lower("GOOGL");
    assert l[0] == 'g' && l[1] == 'o' && l[2] == 'o' && l[3] == 'g';
    assert l[0..4] == "goog";
    assert OccursAt(l, "goog", 0);
  }

  /** A query starting with 'g' misses a stock with no 'g' or 'G' in its symbol or name. */
  lemma MissesG(stock: Stock, query: string)
    requires Lower(query) == query && |query| > 0 && query[0] == 'g'
    requires 'g' !in stock.symbol && 'G' !in stock.symbol
    requires 'g' !in stock.name && 'G' !in stock.name
    ensures !Matches(stock, query)
  {
    LowerLacks(stock.symbol, 'g');
    LowerLacks(stock.name, 'g');
    LacksFirst(Lower(stock.symbol), query);
    LacksFirst(Lower(stock.name), query);
  }

  lemma NamesLackG()
    ensures 'g' !in "AAPL" && 'G' !in "AAPL" && 'g' !in "Apple Inc." && 'G' !in "Apple Inc."
    ensures 'g' !in "MSFT" && 'G' !in "MSFT"
    ensures 'g' !in "Microsoft Corporation" && 'G' !in "Microsoft Corporation"
  {
  }

  lemma GoogMisses(loadedAt: string)
    ensures !Matches(MockStockList(loadedAt)[0], "goog")
    ensures !Matches(MockStockList(loadedAt)[2], "goog")
  {
    LowerKeeps("goog");
    NamesLackG();
    MissesG(MockStockList(loadedAt)[0], "goog");
    MissesG(MockStockList(loadedAt)[2], "goog");
  }

  /** Over three stocks of which only the middle one matches, the search returns that one. */
  lemma SearchMiddleOnly(a: Stock, b: Stock, c: Stock, query: string)
    requires !Matches(a, query) && Matches(b, query) && !Matches(c, query)
    ensures SearchStocks([a, b, c], query) == [AsSearchResult(b)]
  {
    assert [c][1..] == [];
    assert SearchStocks([c], query) == [];
    assert [b, c][1..] == [c];
    assert SearchStocks([b, c], query) == [AsSearchResult(b)];
    assert [a, b, c][1..] == [b, c];
  }

  /** Searching the mock table for "goog" finds Alphabet only. */
  lemma SearchGoog(loadedAt: string)
    ensures SearchStocks(MockStockList(loadedAt), "goog") == [SearchResult("GOOGL", "Alphabet Inc.", StockSecurity, "NASDAQ")]
  {
    var list := MockStockList(loadedAt);
    GoogMatches(loadedAt);
    GoogMisses(loadedAt);
    assert list == [list[0], list[1], list[2]];
    SearchMiddleOnly(list[0], list[1], list[2], "goog");
  }

  /** The number of days `getChartData` goes back for a timeframe. */
  function ChartDays(timeframe: string): (days: nat)
    ensures days == 1 <==> timeframe == "1D"
    ensures days == 5 <==> timeframe == "5D"
    ensures days == 30 <==> timeframe != "1D" && timeframe != "5D"
  {
    if timeframe == "1D" then 1 else if timeframe == "5D" then 5 else 30
  }

  /** `MOCK_STOCKS[symbol]?.price || 100`: a zero or missing price falls back to 100. */
  function BasePrice(table: map<string, Stock>, symbol: string): (r: real)
    ensures r != 0.0
    ensures symbol in table && table[symbol].price != 0.0 ==> r == table[symbol].price
    ensures !(symbol in table && table[symbol].price != 0.0) ==> r == 100.0
  {
    if symbol in table && table[symbol].price != 0.0 then table[symbol].price else 100.0
  }

  /** A value of `Math.random()`. */
  type Fraction = r: real | 0.0 <= r < 1.0 witness 0.0

  /** The five random values one chart point consumes, in the order the source draws them. */
  datatype Draw = Draw(factor: Fraction, open: Fraction, high: Fraction, low: Fraction, volume: Fraction)

  /**
   * One chart point for a day: it carries that day's timestamp, its close lies within 5%
   * of a positive base price, and its volume lies in [1e6, 1.1e7).
   */
  function ChartPoint(base: real, d: Draw, timestamp: string): (r: ChartData)
    ensures r.timestamp == timestamp
    ensures base > 0.0 ==> base * 0.95 <= r.close < base * 1.05
    ensures 1000000 <= r.volume < 11000000
  {
    var fc := 0.95 + d.factor * 0.1;
    CloseBand(base, fc);
    var price := base * fc;
    var v := d.volume * 10000000.0;
    assert 0.0 <= v < 10000000.0;
    ChartData(timestamp,
      price * (0.99 + d.open * 0.02),
      price * (1.01 + d.high * 0.02),
      price * (0.97 + d.low * 0.02),
      price,
      v.Floor + 1000000)
  }

  lemma ScaleLess(p: real, a: real, b: real)
    requires p > 0.0 && a < b
    ensures p * a < p * b
  {
  }

  lemma ScaleAtMost(p: real, a: real, b: real)
    requires p > 0.0 && a <= b
    ensures p * a <= p * b
  {
  }

  /** A close factor in [0.95, 1.05) keeps a positive base's close within 5% of it. */
  lemma CloseBand(base: real, fc: real)
    requires 0.95 <= fc < 1.05
    ensures base > 0.0 ==> base * 0.95 <= base * fc < base * 1.05
  {
    if base > 0.0 {
      ScaleAtMost(base, 0.95, fc);
      ScaleLess(base, fc, 1.05);
    }
  }

  /**
   * For a positive base price the factors force a well-formed candle: low below open and
   * close, and both below high.
   */
  lemma ChartPointOrdered(base: real, d: Draw, timestamp: string)
    requires base > 0.0
    ensures var p := ChartPoint(base, d, timestamp);
      && p.low < p.open < p.high
      && p.low < p.close < p.high
  {
    var fc := 0.95 + d.factor * 0.1;
    var fo := 0.99 + d.open * 0.02;
    var fh := 1.01 + d.high * 0.02;
    var fl := 0.97 + d.low * 0.02;
    var price := base * fc;
    assert price > 0.0;
    var p := ChartPoint(base, d, timestamp);
    assert p == ChartData(timestamp, price * fo, price * fh, price * fl, price, p.volume);
    CandleOrdered(p, fo, fh, fl);
  }

  /** The open, high and low factors scale a positive close into a well-ordered candle. */
  lemma CandleOrdered(p: ChartData, fo: real, fh: real, fl: real)
    requires p.close > 0.0
    requires 0.99 <= fo < 1.01 <= fh && 0.97 <= fl < 0.99
    requires p.open == p.close * fo && p.high == p.close * fh && p.low == p.close * fl
    ensures p.low < p.open < p.high
    ensures p.low < p.close < p.high
  {
    ScaleLess(p.close, fl, fo);
    ScaleLess(p.close, fo, fh);
    ScaleLess(p.close, fl, 1.0);
    ScaleLess(p.close, 1.0, fh);
  }

  /** Every mock table price is positive, so every base price the service uses is too. */
  lemma MockBasePricePositive(loadedAt: string, symbol: string)
    ensures BasePrice(MockStocks(loadedAt), symbol) > 0.0
  {
  }

  /**
   * `getChartData`: one point per day from `days` days ago up to today, oldest first.
   * `daysAgo(i)` is the timestamp of the date `i` days before now; `random(k)` holds the
   * draws of the `k`-th point.
   */
  method GetChartData(table: map<string, Stock>, symbol: string, timeframe: string,
                      daysAgo: nat -> string, random: nat -> Draw)
    returns (data: seq<ChartData>)
    ensures |data| == ChartDays(timeframe) + 1
    ensures forall k :: 0 <= k < |data| ==>
      data[k] == ChartPoint(BasePrice(table, symbol), random(k), daysAgo(ChartDays(timeframe) - k))
    ensures forall k :: 0 <= k < |data| ==> data[k].timestamp == daysAgo(ChartDays(timeframe) - k)
  {
    data := [];
    var days := ChartDays(timeframe);
    var i: int := days;
    while i >= 0
      invariant -1 <= i <= days
      invariant |data| == days - i
      invariant forall k :: 0 <= k < |data| ==>
        data[k] == ChartPoint(BasePrice(table, symbol), random(k), daysAgo(days - k))
    {
      var basePrice := BasePrice(table, symbol);
      data := data + [ChartPoint(basePrice, random(days - i), daysAgo(i))];
      i := i - 1;
    }
  }

  /** `getMarketIndices`: the fixed list of three indices. */
  const MockIndices: seq<MarketIndex> := [
    MarketIndex("^GSPC", "S&P 500", 4567.89, 23.45, 0.52),
    MarketIndex("^DJI", "Dow Jones", 34567.12, -45.67, -0.13),
    MarketIndex("^IXIC", "NASDAQ", 14234.56, 67.89, 0.48) ]
}
