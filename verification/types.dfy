/**
 * The application's record shapes (`src/types/index.ts`). Prices, quantities and money
 * amounts are exact reals; timestamps and ids are the strings the source stores.
 */
module Types {
  import opened Common

  datatype Stock = Stock(
    symbol: string,
    name: string,
    price: real,
    change: real,
    changePercent: real,
    volume: int,
    marketCap: int,
    peRatio: Option<real>,
    dividendYield: Option<real>,
    high52Week: real,
    low52Week: real,
    lastUpdated: string)

  datatype Portfolio = Portfolio(
    id: string,
    name: string,
    totalValue: real,
    totalGainLoss: real,
    totalGainLossPercent: real,
    positions: seq<Position>,
    createdAt: string,
    updatedAt: string)

  datatype Position = Position(
    id: string,
    symbol: string,
    quantity: real,
    averagePrice: real,
    currentPrice: real,
    totalValue: real,
    gainLoss: real,
    gainLossPercent: real,
    purchaseDate: string)

  datatype Watchlist = Watchlist(
    id: string,
    name: string,
    stocks: seq<string>,
    createdAt: string,
    updatedAt: string)

  datatype MarketNews = MarketNews(
    id: string,
    title: string,
    summary: string,
    url: string,
    source: string,
    publishedAt: string,
    imageUrl: Option<string>,
    relatedSymbols: seq<string>)

  datatype ChartData = ChartData(
    timestamp: string,
    open: real,
    high: real,
    low: real,
    close: real,
    volume: int)

  datatype MarketIndex = MarketIndex(
    symbol: string,
    name: string,
    value: real,
    change: real,
    changePercent: real)

  datatype User = User(
    id: string,
    email: string,
    name: string,
    avatar: Option<string>,
    preferences: UserPreferences,
    createdAt: string)

  /** `'light' | 'dark' | 'auto'` */
  datatype Theme = Light | Dark | Auto

  datatype UserPreferences = UserPreferences(
    theme: Theme,
    currency: string,
    notifications: NotificationSettings,
    defaultWatchlist: Option<string>)

  datatype NotificationSettings = NotificationSettings(
    priceAlerts: bool,
    newsAlerts: bool,
    portfolioUpdates: bool,
    marketOpen: bool,
    marketClose: bool)

  /** `'above' | 'below'`, the alert's `type` field. */
  datatype AlertKind = Above | Below

  datatype PriceAlert = PriceAlert(
    id: string,
    symbol: string,
    kind: AlertKind,
    targetPrice: real,
    currentPrice: real,
    isActive: bool,
    createdAt: string)

  /** `'stock' | 'etf' | 'mutual_fund'`, the search result's `type` field. */
  datatype SecurityType = StockSecurity | EtfSecurity | MutualFundSecurity

  datatype SearchResult = SearchResult(
    symbol: string,
    name: string,
    kind: SecurityType,
    exchange: string)
}
