/** The value types of the trading terminal: symbols, sides, statuses and the
    records that flow between the price feed, the ledger and the AI agent. */
module Types {

  datatype Option<+T> = None | Some(value: T)

  /** The four tradeable coins; a closed set for the whole session. */
  datatype CoinSymbol = BTC | ETH | SOL | DOGE

  datatype OrderSide = BUY | SELL

  /** Only FILLED is ever produced by the engine; the other two are declared but unused. */
  datatype OrderStatus = PENDING | FILLED | CANCELLED

  /** A number as JavaScript computes it: finite, or the NaN / Infinity that a
      division by zero yields. Only the average entry price can become non-finite. */
  datatype EntryPrice = Finite(value: real) | NotFinite

  /** An immutable fill record. The id is a fresh counter value and the
      timestamp is supplied by the caller in place of a clock reading. */
  datatype Order = Order(
    id: nat,
    symbol: CoinSymbol,
    side: OrderSide,
    price: real,
    amount: real,
    total: real,
    timestamp: int,
    status: OrderStatus,
    isAiTriggered: bool,
    reason: Option<string>)

  datatype Asset = Asset(symbol: CoinSymbol, balance: real, averageEntryPrice: EntryPrice)

  datatype Portfolio = Portfolio(cashBalance: real, assets: map<CoinSymbol, Asset>)

  /** One chart point: an opaque time label (a formatted clock minute) and a price. */
  datatype PricePoint = PricePoint(time: string, price: real)

  datatype MarketData = MarketData(symbol: CoinSymbol, price: real, change24h: real, history: seq<PricePoint>)

  /** What the decision policy may propose: a trade on one side, or HOLD. */
  datatype AiAction = Trade(side: OrderSide) | HOLD

  datatype AiDecision = AiDecision(action: AiAction, confidence: real, reason: string, suggestedAmount: Option<real>)
}
