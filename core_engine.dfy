/**
 * The ledger and market types the core exchanges. Their declaring file is not
 * part of this model; they are declared from the way the core constructs and
 * reads them.
 */
module CoreEngine {
  import opened Wrappers

  /** A wall-clock reading; the core only stores and forwards it. */
  type Timestamp = int

  datatype OrderSide = Buy | Sell

  datatype PositionSide = Long | Short

  /** One (price, quantity) level of an order book. */
  datatype BookLevel = BookLevel(price: real, qty: real)

  datatype Position = Position(symbol: string, side: PositionSide, size: real, entryPrice: real)

  /** An executed fill, as appended to the trade log. */
  datatype Trade = Trade(timestamp: Timestamp, symbol: string, side: OrderSide, price: real,
                         size: real, pnl: real, commission: real)

  datatype RiskMetrics = RiskMetrics(highWaterMark: real, currentDrawdown: real)

  /** The ledger. historicalData maps a timeframe ("1m", ..., "1h") to its series
      of closing prices, oldest first. */
  datatype TradingState = TradingState(
    walletBalance: real,
    positions: map<string, Position>,
    trades: seq<Trade>,
    totalPnl: real,
    riskMetrics: RiskMetrics,
    historicalData: map<string, seq<real>>,
    timestamp: Timestamp)

  /** A normalized market snapshot; spread is the relative spread in basis points. */
  datatype MarketData = MarketData(
    timestamp: Timestamp,
    symbol: string,
    price: real,
    bid: real,
    ask: real,
    spread: real,
    top5Bids: seq<BookLevel>,
    top5Asks: seq<BookLevel>,
    tradeVolume: real)

  datatype Decision = Waiting | LongEntry | ShortEntry

  /** details maps a retained timeframe to its prediction in percent. */
  datatype PredictionSignal = PredictionSignal(
    timestamp: Timestamp,
    symbol: string,
    fusedPredictionPct: real,
    confidence: real,
    decision: Decision,
    details: map<string, real>)
}
