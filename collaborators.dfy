/**
 * The collaborators the trading-step engine drives but does not own: the
 * per-instrument position ledger and the market data provider. Both are
 * deterministic, so each is given as a record of total functions; the
 * engine only calls them and reads the figures they expose.
 */
module Collaborators {

  /** An instrument code, as the market data provider indexes it. */
  type Code = string

  /** A trading date, as it appears in the episode's date list. */
  type Date = string

  /**
   * One instrument's position as the ledger exposes it to the environment.
   * `holdings` stands for the ledger's own bookkeeping (share count, cost
   * basis, ...), which the environment never reads.
   */
  datatype Position = Position(
    marketValue: real,
    dailyPnl: real,
    pnl: real,
    transactionCost: real,
    allTransactionCost: real,
    dailyReturn: real,
    valuePercent: real,
    holdings: seq<real>)

  /** A limit order for instrument `index`: the limit price and the target portfolio weight. */
  datatype Order = Order(index: nat, price: real, target: real)

  /**
   * What the ledger's sell or buy leaves behind: the updated position, the
   * updated cash balance, the cash delta it reports and whether it filled.
   */
  datatype Fill = Fill(position: Position, cash: real, cashChange: real, filled: bool)

  /**
   * The position ledger.
   *  - beforeTrade(position, divideRate): dividend/split adjustment;
   *  - sell/buy(order, position, cash, portfolioValue): one order against one position;
   *  - afterTrade(position, closePrice, cashChange, prePortfolioValue): end-of-day bookkeeping;
   *  - updateValuePercent(position, portfolioValue): the position's share of the portfolio.
   */
  datatype Ledger = Ledger(
    beforeTrade: (Position, real) -> Position,
    sell: (Order, Position, real, real) -> Fill,
    buy: (Order, Position, real, real) -> Fill,
    afterTrade: (Position, real, real, real) -> Position,
    updateValuePercent: (Position, real) -> Position)

  /**
   * The market data provider: previous close, close and dividend/split
   * ratio per instrument and date, and the market feature row of a date.
   */
  datatype Market = Market(
    preClose: (Code, Date) -> real,
    close: (Code, Date) -> real,
    divideRate: (Code, Date) -> real,
    info: Date -> seq<real>,
    infoSize: nat)

  /** Every date's market feature row has the same width, so rows stack into a window. */
  ghost predicate FixedWidth(m: Market)
  {
    forall d :: |m.info(d)| == m.infoSize
  }

  /** One call the environment makes on the ledger, as recorded in its call log. */
  datatype Call =
    | BeforeTrade(index: nat, divideRate: real)
    | Sell(order: Order)
    | Buy(order: Order)
    | AfterTrade(index: nat, closePrice: real, cashChange: real, prePortfolioValue: real)
    | UpdateValuePercent(index: nat, portfolioValue: real)
}
