/** The ticker's price table (pricing/price.py:33-58): one quote per currency pair, each
    side absent until the first tick of the pair arrives. */
module Pricing {
  import opened Wrappers

  datatype Quote = Quote(bid: Option<real>, ask: Option<real>)

  type Prices = map<string, Quote>

  datatype PositionType = Long | Short

  predicate Quoted(prices: Prices, pair: string) {
    pair in prices && prices[pair].bid.Some? && prices[pair].ask.Some?
  }

  /** Every pair of the ticker has both sides (portfolio/portfolio.py:147-151). */
  ghost predicate AllQuoted(prices: Prices) {
    forall pair <- prices :: Quoted(prices, pair)
  }

  /** The price at which units of the given side are bought into. */
  function EntryQuote(side: PositionType, pair: string, prices: Prices): real
    requires Quoted(prices, pair)
  {
    if side == Long then prices[pair].ask.value else prices[pair].bid.value
  }

  /** The price at which units of the given side are sold out of. */
  function ExitQuote(side: PositionType, pair: string, prices: Prices): real
    requires Quoted(prices, pair)
  {
    if side == Long then prices[pair].bid.value else prices[pair].ask.value
  }

  /** Python's pair[3:]. */
  function QuoteCurrency(pair: string): string {
    if |pair| >= 3 then pair[3..] else ""
  }

  /** The pair that converts profit in the quote currency to the account's currency. */
  function ConversionPair(pair: string, base: string): string {
    QuoteCurrency(pair) + base
  }

  predicate SameCurrency(pair: string, base: string) {
    QuoteCurrency(pair) == base
  }

  /** A position in the pair can be valued: its own quote is there and, unless the account
      is held in the quote currency, so is the conversion pair's. */
  predicate Valuable(pair: string, base: string, prices: Prices) {
    Quoted(prices, pair) && (SameCurrency(pair, base) || Quoted(prices, ConversionPair(pair, base)))
  }

  /** The rate used to value and to close a position (portfolio/position.py:49-56, 107-116). */
  function ConversionRate(side: PositionType, pair: string, base: string, prices: Prices): real
    requires Valuable(pair, base, prices)
  {
    if SameCurrency(pair, base) then 1.0 else ExitQuote(side, ConversionPair(pair, base), prices)
  }
}
