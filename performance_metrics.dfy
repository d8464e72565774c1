/**
 * The performance cards (src/components/investments/performance-metrics.tsx):
 * the current value at the given prices, the gain over the amount
 * invested, and the return rate.
 */
module PerformanceMetrics {
  import opened Wrappers
  import opened Types
  import opened Sums
  import opened Holdings
  import opened Growth

  /**
   * `currentPrices?.[symbol || name] || purchase_price`: the quoted price,
   * unless there are no quotes, the key is not quoted, or the quote is 0
   * (falsy), in which case the purchase price.
   */
  function CurrentPrice(inv: Investment, prices: Option<map<string, real>>): (p: real)
    ensures prices.Some? && Key(inv) in prices.value && prices.value[Key(inv)] != 0.0 ==> p == prices.value[Key(inv)]
    ensures prices.None? || Key(inv) !in prices.value || prices.value[Key(inv)] == 0.0 ==> p == inv.purchasePrice
  {
    match prices
    case None => inv.purchasePrice
    case Some(m) => if Key(inv) in m && m[Key(inv)] != 0.0 then m[Key(inv)] else inv.purchasePrice
  }

  /** `inv.quantity * currentPrice` as a function of the holding. */
  function MarketValue(prices: Option<map<string, real>>): Investment -> real
  {
    (inv: Investment) => inv.quantity * CurrentPrice(inv, prices)
  }

  /** What the three cards show. */
  datatype Metrics = Metrics(currentValue: real, totalGain: real, percentageGain: real, gainUp: bool, rateUp: bool)

  function MetricsOf(investments: seq<Investment>, prices: Option<map<string, real>>): (m: Metrics)
    ensures m.totalGain == m.currentValue - TotalInvested(investments)
    ensures m.currentValue == Sum(investments, MarketValue(prices))
    ensures m.percentageGain == GrowthRate(m.currentValue, TotalInvested(investments))
    ensures m.gainUp <==> m.totalGain >= 0.0
    ensures m.rateUp <==> m.percentageGain >= 0.0
  {
    var invested := TotalInvested(investments);
    var current := Sum(investments, MarketValue(prices));
    var gain := current - invested;
    var rate := GrowthRate(current, invested);
    Metrics(current, gain, rate, gain >= 0.0, rate >= 0.0)
  }

  /** Without quotes every holding is valued at its purchase price: no gain, rate 0. */
  lemma NoPricesNoGain(investments: seq<Investment>)
    ensures MetricsOf(investments, None).currentValue == TotalInvested(investments)
    ensures MetricsOf(investments, None).totalGain == 0.0
    ensures MetricsOf(investments, None).percentageGain == 0.0
  {
    SumEqual(investments, MarketValue(None), Value);
  }

  /**
   * The two arrows agree whenever something was invested; with nothing
   * invested the rate is 0 and its arrow points up.
   */
  lemma ArrowsAgree(investments: seq<Investment>, prices: Option<map<string, real>>)
    ensures TotalInvested(investments) != 0.0 ==> MetricsOf(investments, prices).rateUp == MetricsOf(investments, prices).gainUp
    ensures TotalInvested(investments) == 0.0 ==> MetricsOf(investments, prices).rateUp
  {
  }

  /**
   * Holdings of non-negative quantity whose quotes are at least their
   * purchase prices show a gain that is not negative.
   */
  lemma RisingPricesGain(investments: seq<Investment>, prices: map<string, real>)
    requires forall inv :: inv in investments ==> inv.quantity >= 0.0
    requires forall inv :: inv in investments && Key(inv) in prices ==> prices[Key(inv)] == 0.0 || prices[Key(inv)] >= inv.purchasePrice
    ensures MetricsOf(investments, Some(prices)).totalGain >= 0.0
  {
    forall inv | inv in investments
      ensures Value(inv) <= MarketValue(Some(prices))(inv)
    {
      ScaleUp(inv.quantity, inv.purchasePrice, CurrentPrice(inv, Some(prices)));
    }
    SumMonotone(investments, Value, MarketValue(Some(prices)));
  }

  lemma ScaleUp(q: real, a: real, b: real)
    requires q >= 0.0 && a <= b
    ensures q * a <= q * b
  {
  }
}
