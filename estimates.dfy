/**
 * Shapes shared by the per-provider quote estimators: the exchange-rate service
 * they call, the quote they return, and the corridor requests of
 * `compare_corridors`.
 */
module Estimates {
  import opened Wrappers

  /** A successful answer of the exchange-rate service: the market rate and the converted amount. */
  datatype RateReply = RateReply(rate: real, converted: real)

  /**
   * The exchange-rate service (`ExchangeRateScraper.get_rate("USD", currency, amount)`,
   * a network call), seen as a function of the target currency and the amount;
   * `None` stands for a reply whose `success` is false.
   */
  type RateService = (string, real) -> Option<RateReply>

  /** A quote in the shape the store accepts (`success: True` plus these fields). */
  datatype Quote = Quote(
    provider: string,
    origin: string,
    destination: string,
    sendAmount: real,
    fee: real,
    exchangeRate: real,
    totalCost: real,
    recipientReceives: real,
    estimatedDelivery: string,
    deliveryMethod: string,
    dataSource: string,
    note: string)

  /** `{"success": True, ...}` or `{"success": False, "error": "Rate fetch failed"}`. */
  datatype Estimate = Estimated(quote: Quote) | RateFetchFailed

  /** The payout shape of the single-country estimators: the fee is deducted before conversion. */
  datatype Payout = Payout(
    provider: string,
    origin: string,
    destination: string,
    originCurrency: string,
    destinationCurrency: string,
    sendAmount: real,
    fee: real,
    exchangeRate: real,
    recipientGets: real,
    effectiveRate: real,
    corridor: string)

  /** One element of the list given to `compare_corridors`; each key may be missing. */
  datatype CorridorRequest = CorridorRequest(origin: Option<string>, destination: Option<string>, amount: Option<real>)

  /** `recipient_gets / amount if amount > 0 else 0`. */
  function EffectiveRate(recipientGets: real, amount: real): real {
    if amount > 0.0 then recipientGets / amount else 0.0
  }

  /**
   * When the fee is taken out of the amount before conversion, the effective
   * rate is the quoted rate scaled by the share of the amount that is
   * converted, and so it is below the quoted rate whenever the fee is positive.
   */
  lemma EffectiveRateOfDeduction(amount: real, fee: real, rate: real)
    ensures amount > 0.0 ==> EffectiveRate((amount - fee) * rate, amount) == rate * (1.0 - fee / amount)
    ensures amount > 0.0 && fee > 0.0 && rate > 0.0 ==> EffectiveRate((amount - fee) * rate, amount) < rate
  {
    if amount <= 0.0 {
      return;
    }
    var share := 1.0 - fee / amount;
    assert fee / amount * amount == fee;
    assert (amount - fee) * rate == share * rate * amount;
    assert (amount - fee) * rate / amount == share * rate;
    if fee > 0.0 && rate > 0.0 {
      assert fee / amount > 0.0;
      assert rate * (fee / amount) > 0.0;
    }
  }
}
