/** Remitly quotes to El Salvador, a dollarized country: no conversion, only a fee (remitly_scraper_SV.py). */
module RemitlySV {
  import opened Estimates

  /** A flat fee for every amount. */
  const FlatFee: real := 3.99

  /**
   * Specification of `get_estimate`: no rate is fetched, so the estimate
   * cannot fail. The recipient gets the amount minus the fee, negative when
   * the fee exceeds the amount.
   */
  function Estimate(origin: string, destination: string, amount: real): (p: Payout)
    ensures p.provider == "Remitly" && p.origin == origin && p.destination == destination
    ensures p.originCurrency == "USD" && p.destinationCurrency == "USD" && p.exchangeRate == 1.0
    ensures p.sendAmount == amount && p.fee == FlatFee
    ensures p.recipientGets + p.fee == amount
    ensures p.recipientGets < 0.0 <==> amount < p.fee
    ensures amount > 0.0 ==> p.effectiveRate == 1.0 - p.fee / amount && p.effectiveRate < 1.0
    ensures amount <= 0.0 ==> p.effectiveRate == 0.0
    ensures p.corridor == origin + "-" + destination
  {
    var fee := FlatFee;
    var recipientGets := amount - fee;
    EffectiveRateOfDeduction(amount, fee, 1.0);
    Payout("Remitly", origin, destination, "USD", "USD", amount, fee, 1.0,
      recipientGets, EffectiveRate(recipientGets, amount), origin + "-" + destination)
  }
}
