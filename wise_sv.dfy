/** Wise quotes to El Salvador, a dollarized country: no conversion, only a fee (wise_scraper_SV.py). */
module WiseSV {
  import opened Estimates

  /** The fee chain; each band's upper bound is inclusive. */
  function Fee(amount: real): (fee: real)
    ensures 2.50 <= fee <= 15.00
  {
    if amount <= 100.0 then 2.50
    else if amount <= 300.0 then 4.00
    else if amount <= 500.0 then 6.00
    else if amount <= 1000.0 then 10.00
    else 15.00
  }

  lemma FeeNonDecreasing(a: real, b: real)
    requires a <= b
    ensures Fee(a) <= Fee(b)
  {
  }

  /**
   * Specification of `get_estimate`: no rate is fetched, so the estimate
   * cannot fail. The recipient gets the amount minus the fee, negative when
   * the fee exceeds the amount.
   */
  function Estimate(origin: string, destination: string, amount: real): (p: Payout)
    ensures p.provider == "Wise" && p.origin == origin && p.destination == destination
    ensures p.originCurrency == "USD" && p.destinationCurrency == "USD" && p.exchangeRate == 1.0
    ensures p.sendAmount == amount && p.fee == Fee(amount)
    ensures p.recipientGets + p.fee == amount
    ensures p.recipientGets < 0.0 <==> amount < p.fee
    ensures amount > 0.0 ==> p.effectiveRate == 1.0 - p.fee / amount && p.effectiveRate < 1.0
    ensures amount <= 0.0 ==> p.effectiveRate == 0.0
    ensures p.corridor == origin + "-" + destination
  {
    var fee := Fee(amount);
    var recipientGets := amount - fee;
    EffectiveRateOfDeduction(amount, fee, 1.0);
    Payout("Wise", origin, destination, "USD", "USD", amount, fee, 1.0,
      recipientGets, EffectiveRate(recipientGets, amount), origin + "-" + destination)
  }
}
