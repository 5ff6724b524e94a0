/** Remitly quotes to the Dominican Republic on the live USD/DOP rate (remitly_scraper_DO.py). */
module RemitlyDO {
  import opened Wrappers
  import opened Estimates

  /** Remitly passes on 97.5% of the market rate. */
  const RateFactor: real := 0.975

  /** The fee chain; each band's upper bound is inclusive. */
  function Fee(amount: real): (fee: real)
    ensures fee == 3.99
  {
    if amount <= 100.0 then 3.99
    else if amount <= 300.0 then 3.99
    else if amount <= 500.0 then 3.99
    else if amount <= 1000.0 then 3.99
    else 3.99
  }

  /**
   * Specification of `get_estimate`: `None` exactly when the rate service
   * fails; otherwise the fee is taken out before conversion at the marked-up
   * rate.
   */
  function Estimate(origin: string, destination: string, amount: real, service: RateService): (r: Option<Payout>)
    ensures r.None? <==> service("DOP", amount).None?
    ensures r.Some? ==>
      var p := r.value;
      && p.provider == "Remitly" && p.origin == origin && p.destination == destination
      && p.originCurrency == "USD" && p.destinationCurrency == "DOP"
      && p.sendAmount == amount && p.fee == Fee(amount)
      && p.exchangeRate == RateFactor * service("DOP", amount).value.rate
      && p.recipientGets == (amount - p.fee) * p.exchangeRate
      && (amount > 0.0 ==> p.effectiveRate == p.exchangeRate * (1.0 - p.fee / amount))
      && (amount > 0.0 && p.exchangeRate > 0.0 ==> p.effectiveRate < p.exchangeRate)
      && (amount <= 0.0 ==> p.effectiveRate == 0.0)
      && p.corridor == origin + "-" + destination
  {
    match service("DOP", amount)
    case None => None
    case Some(reply) =>
      var rate := reply.rate * RateFactor;
      var fee := Fee(amount);
      var recipientGets := (amount - fee) * rate;
      EffectiveRateOfDeduction(amount, fee, rate);
      Some(Payout("Remitly", origin, destination, "USD", "DOP", amount, fee, rate,
        recipientGets, EffectiveRate(recipientGets, amount), origin + "-" + destination))
  }
}
