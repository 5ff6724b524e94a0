/** Remitly quotes to Mexico on the live USD/MXN rate (remitly_scraper_MX.py). */
module RemitlyMX {
  import opened Wrappers
  import opened Estimates

  /** Remitly passes on 97.5% of the market rate. */
  const RateFactor: real := 0.975

  /** A flat fee for every amount. */
  const FlatFee: real := 3.99

  /**
   * Specification of `get_estimate`: `None` exactly when the rate service
   * fails; otherwise the flat fee is taken out before conversion at the
   * marked-up rate.
   */
  function Estimate(origin: string, destination: string, amount: real, service: RateService): (r: Option<Payout>)
    ensures r.None? <==> service("MXN", amount).None?
    ensures r.Some? ==>
      var p := r.value;
      && p.provider == "Remitly" && p.origin == origin && p.destination == destination
      && p.originCurrency == "USD" && p.destinationCurrency == "MXN"
      && p.sendAmount == amount && p.fee == FlatFee
      && p.exchangeRate == RateFactor * service("MXN", amount).value.rate
      && p.recipientGets == (amount - FlatFee) * p.exchangeRate
      && (amount > 0.0 ==> p.effectiveRate == p.exchangeRate * (1.0 - FlatFee / amount))
      && (amount > 0.0 && p.exchangeRate > 0.0 ==> p.effectiveRate < p.exchangeRate)
      && (amount <= 0.0 ==> p.effectiveRate == 0.0)
      && p.corridor == origin + "-" + destination
  {
    match service("MXN", amount)
    case None => None
    case Some(reply) =>
      var rate := reply.rate * RateFactor;
      var recipientGets := (amount - FlatFee) * rate;
      EffectiveRateOfDeduction(amount, FlatFee, rate);
      Some(Payout("Remitly", origin, destination, "USD", "MXN", amount, FlatFee, rate,
        recipientGets, EffectiveRate(recipientGets, amount), origin + "-" + destination))
  }
}
