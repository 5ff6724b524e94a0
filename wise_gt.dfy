/** Wise quotes to Guatemala on the live USD/GTQ rate (wise_scraper_GT.py). */
module WiseGT {
  import opened Wrappers
  import opened Estimates

  /** The percentage charged in each band; each band's upper bound is inclusive. */
  function BandPercent(amount: real): (p: real)
    ensures 0.005 <= p <= 0.008
    ensures amount <= 500.0 ==> p == 0.008
    ensures amount > 5000.0 ==> p == 0.005
  {
    if amount <= 500.0 then 0.008
    else if amount <= 1000.0 then 0.007
    else if amount <= 5000.0 then 0.006
    else 0.005
  }

  const MinimumFee: real := 3.00

  /** The band percentage of the amount, raised to the 3.00 minimum. */
  function Fee(amount: real): (fee: real)
    ensures fee >= MinimumFee
    ensures fee >= amount * BandPercent(amount)
    ensures fee == MinimumFee || fee == amount * BandPercent(amount)
  {
    var fee := amount * BandPercent(amount);
    if fee < MinimumFee then MinimumFee else fee
  }

  /** Every amount up to 375 pays exactly the minimum, since 0.8% of 375 is 3.00. */
  lemma SmallAmountsPayMinimum(amount: real)
    requires amount <= 375.0
    ensures Fee(amount) == MinimumFee
  {
  }

  /**
   * Specification of `get_estimate`: the rate is always fetched for GTQ and
   * passed on without markup.
   */
  function Estimate(origin: string, destination: string, amount: real, service: RateService): (r: Estimate)
    ensures r.RateFetchFailed? <==> service("GTQ", amount).None?
    ensures r.Estimated? ==>
      var q := r.quote;
      && q.provider == "Wise" && q.sendAmount == amount
      && q.fee == Fee(amount) && q.fee >= MinimumFee
      && q.exchangeRate == service("GTQ", amount).value.rate
      && q.recipientReceives == amount * q.exchangeRate
      && q.totalCost == amount + q.fee
  {
    match service("GTQ", amount)
    case None => RateFetchFailed
    case Some(reply) =>
      var fee := Fee(amount);
      Estimated(Quote("Wise", origin, destination, amount, fee, reply.rate, amount + fee, amount * reply.rate,
        "1-2 business days", "Bank transfer", "REAL mid-market rate", "Real mid-market rate + low percentage fee"))
  }

  /** One estimate per requested corridor, in order; missing keys default to US, GT and 500.0. */
  method CompareCorridors(corridors: seq<CorridorRequest>, service: RateService) returns (results: seq<Estimate>)
    ensures |results| == |corridors|
    ensures forall i :: 0 <= i < |corridors| ==>
      results[i] == Estimate(corridors[i].origin.GetOr("US"), corridors[i].destination.GetOr("GT"), corridors[i].amount.GetOr(500.0), service)
  {
    results := [];
    for i := 0 to |corridors|
      invariant |results| == i
      invariant forall j :: 0 <= j < i ==>
        results[j] == Estimate(corridors[j].origin.GetOr("US"), corridors[j].destination.GetOr("GT"), corridors[j].amount.GetOr(500.0), service)
    {
      var c := corridors[i];
      results := results + [Estimate(c.origin.GetOr("US"), c.destination.GetOr("GT"), c.amount.GetOr(500.0), service)];
    }
  }
}
