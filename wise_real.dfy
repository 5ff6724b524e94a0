/** Wise quotes built on the live market rate (wise_scraper_real.py). */
module WiseReal {
  import opened Wrappers
  import opened Estimates
  import WiseEstimator

  const CurrencyMap: map<string, string> :=
    map["MX" := "MXN", "VE" := "VES", "CO" := "COP", "PE" := "PEN", "BR" := "BRL", "CL" := "CLP", "AR" := "ARS"]

  /** The currency asked of the rate service; a destination outside the map is quoted in MXN. */
  function TargetCurrency(destination: string): (c: string)
    ensures destination !in CurrencyMap ==> c == "MXN"
  {
    if destination in CurrencyMap then CurrencyMap[destination] else "MXN"
  }

  /**
   * Specification of `get_estimate`: Wise charges its usual fee formula (the
   * same bands as `calculate_wise_fee`) and passes the service's rate and
   * converted amount through untouched.
   */
  function Estimate(origin: string, destination: string, amount: real, service: RateService): (r: Estimate)
    ensures r.RateFetchFailed? <==> service(TargetCurrency(destination), amount).None?
    ensures r.Estimated? ==>
      var reply := service(TargetCurrency(destination), amount).value;
      var q := r.quote;
      && q.provider == "Wise" && q.sendAmount == amount
      && q.fee == WiseEstimator.CalculateWiseFee(amount)
      && (amount >= 0.0 ==> q.fee >= 1.50)
      && q.exchangeRate == reply.rate
      && q.recipientReceives == reply.converted
      && q.totalCost == amount + q.fee
  {
    match service(TargetCurrency(destination), amount)
    case None => RateFetchFailed
    case Some(reply) =>
      var fee := WiseEstimator.CalculateWiseFee(amount);
      Estimated(Quote("Wise", origin, destination, amount, fee, reply.rate, amount + fee, reply.converted,
        "1-2 days", "Bank transfer", "REAL (ExchangeRate-API)", "Real exchange rate + Wise fee structure"))
  }

  /** One estimate per requested corridor, in order; missing keys default to US, MX and 500.0. */
  method CompareCorridors(corridors: seq<CorridorRequest>, service: RateService) returns (results: seq<Estimate>)
    ensures |results| == |corridors|
    ensures forall i :: 0 <= i < |corridors| ==>
      results[i] == Estimate(corridors[i].origin.GetOr("US"), corridors[i].destination.GetOr("MX"), corridors[i].amount.GetOr(500.0), service)
  {
    results := [];
    for i := 0 to |corridors|
      invariant |results| == i
      invariant forall j :: 0 <= j < i ==>
        results[j] == Estimate(corridors[j].origin.GetOr("US"), corridors[j].destination.GetOr("MX"), corridors[j].amount.GetOr(500.0), service)
    {
      var c := corridors[i];
      results := results + [Estimate(c.origin.GetOr("US"), c.destination.GetOr("MX"), c.amount.GetOr(500.0), service)];
    }
  }
}
