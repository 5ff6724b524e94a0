/** Wise quotes from a built-in rate table with random jitter (wise_scraper.py). */
module WiseEstimator {
  import opened Wrappers
  import opened Estimates

  /**
   * `calculate_wise_fee`: a percentage plus a fixed part, both depending on
   * the band the amount falls in; each band's upper bound is inclusive.
   */
  function CalculateWiseFee(amount: real): (fee: real)
    ensures amount >= 0.0 ==> fee >= 1.50
    ensures amount >= 0.0 ==> 0.006 * amount + 1.50 <= fee <= 0.015 * amount + 5.00
  {
    if amount <= 100.0 then amount * 0.015 + 1.50
    else if amount <= 1000.0 then amount * 0.01 + 2.00
    else if amount <= 5000.0 then amount * 0.008 + 3.00
    else amount * 0.006 + 5.00
  }

  /** The bands meet at 100 (both give 3.00), but the fee falls when an amount crosses 1000 or 5000. */
  lemma FeeBandBoundaries()
    ensures CalculateWiseFee(100.0) == 3.00 && CalculateWiseFee(101.0) > 3.00
    ensures CalculateWiseFee(1000.0) == 12.00 && CalculateWiseFee(1001.0) < 12.00
    ensures CalculateWiseFee(5000.0) == 43.00 && CalculateWiseFee(5001.0) < 43.00
  {
  }

  const ExchangeRates: map<string, real> := map["MX" := 20.45, "VE" := 36.90, "CO" := 4180.0, "PE" := 3.80, "BR" := 5.18]

  /** The table rate for a destination; an unknown destination gets 1.0. */
  function BaseRate(destination: string): (r: real)
    ensures destination !in ExchangeRates ==> r == 1.0
  {
    if destination in ExchangeRates then ExchangeRates[destination] else 1.0
  }

  /** The largest random deviation from the table rate. */
  const MaxJitter: real := 0.05

  /**
   * Specification of `get_estimate`; `jitter` is the value `random.uniform`
   * draws, so it lies within the jitter bound. The estimate never fails.
   */
  function Estimate(origin: string, destination: string, amount: real, jitter: real): (q: Quote)
    requires -MaxJitter <= jitter <= MaxJitter
    ensures q.provider == "Wise" && q.origin == origin && q.destination == destination && q.sendAmount == amount
    ensures q.fee == CalculateWiseFee(amount)
    ensures BaseRate(destination) - MaxJitter <= q.exchangeRate <= BaseRate(destination) + MaxJitter
    ensures q.recipientReceives == amount * q.exchangeRate
    ensures q.totalCost == amount + q.fee
    ensures q.estimatedDelivery == "1-2 days" <==> amount < 5000.0
    ensures q.estimatedDelivery != "1-2 days" ==> q.estimatedDelivery == "2-3 days"
  {
    var fee := CalculateWiseFee(amount);
    var rate := BaseRate(destination) + jitter;
    Quote("Wise", origin, destination, amount, fee, rate, amount + fee, amount * rate,
      if amount < 5000.0 then "1-2 days" else "2-3 days",
      "Bank transfer", "calculated_estimate", "Based on Wise mid-market rates")
  }

  /**
   * One estimate per requested corridor, in order, with defaults US, MX and
   * 500.0; `jitters[i]` is the random draw of the i-th call.
   */
  method CompareCorridors(corridors: seq<CorridorRequest>, jitters: seq<real>) returns (results: seq<Quote>)
    requires |jitters| == |corridors|
    requires forall i :: 0 <= i < |jitters| ==> -MaxJitter <= jitters[i] <= MaxJitter
    ensures |results| == |corridors|
    ensures forall i :: 0 <= i < |corridors| ==>
      results[i] == Estimate(corridors[i].origin.GetOr("US"), corridors[i].destination.GetOr("MX"), corridors[i].amount.GetOr(500.0), jitters[i])
  {
    results := [];
    for i := 0 to |corridors|
      invariant |results| == i
      invariant forall j :: 0 <= j < i ==>
        results[j] == Estimate(corridors[j].origin.GetOr("US"), corridors[j].destination.GetOr("MX"), corridors[j].amount.GetOr(500.0), jitters[j])
    {
      var c := corridors[i];
      results := results + [Estimate(c.origin.GetOr("US"), c.destination.GetOr("MX"), c.amount.GetOr(500.0), jitters[i])];
    }
  }
}
