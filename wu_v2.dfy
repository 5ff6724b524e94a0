/** Western Union quotes from a built-in rate table with random jitter (core/wu_scraper_v2.py). */
module WesternUnionV2 {
  import opened Wrappers
  import opened FeeTiers
  import opened Estimates
  import WesternUnionReal

  const ExchangeRates: map<string, real> := map["MX" := 20.15, "VE" := 36.50, "CO" := 4100.0, "PE" := 3.75, "BR" := 5.10]

  /** The table rate for a destination; an unknown destination gets 1.0. */
  function BaseRate(destination: string): (r: real)
    ensures destination !in ExchangeRates ==> r == 1.0
  {
    if destination in ExchangeRates then ExchangeRates[destination] else 1.0
  }

  /** The largest random deviation from the table rate. */
  const MaxJitter: real := 0.05

  // The fee table is the one of the live-rate Western Union quote (WesternUnionReal.FeeStructure).

  /**
   * Specification of `get_estimate`; `jitter` is the value `random.uniform`
   * draws, so it lies within the jitter bound. The estimate never fails.
   */
  function Estimate(origin: string, destination: string, amount: real, jitter: real): (q: Quote)
    requires -MaxJitter <= jitter <= MaxJitter
    ensures q.provider == "Western Union" && q.origin == origin && q.destination == destination && q.sendAmount == amount
    ensures q.fee == WesternUnionReal.ScheduleFee(amount)
    ensures BaseRate(destination) - MaxJitter <= q.exchangeRate <= BaseRate(destination) + MaxJitter
    ensures q.recipientReceives == amount * q.exchangeRate
    ensures q.totalCost == amount + q.fee
  {
    var fee := TierFee(WesternUnionReal.FeeStructure, amount);
    WesternUnionReal.FeeStructureIsSchedule(amount);
    var rate := BaseRate(destination) + jitter;
    Quote("Western Union", origin, destination, amount, fee, rate, amount + fee, amount * rate,
      "Minutes", "Cash pickup", "calculated_estimate", "Based on WU public fee structure")
  }

  method GetEstimate(origin: string, destination: string, amount: real, jitter: real) returns (q: Quote)
    requires -MaxJitter <= jitter <= MaxJitter
    ensures q == Estimate(origin, destination, amount, jitter)
  {
    var fee := LookupFee(WesternUnionReal.FeeStructure, amount);
    var rate := BaseRate(destination) + jitter;
    q := Quote("Western Union", origin, destination, amount, fee, rate, amount + fee, amount * rate,
      "Minutes", "Cash pickup", "calculated_estimate", "Based on WU public fee structure");
  }

  /**
   * One estimate per requested corridor, in order, with defaults US, MX and
   * 500.0; `jitters[i]` is the random draw of the i-th call.
   */
  method CompareCorridors(corridors: seq<CorridorRequest>, jitters: seq<real>) returns (results: seq<Quote>)
    requires |jitters| == |corridors|
    requires forall i :: 0 <= i < |jitters| ==> -MaxJitter <= jitters[i] <= MaxJitter
    ensures |results| == |corridors|
    ensures forall i :: 0 <= i < |corridors| ==>
      results[i] == Estimate(corridors[i].origin.GetOr("US"), corridors[i].destination.GetOr("MX"), corridors[i].amount.GetOr(500.0), jitters[i])
  {
    results := [];
    for i := 0 to |corridors|
      invariant |results| == i
      invariant forall j :: 0 <= j < i ==>
        results[j] == Estimate(corridors[j].origin.GetOr("US"), corridors[j].destination.GetOr("MX"), corridors[j].amount.GetOr(500.0), jitters[j])
    {
      var c := corridors[i];
      var q := GetEstimate(c.origin.GetOr("US"), c.destination.GetOr("MX"), c.amount.GetOr(500.0), jitters[i]);
      results := results + [q];
    }
  }
}
