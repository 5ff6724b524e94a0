/** Remitly quotes from a built-in rate table with random jitter (remitly_scraper.py). */
module RemitlyEstimator {
  import opened Wrappers
  import opened FeeTiers
  import opened Estimates

  const ExchangeRates: map<string, real> := map["MX" := 20.35, "VE" := 36.80, "CO" := 4150.0, "PE" := 3.78, "BR" := 5.15]

  /** The table rate for a destination; an unknown destination gets 1.0. */
  function BaseRate(destination: string): (r: real)
    ensures destination !in ExchangeRates ==> r == 1.0
  {
    if destination in ExchangeRates then ExchangeRates[destination] else 1.0
  }

  /** The largest random deviation from the table rate. */
  const MaxJitter: real := 0.08

  const FeeStructure: seq<Tier> := [
    Tier(0.0, Below(100.0), 2.99),
    Tier(100.0, Below(500.0), 3.99),
    Tier(500.0, Below(1000.0), 4.99),
    Tier(1000.0, Below(5000.0), 9.99),
    Tier(5000.0, Unbounded, 19.99)
  ]

  /** The fee schedule written out range by range. */
  function ScheduleFee(amount: real): real {
    if amount < 0.0 then 0.0
    else if amount < 100.0 then 2.99
    else if amount < 500.0 then 3.99
    else if amount < 1000.0 then 4.99
    else if amount < 5000.0 then 9.99
    else 19.99
  }

  /** Searching the table gives the written-out schedule, a negative amount included. */
  lemma FeeStructureIsSchedule(amount: real)
    ensures TierFee(FeeStructure, amount) == ScheduleFee(amount)
  {
    if amount < 0.0 {
      TierFeeOfNoMatch(FeeStructure, amount);
    } else {
      var k := if amount < 100.0 then 0 else if amount < 500.0 then 1 else if amount < 1000.0 then 2 else if amount < 5000.0 then 3 else 4;
      TierFeeOfFirstMatch(FeeStructure, amount, k);
    }
  }

  lemma FeeNonDecreasing(a: real, b: real)
    requires a <= b
    ensures ScheduleFee(a) <= ScheduleFee(b)
  {
  }

  /**
   * Specification of `get_estimate`; `jitter` is the value `random.uniform`
   * draws, so it lies within the jitter bound. The estimate never fails.
   */
  function Estimate(origin: string, destination: string, amount: real, jitter: real): (q: Quote)
    requires -MaxJitter <= jitter <= MaxJitter
    ensures q.provider == "Remitly" && q.origin == origin && q.destination == destination && q.sendAmount == amount
    ensures q.fee == ScheduleFee(amount)
    ensures BaseRate(destination) - MaxJitter <= q.exchangeRate <= BaseRate(destination) + MaxJitter
    ensures q.recipientReceives == amount * q.exchangeRate
    ensures q.totalCost == amount + q.fee
    ensures q.estimatedDelivery == "Minutes" <==> amount < 1000.0
    ensures q.estimatedDelivery != "Minutes" ==> q.estimatedDelivery == "Hours"
  {
    var fee := TierFee(FeeStructure, amount);
    FeeStructureIsSchedule(amount);
    var rate := BaseRate(destination) + jitter;
    Quote("Remitly", origin, destination, amount, fee, rate, amount + fee, amount * rate,
      if amount < 1000.0 then "Minutes" else "Hours", "Bank deposit / Cash pickup", "calculated_estimate", "Based on Remitly public pricing")
  }

  method GetEstimate(origin: string, destination: string, amount: real, jitter: real) returns (q: Quote)
    requires -MaxJitter <= jitter <= MaxJitter
    ensures q == Estimate(origin, destination, amount, jitter)
  {
    var fee := LookupFee(FeeStructure, amount);
    var rate := BaseRate(destination) + jitter;
    q := Quote("Remitly", origin, destination, amount, fee, rate, amount + fee, amount * rate,
      if amount < 1000.0 then "Minutes" else "Hours", "Bank deposit / Cash pickup", "calculated_estimate", "Based on Remitly public pricing");
  }

  /**
   * One estimate per requested corridor, in order, with defaults US, MX and
   * 500.0; `jitters[i]` is the random draw of the i-th call.
   */
  method CompareCorridors(corridors: seq<CorridorRequest>, jitters: seq<real>) returns (results: seq<Quote>)
    requires |jitters| == |corridors|
    requires forall i :: 0 <= i < |jitters| ==> -MaxJitter <= jitters[i] <= MaxJitter
    ensures |results| == |corridors|
    ensures forall i :: 0 <= i < |corridors| ==>
      results[i] == Estimate(corridors[i].origin.GetOr("US"), corridors[i].destination.GetOr("MX"), corridors[i].amount.GetOr(500.0), jitters[i])
  {
    results := [];
    for i := 0 to |corridors|
      invariant |results| == i
      invariant forall j :: 0 <= j < i ==>
        results[j] == Estimate(corridors[j].origin.GetOr("US"), corridors[j].destination.GetOr("MX"), corridors[j].amount.GetOr(500.0), jitters[j])
    {
      var c := corridors[i];
      var q := GetEstimate(c.origin.GetOr("US"), c.destination.GetOr("MX"), c.amount.GetOr(500.0), jitters[i]);
      results := results + [q];
    }
  }
}
