/** Remitly quotes to Guatemala on the live USD/GTQ rate (remitly_scraper_GT.py). */
module RemitlyGT {
  import opened Wrappers
  import opened FeeTiers
  import opened Estimates

  /** Remitly passes on 98% of the market rate. */
  const RateFactor: real := 0.98

  const FeeStructure: seq<Tier> := [
    Tier(0.0, Below(100.0), 3.99),
    Tier(100.0, Below(500.0), 3.99),
    Tier(500.0, Below(1000.0), 3.99),
    Tier(1000.0, Below(5000.0), 0.00),
    Tier(5000.0, Unbounded, 0.00)
  ]

  /** The fee schedule written out: 3.99 below 1000, waived from 1000 on. */
  function ScheduleFee(amount: real): real {
    if amount < 0.0 then 0.0
    else if amount < 1000.0 then 3.99
    else 0.00
  }

  /** Searching the table gives the written-out schedule, a negative amount included. */
  lemma FeeStructureIsSchedule(amount: real)
    ensures TierFee(FeeStructure, amount) == ScheduleFee(amount)
  {
    if amount < 0.0 {
      TierFeeOfNoMatch(FeeStructure, amount);
    } else {
      var k := if amount < 100.0 then 0 else if amount < 500.0 then 1 else if amount < 1000.0 then 2 else if amount < 5000.0 then 3 else 4;
      TierFeeOfFirstMatch(FeeStructure, amount, k);
    }
  }

  /** Specification of `get_estimate`: the rate is always fetched for GTQ, whatever the destination. */
  function Estimate(origin: string, destination: string, amount: real, service: RateService): (r: Estimate)
    ensures r.RateFetchFailed? <==> service("GTQ", amount).None?
    ensures r.Estimated? ==>
      var q := r.quote;
      && q.provider == "Remitly" && q.sendAmount == amount
      && q.fee == ScheduleFee(amount)
      && q.exchangeRate == RateFactor * service("GTQ", amount).value.rate
      && q.recipientReceives == amount * q.exchangeRate
      && q.totalCost == amount + q.fee
  {
    match service("GTQ", amount)
    case None => RateFetchFailed
    case Some(reply) =>
      var rate := reply.rate * RateFactor;
      var fee := TierFee(FeeStructure, amount);
      FeeStructureIsSchedule(amount);
      Estimated(Quote("Remitly", origin, destination, amount, fee, rate, amount + fee, amount * rate,
        "Minutes (Express)", "Bank deposit / Cash pickup", "REAL rate with Remitly markup",
        "Real rate + typical Remitly 2% markup + flat fee"))
  }

  method GetEstimate(origin: string, destination: string, amount: real, service: RateService) returns (r: Estimate)
    ensures r == Estimate(origin, destination, amount, service)
  {
    var fetched := service("GTQ", amount);
    if fetched.None? {
      return RateFetchFailed;
    }
    var rate := fetched.value.rate * RateFactor;
    var converted := amount * rate;
    var fee := LookupFee(FeeStructure, amount);
    r := Estimated(Quote("Remitly", origin, destination, amount, fee, rate, amount + fee, converted,
      "Minutes (Express)", "Bank deposit / Cash pickup", "REAL rate with Remitly markup",
      "Real rate + typical Remitly 2% markup + flat fee"));
  }

  /** One estimate per requested corridor, in order; missing keys default to US, GT and 500.0. */
  method CompareCorridors(corridors: seq<CorridorRequest>, service: RateService) returns (results: seq<Estimate>)
    ensures |results| == |corridors|
    ensures forall i :: 0 <= i < |corridors| ==>
      results[i] == Estimate(corridors[i].origin.GetOr("US"), corridors[i].destination.GetOr("GT"), corridors[i].amount.GetOr(500.0), service)
  {
    results := [];
    for i := 0 to |corridors|
      invariant |results| == i
      invariant forall j :: 0 <= j < i ==>
        results[j] == Estimate(corridors[j].origin.GetOr("US"), corridors[j].destination.GetOr("GT"), corridors[j].amount.GetOr(500.0), service)
    {
      var c := corridors[i];
      var r := GetEstimate(c.origin.GetOr("US"), c.destination.GetOr("GT"), c.amount.GetOr(500.0), service);
      results := results + [r];
    }
  }
}
