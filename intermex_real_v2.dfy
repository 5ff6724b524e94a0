/** Intermex quotes built on the live market rate (intermex_scraper_real_v2.py). */
module IntermexReal {
  import opened Wrappers
  import opened FeeTiers
  import opened Estimates

  const CurrencyMap: map<string, string> :=
    map["MX" := "MXN", "VE" := "VES", "CO" := "COP", "PE" := "PEN", "BR" := "BRL", "GT" := "GTQ", "HN" := "HNL"]

  /** The currency asked of the rate service; a destination outside the map is quoted in MXN. */
  function TargetCurrency(destination: string): (c: string)
    ensures destination !in CurrencyMap ==> c == "MXN"
  {
    if destination in CurrencyMap then CurrencyMap[destination] else "MXN"
  }

  /** Intermex passes on 98.5% of the market rate. */
  const RateFactor: real := 0.985

  const FeeStructure: seq<Tier> := [
    Tier(0.0, Below(100.0), 4.99),
    Tier(100.0, Below(500.0), 4.99),
    Tier(500.0, Below(1000.0), 4.99),
    Tier(1000.0, Below(3000.0), 9.99),
    Tier(3000.0, Unbounded, 14.99)
  ]

  /** The fee schedule written out: one flat fee below 1000, then two steps. */
  function ScheduleFee(amount: real): real {
    if amount < 0.0 then 0.0
    else if amount < 1000.0 then 4.99
    else if amount < 3000.0 then 9.99
    else 14.99
  }

  /** Searching the table gives the written-out schedule, a negative amount included. */
  lemma FeeStructureIsSchedule(amount: real)
    ensures TierFee(FeeStructure, amount) == ScheduleFee(amount)
  {
    if amount < 0.0 {
      TierFeeOfNoMatch(FeeStructure, amount);
    } else {
      var k := if amount < 100.0 then 0 else if amount < 500.0 then 1 else if amount < 1000.0 then 2 else if amount < 3000.0 then 3 else 4;
      TierFeeOfFirstMatch(FeeStructure, amount, k);
    }
  }

  lemma FeeNonDecreasing(a: real, b: real)
    requires a <= b
    ensures ScheduleFee(a) <= ScheduleFee(b)
  {
  }

  /** Specification of `get_estimate`. */
  function Estimate(origin: string, destination: string, amount: real, service: RateService): (r: Estimate)
    ensures r.RateFetchFailed? <==> service(TargetCurrency(destination), amount).None?
    ensures r.Estimated? ==>
      var q := r.quote;
      && q.provider == "Intermex" && q.sendAmount == amount
      && q.fee == ScheduleFee(amount)
      && q.exchangeRate == RateFactor * service(TargetCurrency(destination), amount).value.rate
      && q.recipientReceives == amount * q.exchangeRate
      && q.totalCost == amount + q.fee
  {
    match service(TargetCurrency(destination), amount)
    case None => RateFetchFailed
    case Some(reply) =>
      var rate := reply.rate * RateFactor;
      var fee := TierFee(FeeStructure, amount);
      FeeStructureIsSchedule(amount);
      Estimated(Quote("Intermex", origin, destination, amount, fee, rate, amount + fee, amount * rate,
        "Minutes", "Cash pickup / Bank deposit", "REAL rate with Intermex markup",
        "Real rate + typical Intermex 1.5% markup + fees"))
  }

  method GetEstimate(origin: string, destination: string, amount: real, service: RateService) returns (r: Estimate)
    ensures r == Estimate(origin, destination, amount, service)
  {
    var fetched := service(TargetCurrency(destination), amount);
    if fetched.None? {
      return RateFetchFailed;
    }
    var rate := fetched.value.rate * RateFactor;
    var converted := amount * rate;
    var fee := LookupFee(FeeStructure, amount);
    r := Estimated(Quote("Intermex", origin, destination, amount, fee, rate, amount + fee, converted,
      "Minutes", "Cash pickup / Bank deposit", "REAL rate with Intermex markup",
      "Real rate + typical Intermex 1.5% markup + fees"));
  }

  /** One estimate per requested corridor, in order; missing keys default to US, MX and 500.0. */
  method CompareCorridors(corridors: seq<CorridorRequest>, service: RateService) returns (results: seq<Estimate>)
    ensures |results| == |corridors|
    ensures forall i :: 0 <= i < |corridors| ==>
      results[i] == Estimate(corridors[i].origin.GetOr("US"), corridors[i].destination.GetOr("MX"), corridors[i].amount.GetOr(500.0), service)
  {
    results := [];
    for i := 0 to |corridors|
      invariant |results| == i
      invariant forall j :: 0 <= j < i ==>
        results[j] == Estimate(corridors[j].origin.GetOr("US"), corridors[j].destination.GetOr("MX"), corridors[j].amount.GetOr(500.0), service)
    {
      var c := corridors[i];
      var r := GetEstimate(c.origin.GetOr("US"), c.destination.GetOr("MX"), c.amount.GetOr(500.0), service);
      results := results + [r];
    }
  }
}
