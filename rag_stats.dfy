/**
 * The per-provider statistics of the analysis engine (ragfin1_rag.py):
 * mean, minimum and maximum of the rates, mean of the fees, and their sum as
 * the "total cost". numpy's floating-point mean is modelled as the exact mean.
 */
module RagStats {
  import opened RagRecords

  function Sum(xs: seq<real>): real {
    if |xs| == 0 then 0.0 else Sum(xs[..|xs| - 1]) + xs[|xs| - 1]
  }

  function Mean(xs: seq<real>): real
    requires |xs| > 0
  {
    Sum(xs) / |xs| as real
  }

  /** `np.min`: a value of `xs` that no value of `xs` is below. */
  function MinOf(xs: seq<real>): (m: real)
    requires |xs| > 0
    ensures m in xs
    ensures forall i :: 0 <= i < |xs| ==> m <= xs[i]
  {
    if |xs| == 1 then xs[0]
    else
      var m := MinOf(xs[..|xs| - 1]);
      assert forall i :: 0 <= i < |xs| - 1 ==> xs[..|xs| - 1][i] == xs[i];
      if xs[|xs| - 1] < m then xs[|xs| - 1] else m
  }

  /** `np.max`: a value of `xs` that no value of `xs` is above. */
  function MaxOf(xs: seq<real>): (m: real)
    requires |xs| > 0
    ensures m in xs
    ensures forall i :: 0 <= i < |xs| ==> xs[i] <= m
  {
    if |xs| == 1 then xs[0]
    else
      var m := MaxOf(xs[..|xs| - 1]);
      assert forall i :: 0 <= i < |xs| - 1 ==> xs[..|xs| - 1][i] == xs[i];
      if xs[|xs| - 1] > m then xs[|xs| - 1] else m
  }

  lemma {:induction false} SumAtLeast(xs: seq<real>, m: real)
    requires forall i :: 0 <= i < |xs| ==> m <= xs[i]
    ensures |xs| as real * m <= Sum(xs)
  {
    if |xs| > 0 {
      SumAtLeast(xs[..|xs| - 1], m);
    }
  }

  lemma {:induction false} SumAtMost(xs: seq<real>, m: real)
    requires forall i :: 0 <= i < |xs| ==> xs[i] <= m
    ensures Sum(xs) <= |xs| as real * m
  {
    if |xs| > 0 {
      SumAtMost(xs[..|xs| - 1], m);
    }
  }

  /** A total of at least `n * lo` shared among `n` is at least `lo` each. */
  lemma QuotientAtLeast(total: real, n: real, lo: real)
    requires n > 0.0 && n * lo <= total
    ensures lo <= total / n
  {
    assert total / n * n == total;
  }

  /** A total of at most `n * hi` shared among `n` is at most `hi` each. */
  lemma QuotientAtMost(total: real, n: real, hi: real)
    requires n > 0.0 && total <= n * hi
    ensures total / n <= hi
  {
    assert total / n * n == total;
  }

  lemma MeanAtLeast(xs: seq<real>, lo: real)
    requires |xs| > 0
    requires forall i :: 0 <= i < |xs| ==> lo <= xs[i]
    ensures lo <= Mean(xs)
  {
    SumAtLeast(xs, lo);
    QuotientAtLeast(Sum(xs), |xs| as real, lo);
  }

  lemma MeanAtMost(xs: seq<real>, hi: real)
    requires |xs| > 0
    requires forall i :: 0 <= i < |xs| ==> xs[i] <= hi
    ensures Mean(xs) <= hi
  {
    SumAtMost(xs, hi);
    QuotientAtMost(Sum(xs), |xs| as real, hi);
  }

  /** The mean lies between the minimum and the maximum. */
  lemma MeanBetweenMinAndMax(xs: seq<real>)
    requires |xs| > 0
    ensures MinOf(xs) <= Mean(xs) <= MaxOf(xs)
  {
    MeanAtLeast(xs, MinOf(xs));
    MeanAtMost(xs, MaxOf(xs));
  }

  function Rates(recs: seq<ExchangeRecord>): (rates: seq<real>)
    ensures |rates| == |recs|
    ensures forall i :: 0 <= i < |recs| ==> rates[i] == recs[i].exchangeRate
  {
    seq(|recs|, i requires 0 <= i < |recs| => recs[i].exchangeRate)
  }

  function Fees(recs: seq<ExchangeRecord>): (fees: seq<real>)
    ensures |fees| == |recs|
    ensures forall i :: 0 <= i < |recs| ==> fees[i] == recs[i].fee
  {
    seq(|recs|, i requires 0 <= i < |recs| => recs[i].fee)
  }

  /** One entry of `provider_stats`. */
  datatype ProviderStats = ProviderStats(
    avgRate: real,
    minRate: real,
    maxRate: real,
    avgFee: real,
    totalCost: real,
    sampleSize: nat)

  /**
   * The statistics of one provider's records: the average rate lies in the
   * rate range, the sample is never empty, and the total cost is the average
   * rate plus the average fee.
   */
  function StatsOf(recs: seq<ExchangeRecord>): (st: ProviderStats)
    requires |recs| > 0
    ensures st.minRate <= st.avgRate <= st.maxRate
    ensures st.sampleSize == |recs| && st.sampleSize >= 1
    ensures st.totalCost == st.avgRate + st.avgFee
    ensures st.avgRate == Mean(Rates(recs)) && st.avgFee == Mean(Fees(recs))
    ensures st.minRate == MinOf(Rates(recs)) && st.maxRate == MaxOf(Rates(recs))
  {
    var rates := Rates(recs);
    MeanBetweenMinAndMax(rates);
    var avgRate := Mean(rates);
    var avgFee := Mean(Fees(recs));
    ProviderStats(avgRate, MinOf(rates), MaxOf(rates), avgFee, avgRate + avgFee, |recs|)
  }

  /** The rate range of the statistics is the least and the greatest rate of the records. */
  lemma StatsOfRateRange(recs: seq<ExchangeRecord>)
    requires |recs| > 0
    ensures forall i :: 0 <= i < |recs| ==> StatsOf(recs).minRate <= recs[i].exchangeRate <= StatsOf(recs).maxRate
    ensures exists i :: 0 <= i < |recs| && StatsOf(recs).minRate == recs[i].exchangeRate
    ensures exists i :: 0 <= i < |recs| && StatsOf(recs).maxRate == recs[i].exchangeRate
  {
    var rates := Rates(recs);
    var lo :| 0 <= lo < |rates| && rates[lo] == MinOf(rates);
    var hi :| 0 <= hi < |rates| && rates[hi] == MaxOf(rates);
    assert StatsOf(recs).minRate == recs[lo].exchangeRate;
    assert StatsOf(recs).maxRate == recs[hi].exchangeRate;
  }
}
