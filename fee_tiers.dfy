/**
 * Tiered fee tables: an ordered list of half-open ranges `[low, high)` with the
 * fee charged in each. The estimators search the list in order, take the fee of
 * the first range holding the amount and stop; an amount that no range holds
 * (a negative one) keeps the initial fee 0.0.
 */
module FeeTiers {

  /** Upper end of a range: a number, or `float('inf')`. */
  datatype Bound = Below(limit: real) | Unbounded

  datatype Tier = Tier(low: real, high: Bound, fee: real)

  predicate Contains(t: Tier, amount: real) {
    t.low <= amount && (t.high.Unbounded? || amount < t.high.limit)
  }

  /** Specification of the search: the fee of the first tier holding the amount, 0.0 if none does. */
  function TierFee(tiers: seq<Tier>, amount: real): real
  {
    if tiers == [] then 0.0
    else if Contains(tiers[0], amount) then tiers[0].fee
    else TierFee(tiers[1..], amount)
  }

  lemma {:induction false} TierFeeOfFirstMatch(tiers: seq<Tier>, amount: real, k: nat)
    requires k < |tiers| && Contains(tiers[k], amount)
    requires forall j :: 0 <= j < k ==> !Contains(tiers[j], amount)
    ensures TierFee(tiers, amount) == tiers[k].fee
  {
    if k > 0 {
      TierFeeOfFirstMatch(tiers[1..], amount, k - 1);
    }
  }

  lemma {:induction false} TierFeeOfNoMatch(tiers: seq<Tier>, amount: real)
    requires forall j :: 0 <= j < |tiers| ==> !Contains(tiers[j], amount)
    ensures TierFee(tiers, amount) == 0.0
  {
    if tiers != [] {
      TierFeeOfNoMatch(tiers[1..], amount);
    }
  }

  /** The search loop with `break` (`for (min_amt, max_amt), fee_amt in fee_structure.items()`). */
  method LookupFee(tiers: seq<Tier>, amount: real) returns (fee: real)
    ensures fee == TierFee(tiers, amount)
  {
    fee := 0.0;
    var i := 0;
    while i < |tiers|
      invariant 0 <= i <= |tiers|
      invariant TierFee(tiers[i..], amount) == TierFee(tiers, amount)
    {
      if Contains(tiers[i], amount) {
        fee := tiers[i].fee;
        break;
      }
      assert tiers[i..][1..] == tiers[i + 1..];
      i := i + 1;
    }
  }
}
