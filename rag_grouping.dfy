/**
 * Grouping of records as the analysis engine does it (ragfin1_rag.py): a
 * `defaultdict(list)` filled by walking the records in order, so its keys are
 * the distinct keys in order of first appearance and each list keeps the
 * records' order.
 */
module RagGrouping {
  import opened RagRecords

  /** What the records are grouped on: the provider, or the corridor. */
  datatype GroupKey = ByProvider | ByCorridor

  function KeyOf(r: ExchangeRecord, g: GroupKey): string {
    match g
    case ByProvider => r.provider
    case ByCorridor => r.corridor
  }

  /** The keys of the dictionary after the walk: each key of `s` once, in order of first appearance. */
  function Keys(s: seq<ExchangeRecord>, g: GroupKey): (ks: seq<string>)
    ensures forall i, j :: 0 <= i < j < |ks| ==> ks[i] != ks[j]
    ensures |ks| <= |s|
    ensures |s| > 0 ==> |ks| > 0
  {
    if |s| == 0 then []
    else
      var ks := Keys(s[..|s| - 1], g);
      var k := KeyOf(s[|s| - 1], g);
      if k in ks then ks else ks + [k]
  }

  /** The keys are exactly the keys that occur in `s`. */
  lemma {:induction false} KeysAreOccurringKeys(s: seq<ExchangeRecord>, g: GroupKey)
    ensures forall n :: 0 <= n < |s| ==> KeyOf(s[n], g) in Keys(s, g)
    ensures forall k :: k in Keys(s, g) ==> exists n :: 0 <= n < |s| && KeyOf(s[n], g) == k
  {
    if |s| > 0 {
      var init := s[..|s| - 1];
      KeysAreOccurringKeys(init, g);
      assert forall n :: 0 <= n < |init| ==> s[n] == init[n];
    }
  }

  /** The list stored under `k`: the records of `s` whose key is `k`, in order. */
  function Group(s: seq<ExchangeRecord>, g: GroupKey, k: string): (grp: seq<ExchangeRecord>)
    ensures |grp| <= |s|
  {
    if |s| == 0 then []
    else
      var last := s[|s| - 1];
      Group(s[..|s| - 1], g, k) + (if KeyOf(last, g) == k then [last] else [])
  }

  /** The list under `k` holds the records of `s` with key `k`, and no others. */
  lemma {:induction false} GroupIsRecordsWithKey(s: seq<ExchangeRecord>, g: GroupKey, k: string)
    ensures forall r :: r in Group(s, g, k) ==> r in s && KeyOf(r, g) == k
    ensures forall n :: 0 <= n < |s| && KeyOf(s[n], g) == k ==> s[n] in Group(s, g, k)
  {
    if |s| > 0 {
      var init := s[..|s| - 1];
      GroupIsRecordsWithKey(init, g, k);
      assert s == init + [s[|s| - 1]];
      assert forall n :: 0 <= n < |init| ==> s[n] == init[n];
    }
  }

  /** A key has a non-empty list exactly when it is a key of the dictionary. */
  lemma {:induction false} GroupNonEmptyIffKey(s: seq<ExchangeRecord>, g: GroupKey, k: string)
    ensures |Group(s, g, k)| > 0 <==> k in Keys(s, g)
  {
    if |s| > 0 {
      GroupNonEmptyIffKey(s[..|s| - 1], g, k);
    }
  }

  /** The index at which key `k` first appears in `s`. */
  function FirstAt(s: seq<ExchangeRecord>, g: GroupKey, k: string): (n: nat)
    requires k in Keys(s, g)
    ensures n < |s| && KeyOf(s[n], g) == k
    ensures forall m :: 0 <= m < n ==> KeyOf(s[m], g) != k
  {
    var init := s[..|s| - 1];
    assert forall m :: 0 <= m < |init| ==> s[m] == init[m];
    KeysAreOccurringKeys(init, g);
    if k in Keys(init, g) then FirstAt(init, g, k) else |s| - 1
  }

  /** The dictionary's keys are in order of first appearance in `s`. */
  lemma {:induction false} KeysInFirstAppearanceOrder(s: seq<ExchangeRecord>, g: GroupKey, i: nat, j: nat)
    requires i < j < |Keys(s, g)|
    ensures FirstAt(s, g, Keys(s, g)[i]) < FirstAt(s, g, Keys(s, g)[j])
  {
    var init := s[..|s| - 1];
    var ks := Keys(init, g);
    if j < |ks| {
      KeysInFirstAppearanceOrder(init, g, i, j);
    }
  }

  /** The total length of the lists stored under `ks`. */
  function SizeSum(s: seq<ExchangeRecord>, g: GroupKey, ks: seq<string>): nat {
    if |ks| == 0 then 0 else SizeSum(s, g, ks[..|ks| - 1]) + |Group(s, g, ks[|ks| - 1])|
  }

  /** Appending a record lengthens the list of its own key and no other. */
  lemma {:induction false} SizeSumAppend(s: seq<ExchangeRecord>, x: ExchangeRecord, g: GroupKey, ks: seq<string>)
    requires forall i, j :: 0 <= i < j < |ks| ==> ks[i] != ks[j]
    ensures SizeSum(s + [x], g, ks) == SizeSum(s, g, ks) + (if KeyOf(x, g) in ks then 1 else 0)
  {
    assert (s + [x])[..|s + [x]| - 1] == s;
    if |ks| > 0 {
      var init := ks[..|ks| - 1];
      SizeSumAppend(s, x, g, init);
      assert KeyOf(x, g) in ks <==> KeyOf(x, g) in init || KeyOf(x, g) == ks[|ks| - 1];
      if KeyOf(x, g) == ks[|ks| - 1] {
        assert KeyOf(x, g) !in init;
      }
    }
  }

  /** Every list under a key that `s` does not have is empty. */
  lemma SizeSumOfAbsentKeys(s: seq<ExchangeRecord>, g: GroupKey, ks: seq<string>)
    requires forall k :: k in ks ==> k !in Keys(s, g)
    ensures SizeSum(s, g, ks) == 0
  {
    if |ks| > 0 {
      SizeSumOfAbsentKeys(s, g, ks[..|ks| - 1]);
      GroupNonEmptyIffKey(s, g, ks[|ks| - 1]);
    }
  }

  /** The lists together hold every record exactly once. */
  lemma {:induction false} GroupSizesSum(s: seq<ExchangeRecord>, g: GroupKey)
    ensures SizeSum(s, g, Keys(s, g)) == |s|
  {
    if |s| > 0 {
      var init := s[..|s| - 1];
      var x := s[|s| - 1];
      assert s == init + [x];
      GroupSizesSum(init, g);
      SizeSumAppend(init, x, g, Keys(init, g));
      if KeyOf(x, g) !in Keys(init, g) {
        var ks := Keys(init, g) + [KeyOf(x, g)];
        assert ks[..|ks| - 1] == Keys(init, g);
        GroupNonEmptyIffKey(init, g, KeyOf(x, g));
      }
    }
  }

  /** One more record: its key joins the keys if new, and the record joins its key's list. */
  lemma Snoc(s: seq<ExchangeRecord>, x: ExchangeRecord, g: GroupKey)
    ensures Keys(s + [x], g) == if KeyOf(x, g) in Keys(s, g) then Keys(s, g) else Keys(s, g) + [KeyOf(x, g)]
    ensures forall k :: Group(s + [x], g, k) == Group(s, g, k) + (if KeyOf(x, g) == k then [x] else [])
  {
    assert (s + [x])[..|s + [x]| - 1] == s;
  }

  /** The dictionary after walking `walked`: exactly the keys met, each holding its records in order. */
  ghost predicate Grouped(walked: seq<ExchangeRecord>, g: GroupKey, keys: seq<string>, groups: map<string, seq<ExchangeRecord>>) {
    && keys == Keys(walked, g)
    && (forall k :: k in groups <==> k in keys)
    && (forall k :: k in groups ==> groups[k] == Group(walked, g, k))
  }

  /** One step of the walk keeps the dictionary in step with the records walked so far. */
  lemma GroupByStep(before: seq<ExchangeRecord>, r: ExchangeRecord, after: seq<ExchangeRecord>, g: GroupKey,
                    keys: seq<string>, groups: map<string, seq<ExchangeRecord>>)
    requires after == before + [r]
    requires Grouped(before, g, keys, groups)
    ensures var k := KeyOf(r, g);
      Grouped(after, g, if k in groups then keys else keys + [k], groups[k := if k in groups then groups[k] + [r] else [r]])
  {
    var k := KeyOf(r, g);
    Snoc(before, r, g);
    if k !in groups {
      GroupNonEmptyIffKey(before, g, k);
      assert Group(before, g, k) == [];
    }
  }

  /** The walk that fills the dictionary: the keys in insertion order, and the list under each. */
  method GroupBy(records: seq<ExchangeRecord>, g: GroupKey) returns (keys: seq<string>, groups: map<string, seq<ExchangeRecord>>)
    ensures keys == Keys(records, g)
    ensures forall k :: k in groups <==> k in keys
    ensures forall k :: k in groups ==> groups[k] == Group(records, g, k)
  {
    keys := [];
    groups := map[];
    for i := 0 to |records|
      invariant Grouped(records[..i], g, keys, groups)
    {
      var r := records[i];
      var k := KeyOf(r, g);
      assert records[..i + 1] == records[..i] + [r];
      GroupByStep(records[..i], r, records[..i + 1], g, keys, groups);
      var grp := if k in groups then groups[k] + [r] else [r];
      keys := if k in groups then keys else keys + [k];
      groups := groups[k := grp];
    }
    assert records[..|records|] == records;
  }
}
