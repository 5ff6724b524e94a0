/**
 * Competitive analysis and query context of the analysis engine
 * (ragfin1_rag.py): `get_competitive_analysis` and `build_context_for_query`,
 * over the records `filter_data` returns.
 */
module RagAnalysis {
  import opened Wrappers
  import opened QuoteStore
  import opened RagRecords
  import opened RagGrouping
  import opened RagStats
  import Ranking

  /** `most_competitive`. */
  datatype Best = Best(provider: string, totalCost: real)

  /** The result of `get_competitive_analysis`: an `error` entry alone, or the full analysis. */
  datatype Analysis =
    | NoData(error: string)
    | Snapshot(
        destination: string,
        providersAnalyzed: seq<string>,
        statsByProvider: map<string, ProviderStats>,
        mostCompetitive: Best,
        dataPoints: nat)

  /** The statistics of the records of provider `p`, which has at least one. */
  function ProviderStatsOf(records: seq<ExchangeRecord>, p: string): ProviderStats
    requires p in Keys(records, ByProvider)
  {
    GroupNonEmptyIffKey(records, ByProvider, p);
    StatsOf(Group(records, ByProvider, p))
  }

  /** `provider_stats` after the loop has visited `providers`. */
  function StatsTable(records: seq<ExchangeRecord>, providers: seq<string>): map<string, ProviderStats>
    requires forall p :: p in providers ==> p in Keys(records, ByProvider)
  {
    if |providers| == 0 then map[]
    else
      var p := providers[|providers| - 1];
      StatsTable(records, providers[..|providers| - 1])[p := ProviderStatsOf(records, p)]
  }

  /** The table holds exactly the visited providers, each with the statistics of its own records. */
  lemma {:induction false} StatsTableEntries(records: seq<ExchangeRecord>, providers: seq<string>)
    requires forall p :: p in providers ==> p in Keys(records, ByProvider)
    ensures forall p :: p in StatsTable(records, providers) <==> p in providers
    ensures forall p :: p in StatsTable(records, providers) ==> StatsTable(records, providers)[p] == ProviderStatsOf(records, p)
  {
    if |providers| > 0 {
      var init := providers[..|providers| - 1];
      var last := providers[|providers| - 1];
      StatsTableEntries(records, init);
      assert providers == init + [last];
      assert StatsTable(records, providers) == StatsTable(records, init)[last := ProviderStatsOf(records, last)];
    }
  }

  /** Visiting one more provider adds its entry to the table. */
  lemma StatsTableStep(records: seq<ExchangeRecord>, providers: seq<string>, i: nat)
    requires forall p :: p in providers ==> p in Keys(records, ByProvider)
    requires i < |providers|
    ensures StatsTable(records, providers[..i + 1]) ==
      StatsTable(records, providers[..i])[providers[i] := ProviderStatsOf(records, providers[i])]
  {
    assert providers[..i + 1][..i] == providers[..i];
  }

  /** The ranking keys that `min(..., key=total_cost)` compares, in dictionary order. */
  function CostKeys(stats: map<string, ProviderStats>, providers: seq<string>): (keys: seq<Ranking.Key>)
    requires forall p :: p in providers ==> p in stats
    ensures |keys| == |providers|
    ensures forall i :: 0 <= i < |providers| ==> keys[i] == Ranking.Finite(stats[providers[i]].totalCost)
  {
    seq(|providers|, i requires 0 <= i < |providers| => Ranking.Finite(stats[providers[i]].totalCost))
  }

  /** The entry `min` picks among the listed providers. */
  function Cheapest(stats: map<string, ProviderStats>, providers: seq<string>): Best
    requires |providers| > 0
    requires forall p :: p in providers ==> p in stats
  {
    var k := Ranking.FirstMinIndex(CostKeys(stats, providers));
    Best(providers[k], stats[providers[k]].totalCost)
  }

  /**
   * `min` picks a provider of least total cost, and every provider listed
   * before it costs strictly more: of equal costs the first is kept.
   */
  lemma CheapestIsFirstLeast(stats: map<string, ProviderStats>, providers: seq<string>)
    requires |providers| > 0
    requires forall p :: p in providers ==> p in stats
    ensures var b := Cheapest(stats, providers);
      && b.provider in stats && b.totalCost == stats[b.provider].totalCost
      && (forall p :: p in providers ==> b.totalCost <= stats[p].totalCost)
      && exists k :: 0 <= k < |providers| && providers[k] == b.provider &&
           forall i :: 0 <= i < k ==> stats[providers[i]].totalCost > b.totalCost
  {
    var keys := CostKeys(stats, providers);
    var k := Ranking.FirstMinIndex(keys);
    var b := Cheapest(stats, providers);
    forall p | p in providers
      ensures b.totalCost <= stats[p].totalCost
    {
      var j :| 0 <= j < |providers| && providers[j] == p;
      assert Ranking.AtMost(keys[k], keys[j]);
    }
    forall i | 0 <= i < k
      ensures stats[providers[i]].totalCost > b.totalCost
    {
      assert Ranking.Below(keys[k], keys[i]);
    }
  }

  /** The analysis of a window of records (newest first) for `destination`. */
  function AnalysisOf(destination: string, records: seq<ExchangeRecord>): (a: Analysis)
    ensures a.NoData? <==> |records| == 0
    ensures a.NoData? ==> a.error == "No hay datos para " + destination
    ensures a.Snapshot? ==>
      && a.destination == destination
      && a.dataPoints == |records|
      && a.providersAnalyzed == Keys(records, ByProvider)
      && (forall p :: p in a.statsByProvider <==> p in a.providersAnalyzed)
  {
    if |records| == 0 then NoData("No hay datos para " + destination)
    else
      var providers := Keys(records, ByProvider);
      StatsTableEntries(records, providers);
      var stats := StatsTable(records, providers);
      Snapshot(destination, providers, stats, Cheapest(stats, providers), |records|)
  }

  /**
   * Each entry of the analysis is sound: it is the statistics of that
   * provider's records, the average rate lies between the minimum and the
   * maximum, the sample is not empty and the total cost is the average rate
   * plus the average fee.
   */
  lemma AnalysisStatsSound(destination: string, records: seq<ExchangeRecord>, p: string)
    requires AnalysisOf(destination, records).Snapshot?
    requires p in AnalysisOf(destination, records).statsByProvider
    ensures var st := AnalysisOf(destination, records).statsByProvider[p];
      && |Group(records, ByProvider, p)| > 0
      && st == StatsOf(Group(records, ByProvider, p))
      && st.minRate <= st.avgRate <= st.maxRate
      && st.sampleSize == |Group(records, ByProvider, p)| >= 1
      && st.totalCost == st.avgRate + st.avgFee
  {
    StatsTableEntries(records, Keys(records, ByProvider));
    GroupNonEmptyIffKey(records, ByProvider, p);
  }

  /**
   * The most competitive provider is one of the providers analysed, has the
   * least total cost, and no provider listed before it costs as little:
   * Python's `min` keeps the first of equal keys, and there is no further
   * tie-break.
   */
  lemma MostCompetitiveIsFirstCheapest(destination: string, records: seq<ExchangeRecord>)
    requires |records| > 0
    ensures var a := AnalysisOf(destination, records);
      && a.Snapshot?
      && a.mostCompetitive.provider in a.statsByProvider
      && a.mostCompetitive.totalCost == a.statsByProvider[a.mostCompetitive.provider].totalCost
      && (forall p :: p in a.statsByProvider ==> a.mostCompetitive.totalCost <= a.statsByProvider[p].totalCost)
      && exists k :: 0 <= k < |a.providersAnalyzed| && a.providersAnalyzed[k] == a.mostCompetitive.provider &&
           forall i :: 0 <= i < k ==> a.statsByProvider[a.providersAnalyzed[i]].totalCost > a.mostCompetitive.totalCost
  {
    var providers := Keys(records, ByProvider);
    StatsTableEntries(records, providers);
    var stats := StatsTable(records, providers);
    assert AnalysisOf(destination, records) == Snapshot(destination, providers, stats, Cheapest(stats, providers), |records|);
    CheapestIsFirstLeast(stats, providers);
  }

  /** The total of `sample_size` over the listed providers. */
  function SampleTotal(stats: map<string, ProviderStats>, providers: seq<string>): nat
    requires forall p :: p in providers ==> p in stats
  {
    if |providers| == 0 then 0
    else SampleTotal(stats, providers[..|providers| - 1]) + stats[providers[|providers| - 1]].sampleSize
  }

  lemma {:induction false} SampleTotalIsSizeSum(records: seq<ExchangeRecord>, providers: seq<string>, all: seq<string>)
    requires forall p :: p in all ==> p in Keys(records, ByProvider)
    requires forall p :: p in providers ==> p in all
    ensures forall p :: p in providers ==> p in StatsTable(records, all)
    ensures SampleTotal(StatsTable(records, all), providers) == SizeSum(records, ByProvider, providers)
  {
    StatsTableEntries(records, all);
    if |providers| > 0 {
      SampleTotalIsSizeSum(records, providers[..|providers| - 1], all);
    }
  }

  /** The sample sizes add up to the number of records analysed: each record is counted once. */
  lemma SampleSizesSumToDataPoints(destination: string, records: seq<ExchangeRecord>)
    requires AnalysisOf(destination, records).Snapshot?
    ensures var a := AnalysisOf(destination, records);
      SampleTotal(a.statsByProvider, a.providersAnalyzed) == a.dataPoints
  {
    var providers := Keys(records, ByProvider);
    SampleTotalIsSizeSum(records, providers, providers);
    GroupSizesSum(records, ByProvider);
  }

  /** The records `get_competitive_analysis` looks at: the 100 newest for the destination. */
  function Window(table: seq<Row>, destination: string): seq<ExchangeRecord> {
    Records(QueryRows(table, Some(destination), None, Some(100)))
  }

  /**
   * The analysis covers at most 100 records, all of the destination (unless
   * the destination is empty, which filters nothing).
   */
  lemma WindowIsNewestHundred(table: seq<Row>, destination: string)
    ensures |Window(table, destination)| <= 100
    ensures destination != "" ==> forall r :: r in Window(table, destination) ==> r.destination == destination
  {
    QueryRowsExactlySelected(table, Some(destination), None, Some(100));
    var rows := QueryRows(table, Some(destination), None, Some(100));
    forall r | r in Window(table, destination)
      ensures destination != "" ==> r.destination == destination
    {
      var i :| 0 <= i < |rows| && Window(table, destination)[i] == r;
      assert rows[i] in rows;
    }
  }

  /** The per-provider loop of `get_competitive_analysis`, over the grouped records. */
  method ProviderStatsLoop(records: seq<ExchangeRecord>, providers: seq<string>, groups: map<string, seq<ExchangeRecord>>)
    returns (stats: map<string, ProviderStats>)
    requires forall p :: p in providers ==> p in Keys(records, ByProvider)
    requires forall k :: k in groups <==> k in providers
    requires forall k :: k in groups ==> groups[k] == Group(records, ByProvider, k)
    ensures stats == StatsTable(records, providers)
  {
    stats := map[];
    for i := 0 to |providers|
      invariant stats == StatsTable(records, providers[..i])
    {
      var p := providers[i];
      StatsTableStep(records, providers, i);
      GroupNonEmptyIffKey(records, ByProvider, p);
      stats := stats[p := StatsOf(groups[p])];
    }
    assert providers[..|providers|] == providers;
  }

  /** The analysis of the records `filter_data` returned. */
  method AnalyzeRecords(destination: string, records: seq<ExchangeRecord>) returns (a: Analysis)
    ensures a == AnalysisOf(destination, records)
  {
    if |records| == 0 {
      return NoData("No hay datos para " + destination);
    }
    var providers, byProvider := GroupBy(records, ByProvider);
    var stats := ProviderStatsLoop(records, providers, byProvider);
    StatsTableEntries(records, providers);
    a := Snapshot(destination, providers, stats, Cheapest(stats, providers), |records|);
  }

  /** `get_competitive_analysis` over the table's rows. */
  method GetCompetitiveAnalysis(table: seq<Row>, destination: string) returns (a: Analysis)
    ensures a == AnalysisOf(destination, Window(table, destination))
  {
    var records := FilterData(table, Some(destination), None, Some(100));
    a := AnalyzeRecords(destination, records);
  }

  /** One `### provider` block of the context. */
  datatype ProviderSection = ProviderSection(provider: string, avgRate: real, avgFee: real, totalCost: real, count: nat)

  /** One `## corridor` block of the context. */
  datatype CorridorSection = CorridorSection(corridor: string, providers: seq<ProviderSection>)

  /**
   * What `build_context_for_query` writes: a fixed "no data" message, or the
   * record count, the newest timestamp and one block per corridor.
   */
  datatype Context =
    | NoMatchingData
    | Report(totalRecords: nat, lastUpdate: int, corridors: seq<CorridorSection>)

  /** The block of provider `p`: its statistics as the context prints them. */
  function ProviderSectionOf(recs: seq<ExchangeRecord>, p: string): (s: ProviderSection)
    requires p in Keys(recs, ByProvider)
    ensures s.provider == p && s.count == |Group(recs, ByProvider, p)| && s.count >= 1
    ensures s.totalCost == s.avgRate + s.avgFee
  {
    var st := ProviderStatsOf(recs, p);
    ProviderSection(p, st.avgRate, st.avgFee, st.totalCost, st.sampleSize)
  }

  /** A provider's block prints the mean rate and the mean fee of that provider's records. */
  lemma ProviderSectionMeans(recs: seq<ExchangeRecord>, p: string)
    requires p in Keys(recs, ByProvider)
    ensures var g := Group(recs, ByProvider, p);
      && |g| > 0
      && ProviderSectionOf(recs, p).avgRate == Mean(Rates(g))
      && ProviderSectionOf(recs, p).avgFee == Mean(Fees(g))
  {
    GroupNonEmptyIffKey(recs, ByProvider, p);
  }

  /** The blocks of the listed providers of one corridor's records, in order. */
  function ProviderSections(recs: seq<ExchangeRecord>, ps: seq<string>): (ss: seq<ProviderSection>)
    requires forall p :: p in ps ==> p in Keys(recs, ByProvider)
    ensures |ss| == |ps|
    ensures forall j :: 0 <= j < |ps| ==> ss[j] == ProviderSectionOf(recs, ps[j])
    ensures forall j :: 0 <= j < |ps| ==> ss[j].provider == ps[j] && ss[j].count >= 1
    ensures forall j :: 0 <= j < |ps| ==> ss[j].count == |Group(recs, ByProvider, ps[j])|
  {
    if |ps| == 0 then []
    else ProviderSections(recs, ps[..|ps| - 1]) + [ProviderSectionOf(recs, ps[|ps| - 1])]
  }

  lemma ProviderSectionsStep(recs: seq<ExchangeRecord>, ps: seq<string>, j: nat)
    requires forall p :: p in ps ==> p in Keys(recs, ByProvider)
    requires j < |ps|
    ensures ProviderSections(recs, ps[..j + 1]) == ProviderSections(recs, ps[..j]) + [ProviderSectionOf(recs, ps[j])]
  {
    assert ps[..j + 1][..j] == ps[..j];
  }

  /** The block of one corridor: its providers in order of first appearance. */
  function CorridorSectionOf(records: seq<ExchangeRecord>, c: string): (s: CorridorSection)
    ensures s.corridor == c
  {
    var recs := Group(records, ByCorridor, c);
    CorridorSection(c, ProviderSections(recs, Keys(recs, ByProvider)))
  }

  /**
   * A corridor's block has one subsection per provider of the corridor's
   * records, in order of first appearance, each counting that provider's
   * records in the corridor and being that provider's block within the
   * corridor, whose averages `ProviderSectionMeans` states.
   */
  lemma CorridorSectionProviders(records: seq<ExchangeRecord>, c: string)
    ensures var g := Group(records, ByCorridor, c);
      var s := CorridorSectionOf(records, c);
      && |s.providers| == |Keys(g, ByProvider)|
      && forall j :: 0 <= j < |s.providers| ==>
           && s.providers[j].provider == Keys(g, ByProvider)[j]
           && s.providers[j].count == |Group(g, ByProvider, s.providers[j].provider)|
           && Keys(g, ByProvider)[j] in Keys(g, ByProvider)
           && s.providers[j] == ProviderSectionOf(g, Keys(g, ByProvider)[j])
  {
  }

  /** The blocks of the listed corridors, in order. */
  function CorridorSections(records: seq<ExchangeRecord>, cs: seq<string>): (ss: seq<CorridorSection>)
    ensures |ss| == |cs|
    ensures forall i :: 0 <= i < |cs| ==> ss[i] == CorridorSectionOf(records, cs[i])
    ensures forall i :: 0 <= i < |cs| ==> ss[i].corridor == cs[i]
  {
    if |cs| == 0 then []
    else CorridorSections(records, cs[..|cs| - 1]) + [CorridorSectionOf(records, cs[|cs| - 1])]
  }

  lemma CorridorSectionsStep(records: seq<ExchangeRecord>, cs: seq<string>, i: nat)
    requires i < |cs|
    ensures CorridorSections(records, cs[..i + 1]) == CorridorSections(records, cs[..i]) + [CorridorSectionOf(records, cs[i])]
  {
    assert cs[..i + 1][..i] == cs[..i];
  }

  /** The context of a window of records, newest first. */
  function ContextOf(records: seq<ExchangeRecord>): (ctx: Context)
    ensures ctx.NoMatchingData? <==> |records| == 0
    ensures ctx.Report? ==> ctx.totalRecords == |records| && |ctx.corridors| == |Keys(records, ByCorridor)|
  {
    if |records| == 0 then NoMatchingData
    else Report(|records|, records[0].timestamp, CorridorSections(records, Keys(records, ByCorridor)))
  }

  /** The counts of the blocks, added up. */
  function CountTotal(ss: seq<ProviderSection>): nat {
    if |ss| == 0 then 0 else CountTotal(ss[..|ss| - 1]) + ss[|ss| - 1].count
  }

  lemma {:induction false} CountTotalIsSizeSum(recs: seq<ExchangeRecord>, ps: seq<string>)
    requires forall p :: p in ps ==> p in Keys(recs, ByProvider)
    ensures CountTotal(ProviderSections(recs, ps)) == SizeSum(recs, ByProvider, ps)
  {
    if |ps| > 0 {
      var init := ps[..|ps| - 1];
      CountTotalIsSizeSum(recs, init);
      assert ProviderSections(recs, ps)[..|ps| - 1] == ProviderSections(recs, init);
    }
  }

  /** The counts of the provider blocks of all corridors, added up. */
  function ReportTotal(ss: seq<CorridorSection>): nat {
    if |ss| == 0 then 0 else ReportTotal(ss[..|ss| - 1]) + CountTotal(ss[|ss| - 1].providers)
  }

  lemma {:induction false} ReportTotalIsSizeSum(records: seq<ExchangeRecord>, cs: seq<string>)
    ensures ReportTotal(CorridorSections(records, cs)) == SizeSum(records, ByCorridor, cs)
  {
    if |cs| > 0 {
      var init := cs[..|cs| - 1];
      var recs := Group(records, ByCorridor, cs[|cs| - 1]);
      ReportTotalIsSizeSum(records, init);
      assert CorridorSections(records, cs)[..|cs| - 1] == CorridorSections(records, init);
      CountTotalIsSizeSum(recs, Keys(recs, ByProvider));
      GroupSizesSum(recs, ByProvider);
    }
  }

  /**
   * Every record of the window is counted in exactly one provider block: the
   * counts of all blocks add up to the context's number of records.
   */
  lemma BlockCountsSumToTotal(records: seq<ExchangeRecord>)
    requires |records| > 0
    ensures ContextOf(records).Report?
    ensures ReportTotal(ContextOf(records).corridors) == ContextOf(records).totalRecords
  {
    ReportTotalIsSizeSum(records, Keys(records, ByCorridor));
    GroupSizesSum(records, ByCorridor);
  }

  /** The context's "last update" is the timestamp of a record of the window, and no record is newer. */
  lemma LastUpdateIsNewest(table: seq<Row>, destination: Option<string>, provider: Option<string>, limit: Option<int>)
    ensures var records := Records(QueryRows(table, destination, provider, limit));
      ContextOf(records).Report? ==>
        && (forall r :: r in records ==> r.timestamp <= ContextOf(records).lastUpdate)
        && exists r :: r in records && r.timestamp == ContextOf(records).lastUpdate
  {
    var rows := QueryRows(table, destination, provider, limit);
    var records := Records(rows);
    QueryRowsNewestFirst(table, destination, provider, limit);
    if |records| > 0 {
      assert records[0] in records;
      forall r | r in records
        ensures r.timestamp <= records[0].timestamp
      {
        var i :| 0 <= i < |records| && records[i] == r;
        if i > 0 {
          assert rows[0].timestamp >= rows[i].timestamp;
        }
      }
    }
  }

  /** Every corridor block is named "USA-" and the destination of a record in the window. */
  lemma CorridorsNameDestinations(rows: seq<Row>, i: nat)
    requires ContextOf(Records(rows)).Report?
    requires i < |ContextOf(Records(rows)).corridors|
    ensures exists r :: r in Records(rows) && ContextOf(Records(rows)).corridors[i].corridor == "USA-" + r.destination
  {
    var records := Records(rows);
    var c := Keys(records, ByCorridor)[i];
    assert c in Keys(records, ByCorridor);
    KeysAreOccurringKeys(records, ByCorridor);
    var n :| 0 <= n < |records| && KeyOf(records[n], ByCorridor) == c;
    assert records[n] in records;
  }

  /** The provider loop of one corridor in `build_context_for_query`, over the grouped records. */
  method ProviderSectionsLoop(recs: seq<ExchangeRecord>, providers: seq<string>, groups: map<string, seq<ExchangeRecord>>)
    returns (blocks: seq<ProviderSection>)
    requires forall p :: p in providers ==> p in Keys(recs, ByProvider)
    requires forall k :: k in groups <==> k in providers
    requires forall k :: k in groups ==> groups[k] == Group(recs, ByProvider, k)
    ensures blocks == ProviderSections(recs, providers)
  {
    blocks := [];
    for j := 0 to |providers|
      invariant blocks == ProviderSections(recs, providers[..j])
    {
      var p := providers[j];
      ProviderSectionsStep(recs, providers, j);
      GroupNonEmptyIffKey(recs, ByProvider, p);
      var st := StatsOf(groups[p]);
      blocks := blocks + [ProviderSection(p, st.avgRate, st.avgFee, st.totalCost, st.sampleSize)];
    }
    assert providers[..|providers|] == providers;
  }

  /** The block of one corridor, from that corridor's records. */
  method BuildCorridorSection(records: seq<ExchangeRecord>, c: string, recs: seq<ExchangeRecord>) returns (s: CorridorSection)
    requires recs == Group(records, ByCorridor, c)
    ensures s == CorridorSectionOf(records, c)
  {
    var providers, byProvider := GroupBy(recs, ByProvider);
    var blocks := ProviderSectionsLoop(recs, providers, byProvider);
    s := CorridorSection(c, blocks);
  }

  /** The corridor loop of `build_context_for_query`, over the grouped records. */
  method CorridorSectionsLoop(records: seq<ExchangeRecord>, corridors: seq<string>, groups: map<string, seq<ExchangeRecord>>)
    returns (sections: seq<CorridorSection>)
    requires forall k :: k in groups <==> k in corridors
    requires forall k :: k in groups ==> groups[k] == Group(records, ByCorridor, k)
    ensures sections == CorridorSections(records, corridors)
  {
    sections := [];
    for i := 0 to |corridors|
      invariant sections == CorridorSections(records, corridors[..i])
    {
      var c := corridors[i];
      CorridorSectionsStep(records, corridors, i);
      var s := BuildCorridorSection(records, c, groups[c]);
      sections := sections + [s];
    }
    assert corridors[..|corridors|] == corridors;
  }

  /** The context of the records `filter_data` returned. */
  method ContextFor(records: seq<ExchangeRecord>) returns (ctx: Context)
    ensures ctx == ContextOf(records)
  {
    if |records| == 0 {
      return NoMatchingData;
    }
    var corridors, byCorridor := GroupBy(records, ByCorridor);
    var sections := CorridorSectionsLoop(records, corridors, byCorridor);
    ctx := Report(|records|, records[0].timestamp, sections);
  }

  /** `build_context_for_query` over the table's rows. */
  method BuildContextForQuery(table: seq<Row>, destination: Option<string>, provider: Option<string>, limit: int) returns (ctx: Context)
    ensures ctx == ContextOf(Records(QueryRows(table, destination, provider, Some(limit))))
  {
    var records := FilterData(table, destination, provider, Some(limit));
    ctx := ContextFor(records);
  }
}
