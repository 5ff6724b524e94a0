# ragfin1-api core, modelled in Dafny

ragfin1-api collects and compares money-transfer quotes for remittance
corridors from the USA to Latin America. This project models its core:

- **Per-provider quote estimators.** These cover Western Union, Intermex,
  Wise, Remitly and Xoom. Each one charges a fee, applies a rate markup (or a
  random jitter) to a market rate, and returns a quote dictionary or a
  failure. Some do the whole corridor list; others do a single country (DO,
  GT, MX or SV).
- **The SQLite quote store** (`ragfin1_db.py`). It appends rows with
  auto-increment ids, looks up the latest row of a corridor and counts the
  rows.
- **The analysis engine** (`ragfin1_rag.py`):
  - it filters the stored quotes, newest first and limited;
  - it groups them by provider and by corridor, keeping the order in which
    each key first appears;
  - it computes per-provider statistics and picks the first cheapest
    provider;
  - it builds the context report for the language model;
  - it keeps the usage counters of `query`.
- **The crypto-versus-traditional comparison** (`crypto_rates_scraper.py`):
  - it transforms CoinGecko prices;
  - it filters Binance tickers;
  - it merges the two sources with CoinGecko preferred;
  - it computes the coverage summary;
  - it compares a crypto rate with the cheapest traditional quote.
- **The card premium calculator** (`card_scrapers.py`). It prices bank
  transfer, debit and credit card for every provider of a country.

## How the code is modelled

**Money.** Money and rates are `real`, so arithmetic is exact. The
`round(...)` calls are left out.

**External inputs become parameters.** The network, the clock, random numbers
and the language model are all passed in:

- the exchange-rate service is a function `(currency, amount) -> Option<RateReply>`;
- the CoinGecko reply is an `Option<seq<CoinPrices>>`;
- a Binance ticker is a function `symbol -> Option<real>`;
- `datetime.now()` is a parameter `now`;
- `random.uniform` is a parameter `jitter`, bounded as the source bounds it;
- the LLM call is an `LlmOutcome` (a reply with its token counts, or a
  raised error).

**Stateful code becomes imperative Dafny.**

- The store is a `class Database` with a `seq<Row>` field.
- The engine's counters are a `class Engine`.
- Each loop of the source is a `method`. That method is proved equal to a
  specification function, and the properties are proved about the function.

**Python behaviours modelled explicitly:**

- dict insertion order;
- `min(..., key=...)`, which picks the first least element (`Ranking.FirstMinIndex`);
- `defaultdict` grouping;
- truthiness (`if limit:`, `if amount:`, `if rate:`);
- `dict.get(key, default)`.

**Where the code and its documentation disagree, the model follows the code.**

- No input validation is performed.
- There is no cache.
- The most competitive provider has no sample-size tie-break.

## Model

| member | source | states |
|---|---|---|
| Ascii.Upper | card_scrapers.py:129-132 | `country.upper()` keeps the length and upper-cases each ASCII letter in place |
| Ascii.Lower | crypto_rates_scraper.py:66 | `currency.lower()` keeps the length and lower-cases each ASCII letter in place |
| Ranking.FirstMinIndex | ragfin1_rag.py:161-162 | Python's `min` with a key returns a position whose key is at most every key, and every earlier key is strictly larger |
| Ranking.FirstMinIndexUnique | crypto_rates_scraper.py:183-186 | those two properties single out exactly one position |
| FeeTiers.TierFeeOfFirstMatch | wu_scraper_real_v2.py:43-47 | the tier search charges the fee of the first range that holds the amount |
| FeeTiers.TierFeeOfNoMatch | wu_scraper_real_v2.py:43-47 | an amount that no range holds keeps the initial fee 0.0 |
| FeeTiers.LookupFee | wu_scraper_real_v2.py:43-47 | the `for ... break` loop returns exactly the first-match fee |
| Estimates.EffectiveRateOfDeduction | wu_scraper_DO.py:39-43 | when the fee is deducted before conversion, the effective rate equals the rate times (1 - fee/amount), so it is below the rate whenever fee and rate are positive |
| WesternUnionReal.TargetCurrency | wu_scraper_real_v2.py:15-20 | an unmapped destination falls back to MXN |
| WesternUnionReal.FeeStructureIsSchedule | wu_scraper_real_v2.py:35-47 | the ordered fee table charges the closed-form schedule for every amount |
| WesternUnionReal.FeeNonDecreasing | wu_scraper_real_v2.py:35-41 | the fee never decreases as the amount grows, a negative amount (fee 0) included |
| WesternUnionReal.Estimate | wu_scraper_real_v2.py:12-64 | fails exactly when the rate fetch fails; otherwise the rate is 0.97 times the market rate, the fee is the schedule fee, the recipient gets amount times rate and the total cost is amount plus fee |
| WesternUnionReal.GetEstimate | wu_scraper_real_v2.py:12-64 | the method returns the specified estimate |
| WesternUnionReal.CompareCorridors | wu_scraper_real_v2.py:66-75 | one estimate per corridor, in order, with missing keys defaulting to US, MX and 500.0 |
| IntermexReal.TargetCurrency | intermex_scraper_real_v2.py:15-20 | an unmapped destination falls back to MXN |
| IntermexReal.FeeStructureIsSchedule | intermex_scraper_real_v2.py:35-47 | the ordered fee table charges the closed-form schedule |
| IntermexReal.FeeNonDecreasing | intermex_scraper_real_v2.py:35-41 | the fee never decreases as the amount grows, a negative amount (fee 0) included |
| IntermexReal.Estimate | intermex_scraper_real_v2.py:12-64 | fails exactly when the fetch fails; otherwise the rate is 0.985 times the market rate, the fee is the schedule fee, the recipient gets amount times rate and the total is amount plus fee |
| IntermexReal.GetEstimate | intermex_scraper_real_v2.py:12-64 | the method returns the specified estimate |
| IntermexReal.CompareCorridors | intermex_scraper_real_v2.py:66-75 | one estimate per corridor, in order, with defaults US, MX and 500.0 |
| WiseReal.TargetCurrency | wise_scraper_real.py:16-21 | an unmapped destination falls back to MXN |
| WiseReal.Estimate | wise_scraper_real.py:12-59 | fails exactly when the fetch fails; otherwise the service's rate and converted amount pass through unchanged, the fee follows `calculate_wise_fee`'s four bands, so a non-negative amount pays at least 1.50, and the total is amount plus fee |
| WiseReal.CompareCorridors | wise_scraper_real.py:61-70 | one estimate per corridor, in order, with defaults US, MX and 500.0 |
| RemitlyGT.FeeStructureIsSchedule | remitly_scraper_GT.py:27-39 | the ordered fee table charges the closed-form schedule |
| RemitlyGT.Estimate | remitly_scraper_GT.py:12-56 | fails exactly when the GTQ fetch fails; otherwise the rate is 0.98 times the market rate, the recipient gets amount times rate and the total is amount plus fee |
| RemitlyGT.GetEstimate | remitly_scraper_GT.py:12-56 | the method returns the specified estimate |
| RemitlyGT.CompareCorridors | remitly_scraper_GT.py:58-67 | one estimate per corridor, in order, with defaults US, GT and 500.0 |
| IntermexGT.FeeStructureIsSchedule | intermex_scraper_GT.py:27-39 | the ordered fee table charges the closed-form schedule |
| IntermexGT.FeeNonDecreasing | intermex_scraper_GT.py:27-33 | the fee never decreases as the amount grows, a negative amount (fee 0) included |
| IntermexGT.Estimate | intermex_scraper_GT.py:12-56 | fails exactly when the GTQ fetch fails; otherwise the rate is 0.985 times the market rate, the recipient gets amount times rate and the total is amount plus fee |
| IntermexGT.GetEstimate | intermex_scraper_GT.py:12-56 | the method returns the specified estimate |
| IntermexGT.CompareCorridors | intermex_scraper_GT.py:58-67 | one estimate per corridor, in order, with defaults US, GT and 500.0 |
| WiseGT.BandPercent | wise_scraper_GT.py:26-34 | the percentage lies between 0.5% and 0.8%: 0.8% up to 500 and 0.5% above 5000 |
| WiseGT.Fee | wise_scraper_GT.py:26-38 | the fee is the banded percentage of the amount, raised to the 3.00 minimum, so it is at least both |
| WiseGT.SmallAmountsPayMinimum | wise_scraper_GT.py:26-38 | every amount up to 375 pays exactly the 3.00 minimum |
| WiseGT.Estimate | wise_scraper_GT.py:12-55 | fails exactly when the GTQ fetch fails; otherwise the mid-market rate is used without markup, the fee is at least the minimum, and the total is amount plus fee |
| WiseGT.CompareCorridors | wise_scraper_GT.py:57-66 | one estimate per corridor, in order, with defaults US, GT and 500.0 |
| WesternUnionDO.Fee | wu_scraper_DO.py:27-36 | the fee lies between 5.00 and 20.00 |
| WesternUnionDO.FeeNonDecreasing | wu_scraper_DO.py:27-36 | the fee never decreases as the amount grows |
| WesternUnionDO.Estimate | wu_scraper_DO.py:10-62 | `None` exactly when the DOP fetch fails. Otherwise: the rate is 0.965 times the market rate; the recipient gets (amount - fee) times the rate; the effective rate is below the rate for a positive amount and 0 otherwise; the corridor is origin-destination |
| IntermexDO.Fee | intermex_scraper_DO.py:27-36 | the fee lies between 4.99 and 19.99 |
| IntermexDO.FeeNonDecreasing | intermex_scraper_DO.py:27-36 | the fee never decreases as the amount grows |
| IntermexDO.Estimate | intermex_scraper_DO.py:10-62 | `None` exactly when the DOP fetch fails; otherwise the rate is 0.970 times the market rate, the fee is deducted before conversion, and the effective rate is below the rate |
| WiseDO.Fee | wise_scraper_DO.py:27-36 | the fee lies between 3.50 and 18.00 |
| WiseDO.FeeNonDecreasing | wise_scraper_DO.py:27-36 | the fee never decreases as the amount grows |
| WiseDO.Estimate | wise_scraper_DO.py:10-62 | `None` exactly when the DOP fetch fails; otherwise the rate is 0.995 times the market rate, the fee is deducted before conversion, and the effective rate is below the rate |
| RemitlyDO.Fee | remitly_scraper_DO.py:27-36 | every branch of the fee chain charges 3.99 |
| RemitlyDO.Estimate | remitly_scraper_DO.py:10-62 | `None` exactly when the DOP fetch fails; otherwise the rate is 0.975 times the market rate, the fee is deducted before conversion, and the effective rate is below the rate |
| RemitlyMX.Estimate | remitly_scraper_MX.py:9-42 | `None` exactly when the MXN fetch fails; otherwise the rate is 0.975 times the market rate, the flat fee of 3.99 is deducted before conversion, and the effective rate is below the rate |
| WesternUnionSV.Fee | wu_scraper_SV.py:16-25 | the fee lies between 4.00 and 18.00 |
| WesternUnionSV.FeeNonDecreasing | wu_scraper_SV.py:16-25 | the fee never decreases as the amount grows |
| WesternUnionSV.Estimate | wu_scraper_SV.py:7-51 | no conversion, so the rate is 1.0 and recipient plus fee equals the amount. The recipient amount is negative exactly when the amount is below the fee. The effective rate is 1 - fee/amount, below 1, for a positive amount |
| IntermexSV.Fee | intermex_scraper_SV.py:15-24 | the fee lies between 3.99 and 17.99 |
| IntermexSV.FeeNonDecreasing | intermex_scraper_SV.py:15-24 | the fee never decreases as the amount grows |
| IntermexSV.Estimate | intermex_scraper_SV.py:7-50 | the rate is 1.0 and recipient plus fee equals the amount; the recipient amount is negative exactly when the amount is below the fee; the effective rate is below 1 for a positive amount |
| WiseSV.Fee | wise_scraper_SV.py:16-25 | the fee lies between 2.50 and 15.00 |
| WiseSV.FeeNonDecreasing | wise_scraper_SV.py:16-25 | the fee never decreases as the amount grows |
| WiseSV.Estimate | wise_scraper_SV.py:7-51 | the rate is 1.0 and recipient plus fee equals the amount; the recipient amount is negative exactly when the amount is below the fee; the effective rate is below 1 for a positive amount |
| RemitlySV.Estimate | remitly_scraper_SV.py:7-42 | the flat 3.99 fee is taken from the amount at rate 1.0; the effective rate is below 1 for a positive amount |
| WesternUnionV2.BaseRate | core/wu_scraper_v2.py:17-23 | an unknown destination gets rate 1.0 |
| WesternUnionV2.Estimate | core/wu_scraper_v2.py:16-61 | the fee is the Western Union schedule; the rate stays within 0.05 of the table rate; the recipient gets amount times rate and the total is amount plus fee |
| WesternUnionV2.GetEstimate | core/wu_scraper_v2.py:16-61 | the method returns the specified quote for the given jitter |
| WesternUnionV2.CompareCorridors | core/wu_scraper_v2.py:63-71 | one quote per corridor, in order, each with its own jitter, with defaults US, MX and 500.0 |
| WiseEstimator.CalculateWiseFee | wise_scraper.py:16-24 | for a non-negative amount the fee is at least 1.50, and lies between 0.6% of the amount plus 1.50 and 1.5% plus 5.00 |
| WiseEstimator.FeeBandBoundaries | wise_scraper.py:16-24 | the fee is 3.00 at 100, where the two lowest bands meet, and above it just after; the edges 1000 and 5000 belong to the lower band, which charges 12.00 and 43.00 there, and the fee drops just after each |
| WiseEstimator.BaseRate | wise_scraper.py:14 | an unknown destination gets rate 1.0 |
| WiseEstimator.Estimate | wise_scraper.py:13-46 | the fee is `calculate_wise_fee`; the rate stays within 0.05 of the table rate; delivery is "1-2 days" exactly below 5000, else "2-3 days" |
| WiseEstimator.CompareCorridors | wise_scraper.py:48-57 | one quote per corridor, in order, each with its own jitter |
| RemitlyEstimator.BaseRate | remitly_scraper.py:14 | an unknown destination gets rate 1.0 |
| RemitlyEstimator.FeeStructureIsSchedule | remitly_scraper.py:15-27 | the ordered fee table charges the closed-form schedule |
| RemitlyEstimator.FeeNonDecreasing | remitly_scraper.py:15-27 | the fee never decreases as the amount grows, a negative amount (fee 0) included |
| RemitlyEstimator.Estimate | remitly_scraper.py:13-48 | the rate stays within 0.08 of the table rate; the total is amount plus fee; delivery is "Minutes" exactly below 1000, else "Hours" |
| RemitlyEstimator.GetEstimate | remitly_scraper.py:13-48 | the method returns the specified quote for the given jitter |
| RemitlyEstimator.CompareCorridors | remitly_scraper.py:50-59 | one quote per corridor, in order, each with its own jitter |
| XoomEstimator.BaseRate | xoom_scraper.py:14 | an unknown destination gets rate 1.0 |
| XoomEstimator.Estimate | xoom_scraper.py:13-48 | the fee table is Intermex's; the rate stays within 0.06 of the table rate; delivery is "Minutes" exactly below 2000, else "Hours" |
| XoomEstimator.GetEstimate | xoom_scraper.py:13-48 | the method returns the specified quote for the given jitter |
| XoomEstimator.CompareCorridors | xoom_scraper.py:50-59 | one quote per corridor, in order, each with its own jitter |
| QuoteStore.RowFrom | ragfin1_db.py:52-64 | every one of the thirteen columns: a present key is stored as given; a missing key becomes "Unknown" for the provider, "" for the text columns, 0.0 for the numeric columns and `now` for the timestamp |
| QuoteStore.ZeroAmountIsNoFilter | ragfin1_db.py:70 | an amount of 0.0 filters exactly like no amount |
| QuoteStore.NewestInsertIsLatest | ragfin1_db.py:43-88 | a matching row strictly newer than every stored match becomes, once inserted, the one and only latest match |
| QuoteStore.Database.constructor | ragfin1_db.py:10-41 | the table starts empty and the ids start at 1 |
| QuoteStore.Database.InsertCorridorData | ragfin1_db.py:43-67 | appends exactly one row built from the data. The old rows are kept. The returned id exceeds every earlier id. The `get_stats` count (90-94) grows by one |
| QuoteStore.Database.GetLatestCorridor | ragfin1_db.py:69-88 | `None` exactly when no row matches; otherwise a matching row whose timestamp is the greatest among the matches |
| QuoteStore.InsertThenLookup | ragfin1_db.py:43-88 | looking up a corridor right after inserting a newer quote for it returns that very row |
| RagRecords.NewRecord | ragfin1_rag.py:21-32 | the corridor of a record is "USA-" followed by its destination |
| RagRecords.Select | ragfin1_rag.py:102-111 | keeps exactly the rows matching each truthy filter |
| RagRecords.SelectCounts | ragfin1_rag.py:102-111 | a matching row is kept as many times as it occurs in the table; every other row is dropped |
| RagRecords.NewestFirst | ragfin1_rag.py:113 | `ORDER BY timestamp DESC` gives a newest-first permutation of its input |
| RagRecords.Limit | ragfin1_rag.py:115-116 | a positive limit keeps that many leading rows; a missing or zero limit keeps all of them |
| RagRecords.QueryRowsExactlySelected | ragfin1_rag.py:102-118 | every returned row passes the filters; without a limit the result is a permutation of the filtered rows |
| RagRecords.QueryRowsNewestFirst | ragfin1_rag.py:102-118 | the result is newest first, and no filtered row that the limit drops is newer than a returned one |
| RagRecords.InsertPermutes | ragfin1_rag.py:113 | the ordering step only rearranges rows |
| RagRecords.InsertKeepsOrder | ragfin1_rag.py:113 | the ordering step keeps the newest-first order |
| RagRecords.SelectNothingFiltered | ragfin1_rag.py:105-111 | with no filters every row is selected |
| RagRecords.FilterData | ragfin1_rag.py:94-131 | the method returns the records of the specified query |
| RagRecords.LoadAllIsUnfiltered | ragfin1_rag.py:70-92 | loading everything is the query with no filter and no limit |
| RagRecords.LoadAllData | ragfin1_rag.py:70-92 | all rows, newest first |
| RagGrouping.Keys | ragfin1_rag.py:141-143 | the group keys have no duplicates, are no more numerous than the records, and exist whenever a record does |
| RagGrouping.KeysAreOccurringKeys | ragfin1_rag.py:141-143 | a string is a key exactly when some record carries it |
| RagGrouping.GroupIsRecordsWithKey | ragfin1_rag.py:141-143 | a group holds exactly the records with its key |
| RagGrouping.GroupNonEmptyIffKey | ragfin1_rag.py:141-143 | a group is non-empty exactly when its key is a key |
| RagGrouping.FirstAt | ragfin1_rag.py:141-143 | the first position of a key's record |
| RagGrouping.KeysInFirstAppearanceOrder | ragfin1_rag.py:141-143 | `defaultdict` keys come in the order their first records appear |
| RagGrouping.GroupSizesSum | ragfin1_rag.py:141-143 | the group sizes add up to the number of records |
| RagGrouping.GroupBy | ragfin1_rag.py:141-143 | the grouping loop builds exactly those keys and groups |
| RagStats.MinOf | ragfin1_rag.py:151 | `np.min` is an element at most every element |
| RagStats.MaxOf | ragfin1_rag.py:152 | `np.max` is an element at least every element |
| RagStats.MeanBetweenMinAndMax | ragfin1_rag.py:150-152 | the mean lies between the minimum and the maximum |
| RagStats.StatsOf | ragfin1_rag.py:146-158 | the average rate and fee are the means of the group's rates and fees, the min and max rate are the least and greatest rate; min rate <= average rate <= max rate; the sample size is the group size; total cost is average rate plus average fee |
| RagStats.StatsOfRateRange | ragfin1_rag.py:150-152 | every rate lies in [min, max], and both ends are rates of the group |
| RagAnalysis.StatsTableEntries | ragfin1_rag.py:146-158 | there is one stats entry per provider, computed from its group |
| RagAnalysis.CheapestIsFirstLeast | ragfin1_rag.py:161-162 | the chosen provider has the least total cost, and every provider before it in the list costs strictly more |
| RagAnalysis.AnalysisOf | ragfin1_rag.py:133-173 | an error exactly when there are no records. Otherwise: the providers are the group keys; there is one stats entry per provider; the data points are the record count |
| RagAnalysis.AnalysisStatsSound | ragfin1_rag.py:146-158 | each provider's stats come from its non-empty group and respect min <= avg <= max |
| RagAnalysis.MostCompetitiveIsFirstCheapest | ragfin1_rag.py:161-173 | the most competitive provider is the first provider with the least total cost |
| RagAnalysis.SampleSizesSumToDataPoints | ragfin1_rag.py:146-173 | the sample sizes add up to the data points |
| RagAnalysis.WindowIsNewestHundred | ragfin1_rag.py:135 | the analysis sees at most 100 records, all for the destination |
| RagAnalysis.ProviderStatsLoop | ragfin1_rag.py:146-158 | the loop builds exactly the stats table |
| RagAnalysis.AnalyzeRecords | ragfin1_rag.py:137-173 | the method returns the specified analysis |
| RagAnalysis.GetCompetitiveAnalysis | ragfin1_rag.py:133-173 | the analysis of the newest 100 records of the destination |
| RagAnalysis.ProviderSectionOf | ragfin1_rag.py:205-217 | a provider block counts its group, which is non-empty, and its cost is average rate plus average fee |
| RagAnalysis.ProviderSectionMeans | ragfin1_rag.py:205-214 | a provider block's average rate and average fee are the means of that provider's rates and fees |
| RagAnalysis.ProviderSections | ragfin1_rag.py:205-217 | one block per provider, in key order, each being that provider's block (so its averages are the means of its rates and fees) and counting its records |
| RagAnalysis.CorridorSectionOf | ragfin1_rag.py:196-217 | a corridor section carries its corridor name |
| RagAnalysis.CorridorSectionProviders | ragfin1_rag.py:196-217 | a corridor section has one block per provider of that corridor's records, in order of first appearance, each counting that provider's records in the corridor and being that provider's block within the corridor, with the means of its rates and fees |
| RagAnalysis.CorridorSections | ragfin1_rag.py:196-217 | one section per corridor, in key order, each that corridor's block |
| RagAnalysis.ContextOf | ragfin1_rag.py:175-222 | no data exactly when there are no records; otherwise the record count and one section per corridor |
| RagAnalysis.CountTotalIsSizeSum | ragfin1_rag.py:205-217 | the provider counts of a block add up to the sizes of their groups |
| RagAnalysis.BlockCountsSumToTotal | ragfin1_rag.py:186-217 | the provider counts of all corridor sections add up to the total record count |
| RagAnalysis.LastUpdateIsNewest | ragfin1_rag.py:186-192 | the "last update" is the timestamp of a record and no record is newer |
| RagAnalysis.CorridorsNameDestinations | ragfin1_rag.py:195-198 | every corridor section is named "USA-" plus the destination of one of the records |
| RagAnalysis.ProviderSectionsLoop | ragfin1_rag.py:205-217 | the inner loop builds exactly the provider blocks |
| RagAnalysis.BuildCorridorSection | ragfin1_rag.py:199-217 | the method builds the specified corridor section |
| RagAnalysis.CorridorSectionsLoop | ragfin1_rag.py:199-217 | the outer loop builds exactly the corridor sections |
| RagAnalysis.ContextFor | ragfin1_rag.py:186-222 | the method builds the specified context |
| RagAnalysis.BuildContextForQuery | ragfin1_rag.py:175-222 | the context of the filtered and limited query |
| RagEngine.Engine.constructor | ragfin1_rag.py:60-62 | both counters start at 0 |
| RagEngine.Engine.Query | ragfin1_rag.py:224-310 | a reply adds one query and its tokens and is numbered with the new count; a raised error leaves the counters unchanged and has no answer |
| RagEngine.Engine.CompetitiveInsight | ragfin1_rag.py:312-349 | an analysis error is passed on without calling the model; a reply carries the numerical analysis and the answer; a failed query is passed on |
| RagEngine.Engine.Stats | ragfin1_rag.py:366-372 | reports the counters and the cost estimate of the tokens used |
| RagEngine.EstimatedCost | ragfin1_rag.py:371 | the cost is non-negative and at most 3.0 USD for up to a million tokens |
| RagEngine.EstimatedCostAdds | ragfin1_rag.py:371 | the cost of tokens is additive |
| RagEngine.EstimatedCostMonotone | ragfin1_rag.py:371 | more tokens never cost less |
| CryptoRates.Code | crypto_rates_scraper.py:25-34 | a mapped currency uses its CoinGecko code; any other is lower-cased |
| CryptoRates.CoinName | crypto_rates_scraper.py:61 | "tether" is renamed USDT and every other id USDC |
| CryptoRates.CoinEntriesExact | crypto_rates_scraper.py:64-71 | a currency has an entry exactly when it was requested and its code is priced; the entry holds the price and the 24h change, which defaults to 0 |
| CryptoRates.CoinGeckoRatesNames | crypto_rates_scraper.py:39-77 | a failed request yields an empty map; otherwise the only coin names are "USDT" and "USDC", and "USDT" is present exactly when the response has a "tether" key |
| CryptoRates.TransformNames | crypto_rates_scraper.py:60-73 | only USDT and USDC appear as coins |
| CryptoRates.TransformHasTether | crypto_rates_scraper.py:60-73 | USDT appears exactly when the reply contains the tether id |
| CryptoRates.LastKeyWins | crypto_rates_scraper.py:60-73 | when two ids rename to the same coin, the later one overwrites the earlier |
| CryptoRates.GetCoinGeckoRates | crypto_rates_scraper.py:39-77 | the loop builds exactly the specified map |
| CryptoRates.BinanceEntriesExact | crypto_rates_scraper.py:111-117 | a currency has an entry exactly when its ticker price is truthy (present and non-zero), and the entry holds that price |
| CryptoRates.GetBinanceRates | crypto_rates_scraper.py:98-122 | the loop builds exactly both coins' ticker maps |
| CryptoRates.Merge | crypto_rates_scraper.py:146-163 | a CoinGecko rate wins; Binance is used only when CoinGecko lacks the pair |
| CryptoRates.MergedEntrySources | crypto_rates_scraper.py:146-163 | a pair is unavailable exactly when neither source has it; a Binance rate is the non-zero ticker price; the rate is None exactly when unavailable |
| CryptoRates.MergedRowExact | crypto_rates_scraper.py:146-163 | a coin's row has exactly the requested currencies, each merged |
| CryptoRates.AllRatesExact | crypto_rates_scraper.py:124-165 | both coins, every requested currency, each entry merged |
| CryptoRates.MergeRow | crypto_rates_scraper.py:146-163 | the inner loop builds exactly the merged row |
| CryptoRates.GetAllRates | crypto_rates_scraper.py:124-165 | a missing currency list defaults to the eight tracked currencies, and the result holds the merged rates |
| CryptoRates.AvailableCount | crypto_rates_scraper.py:242 | the count of available rates is at most the number of currencies |
| CryptoRates.AvailableCountNone | crypto_rates_scraper.py:242 | the count is 0 exactly when every rate is unavailable |
| CryptoRates.AvailableCountAll | crypto_rates_scraper.py:242 | the count is full exactly when every rate is available |
| CryptoRates.CountAvailable | crypto_rates_scraper.py:242 | the counting loop returns that count |
| CryptoRates.CoverageOf | crypto_rates_scraper.py:241-249 | out of 8 currencies, coverage is available / 8 * 100 |
| CryptoRates.CoverageBounds | crypto_rates_scraper.py:241-249 | coverage lies in [0, 100]; it is 0 exactly when nothing is available and 100 exactly when everything is |
| CryptoRates.CoverageFor | crypto_rates_scraper.py:241-249 | the method returns the specified coverage |
| CryptoRates.GetCryptoSummary | crypto_rates_scraper.py:228-251 | the summary names both coins, tracks 8 currencies and gives each coin's coverage |
| CryptoRates.CompareWithTraditional | crypto_rates_scraper.py:167-226 | no traditional quotes gives that error; a missing or zero USDT rate gives the crypto error; a comparison happens exactly otherwise |
| CryptoRates.BestTraditionalIsFirstCheapest | crypto_rates_scraper.py:183-199 | the best traditional quote is the first with the least cost; missing rate and fee count as 0 |
| CryptoRates.WinnerIffCryptoDeliversMore | crypto_rates_scraper.py:190-222 | crypto has no fee, delivers amount times the USDT rate, and wins exactly when it delivers strictly more |
| CryptoRates.PercentageFollowsWinner | crypto_rates_scraper.py:202-203 | the percentage is 0 when the traditional amount is not positive; otherwise it is the difference over the traditional amount, times 100, and is positive exactly when crypto wins |
| CardPremiums.ProviderNamed | card_scrapers.py:12-17 | a provider is found exactly when its name is a premium-table key |
| CardPremiums.CountryNamed | card_scrapers.py:20-87 | a country is found exactly when its code is a base-data key |
| CardPremiums.CardPremium | card_scrapers.py:12-17 | a premium exists exactly for "debit" and "credit" |
| CardPremiums.BaseFeesPositive | card_scrapers.py:20-87 | every base fee is positive |
| CardPremiums.CreditPremiumAboveDebit | card_scrapers.py:12-17 | for every provider, 0 < debit premium < credit premium |
| CardPremiums.CostOf | card_scrapers.py:103-118 | card fee = amount * premium, total = base fee + card fee, recipient gets amount times rate |
| CardPremiums.CalculateCardCost | card_scrapers.py:89-121 | a cost exactly for a known country, a known provider and a known card type (otherwise the `except` gives None); the cost follows the formulas |
| CardPremiums.RecipientGetsIgnoresCard | card_scrapers.py:103-118 | debit and credit deliver the same amount |
| CardPremiums.CardCostOrdering | card_scrapers.py:12-118 | bank <= debit <= credit for a non-negative amount, strictly for a positive one |
| CardPremiums.VsBank | card_scrapers.py:163 | the percentage over the bank cost is non-negative exactly when the card costs at least the bank transfer |
| CardPremiums.ProviderEntry | card_scrapers.py:142-172 | a provider gets an entry exactly when it is a table key |
| CardPremiums.ProviderEntryOrdered | card_scrapers.py:142-172 | the bank method is ACH/Wire at the positive base fee; for a non-negative amount bank <= debit <= credit and both vs-bank percentages are non-negative |
| CardPremiums.AllCardPremiums | card_scrapers.py:124-174 | an unknown country (after upper-casing) gives "Country X not supported" with the name as typed; otherwise the upper-cased code and the amount |
| CardPremiums.ReportListsAllProvidersInOrder | card_scrapers.py:132-172 | a supported country lists all four providers in the fixed order, each with its entry |
| CardPremiums.ProvidersAreKeys | card_scrapers.py:133 | every name in the provider list is a table key, so the `continue` never fires |
| CardPremiums.GetAllCardPremiums | card_scrapers.py:124-174 | the loop builds exactly the specified report |
| CardPremiums.ProviderPass | card_scrapers.py:143-172 | one loop pass produces exactly that provider's entry |

## Left out

- **Network I/O.** HTTP requests, the exchange-rate scraper, the CoinGecko and
  Binance calls, and `time.sleep` are replaced by parameters. So are
  `datetime.now()` and `random.uniform`.
- **The estimators' `timestamp` field.** Every estimator puts
  `datetime.now().isoformat()` in its result; `Estimates.Quote` and
  `Estimates.Payout` leave that field out, since it is the clock and nothing depends on it.
- **LLM calls.** The language-model call, its prompts and system prompt, and
  `compare_providers` (a prompt passed to `query`) are out of scope. The
  engine's `query` is modelled only through its outcome and the usage
  counters.
- **Rounding and formatting:**
  - `round(x, n)` is left out, so every amount is exact;
  - f-string formatting is left out, including the report text of
    `build_context_for_query` and the "+x%" text of `vs_bank` (the model
    keeps the number).
- **Timestamps.** The model represents them as integer instants. The source
  stores ISO-8601 strings, which sort the same way.
- QuoteStore.Database.GetLatestCorridor: when several matching rows share
  the greatest timestamp, SQLite's choice is unspecified. The contract only
  says that some row with the greatest timestamp is returned.
- RagRecords.NewestFirst: rows with equal timestamps keep table order.
  SQLite leaves that order unspecified.
- Ascii.Upper: changes only ASCII letters. Python's `str.upper` also maps
  other Unicode letters.
- Ascii.Lower: changes only ASCII letters. Python's `str.lower` also maps
  other Unicode letters.
- **The API-key check in the engine constructor** (`raise ValueError` when no
  key is found) is left out, and so are the client setup and the
  database-path field.
- **Insert data given as explicit `None`.** `data.get(key, default)` passes
  an explicit `None` through. In a nullable column (estimated delivery,
  delivery method, data source, note) it is stored as NULL; in a `NOT NULL`
  column (provider, origin, destination, send amount, fee, exchange rate,
  total cost, recipient receives, timestamp) SQLite rejects the row and
  `insert_corridor_data` raises `IntegrityError`. Neither case is modelled:
  the model's data has only present and missing keys.
- **Database connections.** The connection and `close` are not modelled.
- QuoteStore.Database.TotalRecords: no contract of its own. Its
  meaning, the row count, is stated by the `InsertCorridorData` contract.
- **The estimators' error handlers.** The `try/except` blocks of the SV
  estimators are left out, since no step inside them can fail. In the DO/MX
  estimators, only the failed rate fetch is modelled.
- **The card tables** are written as two enumerations with fixed lookup
  tables: 4 providers, and 11 countries by 4 providers of base data.
- **Default arguments.** `compare_with_traditional`'s `amount=1000` and
  `get_all_card_premiums`'s `amount=500` have no counterpart; the model's
  `CompareWithTraditional` and `GetAllCardPremiums` always take the amount.
- **`trad_total_cost`** is computed in `compare_with_traditional` but never
  reported, so the model leaves it out.
- **Behaviour described in the documentation but absent from the code** is
  not modelled: input validation, caching, and a sample-size tie-break for
  the most competitive provider.
