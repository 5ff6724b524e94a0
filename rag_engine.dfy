/**
 * The stateful part of the analysis engine (ragfin1_rag.py, `RAGEngine`):
 * the two usage counters that `query` keeps, the pass-through of analysis
 * errors in `competitive_insight`, and `get_stats`. The language-model call
 * is a foreign service; its outcome is a parameter.
 */
module RagEngine {
  import opened Wrappers
  import opened QuoteStore
  import opened RagAnalysis

  /** What the language-model call did: answered with its token usage, or raised. */
  datatype LlmOutcome =
    | Replied(text: string, inputTokens: nat, outputTokens: nat)
    | Raised(message: string)

  /** The `metadata` entry of a successful query. */
  datatype Usage = Usage(inputTokens: nat, outputTokens: nat, totalTokens: nat, queryNumber: nat)

  /** The dictionary `query` returns: success with an answer, or failure whose `answer` is None. */
  datatype QueryResult =
    | Answered(answer: string, usage: Usage)
    | QueryFailed(error: string)
  {
    function Answer(): Option<string> {
      if Answered? then Some(answer) else None
    }
  }

  /** The dictionary `competitive_insight` returns. */
  datatype Insight =
    | AnalysisError(error: string)
    | Insightful(destination: string, numerical: Analysis, strategic: string, usage: Usage)
    | InsightFailed(error: string)

  /** The dictionary `get_stats` returns. */
  datatype EngineStats = EngineStats(totalQueries: nat, totalTokens: nat, estimatedCostUsd: real)

  /** The price the engine assumes: 3.0 USD per million tokens. */
  const UsdPerMillionTokens: real := 3.0

  class Engine {
    var totalQueries: nat
    var totalTokens: nat

    constructor()
      ensures totalQueries == 0 && totalTokens == 0
    {
      totalQueries := 0;
      totalTokens := 0;
    }

    /**
     * `query`: a reply counts one more query and its input and output tokens
     * and is numbered with the new count; a raised error leaves both counters
     * as they were and yields no answer.
     */
    method Query(outcome: LlmOutcome) returns (r: QueryResult)
      modifies this
      ensures outcome.Replied? ==>
        && totalQueries == old(totalQueries) + 1
        && totalTokens == old(totalTokens) + outcome.inputTokens + outcome.outputTokens
        && r == Answered(outcome.text, Usage(outcome.inputTokens, outcome.outputTokens,
                                             outcome.inputTokens + outcome.outputTokens, totalQueries))
      ensures outcome.Raised? ==>
        && totalQueries == old(totalQueries) && totalTokens == old(totalTokens)
        && r == QueryFailed(outcome.message) && r.Answer() == None
    {
      match outcome
      case Replied(text, inputTokens, outputTokens) =>
        totalQueries := totalQueries + 1;
        totalTokens := totalTokens + (inputTokens + outputTokens);
        r := Answered(text, Usage(inputTokens, outputTokens, inputTokens + outputTokens, totalQueries));
      case Raised(message) =>
        r := QueryFailed(message);
    }

    /**
     * `competitive_insight`: an analysis that found no data is returned as it
     * is, without querying and without touching the counters; otherwise the
     * query runs and its failure, if any, is returned in its place.
     */
    method CompetitiveInsight(table: seq<Row>, destination: string, outcome: LlmOutcome) returns (r: Insight)
      modifies this
      ensures AnalysisOf(destination, Window(table, destination)).NoData? ==>
        && r == AnalysisError("No hay datos para " + destination)
        && totalQueries == old(totalQueries) && totalTokens == old(totalTokens)
      ensures AnalysisOf(destination, Window(table, destination)).Snapshot? && outcome.Replied? ==>
        && r.Insightful? && r.destination == destination
        && r.numerical == AnalysisOf(destination, Window(table, destination))
        && r.strategic == outcome.text && r.usage.queryNumber == totalQueries
        && totalQueries == old(totalQueries) + 1
        && totalTokens == old(totalTokens) + outcome.inputTokens + outcome.outputTokens
      ensures AnalysisOf(destination, Window(table, destination)).Snapshot? && outcome.Raised? ==>
        && r == InsightFailed(outcome.message)
        && totalQueries == old(totalQueries) && totalTokens == old(totalTokens)
    {
      var stats := GetCompetitiveAnalysis(table, destination);
      if stats.NoData? {
        return AnalysisError(stats.error);
      }
      var result := Query(outcome);
      if result.Answered? {
        r := Insightful(destination, stats, result.answer, result.usage);
      } else {
        r := InsightFailed(result.error);
      }
    }

    /** `get_stats`: the counters and their price. */
    function Stats(): (s: EngineStats)
      reads this
      ensures s.totalQueries == totalQueries && s.totalTokens == totalTokens
      ensures s.estimatedCostUsd == EstimatedCost(totalTokens)
    {
      EngineStats(totalQueries, totalTokens, EstimatedCost(totalTokens))
    }
  }

  /** `(total_tokens / 1_000_000) * 3.0`. */
  function EstimatedCost(tokens: nat): (usd: real)
    ensures usd >= 0.0
    ensures tokens <= 1000000 ==> usd <= UsdPerMillionTokens
  {
    (tokens as real / 1000000.0) * UsdPerMillionTokens
  }

  /** The price is additive: a query's tokens add their own price to the estimate. */
  lemma EstimatedCostAdds(before: nat, used: nat)
    ensures EstimatedCost(before + used) == EstimatedCost(before) + EstimatedCost(used)
  {
  }

  /** The estimate never falls as tokens are spent. */
  lemma EstimatedCostMonotone(a: nat, b: nat)
    requires a <= b
    ensures EstimatedCost(a) <= EstimatedCost(b)
  {
    EstimatedCostAdds(a, b - a);
  }
}
