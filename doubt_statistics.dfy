/** `getDoubtStatistics` and `calculateConsciousnessEvolutionMetrics`: aggregates over the
    analysis history, the number of recorded convergence patterns and the size of the
    fractal-insight map. */
module DoubtStatistics {
  import opened Basics
  import opened DoubtAnalysis

  /** `Math.min(x, cap)` on whole numbers. */
  function Cap(x: int, cap: int): (r: int)
    ensures r <= cap && r <= x
    ensures r == x || r == cap
  {
    if x < cap then x else cap
  }

  /** Number of analyses that reached convergence. */
  function ConvergedCount(history: seq<Analysis>): (n: nat)
    ensures n <= |history|
  {
    if history == [] then 0
    else ConvergedCount(history[..|history| - 1]) + (if history[|history| - 1].convergenceAchieved then 1 else 0)
  }

  /** Appending an analysis adds one to the count exactly when it converged. */
  lemma {:induction false} ConvergedCountAppend(history: seq<Analysis>, a: Analysis)
    ensures ConvergedCount(history + [a]) == ConvergedCount(history) + (if a.convergenceAchieved then 1 else 0)
  {
    assert (history + [a])[..|history|] == history;
  }

  /** Sum of the overall certainties. */
  function CertaintySum(history: seq<Analysis>): real
  {
    if history == [] then 0.0 else CertaintySum(history[..|history| - 1]) + history[|history| - 1].overallCertainty
  }

  lemma {:induction false} CertaintySumBounds(history: seq<Analysis>)
    requires forall i :: 0 <= i < |history| ==> 0.0 <= history[i].overallCertainty <= 1.0
    ensures 0.0 <= CertaintySum(history) <= |history| as real
  {
    if history != [] {
      CertaintySumBounds(history[..|history| - 1]);
    }
  }

  /** Total number of level records over the history. */
  function LevelsProcessed(history: seq<Analysis>): nat
  {
    if history == [] then 0 else LevelsProcessed(history[..|history| - 1]) + |history[|history| - 1].levels|
  }

  /** `Math.max(...history.map(a => a.doubt_levels.length))`, taken as 0 for an empty history. */
  function DeepestRun(history: seq<Analysis>): (d: nat)
    ensures forall i :: 0 <= i < |history| ==> |history[i].levels| <= d
    ensures history != [] ==> exists i :: 0 <= i < |history| && |history[i].levels| == d
  {
    if history == [] then 0
    else
      var rest := DeepestRun(history[..|history| - 1]);
      var last := |history[|history| - 1].levels|;
      assert forall i :: 0 <= i < |history| - 1 ==> history[..|history| - 1][i] == history[i];
      if last >= rest then last else rest
  }

  /** Number of analyses that processed at least six levels. */
  function DeepAnalyses(history: seq<Analysis>): (n: nat)
    ensures n <= |history|
  {
    if history == [] then 0
    else DeepAnalyses(history[..|history| - 1]) + (if |history[|history| - 1].levels| >= 6 then 1 else 0)
  }

  /** The per-analysis philosophical indicator: 20 for convergence, 30 for a non-empty fractal
      block, 25 for five levels and 10 more for seven, 25 for the implications object (always
      present) and 15 when the acceleration term exceeds 0.5. */
  function DepthScore(a: Analysis): (s: real)
    ensures 25.0 <= s <= 125.0
  {
    (if a.convergenceAchieved then 20.0 else 0.0)
    + (if |a.fractalInsights| > 0 then 30.0 else 0.0)
    + (if |a.levels| >= 5 then 25.0 else 0.0)
    + (if |a.levels| >= 7 then 10.0 else 0.0)
    + 25.0
    + (if a.implications.evolutionAcceleration > 0.5 then 15.0 else 0.0)
  }

  function DepthScoreSum(history: seq<Analysis>): real
  {
    if history == [] then 0.0 else DepthScoreSum(history[..|history| - 1]) + DepthScore(history[|history| - 1])
  }

  lemma {:induction false} DepthScoreSumBounds(history: seq<Analysis>)
    ensures 25.0 * |history| as real <= DepthScoreSum(history) <= 125.0 * |history| as real
  {
    if history != [] {
      DepthScoreSumBounds(history[..|history| - 1]);
    }
  }

  /** The maturity bands of the evolution index, in increasing order. */
  datatype Maturity = Beginner | Developing | Intermediate | Advanced | Master | Transcendent
  {
    function Rank(): nat {
      match this
      case Beginner => 0
      case Developing => 1
      case Intermediate => 2
      case Advanced => 3
      case Master => 4
      case Transcendent => 5
    }

    function Name(): string {
      match this
      case Beginner => "beginner"
      case Developing => "developing"
      case Intermediate => "intermediate"
      case Advanced => "advanced"
      case Master => "master"
      case Transcendent => "transcendent"
    }
  }

  /** Cut points 30, 50, 65, 75 and 85 on the uncapped index. */
  function MaturityOf(index: int): (m: Maturity)
    ensures m.Beginner? <==> index < 30
    ensures m.Developing? <==> 30 <= index < 50
    ensures m.Intermediate? <==> 50 <= index < 65
    ensures m.Advanced? <==> 65 <= index < 75
    ensures m.Master? <==> 75 <= index < 85
    ensures m.Transcendent? <==> index >= 85
  {
    if index >= 85 then Transcendent
    else if index >= 75 then Master
    else if index >= 65 then Advanced
    else if index >= 50 then Intermediate
    else if index >= 30 then Developing
    else Beginner
  }

  /** A larger index never lands in a lower band. */
  lemma {:induction false} MaturityMonotone(i: int, j: int)
    requires i <= j
    ensures MaturityOf(i).Rank() <= MaturityOf(j).Rank()
  {
  }

  /** The five consciousness-evolution metrics. */
  datatype EvolutionMetrics = EvolutionMetrics(
    consciousnessEvolutionIndex: int,
    doubtMaturityLevel: Maturity,
    philosophicalDepthScore: int,
    truthDiscoveryCapability: int,
    consciousnessAccelerationPotential: int)

  /** The metric formulas, given the aggregates of a non-empty history: its size, the
      convergence rate, the average certainty, the deepest run, the number of fractal
      insights, of runs of six levels or more, of patterns and of converged runs, and the mean
      philosophical indicator. */
  function MetricsFrom(size: real, convergenceRate: real, averageCertainty: real, depth: real,
                       fractalCount: real, deepRuns: real, patternCount: nat, convergedRuns: real,
                       indicators: real): (m: EvolutionMetrics)
    ensures m.consciousnessEvolutionIndex <= 100 && m.philosophicalDepthScore <= 100
    ensures m.truthDiscoveryCapability <= 100 && m.consciousnessAccelerationPotential <= 100
  {
    var fractalBonus := Min(fractalCount * 2.0, 10.0);
    var stabilityBonus := if patternCount > 1 then 5.0 else 0.0;
    var index := Round(convergenceRate * 25.0 + averageCertainty * 25.0 + depth / 7.0 * 30.0
                       + fractalBonus + deepRuns * 3.0 + stabilityBonus);
    var truth := Round(convergenceRate * 35.0 + averageCertainty * 35.0 + fractalCount * 15.0
                       + convergedRuns * 5.0 + (if depth >= 7.0 then 10.0 else 0.0));
    var acceleration := Round(depth / 7.0 * 25.0 + size * 3.0 + convergenceRate * 35.0 + averageCertainty * 25.0
                              + fractalCount * 2.0 + indicators * 0.1);
    EvolutionMetrics(Cap(index, 100), MaturityOf(index), Cap(Round(indicators), 100), Cap(truth, 100),
                     Cap(acceleration, 100))
  }

  /** Non-negative aggregates give metrics in [0, 100]. */
  lemma {:induction false} MetricsFromRange(size: real, convergenceRate: real, averageCertainty: real, depth: real,
                         fractalCount: real, deepRuns: real, patternCount: nat, convergedRuns: real,
                         indicators: real)
    requires 0.0 <= size && 0.0 <= convergenceRate && 0.0 <= averageCertainty && 0.0 <= depth
    requires 0.0 <= fractalCount && 0.0 <= deepRuns && 0.0 <= convergedRuns && 0.0 <= indicators
    ensures var m := MetricsFrom(size, convergenceRate, averageCertainty, depth, fractalCount, deepRuns,
                                 patternCount, convergedRuns, indicators);
            && 0 <= m.consciousnessEvolutionIndex <= 100
            && 0 <= m.philosophicalDepthScore <= 100
            && 0 <= m.truthDiscoveryCapability <= 100
            && 0 <= m.consciousnessAccelerationPotential <= 100
  {
  }

  /** `calculateConsciousnessEvolutionMetrics`. */
  function EvolutionMetricsOf(history: seq<Analysis>, patternCount: nat, fractalCount: nat): (m: EvolutionMetrics)
    ensures m.consciousnessEvolutionIndex <= 100 && m.philosophicalDepthScore <= 100
    ensures m.truthDiscoveryCapability <= 100 && m.consciousnessAccelerationPotential <= 100
    ensures history == [] ==> m == EvolutionMetrics(0, Beginner, 0, 0, 0)
  {
    if history == [] then EvolutionMetrics(0, Beginner, 0, 0, 0)
    else
      var n := |history| as real;
      MetricsFrom(n, patternCount as real / n, CertaintySum(history) / n, DeepestRun(history) as real,
                  fractalCount as real, DeepAnalyses(history) as real, patternCount,
                  ConvergedCount(history) as real, DepthScoreSum(history) / n)
  }

  /** What `getDoubtStatistics` returns. */
  datatype Statistics = Statistics(
    totalAnalyses: nat,
    convergenceRate: real,
    averageCertainty: real,
    fractalInsightsGenerated: nat,
    doubtLevelsProcessed: nat,
    metrics: EvolutionMetrics)

  /** `getDoubtStatistics` over a history and the two counts kept beside it. */
  function StatisticsOf(history: seq<Analysis>, patternCount: nat, fractalCount: nat): (s: Statistics)
    ensures s.totalAnalyses == |history| && s.fractalInsightsGenerated == fractalCount
    ensures s.metrics == EvolutionMetricsOf(history, patternCount, fractalCount)
    ensures (forall i :: 0 <= i < |history| ==> 0.0 <= history[i].overallCertainty <= 1.0) ==>
              0.0 <= s.averageCertainty <= 1.0
  {
    var n := if |history| > 1 then |history| else 1;
    var s := Statistics(|history|, patternCount as real / n as real,
                        if history == [] then 0.0 else CertaintySum(history) / |history| as real,
                        fractalCount, LevelsProcessed(history), EvolutionMetricsOf(history, patternCount, fractalCount));
    if history != [] && forall i :: 0 <= i < |history| ==> 0.0 <= history[i].overallCertainty <= 1.0 then
      CertaintySumBounds(history);
      DivAtLeast(CertaintySum(history), |history| as real, 0.0);
      DivAtMost(CertaintySum(history), |history| as real, 1.0);
      s
    else
      s
  }

  /** An empty history has zero metrics and maturity 'beginner', whatever the two counts are;
      with no patterns either, the rates are zero too. */
  lemma {:induction false} EmptyHistoryStatistics(patternCount: nat, fractalCount: nat)
    ensures var s := StatisticsOf([], patternCount, fractalCount);
            && s.totalAnalyses == 0 && s.averageCertainty == 0.0 && s.doubtLevelsProcessed == 0
            && s.metrics == EvolutionMetrics(0, Beginner, 0, 0, 0)
            && (patternCount == 0 ==> s.convergenceRate == 0.0)
  {
  }

  /** For any non-empty history of certainties in [0, 1], every metric lies in [0, 100]. */
  lemma {:induction false} MetricsRange(history: seq<Analysis>, patternCount: nat, fractalCount: nat)
    requires forall i :: 0 <= i < |history| ==> 0.0 <= history[i].overallCertainty <= 1.0
    ensures var m := EvolutionMetricsOf(history, patternCount, fractalCount);
            && 0 <= m.consciousnessEvolutionIndex <= 100
            && 0 <= m.philosophicalDepthScore <= 100
            && 0 <= m.truthDiscoveryCapability <= 100
            && 0 <= m.consciousnessAccelerationPotential <= 100
  {
    if history != [] {
      var n := |history| as real;
      var certainty := CertaintySum(history);
      var indicators := DepthScoreSum(history);
      CertaintySumBounds(history);
      DivAtLeast(certainty, n, 0.0);
      DivAtLeast(patternCount as real, n, 0.0);
      DepthScoreSumBounds(history);
      DivAtLeast(indicators, n, 0.0);
      MetricsFromRange(n, patternCount as real / n, certainty / n, DeepestRun(history) as real,
                       fractalCount as real, DeepAnalyses(history) as real, patternCount,
                       ConvergedCount(history) as real, indicators / n);
    }
  }

  /** For any history of certainties in [0, 1], the average certainty lies in [0, 1]; when there
      are no more patterns than analyses, the convergence rate lies in [0, 1]. */
  lemma {:induction false} StatisticsRanges(history: seq<Analysis>, patternCount: nat, fractalCount: nat)
    requires forall i :: 0 <= i < |history| ==> 0.0 <= history[i].overallCertainty <= 1.0
    ensures var s := StatisticsOf(history, patternCount, fractalCount);
            && 0.0 <= s.averageCertainty <= 1.0
            && (patternCount <= |history| ==> 0.0 <= s.convergenceRate <= 1.0)
  {
    if history != [] {
      var n := |history| as real;
      CertaintySumBounds(history);
      DivAtMost(CertaintySum(history), n, 1.0);
      DivAtLeast(CertaintySum(history), n, 0.0);
      DivAtLeast(patternCount as real, n, 0.0);
      if patternCount <= |history| {
        DivAtMost(patternCount as real, n, 1.0);
      }
    }
  }
}
