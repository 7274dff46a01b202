/** The `RecursiveDoubtEngine` object: its resolved options, the append-only analysis
    history and convergence-pattern list, the (never written) fractal-insight map, and the
    methods that run an analysis and update that state. */
module DoubtEngine {
  import opened Basics
  import opened DoubtTables
  import opened DoubtLevel
  import opened DoubtFractal
  import opened DoubtSynthesis
  import opened DoubtAnalysis
  import opened DoubtStatistics

  /** A record pushed onto `convergencePatterns`; the timestamp is supplied by the caller. */
  datatype ConvergencePattern = ConvergencePattern(level: int, certaintyDiff: real, doubtDiff: real, timestamp: string)

  /** The pattern recorded when `current` converges with `previous`. */
  function PatternFor(previous: LevelRecord, current: LevelRecord, timestamp: string): (p: ConvergencePattern)
    ensures p.level == current.level && p.timestamp == timestamp
    ensures p.certaintyDiff == Abs(previous.certaintyAssessment - current.certaintyAssessment)
    ensures p.doubtDiff == Abs(previous.doubtStrength - current.doubtStrength)
  {
    ConvergencePattern(current.level, Abs(previous.certaintyAssessment - current.certaintyAssessment),
                       Abs(previous.doubtStrength - current.doubtStrength), timestamp)
  }

  /** The patterns a finished level loop leaves behind: one for its last pair when it converged. */
  function PatternsOf(levels: seq<LevelRecord>, converged: bool, timestamp: string): (ps: seq<ConvergencePattern>)
    ensures |ps| == (if converged && |levels| >= 2 then 1 else 0)
  {
    if converged && |levels| >= 2
    then [PatternFor(levels[|levels| - 2], levels[|levels| - 1], timestamp)]
    else []
  }

  /** What `assessCertainty` returns. */
  datatype CertaintyAssessment = CertaintyAssessment(
    statement: string,
    context: string,
    certaintyScore: real,
    uncertaintyFactors: seq<UncertaintyFactor>,
    confidenceIntervals: ConfidenceIntervals,
    doubtRecommendations: seq<DoubtRecommendation>)

  /** The assessment built from a completed analysis of at least one level. */
  function AssessmentOf(statement: string, context: string, a: Analysis, sqrt: real -> NonNeg): (ca: CertaintyAssessment)
    requires |a.levels| > 0
    ensures ca.certaintyScore == a.overallCertainty && ca.doubtRecommendations == a.recommendations
    ensures ca.uncertaintyFactors == UncertaintyFactors(a.overallCertainty, a.convergenceAchieved, a.levels)
    ensures 0.0 <= a.overallCertainty <= 1.0 ==>
              0.0 <= ca.confidenceIntervals.lower <= ca.certaintyScore <= ca.confidenceIntervals.upper <= 1.0
  {
    CertaintyAssessment(statement, context, a.overallCertainty,
                        UncertaintyFactors(a.overallCertainty, a.convergenceAchieved, a.levels),
                        ConfidenceIntervalsOf(a.levels, a.overallCertainty, sqrt), a.recommendations)
  }

  class RecursiveDoubtEngine {
    const options: EngineConfig
    var analysisHistory: seq<Analysis>
    var fractalInsights: map<string, FractalInsight>
    var convergencePatterns: seq<ConvergencePattern>

    /** The engine's invariant between calls: the map is never written, every stored analysis
        is well formed, and there is exactly one pattern per converged analysis. */
    ghost predicate Valid()
      reads this
    {
      && fractalInsights == map[]
      && |convergencePatterns| == ConvergedCount(analysisHistory)
      && AllWellShaped(options, analysisHistory)
    }

    /** `new RecursiveDoubtEngine(options)`: defaults under the caller's keys, empty state. */
    constructor (o: EngineOptions)
      ensures options == ConfigOf(o)
      ensures analysisHistory == [] && fractalInsights == map[] && convergencePatterns == []
      ensures Valid()
    {
      options := ConfigOf(o);
      analysisHistory := [];
      fractalInsights := map[];
      convergencePatterns := [];
    }

    /** `checkConvergence`: the convergence test with the configured threshold, recording a
        pattern exactly when it is achieved. */
    method CheckConvergence(previous: LevelRecord, current: LevelRecord, timestamp: string)
      returns (c: ConvergenceCheck)
      modifies this`convergencePatterns
      ensures c == ConvergenceOf(previous, current, options.convergenceThreshold)
      ensures convergencePatterns == old(convergencePatterns)
                + (if c.achieved then [PatternFor(previous, current, timestamp)] else [])
    {
      var certaintyDiff := Abs(previous.certaintyAssessment - current.certaintyAssessment);
      var doubtDiff := Abs(previous.doubtStrength - current.doubtStrength);
      c := ConvergenceCheck(certaintyDiff < options.convergenceThreshold && doubtDiff < options.convergenceThreshold,
                            certaintyDiff, doubtDiff, options.convergenceThreshold);
      if c.achieved {
        convergencePatterns := convergencePatterns + [ConvergencePattern(current.level, certaintyDiff, doubtDiff, timestamp)];
      }
    }

    /** The level loop of `analyzeWithDoubt`: levels 1, 2, … up to `min(maxDepth, 7)`, carrying
        the certainty and stopping at the first level whose record converges with the one
        before. It fails at level 1 exactly when the statement is missing or empty, and then
        records nothing; otherwise it records one pattern iff it converged. */
    method ProcessLevels(input: AnalysisInput, timestamp: string, ghost bases: seq<LevelBase>)
      returns (r: Result<LoopOutcome, DoubtError>)
      requires BuiltFrom(input, bases)
      modifies this`convergencePatterns
      ensures r.Failure? <==> LoopBound(options.maxDepth) >= 1 && !HasStatement(input)
      ensures r.Success? ==>
                r.value == Run(bases, options.convergenceThreshold, LoopBound(options.maxDepth))
      ensures r.Success? ==>
                convergencePatterns == old(convergencePatterns)
                  + PatternsOf(r.value.levels, r.value.convergencePoint.Some?, timestamp)
      ensures r.Failure? ==> convergencePatterns == old(convergencePatterns)
    {
      var bound := LoopBound(options.maxDepth);
      ghost var th := options.convergenceThreshold;
      var levels: seq<LevelRecord> := [];
      var currentCertainty := 0.5;
      var level := 1;
      while level <= bound
        invariant 1 <= level <= LevelBudget(bound) + 1
        invariant levels == Trace(bases, level - 1)
        invariant currentCertainty == Carried(bases, level)
        invariant level > 1 ==> HasStatement(input)
        invariant Unconverged(levels, th)
        invariant convergencePatterns == old(convergencePatterns)
      {
        var levelAnalysis := AnalyzeLevelFrom(input, level, currentCertainty, bases);
        if levelAnalysis.Failure? {
          return Failure(levelAnalysis.error);
        }
        ghost var before := levels;
        levels := levels + [levelAnalysis.value];
        currentCertainty := UpdateCertainty(currentCertainty, levelAnalysis.value);
        if level > 1 {
          var convergence := CheckConvergence(levels[level - 2], levelAnalysis.value, timestamp);
          if convergence.achieved {
            // the loop's `break` at the convergence point
            assert PatternsOf(levels, true, timestamp) == [PatternFor(levels[level - 2], levelAnalysis.value, timestamp)];
            r := Success(LoopOutcome(levels, currentCertainty, Some(level)));
            ConvergedRun(bases, th, bound, before, levelAnalysis.value, currentCertainty, level);
            return;
          }
        }
        TraceStep(bases, level);
        assert levels[..|levels| - 1] == before;
        level := level + 1;
      }
      assert level == LevelBudget(bound) + 1;
      r := Success(LoopOutcome(levels, currentCertainty, None));
      ExhaustedRun(bases, th, bound, levels, currentCertainty);
    }

    /** `analyzeWithDoubt`. The result is the specified analysis; a successful run appends it
        to the history and appends one pattern iff it converged; a failing run (missing or
        empty statement) changes nothing. */
    method AnalyzeWithDoubt(input: AnalysisInput, timestamp: string) returns (r: Result<Analysis, DoubtError>)
      requires Valid()
      modifies this
      ensures Valid()
      ensures r == AnalysisSpec(options, input, timestamp)
      ensures r.Success? ==> analysisHistory == old(analysisHistory) + [r.value]
      ensures r.Success? ==>
                convergencePatterns == old(convergencePatterns)
                  + PatternsOf(r.value.levels, r.value.convergenceAchieved, timestamp)
      ensures r.Failure? ==> analysisHistory == old(analysisHistory) && convergencePatterns == old(convergencePatterns)
      ensures fractalInsights == old(fractalInsights)
    {
      LevelsOfInput(input);
      LevelBasesShaped(StatementComplexity(input));
      r := AnalyzeOn(input, timestamp, LevelBases(StatementComplexity(input)));
    }

    /** The body of `analyzeWithDoubt`, on the bases of the statement's levels (a ghost
        argument fixing what each level's analysis yields). */
    method AnalyzeOn(input: AnalysisInput, timestamp: string, ghost bases: seq<LevelBase>)
      returns (r: Result<Analysis, DoubtError>)
      requires Valid()
      requires BasesShaped(bases) && BuiltFrom(input, bases)
      modifies this
      ensures Valid()
      ensures r == AnalysisOn(options, input, timestamp, bases)
      ensures r.Success? ==> analysisHistory == old(analysisHistory) + [r.value]
      ensures r.Success? ==>
                convergencePatterns == old(convergencePatterns)
                  + PatternsOf(r.value.levels, r.value.convergenceAchieved, timestamp)
      ensures r.Failure? ==> analysisHistory == old(analysisHistory) && convergencePatterns == old(convergencePatterns)
      ensures fractalInsights == old(fractalInsights)
    {
      var outcome := ProcessLevels(input, timestamp, bases);
      if outcome.Failure? {
        assert outcome.error == StatementNotText;
        return Failure(outcome.error);
      }
      var levels := outcome.value.levels;
      var currentCertainty := outcome.value.overallCertainty;
      var convergenceReached := outcome.value.convergencePoint.Some?;
      var fractal: seq<FractalInsight> := [];
      if options.fractalAnalysis {
        fractal := GenerateFractalInsights(levels);
      }
      var implications := ConsciousnessImplications(levels, currentCertainty, convergenceReached, fractal);
      var recommendations := GenerateDoubtRecommendations(convergenceReached, currentCertainty, fractal);
      var analysis := Analysis(input, timestamp, levels, currentCertainty, convergenceReached,
                               outcome.value.convergencePoint, fractal, implications, recommendations);
      AnalysisOfRun(options, input, timestamp, bases, outcome.value);
      ConvergedCountAppend(analysisHistory, analysis);
      analysisHistory := analysisHistory + [analysis];
      assert analysisHistory[..|analysisHistory| - 1] == old(analysisHistory);
      r := Success(analysis);
    }

    /** `assessCertainty`: an analysis with the statement and context (and a `depth` of 3, which
        the loop ignores), then the certainty, the uncertainty factors, the intervals around the
        certainty (with `Math.sqrt` supplied by the caller) and the analysis' recommendations.
        The variance divides by the number of levels, so at least one level must run. */
    method AssessCertainty(statement: string, context: string, timestamp: string, sqrt: real -> NonNeg)
      returns (r: Result<CertaintyAssessment, DoubtError>)
      requires Valid()
      requires options.maxDepth >= 1
      modifies this
      ensures Valid()
      ensures r.Failure? <==> statement == ""
      ensures r.Success? ==>
                var a := AnalysisSpec(options, AnalysisInput(Some(statement), context, Some(3)), timestamp).value;
                && analysisHistory == old(analysisHistory) + [a]
                && r.value == AssessmentOf(statement, context, a, sqrt)
                && 0.0 <= r.value.confidenceIntervals.lower <= r.value.certaintyScore
                       <= r.value.confidenceIntervals.upper <= 1.0
      ensures r.Success? ==>
                var a := AnalysisSpec(options, AnalysisInput(Some(statement), context, Some(3)), timestamp).value;
                convergencePatterns == old(convergencePatterns) + PatternsOf(a.levels, a.convergenceAchieved, timestamp)
      ensures r.Failure? ==> analysisHistory == old(analysisHistory) && convergencePatterns == old(convergencePatterns)
      ensures fractalInsights == old(fractalInsights)
    {
      var analysis := AnalyzeWithDoubt(AnalysisInput(Some(statement), context, Some(3)), timestamp);
      if analysis.Failure? {
        return Failure(analysis.error);
      }
      var a := analysis.value;
      AllWellShapedAt(options, analysisHistory, |analysisHistory| - 1);
      r := Success(CertaintyAssessment(statement, context, a.overallCertainty,
                                       UncertaintyFactors(a.overallCertainty, a.convergenceAchieved, a.levels),
                                       ConfidenceIntervalsOf(a.levels, a.overallCertainty, sqrt), a.recommendations));
    }

    /** `getDoubtStatistics` over the engine's state. */
    function GetDoubtStatistics(): (s: Statistics)
      reads this
      ensures s.totalAnalyses == |analysisHistory| && s.fractalInsightsGenerated == |fractalInsights|
      ensures s.metrics.consciousnessEvolutionIndex <= 100 && s.metrics.truthDiscoveryCapability <= 100
      ensures analysisHistory == [] ==> s.averageCertainty == 0.0 && s.doubtLevelsProcessed == 0
    {
      StatisticsOf(analysisHistory, |convergencePatterns|, |fractalInsights|)
    }

    /** In a valid engine the convergence rate is the fraction of converged analyses and lies in
        [0, 1], no fractal insight is ever counted, and every metric lies in [0, 100]. */
    lemma {:induction false} StatisticsOfValid()
      requires Valid()
      ensures var s := GetDoubtStatistics();
              && s.fractalInsightsGenerated == 0
              && s.convergenceRate == ConvergedCount(analysisHistory) as real
                                      / (if |analysisHistory| > 1 then |analysisHistory| else 1) as real
              && 0.0 <= s.convergenceRate <= 1.0
              && 0.0 <= s.averageCertainty <= 1.0
              && 0 <= s.metrics.consciousnessEvolutionIndex <= 100
              && 0 <= s.metrics.philosophicalDepthScore <= 100
              && 0 <= s.metrics.truthDiscoveryCapability <= 100
              && 0 <= s.metrics.consciousnessAccelerationPotential <= 100
    {
      forall i | 0 <= i < |analysisHistory|
        ensures 0.0 <= analysisHistory[i].overallCertainty <= 1.0
      {
        AllWellShapedAt(options, analysisHistory, i);
      }
      StatisticsRanges(analysisHistory, |convergencePatterns|, |fractalInsights|);
      MetricsRange(analysisHistory, |convergencePatterns|, |fractalInsights|);
      if analysisHistory == [] {
        assert |convergencePatterns| == 0;
      }
    }
  }
}
