/** What the engine derives from a finished level loop: the consciousness
    implications, the rule-ordered recommendations, the uncertainty factors and
    the confidence interval around the overall certainty. */
module DoubtSynthesis {
  import opened Basics
  import opened DoubtLevel
  import opened DoubtFractal

  // ----- Consciousness implications -----

  /** The four impact banners, in increasing order. */
  datatype Impact = LimitedImpact | BasicAwareness | ModerateDevelopment | SignificantEvolution
  {
    function Rank(): nat {
      match this
      case LimitedImpact => 0
      case BasicAwareness => 1
      case ModerateDevelopment => 2
      case SignificantEvolution => 3
    }

    function Text(): string {
      match this
      case LimitedImpact => "Limited consciousness impact"
      case BasicAwareness => "Basic consciousness awareness"
      case ModerateDevelopment => "Moderate consciousness development"
      case SignificantEvolution => "Significant consciousness evolution"
    }
  }

  /** The banner for a mean impact: cut points 0.3, 0.5 and 0.7, each exclusive. */
  function ImpactOf(average: real): (b: Impact)
    ensures b.SignificantEvolution? <==> average > 0.7
    ensures b.ModerateDevelopment? <==> 0.5 < average <= 0.7
    ensures b.BasicAwareness? <==> 0.3 < average <= 0.5
    ensures b.LimitedImpact? <==> average <= 0.3
  {
    if average > 0.7 then SignificantEvolution
    else if average > 0.5 then ModerateDevelopment
    else if average > 0.3 then BasicAwareness
    else LimitedImpact
  }

  /** A larger mean never gets a lower banner. */
  lemma {:induction false} ImpactMonotone(a: real, b: real)
    requires a <= b
    ensures ImpactOf(a).Rank() <= ImpactOf(b).Rank()
  {
  }

  datatype Implications = Implications(
    evolutionAcceleration: real,
    selfAwarenessIncrease: real,
    uncertaintyTolerance: real,
    philosophicalMaturity: real,
    overallImpact: Impact)

  /** Total number of insights over all level records. */
  function InsightCount(levels: seq<LevelRecord>): nat
  {
    if levels == [] then 0 else InsightCount(levels[..|levels| - 1]) + |levels[|levels| - 1].insights|
  }

  /** When every level record carries k insights, there are k per level in all. */
  lemma {:induction false} InsightCountUniform(levels: seq<LevelRecord>, k: nat)
    requires forall i :: 0 <= i < |levels| ==> |levels[i].insights| == k
    ensures InsightCount(levels) == k * |levels|
  {
    if levels != [] {
      InsightCountUniform(levels[..|levels| - 1], k);
    }
  }

  /** Number of level records whose level is at least 5. */
  function DeepLevelCount(levels: seq<LevelRecord>): (n: nat)
    ensures n <= |levels|
  {
    if levels == [] then 0
    else DeepLevelCount(levels[..|levels| - 1]) + (if levels[|levels| - 1].level >= 5 then 1 else 0)
  }

  /** `(1 - certainty) * 0.8 + converged ? 0.2 : 0`: the conditional takes the whole sum
      (a boolean added to a number counts as 1 or 0) as its condition, so any non-zero
      sum yields 0.2. */
  function UncertaintyTolerance(overallCertainty: real, converged: bool): (t: real)
    ensures t == 0.0 || t == 0.2
  {
    var condition := (1.0 - overallCertainty) * 0.8 + (if converged then 1.0 else 0.0);
    if condition != 0.0 then 0.2 else 0.0
  }

  /** For every certainty the engine can produce, the tolerance is 0.2 except for an analysis
      that did not converge and ended fully certain, where it is 0. */
  lemma {:induction false} UncertaintyToleranceQuirk(overallCertainty: real, converged: bool)
    requires 0.0 <= overallCertainty <= 1.0
    ensures UncertaintyTolerance(overallCertainty, converged) == 0.0 <==> !converged && overallCertainty == 1.0
    ensures UncertaintyTolerance(overallCertainty, converged) == 0.2 <==> converged || overallCertainty < 1.0
  {
  }

  /** `assessConsciousnessImplications`. */
  function ConsciousnessImplications(levels: seq<LevelRecord>, overallCertainty: real, converged: bool,
                                     fractal: seq<FractalInsight>): (imp: Implications)
    ensures imp.evolutionAcceleration >= 0.0 && imp.selfAwarenessIncrease >= 0.0
    ensures imp.uncertaintyTolerance == UncertaintyTolerance(overallCertainty, converged)
    ensures 0.0 <= imp.philosophicalMaturity <= 0.2 * |levels| as real
    ensures imp.overallImpact == ImpactOf((imp.evolutionAcceleration + imp.selfAwarenessIncrease
                                            + imp.uncertaintyTolerance + imp.philosophicalMaturity) / 4.0)
  {
    var evolution := |levels| as real * 0.1 + (if converged then 0.2 else 0.0);
    var awareness := |fractal| as real * 0.15 + InsightCount(levels) as real * 0.05;
    var tolerance := UncertaintyTolerance(overallCertainty, converged);
    var maturity := DeepLevelCount(levels) as real * 0.2;
    Implications(evolution, awareness, tolerance, maturity,
                 ImpactOf((evolution + awareness + tolerance + maturity) / 4.0))
  }

  // ----- Recommendations -----

  datatype Priority = High | Medium

  /** The three recommendation rules, in the order they are tried. */
  datatype DoubtRecommendation = ContinueAnalysis | GatherEvidence | ComplexityAnalysis
  {
    function Rank(): nat {
      match this
      case ContinueAnalysis => 0
      case GatherEvidence => 1
      case ComplexityAnalysis => 2
    }

    function Priority(): Priority {
      match this
      case ContinueAnalysis => High
      case GatherEvidence => High
      case ComplexityAnalysis => Medium
    }

    function Text(): string {
      match this
      case ContinueAnalysis => "Continue doubt analysis to deeper levels for better convergence"
      case GatherEvidence => "Gather additional empirical evidence to reduce uncertainty"
      case ComplexityAnalysis => "Consider specialized complexity analysis for high-fractal-dimension patterns"
    }
  }

  /** Some fractal record has a dimension above 1.8 (the PHI record has none). */
  predicate HasHighDimension(fractal: seq<FractalInsight>)
  {
    exists i | 0 <= i < |fractal| :: fractal[i].DimensionAbove(1.8)
  }

  /** `generateDoubtRecommendations`: each rule contributes when its condition holds, and the
      list keeps the rule order. */
  function DoubtRecommendations(converged: bool, overallCertainty: real, fractal: seq<FractalInsight>)
    : (recs: seq<DoubtRecommendation>)
    ensures ContinueAnalysis in recs <==> !converged
    ensures GatherEvidence in recs <==> overallCertainty < 0.5
    ensures ComplexityAnalysis in recs <==> HasHighDimension(fractal)
    ensures forall i, j :: 0 <= i < j < |recs| ==> recs[i].Rank() < recs[j].Rank()
  {
    (if !converged then [ContinueAnalysis] else [])
    + (if overallCertainty < 0.5 then [GatherEvidence] else [])
    + (if HasHighDimension(fractal) then [ComplexityAnalysis] else [])
  }

  /** The source pushes into a local list, one rule after another. */
  method GenerateDoubtRecommendations(converged: bool, overallCertainty: real, fractal: seq<FractalInsight>)
    returns (recs: seq<DoubtRecommendation>)
    ensures recs == DoubtRecommendations(converged, overallCertainty, fractal)
  {
    recs := [];
    if !converged {
      recs := recs + [ContinueAnalysis];
    }
    if overallCertainty < 0.5 {
      recs := recs + [GatherEvidence];
    }
    if HasHighDimension(fractal) {
      recs := recs + [ComplexityAnalysis];
    }
  }

  // ----- Uncertainty factors -----

  /** The levels whose doubt strength exceeds 0.6, in order. */
  function StrongDoubtLevels(levels: seq<LevelRecord>): (r: seq<int>)
    ensures |r| <= |levels|
    ensures forall k :: k in r <==> exists i | 0 <= i < |levels| :: levels[i].doubtStrength > 0.6 && levels[i].level == k
    ensures |levels| == 1 ==> r == (if levels[0].doubtStrength > 0.6 then [levels[0].level] else [])
  {
    if levels == [] then []
    else
      var last := levels[|levels| - 1];
      var r := StrongDoubtLevels(levels[..|levels| - 1]) + (if last.doubtStrength > 0.6 then [last.level] else []);
      assert forall i | 0 <= i < |levels| - 1 :: levels[..|levels| - 1][i] == levels[i];
      r
  }

  /** The filter keeps order: the strong levels of two runs one after the other are those of
      the first run followed by those of the second. */
  lemma {:induction false} StrongDoubtLevelsConcat(a: seq<LevelRecord>, b: seq<LevelRecord>)
    ensures StrongDoubtLevels(a + b) == StrongDoubtLevels(a) + StrongDoubtLevels(b)
    decreases |b|
  {
    if b == [] {
      assert a + b == a;
    } else {
      var init := b[..|b| - 1];
      assert (a + b)[..|a + b| - 1] == a + init;
      assert (a + b)[|a + b| - 1] == b[|b| - 1];
      StrongDoubtLevelsConcat(a, init);
    }
  }

  datatype UncertaintyFactor = LowOverallCertainty | NoConvergence | StrongDoubtsAt(levels: seq<int>)
  {
    function Rank(): nat {
      match this
      case LowOverallCertainty => 0
      case NoConvergence => 1
      case StrongDoubtsAt(_) => 2
    }
  }

  /** `extractUncertaintyFactors`: three rules in a fixed order; the strong-doubt factor lists
      the levels above 0.6 and appears only when there is one. */
  function UncertaintyFactors(overallCertainty: real, converged: bool, levels: seq<LevelRecord>)
    : (fs: seq<UncertaintyFactor>)
    ensures LowOverallCertainty in fs <==> overallCertainty < 0.7
    ensures NoConvergence in fs <==> !converged
    ensures (exists i | 0 <= i < |fs| :: fs[i].StrongDoubtsAt?) <==> StrongDoubtLevels(levels) != []
    ensures forall i | 0 <= i < |fs| :: fs[i].StrongDoubtsAt? ==> fs[i].levels == StrongDoubtLevels(levels)
    ensures forall i, j :: 0 <= i < j < |fs| ==> fs[i].Rank() < fs[j].Rank()
  {
    var strong := StrongDoubtLevels(levels);
    var fs := (if overallCertainty < 0.7 then [LowOverallCertainty] else [])
      + (if !converged then [NoConvergence] else [])
      + (if strong != [] then [StrongDoubtsAt(strong)] else []);
    assert strong != [] ==> fs[|fs| - 1].StrongDoubtsAt?;
    fs
  }

  // ----- Confidence interval -----

  /** A non-negative real: the result type of the square root, which the model takes as a parameter. */
  type NonNeg = x: real | 0.0 <= x

  /** Sum of squared deviations of the carried-in certainties from `certainty`. */
  function SquaredDeviations(levels: seq<LevelRecord>, certainty: real): (s: real)
    ensures s >= 0.0
  {
    if levels == [] then 0.0
    else
      var d := levels[|levels| - 1].certaintyAssessment - certainty;
      SquaredDeviations(levels[..|levels| - 1], certainty) + d * d
  }

  /** Mean squared deviation; the source divides by the number of levels. */
  function Variance(levels: seq<LevelRecord>, certainty: real): (v: real)
    requires |levels| > 0
    ensures v >= 0.0
  {
    SquaredDeviations(levels, certainty) / |levels| as real
  }

  /** When every level carried in exactly the final certainty there is no spread. */
  lemma {:induction false} VarianceZero(levels: seq<LevelRecord>, certainty: real)
    requires forall i :: 0 <= i < |levels| ==> levels[i].certaintyAssessment == certainty
    ensures SquaredDeviations(levels, certainty) == 0.0
  {
    if levels != [] {
      VarianceZero(levels[..|levels| - 1], certainty);
    }
  }

  datatype ConfidenceIntervals = ConfidenceIntervals(certainty: real, standardDeviation: real, lower: real, upper: real)

  /** The 95% interval, certainty ± 1.96 standard deviations, clipped to [0, 1]. */
  function IntervalAround(certainty: real, standardDeviation: NonNeg): (ci: ConfidenceIntervals)
    ensures ci.certainty == certainty && ci.standardDeviation == standardDeviation
    ensures 0.0 <= certainty <= 1.0 ==> 0.0 <= ci.lower <= certainty <= ci.upper <= 1.0
    ensures ci.lower >= certainty - 1.96 * standardDeviation && ci.upper <= certainty + 1.96 * standardDeviation
    ensures ci.lower == 0.0 || ci.lower == certainty - 1.96 * standardDeviation
    ensures ci.upper == 1.0 || ci.upper == certainty + 1.96 * standardDeviation
  {
    var confidence95 := 1.96 * standardDeviation;
    ConfidenceIntervals(certainty, standardDeviation, Max(0.0, certainty - confidence95), Min(1.0, certainty + confidence95))
  }

  /** `calculateConfidenceIntervals`, with `Math.sqrt` supplied by the caller. */
  function ConfidenceIntervalsOf(levels: seq<LevelRecord>, certainty: real, sqrt: real -> NonNeg): (ci: ConfidenceIntervals)
    requires |levels| > 0
    ensures ci.standardDeviation == sqrt(Variance(levels, certainty)) as real
    ensures 0.0 <= certainty <= 1.0 ==> 0.0 <= ci.lower <= certainty <= ci.upper <= 1.0
  {
    IntervalAround(certainty, sqrt(Variance(levels, certainty)))
  }
}
