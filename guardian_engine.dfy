/** The `UEFGuardian` object: its options, its decision history and its consciousness
    evolution tracker, with the methods that run the decision analyses, the target
    assessments, the implementation validation and the scenario guidance. */
module GuardianEngine {
  import opened Basics
  import opened GuardianPrinciples
  import opened GuardianIndicators
  import opened GuardianAlignment
  import opened GuardianTargets
  import opened GuardianScenario

  /** The entries of `evolutionMilestones`. */
  datatype Milestone = FirstDecision | ExceptionalAlignment | HighMaturity

  /** `analysis.uef_alignment[key]?.score`: the score of the first entry stored under `key`. */
  function ScoreUnder(entries: seq<Entry>, key: Principle): Option<real>
  {
    if entries == [] then None
    else if entries[0].key == key then Some(entries[0].analysis.score)
    else ScoreUnder(entries[1..], key)
  }

  /** The lookup finds the first entry under the key. */
  lemma {:induction false} ScoreUnderFirst(entries: seq<Entry>, key: Principle, j: int)
    requires 0 <= j < |entries| && entries[j].key == key
    requires forall i :: 0 <= i < j ==> entries[i].key != key
    ensures ScoreUnder(entries, key) == Some(entries[j].analysis.score)
    decreases j
  {
    if j > 0 {
      ScoreUnderFirst(entries[1..], key, j - 1);
    }
  }

  /** In a table keyed by the nine principles the lookup finds the principle's own entry. */
  lemma {:induction false} ScoreUnderKeyed(entries: seq<Entry>, p: Principle)
    requires Keyed(entries)
    ensures ScoreUnder(entries, p) == Some(ScoreAt(entries, p))
  {
    PrincipleAtIndex(p);
    forall i | 0 <= i < p.Index() ensures entries[i].key != p {
      IndexAtPosition(i);
    }
    ScoreUnderFirst(entries, p, p.Index());
  }

  /** The planetary-awareness gain of an analysis: 2 above 0.7, 1 above 0.5, else 0, on the
      unity score read with the `|| 0.5` fallback. */
  function AwarenessGain(a: DecisionAnalysis): (g: nat)
    ensures g <= 2
  {
    var unity := OrElse(ScoreUnder(a.alignment, Unity), 0.5);
    if unity > 0.7 then 2 else if unity > 0.5 then 1 else 0
  }

  /** The wisdom gain: 5 for a clean analysis above 70, else 2 when there are
      recommendations, else 0. */
  function WisdomGain(a: DecisionAnalysis): (g: nat)
    ensures g == 0 || g == 2 || g == 5
    ensures g == 5 <==> a.criticalIssues == [] && a.overallScore > 70
  {
    if |a.criticalIssues| == 0 && a.overallScore > 70 then 5
    else if |a.recommendations| > 0 then 2
    else 0
  }

  /** The running ethical maturity after one more analysis. */
  function MaturityAfter(m: real, overallScore: int): real
  {
    (m + overallScore as real / 100.0) / 2.0
  }

  /** The new maturity lies between the old one and the new score's fraction, so it stays in
      [0, 1] when both are there. */
  lemma {:induction false} MaturityIsRunningMean(m: real, overallScore: int)
    ensures Min(m, overallScore as real / 100.0) <= MaturityAfter(m, overallScore) <= Max(m, overallScore as real / 100.0)
    ensures 0.0 <= m <= 1.0 && 0 <= overallScore <= 100 ==> 0.0 <= MaturityAfter(m, overallScore) <= 1.0
  {
  }

  /** The milestones one update appends, in order. */
  function NewMilestones(count: nat, overallScore: int, maturity: real): (r: seq<Milestone>)
    ensures |r| <= 3
  {
    (if count == 1 then [FirstDecision] else [])
    + (if overallScore >= 90 then [ExceptionalAlignment] else [])
    + (if maturity > 0.8 then [HighMaturity] else [])
  }

  /** The first-decision milestone is appended exactly on the first decision, the
      exceptional-alignment one exactly for a score of at least 90 and the high-maturity one
      exactly above a maturity of 0.8. */
  lemma {:induction false} NewMilestonesMembers(count: nat, overallScore: int, maturity: real)
    ensures var r := NewMilestones(count, overallScore, maturity);
            && (FirstDecision in r <==> count == 1) && (ExceptionalAlignment in r <==> overallScore >= 90)
            && (HighMaturity in r <==> maturity > 0.8)
  {
  }

  /** The three conditional pushes of an update append exactly the new milestones. */
  lemma {:induction false} MilestonePushes(ms: seq<Milestone>, count: nat, overallScore: int, maturity: real)
    ensures var m1 := if count == 1 then ms + [FirstDecision] else ms;
            var m2 := if overallScore >= 90 then m1 + [ExceptionalAlignment] else m1;
            var m3 := if maturity > 0.8 then m2 + [HighMaturity] else m2;
            m3 == ms + NewMilestones(count, overallScore, maturity)
  {
    var first: seq<Milestone> := if count == 1 then [FirstDecision] else [];
    var exceptional: seq<Milestone> := if overallScore >= 90 then [ExceptionalAlignment] else [];
    var mature: seq<Milestone> := if maturity > 0.8 then [HighMaturity] else [];
    AppendAssoc(ms, first, exceptional);
    AppendAssoc(ms, first + exceptional, mature);
  }

  /** An analysis whose unity entry scores 0.5 and which raises critical issues and
      recommendations leaves the awareness as it is and adds 2 to the wisdom. */
  lemma {:induction false} NeutralUnityGains(a: DecisionAnalysis)
    requires ScoreUnder(a.alignment, Unity) == Some(0.5)
    requires |a.criticalIssues| > 0 && |a.recommendations| > 0
    ensures AwarenessGain(a) == 0 && WisdomGain(a) == 2
  {
  }

  /** Every decision analysis leaves the awareness as it is and adds 2 to the wisdom: unity
      is always 0.5 and there are always critical issues and recommendations. */
  lemma {:induction false} DecisionTrackerGains(d: Decision, timestamp: string)
    ensures var a := DecisionAnalysisOf(d, timestamp);
            && AwarenessGain(a) == 0 && WisdomGain(a) == 2
            && 48 <= a.overallScore <= 56
  {
    AlignmentKeyed(d);
    UnevaluatedIsNeutral(d, Unity);
    ScoreUnderKeyed(AlignmentOf(d, Principles), Unity);
    DecisionAnalysisProfile(d, timestamp);
    NeutralUnityGains(DecisionAnalysisOf(d, timestamp));
  }

  /** The guardian's state between calls: one decision counted per stored analysis, every
      stored score between 48 and 56, the maturity at most 0.56, the awareness still 0, two
      wisdom points per decision and only the first-decision milestone. */
  ghost predicate TrackerInvariant(history: seq<DecisionAnalysis>, count: int, maturity: real,
                                   awareness: int, wisdom: int, milestones: seq<Milestone>)
  {
    && count == |history|
    && 0.0 <= maturity <= 0.56
    && awareness == 0
    && wisdom == 2 * count
    && milestones == (if count == 0 then [] else [FirstDecision])
    && forall i :: 0 <= i < |history| ==> 48 <= history[i].overallScore <= 56
  }

  /** Storing an analysis scored 48 to 56 that gains no awareness and two wisdom points,
      and applying its tracker update, keeps the guardian's invariant; every decision's
      analysis is such an analysis (`DecisionTrackerGains`). */
  lemma {:induction false} TrackerStep(history: seq<DecisionAnalysis>, count: int, maturity: real,
                                       awareness: int, wisdom: int, milestones: seq<Milestone>,
                                       a: DecisionAnalysis)
    requires TrackerInvariant(history, count, maturity, awareness, wisdom, milestones)
    requires AwarenessGain(a) == 0 && WisdomGain(a) == 2 && 48 <= a.overallScore <= 56
    ensures var m := MaturityAfter(maturity, a.overallScore);
            TrackerInvariant(history + [a], count + 1, m, awareness + AwarenessGain(a),
                             wisdom + WisdomGain(a), milestones + NewMilestones(count + 1, a.overallScore, m))
  {
    MaturityBelowMilestones(maturity, a.overallScore, count + 1);
    BandedAppend(history, a);
  }

  /** Appending an analysis scored 48 to 56 keeps every stored score in that band. */
  lemma {:induction false} BandedAppend(history: seq<DecisionAnalysis>, a: DecisionAnalysis)
    requires forall i :: 0 <= i < |history| ==> 48 <= history[i].overallScore <= 56
    requires 48 <= a.overallScore <= 56
    ensures forall i :: 0 <= i < |history + [a]| ==> 48 <= (history + [a])[i].overallScore <= 56
  {
    var h := history + [a];
    forall i | 0 <= i < |h|
      ensures 48 <= h[i].overallScore <= 56
    {
      if i < |history| {
        assert h[i] == history[i];
      }
    }
  }

  /** A maturity up to 0.56 updated with a score of 48 to 56 stays up to 0.56, so neither
      the exceptional nor the high-maturity milestone is ever appended. */
  lemma {:induction false} MaturityBelowMilestones(m: real, overallScore: int, count: nat)
    requires 0.0 <= m <= 0.56 && 48 <= overallScore <= 56
    ensures 0.24 <= MaturityAfter(m, overallScore) <= 0.56
    ensures NewMilestones(count, overallScore, MaturityAfter(m, overallScore)) == (if count == 1 then [FirstDecision] else [])
  {
  }

  /** One more entry extends the principle improvements by at most its own. */
  lemma {:induction false} ImprovementsStep(entries: seq<Entry>, i: int)
    requires 0 <= i < |entries|
    ensures ImprovementsOf(entries[..i + 1])
         == ImprovementsOf(entries[..i]) + (if entries[i].analysis.score < 0.6 then [ImprovementFor(entries[i])] else [])
  {
    assert entries[..i + 1][..i] == entries[..i];
  }

  /** One more indicator extends the indicator table and the running total by its own score. */
  lemma {:induction false} IndicatorStep(d: Decision, names: seq<Indicator>, k: int)
    requires 0 <= k < |names|
    ensures IndicatorScoresOf(d, names[..k + 1]) == IndicatorScoresOf(d, names[..k]) + [IndicatorScore(names[k], EvaluateIndicator(d, names[k]))]
    ensures Sum(IndicatorValues(d, names[..k + 1])) == Sum(IndicatorValues(d, names[..k])) + EvaluateIndicator(d, names[k])
  {
    assert names[..k + 1][..k] == names[..k];
    var values := IndicatorValues(d, names[..k + 1]);
    assert values[..|values| - 1] == IndicatorValues(d, names[..k]);
  }

  /** One more principle extends the alignment table by its own entry. */
  lemma {:induction false} AlignmentStep(d: Decision, i: int)
    requires 0 <= i < |Principles|
    ensures AlignmentOf(d, Principles[..i + 1]) == AlignmentOf(d, Principles[..i]) + [Entry(Principles[i], PrincipleAlignmentOf(d, Principles[i]))]
  {
    assert Principles[..i + 1][..i] == Principles[..i];
  }

  /** One more entry adds its weighted score to the total and its issue, when critical, to the
      critical issues. */
  lemma {:induction false} EntryStep(entries: seq<Entry>, key: Principle, a: PrincipleAnalysis)
    ensures WeightedTotal(entries + [Entry(key, a)]) == WeightedTotal(entries) + a.score * key.Weight()
    ensures CriticalIssuesOf(entries + [Entry(key, a)])
         == CriticalIssuesOf(entries) + (if a.critical then [CriticalIssue(key, a.rationale, a.severity)] else [])
  {
    assert (entries + [Entry(key, a)])[..|entries|] == entries;
  }

  /** One more entry extends the strengthening actions by at most its own. */
  lemma {:induction false} WeakStep(entries: seq<Entry>, i: int)
    requires 0 <= i < |entries|
    ensures WeakPrinciples(entries[..i + 1])
         == WeakPrinciples(entries[..i]) + (if entries[i].analysis.score < 0.6 then [Strengthen(entries[i].key)] else [])
  {
    assert entries[..i + 1][..i] == entries[..i];
  }

  /** One more principle extends the validation results by its own. */
  lemma {:induction false} ValidationsStep(t: Target, i: int)
    requires 0 <= i < |Principles|
    ensures ValidationsOf(t, Principles[..i + 1]) == ValidationsOf(t, Principles[..i]) + [ValidationEntry(Principles[i], ValidationOf(t, Principles[i]))]
  {
    assert Principles[..i + 1][..i] == Principles[..i];
  }

  /** What `getConsciousnessEvolutionMetrics` returns. */
  datatype EvolutionMetrics = EvolutionMetrics(
    uefEvolutionScore: int,
    ethicalMaturity: int,
    planetaryAwareness: int,
    wisdomAccumulation: int,
    totalDecisions: nat,
    evolutionMilestones: seq<Milestone>)

  function MinInt(a: int, b: int): int { if a <= b then a else b }

  /** `slice(-5)`: the last five elements, or all of them when there are fewer. */
  function LastFive(ms: seq<Milestone>): (r: seq<Milestone>)
    ensures |r| == MinInt(|ms|, 5)
    ensures r == ms[|ms| - |r|..]
  {
    if |ms| <= 5 then ms else ms[|ms| - 5..]
  }

  /** The metrics of a tracker state. */
  function MetricsOf(total: nat, maturity: real, awareness: nat, wisdom: nat, milestones: seq<Milestone>): (r: EvolutionMetrics)
    ensures r.uefEvolutionScore <= 100
    ensures maturity >= 0.0 ==> r.uefEvolutionScore >= 0
    ensures maturity <= 1.0 ==> r.uefEvolutionScore == Round(maturity * 40.0 + Min(awareness as real * 2.0, 30.0)
                                                              + Min(wisdom as real * 0.5, 20.0) + Min(total as real * 2.0, 10.0))
    ensures r.ethicalMaturity == Round(maturity * 100.0)
    ensures r.planetaryAwareness == MinInt(awareness, 50) && r.wisdomAccumulation == MinInt(wisdom, 100)
    ensures r.totalDecisions == total
    ensures |r.evolutionMilestones| <= 5 && |r.evolutionMilestones| <= |milestones|
    ensures |r.evolutionMilestones| == MinInt(|milestones|, 5)
    ensures r.evolutionMilestones == milestones[|milestones| - |r.evolutionMilestones|..]
  {
    var raw := maturity * 40.0 + Min(awareness as real * 2.0, 30.0) + Min(wisdom as real * 0.5, 20.0) + Min(total as real * 2.0, 10.0);
    assert maturity >= 0.0 ==> Round(raw) >= 0 by {
      if maturity >= 0.0 {
        RoundMonotone(0.0, raw);
      }
    }
    assert maturity <= 1.0 ==> Round(raw) <= 100 by {
      if maturity <= 1.0 {
        RoundMonotone(raw, 100.0);
      }
    }
    EvolutionMetrics(MinInt(Round(raw), 100), Round(maturity * 100.0), MinInt(awareness, 50), MinInt(wisdom, 100),
                     total, LastFive(milestones))
  }

  class UEFGuardian {
    /** `options.mode` and `options.logLevel`; neither is read by any analysis. */
    const mode: string
    const logLevel: string
    var decisionHistory: seq<DecisionAnalysis>
    /** The fields of `consciousnessEvolutionTracker`. */
    var totalDecisions: nat
    var ethicalMaturityScore: real
    var planetaryAwarenessIndex: nat
    var wisdomAccumulation: nat
    var evolutionMilestones: seq<Milestone>

    /** The state the guardian keeps between calls: one decision counted per stored
        analysis, every stored score between 48 and 56, the maturity at most 0.56, the
        awareness still 0, two wisdom points per decision and only the first-decision
        milestone. */
    ghost predicate Valid()
      reads this
    {
      TrackerInvariant(decisionHistory, totalDecisions, ethicalMaturityScore, planetaryAwarenessIndex,
                       wisdomAccumulation, evolutionMilestones)
    }

    /** `new UEFGuardian(options)`: the caller's mode and log level when given (the spread
        keeps them even when the `||` default would not), an empty history and a zero
        tracker. */
    constructor (modeOption: Option<string>, logLevelOption: Option<string>)
      ensures mode == modeOption.GetOr("strict") && logLevel == logLevelOption.GetOr("info")
      ensures decisionHistory == [] && totalDecisions == 0 && ethicalMaturityScore == 0.0
      ensures planetaryAwarenessIndex == 0 && wisdomAccumulation == 0 && evolutionMilestones == []
      ensures Valid()
    {
      mode := modeOption.GetOr("strict");
      logLevel := logLevelOption.GetOr("info");
      decisionHistory := [];
      totalDecisions := 0;
      ethicalMaturityScore := 0.0;
      planetaryAwarenessIndex := 0;
      wisdomAccumulation := 0;
      evolutionMilestones := [];
    }

    /** `analyzePrincipleAlignment`: the indicator loop accumulates the total and the
        indicator table, and the result is the specified principle analysis. */
    method AnalyzePrincipleAlignment(d: Decision, p: Principle) returns (a: PrincipleAnalysis)
      ensures a == PrincipleAlignmentOf(d, p)
    {
      var names := p.Indicators();
      var indicators: seq<IndicatorScore> := [];
      var totalScore := 0.0;
      var indicatorCount := 0;
      while indicatorCount < |names|
        invariant 0 <= indicatorCount <= |names|
        invariant indicators == IndicatorScoresOf(d, names[..indicatorCount])
        invariant totalScore == Sum(IndicatorValues(d, names[..indicatorCount]))
      {
        var indicatorScore := EvaluateIndicator(d, names[indicatorCount]);
        IndicatorStep(d, names, indicatorCount);
        indicators := indicators + [IndicatorScore(names[indicatorCount], indicatorScore)];
        totalScore := totalScore + indicatorScore;
        indicatorCount := indicatorCount + 1;
      }
      assert names[..indicatorCount] == names;
      var score := totalScore / indicatorCount as real;
      var critical := false;
      var severity := Low;
      if score < 0.7 {
        critical := true;
        severity := SeverityOf(score);
      }
      a := PrincipleAnalysis(p, score, RationaleOf(p, score, indicators), indicators, critical, severity);
    }

    /** `generateRecommendations`: the critical block, the principle loop and the overall
        entry give the specified recommendation list. */
    method GenerateRecommendations(entries: seq<Entry>, overallScore: int, critical: seq<CriticalIssue>)
      returns (recommendations: seq<Recommendation>)
      ensures recommendations == RecommendationsOf(entries, overallScore, critical)
    {
      recommendations := [];
      if |critical| > 0 {
        recommendations := recommendations + [ImmediateAction(critical)];
      }
      ghost var head := recommendations;
      for i := 0 to |entries|
        invariant recommendations == head + ImprovementsOf(entries[..i])
      {
        ImprovementsStep(entries, i);
        if entries[i].analysis.score < 0.6 {
          AppendAssoc(head, ImprovementsOf(entries[..i]), [ImprovementFor(entries[i])]);
          recommendations := recommendations + [ImprovementFor(entries[i])];
        }
      }
      assert entries[..|entries|] == entries;
      if overallScore < 70 {
        recommendations := recommendations + [OverallImprovement(overallScore)];
      }
    }

    /** `updateConsciousnessEvolutionTracking`: one more decision, the running maturity, the
        awareness and wisdom gains and the new milestones, appended. */
    method UpdateConsciousnessEvolutionTracking(a: DecisionAnalysis)
      modifies this
      ensures decisionHistory == old(decisionHistory)
      ensures totalDecisions == old(totalDecisions) + 1
      ensures ethicalMaturityScore == MaturityAfter(old(ethicalMaturityScore), a.overallScore)
      ensures planetaryAwarenessIndex == old(planetaryAwarenessIndex) + AwarenessGain(a)
      ensures wisdomAccumulation == old(wisdomAccumulation) + WisdomGain(a)
      ensures evolutionMilestones == old(evolutionMilestones) + NewMilestones(totalDecisions, a.overallScore, ethicalMaturityScore)
    {
      var count := totalDecisions + 1;
      var ethicalGrowth := a.overallScore as real / 100.0;
      var maturity := (ethicalMaturityScore + ethicalGrowth) / 2.0;
      var stakeholderCount := OrElse(ScoreUnder(a.alignment, Unity), 0.5);
      var wisdom := wisdomAccumulation;
      if |a.criticalIssues| == 0 && a.overallScore > 70 {
        wisdom := wisdom + 5;
      } else if |a.recommendations| > 0 {
        wisdom := wisdom + 2;
      }
      var milestones := evolutionMilestones;
      MilestonePushes(milestones, count, a.overallScore, maturity);
      if count == 1 {
        milestones := milestones + [FirstDecision];
      }
      if a.overallScore >= 90 {
        milestones := milestones + [ExceptionalAlignment];
      }
      if maturity > 0.8 {
        milestones := milestones + [HighMaturity];
      }
      totalDecisions := count;
      ethicalMaturityScore := maturity;
      planetaryAwarenessIndex := planetaryAwarenessIndex + (if stakeholderCount > 0.7 then 2 else if stakeholderCount > 0.5 then 1 else 0);
      wisdomAccumulation := wisdom;
      evolutionMilestones := milestones;
    }

    /** The principle loop of `analyzeDecision`: one entry per principle, the weighted total
        accumulated in declaration order and a critical issue for every critical principle. */
    method AnalyzePrinciples(d: Decision) returns (entries: seq<Entry>, total: real, critical: seq<CriticalIssue>)
      ensures entries == AlignmentOf(d, Principles)
      ensures total == WeightedTotal(entries) && critical == CriticalIssuesOf(entries)
    {
      entries := [];
      total := 0.0;
      critical := [];
      for i := 0 to |Principles|
        invariant entries == AlignmentOf(d, Principles[..i])
        invariant total == WeightedTotal(entries) && critical == CriticalIssuesOf(entries)
      {
        var key := Principles[i];
        var principleAnalysis := AnalyzePrincipleAlignment(d, key);
        AlignmentStep(d, i);
        EntryStep(entries, key, principleAnalysis);
        entries := entries + [Entry(key, principleAnalysis)];
        total := total + principleAnalysis.score * key.Weight();
        if principleAnalysis.critical {
          critical := critical + [CriticalIssue(key, principleAnalysis.rationale, principleAnalysis.severity)];
        }
      }
      assert Principles[..|Principles|] == Principles;
    }

    /** The computing half of `analyzeDecision`: the principle loop, the overall score, the
        recommendations and the impact give the specified analysis. */
    method ComposeAnalysis(d: Decision, timestamp: string) returns (a: DecisionAnalysis)
      ensures a == DecisionAnalysisOf(d, timestamp)
    {
      var entries, total, critical := AnalyzePrinciples(d);
      var overallScore := Round(total / MaxPossibleScore() * 100.0);
      var recommendations := GenerateRecommendations(entries, overallScore, critical);
      AlignmentKeyed(d);
      assert overallScore == OverallScoreOf(entries);
      a := DecisionAnalysis(d, timestamp, entries, overallScore, critical, recommendations, ConsciousnessImpactOf(entries));
    }

    /** The recording half of `analyzeDecision`: the tracker update and the history push. An
        analysis scored 48 to 56 that gains no awareness and two wisdom points keeps the
        guardian's invariant. */
    method RecordAnalysis(a: DecisionAnalysis)
      requires Valid()
      requires AwarenessGain(a) == 0 && WisdomGain(a) == 2 && 48 <= a.overallScore <= 56
      modifies this
      ensures Valid()
      ensures decisionHistory == old(decisionHistory) + [a]
      ensures totalDecisions == old(totalDecisions) + 1
      ensures ethicalMaturityScore == MaturityAfter(old(ethicalMaturityScore), a.overallScore)
      ensures planetaryAwarenessIndex == old(planetaryAwarenessIndex) && wisdomAccumulation == old(wisdomAccumulation) + 2
      ensures evolutionMilestones == [FirstDecision]
    {
      TrackerStep(decisionHistory, totalDecisions, ethicalMaturityScore, planetaryAwarenessIndex,
                  wisdomAccumulation, evolutionMilestones, a);
      MaturityBelowMilestones(ethicalMaturityScore, a.overallScore, totalDecisions + 1);
      UpdateConsciousnessEvolutionTracking(a);
      decisionHistory := decisionHistory + [a];
    }

    /** `analyzeDecision`: the specified analysis, appended to the history and counted by the
        tracker, which keeps the guardian's invariant. */
    method AnalyzeDecision(d: Decision, timestamp: string) returns (a: DecisionAnalysis)
      requires Valid()
      modifies this
      ensures Valid()
      ensures a == DecisionAnalysisOf(d, timestamp)
      ensures decisionHistory == old(decisionHistory) + [a]
      ensures totalDecisions == old(totalDecisions) + 1
      ensures ethicalMaturityScore == MaturityAfter(old(ethicalMaturityScore), a.overallScore)
      ensures planetaryAwarenessIndex == old(planetaryAwarenessIndex) && wisdomAccumulation == old(wisdomAccumulation) + 2
      ensures evolutionMilestones == [FirstDecision]
    {
      a := ComposeAnalysis(d, timestamp);
      DecisionTrackerGains(d, timestamp);
      RecordAnalysis(a);
    }

    /** The principle loop of `assessAlignment`. */
    method AssessPrinciples(t: Target) returns (entries: seq<TargetEntry>)
      ensures entries == TargetAlignmentOf(t, Principles)
    {
      entries := [];
      for i := 0 to |Principles|
        invariant entries == TargetAlignmentOf(t, Principles[..i])
      {
        entries := entries + [TargetEntry(Principles[i], AssessTargetPrinciple(t, Principles[i]))];
      }
      assert Principles[..|Principles|] == Principles;
    }

    /** `identifyImprovementAreas`: the loop over the assessments below 0.7, or the
        all-well-aligned note. */
    method IdentifyImprovementAreas(entries: seq<TargetEntry>) returns (improvements: seq<ImprovementArea>)
      ensures improvements == ImprovementAreasOf(entries)
    {
      improvements := [];
      for i := 0 to |entries|
        invariant improvements == LowAreas(entries[..i])
      {
        assert entries[..i + 1][..i] == entries[..i];
        var alignment := entries[i].assessment;
        if alignment.score < 0.7 {
          improvements := improvements + [Improvement(entries[i].key, Round(alignment.score * 100.0), alignment.details)];
        }
      }
      assert entries[..|entries|] == entries;
      if improvements == [] {
        improvements := [AllWellAligned];
      }
    }

    /** `assessAlignment`: the specified assessment, computed without touching the guardian's
        state. */
    method AssessAlignment(t: Target) returns (assessment: AlignmentAssessment)
      ensures assessment == AlignmentAssessmentOf(t)
    {
      var entries := AssessPrinciples(t);
      var score := PercentOfMean(TargetScores(entries));
      var areas := IdentifyImprovementAreas(entries);
      assessment := AlignmentAssessment(t, score, entries, areas, AlignmentCertification(score));
    }

    /** `validatePrincipleImplementation`: the keyword loop counts the matches and collects
        the evidence, and the gaps are filtered only below 0.8. */
    method ValidatePrincipleImplementation(system: Target, p: Principle) returns (v: Validation)
      ensures v == ValidationOf(system, p)
    {
      var principleKeywords := p.Indicators();
      var systemText := SystemText(system);
      var matches := 0;
      var evidence: seq<Indicator> := [];
      for i := 0 to |principleKeywords|
        invariant evidence == Matched(systemText, principleKeywords[..i]) && matches == |evidence|
      {
        assert principleKeywords[..i + 1][..i] == principleKeywords[..i];
        if Contains(systemText, ToLower(principleKeywords[i].Name())) {
          matches := matches + 1;
          evidence := evidence + [principleKeywords[i]];
        }
      }
      assert principleKeywords[..|principleKeywords|] == principleKeywords;
      var score := Min(matches as real / |principleKeywords| as real, 1.0);
      var gaps: seq<Indicator> := [];
      if score < 0.8 {
        gaps := Unmatched(systemText, principleKeywords);
      }
      v := Validation(score > 0.5, score, evidence, gaps);
    }

    /** `identifyImplementationGaps`: the loop over the results with gaps, or the no-gaps
        note. */
    method IdentifyImplementationGaps(results: seq<ValidationEntry>) returns (gaps: seq<Gap>)
      ensures gaps == ImplementationGapsOf(results)
    {
      gaps := [];
      for i := 0 to |results|
        invariant gaps == GapNotes(results[..i])
      {
        assert results[..i + 1][..i] == results[..i];
        if |results[i].result.gaps| > 0 {
          gaps := gaps + [Missing(results[i].key, results[i].result.gaps)];
        }
      }
      assert results[..|results|] == results;
      if gaps == [] {
        gaps := [NoSignificantGaps];
      }
    }

    /** `validatePrinciples`: the specified validation report, computed without touching the
        guardian's state. */
    method ValidatePrinciples(system: Target) returns (report: ValidationReport)
      ensures report == ValidationReportOf(system)
    {
      var results: seq<ValidationEntry> := [];
      for i := 0 to |Principles|
        invariant results == ValidationsOf(system, Principles[..i])
      {
        var v := ValidatePrincipleImplementation(system, Principles[i]);
        ValidationsStep(system, i);
        results := results + [ValidationEntry(Principles[i], v)];
      }
      assert Principles[..|Principles|] == Principles;
      var score := PercentOfMean(ValidationScores(results));
      var gaps := IdentifyImplementationGaps(results);
      report := ValidationReport(system, results, score, gaps, ComplianceCertification(score));
    }

    /** `generateScenarioRecommendations`: the review, the violations and the principle loop,
        or the proceed note. */
    method GenerateScenarioRecommendations(a: DecisionAnalysis) returns (recommendations: seq<ScenarioRecommendation>)
      ensures recommendations == ScenarioRecommendationsOf(a)
    {
      recommendations := [];
      if a.overallScore < 70 {
        recommendations := recommendations + [ComprehensiveReview];
      }
      if |a.criticalIssues| > 0 {
        recommendations := recommendations + [AddressViolations];
      }
      ghost var head := recommendations;
      for i := 0 to |a.alignment|
        invariant recommendations == head + WeakPrinciples(a.alignment[..i])
      {
        WeakStep(a.alignment, i);
        if a.alignment[i].analysis.score < 0.6 {
          AppendAssoc(head, WeakPrinciples(a.alignment[..i]), [Strengthen(a.alignment[i].key)]);
          recommendations := recommendations + [Strengthen(a.alignment[i].key)];
        }
      }
      assert a.alignment[..|a.alignment|] == a.alignment;
      if recommendations == [] {
        recommendations := [ProceedWithConfidence];
      }
    }

    /** `generateGuidance`: the scenario's decision is analysed (and so recorded), and the
        guidance is built from that analysis. */
    method GenerateGuidance(s: Scenario, timestamp: string) returns (g: Guidance)
      requires Valid()
      modifies this
      ensures Valid()
      ensures g == GuidanceFor(s, DecisionAnalysisOf(ScenarioDecision(s), timestamp))
      ensures decisionHistory == old(decisionHistory) + [g.analysis]
      ensures totalDecisions == old(totalDecisions) + 1
      ensures ethicalMaturityScore == MaturityAfter(old(ethicalMaturityScore), g.analysis.overallScore)
      ensures planetaryAwarenessIndex == old(planetaryAwarenessIndex) && wisdomAccumulation == old(wisdomAccumulation) + 2
      ensures evolutionMilestones == [FirstDecision]
    {
      var a := AnalyzeDecision(ScenarioDecision(s), timestamp);
      var actions := GenerateScenarioRecommendations(a);
      g := Guidance(s, a, actions, IdentifyRelevantPrinciples(s), AssessEvolutionImpact(s));
    }

    /** `getConsciousnessEvolutionMetrics`: the capped metrics of the tracker; in a valid
        guardian the awareness is 0, the wisdom min(2n, 100) after n decisions and the
        milestones at most the first-decision one. */
    function GetConsciousnessEvolutionMetrics(): (r: EvolutionMetrics)
      reads this
      ensures r == MetricsOf(totalDecisions, ethicalMaturityScore, planetaryAwarenessIndex, wisdomAccumulation, evolutionMilestones)
      ensures Valid() ==> r.planetaryAwareness == 0 && r.wisdomAccumulation == MinInt(2 * totalDecisions, 100)
                          && r.evolutionMilestones == evolutionMilestones && 0 <= r.uefEvolutionScore <= 100
    {
      MetricsOf(totalDecisions, ethicalMaturityScore, planetaryAwarenessIndex, wisdomAccumulation, evolutionMilestones)
    }
  }
}
