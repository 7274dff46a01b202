/** The specification of `analyzePrincipleAlignment`, `analyzeDecision`,
    `generateRecommendations` and `assessConsciousnessImpact`: what one principle scores for a
    decision, the nine-principle weighted score, the critical issues, the recommendation list
    and the impact bands, with the facts every decision analysis shares. */
module GuardianAlignment {
  import opened Basics
  import opened GuardianPrinciples
  import opened GuardianIndicators

  datatype Severity = Low | Medium | High

  /** The severity of a principle: `'high'` below 0.4 and `'medium'` below 0.6 when it is
      critical (below 0.7); a principle at 0.6 or above keeps the initial `'low'`. */
  function SeverityOf(score: real): (s: Severity)
    ensures s == High <==> score < 0.4
    ensures s == Medium <==> 0.4 <= score < 0.6
    ensures s == Low <==> 0.6 <= score
  {
    if score < 0.7 then (if score < 0.4 then High else if score < 0.6 then Medium else Low) else Low
  }

  /** One entry of `analysis.indicators`. */
  datatype IndicatorScore = IndicatorScore(indicator: Indicator, score: real)

  /** The indicator scores of `names`, in evaluation order. */
  function IndicatorScoresOf(d: Decision, names: seq<Indicator>): (r: seq<IndicatorScore>)
    ensures |r| == |names|
  {
    if names == [] then []
    else
      var last := names[|names| - 1];
      IndicatorScoresOf(d, names[..|names| - 1]) + [IndicatorScore(last, EvaluateIndicator(d, last))]
  }

  /** The indicator values alone, the numbers `totalScore` adds up. */
  function IndicatorValues(d: Decision, names: seq<Indicator>): (r: seq<real>)
    ensures |r| == |names|
  {
    if names == [] then []
    else IndicatorValues(d, names[..|names| - 1]) + [EvaluateIndicator(d, names[|names| - 1])]
  }

  /** Each indicator value is the evaluation of the indicator at the same position. */
  lemma {:induction false} IndicatorValuesAt(d: Decision, names: seq<Indicator>)
    ensures forall i :: 0 <= i < |names| ==> IndicatorValues(d, names)[i] == EvaluateIndicator(d, names[i])
  {
    if names != [] {
      var init := names[..|names| - 1];
      IndicatorValuesAt(d, init);
      forall i | 0 <= i < |names|
        ensures IndicatorValues(d, names)[i] == EvaluateIndicator(d, names[i])
      {
        if i < |init| {
          assert names[i] == init[i];
        }
      }
    }
  }

  /** The names of the indicators whose score passes `keep`, in order. */
  function Named(ind: seq<IndicatorScore>, keep: real -> bool): (r: seq<Indicator>)
    ensures |r| <= |ind|
    ensures forall i :: 0 <= i < |ind| && keep(ind[i].score) ==> ind[i].indicator in r
  {
    if ind == [] then []
    else
      var last := ind[|ind| - 1];
      Named(ind[..|ind| - 1], keep) + (if keep(last.score) then [last.indicator] else [])
  }

  /** Every indicator the filter names comes from an indicator score that passes `keep`. */
  lemma {:induction false} NamedOnlyPassing(ind: seq<IndicatorScore>, keep: real -> bool, k: Indicator)
    requires k in Named(ind, keep)
    ensures exists i :: 0 <= i < |ind| && keep(ind[i].score) && ind[i].indicator == k
  {
    var n := |ind|;
    var init := Named(ind[..n - 1], keep);
    if k in init {
      NamedOnlyPassing(ind[..n - 1], keep, k);
      var i :| 0 <= i < n - 1 && keep(ind[..n - 1][i].score) && ind[..n - 1][i].indicator == k;
      assert ind[i] == ind[..n - 1][i];
    } else {
      assert keep(ind[n - 1].score) && ind[n - 1].indicator == k;
    }
  }

  /** The four bands of `generatePrincipleRationale`. */
  datatype RationaleBand = Excellent | Good | Moderate | Poor

  /** A rationale: the principle's name, its band and the indicators the band's sentence
      lists (all of them, the strong ones above 0.6, the weak ones below 0.6, the critical
      ones below 0.4); an empty list stands for the sentence's generic fallback. */
  datatype Rationale = Rationale(principle: Principle, band: RationaleBand, named: seq<Indicator>)

  /** `generatePrincipleRationale`. */
  function RationaleOf(name: Principle, score: real, ind: seq<IndicatorScore>): (r: Rationale)
    ensures r.principle == name
    ensures r.band == Excellent <==> score >= 0.8
    ensures r.band == Good <==> 0.6 <= score < 0.8
    ensures r.band == Moderate <==> 0.4 <= score < 0.6
    ensures r.band == Poor <==> score < 0.4
    ensures |r.named| <= |ind|
  {
    if score >= 0.8 then Rationale(name, Excellent, Named(ind, s => true))
    else if score >= 0.6 then Rationale(name, Good, Named(ind, s => s > 0.6))
    else if score >= 0.4 then Rationale(name, Moderate, Named(ind, s => s < 0.6))
    else Rationale(name, Poor, Named(ind, s => s < 0.4))
  }

  /** What `analyzePrincipleAlignment` returns. */
  datatype PrincipleAnalysis = PrincipleAnalysis(
    principle: Principle,
    score: real,
    rationale: Rationale,
    indicators: seq<IndicatorScore>,
    critical: bool,
    severity: Severity)

  /** The mean of any indicator values lies in [0.2, 1]. */
  lemma {:induction false} MeanOfValues(d: Decision, names: seq<Indicator>)
    requires |names| > 0
    ensures 0.2 <= Sum(IndicatorValues(d, names)) / |names| as real <= 1.0
  {
    var values := IndicatorValues(d, names);
    IndicatorValuesAt(d, names);
    assert forall i :: 0 <= i < |values| ==> 0.2 <= values[i] <= 1.0;
    MeanWithin(values, 0.2, 1.0);
  }

  /** The analysis `analyzePrincipleAlignment` builds for a principle called `name` with the
      indicators `names`: the mean of the indicator scores, the rationale band of that mean,
      critical below 0.7 with its severity band. */
  function AlignmentFor(d: Decision, name: Principle, names: seq<Indicator>): (a: PrincipleAnalysis)
    requires |names| > 0
    ensures a.principle == name && a.indicators == IndicatorScoresOf(d, names)
    ensures a.score == Sum(IndicatorValues(d, names)) / |names| as real
    ensures 0.2 <= a.score <= 1.0
    ensures a.critical <==> a.score < 0.7
    ensures a.severity == SeverityOf(a.score) && a.rationale == RationaleOf(name, a.score, a.indicators)
  {
    MeanOfValues(d, names);
    var score := Sum(IndicatorValues(d, names)) / |names| as real;
    var ind := IndicatorScoresOf(d, names);
    PrincipleAnalysis(name, score, RationaleOf(name, score, ind), ind, score < 0.7, SeverityOf(score))
  }

  /** `analyzePrincipleAlignment(decision, principle)`. */
  function PrincipleAlignmentOf(d: Decision, p: Principle): (a: PrincipleAnalysis)
    ensures a.principle == p && a.indicators == IndicatorScoresOf(d, p.Indicators())
    ensures a.score == Sum(IndicatorValues(d, p.Indicators())) / 4.0
    ensures 0.2 <= a.score <= 1.0
    ensures a.critical <==> a.score < 0.7
    ensures a.severity == SeverityOf(a.score) && a.rationale == RationaleOf(p, a.score, a.indicators)
  {
    AlignmentFor(d, p, p.Indicators())
  }

  /** A sum of four numbers. */
  lemma {:induction false} SumOfFour(xs: seq<real>)
    requires |xs| == 4
    ensures Sum(xs) == xs[0] + xs[1] + xs[2] + xs[3]
  {
    assert Sum(xs[..1]) == xs[0] by { assert xs[..1][..0] == []; }
    assert Sum(xs[..2]) == xs[0] + xs[1] by { assert xs[..2][..1] == xs[..1]; }
    assert Sum(xs[..3]) == xs[0] + xs[1] + xs[2] by { assert xs[..3][..2] == xs[..2]; }
    assert xs[..3] == xs[..|xs| - 1];
  }

  /** Proof, memory, unity, abundance, exploration and resonance have no evaluator for any of
      their indicators. */
  predicate Unevaluated(p: Principle)
  {
    p in {Proof, Memory, Unity, Abundance, Exploration, Resonance}
  }

  /** A principle without an evaluator scores exactly 0.5 whatever the decision, so it is
      always critical with severity 'medium' and a 'moderate' rationale. */
  lemma {:induction false} UnevaluatedIsNeutral(d: Decision, p: Principle)
    requires Unevaluated(p)
    ensures PrincipleAlignmentOf(d, p).score == 0.5
    ensures PrincipleAlignmentOf(d, p).critical && PrincipleAlignmentOf(d, p).severity == Medium
    ensures PrincipleAlignmentOf(d, p).rationale.band == Moderate
  {
    var values := IndicatorValues(d, p.Indicators());
    IndicatorValuesAt(d, p.Indicators());
    SumOfFour(values);
    assert forall i :: 0 <= i < 4 ==> values[i] == 0.5;
  }

  /** The three principles with an evaluator: truth holds the factual-accuracy reading,
      science the empirical-evidence indicator and ethics the moral-reasoning and
      harm-prevention readings, each beside indicators read as 0.5. */
  lemma {:induction false} EvaluatedScores(d: Decision)
    ensures PrincipleAlignmentOf(d, Truth).score == (EvaluateFactualAccuracy(d) + 1.5) / 4.0
    ensures PrincipleAlignmentOf(d, Science).score == (EvaluateIndicator(d, EmpiricalEvidence) + 1.5) / 4.0
    ensures PrincipleAlignmentOf(d, Ethics).score == (EvaluateMoralReasoning(d) + EvaluateHarmPrevention(d) + 1.0) / 4.0
  {
    IndicatorValuesAt(d, Truth.Indicators());
    IndicatorValuesAt(d, Science.Indicators());
    IndicatorValuesAt(d, Ethics.Indicators());
    SumOfFour(IndicatorValues(d, Truth.Indicators()));
    SumOfFour(IndicatorValues(d, Science.Indicators()));
    SumOfFour(IndicatorValues(d, Ethics.Indicators()));
  }

  /** Truth scores in [0.475, 0.575], science in [0.45, 0.625] and ethics in [0.425, 0.75]:
      truth and science are therefore always critical, and truth always scores below 0.6. */
  lemma {:induction false} EvaluatedRanges(d: Decision)
    ensures 0.475 <= PrincipleAlignmentOf(d, Truth).score <= 0.575
    ensures 0.45 <= PrincipleAlignmentOf(d, Science).score <= 0.625
    ensures 0.425 <= PrincipleAlignmentOf(d, Ethics).score <= 0.75
  {
    EvaluatedScores(d);
    EmpiricalIndicatorRange(d);
  }

  /** `uef_alignment[key] = principleAnalysis`, one entry per principle in insertion order. */
  datatype Entry = Entry(key: Principle, analysis: PrincipleAnalysis)

  /** The entries `analyzeDecision` records for the principles `ps`. */
  function AlignmentOf(d: Decision, ps: seq<Principle>): (r: seq<Entry>)
    ensures |r| == |ps|
  {
    if ps == [] then []
    else
      var last := ps[|ps| - 1];
      AlignmentOf(d, ps[..|ps| - 1]) + [Entry(last, PrincipleAlignmentOf(d, last))]
  }

  /** The entry at position `i` holds the principle at that position and its analysis. */
  lemma {:induction false} AlignmentAt(d: Decision, ps: seq<Principle>, i: int)
    requires 0 <= i < |ps|
    ensures AlignmentOf(d, ps)[i] == Entry(ps[i], PrincipleAlignmentOf(d, ps[i]))
  {
    var init := ps[..|ps| - 1];
    if i < |init| {
      AlignmentAt(d, init, i);
      assert ps[i] == init[i];
    }
  }

  /** A principle's entry in the full alignment sits at the principle's index. */
  lemma {:induction false} EntryOf(d: Decision, p: Principle)
    ensures |AlignmentOf(d, Principles)| == 9
    ensures AlignmentOf(d, Principles)[p.Index()] == Entry(p, PrincipleAlignmentOf(d, p))
  {
    PrincipleAtIndex(p);
    AlignmentAt(d, Principles, p.Index());
  }

  /** The alignment holds all nine principles at their declaration positions. */
  predicate Keyed(entries: seq<Entry>)
  {
    |entries| == |Principles| && forall i :: 0 <= i < |entries| ==> entries[i].key == Principles[i]
  }

  /** `analysis.uef_alignment[p].score` for a full alignment. */
  function ScoreAt(entries: seq<Entry>, p: Principle): real
    requires Keyed(entries)
  {
    entries[p.Index()].analysis.score
  }

  /** Every score of the entries lies in [lo, hi]. */
  predicate ScoresWithin(entries: seq<Entry>, lo: real, hi: real)
  {
    forall i :: 0 <= i < |entries| ==> lo <= entries[i].analysis.score <= hi
  }

  /** The full alignment of a decision is keyed and its scores lie in [0.2, 1]. */
  lemma {:induction false} AlignmentKeyed(d: Decision)
    ensures Keyed(AlignmentOf(d, Principles)) && ScoresWithin(AlignmentOf(d, Principles), 0.2, 1.0)
    ensures forall p: Principle :: ScoreAt(AlignmentOf(d, Principles), p) == PrincipleAlignmentOf(d, p).score
  {
    var e := AlignmentOf(d, Principles);
    forall i | 0 <= i < |e|
      ensures e[i].key == Principles[i] && 0.2 <= e[i].analysis.score <= 1.0
    {
      AlignmentAt(d, Principles, i);
    }
    forall p: Principle ensures ScoreAt(e, p) == PrincipleAlignmentOf(d, p).score {
      EntryOf(d, p);
    }
  }

  /** `Σ score · weight` over the entries, the value `overall_score` accumulates. */
  function WeightedTotal(entries: seq<Entry>): real
  {
    if entries == [] then 0.0
    else
      var last := entries[|entries| - 1];
      WeightedTotal(entries[..|entries| - 1]) + last.analysis.score * last.key.Weight()
  }

  /** The keys of the entries. */
  function KeysOf(entries: seq<Entry>): (ks: seq<Principle>)
    ensures |ks| == |entries|
  {
    seq(|entries|, i requires 0 <= i < |entries| => entries[i].key)
  }

  /** Scores in [0, 1] give a weighted total between 0 and the sum of the weights. */
  lemma {:induction false} WeightedTotalBounds(entries: seq<Entry>)
    requires ScoresWithin(entries, 0.0, 1.0)
    ensures 0.0 <= WeightedTotal(entries) <= WeightSum(KeysOf(entries))
  {
    if entries != [] {
      var n := |entries|;
      assert KeysOf(entries)[..n - 1] == KeysOf(entries[..n - 1]);
      WeightedTotalBounds(entries[..n - 1]);
      var last := entries[n - 1];
      assert 0.0 <= last.analysis.score * last.key.Weight() <= last.key.Weight();
    }
  }

  /** `Math.round(total / getMaxPossibleScore() * 100)`. */
  function OverallScoreOf(entries: seq<Entry>): (r: int)
    ensures 0.0 <= WeightedTotal(entries) ==> 0 <= r
    ensures WeightedTotal(entries) <= MaxPossibleScore() ==> r <= 100
  {
    var total := WeightedTotal(entries);
    var m := MaxPossibleScore();
    if 0.0 <= total then
      DivAtLeast(total, m, 0.0);
      RoundMonotone(0.0, total / m * 100.0);
      if total <= m then
        DivAtMost(total, m, 1.0);
        RoundMonotone(total / m * 100.0, 100.0);
        Round(total / m * 100.0)
      else
        Round(total / m * 100.0)
    else
      DivAtMost(total, m, 1.0);
      RoundMonotone(total / m * 100.0, 100.0);
      Round(total / m * 100.0)
  }

  /** For any full alignment whose scores lie in [0, 1], the overall score lies in [0, 100]. */
  lemma {:induction false} OverallScoreRange(entries: seq<Entry>)
    requires Keyed(entries) && ScoresWithin(entries, 0.0, 1.0)
    ensures 0 <= OverallScoreOf(entries) <= 100
  {
    WeightedTotalBounds(entries);
    assert KeysOf(entries) == Principles;
    var m := MaxPossibleScore();
    DivAtLeast(WeightedTotal(entries), m, 0.0);
    DivAtMost(WeightedTotal(entries), m, 1.0);
    RoundWithin(WeightedTotal(entries) / m * 100.0, 0, 100);
  }

  /** The weighted total of a full alignment, term by term. */
  lemma {:induction false} WeightedTotalOfNine(entries: seq<Entry>)
    requires Keyed(entries)
    ensures WeightedTotal(entries)
            == ScoreAt(entries, Truth) + ScoreAt(entries, Science) + ScoreAt(entries, Proof)
               + 0.9 * ScoreAt(entries, Memory) + 0.9 * ScoreAt(entries, Unity)
               + 0.8 * ScoreAt(entries, Abundance) + ScoreAt(entries, Ethics)
               + 0.8 * ScoreAt(entries, Exploration) + 0.7 * ScoreAt(entries, Resonance)
  {
    var e := entries;
    var w := seq(9, i requires 0 <= i < 9 => e[i].analysis.score * e[i].key.Weight());
    assert WeightedTotal(e[..1]) == w[0] by { assert e[..1][..0] == []; }
    assert WeightedTotal(e[..2]) == w[0] + w[1] by { assert e[..2][..1] == e[..1]; }
    assert WeightedTotal(e[..3]) == w[0] + w[1] + w[2] by { assert e[..3][..2] == e[..2]; }
    assert WeightedTotal(e[..4]) == w[0] + w[1] + w[2] + w[3] by { assert e[..4][..3] == e[..3]; }
    assert WeightedTotal(e[..5]) == w[0] + w[1] + w[2] + w[3] + w[4] by { assert e[..5][..4] == e[..4]; }
    assert WeightedTotal(e[..6]) == w[0] + w[1] + w[2] + w[3] + w[4] + w[5] by { assert e[..6][..5] == e[..5]; }
    assert WeightedTotal(e[..7]) == w[0] + w[1] + w[2] + w[3] + w[4] + w[5] + w[6] by { assert e[..7][..6] == e[..6]; }
    assert WeightedTotal(e[..8]) == w[0] + w[1] + w[2] + w[3] + w[4] + w[5] + w[6] + w[7] by { assert e[..8][..7] == e[..7]; }
    assert WeightedTotal(e) == w[0] + w[1] + w[2] + w[3] + w[4] + w[5] + w[6] + w[7] + w[8] by { assert e[..8] == e[..|e| - 1]; }
  }

  /** The score profile every decision's alignment has: the six principles without an
      evaluator at 0.5, truth in [0.475, 0.575], science in [0.45, 0.625] and ethics in
      [0.425, 0.75]. */
  predicate DecisionProfile(e: seq<Entry>)
  {
    && Keyed(e)
    && ScoreAt(e, Proof) == 0.5 && ScoreAt(e, Memory) == 0.5 && ScoreAt(e, Unity) == 0.5
    && ScoreAt(e, Abundance) == 0.5 && ScoreAt(e, Exploration) == 0.5 && ScoreAt(e, Resonance) == 0.5
    && 0.475 <= ScoreAt(e, Truth) <= 0.575
    && 0.45 <= ScoreAt(e, Science) <= 0.625
    && 0.425 <= ScoreAt(e, Ethics) <= 0.75
  }

  /** A principle without an evaluator scores 0.5 in every decision's alignment. */
  lemma {:induction false} NeutralAt(d: Decision, p: Principle)
    requires Unevaluated(p)
    ensures Keyed(AlignmentOf(d, Principles)) && ScoreAt(AlignmentOf(d, Principles), p) == 0.5
  {
    AlignmentKeyed(d);
    UnevaluatedIsNeutral(d, p);
  }

  /** Truth, science and ethics stay in their ranges in every decision's alignment. */
  lemma {:induction false} EvaluatedAt(d: Decision)
    ensures Keyed(AlignmentOf(d, Principles))
    ensures 0.475 <= ScoreAt(AlignmentOf(d, Principles), Truth) <= 0.575
    ensures 0.45 <= ScoreAt(AlignmentOf(d, Principles), Science) <= 0.625
    ensures 0.425 <= ScoreAt(AlignmentOf(d, Principles), Ethics) <= 0.75
  {
    AlignmentKeyed(d);
    EvaluatedRanges(d);
  }

  /** Every decision's alignment has that profile. */
  lemma {:induction false} AlignmentProfile(d: Decision)
    ensures DecisionProfile(AlignmentOf(d, Principles))
  {
    EvaluatedAt(d);
    NeutralAt(d, Proof);
    NeutralAt(d, Memory);
    NeutralAt(d, Unity);
    NeutralAt(d, Abundance);
    NeutralAt(d, Exploration);
    NeutralAt(d, Resonance);
  }

  /** An alignment with that profile has a weighted total in [3.9, 4.5]. */
  lemma {:induction false} ProfileTotal(e: seq<Entry>)
    requires DecisionProfile(e)
    ensures 3.9 <= WeightedTotal(e) <= 4.5
  {
    WeightedTotalOfNine(e);
  }

  /** A weighted total in [3.9, 4.5] normalises to an overall score between 48 and 56. */
  lemma {:induction false} ProfileScore(e: seq<Entry>)
    requires 3.9 <= WeightedTotal(e) <= 4.5
    ensures 48 <= OverallScoreOf(e) <= 56
  {
    var total := WeightedTotal(e);
    var x := total / MaxPossibleScore() * 100.0;
    assert x == total * (1000.0 / 81.0);
    RoundWithin(x, 48, 56);
  }

  /** Whatever the decision, the overall score lies between 48 and 56: the six principles
      without an evaluator hold it near 50. */
  lemma {:induction false} DecisionScoreRange(d: Decision)
    ensures 48 <= OverallScoreOf(AlignmentOf(d, Principles)) <= 56
  {
    AlignmentProfile(d);
    ProfileTotal(AlignmentOf(d, Principles));
    ProfileScore(AlignmentOf(d, Principles));
  }

  /** An entry of `critical_issues`. */
  datatype CriticalIssue = CriticalIssue(principle: Principle, issue: Rationale, severity: Severity)

  function IssueOf(e: Entry): CriticalIssue
  {
    CriticalIssue(e.key, e.analysis.rationale, e.analysis.severity)
  }

  /** The critical issues of the entries, in entry order. */
  function CriticalIssuesOf(entries: seq<Entry>): (r: seq<CriticalIssue>)
    ensures |r| <= |entries|
    ensures forall i :: 0 <= i < |entries| && entries[i].analysis.critical ==> IssueOf(entries[i]) in r
  {
    if entries == [] then []
    else
      var last := entries[|entries| - 1];
      CriticalIssuesOf(entries[..|entries| - 1]) + (if last.analysis.critical then [IssueOf(last)] else [])
  }

  /** Every critical issue comes from a critical entry. */
  lemma {:induction false} IssuesOnlyCritical(entries: seq<Entry>, c: CriticalIssue)
    requires c in CriticalIssuesOf(entries)
    ensures exists i :: 0 <= i < |entries| && entries[i].analysis.critical && IssueOf(entries[i]) == c
  {
    var n := |entries|;
    if c in CriticalIssuesOf(entries[..n - 1]) {
      IssuesOnlyCritical(entries[..n - 1], c);
      var i :| 0 <= i < n - 1 && entries[..n - 1][i].analysis.critical && IssueOf(entries[..n - 1][i]) == c;
      assert entries[i] == entries[..n - 1][i];
    } else {
      assert entries[n - 1].analysis.critical && IssueOf(entries[n - 1]) == c;
    }
  }

  /** A critical entry at every position: one issue per entry. */
  lemma {:induction false} AllCritical(entries: seq<Entry>)
    requires forall i :: 0 <= i < |entries| ==> entries[i].analysis.critical
    ensures |CriticalIssuesOf(entries)| == |entries|
  {
    if entries != [] {
      AllCritical(entries[..|entries| - 1]);
    }
  }

  /** A critical entry at every position but `j`: at least one issue per entry but one. */
  lemma {:induction false} AllButOneCritical(entries: seq<Entry>, j: int)
    requires forall i :: 0 <= i < |entries| && i != j ==> entries[i].analysis.critical
    ensures |CriticalIssuesOf(entries)| >= |entries| - 1
  {
    if entries != [] {
      var n := |entries|;
      if j == n - 1 {
        AllCritical(entries[..n - 1]);
      } else {
        AllButOneCritical(entries[..n - 1], j);
      }
    }
  }

  /** Every principle but ethics is critical for every decision. */
  lemma {:induction false} AlwaysCritical(d: Decision, p: Principle)
    requires p != Ethics
    ensures PrincipleAlignmentOf(d, p).critical
  {
    if p == Truth || p == Science {
      EvaluatedRanges(d);
    } else {
      UnevaluatedIsNeutral(d, p);
    }
  }

  /** Every decision raises at least eight critical issues: all principles but ethics are
      always below 0.7, and the six without an evaluator are raised with severity 'medium'. */
  lemma {:induction false} DecisionCriticalIssues(d: Decision)
    ensures |CriticalIssuesOf(AlignmentOf(d, Principles))| >= 8
    ensures forall p :: Unevaluated(p) ==>
              CriticalIssue(p, PrincipleAlignmentOf(d, p).rationale, Medium) in CriticalIssuesOf(AlignmentOf(d, Principles))
  {
    var e := AlignmentOf(d, Principles);
    forall i | 0 <= i < |e| && i != Ethics.Index() ensures e[i].analysis.critical {
      IndexAtPosition(i);
      AlignmentAt(d, Principles, i);
      AlwaysCritical(d, Principles[i]);
    }
    AllButOneCritical(e, Ethics.Index());
    forall p | Unevaluated(p)
      ensures CriticalIssue(p, PrincipleAlignmentOf(d, p).rationale, Medium) in CriticalIssuesOf(e)
    {
      EntryOf(d, p);
      UnevaluatedIsNeutral(d, p);
      assert IssueOf(e[p.Index()]) == CriticalIssue(p, PrincipleAlignmentOf(d, p).rationale, Medium);
    }
  }

  datatype Priority = CriticalPriority | HighPriority | MediumPriority

  /** An entry of `recommendations`; the recommendation sentences are fixed text around the
      fields kept here. */
  datatype Recommendation =
    | ImmediateAction(issues: seq<CriticalIssue>)
    | PrincipleImprovement(principle: Principle, critical: bool, indicators: seq<Indicator>, percent: int, rationale: Rationale)
    | OverallImprovement(overallScore: int)
  {
    function Priority(): Priority
    {
      match this
      case ImmediateAction(_) => CriticalPriority
      case PrincipleImprovement(_, critical, _, _, _) => if critical then HighPriority else MediumPriority
      case OverallImprovement(_) => HighPriority
    }
  }

  /** The names of the indicators of a principle analysis, in order. */
  function IndicatorNames(ind: seq<IndicatorScore>): (r: seq<Indicator>)
    ensures |r| == |ind|
  {
    seq(|ind|, i requires 0 <= i < |ind| => ind[i].indicator)
  }

  /** The improvement recommended for an entry that scores below 0.6. */
  function ImprovementFor(e: Entry): Recommendation
  {
    PrincipleImprovement(e.key, e.analysis.critical, IndicatorNames(e.analysis.indicators),
                         Round(e.analysis.score * 100.0), e.analysis.rationale)
  }

  /** The principle improvements for the entries scoring below 0.6, in entry order. */
  function ImprovementsOf(entries: seq<Entry>): (r: seq<Recommendation>)
    ensures |r| <= |entries|
  {
    if entries == [] then []
    else
      var last := entries[|entries| - 1];
      ImprovementsOf(entries[..|entries| - 1]) + (if last.analysis.score < 0.6 then [ImprovementFor(last)] else [])
  }

  /** The principle improvements are all principle improvements, and every entry scoring
      below 0.6 has one. */
  lemma {:induction false} ImprovementsMembers(entries: seq<Entry>)
    ensures var r := ImprovementsOf(entries);
            && (forall k :: 0 <= k < |r| ==> r[k].PrincipleImprovement?)
            && (forall i :: 0 <= i < |entries| && entries[i].analysis.score < 0.6 ==> ImprovementFor(entries[i]) in r)
  {
    if entries != [] {
      var n := |entries|;
      var init := entries[..n - 1];
      ImprovementsMembers(init);
      var prefix := ImprovementsOf(init);
      var r := ImprovementsOf(entries);
      forall k | 0 <= k < |r| ensures r[k].PrincipleImprovement? {
        if k < |prefix| {
          assert r[k] == prefix[k];
        }
      }
      forall i | 0 <= i < n && entries[i].analysis.score < 0.6 ensures ImprovementFor(entries[i]) in r {
        if i < n - 1 {
          assert entries[i] == init[i];
        }
      }
    }
  }

  /** Every principle improvement comes from an entry scoring below 0.6. */
  lemma {:induction false} ImprovementsOnlyLow(entries: seq<Entry>, x: Recommendation)
    requires x in ImprovementsOf(entries)
    ensures exists i :: 0 <= i < |entries| && entries[i].analysis.score < 0.6 && ImprovementFor(entries[i]) == x
  {
    var n := |entries|;
    if x in ImprovementsOf(entries[..n - 1]) {
      ImprovementsOnlyLow(entries[..n - 1], x);
      var i :| 0 <= i < n - 1 && entries[..n - 1][i].analysis.score < 0.6 && ImprovementFor(entries[..n - 1][i]) == x;
      assert entries[i] == entries[..n - 1][i];
    } else {
      assert entries[n - 1].analysis.score < 0.6 && ImprovementFor(entries[n - 1]) == x;
    }
  }

  /** The list `generateRecommendations` builds: the critical block, the principle
      improvements, then the overall improvement. */
  function RecommendationsOf(entries: seq<Entry>, overallScore: int, critical: seq<CriticalIssue>): (r: seq<Recommendation>)
    ensures |r| <= |entries| + 2
    ensures |critical| == 0 && overallScore >= 70 ==> r == ImprovementsOf(entries)
  {
    (if |critical| > 0 then [ImmediateAction(critical)] else [])
    + ImprovementsOf(entries)
    + (if overallScore < 70 then [OverallImprovement(overallScore)] else [])
  }

  /** The recommendation list opens with the critical block exactly when there are critical
      issues, ends with the overall improvement exactly when the score is below 70, and holds
      one principle improvement, in between, for each entry below 0.6. */
  lemma {:induction false} RecommendationOrder(entries: seq<Entry>, overallScore: int, critical: seq<CriticalIssue>)
    ensures var r := RecommendationsOf(entries, overallScore, critical);
            && (|critical| > 0 <==> |r| > 0 && r[0] == ImmediateAction(critical))
            && (overallScore < 70 <==> |r| > 0 && r[|r| - 1] == OverallImprovement(overallScore))
            && (forall k :: 0 <= k < |r| ==> (r[k].ImmediateAction? ==> k == 0) && (r[k].OverallImprovement? ==> k == |r| - 1))
            && (forall i :: 0 <= i < |entries| && entries[i].analysis.score < 0.6 ==> ImprovementFor(entries[i]) in r)
            && (forall k :: 0 <= k < |r| && r[k].PrincipleImprovement? ==> r[k].Priority() != CriticalPriority)
  {
    var head: seq<Recommendation> := if |critical| > 0 then [ImmediateAction(critical)] else [];
    var middle := ImprovementsOf(entries);
    ImprovementsMembers(entries);
    var tail: seq<Recommendation> := if overallScore < 70 then [OverallImprovement(overallScore)] else [];
    var r := head + middle + tail;
    assert r == RecommendationsOf(entries, overallScore, critical);
    forall k | 0 <= k < |r|
      ensures (r[k].ImmediateAction? ==> k == 0) && (r[k].OverallImprovement? ==> k == |r| - 1)
    {
      if |head| <= k < |head| + |middle| {
        assert r[k] == middle[k - |head|];
      }
    }
    forall i | 0 <= i < |entries| && entries[i].analysis.score < 0.6 ensures ImprovementFor(entries[i]) in r {
      assert ImprovementFor(entries[i]) in middle;
    }
  }

  /** The bands of `overall_impact`, lowest first. */
  datatype ImpactBand = HighlyNegative | Negative | Neutral | Positive | HighlyPositive
  {
    function Rank(): nat
    {
      match this
      case HighlyNegative => 0
      case Negative => 1
      case Neutral => 2
      case Positive => 3
      case HighlyPositive => 4
    }
  }

  /** The band of an average impact: cut points 0.8, 0.6, 0.4 and 0.2, each exclusive. */
  function ImpactBandOf(avg: real): (b: ImpactBand)
    ensures b == HighlyPositive <==> avg > 0.8
    ensures b == Positive <==> 0.6 < avg <= 0.8
    ensures b == Neutral <==> 0.4 < avg <= 0.6
    ensures b == Negative <==> 0.2 < avg <= 0.4
    ensures b == HighlyNegative <==> avg <= 0.2
  {
    if avg > 0.8 then HighlyPositive
    else if avg > 0.6 then Positive
    else if avg > 0.4 then Neutral
    else if avg > 0.2 then Negative
    else HighlyNegative
  }

  /** A larger average never lands in a lower band. */
  lemma {:induction false} ImpactBandMonotone(x: real, y: real)
    requires x <= y
    ensures ImpactBandOf(x).Rank() <= ImpactBandOf(y).Rank()
  {
  }

  /** What `assessConsciousnessImpact` returns. */
  datatype ConsciousnessImpact = ConsciousnessImpact(
    evolutionAcceleration: real,
    ethicalAlignment: real,
    knowledgeAdvancement: real,
    unityPromotion: real,
    overallImpact: ImpactBand)

  /** `assessConsciousnessImpact`: four weighted mixes of principle scores (weights summing to
      1) and the band of their mean. Scores in [0, 1] give impacts in [0, 1]. */
  function ConsciousnessImpactOf(entries: seq<Entry>): (c: ConsciousnessImpact)
    requires Keyed(entries)
    ensures ScoresWithin(entries, 0.0, 1.0) ==>
              && 0.0 <= c.evolutionAcceleration <= 1.0 && 0.0 <= c.ethicalAlignment <= 1.0
              && 0.0 <= c.knowledgeAdvancement <= 1.0 && 0.0 <= c.unityPromotion <= 1.0
    ensures c.overallImpact == ImpactBandOf((c.evolutionAcceleration + c.ethicalAlignment
                                             + c.knowledgeAdvancement + c.unityPromotion) / 4.0)
  {
    var evolution := ScoreAt(entries, Exploration) * 0.4 + ScoreAt(entries, Science) * 0.3 + ScoreAt(entries, Memory) * 0.3;
    var ethical := ScoreAt(entries, Ethics) * 0.5 + ScoreAt(entries, Truth) * 0.3 + ScoreAt(entries, Proof) * 0.2;
    var knowledge := ScoreAt(entries, Science) * 0.4 + ScoreAt(entries, Proof) * 0.4 + ScoreAt(entries, Memory) * 0.2;
    var unity := ScoreAt(entries, Unity) * 0.5 + ScoreAt(entries, Resonance) * 0.3 + ScoreAt(entries, Abundance) * 0.2;
    ConsciousnessImpact(evolution, ethical, knowledge, unity,
                        ImpactBandOf((evolution + ethical + knowledge + unity) / 4.0))
  }

  /** Whatever the decision, its consciousness impact is 'neutral': the mean impact lies in
      [0.48, 0.55875]. */
  lemma {:induction false} DecisionImpactNeutral(d: Decision)
    ensures Keyed(AlignmentOf(d, Principles))
    ensures ConsciousnessImpactOf(AlignmentOf(d, Principles)).overallImpact == Neutral
  {
    AlignmentProfile(d);
  }

  /** What `analyzeDecision` returns. */
  datatype DecisionAnalysis = DecisionAnalysis(
    decision: Decision,
    timestamp: string,
    alignment: seq<Entry>,
    overallScore: int,
    criticalIssues: seq<CriticalIssue>,
    recommendations: seq<Recommendation>,
    impact: ConsciousnessImpact)

  /** The analysis `analyzeDecision` builds for `d` at time `timestamp`. */
  function DecisionAnalysisOf(d: Decision, timestamp: string): (a: DecisionAnalysis)
    ensures a.decision == d && a.timestamp == timestamp && a.alignment == AlignmentOf(d, Principles)
    ensures Keyed(a.alignment)
  {
    var entries := AlignmentOf(d, Principles);
    AlignmentKeyed(d);
    var critical := CriticalIssuesOf(entries);
    var overall := OverallScoreOf(entries);
    DecisionAnalysis(d, timestamp, entries, overall, critical, RecommendationsOf(entries, overall, critical),
                     ConsciousnessImpactOf(entries))
  }

  /** Every decision analysis scores 48 to 56, raises at least eight critical issues, opens
      its recommendations with the critical block, closes them with the overall improvement,
      recommends improving every principle without an evaluator and truth, and has a
      'neutral' impact. */
  lemma {:induction false} DecisionAnalysisProfile(d: Decision, timestamp: string)
    ensures var a := DecisionAnalysisOf(d, timestamp);
            && 48 <= a.overallScore <= 56
            && |a.criticalIssues| >= 8
            && |a.recommendations| >= 2
            && a.recommendations[0] == ImmediateAction(a.criticalIssues)
            && a.recommendations[|a.recommendations| - 1] == OverallImprovement(a.overallScore)
            && a.impact.overallImpact == Neutral
  {
    var a := DecisionAnalysisOf(d, timestamp);
    DecisionScoreRange(d);
    DecisionCriticalIssues(d);
    RecommendationOrder(a.alignment, a.overallScore, a.criticalIssues);
    DecisionImpactNeutral(d);
  }

  /** Every principle without an evaluator, and truth, gets a principle improvement in every
      decision analysis. */
  lemma {:induction false} DecisionImprovements(d: Decision, timestamp: string, p: Principle)
    requires Unevaluated(p) || p == Truth
    ensures var a := DecisionAnalysisOf(d, timestamp);
            ImprovementFor(Entry(p, PrincipleAlignmentOf(d, p))) in a.recommendations
  {
    var a := DecisionAnalysisOf(d, timestamp);
    EntryOf(d, p);
    if p == Truth {
      EvaluatedRanges(d);
    } else {
      UnevaluatedIsNeutral(d, p);
    }
    RecommendationOrder(a.alignment, a.overallScore, a.criticalIssues);
    assert a.alignment[p.Index()] == Entry(p, PrincipleAlignmentOf(d, p));
  }
}
