/** The scenario side of `generateGuidance`: the decision a scenario is analysed as, the
    scenario recommendations, the applicable principles and the evolution impact. */
module GuardianScenario {
  import opened Basics
  import opened GuardianPrinciples
  import opened GuardianIndicators
  import opened GuardianAlignment

  /** A scenario is either free text or a record with an action, a context and stakeholders
      (absent strings read as "", absent stakeholders as []). */
  datatype Scenario = TextScenario(text: string) | RecordScenario(action: string, context: string, stakeholders: seq<string>)

  /** The decision `generateGuidance` analyses: only action, context and stakeholders are
      passed on, and a text scenario has none of them. */
  function ScenarioDecision(s: Scenario): (d: Decision)
    ensures d.evidence == [] && d.risks == [] && d.ethicalConsiderations == [] && d.mitigations == [] && d.safeguards == []
    ensures !d.testing && !d.validation && !d.metrics && !d.measurement && !d.longTermImpact
    ensures s.RecordScenario? ==> d.action == s.action && d.context == s.context && d.stakeholders == s.stakeholders
    ensures s.TextScenario? ==> d.action == "" && d.context == "" && d.stakeholders == []
  {
    match s
    case TextScenario(_) => Decision("", "", [], [], [], [], [], [], false, false, false, false, false)
    case RecordScenario(a, c, st) => Decision(a, c, [], [], st, [], [], [], false, false, false, false, false)
  }

  /** The text the keyword checks read: a text scenario as given, a record as its lower-cased
      `${action} ${context}`. */
  function ScenarioText(s: Scenario): (r: string)
    ensures s.TextScenario? ==> r == s.text
    ensures s.RecordScenario? ==> |r| == |s.action| + 1 + |s.context| && r[|s.action|] == ' ' && NoUpper(r)
  {
    match s
    case TextScenario(t) => t
    case RecordScenario(a, c, _) => ToLower(a + " " + c)
  }

  /** A recommended action of `generateScenarioRecommendations`. */
  datatype ScenarioRecommendation = ComprehensiveReview | AddressViolations | Strengthen(principle: Principle) | ProceedWithConfidence

  /** One strengthening action per entry scoring below 0.6, in entry order. */
  function WeakPrinciples(entries: seq<Entry>): (r: seq<ScenarioRecommendation>)
    ensures |r| <= |entries|
  {
    if entries == [] then []
    else
      var e := entries[|entries| - 1];
      WeakPrinciples(entries[..|entries| - 1]) + (if e.analysis.score < 0.6 then [Strengthen(e.key)] else [])
  }

  /** The weak-principle actions are all strengthening actions, one for every entry below
      0.6, and there are none exactly when every entry scores at least 0.6. */
  lemma {:induction false} WeakPrinciplesMembers(entries: seq<Entry>)
    ensures var r := WeakPrinciples(entries);
            && (forall k :: 0 <= k < |r| ==> r[k].Strengthen?)
            && (forall i :: 0 <= i < |entries| && entries[i].analysis.score < 0.6 ==> Strengthen(entries[i].key) in r)
            && (r == [] <==> forall i :: 0 <= i < |entries| ==> entries[i].analysis.score >= 0.6)
  {
    if entries != [] {
      var n := |entries|;
      var init := entries[..n - 1];
      WeakPrinciplesMembers(init);
      assert forall i :: 0 <= i < n - 1 ==> entries[i] == init[i];
    }
  }

  /** `generateScenarioRecommendations`: a review for an overall score below 70, the
      violations for critical issues, the weak principles, or the single proceed note when
      none of these applies. */
  function ScenarioRecommendationsOf(a: DecisionAnalysis): (r: seq<ScenarioRecommendation>)
    ensures |r| > 0
  {
    var xs := (if a.overallScore < 70 then [ComprehensiveReview] else [])
      + (if |a.criticalIssues| > 0 then [AddressViolations] else [])
      + WeakPrinciples(a.alignment);
    if xs == [] then [ProceedWithConfidence] else xs
  }

  /** The proceed note stands alone and appears exactly when the score is at least 70, there
      are no critical issues and no principle is below 0.6; otherwise the review comes first
      for a low score and the violations are listed whenever there are critical issues. */
  lemma {:induction false} ScenarioRecommendationsShape(a: DecisionAnalysis)
    ensures var r := ScenarioRecommendationsOf(a);
            && (r == [ProceedWithConfidence] <==>
                 a.overallScore >= 70 && a.criticalIssues == [] && forall i :: 0 <= i < |a.alignment| ==> a.alignment[i].analysis.score >= 0.6)
            && (ProceedWithConfidence in r ==> r == [ProceedWithConfidence])
            && (a.overallScore < 70 ==> r[0] == ComprehensiveReview)
            && (a.criticalIssues != [] ==> AddressViolations in r)
  {
    var xs := (if a.overallScore < 70 then [ComprehensiveReview] else [])
      + (if |a.criticalIssues| > 0 then [AddressViolations] else [])
      + WeakPrinciples(a.alignment);
    WeakPrinciplesMembers(a.alignment);
    assert ProceedWithConfidence !in xs;
    assert xs == [] <==> a.overallScore >= 70 && |a.criticalIssues| == 0 && WeakPrinciples(a.alignment) == [];
  }

  /** The two keywords that make a principle applicable; proof and ethics have none. */
  predicate Triggered(text: string, p: Principle)
  {
    match p
    case Truth => Contains(text, "truth") || Contains(text, "facts")
    case Science => Contains(text, "science") || Contains(text, "evidence")
    case Memory => Contains(text, "memory") || Contains(text, "learning")
    case Unity => Contains(text, "collaboration") || Contains(text, "team")
    case Abundance => Contains(text, "resources") || Contains(text, "sustainability")
    case Exploration => Contains(text, "exploration") || Contains(text, "discovery")
    case Resonance => Contains(text, "harmony") || Contains(text, "balance")
    case _ => false
  }

  /** The order in which the keyword checks push principles. */
  const TriggerOrder: seq<Principle> := [Truth, Science, Memory, Unity, Abundance, Exploration, Resonance]

  /** No element occurs twice. */
  predicate Distinct(xs: seq<Principle>)
  {
    forall i, j :: 0 <= i < j < |xs| ==> xs[i] != xs[j]
  }

  /** The principles of `ps` the text triggers, in order. */
  function Pushed(text: string, ps: seq<Principle>): (r: seq<Principle>)
    ensures forall p :: p in r <==> p in ps && Triggered(text, p)
    ensures Distinct(ps) ==> Distinct(r)
  {
    if ps == [] then []
    else
      var rest := Pushed(text, ps[..|ps| - 1]);
      assert Distinct(ps) ==> ps[|ps| - 1] !in ps[..|ps| - 1];
      rest + (if Triggered(text, ps[|ps| - 1]) then [ps[|ps| - 1]] else [])
  }

  /** `[...new Set(xs)]`: the first occurrence of every element, in order. */
  function Dedup(xs: seq<Principle>): (r: seq<Principle>)
    ensures forall p :: p in r <==> p in xs
    ensures Distinct(r)
    ensures |xs| > 0 ==> |r| > 0 && r[0] == xs[0]
  {
    if xs == [] then []
    else
      var rest := Dedup(xs[..|xs| - 1]);
      if xs[|xs| - 1] in rest then rest else rest + [xs[|xs| - 1]]
  }

  /** The set removes nothing from a list without duplicates. */
  lemma {:induction false} DedupDistinct(xs: seq<Principle>)
    requires Distinct(xs)
    ensures Dedup(xs) == xs
  {
    if xs != [] {
      var init := xs[..|xs| - 1];
      assert Distinct(init);
      DedupDistinct(init);
      assert xs[|xs| - 1] !in init;
      assert init + [xs[|xs| - 1]] == xs;
    }
  }

  /** `identifyRelevantPrinciples`: ethics, then every triggered principle in push order,
      without duplicates. */
  function IdentifyRelevantPrinciples(s: Scenario): (r: seq<Principle>)
    ensures |r| > 0 && r[0] == Ethics
    ensures Distinct(r)
    ensures forall p :: p in r <==> p == Ethics || Triggered(ScenarioText(s), p)
  {
    Dedup([Ethics] + Pushed(ScenarioText(s), TriggerOrder))
  }

  /** The de-duplication never removes anything: ethics is never pushed a second time and
      every other principle is pushed at most once. */
  lemma {:induction false} RelevantNeedsNoDedup(s: Scenario)
    ensures IdentifyRelevantPrinciples(s) == [Ethics] + Pushed(ScenarioText(s), TriggerOrder)
  {
    var pushed := Pushed(ScenarioText(s), TriggerOrder);
    var xs := [Ethics] + pushed;
    assert Distinct(TriggerOrder);
    assert Ethics !in pushed;
    forall i, j | 0 <= i < j < |xs| ensures xs[i] != xs[j] {
      if i > 0 {
        assert xs[i] == pushed[i - 1] && xs[j] == pushed[j - 1];
      } else {
        assert xs[j] in pushed;
      }
    }
    DedupDistinct(xs);
  }

  /** Free text is read as given while a record is lower-cased: the same upper-case words make
      truth applicable only in the record form. */
  lemma {:induction false} TextScenarioIsCaseSensitive()
    ensures !Triggered(ScenarioText(TextScenario("TRUTH")), Truth)
    ensures Triggered(ScenarioText(RecordScenario("TRUTH", "", [])), Truth)
  {
    var upper := "TRUTH";
    forall i | 0 <= i <= |upper| - 5 ensures !MatchesAt(upper, "truth", i) {
      assert upper[i] != 't';
    }
    forall i | 0 <= i <= |upper| - 5 ensures !MatchesAt(upper, "facts", i) {
      assert upper[i] != 'f';
    }
    var lower := ToLower("TRUTH" + " " + "");
    assert lower == "truth ";
    assert MatchesAt(lower, "truth", 0);
  }

  /** The evolution impact of a scenario, most specific keyword first. */
  datatype EvolutionImpact = HighPositiveImpact | PositiveImpact | NegativeImpact | NeutralImpact

  /** `assessEvolutionImpact`. */
  function AssessEvolutionImpact(s: Scenario): (r: EvolutionImpact)
    ensures var text := ScenarioText(s);
            r == NeutralImpact <==>
              !Contains(text, "consciousness") && !Contains(text, "evolution") && !(Contains(text, "ai") && Contains(text, "ethical"))
              && !Contains(text, "harm") && !Contains(text, "damage")
  {
    var text := ScenarioText(s);
    if Contains(text, "consciousness") || Contains(text, "evolution") then HighPositiveImpact
    else if Contains(text, "ai") && Contains(text, "ethical") then PositiveImpact
    else if Contains(text, "harm") || Contains(text, "damage") then NegativeImpact
    else NeutralImpact
  }

  /** The impact is positive exactly when a consciousness, evolution or ethical-AI keyword
      occurs, so a harm keyword only counts when none of them does. */
  lemma {:induction false} EvolutionImpactPrecedence(s: Scenario)
    ensures var text := ScenarioText(s);
            && (AssessEvolutionImpact(s) in {HighPositiveImpact, PositiveImpact} <==>
                 Contains(text, "consciousness") || Contains(text, "evolution") || (Contains(text, "ai") && Contains(text, "ethical")))
            && (AssessEvolutionImpact(s) == NegativeImpact <==>
                 AssessEvolutionImpact(s) !in {HighPositiveImpact, PositiveImpact} && (Contains(text, "harm") || Contains(text, "damage")))
            && (AssessEvolutionImpact(s) == NeutralImpact <==>
                 !Contains(text, "consciousness") && !Contains(text, "evolution") && !(Contains(text, "ai") && Contains(text, "ethical"))
                 && !Contains(text, "harm") && !Contains(text, "damage"))
  {
  }

  /** More text never takes an impact back: a consciousness or evolution keyword keeps the
      impact high, and any keyword found keeps the impact from being neutral. */
  lemma {:induction false} ImpactSurvivesMoreText(t: string, u: string)
    ensures AssessEvolutionImpact(TextScenario(t)) == HighPositiveImpact ==> AssessEvolutionImpact(TextScenario(t + u)) == HighPositiveImpact
    ensures AssessEvolutionImpact(TextScenario(t)) != NeutralImpact ==> AssessEvolutionImpact(TextScenario(t + u)) != NeutralImpact
  {
    forall w | Contains(t, w) ensures Contains(t + u, w) {
      ContainsExtend(t, w, u);
    }
  }

  /** The precedence on one text: "harm" alone is negative, but an evolution keyword beside
      it makes the impact high. */
  lemma HarmYieldsToEvolution()
    ensures AssessEvolutionImpact(TextScenario("harm")) == NegativeImpact
    ensures AssessEvolutionImpact(TextScenario("harm to evolution")) == HighPositiveImpact
  {
    assert MatchesAt("harm", "harm", 0);
    assert MatchesAt("harm to evolution", "evolution", 8);
  }

  /** What `generateGuidance` returns; the framework and considerations records keep only
      what depends on the scenario, their other fields being fixed text. */
  datatype Guidance = Guidance(
    scenario: Scenario,
    analysis: DecisionAnalysis,
    recommendedActions: seq<ScenarioRecommendation>,
    applicablePrinciples: seq<Principle>,
    evolutionImpact: EvolutionImpact)

  /** The guidance for `s` once its decision has been analysed as `a`. */
  function GuidanceFor(s: Scenario, a: DecisionAnalysis): (g: Guidance)
    ensures g.scenario == s && g.analysis == a
    ensures g.recommendedActions == ScenarioRecommendationsOf(a)
    ensures g.applicablePrinciples == IdentifyRelevantPrinciples(s)
    ensures g.evolutionImpact == AssessEvolutionImpact(s)
  {
    Guidance(s, a, ScenarioRecommendationsOf(a), IdentifyRelevantPrinciples(s), AssessEvolutionImpact(s))
  }

  /** An analysis below 70 with critical issues and a principle below 0.6 opens its
      recommended actions with the review and the violations and strengthens that principle. */
  lemma {:induction false} ScenarioRecommendationsOpening(a: DecisionAnalysis, p: Principle)
    requires a.overallScore < 70 && |a.criticalIssues| > 0
    requires exists i :: 0 <= i < |a.alignment| && a.alignment[i] == Entry(p, a.alignment[i].analysis) && a.alignment[i].analysis.score < 0.6
    ensures var r := ScenarioRecommendationsOf(a);
            && |r| >= 3 && r[0] == ComprehensiveReview && r[1] == AddressViolations
            && Strengthen(p) in r
  {
    var weak := WeakPrinciples(a.alignment);
    WeakPrinciplesMembers(a.alignment);
    assert Strengthen(p) in weak;
    assert ScenarioRecommendationsOf(a) == [ComprehensiveReview, AddressViolations] + weak;
  }

  /** Every scenario's analysis scores below 70 and raises critical issues, so its
      recommended actions open with the review and the violations and also strengthen every
      principle without an evaluator. */
  lemma {:induction false} ScenarioRecommendationsProfile(s: Scenario, timestamp: string, p: Principle)
    requires Unevaluated(p)
    ensures var r := ScenarioRecommendationsOf(DecisionAnalysisOf(ScenarioDecision(s), timestamp));
            && |r| >= 3 && r[0] == ComprehensiveReview && r[1] == AddressViolations
            && Strengthen(p) in r
  {
    var d := ScenarioDecision(s);
    var a := DecisionAnalysisOf(d, timestamp);
    DecisionAnalysisProfile(d, timestamp);
    EntryOf(d, p);
    UnevaluatedIsNeutral(d, p);
    assert a.alignment[p.Index()] == Entry(p, PrincipleAlignmentOf(d, p));
    ScenarioRecommendationsOpening(a, p);
  }
}
