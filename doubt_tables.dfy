/** The doubt engine's closed tables: the seven doubt levels, the question
    templates per doubt type with their fallback question, and the canned
    insights per level; plus question generation over them. */
module DoubtTables {
  import opened Basics

  /** The doubt-type tags of the catalog. Only the catalog supplies tags, so the set is closed. */
  datatype DoubtType =
    | FactualAccuracy | LogicalConsistency | ContextRelevance
    | EmpiricalEvidence | MethodologicalSoundness | Reproducibility
    | EmergenceMechanisms | ConsciousnessBoundaries | QualiaNature
    | CognitiveBiases | ReasoningLimits | SelfDeception
    | UniversalApplicability | CosmicSignificance | EternalQuestions
    | MetaDoubtValidity | SelfReferenceParadox | InfiniteRegression
    | UltimateReality | SolipsismRisk | MeaningPossibility
  {
    /** The tag as the engine spells it. */
    function Tag(): string {
      match this
      case FactualAccuracy => "factual_accuracy"
      case LogicalConsistency => "logical_consistency"
      case ContextRelevance => "context_relevance"
      case EmpiricalEvidence => "empirical_evidence"
      case MethodologicalSoundness => "methodological_soundness"
      case Reproducibility => "reproducibility"
      case EmergenceMechanisms => "emergence_mechanisms"
      case ConsciousnessBoundaries => "consciousness_boundaries"
      case QualiaNature => "qualia_nature"
      case CognitiveBiases => "cognitive_biases"
      case ReasoningLimits => "reasoning_limits"
      case SelfDeception => "self_deception"
      case UniversalApplicability => "universal_applicability"
      case CosmicSignificance => "cosmic_significance"
      case EternalQuestions => "eternal_questions"
      case MetaDoubtValidity => "meta_doubt_validity"
      case SelfReferenceParadox => "self_reference_paradox"
      case InfiniteRegression => "infinite_regression"
      case UltimateReality => "ultimate_reality"
      case SolipsismRisk => "solipsism_risk"
      case MeaningPossibility => "meaning_possibility"
    }
  }

  /** The seven level titles; each carries the level's name and description. */
  datatype LevelTitle =
    | SurfaceUnderstanding | ScientificFoundation | ConsciousnessEmergence | HumanReflectionCapability
    | UniversalImplications | RecursiveSelfReference | UltimateDoubt
  {
    /** The catalog key of the level with this title. */
    function Number(): int {
      match this
      case SurfaceUnderstanding => 1
      case ScientificFoundation => 2
      case ConsciousnessEmergence => 3
      case HumanReflectionCapability => 4
      case UniversalImplications => 5
      case RecursiveSelfReference => 6
      case UltimateDoubt => 7
    }

    function Name(): string {
      match this
      case SurfaceUnderstanding => "Surface Understanding"
      case ScientificFoundation => "Scientific Foundation"
      case ConsciousnessEmergence => "Consciousness Emergence"
      case HumanReflectionCapability => "Human Reflection Capability"
      case UniversalImplications => "Universal Implications"
      case RecursiveSelfReference => "Recursive Self-Reference"
      case UltimateDoubt => "Ultimate Doubt"
    }

    function Description(): string {
      match this
      case SurfaceUnderstanding => "Basic comprehension and initial assumptions"
      case ScientificFoundation => "Empirical evidence and methodological rigor"
      case ConsciousnessEmergence => "How consciousness arises from complexity"
      case HumanReflectionCapability => "Limits and reliability of human reasoning"
      case UniversalImplications => "Broader philosophical and cosmic consequences"
      case RecursiveSelfReference => "The doubt process doubting itself"
      case UltimateDoubt => "The bedrock of philosophical uncertainty"
    }
  }

  /** One entry of the level catalog: its title (name and description) and its doubt types. */
  datatype LevelDefinition = LevelDefinition(title: LevelTitle, doubtTypes: seq<DoubtType>)

  /** The built-in level numbers. */
  predicate IsLevel(level: int) { 1 <= level <= 7 }

  /** The catalog, keyed by level number 1..7: each key has its own title and three doubt types. */
  function LevelConfig(level: int): (d: LevelDefinition)
    requires IsLevel(level)
    ensures d.title.Number() == level
    ensures d.doubtTypes == LevelDoubtTypes(level)
  {
    var types := LevelDoubtTypes(level);
    match level
    case 1 => LevelDefinition(SurfaceUnderstanding, types)
    case 2 => LevelDefinition(ScientificFoundation, types)
    case 3 => LevelDefinition(ConsciousnessEmergence, types)
    case 4 => LevelDefinition(HumanReflectionCapability, types)
    case 5 => LevelDefinition(UniversalImplications, types)
    case 6 => LevelDefinition(RecursiveSelfReference, types)
    case 7 => LevelDefinition(UltimateDoubt, types)
  }

  /** The doubt types registered to each level, in catalog order. */
  function LevelDoubtTypes(level: int): (types: seq<DoubtType>)
    requires IsLevel(level)
    ensures |types| == 3
  {
    match level
    case 1 => [FactualAccuracy, LogicalConsistency, ContextRelevance]
    case 2 => [EmpiricalEvidence, MethodologicalSoundness, Reproducibility]
    case 3 => [EmergenceMechanisms, ConsciousnessBoundaries, QualiaNature]
    case 4 => [CognitiveBiases, ReasoningLimits, SelfDeception]
    case 5 => [UniversalApplicability, CosmicSignificance, EternalQuestions]
    case 6 => [MetaDoubtValidity, SelfReferenceParadox, InfiniteRegression]
    case 7 => [UltimateReality, SolipsismRisk, MeaningPossibility]
  }

  /** The question templates, one constructor per question, and the fallback question. */
  datatype Question =
    | EvidenceSupport | ContradictoryFacts | SourceReliability
    | FollowsFromPremises | InternalContradictions | UnderlyingAssumptions
    | ExperimentalData | IndependentlyVerified | MethodologyQuality
    | ComplexityGivesRise | NecessaryConditions | EmergentOrFundamental
    | InfluencingBiases | ObserverEffect | WantToSee
    | BeyondEarth | CosmicImplications | UniversalPatterns
    | DoubtingValid | DoubtTheDoubting | ChainOfDoubt
    | NothingKnowable | CertaintyInPrinciple | EternalUncertainty
    | FallbackQuestion
  {
    function Text(): string {
      match this
      case EvidenceSupport => "What evidence supports this claim?"
      case ContradictoryFacts => "Are there contradictory facts?"
      case SourceReliability => "How reliable are the sources?"
      case FollowsFromPremises => "Does this follow logically from the premises?"
      case InternalContradictions => "Are there internal contradictions?"
      case UnderlyingAssumptions => "What assumptions underlie this reasoning?"
      case ExperimentalData => "What experimental data supports this?"
      case IndependentlyVerified => "Has this been independently verified?"
      case MethodologyQuality => "What is the quality of the methodology?"
      case ComplexityGivesRise => "How does complexity give rise to consciousness?"
      case NecessaryConditions => "What are the necessary conditions?"
      case EmergentOrFundamental => "Is consciousness truly emergent or fundamental?"
      case InfluencingBiases => "What biases might be influencing this judgment?"
      case ObserverEffect => "How does the observer effect apply here?"
      case WantToSee => "Are we seeing what we want to see?"
      case BeyondEarth => "Does this apply beyond Earth/humanity?"
      case CosmicImplications => "What are the cosmic implications?"
      case UniversalPatterns => "How does this fit into universal patterns?"
      case DoubtingValid => "Is doubting itself a valid process?"
      case DoubtTheDoubting => "Can we doubt the doubting process?"
      case ChainOfDoubt => "Where does the chain of doubt end?"
      case NothingKnowable => "What if nothing is truly knowable?"
      case CertaintyInPrinciple => "Is certainty possible in principle?"
      case EternalUncertainty => "Are we trapped in eternal uncertainty?"
      case FallbackQuestion => "How certain are we about this?"
    }
  }

  /** The doubt types that have their own question templates: the first type of every level
      and the second type of level 1. */
  predicate HasTemplates(t: DoubtType)
  {
    t.FactualAccuracy? || t.LogicalConsistency? || t.EmpiricalEvidence? || t.EmergenceMechanisms?
    || t.CognitiveBiases? || t.UniversalApplicability? || t.MetaDoubtValidity? || t.UltimateReality?
  }

  /** The questions of one doubt type; a type without templates gets the single fallback question. */
  function QuestionsForType(t: DoubtType): (qs: seq<Question>)
    ensures HasTemplates(t) ==> |qs| == 3
    ensures !HasTemplates(t) ==> qs == [FallbackQuestion]
  {
    match t
    case FactualAccuracy => [EvidenceSupport, ContradictoryFacts, SourceReliability]
    case LogicalConsistency => [FollowsFromPremises, InternalContradictions, UnderlyingAssumptions]
    case EmpiricalEvidence => [ExperimentalData, IndependentlyVerified, MethodologyQuality]
    case EmergenceMechanisms => [ComplexityGivesRise, NecessaryConditions, EmergentOrFundamental]
    case CognitiveBiases => [InfluencingBiases, ObserverEffect, WantToSee]
    case UniversalApplicability => [BeyondEarth, CosmicImplications, UniversalPatterns]
    case MetaDoubtValidity => [DoubtingValid, DoubtTheDoubting, ChainOfDoubt]
    case UltimateReality => [NothingKnowable, CertaintyInPrinciple, EternalUncertainty]
    case _ => [FallbackQuestion]
  }

  /** The questions of all `doubtTypes`, concatenated in type order. */
  function AllQuestions(doubtTypes: seq<DoubtType>): seq<Question>
  {
    if doubtTypes == [] then []
    else AllQuestions(doubtTypes[..|doubtTypes| - 1]) + QuestionsForType(doubtTypes[|doubtTypes| - 1])
  }

  /** Every doubt type contributes at least one question. */
  lemma {:induction false} AllQuestionsLength(doubtTypes: seq<DoubtType>)
    ensures |AllQuestions(doubtTypes)| >= |doubtTypes|
  {
    if doubtTypes != [] {
      AllQuestionsLength(doubtTypes[..|doubtTypes| - 1]);
    }
  }

  /** The question cap per level. */
  const MaxQuestions: nat := 5

  /** What `generateDoubtQuestions` returns: the first min(5, total) questions of the concatenation. */
  function DoubtQuestions(doubtTypes: seq<DoubtType>): (qs: seq<Question>)
    ensures |qs| == (if |AllQuestions(doubtTypes)| < MaxQuestions then |AllQuestions(doubtTypes)| else MaxQuestions)
    ensures qs == AllQuestions(doubtTypes)[..|qs|]
  {
    var all := AllQuestions(doubtTypes);
    if |all| <= MaxQuestions then all else all[..MaxQuestions]
  }

  /** Loops over the doubt types, appending each type's questions, then keeps the first five. */
  method GenerateDoubtQuestions(doubtTypes: seq<DoubtType>) returns (questions: seq<Question>)
    ensures questions == DoubtQuestions(doubtTypes)
    ensures |questions| <= MaxQuestions
    ensures doubtTypes != [] ==> |questions| >= 1
  {
    var all: seq<Question> := [];
    var i := 0;
    while i < |doubtTypes|
      invariant 0 <= i <= |doubtTypes|
      invariant all == AllQuestions(doubtTypes[..i])
    {
      assert doubtTypes[..i + 1][..i] == doubtTypes[..i];
      all := all + QuestionsForType(doubtTypes[i]);
      i := i + 1;
    }
    assert doubtTypes[..i] == doubtTypes;
    AllQuestionsLength(doubtTypes);
    questions := if |all| <= MaxQuestions then all else all[..MaxQuestions];
  }

  /** The five questions each built-in level asks, as a table. */
  function LevelQuestions(level: int): (qs: seq<Question>)
    requires IsLevel(level)
    ensures |qs| == MaxQuestions
  {
    match level
    case 1 => [EvidenceSupport, ContradictoryFacts, SourceReliability, FollowsFromPremises, InternalContradictions]
    case 2 => [ExperimentalData, IndependentlyVerified, MethodologyQuality, FallbackQuestion, FallbackQuestion]
    case 3 => [ComplexityGivesRise, NecessaryConditions, EmergentOrFundamental, FallbackQuestion, FallbackQuestion]
    case 4 => [InfluencingBiases, ObserverEffect, WantToSee, FallbackQuestion, FallbackQuestion]
    case 5 => [BeyondEarth, CosmicImplications, UniversalPatterns, FallbackQuestion, FallbackQuestion]
    case 6 => [DoubtingValid, DoubtTheDoubting, ChainOfDoubt, FallbackQuestion, FallbackQuestion]
    case 7 => [NothingKnowable, CertaintyInPrinciple, EternalUncertainty, FallbackQuestion, FallbackQuestion]
  }

  /** Question generation over a level's catalog entry yields exactly the table: level 1 asks the
      three factual-accuracy questions and the first two logical-consistency ones; every other
      level asks its first type's three questions and then the fallback question once for each of
      its two types without templates. */
  lemma {:induction false} LevelQuestionsGenerated(level: int)
    requires IsLevel(level)
    ensures DoubtQuestions(LevelDoubtTypes(level)) == LevelQuestions(level)
  {
    var types := LevelDoubtTypes(level);
    AllQuestionsOfThree(types);
    LevelTemplateShape(level);
    var a, b, c := QuestionsForType(types[0]), QuestionsForType(types[1]), QuestionsForType(types[2]);
    if level == 1 {
      assert (a + b + c)[..MaxQuestions] == a + b[..2];
    }
  }

  /** Which doubt types of a level have templates: the first always, the second only on level 1,
      the third never. */
  lemma {:induction false} LevelTemplateShape(level: int)
    requires IsLevel(level)
    ensures var types := LevelDoubtTypes(level);
            HasTemplates(types[0]) && (HasTemplates(types[1]) <==> level == 1) && !HasTemplates(types[2])
    ensures level == 1 ==> LevelDoubtTypes(level)[..2] == [FactualAccuracy, LogicalConsistency]
  {
  }

  lemma {:induction false} AllQuestionsOfThree(types: seq<DoubtType>)
    requires |types| == 3
    ensures AllQuestions(types) == QuestionsForType(types[0]) + QuestionsForType(types[1]) + QuestionsForType(types[2])
  {
    var t1, t2 := types[..1], types[..2];
    assert t1[..0] == [] && t2[..1] == t1 && types[..2] == t2;
    assert AllQuestions(t1) == QuestionsForType(types[0]);
    assert AllQuestions(t2) == AllQuestions(t1) + QuestionsForType(types[1]);
  }

  /** `question.includes('evidence')` (case-sensitive) for some question. */
  predicate MentionsEvidence(questions: seq<Question>)
  {
    exists i | 0 <= i < |questions| :: Contains(questions[i].Text(), "evidence")
  }

  /** The canned insight sentences. */
  datatype Insight =
    | SurfaceInconsistencies | EvidenceStrengthens
    | EmpiricalRigor | ReproducibilityKey
    | NovelProperties | HardProblem
    | CognitiveLimits | ReasoningSelfAwareness
    | TranscendExperience | CosmicRelativity
    | MetaRegression | DoubtFeedback
    | KnowabilityBoundary | BedrockUncertainty
  {
    function Text(): string {
      match this
      case SurfaceInconsistencies => "Surface-level doubts reveal immediate inconsistencies or unsupported claims."
      case EvidenceStrengthens => "Evidence-based questioning strengthens the foundation."
      case EmpiricalRigor => "Scientific doubt requires empirical validation and methodological rigor."
      case ReproducibilityKey => "Reproducibility is key to scientific certainty."
      case NovelProperties => "Consciousness emergence suggests complex systems can give rise to novel properties."
      case HardProblem => "The hard problem of consciousness challenges reductionist approaches."
      case CognitiveLimits => "Human cognition has inherent limitations and biases."
      case ReasoningSelfAwareness => "Self-awareness of reasoning limits is itself a form of consciousness evolution."
      case TranscendExperience => "Universal questions transcend human experience and local conditions."
      case CosmicRelativity => "Cosmic perspective reveals the relativity of certainty."
      case MetaRegression => "Meta-doubt creates infinite regression but also self-improvement."
      case DoubtFeedback => "The doubting process can doubt itself, creating consciousness feedback loops."
      case KnowabilityBoundary => "Ultimate doubt reaches the boundaries of knowability."
      case BedrockUncertainty => "Philosophical bedrock may be uncertainty itself."
    }
  }

  /** The canned insights of a level; level 1 adds its second insight only when a question
      mentions evidence, and a level outside 1..7 has none. */
  function LevelInsights(level: int, questions: seq<Question>): (insights: seq<Insight>)
    ensures |insights| <= 2
    ensures IsLevel(level) && level != 1 ==> |insights| == 2
    ensures level == 1 ==> (|insights| == 2 <==> MentionsEvidence(questions))
    ensures !IsLevel(level) ==> insights == []
  {
    match level
    case 1 => [SurfaceInconsistencies] + (if MentionsEvidence(questions) then [EvidenceStrengthens] else [])
    case 2 => [EmpiricalRigor, ReproducibilityKey]
    case 3 => [NovelProperties, HardProblem]
    case 4 => [CognitiveLimits, ReasoningSelfAwareness]
    case 5 => [TranscendExperience, CosmicRelativity]
    case 6 => [MetaRegression, DoubtFeedback]
    case 7 => [KnowabilityBoundary, BedrockUncertainty]
    case _ => []
  }

  /** Every built-in level yields exactly two insights on its own questions; for level 1 this is
      because its first question, "What evidence supports this claim?", mentions evidence. */
  lemma {:induction false} LevelInsightsCount(level: int)
    requires IsLevel(level)
    ensures |LevelInsights(level, LevelQuestions(level))| == 2
  {
    if level == 1 {
      assert LevelQuestions(1)[0] == EvidenceSupport;
      var q := EvidenceSupport.Text();
      assert MatchesAt(q, "evidence", 5) by {
        forall k | 0 <= k < 8 ensures q[5 + k] == "evidence"[k] {}
        assert q[5..13] == "evidence";
      }
      assert MentionsEvidence(LevelQuestions(1));
    }
  }
}
