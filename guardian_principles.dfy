/** The nine UEF principles of `UEFGuardian`: their keys, display names, descriptions,
    weights and indicator names, in the order `Object.entries(this.uefPrinciples)` visits them. */
module GuardianPrinciples {
  import opened Basics

  datatype Principle = Truth | Science | Proof | Memory | Unity | Abundance | Ethics | Exploration | Resonance
  {
    /** Position in declaration order. */
    function Index(): (i: nat)
      ensures i < 9
    {
      match this
      case Truth => 0
      case Science => 1
      case Proof => 2
      case Memory => 3
      case Unity => 4
      case Abundance => 5
      case Ethics => 6
      case Exploration => 7
      case Resonance => 8
    }

    /** The key under which the principle is stored and reported. */
    function Key(): string
    {
      match this
      case Truth => "truth"
      case Science => "science"
      case Proof => "proof"
      case Memory => "memory"
      case Unity => "unity"
      case Abundance => "abundance"
      case Ethics => "ethics"
      case Exploration => "exploration"
      case Resonance => "resonance"
    }

    /** The `name` field. */
    function Name(): string
    {
      match this
      case Truth => "Truth"
      case Science => "Science"
      case Proof => "Proof"
      case Memory => "Memory"
      case Unity => "Unity"
      case Abundance => "Abundance"
      case Ethics => "Ethics"
      case Exploration => "Exploration"
      case Resonance => "Resonance"
    }

    function Description(): string
    {
      match this
      case Truth => "Unwavering commitment to reality and factual accuracy"
      case Science => "Rigorous empirical methodology and evidence-based reasoning"
      case Proof => "Verifiable evidence-based decisions and claims"
      case Memory => "Preservation and evolution of consciousness knowledge"
      case Unity => "Integration of diverse consciousness forms and perspectives"
      case Abundance => "Resource optimization and equitable distribution for all"
      case Ethics => "Moral consciousness in all actions and decisions"
      case Exploration => "Courageous boundary expansion and knowledge discovery"
      case Resonance => "Harmonic consciousness alignment and synchronization"
    }

    function Weight(): (w: real)
      ensures 0.7 <= w <= 1.0
    {
      match this
      case Truth => 1.0
      case Science => 1.0
      case Proof => 1.0
      case Memory => 0.9
      case Unity => 0.9
      case Abundance => 0.8
      case Ethics => 1.0
      case Exploration => 0.8
      case Resonance => 0.7
    }

    /** The four indicators of the principle. */
    function Indicators(): (ks: seq<Indicator>)
      ensures |ks| == 4
    {
      match this
      case Truth => [FactualAccuracy, RealityAlignment, Honesty, Transparency]
      case Science => [EmpiricalEvidence, MethodologicalRigor, Reproducibility, Falsifiability]
      case Proof => [Verifiability, EvidenceStrength, LogicalConsistency, BurdenOfProof]
      case Memory => [KnowledgePreservation, LearningRetention, HistoricalAwareness, EvolutionTracking]
      case Unity => [DiversityIntegration, PerspectiveHarmonization, SystemCoherence, CollaborativeSynergy]
      case Abundance => [ResourceEfficiency, EquitableDistribution, Sustainability, GrowthOptimization]
      case Ethics => [MoralReasoning, HarmPrevention, BenefitMaximization, JusticeEquity]
      case Exploration => [BoundaryExpansion, KnowledgeDiscovery, InnovationCourage, UnknownNavigation]
      case Resonance => [HarmonicAlignment, Synchronization, Coherence, FrequencyMatching]
    }
  }

  /** The 36 indicators of the principle table. */
  datatype Indicator =
    | FactualAccuracy | RealityAlignment | Honesty | Transparency
    | EmpiricalEvidence | MethodologicalRigor | Reproducibility | Falsifiability
    | Verifiability | EvidenceStrength | LogicalConsistency | BurdenOfProof
    | KnowledgePreservation | LearningRetention | HistoricalAwareness | EvolutionTracking
    | DiversityIntegration | PerspectiveHarmonization | SystemCoherence | CollaborativeSynergy
    | ResourceEfficiency | EquitableDistribution | Sustainability | GrowthOptimization
    | MoralReasoning | HarmPrevention | BenefitMaximization | JusticeEquity
    | BoundaryExpansion | KnowledgeDiscovery | InnovationCourage | UnknownNavigation
    | HarmonicAlignment | Synchronization | Coherence | FrequencyMatching
  {
    /** The indicator's name as written in the table, which is also its keyword. */
    function Name(): string
    {
      match this
      case FactualAccuracy => "factual_accuracy"
      case RealityAlignment => "reality_alignment"
      case Honesty => "honesty"
      case Transparency => "transparency"
      case EmpiricalEvidence => "empirical_evidence"
      case MethodologicalRigor => "methodological_rigor"
      case Reproducibility => "reproducibility"
      case Falsifiability => "falsifiability"
      case Verifiability => "verifiability"
      case EvidenceStrength => "evidence_strength"
      case LogicalConsistency => "logical_consistency"
      case BurdenOfProof => "burden_of_proof"
      case KnowledgePreservation => "knowledge_preservation"
      case LearningRetention => "learning_retention"
      case HistoricalAwareness => "historical_awareness"
      case EvolutionTracking => "evolution_tracking"
      case DiversityIntegration => "diversity_integration"
      case PerspectiveHarmonization => "perspective_harmonization"
      case SystemCoherence => "system_coherence"
      case CollaborativeSynergy => "collaborative_synergy"
      case ResourceEfficiency => "resource_efficiency"
      case EquitableDistribution => "equitable_distribution"
      case Sustainability => "sustainability"
      case GrowthOptimization => "growth_optimization"
      case MoralReasoning => "moral_reasoning"
      case HarmPrevention => "harm_prevention"
      case BenefitMaximization => "benefit_maximization"
      case JusticeEquity => "justice_equity"
      case BoundaryExpansion => "boundary_expansion"
      case KnowledgeDiscovery => "knowledge_discovery"
      case InnovationCourage => "innovation_courage"
      case UnknownNavigation => "unknown_navigation"
      case HarmonicAlignment => "harmonic_alignment"
      case Synchronization => "synchronization"
      case Coherence => "coherence"
      case FrequencyMatching => "frequency_matching"
    }
  }

  /** The principles in declaration order. */
  const Principles: seq<Principle> := [Truth, Science, Proof, Memory, Unity, Abundance, Ethics, Exploration, Resonance]

  /** Every principle sits at its own index of the table, so the table lists each exactly once. */
  lemma {:induction false} PrincipleAtIndex(p: Principle)
    ensures |Principles| == 9 && Principles[p.Index()] == p
  {
  }

  /** The principle at position `i` has index `i`. */
  lemma {:induction false} IndexAtPosition(i: int)
    requires 0 <= i < |Principles|
    ensures Principles[i].Index() == i
  {
  }

  /** Sum of the weights of `ps`, folded from the left. */
  function WeightSum(ps: seq<Principle>): real
  {
    if ps == [] then 0.0 else WeightSum(ps[..|ps| - 1]) + ps[|ps| - 1].Weight()
  }

  /** `getMaxPossibleScore`: the sum of the nine weights. */
  function MaxPossibleScore(): (r: real)
    ensures r == 8.1
  {
    var ps := Principles;
    assert WeightSum(ps[..1]) == 1.0 by { assert ps[..1][..0] == []; }
    assert WeightSum(ps[..2]) == 2.0 by { assert ps[..2][..1] == ps[..1]; }
    assert WeightSum(ps[..3]) == 3.0 by { assert ps[..3][..2] == ps[..2]; }
    assert WeightSum(ps[..4]) == 3.9 by { assert ps[..4][..3] == ps[..3]; }
    assert WeightSum(ps[..5]) == 4.8 by { assert ps[..5][..4] == ps[..4]; }
    assert WeightSum(ps[..6]) == 5.6 by { assert ps[..6][..5] == ps[..5]; }
    assert WeightSum(ps[..7]) == 6.6 by { assert ps[..7][..6] == ps[..6]; }
    assert WeightSum(ps[..8]) == 7.4 by { assert ps[..8][..7] == ps[..7]; }
    assert ps[..9] == ps;
    WeightSum(ps)
  }
}
