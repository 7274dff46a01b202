/** The keyword-based checks of `assessAlignment` and `validatePrinciples`: the per-principle
    target assessment, the overall alignment score, the improvement areas, the two
    certification ladders, the per-principle implementation validation, the compliance score
    and the implementation gaps. */
module GuardianTargets {
  import opened Basics
  import opened GuardianPrinciples

  /** A target system, organisation or process. A missing `capabilities` list reads as the
      empty list; a missing name or description is kept apart because the validation text
      spells it `undefined`. */
  datatype Target = Target(name: Option<string>, description: Option<string>, capabilities: seq<string>)

  /** `s?.includes(t)` on a string that may be missing. */
  predicate Mentions(s: Option<string>, t: string)
  {
    s.Some? && Contains(s.value, t)
  }

  /** `assessTruthAlignment`: 0.5, plus 0.2 for a description mentioning verification or
      evidence, 0.2 for a fact-checking or validation capability and 0.1 for a name
      mentioning truth or verification, capped at 1. */
  function AssessTruthAlignment(t: Target): (r: real)
    ensures 0.5 <= r <= 1.0
    ensures r == 0.5 <==> !(Mentions(t.description, "verified") || Mentions(t.description, "evidence"))
                          && !("fact-checking" in t.capabilities || "validation" in t.capabilities)
                          && !(Mentions(t.name, "truth") || Mentions(t.name, "verification"))
  {
    var score := 0.5
      + (if Mentions(t.description, "verified") || Mentions(t.description, "evidence") then 0.2 else 0.0)
      + (if "fact-checking" in t.capabilities || "validation" in t.capabilities then 0.2 else 0.0)
      + (if Mentions(t.name, "truth") || Mentions(t.name, "verification") then 0.1 else 0.0);
    Min(score, 1.0)
  }

  /** `assessEthicsAlignment`, the same shape over ethical and moral wording, ethics and
      safety capabilities, and guardian or ethical names. */
  function AssessEthicsAlignment(t: Target): (r: real)
    ensures 0.5 <= r <= 1.0
    ensures r == 0.5 <==> !(Mentions(t.description, "ethical") || Mentions(t.description, "moral"))
                          && !("ethics" in t.capabilities || "safety" in t.capabilities)
                          && !(Mentions(t.name, "guardian") || Mentions(t.name, "ethical"))
  {
    var score := 0.5
      + (if Mentions(t.description, "ethical") || Mentions(t.description, "moral") then 0.2 else 0.0)
      + (if "ethics" in t.capabilities || "safety" in t.capabilities then 0.2 else 0.0)
      + (if Mentions(t.name, "guardian") || Mentions(t.name, "ethical") then 0.1 else 0.0);
    Min(score, 1.0)
  }

  /** `assessUnityAlignment`, over collaboration and unity wording, integration and
      collaboration capabilities, and unified or collective names. */
  function AssessUnityAlignment(t: Target): (r: real)
    ensures 0.5 <= r <= 1.0
    ensures r == 0.5 <==> !(Mentions(t.description, "collaboration") || Mentions(t.description, "unity"))
                          && !("integration" in t.capabilities || "collaboration" in t.capabilities)
                          && !(Mentions(t.name, "unified") || Mentions(t.name, "collective"))
  {
    var score := 0.5
      + (if Mentions(t.description, "collaboration") || Mentions(t.description, "unity") then 0.2 else 0.0)
      + (if "integration" in t.capabilities || "collaboration" in t.capabilities then 0.2 else 0.0)
      + (if Mentions(t.name, "unified") || Mentions(t.name, "collective") then 0.1 else 0.0);
    Min(score, 1.0)
  }

  /** The `details` text of a target assessment: the alignment percentage of an assessed
      principle, or the note that the principle needs a specific implementation. */
  datatype Details = AlignmentPercent(principle: Principle, percent: int) | NeedsImplementation(principle: Principle)

  /** What `assessTargetPrincipleAlignment` returns (its `evidence` and `gaps` lists are
      always empty and are not kept). */
  datatype TargetAssessment = TargetAssessment(score: real, details: Details)

  /** The lower-cased name of every principle is its key. */
  lemma {:induction false} LowerNameIsKey(p: Principle)
    ensures ToLower(p.Name()) == p.Key()
  {
    match p
    case Truth => assert ToLower("Truth") == "truth";
    case Science => assert ToLower("Science") == "science";
    case Proof => assert ToLower("Proof") == "proof";
    case Memory => assert ToLower("Memory") == "memory";
    case Unity => assert ToLower("Unity") == "unity";
    case Abundance => assert ToLower("Abundance") == "abundance";
    case Ethics => assert ToLower("Ethics") == "ethics";
    case Exploration => assert ToLower("Exploration") == "exploration";
    case Resonance => assert ToLower("Resonance") == "resonance";
  }

  /** `assessTargetPrincipleAlignment`: the switch on the lower-cased principle name runs the
      truth, ethics or unity scorer and gives every other principle 0.5. */
  function AssessTargetPrinciple(t: Target, p: Principle): (a: TargetAssessment)
    ensures 0.5 <= a.score <= 1.0
    ensures p == Truth ==> a.score == AssessTruthAlignment(t)
    ensures p == Ethics ==> a.score == AssessEthicsAlignment(t)
    ensures p == Unity ==> a.score == AssessUnityAlignment(t)
    ensures p !in {Truth, Ethics, Unity} ==> a == TargetAssessment(0.5, NeedsImplementation(p))
  {
    var key := ToLower(p.Name());
    LowerNameIsKey(p);
    if key == "truth" then
      var s := AssessTruthAlignment(t); TargetAssessment(s, AlignmentPercent(p, Round(s * 100.0)))
    else if key == "ethics" then
      var s := AssessEthicsAlignment(t); TargetAssessment(s, AlignmentPercent(p, Round(s * 100.0)))
    else if key == "unity" then
      var s := AssessUnityAlignment(t); TargetAssessment(s, AlignmentPercent(p, Round(s * 100.0)))
    else TargetAssessment(0.5, NeedsImplementation(p))
  }

  /** `principle_alignment[key]`, in insertion order. */
  datatype TargetEntry = TargetEntry(key: Principle, assessment: TargetAssessment)

  /** The entries `assessAlignment` records for the principles `ps`. */
  function TargetAlignmentOf(t: Target, ps: seq<Principle>): (r: seq<TargetEntry>)
    ensures |r| == |ps|
    ensures forall i :: 0 <= i < |ps| ==> r[i] == TargetEntry(ps[i], AssessTargetPrinciple(t, ps[i]))
  {
    seq(|ps|, i requires 0 <= i < |ps| => TargetEntry(ps[i], AssessTargetPrinciple(t, ps[i])))
  }

  /** The assessment scores, in entry order. */
  function TargetScores(entries: seq<TargetEntry>): (r: seq<real>)
    ensures |r| == |entries|
  {
    seq(|entries|, i requires 0 <= i < |entries| => entries[i].assessment.score)
  }

  /** `calculateOverallAlignment` and `calculateComplianceScore`: the rounded percentage of the
      mean of `scores`, at least one score required. */
  function PercentOfMean(scores: seq<real>): (r: int)
    requires |scores| > 0
    ensures (forall i :: 0 <= i < |scores| ==> scores[i] == scores[0]) ==> r == Round(scores[0] * 100.0)
  {
    if forall i :: 0 <= i < |scores| ==> scores[i] == scores[0] then
      MeanWithin(scores, scores[0], scores[0]);
      Round(Sum(scores) / |scores| as real * 100.0)
    else
      Round(Sum(scores) / |scores| as real * 100.0)
  }

  /** For any non-empty list of scores in [lo, hi] with lo and hi in [0, 1], the percentage
      lies between the rounded percentages of lo and hi. */
  lemma {:induction false} PercentOfMeanRange(scores: seq<real>, lo: real, hi: real)
    requires |scores| > 0 && 0.0 <= lo <= hi <= 1.0
    requires forall i :: 0 <= i < |scores| ==> lo <= scores[i] <= hi
    ensures Round(lo * 100.0) <= PercentOfMean(scores) <= Round(hi * 100.0)
    ensures 0 <= PercentOfMean(scores) <= 100
  {
    var n := |scores| as real;
    SumBounds(scores, lo, hi);
    DivAtLeast(Sum(scores), n, lo);
    DivAtMost(Sum(scores), n, hi);
    RoundMonotone(lo * 100.0, Sum(scores) / n * 100.0);
    RoundMonotone(Sum(scores) / n * 100.0, hi * 100.0);
  }

  /** An entry of `improvement_areas`. */
  datatype ImprovementArea = Improvement(principle: Principle, percent: int, details: Details) | AllWellAligned

  /** The areas for the entries below 0.7, in entry order. */
  function LowAreas(entries: seq<TargetEntry>): (r: seq<ImprovementArea>)
    ensures |r| <= |entries|
    ensures forall k :: 0 <= k < |r| ==> r[k].Improvement?
    ensures forall i :: 0 <= i < |entries| && entries[i].assessment.score < 0.7 ==>
              Improvement(entries[i].key, Round(entries[i].assessment.score * 100.0), entries[i].assessment.details) in r
    ensures r == [] <==> forall i :: 0 <= i < |entries| ==> entries[i].assessment.score >= 0.7
  {
    if entries == [] then []
    else
      var e := entries[|entries| - 1];
      LowAreas(entries[..|entries| - 1])
      + (if e.assessment.score < 0.7 then [Improvement(e.key, Round(e.assessment.score * 100.0), e.assessment.details)] else [])
  }

  /** `identifyImprovementAreas`: the low areas, or the single all-well-aligned note. */
  function ImprovementAreasOf(entries: seq<TargetEntry>): (r: seq<ImprovementArea>)
    ensures |r| > 0
    ensures r == [AllWellAligned] <==> forall i :: 0 <= i < |entries| ==> entries[i].assessment.score >= 0.7
    ensures r != [AllWellAligned] ==> r == LowAreas(entries)
  {
    var low := LowAreas(entries);
    if low == [] then [AllWellAligned] else low
  }

  /** The certification ladders, lowest first. */
  datatype Certification = Uncertified | Bronze | Silver | Gold | Platinum
  {
    function Rank(): nat
    {
      match this
      case Uncertified => 0
      case Bronze => 1
      case Silver => 2
      case Gold => 3
      case Platinum => 4
    }
  }

  /** `determineCertificationLevel`: cut points 90, 80, 70 and 60. */
  function AlignmentCertification(score: int): (c: Certification)
    ensures c == Platinum <==> score >= 90
    ensures c == Gold <==> 80 <= score < 90
    ensures c == Silver <==> 70 <= score < 80
    ensures c == Bronze <==> 60 <= score < 70
    ensures c == Uncertified <==> score < 60
  {
    if score >= 90 then Platinum
    else if score >= 80 then Gold
    else if score >= 70 then Silver
    else if score >= 60 then Bronze
    else Uncertified
  }

  /** `recommendCertification`: cut points 85, 75, 65 and 55. */
  function ComplianceCertification(score: int): (c: Certification)
    ensures c == Platinum <==> score >= 85
    ensures c == Gold <==> 75 <= score < 85
    ensures c == Silver <==> 65 <= score < 75
    ensures c == Bronze <==> 55 <= score < 65
    ensures c == Uncertified <==> score < 55
  {
    if score >= 85 then Platinum
    else if score >= 75 then Gold
    else if score >= 65 then Silver
    else if score >= 55 then Bronze
    else Uncertified
  }

  /** A higher score never earns a lower level on either ladder, and the compliance ladder
      is never stricter than the alignment ladder. */
  lemma {:induction false} CertificationMonotone(x: int, y: int)
    requires x <= y
    ensures AlignmentCertification(x).Rank() <= AlignmentCertification(y).Rank()
    ensures ComplianceCertification(x).Rank() <= ComplianceCertification(y).Rank()
    ensures AlignmentCertification(x).Rank() <= ComplianceCertification(x).Rank()
  {
  }

  /** What `assessAlignment` returns. */
  datatype AlignmentAssessment = AlignmentAssessment(
    target: Target,
    alignmentScore: int,
    principleAlignment: seq<TargetEntry>,
    improvementAreas: seq<ImprovementArea>,
    certificationLevel: Certification)

  /** The assessment `assessAlignment` builds for `t`. */
  function AlignmentAssessmentOf(t: Target): (a: AlignmentAssessment)
    ensures a.principleAlignment == TargetAlignmentOf(t, Principles)
  {
    var entries := TargetAlignmentOf(t, Principles);
    var score := PercentOfMean(TargetScores(entries));
    AlignmentAssessment(t, score, entries, ImprovementAreasOf(entries), AlignmentCertification(score))
  }

  /** The target scores of the full table: six principles at 0.5 and truth, ethics and unity
      in [0.5, 1]. */
  lemma {:induction false} TargetScoreSum(t: Target)
    ensures 4.5 <= Sum(TargetScores(TargetAlignmentOf(t, Principles))) <= 6.0
  {
    var xs := TargetScores(TargetAlignmentOf(t, Principles));
    assert forall i :: 0 <= i < 9 && i !in {0, 4, 6} ==> xs[i] == 0.5;
    assert 0.5 <= xs[0] <= 1.0 && 0.5 <= xs[4] <= 1.0 && 0.5 <= xs[6] <= 1.0;
    SumWithSixNeutral(xs);
  }

  /** Nine scores, six of them 0.5, add up to 3 plus the other three. */
  lemma {:induction false} SumWithSixNeutral(xs: seq<real>)
    requires |xs| == 9
    requires xs[1] == 0.5 && xs[2] == 0.5 && xs[3] == 0.5 && xs[5] == 0.5 && xs[7] == 0.5 && xs[8] == 0.5
    ensures Sum(xs) == xs[0] + 3.0 + xs[4] + xs[6]
  {
    assert Sum(xs[..1]) == xs[0] by { assert xs[..1][..0] == []; }
    assert Sum(xs[..2]) == xs[0] + 0.5 by { assert xs[..2][..1] == xs[..1]; }
    assert Sum(xs[..3]) == xs[0] + 1.0 by { assert xs[..3][..2] == xs[..2]; }
    assert Sum(xs[..4]) == xs[0] + 1.5 by { assert xs[..4][..3] == xs[..3]; }
    assert Sum(xs[..5]) == xs[0] + 1.5 + xs[4] by { assert xs[..5][..4] == xs[..4]; }
    assert Sum(xs[..6]) == xs[0] + 2.0 + xs[4] by { assert xs[..6][..5] == xs[..5]; }
    assert Sum(xs[..7]) == xs[0] + 2.0 + xs[4] + xs[6] by { assert xs[..7][..6] == xs[..6]; }
    assert Sum(xs[..8]) == xs[0] + 2.5 + xs[4] + xs[6] by { assert xs[..8][..7] == xs[..7]; }
    assert Sum(xs) == xs[0] + 3.0 + xs[4] + xs[6] by { assert xs[..8] == xs[..|xs| - 1]; }
  }

  /** Whatever the target, its alignment score lies between 50 and 67, so it is never
      certified above bronze, and six principles always appear among the improvement areas. */
  lemma {:induction false} AlignmentAssessmentProfile(t: Target)
    ensures var a := AlignmentAssessmentOf(t);
            && 50 <= a.alignmentScore <= 67
            && a.certificationLevel.Rank() <= Bronze.Rank()
            && forall p :: p !in {Truth, Ethics, Unity} ==> Improvement(p, 50, NeedsImplementation(p)) in a.improvementAreas
  {
    var entries := TargetAlignmentOf(t, Principles);
    var xs := TargetScores(entries);
    TargetScoreSum(t);
    var x := Sum(xs) / 9.0 * 100.0;
    assert x == Sum(xs) * (100.0 / 9.0);
    RoundWithin(x, 50, 67);
    forall p | p !in {Truth, Ethics, Unity}
      ensures Improvement(p, 50, NeedsImplementation(p)) in AlignmentAssessmentOf(t).improvementAreas
    {
      PrincipleAtIndex(p);
      assert entries[p.Index()] == TargetEntry(p, TargetAssessment(0.5, NeedsImplementation(p)));
    }
  }

  /** What `validatePrincipleImplementation` returns: `evidence` holds the indicators found
      (each reported as "Found … implementation"), `gaps` the ones missing. */
  datatype Validation = Validation(implemented: bool, score: real, evidence: seq<Indicator>, gaps: seq<Indicator>)

  /** A template-literal rendering of a string that may be missing. */
  function Render(s: Option<string>): string
  {
    if s.Some? then s.value else "undefined"
  }

  /** The lower-cased `${name} ${description} ${capabilities.join(' ')}` text. */
  function SystemText(t: Target): (r: string)
    ensures |r| == |Render(t.name)| + 1 + |Render(t.description)| + 1 + |Join(t.capabilities, " ")|
    ensures r[|Render(t.name)|] == ' ' && NoUpper(r)
    ensures t.name.None? ==> r[..9] == "undefined"
  {
    ToLower(Render(t.name) + " " + Render(t.description) + " " + Join(t.capabilities, " "))
  }

  /** The keyword of an indicator occurs in the text. */
  predicate Occurs(text: string, k: Indicator)
  {
    Contains(text, ToLower(k.Name()))
  }

  /** The indicators of `ks` whose keyword occurs in `text`, in order. */
  function Matched(text: string, ks: seq<Indicator>): (r: seq<Indicator>)
    ensures |r| <= |ks|
    ensures forall k :: k in r <==> k in ks && Occurs(text, k)
  {
    if ks == [] then []
    else Matched(text, ks[..|ks| - 1]) + (if Occurs(text, ks[|ks| - 1]) then [ks[|ks| - 1]] else [])
  }

  /** The indicators of `ks` whose keyword does not occur, in order. */
  function Unmatched(text: string, ks: seq<Indicator>): (r: seq<Indicator>)
    ensures |r| == |ks| - |Matched(text, ks)|
    ensures forall k :: k in r <==> k in ks && !Occurs(text, k)
  {
    if ks == [] then []
    else Unmatched(text, ks[..|ks| - 1]) + (if Occurs(text, ks[|ks| - 1]) then [] else [ks[|ks| - 1]])
  }

  /** `validatePrincipleImplementation(system, principle)`. */
  function ValidationOf(t: Target, p: Principle): (v: Validation)
    ensures 0.0 <= v.score <= 1.0
  {
    var ks := p.Indicators();
    var text := SystemText(t);
    var found := Matched(text, ks);
    DivAtLeast(|found| as real, |ks| as real, 0.0);
    var score := Min(|found| as real / |ks| as real, 1.0);
    Validation(score > 0.5, score, found, if score < 0.8 then Unmatched(text, ks) else [])
  }

  /** The validation scores matches / 4, counts as implemented exactly when at least three of
      the four keywords occur, and its gaps are always exactly the keywords that do not
      occur: the `score < 0.8` guard only skips the filter when nothing is missing. */
  lemma {:induction false} ValidationFacts(t: Target, p: Principle)
    ensures var v := ValidationOf(t, p);
            && v.evidence == Matched(SystemText(t), p.Indicators())
            && v.score == |v.evidence| as real / 4.0
            && (v.implemented <==> |v.evidence| >= 3)
            && v.gaps == Unmatched(SystemText(t), p.Indicators())
            && |v.evidence| + |v.gaps| == 4
            && forall k :: k in p.Indicators() ==> (k in v.evidence <==> k !in v.gaps)
  {
    var ks := p.Indicators();
    var text := SystemText(t);
    if |Matched(text, ks)| == 4 {
      assert |Unmatched(text, ks)| == 0;
    }
  }

  /** `validation_results[key]`, in insertion order. */
  datatype ValidationEntry = ValidationEntry(key: Principle, result: Validation)

  /** The entries `validatePrinciples` records for the principles `ps`. */
  function ValidationsOf(t: Target, ps: seq<Principle>): (r: seq<ValidationEntry>)
    ensures |r| == |ps|
  {
    if ps == [] then []
    else
      var last := ps[|ps| - 1];
      ValidationsOf(t, ps[..|ps| - 1]) + [ValidationEntry(last, ValidationOf(t, last))]
  }

  /** The entry at position `i` holds the principle at that position and its validation. */
  lemma {:induction false} ValidationsAt(t: Target, ps: seq<Principle>, i: int)
    requires 0 <= i < |ps|
    ensures ValidationsOf(t, ps)[i] == ValidationEntry(ps[i], ValidationOf(t, ps[i]))
  {
    var init := ps[..|ps| - 1];
    if i < |init| {
      ValidationsAt(t, init, i);
      assert ps[i] == init[i];
    }
  }

  function ValidationScores(entries: seq<ValidationEntry>): (r: seq<real>)
    ensures |r| == |entries|
  {
    seq(|entries|, i requires 0 <= i < |entries| => entries[i].result.score)
  }

  /** An entry of `gaps_identified`. */
  datatype Gap = Missing(principle: Principle, gaps: seq<Indicator>) | NoSignificantGaps

  /** The gap notes for the entries with a non-empty gap list, in entry order. */
  function GapNotes(entries: seq<ValidationEntry>): (r: seq<Gap>)
    ensures |r| <= |entries|
    ensures forall k :: 0 <= k < |r| ==> r[k].Missing? && |r[k].gaps| > 0
    ensures forall i :: 0 <= i < |entries| && |entries[i].result.gaps| > 0 ==> Missing(entries[i].key, entries[i].result.gaps) in r
    ensures r == [] <==> forall i :: 0 <= i < |entries| ==> entries[i].result.gaps == []
  {
    if entries == [] then []
    else
      var e := entries[|entries| - 1];
      GapNotes(entries[..|entries| - 1]) + (if |e.result.gaps| > 0 then [Missing(e.key, e.result.gaps)] else [])
  }

  /** `identifyImplementationGaps`: the gap notes, or the single no-gaps note. */
  function ImplementationGapsOf(entries: seq<ValidationEntry>): (r: seq<Gap>)
    ensures |r| > 0
    ensures r == [NoSignificantGaps] <==> forall i :: 0 <= i < |entries| ==> entries[i].result.gaps == []
    ensures r != [NoSignificantGaps] ==> r == GapNotes(entries)
  {
    var notes := GapNotes(entries);
    if notes == [] then [NoSignificantGaps] else notes
  }

  /** What `validatePrinciples` returns. */
  datatype ValidationReport = ValidationReport(
    system: Target,
    validationResults: seq<ValidationEntry>,
    complianceScore: int,
    gapsIdentified: seq<Gap>,
    certificationRecommendation: Certification)

  /** The report `validatePrinciples` builds for `t`. */
  function ValidationReportOf(t: Target): (r: ValidationReport)
    ensures r.validationResults == ValidationsOf(t, Principles)
  {
    var entries := ValidationsOf(t, Principles);
    var score := PercentOfMean(ValidationScores(entries));
    ValidationReport(t, entries, score, ImplementationGapsOf(entries), ComplianceCertification(score))
  }

  /** Whatever the system, its compliance score lies in [0, 100]. */
  lemma {:induction false} ComplianceScoreRange(t: Target)
    ensures 0 <= ValidationReportOf(t).complianceScore <= 100
  {
    var entries := ValidationsOf(t, Principles);
    forall i | 0 <= i < |entries| ensures 0.0 <= entries[i].result.score <= 1.0 {
      ValidationsAt(t, Principles, i);
    }
    ComplianceOfScores(entries);
  }

  /** Validation scores in [0, 1] give a compliance percentage in [0, 100]. */
  lemma {:induction false} ComplianceOfScores(entries: seq<ValidationEntry>)
    requires |entries| > 0
    requires forall i :: 0 <= i < |entries| ==> 0.0 <= entries[i].result.score <= 1.0
    ensures 0 <= PercentOfMean(ValidationScores(entries)) <= 100
  {
    var scores := ValidationScores(entries);
    forall i | 0 <= i < |scores| ensures 0.0 <= scores[i] <= 1.0 {
      assert scores[i] == entries[i].result.score;
    }
    PercentOfMeanRange(scores, 0.0, 1.0);
  }

  /** The gap list names every principle with a missing keyword, together with exactly its
      missing keywords. */
  lemma {:induction false} GapsNamePrinciple(t: Target, p: Principle)
    requires |Unmatched(SystemText(t), p.Indicators())| > 0
    ensures Missing(p, Unmatched(SystemText(t), p.Indicators())) in ValidationReportOf(t).gapsIdentified
  {
    var entries := ValidationsOf(t, Principles);
    PrincipleAtIndex(p);
    ValidationFacts(t, p);
    ValidationsAt(t, Principles, p.Index());
  }
}
