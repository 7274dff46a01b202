/** The decision record `UEFGuardian` analyses, the four pattern-based indicator evaluators
    and `evaluateIndicator`, which uses them for four indicator names and reads every other
    indicator as a neutral 0.5. */
module GuardianIndicators {
  import opened Basics
  import opened GuardianPrinciples

  /** A decision record. An absent list reads as the empty list and an absent flag as false,
      which is how every evaluator treats a missing field; `action` only reaches the log. */
  datatype Decision = Decision(
    action: string,
    context: string,
    evidence: seq<string>,
    risks: seq<string>,
    stakeholders: seq<string>,
    ethicalConsiderations: seq<string>,
    mitigations: seq<string>,
    safeguards: seq<string>,
    testing: bool,
    validation: bool,
    metrics: bool,
    measurement: bool,
    longTermImpact: bool)

  /** `evaluateFactualAccuracy`: the mean of three readings, for a verified context, for
      evidence and for risks that do not include "unverified". */
  function EvaluateFactualAccuracy(d: Decision): (r: real)
    ensures 0.4 <= r <= 0.8
    ensures r == 0.8 <==> Contains(d.context, "verified") && |d.evidence| > 0 && "unverified" !in d.risks
  {
    ((if Contains(d.context, "verified") then 0.9 else 0.5)
     + (if |d.evidence| > 0 then 0.8 else 0.4)
     + (if "unverified" in d.risks then 0.3 else 0.7)) / 3.0
  }

  /** `evaluateEmpiricalEvidence`: 0.4 for evidence, 0.3 for testing or validation, 0.3 for
      metrics or a measurement. */
  function EvaluateEmpiricalEvidence(d: Decision): (r: real)
    ensures 0.0 <= r <= 1.0
    ensures r == 0.0 <==> |d.evidence| == 0 && !(d.testing || d.validation) && !(d.metrics || d.measurement)
  {
    (if |d.evidence| > 0 then 0.4 else 0.0)
    + (if d.testing || d.validation then 0.3 else 0.0)
    + (if d.metrics || d.measurement then 0.3 else 0.0)
  }

  /** `evaluateMoralReasoning`: 0.2 to start, 0.2 for stakeholders, 0.3 for ethical
      considerations and 0.3 for a long-term impact, capped at 1. */
  function EvaluateMoralReasoning(d: Decision): (r: real)
    ensures 0.2 <= r <= 1.0
    ensures r == 0.2 <==> |d.stakeholders| == 0 && |d.ethicalConsiderations| == 0 && !d.longTermImpact
  {
    var score := 0.2
      + (if |d.stakeholders| > 0 then 0.2 else 0.0)
      + (if |d.ethicalConsiderations| > 0 then 0.3 else 0.0)
      + (if d.longTermImpact then 0.3 else 0.0);
    Min(score, 1.0)
  }

  /** `evaluateHarmPrevention`: 0.5 to start, 0.2 for naming risks, up to 0.3 for the ratio of
      mitigations to risks (at least one risk assumed) and 0.2 for safeguards, capped at 1. */
  function EvaluateHarmPrevention(d: Decision): (r: real)
    ensures 0.5 <= r <= 1.0
    ensures |d.mitigations| == 0 && |d.safeguards| == 0 ==> r == (if |d.risks| > 0 then 0.7 else 0.5)
  {
    var denominator := if |d.risks| > 1 then |d.risks| else 1;
    var ratio := |d.mitigations| as real / denominator as real;
    assert ratio >= 0.0;
    var score := 0.5
      + (if |d.risks| > 0 then 0.2 else 0.0)
      + Min(ratio * 0.3, 0.3)
      + (if |d.safeguards| > 0 then 0.2 else 0.0);
    Min(score, 1.0)
  }

  /** The indicators `evaluateIndicator` has an evaluator for. */
  predicate Evaluated(i: Indicator)
  {
    i in {FactualAccuracy, EmpiricalEvidence, MoralReasoning, HarmPrevention}
  }

  /** `evaluationPatterns[indicator]`: the evaluator's value, or nothing for any other indicator. */
  function EvaluationPattern(d: Decision, i: Indicator): (v: Option<real>)
    ensures v.Some? <==> Evaluated(i)
  {
    match i
    case FactualAccuracy => Some(EvaluateFactualAccuracy(d))
    case EmpiricalEvidence => Some(EvaluateEmpiricalEvidence(d))
    case MoralReasoning => Some(EvaluateMoralReasoning(d))
    case HarmPrevention => Some(EvaluateHarmPrevention(d))
    case _ => None
  }

  /** JavaScript `v || fallback` on a number that may be missing: the number unless it is
      missing or zero. */
  function OrElse(v: Option<real>, fallback: real): (r: real)
    ensures r == fallback || (v.Some? && r == v.value)
    ensures v.Some? && v.value != 0.0 ==> r == v.value
  {
    if v.Some? && v.value != 0.0 then v.value else fallback
  }

  /** `evaluateIndicator`: the evaluator's value when there is one and it is non-zero,
      otherwise the default 0.5. */
  function EvaluateIndicator(d: Decision, i: Indicator): (r: real)
    ensures 0.2 <= r <= 1.0
    ensures !Evaluated(i) ==> r == 0.5
    ensures Evaluated(i) && EvaluationPattern(d, i).value != 0.0 ==> r == EvaluationPattern(d, i).value
    ensures Evaluated(i) && EvaluationPattern(d, i).value == 0.0 ==> r == 0.5
  {
    OrElse(EvaluationPattern(d, i), 0.5)
  }

  /** An empirical-evidence reading of zero is reported as the neutral 0.5, never as 0. */
  lemma {:induction false} EmpiricalZeroReadsNeutral(d: Decision)
    requires |d.evidence| == 0 && !d.testing && !d.validation && !d.metrics && !d.measurement
    ensures EvaluateEmpiricalEvidence(d) == 0.0
    ensures EvaluateIndicator(d, EmpiricalEvidence) == 0.5
  {
  }

  /** The empirical-evidence indicator lies in [0.3, 1]: zero is the one reading the fallback hides. */
  lemma {:induction false} EmpiricalIndicatorRange(d: Decision)
    ensures 0.3 <= EvaluateIndicator(d, EmpiricalEvidence) <= 1.0
  {
  }
}
