/** One doubt level: the lexical scorers, the doubt-strength combiner, the
    resolution classifier, the level record, the certainty update rule and the
    convergence test between two consecutive level records. */
module DoubtLevel {
  import opened Basics
  import opened DoubtTables

  /** The argument of `analyzeWithDoubt`. `statement` is `None` when the key is absent;
      `depth` is carried along but never read by the engine. */
  datatype AnalysisInput = AnalysisInput(statement: Option<string>, context: string, depth: Option<int>)

  /** The only failure of an analysis: the statement is missing or empty, so
      `input.statement || input` yields the input object and `.split` on it throws. */
  datatype DoubtError = StatementNotText

  /** The statement is a non-empty string. */
  predicate HasStatement(input: AnalysisInput)
  {
    input.statement.Some? && input.statement.value != ""
  }

  // ----- Question challenge -----

  const ChallengeIndicators: seq<string> :=
    ["how", "why", "what if", "really", "truly", "actually", "certain", "know", "prove", "evidence", "contradict"]

  /** 0.3 plus 0.1 per indicator found in the lower-cased question, capped at 1. */
  function ChallengeScore(question: string): (r: real)
    ensures 0.3 <= r <= 1.0
    ensures r == 1.0 || r == 0.3 + 0.1 * CountContained(ToLower(question), ChallengeIndicators) as real
  {
    Min(0.3 + 0.1 * CountContained(ToLower(question), ChallengeIndicators) as real, 1.0)
  }

  /** The source's accumulator loop over the indicators. */
  method AssessQuestionChallenge(question: string) returns (score: real)
    ensures score == ChallengeScore(question)
    ensures 0.3 <= score <= 1.0
  {
    var lower := ToLower(question);
    score := 0.3;
    var i := 0;
    while i < |ChallengeIndicators|
      invariant 0 <= i <= |ChallengeIndicators|
      invariant score == 0.3 + 0.1 * CountContained(lower, ChallengeIndicators[..i]) as real
    {
      assert ChallengeIndicators[..i + 1][..i] == ChallengeIndicators[..i];
      if Contains(lower, ChallengeIndicators[i]) {
        score := score + 0.1;
      }
      i := i + 1;
    }
    assert ChallengeIndicators[..i] == ChallengeIndicators;
    score := Min(score, 1.0);
  }

  // ----- Input complexity -----

  const PhilosophicalTerms: seq<string> := ["consciousness", "reality", "truth", "existence", "universe", "mind"]

  /** `(statement.match(/\?/g) || []).length`. */
  function QuestionMarks(s: string): (n: nat)
    ensures n <= |s|
  {
    if s == [] then 0 else QuestionMarks(s[..|s| - 1]) + (if s[|s| - 1] == '?' then 1 else 0)
  }

  /** 0.2, plus up to 0.2 for length, up to 0.2 for question marks and up to 0.3 for
      philosophical terms; the final cap at 1 can never bind. */
  function InputComplexity(statement: string): (r: real)
    ensures 0.2 <= r <= 0.9
  {
    var terms := CountContained(ToLower(statement), PhilosophicalTerms);
    var complexity := 0.2
      + Min(|statement| as real / 1000.0, 0.2)
      + Min(QuestionMarks(statement) as real * 0.1, 0.2)
      + Min(terms as real * 0.15, 0.3);
    Min(complexity, 1.0)
  }

  /** `assessInputComplexity(input)`: throws unless the statement is a non-empty string. */
  function Complexity(input: AnalysisInput): (r: Result<real, DoubtError>)
    ensures r.Failure? <==> !HasStatement(input)
    ensures r.Success? ==> 0.2 <= r.value <= 0.9
  {
    if HasStatement(input) then Success(InputComplexity(input.statement.value)) else Failure(StatementNotText)
  }

  // ----- Doubt strength -----

  /** Sum of the challenge scores of `questions`. */
  function ChallengeTotal(questions: seq<Question>): real
  {
    if questions == [] then 0.0
    else ChallengeTotal(questions[..|questions| - 1]) + ChallengeScore(questions[|questions| - 1].Text())
  }

  lemma {:induction false} ChallengeTotalBounds(questions: seq<Question>)
    ensures 0.3 * |questions| as real <= ChallengeTotal(questions) <= |questions| as real
  {
    if questions != [] {
      ChallengeTotalBounds(questions[..|questions| - 1]);
    }
  }

  /** A total challenge over `count` questions, scaled by (1 + complexity/2), averaged and capped at 1. */
  function ScaledMean(total: real, count: int, complexity: real): real
    requires count > 0
  {
    Min(total * (1.0 + complexity * 0.5) / count as real, 1.0)
  }

  /** A mean challenge in [0.3, 1] scaled by at least 1.1 lands in [0.33, 1]. */
  lemma {:induction false} ScaledMeanRange(total: real, count: int, complexity: real)
    requires count > 0
    requires 0.3 * count as real <= total
    requires 0.2 <= complexity
    ensures 0.33 <= ScaledMean(total, count, complexity) <= 1.0
  {
    var n := count as real;
    var f := 1.0 + complexity * 0.5;
    assert total * f >= 0.3 * n * 1.1 by {
      assert total * f >= total * 1.1;
    }
    DivAtLeast(total * f, n, 0.33);
  }

  /** A mean challenge of at least 0.3 is not lowered by a non-negative complexity. */
  lemma {:induction false} ScaledMeanAtLeast(total: real, count: int, complexity: real)
    requires count > 0
    requires 0.3 * count as real <= total
    requires 0.0 <= complexity
    ensures 0.3 <= ScaledMean(total, count, complexity)
  {
    var n := count as real;
    var f := 1.0 + complexity * 0.5;
    assert total * f >= 0.3 * n by {
      assert total * f >= total * 1.0;
    }
    DivAtLeast(total * f, n, 0.3);
  }

  /** `assessDoubtStrength`: the mean challenge of the questions scaled by the statement's complexity. */
  function DoubtStrength(questions: seq<Question>, complexity: real): (r: real)
    requires |questions| > 0
    ensures r <= 1.0
    ensures 0.0 <= complexity ==> 0.3 <= r
  {
    ChallengeTotalBounds(questions);
    if 0.0 <= complexity then
      ScaledMeanAtLeast(ChallengeTotal(questions), |questions|, complexity);
      ScaledMean(ChallengeTotal(questions), |questions|, complexity)
    else
      ScaledMean(ChallengeTotal(questions), |questions|, complexity)
  }

  /** For any non-empty question list and any complexity the scorer can produce, the
      doubt strength lies in [0.33, 1]. */
  lemma {:induction false} DoubtStrengthRange(questions: seq<Question>, complexity: real)
    requires |questions| > 0
    requires 0.2 <= complexity
    ensures 0.33 <= DoubtStrength(questions, complexity) <= 1.0
  {
    ChallengeTotalBounds(questions);
    ScaledMeanRange(ChallengeTotal(questions), |questions|, complexity);
  }

  /** The accumulator loop of `assessDoubtStrength`. */
  method SumChallenges(questions: seq<Question>) returns (total: real)
    ensures total == ChallengeTotal(questions)
  {
    total := 0.0;
    var questionCount := 0;
    while questionCount < |questions|
      invariant 0 <= questionCount <= |questions|
      invariant total == ChallengeTotal(questions[..questionCount])
    {
      assert questions[..questionCount + 1][..questionCount] == questions[..questionCount];
      var challengeLevel := AssessQuestionChallenge(questions[questionCount].Text());
      total := total + challengeLevel;
      questionCount := questionCount + 1;
    }
    assert questions[..questionCount] == questions;
  }

  /** `assessDoubtStrength`; the complexity scorer runs after the loop, so an empty
      statement fails there. */
  method AssessDoubtStrength(questions: seq<Question>, input: AnalysisInput) returns (r: Result<real, DoubtError>)
    requires |questions| > 0
    ensures r.Failure? <==> !HasStatement(input)
    ensures r.Success? ==> r.value == DoubtStrength(questions, InputComplexity(input.statement.value))
    ensures r.Success? ==> 0.33 <= r.value <= 1.0
  {
    var totalStrength := SumChallenges(questions);
    var inputComplexity := Complexity(input);
    if inputComplexity.Failure? {
      return Failure(inputComplexity.error);
    }
    r := Success(ScaledMean(totalStrength, |questions|, inputComplexity.value));
    DoubtStrengthRange(questions, inputComplexity.value);
  }

  // ----- Resolution approach -----

  datatype Resolution = ParadigmShift | AdditionalResearch | FurtherDoubt | ReasonableCertainty
  {
    function Text(): string {
      match this
      case ParadigmShift => "Requires fundamental paradigm shift or new evidence"
      case AdditionalResearch => "Needs additional research and validation"
      case FurtherDoubt => "High uncertainty - further doubt analysis recommended"
      case ReasonableCertainty => "Reasonable certainty achieved at this level"
    }
  }

  /** The four-way classifier: strength bands first, then the carried-in certainty. */
  function ResolutionApproach(strength: real, certainty: real): (r: Resolution)
    ensures r.ParadigmShift? <==> strength > 0.7
    ensures r.AdditionalResearch? <==> 0.5 < strength <= 0.7
    ensures r.FurtherDoubt? <==> strength <= 0.5 && certainty < 0.3
    ensures r.ReasonableCertainty? <==> strength <= 0.5 && certainty >= 0.3
  {
    if strength > 0.7 then ParadigmShift
    else if strength > 0.5 then AdditionalResearch
    else if certainty < 0.3 then FurtherDoubt
    else ReasonableCertainty
  }

  // ----- Level record -----

  /** What `analyzeDoubtLevel` records. `certaintyAssessment` is the certainty carried INTO the
      level, before its own update; `title` supplies the record's name and description. */
  datatype LevelRecord = LevelRecord(
    level: int,
    title: LevelTitle,
    questions: seq<Question>,
    certaintyAssessment: real,
    doubtStrength: real,
    insights: seq<Insight>,
    resolution: Resolution)

  /** The part of a level's record that does not depend on the carried-in certainty. */
  datatype LevelBase = LevelBase(
    level: int,
    title: LevelTitle,
    questions: seq<Question>,
    doubtStrength: real,
    insights: seq<Insight>)

  /** The certainty-independent part of a built-in level, for a statement of the given complexity. */
  function BaseSpec(level: int, complexity: real): (b: LevelBase)
    requires IsLevel(level)
  {
    var questions := LevelQuestions(level);
    LevelBase(level, LevelConfig(level).title, questions, DoubtStrength(questions, complexity),
              LevelInsights(level, questions))
  }

  /** The full record: the base, the carried-in certainty, and the resolution the classifier
      picks from the two. */
  function Attach(base: LevelBase, certainty: real): (rec: LevelRecord)
    ensures rec.level == base.level && rec.questions == base.questions && rec.insights == base.insights
    ensures rec.certaintyAssessment == certainty && rec.doubtStrength == base.doubtStrength
    ensures rec.resolution == ResolutionApproach(base.doubtStrength, certainty)
  {
    LevelRecord(base.level, base.title, base.questions, certainty, base.doubtStrength, base.insights,
                ResolutionApproach(base.doubtStrength, certainty))
  }

  /** The record `analyzeDoubtLevel` builds for a built-in level. */
  function LevelSpec(level: int, complexity: real, certainty: real): LevelRecord
    requires IsLevel(level)
  {
    Attach(BaseSpec(level, complexity), certainty)
  }

  /** What every built-in level's base carries: its own number and title, five questions, two
      insights, and a doubt strength in [0.33, 1] for any complexity the scorer can produce. */
  lemma {:induction false} BaseShape(level: int, complexity: real)
    requires IsLevel(level)
    requires 0.2 <= complexity
    ensures var b := BaseSpec(level, complexity);
            && b.level == level
            && b.title.Number() == level
            && |b.questions| == MaxQuestions
            && |b.insights| == 2
            && 0.33 <= b.doubtStrength <= 1.0
  {
    LevelInsightsCount(level);
    DoubtStrengthRange(LevelQuestions(level), complexity);
  }

  /** `analyzeDoubtLevel`: questions, then doubt strength (which may throw), then insights and
      the resolution approach. */
  method AnalyzeDoubtLevel(input: AnalysisInput, level: int, currentCertainty: real)
    returns (r: Result<LevelRecord, DoubtError>)
    requires IsLevel(level)
    ensures r.Failure? <==> !HasStatement(input)
    ensures r.Success? ==> r.value == LevelSpec(level, InputComplexity(input.statement.value), currentCertainty)
  {
    var config := LevelConfig(level);
    var questions := GenerateDoubtQuestions(config.doubtTypes);
    LevelQuestionsGenerated(level);
    var strength := AssessDoubtStrength(questions, input);
    if strength.Failure? {
      return Failure(strength.error);
    }
    var insights := LevelInsights(level, questions);
    var resolution := ResolutionApproach(strength.value, currentCertainty);
    r := Success(LevelRecord(level, config.title, questions, currentCertainty,
                             strength.value, insights, resolution));
  }

  // ----- Certainty update -----

  /** The level-specific adjustment: times 0.9 at level 1, 1.1 at level 2, 0.8 at level 7,
      unchanged otherwise. */
  function AdjustForLevel(x: real, level: int): real
  {
    match level
    case 1 => x * 0.9
    case 2 => x * 1.1
    case 7 => x * 0.8
    case _ => x
  }

  /** The certainty before clamping: doubts lower it by 0.3 per unit of strength, each insight
      raises it by 0.1, then the level adjustment applies. */
  function RawCertainty(certainty: real, rec: LevelRecord): real
  {
    AdjustForLevel(certainty - rec.doubtStrength * 0.3 + |rec.insights| as real * 0.1, rec.level)
  }

  /** `updateCertainty`: the raw update clamped into [0, 1]; a raw value already in range is kept. */
  function UpdateCertainty(certainty: real, rec: LevelRecord): (r: real)
    ensures 0.0 <= r <= 1.0
    ensures 0.0 <= RawCertainty(certainty, rec) <= 1.0 ==> r == RawCertainty(certainty, rec)
    ensures RawCertainty(certainty, rec) < 0.0 ==> r == 0.0
    ensures RawCertainty(certainty, rec) > 1.0 ==> r == 1.0
  {
    Clamp01(RawCertainty(certainty, rec))
  }

  // ----- Convergence -----

  /** Both the carried-in certainty and the doubt strength moved by less than the threshold. */
  predicate Converged(previous: LevelRecord, current: LevelRecord, threshold: real)
  {
    Abs(previous.certaintyAssessment - current.certaintyAssessment) < threshold
    && Abs(previous.doubtStrength - current.doubtStrength) < threshold
  }

  /** The convergence test does not depend on which record comes first, and it fails for
      every pair once the threshold is not positive. */
  lemma {:induction false} ConvergedSymmetric(a: LevelRecord, b: LevelRecord, threshold: real)
    ensures Converged(a, b, threshold) <==> Converged(b, a, threshold)
    ensures threshold <= 0.0 ==> !Converged(a, b, threshold)
  {
  }

  /** The record `checkConvergence` returns. */
  datatype ConvergenceCheck = ConvergenceCheck(achieved: bool, certaintyStability: real, doubtStability: real, threshold: real)

  function ConvergenceOf(previous: LevelRecord, current: LevelRecord, threshold: real): (c: ConvergenceCheck)
    ensures c.achieved <==> c.certaintyStability < threshold && c.doubtStability < threshold
    ensures c.achieved == Converged(previous, current, threshold)
    ensures c.certaintyStability >= 0.0 && c.doubtStability >= 0.0
  {
    var certaintyDiff := Abs(previous.certaintyAssessment - current.certaintyAssessment);
    var doubtDiff := Abs(previous.doubtStrength - current.doubtStrength);
    ConvergenceCheck(certaintyDiff < threshold && doubtDiff < threshold, certaintyDiff, doubtDiff, threshold)
  }
}
