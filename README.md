# Recursive doubt and UEF guardian scoring, modelled in Dafny

This project models the two deterministic scoring engines of the consciousness-evolution MCP server, and proves properties of them.

## RecursiveDoubtEngine (`src/recursive-doubt-engine.js`)

The engine analyses a statement through up to seven "doubt levels". Each level does the following, in order:

- generates at most five questions from a fixed template table;
- scores how challenging the questions are and how complex the statement is;
- combines the two into a doubt strength;
- emits canned insights;
- picks one of four resolution approaches.

The main loop, `analyzeWithDoubt`, starts at certainty 0.5 and updates the certainty after every level. From level 2 on, it compares each level with the previous one and stops at the first convergence. After the loop it computes:

- the fractal dimension and PHI resonance of the certainty and doubt series;
- the consciousness implications;
- the rule-ordered recommendations.

The engine keeps an append-only analysis history and a list of convergence patterns, and derives statistics from both.

Modules:

- `DoubtTables` (doubt_tables.dfy): the level catalog, the question templates and the insights.
- `DoubtLevel` (doubt_level.dfy): the scorers of one level, its record, `updateCertainty` and the convergence test.
- `DoubtAnalysis` (doubt_analysis.dfy): the engine options, and the specification of the level loop and of the whole analysis.
- `DoubtFractal` (doubt_fractal.dfy): the fractal dimension, the PHI resonance and the fractal insights.
- `DoubtSynthesis` (doubt_synthesis.dfy): the implications, the recommendations, the uncertainty factors and the confidence intervals.
- `DoubtStatistics` (doubt_statistics.dfy): `getDoubtStatistics` and the evolution metrics.
- `DoubtEngine` (doubt_engine.dfy): the `RecursiveDoubtEngine` class. It holds the mutable history and pattern list, and its methods are proved against the functions above.

## UEFGuardian (`src/uef-guardian.js`)

The guardian scores a decision record against nine weighted principles. Four indicator evaluators read fields of the decision, and every other indicator reads as a neutral 0.5. A principle's score is the mean of its indicator scores. The overall score is the weighted sum normalised to 0–100.

From these scores the guardian derives:

- critical issues;
- recommendations;
- an impact band;
- a mutable evolution tracker.

It also offers keyword checks of a target system: alignment with certification, and implementation validation with gaps. For scenarios it offers guidance: relevant principles and an evolution impact.

Modules:

- `GuardianPrinciples`: the principle table.
- `GuardianIndicators`: the decision record and the evaluators.
- `GuardianAlignment`: principle analysis, the decision analysis, issues, recommendations and impact.
- `GuardianTargets`: target alignment and implementation validation.
- `GuardianScenario`: the guidance pieces.
- `GuardianEngine`: the `UEFGuardian` class with its history and tracker.

`Basics` (basics.dfy) holds shared helpers: rounding, clamps, sums, ASCII lower-casing and substring search.

### Facts about the code that the model follows

- **The `|| true` default does not force fractal analysis on.** In the options object, `...options` is spread after the defaults. A key the caller passes therefore wins even when it is falsy, so `fractalAnalysis: false` switches fractal analysis off. The `|| x` defaults apply only to absent keys (`ConfigOf`, `ConfigDefaults`).
- **`input.depth` is never read** (src/recursive-doubt-engine.js:82). The loop bound is `min(options.maxDepth, 7)`. The convergence test in test_validation.js:102-114 builds its engine with `{ maxDepth: 7 }` (test_validation.js:17). Its `doubt_levels.length <= 5` expectation therefore does not come from the input's `depth: 5`, which plays no part (`DepthIgnored`). It holds because that statement converges early: at level 2 the doubt strength equals that of level 1, and the certainty moves by less than the 0.1 threshold.
- **The maturity band `transcendent` exists** (src/recursive-doubt-engine.js:688), although test_validation.js:131 lists only five bands. The model keeps all six (`MaturityOf`).
- **Most principles always score 0.5.** Six principles have no evaluator, so every decision's overall score lies in 48..56, below 70. Consequences:
  - at least eight principles are critical;
  - the unity score is always 0.5, so planetary awareness never changes;
  - wisdom grows by exactly 2 per decision;
  - ethical maturity stays at or below 0.56;
  - the only milestone ever recorded is the first-decision one.

  The class invariant states all of this, and `AnalyzeDecision` preserves it.

## Model

| member | source | states |
|---|---|---|
| `DoubtTables.LevelConfig` | src/recursive-doubt-engine.js:18-54 | each catalog key 1..7 carries its own title and its three doubt types |
| `DoubtTables.LevelDoubtTypes` | src/recursive-doubt-engine.js:18-54 | every level registers exactly three doubt types |
| `DoubtTables.QuestionsForType` | src/recursive-doubt-engine.js:170-214 | a type with templates yields its three questions; any other type yields only the fallback question |
| `DoubtTables.AllQuestionsLength` | src/recursive-doubt-engine.js:156-165 | every doubt type contributes at least one question to the concatenation |
| `DoubtTables.DoubtQuestions` | src/recursive-doubt-engine.js:156-165 | the result is the prefix of length min(5, total) of the per-type questions concatenated in type order |
| `DoubtTables.GenerateDoubtQuestions` | src/recursive-doubt-engine.js:156-165 | the push loop returns exactly that prefix; at most five questions, and at least one for a non-empty type list |
| `DoubtTables.LevelQuestions` | src/recursive-doubt-engine.js:170-214 | every built-in level asks exactly five questions |
| `DoubtTables.LevelQuestionsGenerated` | src/recursive-doubt-engine.js:139-214 | question generation over a level's catalog entry yields exactly that level's five questions |
| `DoubtTables.LevelTemplateShape` | src/recursive-doubt-engine.js:18-214 | the first type of every level has templates; the second only on level 1; the third never |
| `DoubtTables.LevelInsights` | src/recursive-doubt-engine.js:292-335 | levels 2..7 give two insights; level 1 gives two iff some question mentions "evidence"; other levels give none |
| `DoubtTables.LevelInsightsCount` | src/recursive-doubt-engine.js:292-335 | every built-in level yields exactly two insights on its own questions |
| `DoubtLevel.ChallengeScore` | src/recursive-doubt-engine.js:244-259 | 0.3 plus 0.1 per indicator found in the lower-cased question, capped at 1, so it lies in [0.3, 1] |
| `DoubtLevel.AssessQuestionChallenge` | src/recursive-doubt-engine.js:244-259 | the indicator loop computes exactly that score |
| `DoubtLevel.QuestionMarks` | src/recursive-doubt-engine.js:270 | the count of '?' never exceeds the statement's length |
| `DoubtLevel.InputComplexity` | src/recursive-doubt-engine.js:264-287 | the complexity lies in [0.2, 0.9], so the 1.0 cap never binds |
| `DoubtLevel.Complexity` | src/recursive-doubt-engine.js:264-287 | the scorer fails exactly when the statement is missing or empty; otherwise it yields a complexity in [0.2, 0.9] |
| `DoubtLevel.ChallengeTotalBounds` | src/recursive-doubt-engine.js:224-232 | the summed challenge of n questions lies in [0.3·n, n] |
| `DoubtLevel.ScaledMeanRange` | src/recursive-doubt-engine.js:234-238 | a mean challenge of at least 0.3, scaled by at least 1.1 and capped at 1, lies in [0.33, 1] |
| `DoubtLevel.DoubtStrengthRange` | src/recursive-doubt-engine.js:220-239 | for any non-empty question list and any producible complexity, the doubt strength lies in [0.33, 1] |
| `DoubtLevel.DoubtStrength` | src/recursive-doubt-engine.js:220-239 | the mean challenge scaled by the complexity is capped at 1, and is at least 0.3 for any non-negative complexity |
| `DoubtLevel.SumChallenges` | src/recursive-doubt-engine.js:224-232 | the accumulator loop sums the challenge scores of all questions |
| `DoubtLevel.AssessDoubtStrength` | src/recursive-doubt-engine.js:220-239 | fails iff the statement is missing or empty; otherwise returns the scaled mean challenge, which lies in [0.33, 1] |
| `DoubtLevel.ResolutionApproach` | src/recursive-doubt-engine.js:340-353 | each of the four approaches is chosen exactly on its band of strength and carried-in certainty |
| `DoubtLevel.Attach` | src/recursive-doubt-engine.js:125-151 | the level record keeps the carried-in certainty, not the updated one, and its resolution is classified from strength and that certainty |
| `DoubtLevel.BaseShape` | src/recursive-doubt-engine.js:125-151 | every built-in level gives a record with its own number and title, five questions, two insights and a strength in [0.33, 1] |
| `DoubtLevel.AnalyzeDoubtLevel` | src/recursive-doubt-engine.js:125-151 | fails exactly on a missing or empty statement; otherwise returns the level's specified record |
| `DoubtLevel.UpdateCertainty` | src/recursive-doubt-engine.js:358-372 | the new certainty lies in [0, 1]: the raw update of the level (doubt lowers it, insights raise it, a per-level factor scales it) when that is in range, 0 below and 1 above |
| `DoubtLevel.ConvergedSymmetric` | src/recursive-doubt-engine.js:377-387 | the convergence test is symmetric in its two records and never holds for a non-positive threshold |
| `DoubtLevel.ConvergenceOf` | src/recursive-doubt-engine.js:377-387 | convergence is achieved iff both stabilities are strictly below the threshold; both stabilities are non-negative |
| `DoubtAnalysis.ConfigOf` | src/recursive-doubt-engine.js:8-15 | every option key the caller passes is kept as given; only absent keys take their defaults |
| `DoubtAnalysis.ConfigDefaults` | src/recursive-doubt-engine.js:8-15 | without options: depth 7, threshold 0.1, certainty threshold 0.8, fractal analysis on; an explicit `false` switches fractal analysis off |
| `DoubtAnalysis.LoopBound` | src/recursive-doubt-engine.js:82 | the last level the loop may visit is min(maxDepth, 7) |
| `DoubtAnalysis.LevelBasesShaped` | src/recursive-doubt-engine.js:18-151 | the seven built-in levels are numbered 1..7 in order, each with two insights and a strength in [0.33, 1] |
| `DoubtAnalysis.Carried` | src/recursive-doubt-engine.js:78-87 | the certainty carried into every level, and past the last one, stays in [0, 1] |
| `DoubtAnalysis.TraceShape` | src/recursive-doubt-engine.js:82-87 | the i-th record is level i+1's record; the first carries in 0.5 and each later one carries the previous record's update |
| `DoubtAnalysis.TraceNumbered` | src/recursive-doubt-engine.js:82-84 | the records of a run are the levels 1, 2, … in order, each with two insights |
| `DoubtAnalysis.RunConvergence` | src/recursive-doubt-engine.js:82-97 | a run stops at its convergence point L ≥ 2 with exactly L records, or else runs to the bound; no earlier pair converges |
| `DoubtAnalysis.RunShape` | src/recursive-doubt-engine.js:78-101 | any run stops as the loop does, chains its certainties, and ends with an overall certainty in [0, 1] |
| `DoubtAnalysis.Run` | src/recursive-doubt-engine.js:78-98 | the overall certainty lies in [0, 1]; a run that converges stops at a level L ≥ 2 with exactly L records; one that does not keeps one record per level of the bound |
| `DoubtAnalysis.AnalysisSpec` | src/recursive-doubt-engine.js:64-120 | the analysis fails exactly when at least one level runs and the statement is missing or empty |
| `DoubtAnalysis.AnalysisShape` | src/recursive-doubt-engine.js:64-120 | every successful analysis is well formed: numbered levels, chained certainties, a stop as the loop stops, overall certainty in [0, 1], three fractal records iff fractal analysis is on |
| `DoubtAnalysis.DepthIgnored` | src/recursive-doubt-engine.js:82 | changing `input.depth` changes nothing but the copy of the input that the record keeps |
| `DoubtAnalysis.SingleLevelNeverConverges` | src/recursive-doubt-engine.js:82-97 | with maxDepth 1, an analysis succeeds iff there is a statement, processes one level and never converges |
| `DoubtAnalysis.NoThresholdRunsEveryLevel` | src/recursive-doubt-engine.js:82-97 | with a non-positive threshold, every level up to the bound runs and convergence is never reached |
| `DoubtAnalysis.DeepLevelsNumbered` | src/recursive-doubt-engine.js:504-505 | levels numbered 1..n contain max(n − 4, 0) records at level 5 or deeper |
| `DoubtAnalysis.ImplicationsCounted` | src/recursive-doubt-engine.js:494-505 | on numbered levels with two insights each: acceleration 0.1·n (+0.2 if converged), self-awareness 0.15·fractal + 0.1·n, maturity 0.2 per level from 5 on |
| `DoubtAnalysis.ImplicationsOfAnalysis` | src/recursive-doubt-engine.js:484-505 | every successful analysis has those implications, counted on its own number of levels |
| `DoubtAnalysis.HighDimensionIsCertainty` | src/recursive-doubt-engine.js:420-427 | with strengths in [0.33, 1], only the certainty-fractal record can exceed dimension 1.8 |
| `DoubtAnalysis.ComplexityRecommendationSource` | src/recursive-doubt-engine.js:542-550 | the complexity recommendation is made exactly when fractal analysis is on and the certainty fractal exceeds 1.8 |
| `DoubtFractal.Variation` | src/recursive-doubt-engine.js:447-450 | the summed absolute variation is non-negative |
| `DoubtFractal.FractalDimension` | src/recursive-doubt-engine.js:443-453 | the dimension is at least 1, and exactly 1 for fewer than three points |
| `DoubtFractal.ConstantDimension` | src/recursive-doubt-engine.js:443-453 | a constant series has dimension exactly 1 |
| `DoubtFractal.VariationBound` | src/recursive-doubt-engine.js:447-450 | a series inside [lo, hi] varies by at most (n − 1)(hi − lo) |
| `DoubtFractal.DimensionBound` | src/recursive-doubt-engine.js:443-453 | a series inside [lo, hi] has dimension at most 1 + (hi − lo) |
| `DoubtFractal.CalculateFractalDimension` | src/recursive-doubt-engine.js:443-453 | the accumulator loop computes the specified dimension |
| `DoubtFractal.InterpretFractalDimension` | src/recursive-doubt-engine.js:458-463 | each of the four bands holds exactly on its interval: linear below 1.2, moderate in [1.2, 1.5), high in [1.5, 1.8), fractal from 1.8 |
| `DoubtFractal.InterpretMonotone` | src/recursive-doubt-engine.js:458-463 | a larger dimension never falls in a lower band |
| `DoubtFractal.PairResonance` | src/recursive-doubt-engine.js:473-475 | each pair contributes a value in [0, 1] |
| `DoubtFractal.PhiSumBounds` | src/recursive-doubt-engine.js:472-476 | the summed contributions lie in [0, n − 1] |
| `DoubtFractal.PhiResonanceRange` | src/recursive-doubt-engine.js:468-479 | the resonance lies in [0, 1] and is 0 for fewer than two points |
| `DoubtFractal.PhiResonanceOfRepeat` | src/recursive-doubt-engine.js:468-479 | [c, c] with c > 0.001 resonates at exactly 2 − φ, below the 0.7 "high" cut |
| `DoubtFractal.CalculatePHIResonance` | src/recursive-doubt-engine.js:468-479 | the accumulator loop computes the specified resonance |
| `DoubtFractal.Certainties` | src/recursive-doubt-engine.js:408 | the certainty series is the carried-in certainty of each record, in order |
| `DoubtFractal.DoubtStrengths` | src/recursive-doubt-engine.js:420 | the doubt series is the doubt strength of each record, in order |
| `DoubtFractal.FractalInsightsShape` | src/recursive-doubt-engine.js:404-438 | exactly three insights in the order certainty, doubt, PHI; dimensions ≥ 1, resonance in [0, 1]; with strengths in [0.33, 1] the doubt dimension stays ≤ 1.67 |
| `DoubtFractal.GenerateFractalInsights` | src/recursive-doubt-engine.js:404-438 | the method builds exactly the specified three insights |
| `DoubtSynthesis.ImpactOf` | src/recursive-doubt-engine.js:507-513 | each banner is chosen exactly on its band of the mean impact (cuts 0.3, 0.5, 0.7, exclusive) |
| `DoubtSynthesis.ImpactMonotone` | src/recursive-doubt-engine.js:507-513 | a larger mean never gets a lower banner |
| `DoubtSynthesis.InsightCountUniform` | src/recursive-doubt-engine.js:497-499 | k insights per level give k·n insights in all |
| `DoubtSynthesis.DeepLevelCount` | src/recursive-doubt-engine.js:504-505 | the number of records at level 5 or deeper never exceeds the number of records |
| `DoubtSynthesis.UncertaintyTolerance` | src/recursive-doubt-engine.js:501-502 | the precedence slip makes the tolerance either 0 or 0.2 |
| `DoubtSynthesis.UncertaintyToleranceQuirk` | src/recursive-doubt-engine.js:501-502 | for certainties in [0, 1], the tolerance is 0 iff the analysis did not converge and ended at certainty exactly 1, and is 0.2 otherwise |
| `DoubtSynthesis.ConsciousnessImplications` | src/recursive-doubt-engine.js:484-516 | acceleration and self-awareness are non-negative, tolerance follows the precedence slip, maturity is at most 0.2 per level, and the banner is the band of the mean of the four terms |
| `DoubtSynthesis.DoubtRecommendations` | src/recursive-doubt-engine.js:521-553 | each rule's recommendation is present iff its condition holds, and the list keeps the rule order |
| `DoubtSynthesis.GenerateDoubtRecommendations` | src/recursive-doubt-engine.js:521-553 | the push sequence builds exactly that list |
| `DoubtSynthesis.StrongDoubtLevels` | src/recursive-doubt-engine.js:597-599 | the listed levels are exactly the levels whose strength exceeds 0.6, and one level is listed exactly when it is strong |
| `DoubtSynthesis.StrongDoubtLevelsConcat` | src/recursive-doubt-engine.js:597-599 | the filter keeps order: the strong levels of two runs one after the other are those of the first, then those of the second |
| `DoubtSynthesis.UncertaintyFactors` | src/recursive-doubt-engine.js:586-603 | each factor is present iff its rule holds; the strong-doubt factor lists exactly the strong levels; the rule order is kept |
| `DoubtSynthesis.SquaredDeviations` | src/recursive-doubt-engine.js:610-612 | the summed squared deviations are non-negative |
| `DoubtSynthesis.Variance` | src/recursive-doubt-engine.js:610-612 | the variance is non-negative |
| `DoubtSynthesis.VarianceZero` | src/recursive-doubt-engine.js:610-612 | levels that all carried in the final certainty have no spread |
| `DoubtSynthesis.IntervalAround` | src/recursive-doubt-engine.js:615-624 | for a certainty in [0, 1], the 95% interval contains the certainty, lies in [0, 1] and is the ±1.96σ interval clipped at 0 and 1 |
| `DoubtSynthesis.ConfidenceIntervalsOf` | src/recursive-doubt-engine.js:608-625 | the deviation is the square root of the variance, and the interval brackets a certainty in [0, 1] inside [0, 1] |
| `DoubtStatistics.ConvergedCount` | src/recursive-doubt-engine.js:709 | converged analyses never outnumber the analyses |
| `DoubtStatistics.ConvergedCountAppend` | src/recursive-doubt-engine.js:115 | appending an analysis adds one to the converged count exactly when it converged |
| `DoubtStatistics.CertaintySumBounds` | src/recursive-doubt-engine.js:634-636 | certainties in [0, 1] sum to at most the number of analyses |
| `DoubtStatistics.DeepestRun` | src/recursive-doubt-engine.js:672 | the depth is the maximum number of levels over the history, attained by some analysis |
| `DoubtStatistics.DeepAnalyses` | src/recursive-doubt-engine.js:677 | the deep analyses never outnumber the analyses |
| `DoubtStatistics.DepthScore` | src/recursive-doubt-engine.js:695-703 | the per-analysis indicator lies in [25, 125] |
| `DoubtStatistics.DepthScoreSumBounds` | src/recursive-doubt-engine.js:695-704 | the summed indicators lie in [25·n, 125·n] |
| `DoubtStatistics.MaturityOf` | src/recursive-doubt-engine.js:686-692 | each of the six bands holds exactly on its interval: 'beginner' below 30, 'developing' [30, 50), 'intermediate' [50, 65), 'advanced' [65, 75), 'master' [75, 85), 'transcendent' from 85 |
| `DoubtStatistics.MaturityMonotone` | src/recursive-doubt-engine.js:686-692 | a larger index never lands in a lower maturity band |
| `DoubtStatistics.MetricsFromRange` | src/recursive-doubt-engine.js:669-726 | non-negative aggregates give all four metrics in [0, 100] |
| `DoubtStatistics.EmptyHistoryStatistics` | src/recursive-doubt-engine.js:630-667 | an empty history gives zero analyses, levels, average and metrics, maturity 'beginner', and rate 0 when no pattern is recorded |
| `DoubtStatistics.MetricsRange` | src/recursive-doubt-engine.js:658-727 | for any history of certainties in [0, 1], every metric lies in [0, 100] |
| `DoubtStatistics.EvolutionMetricsOf` | src/recursive-doubt-engine.js:658-727 | every metric is capped at 100, and an empty history gives zero metrics and maturity 'beginner' |
| `DoubtStatistics.StatisticsOf` | src/recursive-doubt-engine.js:629-652 | the statistics count every analysis and every fractal insight, carry the evolution metrics, and average certainties in [0, 1] to a value in [0, 1] |
| `DoubtStatistics.StatisticsRanges` | src/recursive-doubt-engine.js:630-640 | the average certainty lies in [0, 1]; with no more patterns than analyses, so does the convergence rate |
| `DoubtEngine.PatternFor` | src/recursive-doubt-engine.js:390-395 | a recorded pattern carries the current level and both absolute differences |
| `DoubtEngine.PatternsOf` | src/recursive-doubt-engine.js:89-97 | a finished loop leaves exactly one pattern when it converged with at least two levels, and none otherwise |
| `DoubtEngine.AssessmentOf` | src/recursive-doubt-engine.js:558-581 | the assessment reports the analysis' certainty and recommendations, its uncertainty factors, and an interval that brackets the certainty |
| `DoubtEngine.RecursiveDoubtEngine.constructor` | src/recursive-doubt-engine.js:8-59 | the options are resolved by the spread rule; history, map and patterns start empty; the invariant holds |
| `DoubtEngine.RecursiveDoubtEngine.CheckConvergence` | src/recursive-doubt-engine.js:377-399 | returns the specified convergence check and appends exactly one pattern iff convergence is achieved |
| `DoubtEngine.RecursiveDoubtEngine.ProcessLevels` | src/recursive-doubt-engine.js:78-98 | the level loop fails exactly when some level runs on a missing or empty statement, without recording; otherwise it yields the specified run and records one pattern iff it converged |
| `DoubtEngine.RecursiveDoubtEngine.AnalyzeOn` | src/recursive-doubt-engine.js:78-115 | the body of `analyzeWithDoubt` over given level bases: same result and state change as below |
| `DoubtEngine.RecursiveDoubtEngine.AnalyzeWithDoubt` | src/recursive-doubt-engine.js:64-120 | returns the specified analysis; success appends it to the history and one pattern iff it converged; failure changes nothing; the invariant is kept |
| `DoubtEngine.RecursiveDoubtEngine.AssessCertainty` | src/recursive-doubt-engine.js:558-581 | fails iff the statement is empty, and then changes nothing; otherwise records the analysis and its convergence pattern, if any, and returns its assessment, whose interval brackets the certainty inside [0, 1]; the fractal map is never touched |
| `DoubtEngine.RecursiveDoubtEngine.StatisticsOfValid` | src/recursive-doubt-engine.js:630-653 | in a valid engine the convergence rate is the converged fraction in [0, 1], no fractal insight is counted, and every metric lies in [0, 100] |
| `DoubtEngine.RecursiveDoubtEngine.GetDoubtStatistics` | src/recursive-doubt-engine.js:629-652 | the statistics count the engine's analyses and fractal insights, cap the index and truth metrics at 100, and read zero for an engine with no analysis yet |
| `GuardianPrinciples.PrincipleAtIndex` | src/uef-guardian.js:16-71 | the table lists every principle exactly once, at its own index |
| `GuardianPrinciples.MaxPossibleScore` | src/uef-guardian.js:367-370 | the sum of the nine weights is 8.1 |
| `GuardianIndicators.EvaluateFactualAccuracy` | src/uef-guardian.js:197-206 | the reading lies in [0.4, 0.8] and is 0.8 iff the context is verified, there is evidence, and no risk is 'unverified' |
| `GuardianIndicators.EvaluateEmpiricalEvidence` | src/uef-guardian.js:211-217 | the reading lies in [0, 1] and is 0 iff there is no evidence, no testing or validation, and no metrics or measurement |
| `GuardianIndicators.EvaluateMoralReasoning` | src/uef-guardian.js:222-234 | the reading lies in [0.2, 1] and is 0.2 iff there are no stakeholders, no considerations and no long-term impact |
| `GuardianIndicators.EvaluateHarmPrevention` | src/uef-guardian.js:239-257 | the reading lies in [0.5, 1]; without mitigations or safeguards it is 0.7 with risks and 0.5 without |
| `GuardianIndicators.EvaluationPattern` | src/uef-guardian.js:183-189 | an evaluator exists exactly for the four evaluated indicators |
| `GuardianIndicators.OrElse` | src/uef-guardian.js:191 | `v || fallback` yields the value when it is present and non-zero, otherwise the fallback |
| `GuardianIndicators.EvaluateIndicator` | src/uef-guardian.js:179-192 | every indicator reads in [0.2, 1]; an indicator without an evaluator reads 0.5; an evaluated one reads its evaluator's value when that is non-zero, and 0.5 when it is zero |
| `GuardianIndicators.EmpiricalZeroReadsNeutral` | src/uef-guardian.js:191-216 | an empirical reading of exactly 0 is reported as 0.5 |
| `GuardianIndicators.EmpiricalIndicatorRange` | src/uef-guardian.js:191-216 | the empirical-evidence indicator lies in [0.3, 1] |
| `GuardianAlignment.SeverityOf` | src/uef-guardian.js:168-171 | 'high' exactly below 0.4, 'medium' exactly in [0.4, 0.6), and otherwise the initial 'low' |
| `GuardianAlignment.IndicatorValuesAt` | src/uef-guardian.js:155-160 | each recorded indicator value is the evaluation of the indicator at that position |
| `GuardianAlignment.Named` | src/uef-guardian.js:269-275 | every indicator whose score passes the band's filter is named |
| `GuardianAlignment.NamedOnlyPassing` | src/uef-guardian.js:269-275 | every named indicator passes the band's filter |
| `GuardianAlignment.RationaleOf` | src/uef-guardian.js:262-278 | each rationale band is chosen exactly on its score range (cuts 0.8, 0.6, 0.4) |
| `GuardianAlignment.MeanOfValues` | src/uef-guardian.js:162 | the mean of any indicator values lies in [0.2, 1] |
| `GuardianAlignment.AlignmentFor` | src/uef-guardian.js:141-174 | the score is the mean of the indicator values, in [0.2, 1]; critical iff below 0.7; severity and rationale by band |
| `GuardianAlignment.PrincipleAlignmentOf` | src/uef-guardian.js:141-174 | the same for a principle's own four indicators |
| `GuardianAlignment.UnevaluatedIsNeutral` | src/uef-guardian.js:155-191 | a principle without an evaluator scores exactly 0.5, so it is critical with severity 'medium' and a moderate rationale |
| `GuardianAlignment.EvaluatedScores` | src/uef-guardian.js:155-191 | truth, science and ethics are their evaluator readings beside indicators read as 0.5, divided by four |
| `GuardianAlignment.EvaluatedRanges` | src/uef-guardian.js:155-257 | truth lies in [0.475, 0.575], science in [0.45, 0.625], ethics in [0.425, 0.75] |
| `GuardianAlignment.AlignmentAt` | src/uef-guardian.js:101-103 | the entry at each position holds that principle and its analysis |
| `GuardianAlignment.EntryOf` | src/uef-guardian.js:101-103 | a principle's entry sits at the principle's index |
| `GuardianAlignment.AlignmentKeyed` | src/uef-guardian.js:101-103 | the alignment is keyed by the nine principles in order, and every score lies in [0.2, 1] |
| `GuardianAlignment.WeightedTotalBounds` | src/uef-guardian.js:106 | scores in [0, 1] give a weighted total between 0 and the sum of the weights |
| `GuardianAlignment.OverallScoreRange` | src/uef-guardian.js:118-119 | a full alignment with scores in [0, 1] normalises to an overall score in [0, 100] |
| `GuardianAlignment.OverallScoreOf` | src/uef-guardian.js:118-119 | a non-negative weighted total gives a non-negative score, and a total no larger than the maximum possible gives at most 100 |
| `GuardianAlignment.DecisionScoreRange` | src/uef-guardian.js:100-119 | whatever the decision, the overall score lies in 48..56 |
| `GuardianAlignment.CriticalIssuesOf` | src/uef-guardian.js:108-115 | every critical entry's issue is listed |
| `GuardianAlignment.IssuesOnlyCritical` | src/uef-guardian.js:108-115 | every listed issue comes from a critical entry |
| `GuardianAlignment.AlwaysCritical` | src/uef-guardian.js:168 | every principle other than ethics is critical for every decision |
| `GuardianAlignment.DecisionCriticalIssues` | src/uef-guardian.js:100-171 | every decision raises at least eight critical issues, including each principle without an evaluator at severity 'medium' |
| `GuardianAlignment.ImprovementsMembers` | src/uef-guardian.js:297-306 | the improvements are all principle improvements, one for every entry below 0.6 |
| `GuardianAlignment.ImprovementsOnlyLow` | src/uef-guardian.js:297-306 | every principle improvement comes from an entry below 0.6 |
| `GuardianAlignment.RecommendationOrder` | src/uef-guardian.js:283-319 | the list opens with the critical block iff there are issues, closes with the overall entry iff the score is below 70, and lists an improvement for every entry below 0.6 in between |
| `GuardianAlignment.RecommendationsOf` | src/uef-guardian.js:283-319 | at most one recommendation per entry plus two, and with no critical issue and a score of 70 or more only the principle improvements |
| `GuardianAlignment.ImpactBandOf` | src/uef-guardian.js:355-359 | each band is chosen exactly on its range (cuts 0.8, 0.6, 0.4, 0.2, exclusive) |
| `GuardianAlignment.ImpactBandMonotone` | src/uef-guardian.js:355-359 | a larger average never lands in a lower band |
| `GuardianAlignment.ConsciousnessImpactOf` | src/uef-guardian.js:324-362 | scores in [0, 1] give four impacts in [0, 1], and the band is that of their mean |
| `GuardianAlignment.DecisionImpactNeutral` | src/uef-guardian.js:324-362 | whatever the decision, its impact band is 'neutral' |
| `GuardianAlignment.DecisionAnalysisOf` | src/uef-guardian.js:87-136 | the analysis keeps the decision and timestamp, and its alignment is keyed by the nine principles |
| `GuardianAlignment.DecisionAnalysisProfile` | src/uef-guardian.js:87-136 | every analysis scores 48..56, raises at least eight issues, has at least two recommendations (the critical block first, the overall entry last) and a neutral impact |
| `GuardianAlignment.DecisionImprovements` | src/uef-guardian.js:297-306 | truth and every principle without an evaluator get a principle improvement in every analysis |
| `GuardianTargets.AssessTruthAlignment` | src/uef-guardian.js:497-506 | the score lies in [0.5, 1], and stays 0.5 iff the description mentions neither "verified" nor "evidence", the capabilities hold neither "fact-checking" nor "validation", and the name mentions neither "truth" nor "verification" |
| `GuardianTargets.AssessEthicsAlignment` | src/uef-guardian.js:511-520 | the score lies in [0.5, 1], and stays 0.5 iff the description mentions neither "ethical" nor "moral", the capabilities hold neither "ethics" nor "safety", and the name mentions neither "guardian" nor "ethical" |
| `GuardianTargets.AssessUnityAlignment` | src/uef-guardian.js:525-534 | the score lies in [0.5, 1], and stays 0.5 iff the description mentions neither "collaboration" nor "unity", the capabilities hold neither "integration" nor "collaboration", and the name mentions neither "unified" nor "collective" |
| `GuardianTargets.LowerNameIsKey` | src/uef-guardian.js:473 | the lower-cased name of every principle is its key, so the switch matches truth, ethics and unity |
| `GuardianTargets.AssessTargetPrinciple` | src/uef-guardian.js:464-492 | truth, ethics and unity get their scorer's value; every other principle gets 0.5 and the needs-implementation note |
| `GuardianTargets.TargetAlignmentOf` | src/uef-guardian.js:386-388 | one assessment per principle, in table order |
| `GuardianTargets.PercentOfMeanRange` | src/uef-guardian.js:539-543 | scores in [lo, hi] give a percentage between round(100·lo) and round(100·hi), within [0, 100] |
| `GuardianTargets.PercentOfMean` | src/uef-guardian.js:539-543 | the rounded percentage of the mean: scores that are all equal give exactly that score's rounded percentage |
| `GuardianTargets.LowAreas` | src/uef-guardian.js:548-557 | one improvement area for every entry below 0.7 and none otherwise |
| `GuardianTargets.ImprovementAreasOf` | src/uef-guardian.js:548-560 | the list is never empty; it is the all-well-aligned note iff every entry reaches 0.7, and otherwise it is exactly the low areas (`LowAreas`) |
| `GuardianTargets.AlignmentCertification` | src/uef-guardian.js:565-571 | each level is chosen exactly on its band (cuts 90, 80, 70, 60) |
| `GuardianTargets.ComplianceCertification` | src/uef-guardian.js:731-737 | each level is chosen exactly on its band (cuts 85, 75, 65, 55) |
| `GuardianTargets.CertificationMonotone` | src/uef-guardian.js:565-737 | both ladders are monotone, and the compliance ladder is never stricter than the alignment ladder |
| `GuardianTargets.AlignmentAssessmentOf` | src/uef-guardian.js:375-400 | the assessment holds one entry per principle in table order |
| `GuardianTargets.TargetScoreSum` | src/uef-guardian.js:539-543 | the nine target scores add up to between 4.5 and 6 |
| `GuardianTargets.AlignmentAssessmentProfile` | src/uef-guardian.js:375-400 | every target scores 50..67, is never certified above bronze, and lists the six unassessed principles as improvement areas |
| `GuardianTargets.Matched` | src/uef-guardian.js:684-690 | exactly the keywords that occur in the system text are matched |
| `GuardianTargets.Unmatched` | src/uef-guardian.js:695-699 | exactly the keywords that do not occur are gaps, and they complement the matches in number |
| `GuardianTargets.ValidationOf` | src/uef-guardian.js:672-702 | the validation score lies in [0, 1] |
| `GuardianTargets.ValidationFacts` | src/uef-guardian.js:672-702 | score = matches/4; implemented iff at least three matches; the gaps are exactly the missing keywords; evidence and gaps partition the four |
| `GuardianTargets.SystemText` | src/uef-guardian.js:684 | name, description and joined capabilities separated by single spaces, with no upper-case letter left; a missing name reads "undefined" |
| `GuardianTargets.ValidationsAt` | src/uef-guardian.js:443-445 | the result at each position is that principle's validation |
| `GuardianTargets.GapNotes` | src/uef-guardian.js:716-723 | one note for every result with gaps, naming exactly those gaps, and no other notes |
| `GuardianTargets.ImplementationGapsOf` | src/uef-guardian.js:716-726 | the list is never empty; it is the no-gaps note iff no result has gaps, and otherwise it is exactly the gap notes (`GapNotes`) |
| `GuardianTargets.ValidationReportOf` | src/uef-guardian.js:433-457 | the report holds one validation per principle in table order |
| `GuardianTargets.ComplianceScoreRange` | src/uef-guardian.js:707-711 | whatever the system, the compliance score lies in [0, 100] |
| `GuardianTargets.GapsNamePrinciple` | src/uef-guardian.js:716-726 | every principle with a missing keyword is reported with exactly its missing keywords |
| `GuardianScenario.ScenarioDecision` | src/uef-guardian.js:408-412 | only action, context and stakeholders reach the analysed decision; a text scenario passes none |
| `GuardianScenario.WeakPrinciplesMembers` | src/uef-guardian.js:588-592 | one strengthening action for every entry below 0.6, and none iff every entry reaches 0.6 |
| `GuardianScenario.ScenarioRecommendationsOf` | src/uef-guardian.js:576-595 | the recommended actions are never empty |
| `GuardianScenario.ScenarioRecommendationsShape` | src/uef-guardian.js:576-595 | the proceed note stands alone, exactly when nothing else applies; a score below 70 opens with the review; critical issues add the violations |
| `GuardianScenario.Pushed` | src/uef-guardian.js:625-631 | a principle is pushed iff it is in the order and its keywords occur; no duplicates come from a distinct order |
| `GuardianScenario.Dedup` | src/uef-guardian.js:633 | the set keeps exactly the elements, without duplicates, and keeps the first element first |
| `GuardianScenario.DedupDistinct` | src/uef-guardian.js:633 | the set removes nothing from a list without duplicates |
| `GuardianScenario.IdentifyRelevantPrinciples` | src/uef-guardian.js:618-634 | ethics comes first, there are no duplicates, and a principle is listed iff it is ethics or its keywords occur |
| `GuardianScenario.RelevantNeedsNoDedup` | src/uef-guardian.js:618-634 | the de-duplication never removes anything |
| `GuardianScenario.TextScenarioIsCaseSensitive` | src/uef-guardian.js:620-621 | free text is read as given while a record is lower-cased |
| `GuardianScenario.EvolutionImpactPrecedence` | src/uef-guardian.js:651-667 | the impact is positive iff a consciousness, evolution or ethical-AI keyword occurs; negative iff not positive and a harm keyword occurs; neutral otherwise |
| `GuardianScenario.AssessEvolutionImpact` | src/uef-guardian.js:651-667 | the impact is neutral exactly when no consciousness, evolution, harm or damage keyword occurs and "ai" and "ethical" do not both occur |
| `GuardianScenario.ImpactSurvivesMoreText` | src/uef-guardian.js:659-665 | appending text never takes an impact back: a high impact stays high, and a non-neutral impact stays non-neutral |
| `GuardianScenario.HarmYieldsToEvolution` | src/uef-guardian.js:659-665 | "harm" alone is negative, but "harm to evolution" is high: the evolution keyword is checked first |
| `GuardianScenario.ScenarioText` | src/uef-guardian.js:620-621 | a text scenario is read as given; a record reads as its action and context joined by one space, with no upper-case letter left |
| `GuardianScenario.GuidanceFor` | src/uef-guardian.js:405-428 | the guidance holds the scenario, its analysis, the recommended actions, the relevant principles and the evolution impact |
| `GuardianScenario.ScenarioRecommendationsOpening` | src/uef-guardian.js:576-595 | a low score with critical issues opens with the review and the violations, and strengthens every principle below 0.6 |
| `GuardianScenario.ScenarioRecommendationsProfile` | src/uef-guardian.js:576-595 | every scenario's actions open with the review and the violations, and strengthen every principle without an evaluator |
| `GuardianEngine.ScoreUnderFirst` | src/uef-guardian.js:751 | the key lookup finds the first entry under the key |
| `GuardianEngine.ScoreUnderKeyed` | src/uef-guardian.js:751 | in a keyed alignment the lookup finds the principle's own score |
| `GuardianEngine.AwarenessGain` | src/uef-guardian.js:750-753 | the awareness gain is at most 2 |
| `GuardianEngine.WisdomGain` | src/uef-guardian.js:755-760 | wisdom grows by 5, 2 or 0, and by 5 iff there are no critical issues and the score exceeds 70 |
| `GuardianEngine.MaturityIsRunningMean` | src/uef-guardian.js:745-748 | the new maturity lies between the old one and the new score's fraction, so it stays in [0, 1] |
| `GuardianEngine.NewMilestonesMembers` | src/uef-guardian.js:762-771 | each milestone is appended iff its condition holds |
| `GuardianEngine.NeutralUnityGains` | src/uef-guardian.js:750-760 | unity at 0.5 with issues and recommendations means no awareness gain and two wisdom points |
| `GuardianEngine.DecisionTrackerGains` | src/uef-guardian.js:750-760 | every decision analysis gains no awareness and two wisdom points, and scores 48..56 |
| `GuardianEngine.TrackerStep` | src/uef-guardian.js:742-772 | recording such an analysis preserves the tracker invariant |
| `GuardianEngine.MaturityBelowMilestones` | src/uef-guardian.js:745-771 | a maturity up to 0.56 updated with a score of 48..56 stays in [0.24, 0.56], so only the first-decision milestone can be appended |
| `GuardianEngine.LastFive` | src/uef-guardian.js:794 | the last min(n, 5) milestones, as a suffix |
| `GuardianEngine.MetricsOf` | src/uef-guardian.js:777-796 | the score is the rounded capped sum (at most 100, non-negative), maturity is reported as a percentage, awareness is capped at 50, wisdom at 100, and the milestones kept are the last min(n, 5) of the n recorded |
| `GuardianEngine.UEFGuardian.constructor` | src/uef-guardian.js:8-82 | mode and log level are the caller's, else 'strict' and 'info'; the history is empty, the tracker is zero, and the invariant holds |
| `GuardianEngine.UEFGuardian.AnalyzePrincipleAlignment` | src/uef-guardian.js:141-174 | the indicator loop yields the specified principle analysis |
| `GuardianEngine.UEFGuardian.GenerateRecommendations` | src/uef-guardian.js:283-319 | the push sequence yields the specified recommendation list |
| `GuardianEngine.UEFGuardian.UpdateConsciousnessEvolutionTracking` | src/uef-guardian.js:742-772 | the count, running maturity, awareness and wisdom gains and new milestones are applied; the history is untouched |
| `GuardianEngine.UEFGuardian.AnalyzePrinciples` | src/uef-guardian.js:100-116 | the principle loop yields the alignment, the weighted total and the critical issues |
| `GuardianEngine.UEFGuardian.ComposeAnalysis` | src/uef-guardian.js:87-125 | the loop, normalisation, recommendations and impact give the specified analysis |
| `GuardianEngine.UEFGuardian.RecordAnalysis` | src/uef-guardian.js:127-131 | the tracker update and history push append the analysis, add one decision and two wisdom points, and keep the invariant |
| `GuardianEngine.UEFGuardian.AnalyzeDecision` | src/uef-guardian.js:87-136 | returns the specified analysis, appends it, and counts it; maturity is the running mean, awareness does not change, wisdom grows by 2, and the milestones stay the first-decision one |
| `GuardianEngine.UEFGuardian.AssessPrinciples` | src/uef-guardian.js:385-388 | the loop yields one target assessment per principle |
| `GuardianEngine.UEFGuardian.IdentifyImprovementAreas` | src/uef-guardian.js:548-560 | the loop yields the specified improvement areas |
| `GuardianEngine.UEFGuardian.AssessAlignment` | src/uef-guardian.js:375-400 | returns the specified assessment |
| `GuardianEngine.UEFGuardian.ValidatePrincipleImplementation` | src/uef-guardian.js:672-702 | the keyword loop yields the specified validation |
| `GuardianEngine.UEFGuardian.IdentifyImplementationGaps` | src/uef-guardian.js:716-726 | the loop yields the specified gap list |
| `GuardianEngine.UEFGuardian.ValidatePrinciples` | src/uef-guardian.js:433-457 | returns the specified validation report |
| `GuardianEngine.UEFGuardian.GenerateScenarioRecommendations` | src/uef-guardian.js:576-595 | the push sequence yields the specified actions |
| `GuardianEngine.UEFGuardian.GenerateGuidance` | src/uef-guardian.js:405-428 | analyses and records the scenario's decision, updates maturity, wisdom (+2) and milestones exactly as `analyzeDecision` does, leaves awareness unchanged, then returns the guidance built from that analysis |
| `GuardianEngine.UEFGuardian.GetConsciousnessEvolutionMetrics` | src/uef-guardian.js:777-796 | the capped metrics of the tracker; in a valid guardian awareness reads 0 and wisdom reads min(2·decisions, 100) |

## Left out

- Floating point: every number is a Dafny `real`, so IEEE-754 rounding is not modelled. `Math.round` is floor(x + 1/2).
- `Math.sqrt` in `calculateConfidenceIntervals` is a caller-supplied function returning a non-negative value.
- `console.log` output is not modelled, and neither is `toFixed` text formatting.
- Timestamps (`new Date().toISOString()`) are an opaque string parameter.
- One timestamp parameter of an analysis stands for both clock readings the doubt engine takes: the analysis record's (src/recursive-doubt-engine.js:69) and the convergence pattern's (src/recursive-doubt-engine.js:394). In the source these are two readings and can differ.
- `async`/`await`: nothing suspends, so the async methods are ordinary sequential methods.
- Free-text outputs are enums or records of the values they interpolate. This covers question and insight sentences, rationales, recommendation texts, certification and impact banners, gap and improvement notes, and interpretation strings. The exact wording is kept only where a later step reads it: the question texts that the challenge scorer and the "evidence" test read.
- `toLowerCase` is ASCII-only. Non-ASCII letters are left unchanged.
- `DoubtLevel.InputComplexity`: the length term counts Unicode characters, while `statement.length` (src/recursive-doubt-engine.js:268) counts UTF-16 code units. A character outside the Basic Multilingual Plane, such as an emoji, counts once here and twice in the source. A statement holding such characters therefore gets a smaller length term than in the source, and so a possibly different doubt strength and certainty.
- JavaScript coercion corner cases are preconditions rather than modelled behaviour:
  - a non-positive `maxDepth` (`maxDepth >= 1` is required where it matters);
  - NaN from an empty question list (`AssessDoubtStrength` requires questions);
  - non-array fields.
- A missing or empty statement is modelled as a failure. In the source, `input.statement || input` then falls back to the input object, and calling `.split` on that object throws.
- Absent decision, target and scenario fields read as empty lists, `false` or `""`, which is how every evaluator treats them. This includes a text scenario's `action` and `context` passed on to `analyzeDecision`. A target's missing `name` or `description` renders as `undefined` in the system text.
- `generateGuidance`'s framework and considerations records keep only their scenario-dependent parts: the applicable principles and the evolution impact. Their other fields are fixed text.
- `guidancePatterns` (src/uef-guardian.js:74) is never read or written, so it has no field. The doubt engine's `fractalInsights` map is kept and proved to stay empty.
- src/server.js (transport, tool lists, Markdown rendering and `calculateConvergenceMetrics`) is not part of this model. test_analysis.js is not part of it either.
- `DoubtTables.AllQuestionsLength`: states only that each type gives at least one question. The exact per-type counts are in `QuestionsForType`.
- `DoubtLevel.QuestionMarks`: states only a bound on the count of '?'. No property of the count beyond its use in `InputComplexity` is claimed.
- `GuardianEngine.AwarenessGain`: its contract states only the bound 0..2. The zero gain of every real analysis is in `DecisionTrackerGains`.
- `GuardianTargets.ValidationOf`: its contract states only the score's range. The exact facts are in `ValidationFacts`.
- `GuardianScenario.ScenarioRecommendationsOf`: its contract states only non-emptiness. The ordering is in `ScenarioRecommendationsShape`.
- `GuardianAlignment.DecisionAnalysisOf`: its contract states only the kept fields. The scores, issues, recommendations and impact are in `DecisionAnalysisProfile`.
- `GuardianTargets.AlignmentAssessmentOf`: its contract states only the entries. The score and certification are in `AlignmentAssessmentProfile`.
