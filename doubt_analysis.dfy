/** The specification of `analyzeWithDoubt`: the engine options, the certainty
    carried from level to level, the first level at which two consecutive
    records converge, and the analysis record the whole run produces. */
module DoubtAnalysis {
  import opened Basics
  import opened DoubtTables
  import opened DoubtLevel
  import opened DoubtFractal
  import opened DoubtSynthesis

  // ----- Options -----

  /** The constructor argument; `None` is an absent key. */
  datatype EngineOptions = EngineOptions(
    maxDepth: Option<int>,
    convergenceThreshold: Option<real>,
    certaintyThreshold: Option<real>,
    fractalAnalysis: Option<bool>)

  /** The resolved `this.options`. `certaintyThreshold` is stored but never read. */
  datatype EngineConfig = EngineConfig(
    maxDepth: int,
    convergenceThreshold: real,
    certaintyThreshold: real,
    fractalAnalysis: bool)

  /** The defaults with `...options` spread after them: a key the caller passed wins, even
      when it is falsy, and only an absent key takes its default. */
  function ConfigOf(o: EngineOptions): (c: EngineConfig)
    ensures o.maxDepth.Some? ==> c.maxDepth == o.maxDepth.value
    ensures o.convergenceThreshold.Some? ==> c.convergenceThreshold == o.convergenceThreshold.value
    ensures o.certaintyThreshold.Some? ==> c.certaintyThreshold == o.certaintyThreshold.value
    ensures o.fractalAnalysis.Some? ==> c.fractalAnalysis == o.fractalAnalysis.value
  {
    EngineConfig(o.maxDepth.GetOr(7), o.convergenceThreshold.GetOr(0.1),
                 o.certaintyThreshold.GetOr(0.8), o.fractalAnalysis.GetOr(true))
  }

  /** No options give depth 7, threshold 0.1, certainty threshold 0.8 and fractal analysis on;
      an explicit `fractalAnalysis: false` survives the spread and switches it off. */
  lemma {:induction false} ConfigDefaults()
    ensures ConfigOf(EngineOptions(None, None, None, None)) == EngineConfig(7, 0.1, 0.8, true)
    ensures !ConfigOf(EngineOptions(None, None, None, Some(false))).fractalAnalysis
  {
  }

  // ----- The level sequence -----

  /** `Math.min(maxDepth, 7)`, the last level the loop may process. */
  function LoopBound(maxDepth: int): (b: int)
    ensures b <= 7 && b <= maxDepth
    ensures b == 7 || b == maxDepth
  {
    if maxDepth < 7 then maxDepth else 7
  }

  /** Number of levels a run without convergence processes. */
  function LevelBudget(bound: int): (n: nat)
    ensures n == 0 || n == bound
    ensures bound <= 0 ==> n == 0
  {
    if bound < 0 then 0 else bound
  }

  /** The complexity the level pipeline sees; only meaningful when the statement is present. */
  function StatementComplexity(input: AnalysisInput): (c: real)
    ensures 0.2 <= c <= 0.9
  {
    InputComplexity(input.statement.GetOr(""))
  }

  /** The certainty-independent parts of levels 1..7 for a statement of the given complexity. */
  function LevelBases(complexity: real): (bases: seq<LevelBase>)
    ensures |bases| == 7
    ensures forall i :: 0 <= i < 7 ==> bases[i] == BaseSpec(i + 1, complexity)
  {
    seq(7, i requires 0 <= i < 7 => BaseSpec(i + 1, complexity))
  }

  /** What the loop relies on about the levels it may visit. */
  predicate BasesShaped(bases: seq<LevelBase>)
  {
    && |bases| == 7
    && forall i :: 0 <= i < 7 ==>
         && bases[i].level == i + 1
         && |bases[i].insights| == 2
         && 0.33 <= bases[i].doubtStrength <= 1.0
  }

  /** The seven built-in levels are numbered 1..7, each yields two insights and a doubt
      strength in [0.33, 1]. */
  lemma {:induction false} LevelBasesShaped(complexity: real)
    requires 0.2 <= complexity
    ensures BasesShaped(LevelBases(complexity))
  {
    forall i | 0 <= i < 7
      ensures var b := LevelBases(complexity)[i];
              b.level == i + 1 && |b.insights| == 2 && 0.33 <= b.doubtStrength <= 1.0
    {
      BaseShape(i + 1, complexity);
    }
  }

  /** The certainty carried into level k (k = |bases| + 1 is the certainty after the last),
      starting at 0.5 and updated by each level's record. */
  function Carried(bases: seq<LevelBase>, k: int): (r: real)
    requires 1 <= k <= |bases| + 1
    ensures 0.0 <= r <= 1.0
  {
    if k == 1 then 0.5
    else
      var before := Carried(bases, k - 1);
      UpdateCertainty(before, Attach(bases[k - 2], before))
  }

  /** The record of level k in a run that reaches it. */
  function LevelAt(bases: seq<LevelBase>, k: int): LevelRecord
    requires 1 <= k <= |bases|
  {
    Attach(bases[k - 1], Carried(bases, k))
  }

  /** The records of levels 1..n. */
  function Trace(bases: seq<LevelBase>, n: int): (t: seq<LevelRecord>)
    requires 0 <= n <= |bases|
    ensures |t| == n
  {
    if n == 0 then [] else Trace(bases, n - 1) + [LevelAt(bases, n)]
  }

  /** The i-th record of a trace is the record of level i + 1. */
  lemma {:induction false} TraceAt(bases: seq<LevelBase>, n: int, i: int)
    requires 0 <= i < n <= |bases|
    ensures Trace(bases, n)[i] == LevelAt(bases, i + 1)
  {
    if i < n - 1 {
      TraceAt(bases, n - 1, i);
    }
  }

  lemma {:induction false} TraceRecords(bases: seq<LevelBase>, n: int)
    requires 0 <= n <= |bases|
    ensures forall i :: 0 <= i < n ==> Trace(bases, n)[i] == LevelAt(bases, i + 1)
  {
    forall i | 0 <= i < n
      ensures Trace(bases, n)[i] == LevelAt(bases, i + 1)
    {
      TraceAt(bases, n, i);
    }
  }

  /** On a present statement, level k analyzed with any certainty is the k-th of `bases` with
      that certainty attached. */
  ghost predicate BuiltFrom(input: AnalysisInput, bases: seq<LevelBase>)
  {
    && |bases| == 7
    && forall k, certainty {:trigger LevelSpec(k, InputComplexity(input.statement.value), certainty)} ::
         HasStatement(input) && 1 <= k <= 7 ==>
           LevelSpec(k, InputComplexity(input.statement.value), certainty) == Attach(bases[k - 1], certainty)
  }

  /** The statement's own bases are the ones its levels are built from. */
  lemma {:induction false} LevelsOfInput(input: AnalysisInput)
    ensures BuiltFrom(input, LevelBases(StatementComplexity(input)))
  {
  }

  /** `analyzeDoubtLevel` on a level that `bases` describes. */
  method AnalyzeLevelFrom(input: AnalysisInput, level: int, currentCertainty: real, ghost bases: seq<LevelBase>)
    returns (r: Result<LevelRecord, DoubtError>)
    requires 1 <= level <= 7 && BuiltFrom(input, bases)
    ensures r.Failure? <==> !HasStatement(input)
    ensures r.Success? ==> r.value == Attach(bases[level - 1], currentCertainty)
  {
    r := AnalyzeDoubtLevel(input, level, currentCertainty);
  }

  /** One more level extends the trace by its record and the carried certainty by its update. */
  lemma {:induction false} TraceStep(bases: seq<LevelBase>, k: int)
    requires 1 <= k <= |bases|
    ensures Trace(bases, k) == Trace(bases, k - 1) + [LevelAt(bases, k)]
    ensures Carried(bases, k + 1) == UpdateCertainty(Carried(bases, k), LevelAt(bases, k))
  {
  }

  /** Levels k - 1 and k converge. */
  predicate ConvergesAt(bases: seq<LevelBase>, threshold: real, k: int)
    requires 2 <= k <= |bases|
  {
    Converged(LevelAt(bases, k - 1), LevelAt(bases, k), threshold)
  }

  /** Flag j tells whether the pair of levels j - 1 and j converges, for the levels 2..bound
      the loop may compare; flags 0 and 1 are never set. */
  function ConvergenceFlags(bases: seq<LevelBase>, threshold: real, bound: int): (flags: seq<bool>)
    requires bound <= |bases|
    ensures |flags| == LevelBudget(bound) + 1
    decreases bound
  {
    if bound <= 0 then [false]
    else if bound == 1 then [false, false]
    else ConvergenceFlags(bases, threshold, bound - 1) + [ConvergesAt(bases, threshold, bound)]
  }

  lemma {:induction false} ConvergenceFlagAt(bases: seq<LevelBase>, threshold: real, bound: int, j: int)
    requires bound <= |bases|
    requires 2 <= j <= bound
    ensures ConvergenceFlags(bases, threshold, bound)[j] == ConvergesAt(bases, threshold, j)
    decreases bound
  {
    if j < bound {
      ConvergenceFlagAt(bases, threshold, bound - 1, j);
    }
  }

  /** The flags are the convergence tests of the levels 2..bound. */
  lemma {:induction false} ConvergenceFlagsMatch(bases: seq<LevelBase>, threshold: real, bound: int)
    requires bound <= |bases|
    ensures var flags := ConvergenceFlags(bases, threshold, bound);
            forall j :: 2 <= j < |flags| ==> flags[j] == ConvergesAt(bases, threshold, j)
  {
    forall j | 2 <= j <= bound
      ensures ConvergenceFlags(bases, threshold, bound)[j] == ConvergesAt(bases, threshold, j)
    {
      ConvergenceFlagAt(bases, threshold, bound, j);
    }
  }

  /** The first index from k on whose flag is set, if any. */
  function FirstSet(flags: seq<bool>, k: nat): (r: Option<int>)
    ensures r.Some? ==> k <= r.value < |flags| && flags[r.value]
    ensures r.Some? ==> forall j :: k <= j < r.value ==> !flags[j]
    ensures r.None? <==> forall j :: k <= j < |flags| ==> !flags[j]
    decreases |flags| - k
  {
    if k >= |flags| then None
    else if flags[k] then Some(k)
    else FirstSet(flags, k + 1)
  }

  /** A set flag with none set from k up to it is the first one from k. */
  lemma {:induction false} FirstSetIs(flags: seq<bool>, k: nat, point: int)
    requires k <= point < |flags| && flags[point]
    requires forall j :: k <= j < point ==> !flags[j]
    ensures FirstSet(flags, k) == Some(point)
    decreases point - k
  {
    if k < point {
      FirstSetIs(flags, k + 1, point);
    }
  }

  /** The first level from 2 on at which the loop sees convergence, if any. */
  function FirstConvergence(bases: seq<LevelBase>, threshold: real, bound: int): (r: Option<int>)
    requires bound <= |bases|
  {
    FirstSet(ConvergenceFlags(bases, threshold, bound), 2)
  }

  /** No two adjacent records of `levels` converge, stated one record at a time. */
  predicate Unconverged(levels: seq<LevelRecord>, threshold: real)
  {
    |levels| < 2
    || (&& Unconverged(levels[..|levels| - 1], threshold)
        && !Converged(levels[|levels| - 2], levels[|levels| - 1], threshold))
  }

  lemma {:induction false} UnconvergedPairs(levels: seq<LevelRecord>, threshold: real)
    ensures Unconverged(levels, threshold)
            <==> forall j :: 1 <= j < |levels| ==> !Converged(levels[j - 1], levels[j], threshold)
  {
    if |levels| >= 2 {
      var front := levels[..|levels| - 1];
      UnconvergedPairs(front, threshold);
      assert forall j :: 0 <= j < |front| ==> front[j] == levels[j];
    }
  }

  /** The pair test on the records of a trace is the convergence test of the run. */
  lemma {:induction false} TracePairs(bases: seq<LevelBase>, threshold: real, n: int)
    requires 0 <= n <= |bases|
    ensures var t := Trace(bases, n);
            forall j :: 1 <= j < n ==> (Converged(t[j - 1], t[j], threshold) <==> ConvergesAt(bases, threshold, j + 1))
  {
    TraceRecords(bases, n);
  }

  /** What the level loop leaves behind: the records, the final certainty and the
      convergence point, if one was reached. */
  datatype LoopOutcome = LoopOutcome(levels: seq<LevelRecord>, overallCertainty: real, convergencePoint: Option<int>)

  /** The loop: levels 1, 2, … up to the first convergence point or to `bound`. */
  function Run(bases: seq<LevelBase>, threshold: real, bound: int): (r: LoopOutcome)
    requires bound <= |bases|
    ensures 0.0 <= r.overallCertainty <= 1.0
    ensures |r.levels| <= LevelBudget(bound)
    ensures r.convergencePoint.Some? ==> 2 <= r.convergencePoint.value == |r.levels|
    ensures r.convergencePoint.None? ==> |r.levels| == LevelBudget(bound)
  {
    var first := FirstConvergence(bases, threshold, bound);
    var n := if first.Some? then first.value else LevelBudget(bound);
    LoopOutcome(Trace(bases, n), Carried(bases, n + 1), first)
  }

  /** A loop that stopped after n levels with the certainty carried past them and the first
      convergence point found is the run. */
  lemma {:induction false} RunIs(bases: seq<LevelBase>, threshold: real, bound: int, outcome: LoopOutcome)
    requires bound <= |bases|
    requires outcome.convergencePoint == FirstConvergence(bases, threshold, bound)
    requires var n := if outcome.convergencePoint.Some? then outcome.convergencePoint.value else LevelBudget(bound);
             outcome.levels == Trace(bases, n) && outcome.overallCertainty == Carried(bases, n + 1)
    ensures Run(bases, threshold, bound) == outcome
  {
  }

  /** A loop that processed every level up to the bound, with no pair converging, is the
      run without a convergence point. */
  lemma {:induction false} ExhaustedRun(bases: seq<LevelBase>, threshold: real, bound: int, levels: seq<LevelRecord>, certainty: real)
    requires bound <= |bases|
    requires levels == Trace(bases, LevelBudget(bound))
    requires certainty == Carried(bases, LevelBudget(bound) + 1)
    requires Unconverged(levels, threshold)
    ensures Run(bases, threshold, bound) == LoopOutcome(levels, certainty, None)
  {
    var flags := ConvergenceFlags(bases, threshold, bound);
    TracePairs(bases, threshold, LevelBudget(bound));
    UnconvergedPairs(levels, threshold);
    ConvergenceFlagsMatch(bases, threshold, bound);
    forall j | 2 <= j < |flags|
      ensures !flags[j]
    {
      assert !Converged(levels[j - 2], levels[j - 1], threshold);
    }
    RunIs(bases, threshold, bound, LoopOutcome(levels, certainty, None));
  }

  /** A loop that reached level k ≥ 2, with no pair converging before it, and whose record
      converges with the previous one, is the run that stops at k. */
  lemma {:induction false} ConvergedRun(bases: seq<LevelBase>, threshold: real, bound: int, before: seq<LevelRecord>,
                     record: LevelRecord, certainty: real, k: int)
    requires 2 <= k <= bound <= |bases|
    requires before == Trace(bases, k - 1)
    requires record == LevelAt(bases, k)
    requires certainty == UpdateCertainty(Carried(bases, k), record)
    requires Unconverged(before, threshold)
    requires Converged(before[k - 2], record, threshold)
    ensures Run(bases, threshold, bound) == LoopOutcome(before + [record], certainty, Some(k))
  {
    ConvergedFirst(bases, threshold, bound, before, record, k);
    TraceStep(bases, k);
    RunIs(bases, threshold, bound, LoopOutcome(before + [record], certainty, Some(k)));
  }

  /** The same loop finds its first convergence point at k. */
  lemma {:induction false} ConvergedFirst(bases: seq<LevelBase>, threshold: real, bound: int, before: seq<LevelRecord>,
                                          record: LevelRecord, k: int)
    requires 2 <= k <= bound <= |bases|
    requires before == Trace(bases, k - 1)
    requires record == LevelAt(bases, k)
    requires Unconverged(before, threshold)
    requires Converged(before[k - 2], record, threshold)
    ensures FirstConvergence(bases, threshold, bound) == Some(k)
  {
    var flags := ConvergenceFlags(bases, threshold, bound);
    UnconvergedPairs(before, threshold);
    TraceRecords(bases, k - 1);
    forall j | 2 <= j < k
      ensures !flags[j]
    {
      ConvergenceFlagAt(bases, threshold, bound, j);
      assert before[j - 2] == LevelAt(bases, j - 1) && before[j - 1] == LevelAt(bases, j);
      assert !Converged(before[j - 2], before[j - 1], threshold);
    }
    ConvergenceFlagAt(bases, threshold, bound, k);
    assert before[k - 2] == LevelAt(bases, k - 1);
    FirstSetIs(flags, 2, k);
  }

  /** How a run of the loop ends, stated on its records and convergence point: a converged
      run stops at its convergence point L ≥ 2, the first pair that converges; otherwise every
      level up to the bound is processed and no pair converges. */
  predicate StopsAtConvergence(threshold: real, bound: int, levels: seq<LevelRecord>, point: Option<int>)
  {
    && (point.Some? ==>
          && 2 <= point.value <= bound
          && |levels| == point.value
          && Converged(levels[|levels| - 2], levels[|levels| - 1], threshold))
    && (point.None? ==> |levels| == LevelBudget(bound))
    && (forall j :: 1 <= j < |levels| && (j < |levels| - 1 || point.None?) ==>
          !Converged(levels[j - 1], levels[j], threshold))
  }

  /** The first record carries 0.5, each later one carries the update of the one before, and
      `overall` is the update of the last. */
  predicate CertaintyChained(levels: seq<LevelRecord>, overall: real)
  {
    && (|levels| > 0 ==> levels[0].certaintyAssessment == 0.5)
    && (forall i :: 1 <= i < |levels| ==>
          levels[i].certaintyAssessment == UpdateCertainty(levels[i - 1].certaintyAssessment, levels[i - 1]))
    && overall == (if |levels| == 0 then 0.5
                   else UpdateCertainty(levels[|levels| - 1].certaintyAssessment, levels[|levels| - 1]))
  }

  /** The records are levels 1, 2, … in order, each with two insights. */
  predicate Numbered(levels: seq<LevelRecord>)
  {
    forall i :: 0 <= i < |levels| ==> levels[i].level == i + 1 && |levels[i].insights| == 2
  }

  /** The records of levels 1..n: the i-th is built from the i-th base, and their certainties
      are chained up to the one carried past them. */
  lemma {:induction false} TraceShape(bases: seq<LevelBase>, n: int)
    requires 0 <= n <= |bases|
    ensures var L := Trace(bases, n);
            && (forall i :: 0 <= i < |L| ==>
                  && L[i].level == bases[i].level
                  && L[i].title == bases[i].title
                  && L[i].questions == bases[i].questions
                  && L[i].doubtStrength == bases[i].doubtStrength
                  && L[i].insights == bases[i].insights
                  && L[i].resolution == ResolutionApproach(bases[i].doubtStrength, L[i].certaintyAssessment))
            && CertaintyChained(L, Carried(bases, n + 1))
  {
    var L := Trace(bases, n);
    TraceRecords(bases, n);
    forall i | 1 <= i < |L|
      ensures L[i].certaintyAssessment == UpdateCertainty(L[i - 1].certaintyAssessment, L[i - 1])
    {
      assert L[i] == LevelAt(bases, i + 1) && L[i - 1] == LevelAt(bases, i);
    }
    if n > 0 {
      assert L[n - 1] == LevelAt(bases, n);
    }
  }

  /** Over well-shaped bases the records of levels 1..n are numbered 1..n with two insights each. */
  lemma {:induction false} TraceNumbered(bases: seq<LevelBase>, n: int)
    requires BasesShaped(bases)
    requires 0 <= n <= |bases|
    ensures Numbered(Trace(bases, n))
  {
    TraceRecords(bases, n);
  }

  /** Every run stops as the loop does. */
  lemma {:induction false} RunConvergence(bases: seq<LevelBase>, threshold: real, bound: int)
    requires bound <= |bases|
    ensures var r := Run(bases, threshold, bound);
            StopsAtConvergence(threshold, bound, r.levels, r.convergencePoint)
  {
    var flags := ConvergenceFlags(bases, threshold, bound);
    var first := FirstSet(flags, 2);
    var n := if first.Some? then first.value else LevelBudget(bound);
    var L := Trace(bases, n);
    forall j | 1 <= j < n && (j < n - 1 || first.None?)
      ensures !Converged(L[j - 1], L[j], threshold)
    {
      assert !flags[j + 1];
      ConvergenceFlagAt(bases, threshold, bound, j + 1);
      TracePairAt(bases, threshold, n, j);
    }
    if first.Some? {
      assert flags[n];
      ConvergenceFlagAt(bases, threshold, bound, n);
      TracePairAt(bases, threshold, n, n - 1);
    }
  }

  /** The pair test on records j - 1 and j of a trace is the convergence test at level j + 1. */
  lemma {:induction false} TracePairAt(bases: seq<LevelBase>, threshold: real, n: int, j: int)
    requires 1 <= j < n <= |bases|
    ensures var t := Trace(bases, n);
            Converged(t[j - 1], t[j], threshold) == ConvergesAt(bases, threshold, j + 1)
  {
    TraceAt(bases, n, j - 1);
    TraceAt(bases, n, j);
  }

  /** What any run of the loop looks like, stated on its outcome alone: it stops as the loop
      does, its i-th record is built from the i-th level, its certainties are chained from 0.5
      and the final one lies in [0, 1]. */
  lemma {:induction false} RunShape(bases: seq<LevelBase>, threshold: real, bound: int)
    requires bound <= |bases|
    ensures var r := Run(bases, threshold, bound);
            var L := r.levels;
            && 0.0 <= r.overallCertainty <= 1.0
            && StopsAtConvergence(threshold, bound, L, r.convergencePoint)
            && (forall i :: 0 <= i < |L| ==>
                  && L[i].level == bases[i].level
                  && L[i].title == bases[i].title
                  && L[i].questions == bases[i].questions
                  && L[i].doubtStrength == bases[i].doubtStrength
                  && L[i].insights == bases[i].insights
                  && L[i].resolution == ResolutionApproach(bases[i].doubtStrength, L[i].certaintyAssessment))
            && CertaintyChained(L, r.overallCertainty)
  {
    var first := FirstConvergence(bases, threshold, bound);
    var n := if first.Some? then first.value else LevelBudget(bound);
    RunConvergence(bases, threshold, bound);
    TraceShape(bases, n);
  }

  // ----- The analysis record -----

  /** What `analyzeWithDoubt` returns and stores in the history. `convergencePoint` is the
      optional `convergence_point` key. */
  datatype Analysis = Analysis(
    input: AnalysisInput,
    timestamp: string,
    levels: seq<LevelRecord>,
    overallCertainty: real,
    convergenceAchieved: bool,
    convergencePoint: Option<int>,
    fractalInsights: seq<FractalInsight>,
    implications: Implications,
    recommendations: seq<DoubtRecommendation>)

  /** The steps after the loop: the fractal block when fractal analysis is on, then the
      implications and the recommendations. */
  function Assemble(config: EngineConfig, input: AnalysisInput, timestamp: string, bases: seq<LevelBase>): Analysis
    requires |bases| == 7
  {
    var run := Run(bases, config.convergenceThreshold, LoopBound(config.maxDepth));
    var converged := run.convergencePoint.Some?;
    var fractal := if config.fractalAnalysis then FractalInsights(run.levels) else [];
    Analysis(input, timestamp, run.levels, run.overallCertainty, converged, run.convergencePoint, fractal,
             ConsciousnessImplications(run.levels, run.overallCertainty, converged, fractal),
             DoubtRecommendations(converged, run.overallCertainty, fractal))
  }

  /** The whole run over the given bases: it throws at level 1 when the statement is missing
      or empty (and only then, since later levels see the same input); otherwise it is the
      loop over the bases followed by the steps after it. */
  function AnalysisOn(config: EngineConfig, input: AnalysisInput, timestamp: string, bases: seq<LevelBase>)
    : (r: Result<Analysis, DoubtError>)
    requires |bases| == 7
    ensures r.Failure? <==> LoopBound(config.maxDepth) >= 1 && !HasStatement(input)
  {
    if LoopBound(config.maxDepth) >= 1 && !HasStatement(input) then Failure(StatementNotText)
    else Success(Assemble(config, input, timestamp, bases))
  }

  /** `analyzeWithDoubt` over the seven built-in levels for the statement. */
  function AnalysisSpec(config: EngineConfig, input: AnalysisInput, timestamp: string): (r: Result<Analysis, DoubtError>)
    ensures r.Failure? <==> LoopBound(config.maxDepth) >= 1 && !HasStatement(input)
  {
    AnalysisOn(config, input, timestamp, LevelBases(StatementComplexity(input)))
  }

  /** A well-formed analysis, stated on the record alone: the levels are 1, 2, … in order, each
      with two insights; the first carries 0.5 and each later one carries the update of the one
      before; the overall certainty is the update of the last and lies in [0, 1]; a converged
      run stops at its convergence point L ≥ 2, the first pair that converges; otherwise every
      level up to `min(maxDepth, 7)` is processed and no pair converges; the fractal block has
      three records exactly when fractal analysis is on. */
  predicate WellShaped(config: EngineConfig, a: Analysis)
  {
    && 0.0 <= a.overallCertainty <= 1.0
    && (a.convergenceAchieved <==> a.convergencePoint.Some?)
    && StopsAtConvergence(config.convergenceThreshold, LoopBound(config.maxDepth), a.levels, a.convergencePoint)
    && Numbered(a.levels)
    && CertaintyChained(a.levels, a.overallCertainty)
    && |a.fractalInsights| == (if config.fractalAnalysis then 3 else 0)
  }

  /** Every analysis of a history is well formed, stated one appended analysis at a time. */
  predicate AllWellShaped(config: EngineConfig, history: seq<Analysis>)
  {
    history == []
    || (AllWellShaped(config, history[..|history| - 1]) && WellShaped(config, history[|history| - 1]))
  }

  lemma {:induction false} AllWellShapedAt(config: EngineConfig, history: seq<Analysis>, i: int)
    requires AllWellShaped(config, history)
    requires 0 <= i < |history|
    ensures WellShaped(config, history[i])
    decreases |history|
  {
    if i < |history| - 1 {
      AllWellShapedAt(config, history[..|history| - 1], i);
    }
  }

  /** The steps after the loop keep the loop's shape, for any levels numbered 1..7. */
  lemma {:induction false} AssembleShape(config: EngineConfig, input: AnalysisInput, timestamp: string, bases: seq<LevelBase>)
    requires BasesShaped(bases)
    ensures WellShaped(config, Assemble(config, input, timestamp, bases))
  {
    var a := Assemble(config, input, timestamp, bases);
    if config.fractalAnalysis {
      FractalInsightsShape(a.levels);
    }
    RecordShape(config, a, bases);
  }

  /** An analysis that carries the run's records, certainty and convergence point, and a
      fractal block of the configured size, is well formed. */
  lemma {:induction false} RecordShape(config: EngineConfig, a: Analysis, bases: seq<LevelBase>)
    requires BasesShaped(bases)
    requires var o := Run(bases, config.convergenceThreshold, LoopBound(config.maxDepth));
             && a.levels == o.levels && a.overallCertainty == o.overallCertainty
             && a.convergencePoint == o.convergencePoint && a.convergenceAchieved == o.convergencePoint.Some?
    requires |a.fractalInsights| == (if config.fractalAnalysis then 3 else 0)
    ensures WellShaped(config, a)
  {
    var th := config.convergenceThreshold;
    var bound := LoopBound(config.maxDepth);
    var first := FirstConvergence(bases, th, bound);
    var n := if first.Some? then first.value else LevelBudget(bound);
    RunConvergence(bases, th, bound);
    TraceShape(bases, n);
    TraceNumbered(bases, n);
  }

  /** Every successful analysis is well formed. */
  lemma {:induction false} AnalysisShape(config: EngineConfig, input: AnalysisInput, timestamp: string)
    requires HasStatement(input) || config.maxDepth < 1
    ensures WellShaped(config, AnalysisSpec(config, input, timestamp).value)
  {
    LevelBasesShaped(StatementComplexity(input));
    AssembleShape(config, input, timestamp, LevelBases(StatementComplexity(input)));
  }

  /** A run over well-shaped bases that does not throw, followed by the steps after the
      loop, is the analysis over those bases, and that analysis is well formed. */
  lemma {:induction false} AnalysisOfRun(config: EngineConfig, input: AnalysisInput, timestamp: string, bases: seq<LevelBase>,
                      outcome: LoopOutcome)
    requires BasesShaped(bases)
    requires !(LoopBound(config.maxDepth) >= 1 && !HasStatement(input))
    requires outcome == Run(bases, config.convergenceThreshold, LoopBound(config.maxDepth))
    ensures var converged := outcome.convergencePoint.Some?;
            var fractal := if config.fractalAnalysis then FractalInsights(outcome.levels) else [];
            var a := Analysis(input, timestamp, outcome.levels, outcome.overallCertainty, converged,
                              outcome.convergencePoint, fractal,
                              ConsciousnessImplications(outcome.levels, outcome.overallCertainty, converged, fractal),
                              DoubtRecommendations(converged, outcome.overallCertainty, fractal));
            AnalysisOn(config, input, timestamp, bases) == Success(a) && WellShaped(config, a)
  {
    AssembleShape(config, input, timestamp, bases);
  }

  /** The loop reads `maxDepth` from the options; the `depth` of the input changes nothing but
      the copy of the input the record keeps. */
  lemma {:induction false} DepthIgnored(config: EngineConfig, input: AnalysisInput, depth: Option<int>, timestamp: string)
    ensures var other := input.(depth := depth);
            var a := AnalysisSpec(config, input, timestamp);
            var b := AnalysisSpec(config, other, timestamp);
            && (a.Success? <==> b.Success?)
            && (a.Success? ==> b.value == a.value.(input := other))
  {
    var other := input.(depth := depth);
    assert StatementComplexity(other) == StatementComplexity(input);
  }

  /** With `maxDepth` 1 there is no pair of levels to compare: a run with a statement processes
      exactly one level and never converges. */
  lemma {:induction false} SingleLevelNeverConverges(config: EngineConfig, input: AnalysisInput, timestamp: string)
    requires config.maxDepth == 1
    ensures var a := AnalysisSpec(config, input, timestamp);
            && (a.Success? <==> HasStatement(input))
            && (a.Success? ==> !a.value.convergenceAchieved && |a.value.levels| == 1)
  {
    var bases := LevelBases(StatementComplexity(input));
    RunConvergence(bases, config.convergenceThreshold, LoopBound(config.maxDepth));
  }

  /** With a threshold that is not positive no pair converges, so every level up to
      `min(maxDepth, 7)` is processed. */
  lemma {:induction false} NoThresholdRunsEveryLevel(config: EngineConfig, input: AnalysisInput, timestamp: string)
    requires config.convergenceThreshold <= 0.0
    requires HasStatement(input) || config.maxDepth < 1
    ensures var a := AnalysisSpec(config, input, timestamp).value;
            !a.convergenceAchieved && |a.levels| == LevelBudget(LoopBound(config.maxDepth))
  {
    NoThresholdRun(LevelBases(StatementComplexity(input)), config.convergenceThreshold, LoopBound(config.maxDepth));
  }

  lemma {:induction false} NoThresholdRun(bases: seq<LevelBase>, threshold: real, bound: int)
    requires threshold <= 0.0
    requires bound <= |bases|
    ensures var r := Run(bases, threshold, bound);
            r.convergencePoint.None? && |r.levels| == LevelBudget(bound)
  {
    RunConvergence(bases, threshold, bound);
  }

  /** Levels numbered 1, 2, …, n have max(n - 4, 0) members at level 5 or deeper. */
  lemma {:induction false} DeepLevelsNumbered(levels: seq<LevelRecord>)
    requires forall i :: 0 <= i < |levels| ==> levels[i].level == i + 1
    ensures DeepLevelCount(levels) == if |levels| >= 5 then |levels| - 4 else 0
  {
    if levels != [] {
      DeepLevelsNumbered(levels[..|levels| - 1]);
    }
  }

  /** For n levels numbered 1..n with two insights each, the acceleration term is 0.1 per level
      plus 0.2 on convergence, the awareness term is 0.15 per fractal record plus 0.1 per level,
      and the maturity term is 0.2 per level from level 5 on. */
  lemma {:induction false} ImplicationsCounted(levels: seq<LevelRecord>, overallCertainty: real, converged: bool, fractal: seq<FractalInsight>)
    requires forall i :: 0 <= i < |levels| ==> levels[i].level == i + 1 && |levels[i].insights| == 2
    ensures var imp := ConsciousnessImplications(levels, overallCertainty, converged, fractal);
            var n := |levels|;
            && imp.evolutionAcceleration == n as real * 0.1 + (if converged then 0.2 else 0.0)
            && imp.selfAwarenessIncrease == |fractal| as real * 0.15 + n as real * 0.1
            && imp.philosophicalMaturity == 0.2 * (if n >= 5 then n - 4 else 0) as real
  {
    InsightCountUniform(levels, 2);
    DeepLevelsNumbered(levels);
  }

  /** The implications of every successful analysis, by its number of levels. */
  lemma {:induction false} ImplicationsOfAnalysis(config: EngineConfig, input: AnalysisInput, timestamp: string)
    requires HasStatement(input) || config.maxDepth < 1
    ensures var a := AnalysisSpec(config, input, timestamp).value;
            var n := |a.levels|;
            && a.implications.evolutionAcceleration == n as real * 0.1 + (if a.convergenceAchieved then 0.2 else 0.0)
            && a.implications.selfAwarenessIncrease == |a.fractalInsights| as real * 0.15 + n as real * 0.1
            && a.implications.philosophicalMaturity == 0.2 * (if n >= 5 then n - 4 else 0) as real
  {
    LevelBasesShaped(StatementComplexity(input));
    AssembleImplications(config, input, timestamp, LevelBases(StatementComplexity(input)));
  }

  lemma {:induction false} AssembleImplications(config: EngineConfig, input: AnalysisInput, timestamp: string, bases: seq<LevelBase>)
    requires BasesShaped(bases)
    ensures var a := Assemble(config, input, timestamp, bases);
            var n := |a.levels|;
            && a.implications.evolutionAcceleration == n as real * 0.1 + (if a.convergenceAchieved then 0.2 else 0.0)
            && a.implications.selfAwarenessIncrease == |a.fractalInsights| as real * 0.15 + n as real * 0.1
            && a.implications.philosophicalMaturity == 0.2 * (if n >= 5 then n - 4 else 0) as real
  {
    AssembleShape(config, input, timestamp, bases);
    var a := Assemble(config, input, timestamp, bases);
    ImplicationsCounted(a.levels, a.overallCertainty, a.convergenceAchieved, a.fractalInsights);
  }

  /** When every doubt strength lies in [0.33, 1] the doubt-fractal record stays at most 1.67,
      so the fractal block has a dimension above 1.8 exactly when its certainty record has. */
  lemma {:induction false} HighDimensionIsCertainty(levels: seq<LevelRecord>)
    requires forall i :: 0 <= i < |levels| ==> 0.33 <= levels[i].doubtStrength <= 1.0
    ensures HasHighDimension(FractalInsights(levels)) <==> FractalInsights(levels)[0].dimension > 1.8
  {
    var fi := FractalInsights(levels);
    FractalInsightsShape(levels);
    if HasHighDimension(fi) {
      var i :| 0 <= i < |fi| && fi[i].DimensionAbove(1.8);
      assert i == 0;
    }
    if fi[0].dimension > 1.8 {
      assert fi[0].DimensionAbove(1.8);
    }
  }

  /** The complexity recommendation is made exactly when fractal analysis is on and the
      certainty-fractal record exceeds 1.8. */
  lemma {:induction false} ComplexityRecommendationSource(config: EngineConfig, input: AnalysisInput, timestamp: string)
    requires HasStatement(input) || config.maxDepth < 1
    ensures var a := AnalysisSpec(config, input, timestamp).value;
            ComplexityAnalysis in a.recommendations <==>
              config.fractalAnalysis && a.fractalInsights[0].dimension > 1.8
  {
    var bases := LevelBases(StatementComplexity(input));
    LevelBasesShaped(StatementComplexity(input));
    AssembleRecommendation(config, input, timestamp, bases);
  }

  lemma {:induction false} AssembleRecommendation(config: EngineConfig, input: AnalysisInput, timestamp: string, bases: seq<LevelBase>)
    requires BasesShaped(bases)
    ensures var a := Assemble(config, input, timestamp, bases);
            ComplexityAnalysis in a.recommendations <==>
              config.fractalAnalysis && a.fractalInsights[0].dimension > 1.8
  {
    var a := Assemble(config, input, timestamp, bases);
    if config.fractalAnalysis {
      RunStrengths(bases, config.convergenceThreshold, LoopBound(config.maxDepth));
      HighDimensionIsCertainty(a.levels);
    }
  }

  /** Over well-shaped bases every record of a run has a doubt strength in [0.33, 1]. */
  lemma {:induction false} RunStrengths(bases: seq<LevelBase>, threshold: real, bound: int)
    requires BasesShaped(bases)
    requires bound <= |bases|
    ensures var L := Run(bases, threshold, bound).levels;
            forall i :: 0 <= i < |L| ==> 0.33 <= L[i].doubtStrength <= 1.0
  {
    var first := FirstConvergence(bases, threshold, bound);
    var n := if first.Some? then first.value else LevelBudget(bound);
    TraceRecords(bases, n);
  }
}
