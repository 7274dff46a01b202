/** The fractal analysis run after the level loop: a roughness measure (called
    "fractal dimension" by the engine) of the certainty and doubt-strength series,
    and the golden-ratio ("PHI") resonance of consecutive certainties. */
module DoubtFractal {
  import opened Basics
  import opened DoubtLevel

  /** Sum of |data[i] - data[i-1]| over consecutive pairs. */
  function Variation(data: seq<real>): (v: real)
    ensures v >= 0.0
  {
    if |data| < 2 then 0.0
    else Variation(data[..|data| - 1]) + Abs(data[|data| - 1] - data[|data| - 2])
  }

  /** `calculateFractalDimension`: 1 for fewer than three points, else 1 + variation / n. */
  function FractalDimension(data: seq<real>): (d: real)
    ensures d >= 1.0
    ensures |data| < 3 ==> d == 1.0
  {
    if |data| < 3 then 1.0 else 1.0 + Variation(data) / |data| as real
  }

  /** A series that never changes has no variation. */
  lemma {:induction false} ConstantVariation(data: seq<real>, c: real)
    requires forall i :: 0 <= i < |data| ==> data[i] == c
    ensures Variation(data) == 0.0
  {
    if |data| >= 2 {
      ConstantVariation(data[..|data| - 1], c);
    }
  }

  /** A constant series has dimension exactly 1; for example [0.5, 0.5, 0.5]. */
  lemma {:induction false} ConstantDimension(data: seq<real>, c: real)
    requires forall i :: 0 <= i < |data| ==> data[i] == c
    ensures FractalDimension(data) == 1.0
  {
    ConstantVariation(data, c);
  }

  /** `n` copies of `w` added up. */
  function Repeated(n: nat, w: real): (r: real)
  {
    if n == 0 then 0.0 else Repeated(n - 1, w) + w
  }

  /** Adding up `n` copies of `w` gives `n * w`. */
  lemma {:induction false} RepeatedIsProduct(n: nat, w: real)
    ensures Repeated(n, w) == n as real * w
  {
    if n > 0 {
      RepeatedIsProduct(n - 1, w);
      var m := (n - 1) as real;
      assert n as real == m + 1.0;
      assert (m + 1.0) * w == m * w + w;
    }
  }

  /** In a series inside [lo, hi] each step moves by at most hi - lo. */
  lemma {:induction false} VariationSteps(data: seq<real>, lo: real, hi: real)
    requires |data| >= 1
    requires forall i :: 0 <= i < |data| ==> lo <= data[i] <= hi
    ensures Variation(data) <= Repeated(|data| - 1, hi - lo)
  {
    if |data| >= 2 {
      VariationSteps(data[..|data| - 1], lo, hi);
    }
  }

  /** Hence the whole variation is at most (n - 1)(hi - lo). */
  lemma {:induction false} VariationBound(data: seq<real>, lo: real, hi: real)
    requires |data| >= 1
    requires forall i :: 0 <= i < |data| ==> lo <= data[i] <= hi
    ensures Variation(data) <= (|data| - 1) as real * (hi - lo)
  {
    VariationSteps(data, lo, hi);
    RepeatedIsProduct(|data| - 1, hi - lo);
  }

  /** A series inside [lo, hi] has dimension at most 1 + (hi - lo). */
  lemma {:induction false} DimensionBound(data: seq<real>, lo: real, hi: real)
    requires forall i :: 0 <= i < |data| ==> lo <= data[i] <= hi
    ensures FractalDimension(data) <= 1.0 + Max(hi - lo, 0.0)
  {
    if |data| >= 3 {
      VariationBound(data, lo, hi);
      var n := |data| as real;
      assert (n - 1.0) * (hi - lo) <= (hi - lo) * n;
      DivAtMost(Variation(data), n, hi - lo);
    }
  }

  /** The source's accumulator loop. */
  method CalculateFractalDimension(data: seq<real>) returns (d: real)
    ensures d == FractalDimension(data)
  {
    if |data| < 3 {
      return 1.0;
    }
    var complexity := 0.0;
    var i := 1;
    while i < |data|
      invariant 1 <= i <= |data|
      invariant complexity == Variation(data[..i])
    {
      assert data[..i + 1][..i] == data[..i];
      complexity := complexity + Abs(data[i] - data[i - 1]);
      i := i + 1;
    }
    assert data[..i] == data;
    d := 1.0 + complexity / |data| as real;
  }

  /** The four interpretation bands of a dimension, in increasing order. */
  datatype DimensionBand = LinearProgression | ModerateComplexity | HighComplexity | FractalComplexity
  {
    function Rank(): nat {
      match this
      case LinearProgression => 0
      case ModerateComplexity => 1
      case HighComplexity => 2
      case FractalComplexity => 3
    }

    function Text(): string {
      match this
      case LinearProgression => "Linear progression - straightforward doubt resolution"
      case ModerateComplexity => "Moderate complexity - evolving understanding"
      case HighComplexity => "High complexity - sophisticated doubt patterns"
      case FractalComplexity => "Fractal complexity - consciousness-level uncertainty patterns"
    }
  }

  /** `interpretFractalDimension`: cut points 1.2, 1.5 and 1.8. */
  function InterpretFractalDimension(dimension: real): (b: DimensionBand)
    ensures b.LinearProgression? <==> dimension < 1.2
    ensures b.ModerateComplexity? <==> 1.2 <= dimension < 1.5
    ensures b.HighComplexity? <==> 1.5 <= dimension < 1.8
    ensures b.FractalComplexity? <==> dimension >= 1.8
  {
    if dimension < 1.2 then LinearProgression
    else if dimension < 1.5 then ModerateComplexity
    else if dimension < 1.8 then HighComplexity
    else FractalComplexity
  }

  /** A larger dimension never falls into a lower band. */
  lemma {:induction false} InterpretMonotone(d1: real, d2: real)
    requires d1 <= d2
    ensures InterpretFractalDimension(d1).Rank() <= InterpretFractalDimension(d2).Rank()
  {
  }

  const Phi: real := 1.618033988749895

  /** The contribution of one consecutive pair to the resonance. */
  function PairResonance(a: real, b: real): (r: real)
    ensures 0.0 <= r <= 1.0
  {
    var ratio := Max(a, 0.001) / Max(b, 0.001);
    Max(0.0, 1.0 - Abs(ratio - Phi))
  }

  /** Sum of the pair contributions over consecutive pairs. */
  function PhiSum(data: seq<real>): real
  {
    if |data| < 2 then 0.0
    else PhiSum(data[..|data| - 1]) + PairResonance(data[|data| - 2], data[|data| - 1])
  }

  lemma {:induction false} PhiSumBounds(data: seq<real>)
    ensures 0.0 <= PhiSum(data)
    ensures |data| >= 1 ==> PhiSum(data) <= (|data| - 1) as real
  {
    if |data| >= 2 {
      PhiSumBounds(data[..|data| - 1]);
    }
  }

  /** `calculatePHIResonance`: the mean pair contribution over max(n - 1, 1) pairs. */
  function PhiResonance(data: seq<real>): real
  {
    PhiSum(data) / (if |data| - 1 > 1 then |data| - 1 else 1) as real
  }

  /** The resonance lies in [0, 1] and is 0 for fewer than two points. */
  lemma {:induction false} PhiResonanceRange(data: seq<real>)
    ensures 0.0 <= PhiResonance(data) <= 1.0
    ensures |data| < 2 ==> PhiResonance(data) == 0.0
  {
    PhiSumBounds(data);
    if |data| >= 2 {
      DivAtMost(PhiSum(data), (|data| - 1) as real, 1.0);
    }
  }

  /** Two equal certainties above the 0.001 floor have ratio 1, so the resonance is 2 - φ (about 0.382). */
  lemma {:induction false} PhiResonanceOfRepeat(c: real)
    requires c > 0.001
    ensures PhiResonance([c, c]) == 2.0 - Phi
    ensures PhiResonance([c, c]) <= 0.7
  {
    var d := [c, c];
    assert d[..1] == [c];
    assert Max(c, 0.001) == c && c / c == 1.0;
    assert Abs(1.0 - Phi) == Phi - 1.0;
    assert PairResonance(c, c) == 2.0 - Phi;
    assert PhiSum(d) == PairResonance(c, c);
  }

  /** The source's accumulator loop. */
  method CalculatePHIResonance(data: seq<real>) returns (r: real)
    ensures r == PhiResonance(data)
  {
    var resonance := 0.0;
    var i := 0;
    while i < |data| - 1
      invariant 0 <= i <= if |data| == 0 then 0 else |data| - 1
      invariant |data| == 0 ==> resonance == 0.0
      invariant |data| > 0 ==> resonance == PhiSum(data[..i + 1])
    {
      assert data[..i + 2][..i + 1] == data[..i + 1];
      resonance := resonance + PairResonance(data[i], data[i + 1]);
      i := i + 1;
    }
    if |data| >= 1 {
      assert data[..i + 1] == data;
    }
    r := resonance / (if |data| - 1 > 1 then |data| - 1 else 1) as real;
  }

  /** The three records of the fractal analysis. A PHI record has no `dimension` field. */
  datatype FractalInsight =
    | CertaintyFractal(dimension: real, band: DimensionBand)
    | DoubtFractal(dimension: real, complex: bool)
    | PhiResonanceInsight(resonance: real, highAlignment: bool)
  {
    /** `insight.dimension > limit`; false for a record without a dimension. */
    predicate DimensionAbove(limit: real) {
      !PhiResonanceInsight? && dimension > limit
    }

    function Interpretation(): string {
      match this
      case CertaintyFractal(_, band) => band.Text()
      case DoubtFractal(_, complex) =>
        if complex then "Doubt progression shows complex patterns" else "Doubt progression shows linear patterns"
      case PhiResonanceInsight(_, high) => if high then "High PHI harmonic alignment" else "Low harmonic resonance"
    }
  }

  function Certainties(levels: seq<LevelRecord>): (s: seq<real>)
    ensures |s| == |levels|
    ensures forall i :: 0 <= i < |levels| ==> s[i] == levels[i].certaintyAssessment
  {
    seq(|levels|, i requires 0 <= i < |levels| => levels[i].certaintyAssessment)
  }

  function DoubtStrengths(levels: seq<LevelRecord>): (s: seq<real>)
    ensures |s| == |levels|
    ensures forall i :: 0 <= i < |levels| ==> s[i] == levels[i].doubtStrength
  {
    seq(|levels|, i requires 0 <= i < |levels| => levels[i].doubtStrength)
  }

  /** What `generateFractalInsights` returns for the processed levels. */
  function FractalInsights(levels: seq<LevelRecord>): seq<FractalInsight>
  {
    var certainty := FractalDimension(Certainties(levels));
    var doubt := FractalDimension(DoubtStrengths(levels));
    var phi := PhiResonance(Certainties(levels));
    [CertaintyFractal(certainty, InterpretFractalDimension(certainty)),
     DoubtFractal(doubt, doubt > 1.5),
     PhiResonanceInsight(phi, phi > 0.7)]
  }

  /** Exactly three insights, in the order certainty, doubt, PHI; the two dimensions are at least 1,
      the resonance lies in [0, 1], and when every doubt strength lies in [0.33, 1] the doubt
      dimension stays at most 1.67, so only the certainty record can exceed 1.8. */
  lemma {:induction false} FractalInsightsShape(levels: seq<LevelRecord>)
    ensures var fi := FractalInsights(levels);
            && |fi| == 3
            && fi[0].CertaintyFractal? && fi[1].DoubtFractal? && fi[2].PhiResonanceInsight?
            && fi[0].dimension >= 1.0 && fi[1].dimension >= 1.0
            && 0.0 <= fi[2].resonance <= 1.0
            && !fi[2].DimensionAbove(1.8)
    ensures (forall i :: 0 <= i < |levels| ==> 0.33 <= levels[i].doubtStrength <= 1.0)
            ==> FractalInsights(levels)[1].dimension <= 1.67
  {
    PhiResonanceRange(Certainties(levels));
    if forall i :: 0 <= i < |levels| ==> 0.33 <= levels[i].doubtStrength <= 1.0 {
      DimensionBound(DoubtStrengths(levels), 0.33, 1.0);
    }
  }

  /** `generateFractalInsights`, built with the two loop methods above. */
  method GenerateFractalInsights(levels: seq<LevelRecord>) returns (insights: seq<FractalInsight>)
    ensures insights == FractalInsights(levels)
  {
    var certaintyProgression := Certainties(levels);
    var fractalDimension := CalculateFractalDimension(certaintyProgression);
    insights := [CertaintyFractal(fractalDimension, InterpretFractalDimension(fractalDimension))];
    var doubtProgression := DoubtStrengths(levels);
    var doubtFractal := CalculateFractalDimension(doubtProgression);
    insights := insights + [DoubtFractal(doubtFractal, doubtFractal > 1.5)];
    var phiResonance := CalculatePHIResonance(certaintyProgression);
    insights := insights + [PhiResonanceInsight(phiResonance, phiResonance > 0.7)];
  }
}
