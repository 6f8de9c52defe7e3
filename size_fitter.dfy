/** The search for a uniform scale in [0.1, 1.0] at which the merged image's estimated encoded size fits a
    byte budget: a bisection of at most 15 trial encodes that stops once the interval is 0.01 wide or less. */
module SizeFitter {
  import opened Rounding
  import opened Encoding

  const MinScale: real := 0.1
  const MaxScale: real := 1.0
  const MaxIterations: nat := 15
  const Resolution: real := 0.01
  /** The passes the search makes in exact arithmetic: Width(k) first drops to Resolution at k == 7. */
  const Passes: nat := 7

  /** The encoder with format and quality fixed: the base64 length of the picture drawn at width × height. */
  type LengthOracle = (int, int) -> nat

  /** One run of the search: the picture's own dimensions, the encoder and the budget in bytes. */
  datatype Problem = Problem(width: int, height: int, encode: LengthOracle, targetBytes: int)

  /** The variables the search loop updates. */
  datatype Search = Search(minScale: real, maxScale: real, bestScale: real, iterations: nat)

  /** `Math.round(width * scale)` × `Math.round(height * scale)`: each dimension rounded on its own. */
  function ScaledDimensions(width: int, height: int, scale: real): Dimensions {
    Dimensions(Round(width as real * scale), Round(height as real * scale))
  }

  /** The estimated size of one trial encode at `scale`. */
  function TrialSize(p: Problem, scale: real): nat {
    var d := ScaledDimensions(p.width, p.height, scale);
    EstimatedSize(p.encode(d.width, d.height))
  }

  /** A scale fits when its trial encode is within the budget. */
  predicate Fits(p: Problem, scale: real) {
    TrialSize(p, scale) <= p.targetBytes
  }

  function Initial(): Search {
    Search(MinScale, MaxScale, MaxScale, 0)
  }

  /** The loop guard. */
  predicate Continues(s: Search) {
    s.iterations < MaxIterations && s.maxScale - s.minScale > Resolution
  }

  function Midpoint(s: Search): real {
    (s.minScale + s.maxScale) / 2.0
  }

  /** One pass: test the midpoint; too big shrinks the upper end, a fit raises the lower end and is kept. */
  function Step(p: Problem, s: Search): Search {
    var test := Midpoint(s);
    if TrialSize(p, test) > p.targetBytes then
      Search(s.minScale, test, s.bestScale, s.iterations + 1)
    else
      Search(test, s.maxScale, test, s.iterations + 1)
  }

  /** The state the loop leaves when started in `s`. */
  function Run(p: Problem, s: Search): Search
    decreases MaxIterations - s.iterations
  {
    if Continues(s) then Run(p, Step(p, s)) else s
  }

  /** The scales the loop tests, in order, when started in `s`. */
  function Trials(p: Problem, s: Search): seq<real>
    decreases MaxIterations - s.iterations
  {
    if Continues(s) then [Midpoint(s)] + Trials(p, Step(p, s)) else []
  }

  /** What `findScaleForTargetFileSize` returns for a picture of `width` × `height` and a budget in kilobytes. */
  function FittedDimensions(width: int, height: int, targetKB: int, encode: LengthOracle): Dimensions {
    var p := Problem(width, height, encode, targetKB * BytesPerKilobyte);
    ScaledDimensions(width, height, Run(p, Initial()).bestScale)
  }

  /** The width of the search interval after `k` passes: each pass halves it. */
  function Width(k: nat): real {
    if k == 0 then MaxScale - MinScale else Width(k - 1) / 2.0
  }

  function Pow2(k: nat): nat {
    if k == 0 then 1 else 2 * Pow2(k - 1)
  }

  /** After `k` passes the interval is 0.9 / 2^k wide. */
  lemma {:induction false} WidthAfterPasses(k: nat)
    ensures Width(k) * Pow2(k) as real == MaxScale - MinScale
  {
    if k > 0 {
      WidthAfterPasses(k - 1);
      assert Width(k) * Pow2(k) as real == (Width(k - 1) / 2.0) * (2.0 * Pow2(k - 1) as real);
    }
  }

  /** Within the first seven passes the guard's width test holds exactly before the seventh is done. */
  lemma WidthAboveResolution(k: nat)
    requires k <= Passes
    ensures Width(k) > Resolution <==> k < Passes
  {
    assert Width(0) == 0.9;
    assert Width(1) == 0.45;
    assert Width(2) == 0.225;
    assert Width(3) == 0.1125;
    assert Width(4) == 0.05625;
    assert Width(5) == 0.028125;
    assert Width(6) == 0.0140625;
    assert Width(7) == 0.00703125;
  }

  /** What holds of the loop variables at every pass. */
  ghost predicate Inv(s: Search) {
    && MinScale <= s.minScale < s.maxScale <= MaxScale
    && s.iterations <= Passes
    && s.maxScale - s.minScale == Width(s.iterations)
    && (s.bestScale == MaxScale || s.bestScale == s.minScale)
  }

  lemma InitialInv()
    ensures Inv(Initial())
  {
  }

  /** A pass keeps the invariant and tests a scale strictly inside the current interval. */
  lemma StepKeepsInv(p: Problem, s: Search)
    requires Inv(s) && Continues(s)
    ensures Inv(Step(p, s))
    ensures s.minScale < Midpoint(s) < s.maxScale
  {
    WidthAboveResolution(s.iterations);
  }

  /** From any reachable state the search ends after Passes passes in all, its final interval nested in the
      current one, every trial strictly inside the current interval. */
  lemma {:induction false} RunShape(p: Problem, s: Search)
    requires Inv(s)
    ensures Inv(Run(p, s)) && !Continues(Run(p, s))
    ensures Run(p, s).iterations == Passes
    ensures |Trials(p, s)| == Passes - s.iterations
    ensures s.minScale <= Run(p, s).minScale && Run(p, s).maxScale <= s.maxScale
    ensures forall t | t in Trials(p, s) :: s.minScale < t < s.maxScale
    decreases MaxIterations - s.iterations
  {
    WidthAboveResolution(s.iterations);
    if Continues(s) {
      StepKeepsInv(p, s);
      RunShape(p, Step(p, s));
    }
  }

  /** Every trial that fit lies at or below the final lower end; every one that did not, at or above the
      final upper end. */
  lemma {:induction false} RunSeparatesTrials(p: Problem, s: Search)
    requires Inv(s)
    ensures forall t | t in Trials(p, s) ::
      (Fits(p, t) ==> t <= Run(p, s).minScale) && (!Fits(p, t) ==> Run(p, s).maxScale <= t)
    decreases MaxIterations - s.iterations
  {
    if Continues(s) {
      StepKeepsInv(p, s);
      RunSeparatesTrials(p, Step(p, s));
      RunShape(p, Step(p, s));
    }
  }

  /** Where the final values come from: the lower end and the best scale are either both unchanged or the
      best scale is the lower end and a trial that fit; the upper end is unchanged or a trial that did not. */
  lemma {:induction false} RunWitnesses(p: Problem, s: Search)
    requires Inv(s)
    ensures var f := Run(p, s);
      || (f.minScale == s.minScale && f.bestScale == s.bestScale)
      || (f.bestScale == f.minScale && f.minScale in Trials(p, s) && Fits(p, f.minScale))
    ensures var f := Run(p, s);
      f.maxScale == s.maxScale || (f.maxScale in Trials(p, s) && !Fits(p, f.maxScale))
    decreases MaxIterations - s.iterations
  {
    if Continues(s) {
      StepKeepsInv(p, s);
      RunWitnesses(p, Step(p, s));
    }
  }

  /** The search makes exactly Passes trial encodes, well inside the cap of MaxIterations. */
  lemma SearchMakesSevenTrials(p: Problem)
    ensures |Trials(p, Initial())| == Run(p, Initial()).iterations == Passes <= MaxIterations
  {
    InitialInv();
    RunShape(p, Initial());
  }

  /** The returned scale lies in [MinScale, MaxScale], and the final interval is at most Resolution wide. */
  lemma ResultScaleInRange(p: Problem)
    ensures MinScale <= Run(p, Initial()).bestScale <= MaxScale
    ensures Run(p, Initial()).minScale <= Run(p, Initial()).bestScale
    ensures Run(p, Initial()).maxScale - Run(p, Initial()).minScale <= Resolution
  {
    InitialInv();
    RunShape(p, Initial());
    WidthAboveResolution(Passes);
  }

  /** Scaling by at most 1 never enlarges a dimension. */
  lemma ScaleWithin(n: int, scale: real)
    requires 0 <= n && 0.0 <= scale <= 1.0
    ensures 0 <= Round(n as real * scale) <= n
  {
    assert n as real - n as real * scale == n as real * (1.0 - scale);
    assert 0.0 <= n as real * scale;
  }

  /** Scaling both dimensions by at most 1 never enlarges either. */
  lemma ScaledDimensionsWithin(width: int, height: int, scale: real)
    requires 0 <= width && 0 <= height && 0.0 <= scale <= 1.0
    ensures 0 <= ScaledDimensions(width, height, scale).width <= width
    ensures 0 <= ScaledDimensions(width, height, scale).height <= height
  {
    ScaleWithin(width, scale);
    ScaleWithin(height, scale);
  }

  /** The dimensions the search returns are never larger than the picture's own. */
  lemma ResultWithinOriginal(p: Problem)
    requires 0 <= p.width && 0 <= p.height
    ensures var d := ScaledDimensions(p.width, p.height, Run(p, Initial()).bestScale);
      0 <= d.width <= p.width && 0 <= d.height <= p.height
  {
    ResultScaleInRange(p);
    ScaledDimensionsWithin(p.width, p.height, Run(p, Initial()).bestScale);
  }

  /** The best scale is the largest trial that fit; it is the final lower end once any trial fits; it stays
      the initial 1.0 exactly when no trial fits; and every trial that did not fit lies above it. */
  lemma BestScaleIsLargestFittingTrial(p: Problem)
    ensures var f := Run(p, Initial());
      forall t | t in Trials(p, Initial()) ::
        (Fits(p, t) ==> t <= f.bestScale) && (!Fits(p, t) ==> f.maxScale <= t)
    ensures var f := Run(p, Initial());
      (exists t :: t in Trials(p, Initial()) && Fits(p, t)) ==>
        f.bestScale == f.minScale && f.bestScale in Trials(p, Initial()) && Fits(p, f.bestScale)
    ensures (forall t | t in Trials(p, Initial()) :: !Fits(p, t)) <==> Run(p, Initial()).bestScale == MaxScale
  {
    InitialInv();
    RunShape(p, Initial());
    RunSeparatesTrials(p, Initial());
    RunWitnesses(p, Initial());
  }

  /** The encoder never produces a longer payload for a picture that is no larger in either dimension. */
  ghost predicate Monotone(encode: LengthOracle) {
    forall w1, h1, w2, h2 :: 0 <= w1 <= w2 && 0 <= h1 <= h2 ==> encode(w1, h1) <= encode(w2, h2)
  }

  /** With such an encoder a larger scale never gives a smaller trial size. */
  lemma TrialSizeMonotone(p: Problem, smaller: real, larger: real)
    requires Monotone(p.encode) && 0 <= p.width && 0 <= p.height
    requires 0.0 <= smaller <= larger
    ensures TrialSize(p, smaller) <= TrialSize(p, larger)
  {
    assert p.width as real * larger - p.width as real * smaller == p.width as real * (larger - smaller);
    assert p.height as real * larger - p.height as real * smaller == p.height as real * (larger - smaller);
    ScaleWithin(p.width, 0.0);
    assert 0.0 <= p.width as real * smaller && 0.0 <= p.height as real * smaller;
    var d1 := ScaledDimensions(p.width, p.height, smaller);
    var d2 := ScaledDimensions(p.width, p.height, larger);
    RoundMonotone(p.width as real * smaller, p.width as real * larger);
    RoundMonotone(p.height as real * smaller, p.height as real * larger);
    assert p.encode(d1.width, d1.height) <= p.encode(d2.width, d2.height);
    EstimatedSizeMonotone(p.encode(d1.width, d1.height), p.encode(d2.width, d2.height));
  }

  /** With such an encoder no scale in [MinScale, MaxScale] that fits lies more than Resolution above the
      scale the search returns: bisection loses at most one percent of scale. */
  lemma NearOptimalForMonotoneEncoder(p: Problem, scale: real)
    requires Monotone(p.encode) && 0 <= p.width && 0 <= p.height
    requires MinScale <= scale <= MaxScale && Fits(p, scale)
    ensures scale <= Run(p, Initial()).bestScale + Resolution
  {
    var f := Run(p, Initial());
    InitialInv();
    RunShape(p, Initial());
    RunWitnesses(p, Initial());
    ResultScaleInRange(p);
    if f.maxScale != MaxScale && f.maxScale <= scale {
      TrialSizeMonotone(p, f.maxScale, scale);
    }
  }

  /** With such an encoder the search returns a scale that does not fit only when nothing fits from its
      lowest trial (MinScale + Width(Passes), about 0.107) upwards; the scale it then returns is 1.0. */
  lemma OverBudgetResultMeansUnreachable(p: Problem, scale: real)
    requires Monotone(p.encode) && 0 <= p.width && 0 <= p.height
    requires !Fits(p, Run(p, Initial()).bestScale)
    requires MinScale + Width(Passes) <= scale <= MaxScale
    ensures Run(p, Initial()).bestScale == MaxScale
    ensures !Fits(p, scale)
  {
    var f := Run(p, Initial());
    BestScaleIsLargestFittingTrial(p);
    InitialInv();
    RunShape(p, Initial());
    RunWitnesses(p, Initial());
    assert f.minScale == MinScale;
    assert f.maxScale == MinScale + Width(Passes);
    WidthAboveResolution(Passes);
    assert f.maxScale in Trials(p, Initial()) && !Fits(p, f.maxScale);
    TrialSizeMonotone(p, f.maxScale, scale);
  }

  /** `findScaleForTargetFileSize`: bisect the scale of a `width` × `height` picture until its estimated
      encoded size best fits `targetKB` kilobytes, and return the picture's dimensions at that scale.
      `trials` records the scales tested. */
  method FindScaleForTargetFileSize(width: int, height: int, targetKB: int, encode: LengthOracle)
    returns (dims: Dimensions, ghost trials: seq<real>)
    ensures dims == FittedDimensions(width, height, targetKB, encode)
    ensures trials == Trials(Problem(width, height, encode, targetKB * BytesPerKilobyte), Initial())
    ensures |trials| <= MaxIterations
    ensures 0 <= width && 0 <= height ==> 0 <= dims.width <= width && 0 <= dims.height <= height
  {
    var targetBytes := targetKB * BytesPerKilobyte;
    ghost var p := Problem(width, height, encode, targetBytes);
    var minScale := MinScale;
    var maxScale := MaxScale;
    var bestScale := MaxScale;
    var iterations := 0;
    trials := [];
    while iterations < MaxIterations && maxScale - minScale > Resolution
      invariant Run(p, Search(minScale, maxScale, bestScale, iterations)) == Run(p, Initial())
      invariant trials + Trials(p, Search(minScale, maxScale, bestScale, iterations)) == Trials(p, Initial())
      decreases MaxIterations - iterations
    {
      ghost var before := Search(minScale, maxScale, bestScale, iterations);
      var testScale := (minScale + maxScale) / 2.0;
      var test := ScaledDimensions(width, height, testScale);
      var base64Length := encode(test.width, test.height);
      var estimatedSize := EstimatedSize(base64Length);
      if estimatedSize > targetBytes {
        maxScale := testScale;
      } else {
        minScale := testScale;
        bestScale := testScale;
      }
      iterations := iterations + 1;
      assert Step(p, before) == Search(minScale, maxScale, bestScale, iterations);
      assert Trials(p, before) == [testScale] + Trials(p, Step(p, before));
      trials := trials + [testScale];
    }
    assert Run(p, Search(minScale, maxScale, bestScale, iterations)) == Search(minScale, maxScale, bestScale, iterations);
    dims := ScaledDimensions(width, height, bestScale);
    SearchMakesSevenTrials(p);
    ResultScaleInRange(p);
    if 0 <= width && 0 <= height {
      ScaledDimensionsWithin(width, height, bestScale);
    }
  }
}
