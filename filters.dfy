/**
 * The low-pass filters that smooth fingertip positions: the exponential base
 * filter (FBaseLowpassFilter), the fixed-cutoff filter built on it
 * (FSimpleLowpassFilter) and the adaptive one-euro filter
 * (FOneEuroLowpassFilter). Vectors are triples of reals.
 */
module LowpassFilters {

  /** FVector */
  datatype Vec3 = Vec3(x: real, y: real, z: real)

  const ZERO := Vec3(0.0, 0.0, 0.0)

  /** PI and TWO_PI as the engine defines them. */
  const PI: real := 3.1415926535897932
  const TWO_PI: real := 6.28318530717958647692

  /** FVector(F): the same value in every component. */
  function Splat(f: real): Vec3 {
    Vec3(f, f, f)
  }

  function Abs(f: real): (r: real)
    ensures r >= 0.0 && (r == f || r == -f)
  {
    if f < 0.0 then -f else f
  }

  /** `Alpha * In + (OneVector - Alpha) * Prev`, component by component. */
  function Blend(alpha: Vec3, input: Vec3, prev: Vec3): Vec3 {
    Vec3(Mix(alpha.x, input.x, prev.x), Mix(alpha.y, input.y, prev.y), Mix(alpha.z, input.z, prev.z))
  }

  /** One component of the blend: `a * input + (1 - a) * prev`. */
  function Mix(a: real, input: real, prev: real): real {
    a * input + (1.0 - a) * prev
  }

  predicate InUnitRange(a: Vec3) {
    0.0 <= a.x <= 1.0 && 0.0 <= a.y <= 1.0 && 0.0 <= a.z <= 1.0
  }

  /** `a` is at most as far from `b` as `c` is. */
  predicate NoFarther(a: real, c: real, b: real) {
    Abs(a - b) <= Abs(c - b)
  }

  /** Each component's distance from `b` is at most the corresponding one of `c`. */
  predicate NoFartherFrom(a: Vec3, c: Vec3, b: Vec3) {
    NoFarther(a.x, c.x, b.x) && NoFarther(a.y, c.y, b.y) && NoFarther(a.z, c.z, b.z)
  }

  /** The fields of a base filter as a value. */
  datatype FilterState = FilterState(previous: Vec3, previousRaw: Vec3, firstTime: bool)

  /** What FBaseLowpassFilter::Filter returns from state `s`. */
  function BaseOutput(s: FilterState, input: Vec3, alpha: Vec3): Vec3 {
    if s.firstTime then input else Blend(alpha, input, s.previous)
  }

  /** The base filter's state after Filter: the output becomes Previous, the input PreviousRaw. */
  function BaseNext(s: FilterState, input: Vec3, alpha: Vec3): FilterState {
    FilterState(BaseOutput(s, input, alpha), input, false)
  }

  /** FBaseLowpassFilter */
  class BaseLowpassFilter {
    var previous: Vec3
    var previousRaw: Vec3
    var firstTime: bool

    function State(): FilterState
      reads this
    {
      FilterState(previous, previousRaw, firstTime)
    }

    /** PreviousRaw is left uninitialised: the first Filter call never reads it. */
    constructor ()
      ensures previous == ZERO && firstTime
    {
      previous := ZERO;
      previousRaw := *;
      firstTime := true;
    }

    method Filter(inValue: Vec3, alpha: Vec3) returns (result: Vec3)
      modifies this
      ensures result == BaseOutput(old(State()), inValue, alpha)
      ensures State() == BaseNext(old(State()), inValue, alpha)
    {
      if firstTime {
        result := inValue;
        firstTime := false;
      } else {
        result := Blend(alpha, inValue, previous);
      }

      previous := result;
      previousRaw := inValue;
    }

    /** Only re-arms the pass-through; Previous and PreviousRaw are kept. */
    method Reset()
      modifies `firstTime
      ensures firstTime
    {
      firstTime := true;
    }
  }

  /** `1 - Exp(-dt * TWO_PI * cutoff)`, with the engine's Exp supplied. */
  function SimpleAlpha(deltaTime: real, cutoff: real, exp: real -> real): real {
    1.0 - exp(-deltaTime * TWO_PI * cutoff)
  }

  /** FSimpleLowpassFilter */
  class SimpleLowpassFilter {
    var cutoff: real
    const baseFilter: BaseLowpassFilter

    constructor ()
      ensures cutoff == 1.0 && fresh(baseFilter) && baseFilter.firstTime && baseFilter.previous == ZERO
    {
      cutoff := 1.0;
      baseFilter := new BaseLowpassFilter();
    }

    constructor WithCutoff(inCutoff: real)
      ensures cutoff == inCutoff && fresh(baseFilter) && baseFilter.firstTime && baseFilter.previous == ZERO
    {
      cutoff := inCutoff;
      baseFilter := new BaseLowpassFilter();
    }

    /** One alpha for all three components. */
    method Filter(inValue: Vec3, inDeltaTime: real, exp: real -> real) returns (r: Vec3)
      modifies baseFilter
      ensures r == BaseOutput(old(baseFilter.State()), inValue, Splat(SimpleAlpha(inDeltaTime, cutoff, exp)))
      ensures baseFilter.State() == BaseNext(old(baseFilter.State()), inValue, Splat(SimpleAlpha(inDeltaTime, cutoff, exp)))
      ensures GetOutput() == r
    {
      var alpha := SimpleAlpha(inDeltaTime, cutoff, exp);
      r := baseFilter.Filter(inValue, Splat(alpha));
    }

    function GetOutput(): (r: Vec3)
      reads this, baseFilter
    {
      baseFilter.previous
    }

    method Reset()
      modifies baseFilter`firstTime
      ensures baseFilter.firstTime
    {
      baseFilter.Reset();
    }
  }

  /**
   * CalculateAlphaTau for one component: tau = 1 / (2 PI cutoff) and
   * alpha = 1 / (1 + tau / dt). A zero cutoff makes tau infinite and alpha 0.
   */
  function AlphaTau(cutoff: real, deltaTime: real): (alpha: real)
    requires deltaTime > 0.0
    ensures cutoff >= 0.0 ==> 0.0 <= alpha < 1.0
    ensures cutoff > 0.0 ==> 0.0 < alpha
  {
    if cutoff == 0.0 then 0.0
    else
      var tau := 1.0 / (2.0 * PI * cutoff);
      var denominator := 1.0 + tau / deltaTime;
      if denominator == 0.0 then 0.0
      else
        assert cutoff > 0.0 ==> tau > 0.0 && tau / deltaTime > 0.0 && denominator > 1.0;
        1.0 / denominator
  }

  function AlphaTauVec(cutoff: Vec3, deltaTime: real): (alpha: Vec3)
    requires deltaTime > 0.0
    ensures cutoff.x >= 0.0 && cutoff.y >= 0.0 && cutoff.z >= 0.0 ==> InUnitRange(alpha)
  {
    Vec3(AlphaTau(cutoff.x, deltaTime), AlphaTau(cutoff.y, deltaTime), AlphaTau(cutoff.z, deltaTime))
  }

  /** The speed fed to the derivative filter: zero on the first sample, else the finite difference. */
  function DerivativeEstimate(firstTime: bool, input: Vec3, previousRaw: Vec3, deltaTime: real): (d: Vec3)
    requires deltaTime > 0.0
    ensures firstTime ==> d == ZERO
    ensures !firstTime ==> d.x * deltaTime == input.x - previousRaw.x
    ensures !firstTime ==> d.y * deltaTime == input.y - previousRaw.y
    ensures !firstTime ==> d.z * deltaTime == input.z - previousRaw.z
  {
    if firstTime then ZERO
    else Vec3((input.x - previousRaw.x) * 1.0 / deltaTime,
              (input.y - previousRaw.y) * 1.0 / deltaTime,
              (input.z - previousRaw.z) * 1.0 / deltaTime)
  }

  /** CalculateCutoff: MinCutoff plus CutoffSlope times the speed's magnitude, per component. */
  function Cutoff(minCutoff: real, cutoffSlope: real, v: Vec3): (c: Vec3)
    ensures cutoffSlope >= 0.0 ==> c.x >= minCutoff && c.y >= minCutoff && c.z >= minCutoff
    ensures cutoffSlope >= 0.0 && minCutoff >= 0.0 ==> c.x >= 0.0 && c.y >= 0.0 && c.z >= 0.0
  {
    Vec3(minCutoff + cutoffSlope * Abs(v.x), minCutoff + cutoffSlope * Abs(v.y), minCutoff + cutoffSlope * Abs(v.z))
  }

  /** FOneEuroLowpassFilter */
  class OneEuroLowpassFilter {
    var minCutoff: real
    var deltaCutoff: real
    var cutoffSlope: real
    const rawFilter: BaseLowpassFilter
    const deltaFilter: BaseLowpassFilter

    constructor ()
      ensures minCutoff == 0.9 && deltaCutoff == 1.0 && cutoffSlope == 0.007
      ensures fresh(rawFilter) && fresh(deltaFilter) && rawFilter != deltaFilter
      ensures rawFilter.firstTime && deltaFilter.firstTime
    {
      minCutoff := 0.9;
      deltaCutoff := 1.0;
      cutoffSlope := 0.007;
      rawFilter := new BaseLowpassFilter();
      deltaFilter := new BaseLowpassFilter();
    }

    constructor WithParameters(inMinCutoff: real, inCutoffSlope: real, inDeltaCutoff: real)
      ensures minCutoff == inMinCutoff && deltaCutoff == inDeltaCutoff && cutoffSlope == inCutoffSlope
      ensures fresh(rawFilter) && fresh(deltaFilter) && rawFilter != deltaFilter
      ensures rawFilter.firstTime && deltaFilter.firstTime
    {
      minCutoff := inMinCutoff;
      deltaCutoff := inDeltaCutoff;
      cutoffSlope := inCutoffSlope;
      rawFilter := new BaseLowpassFilter();
      deltaFilter := new BaseLowpassFilter();
    }

    function CalculateCutoff(inValue: Vec3): (c: Vec3)
      reads this
      ensures cutoffSlope >= 0.0 ==> c.x >= minCutoff && c.y >= minCutoff && c.z >= minCutoff
    {
      Cutoff(minCutoff, cutoffSlope, inValue)
    }

    method Filter(inValue: Vec3, inDeltaTime: real) returns (r: Vec3)
      requires rawFilter != deltaFilter
      modifies rawFilter, deltaFilter
      ensures inDeltaTime <= 0.0 ==> r == inValue && unchanged(rawFilter, deltaFilter)
      ensures inDeltaTime > 0.0 ==>
        var raw, del := old(rawFilter.State()), old(deltaFilter.State());
        var delta := DerivativeEstimate(raw.firstTime, inValue, raw.previousRaw, inDeltaTime);
        var deltaAlpha := AlphaTauVec(Splat(deltaCutoff), inDeltaTime);
        var estimated := BaseOutput(del, delta, deltaAlpha);
        var alpha := AlphaTauVec(Cutoff(minCutoff, cutoffSlope, estimated), inDeltaTime);
        && deltaFilter.State() == BaseNext(del, delta, deltaAlpha)
        && r == BaseOutput(raw, inValue, alpha)
        && rawFilter.State() == BaseNext(raw, inValue, alpha)
      ensures inDeltaTime > 0.0 ==> GetOutput() == r
      ensures inDeltaTime > 0.0 && minCutoff >= 0.0 && cutoffSlope >= 0.0 && !old(rawFilter.firstTime) ==>
        NoFartherFrom(r, old(rawFilter.previous), inValue)
    {
      if inDeltaTime <= 0.0 {
        return inValue;
      }

      var delta := if rawFilter.firstTime then ZERO
                   else Vec3((inValue.x - rawFilter.previousRaw.x) * 1.0 / inDeltaTime,
                             (inValue.y - rawFilter.previousRaw.y) * 1.0 / inDeltaTime,
                             (inValue.z - rawFilter.previousRaw.z) * 1.0 / inDeltaTime);

      var estimated := deltaFilter.Filter(delta, AlphaTauVec(Splat(deltaCutoff), inDeltaTime));
      var cutoff := CalculateCutoff(estimated);

      var alpha := AlphaTauVec(cutoff, inDeltaTime);
      if minCutoff >= 0.0 && cutoffSlope >= 0.0 && !rawFilter.firstTime {
        BlendApproachesInput(alpha, inValue, rawFilter.previous);
      }
      r := rawFilter.Filter(inValue, alpha);
    }

    /** The smoothed position: the raw filter's Previous, not the derivative filter's. */
    function GetOutput(): (r: Vec3)
      reads this, rawFilter
    {
      rawFilter.previous
    }

    method Reset()
      requires rawFilter != deltaFilter
      modifies rawFilter`firstTime, deltaFilter`firstTime
      ensures rawFilter.firstTime && deltaFilter.firstTime
    {
      rawFilter.Reset();
      deltaFilter.Reset();
    }
  }

  /** Scaling by a factor in [0, 1] does not increase a magnitude. */
  lemma ShrinkingScale(a: real, d: real)
    requires 0.0 <= a <= 1.0
    ensures Abs((1.0 - a) * d) <= Abs(d)
  {
    assert (1.0 - a) * d == d - a * d;
    if d >= 0.0 {
      assert 0.0 <= a * d <= d;
    } else {
      assert d <= a * d <= 0.0;
    }
  }

  /** One component of a blend lies between the input and the previous value. */
  lemma BlendComponentApproaches(a: real, input: real, prev: real)
    requires 0.0 <= a <= 1.0
    ensures NoFarther(Mix(a, input, prev), prev, input)
  {
    assert Mix(a, input, prev) - input == (1.0 - a) * (prev - input);
    ShrinkingScale(a, prev - input);
  }

  /** With alpha in [0, 1] and a constant input, one filter step moves no component away from the input. */
  lemma BlendApproachesInput(alpha: Vec3, input: Vec3, prev: Vec3)
    requires InUnitRange(alpha)
    ensures NoFartherFrom(Blend(alpha, input, prev), prev, input)
  {
    BlendComponentApproaches(alpha.x, input.x, prev.x);
    BlendComponentApproaches(alpha.y, input.y, prev.y);
    BlendComponentApproaches(alpha.z, input.z, prev.z);
  }

  /** The outputs of a base filter fed `n` times with the same input and the given alphas. */
  function Outputs(s: FilterState, input: Vec3, alphas: seq<Vec3>): (outs: seq<Vec3>)
    ensures |outs| == |alphas|
    decreases |alphas|
  {
    if |alphas| == 0 then []
    else [BaseOutput(s, input, alphas[0])] + Outputs(BaseNext(s, input, alphas[0]), input, alphas[1..])
  }

  /**
   * Fed a constant input with every alpha component in [0, 1], the base filter
   * is exact from the first sample after a reset, and otherwise each output is
   * no farther from the input, component by component, than the one before.
   */
  lemma {:induction false} ConstantInputNeverRecedes(s: FilterState, input: Vec3, alphas: seq<Vec3>)
    requires forall k :: 0 <= k < |alphas| ==> InUnitRange(alphas[k])
    ensures var outs := Outputs(s, input, alphas);
      && (s.firstTime && |alphas| > 0 ==> outs[0] == input)
      && (!s.firstTime && |alphas| > 0 ==> NoFartherFrom(outs[0], s.previous, input))
      && forall k :: 0 < k < |outs| ==> NoFartherFrom(outs[k], outs[k - 1], input)
    decreases |alphas|
  {
    if |alphas| > 0 {
      var outs := Outputs(s, input, alphas);
      var next := BaseNext(s, input, alphas[0]);
      var rest := Outputs(next, input, alphas[1..]);
      assert outs == [outs[0]] + rest;
      if !s.firstTime {
        BlendApproachesInput(alphas[0], input, s.previous);
      }
      ConstantInputNeverRecedes(next, input, alphas[1..]);
      if |rest| > 0 {
        assert next.previous == outs[0] && !next.firstTime;
        assert NoFartherFrom(rest[0], outs[0], input);
      }
      forall k | 1 < k < |outs|
        ensures NoFartherFrom(outs[k], outs[k - 1], input)
      {
        assert outs[k] == rest[k - 1] && outs[k - 1] == rest[k - 2];
      }
    }
  }

  /** After Reset the next output is the input itself, whatever the filter held. */
  lemma ResetMakesNextSampleExact(s: FilterState, input: Vec3, alpha: Vec3)
    ensures BaseOutput(s.(firstTime := true), input, alpha) == input
    ensures BaseNext(s.(firstTime := true), input, alpha) == FilterState(input, input, false)
  {
  }
}
