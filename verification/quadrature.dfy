/**
 * The Landau density convolved with a Gaussian, computed by a midpoint rule:
 * the window of five Gaussian widths either side of x is cut into 200 equal
 * sub-intervals and the integrand is summed at their midpoints, taken in pairs
 * from both ends towards the middle.
 */
module LandauGauss {
  import opened Densities

  /** (2 pi)^(-1/2) as written. */
  const InvSqrt2Pi: real := 0.3989422804014
  /** Location of the Landau maximum for location parameter 0. */
  const MpShift: real := -0.22278298
  /** Number of convolution steps. */
  const Steps: nat := 200
  /** The window extends this many Gaussian widths either side of x. */
  const SigmaRange: real := 5.0

  datatype LangauParams = LangauParams(width: real, mp: real, area: real, sigma: real)

  /** The Landau location that puts the maximum of the density at mp. */
  function ShiftedMp(par: LangauParams): (mpc: real)
    ensures mpc - par.mp == 0.22278298 * par.width
  { par.mp - MpShift * par.width }

  function WindowLow(x: real, par: LangauParams): real
  { x - SigmaRange * par.sigma }

  function WindowHigh(x: real, par: LangauParams): real
  { x + SigmaRange * par.sigma }

  function StepWidth(x: real, par: LangauParams): real
  { (WindowHigh(x, par) - WindowLow(x, par)) / (Steps as real) }

  /** The window is centred on x, ten Gaussian widths wide, and cut into steps of sigma / 20. */
  lemma Window(x: real, par: LangauParams)
    ensures WindowLow(x, par) + WindowHigh(x, par) == 2.0 * x
    ensures StepWidth(x, par) == par.sigma / 20.0
    ensures WindowHigh(x, par) == WindowLow(x, par) + (Steps as real) * StepWidth(x, par)
  { }

  /** The value summed at node xx: Landau density at xx with location mpc (scaled by its width) times the Gaussian kernel. */
  function Integrand(d: Densities, x: real, width: real, mpc: real, sigma: real, xx: real): real
    requires width != 0.0
  { d.landau(xx, mpc, width) / width * d.gaus(x, xx, sigma) }

  /** The integrand for the parameters par, with the Landau location shifted; it does not depend on the area. */
  function Kernel(d: Densities, x: real, par: LangauParams): real -> real
    requires par.width != 0.0
  { xx => Integrand(d, x, par.width, ShiftedMp(par), par.sigma, xx) }

  /** Left edge of sub-interval j of a grid starting at low. */
  function Edge(low: real, step: real, j: nat): real
  { low + (j as real) * step }

  /** Midpoint of sub-interval j. */
  function Midpoint(low: real, step: real, j: nat): real
  { low + (j as real + 0.5) * step }

  lemma MidpointIsCentre(low: real, step: real, j: nat)
    ensures Edge(low, step, j) < Midpoint(low, step, j) < Edge(low, step, j + 1) || step <= 0.0
    ensures Midpoint(low, step, j) == (Edge(low, step, j) + Edge(low, step, j + 1)) / 2.0
  { }

  /** Sum of f over the midpoints of sub-intervals a .. b-1, in index order. */
  function GridSum(f: real -> real, low: real, step: real, a: nat, b: nat): real
    decreases b - a
  { if b <= a then 0.0 else f(Midpoint(low, step, a)) + GridSum(f, low, step, a + 1, b) }

  lemma {:induction false} GridSumExtend(f: real -> real, low: real, step: real, a: nat, b: nat)
    requires a <= b
    ensures GridSum(f, low, step, a, b + 1) == GridSum(f, low, step, a, b) + f(Midpoint(low, step, b))
    decreases b - a
  {
    if a < b {
      GridSumExtend(f, low, step, a + 1, b);
    }
  }

  lemma {:induction false} GridSumSplit(f: real -> real, low: real, step: real, a: nat, m: nat, b: nat)
    requires a <= m <= b
    ensures GridSum(f, low, step, a, b) == GridSum(f, low, step, a, m) + GridSum(f, low, step, m, b)
    decreases m - a
  {
    if a < m {
      GridSumSplit(f, low, step, a + 1, m, b);
    }
  }

  /**
   * The p-th node the loop visits, p = 0 .. 199: on pass i = p / 2 + 1 it
   * takes xlow + (i - 1/2) step and then xupp - (i - 1/2) step.
   */
  function LoopNode(low: real, high: real, step: real, p: nat): real
  {
    var i := (p / 2 + 1) as real;
    if p % 2 == 0 then low + (i - 0.5) * step else high - (i - 0.5) * step
  }

  /** The sub-interval whose midpoint the p-th visited node is. */
  function NodeIndex(p: nat): (j: nat)
    requires p < Steps
    ensures j < Steps
  { if p % 2 == 0 then p / 2 else Steps - 1 - p / 2 }

  /** The visit at which sub-interval j is taken. */
  function VisitOf(j: nat): (p: nat)
    requires j < Steps
    ensures p < Steps
  { if j < Steps / 2 then 2 * j else 2 * (Steps - 1 - j) + 1 }

  /** Every node the loop visits is a midpoint of the even grid over the window. */
  lemma LoopNodeIsMidpoint(low: real, high: real, step: real, p: nat)
    requires p < Steps && high == low + (Steps as real) * step
    ensures LoopNode(low, high, step, p) == Midpoint(low, step, NodeIndex(p))
  { }

  /** The visits and the sub-intervals correspond one to one: each midpoint is visited exactly once. */
  lemma VisitsAreBijective(p: nat, j: nat)
    requires p < Steps && j < Steps
    ensures NodeIndex(VisitOf(j)) == j
    ensures VisitOf(NodeIndex(p)) == p
    ensures NodeIndex(p) == j <==> VisitOf(j) == p
  { }

  /**
   * The convolution loop as written: a hundred passes, each adding the
   * integrand at one node from the low end and one from the high end.
   */
  method PairedSum(f: real -> real, low: real, high: real) returns (sum: real, step: real)
    ensures step == (high - low) / (Steps as real) && high == low + (Steps as real) * step
    ensures sum == GridSum(f, low, step, 0, Steps)
  {
    step := (high - low) / (Steps as real);
    StepSpan(low, high, step);
    sum := 0.0;
    var i: nat := 1;
    while i <= Steps / 2
      invariant 1 <= i <= Steps / 2 + 1
      invariant sum == GridSum(f, low, step, 0, i - 1) + GridSum(f, low, step, Steps + 1 - i, Steps)
    {
      var lo := f(low + (i as real - 0.5) * step);
      var hi := f(high - (i as real - 0.5) * step);
      PairStep(f, low, high, step, i, sum, lo, hi);
      sum := sum + lo;
      sum := sum + hi;
      i := i + 1;
    }
    GridSumSplit(f, low, step, 0, Steps / 2, Steps);
  }

  lemma StepSpan(low: real, high: real, step: real)
    requires step == (high - low) / (Steps as real)
    ensures high == low + (Steps as real) * step
  { }

  /** One pass of the loop adds the next midpoint from the low end and the next from the high end. */
  lemma PairStep(f: real -> real, low: real, high: real, step: real, i: nat, sum: real, lo: real, hi: real)
    requires 1 <= i <= Steps / 2 && high == low + (Steps as real) * step
    requires sum == GridSum(f, low, step, 0, i - 1) + GridSum(f, low, step, Steps + 1 - i, Steps)
    requires lo == f(low + (i as real - 0.5) * step) && hi == f(high - (i as real - 0.5) * step)
    ensures sum + lo + hi == GridSum(f, low, step, 0, i) + GridSum(f, low, step, Steps - i, Steps)
  {
    PassNodes(low, high, step, i);
    GridSumExtend(f, low, step, 0, i - 1);
  }

  /** Pass i visits nodes 2(i - 1) and 2(i - 1) + 1: the midpoints of sub-intervals i - 1 and Steps - i. */
  lemma PassNodes(low: real, high: real, step: real, i: nat)
    requires 1 <= i <= Steps / 2 && high == low + (Steps as real) * step
    ensures low + (i as real - 0.5) * step == LoopNode(low, high, step, 2 * (i - 1)) == Midpoint(low, step, i - 1)
    ensures high - (i as real - 0.5) * step == LoopNode(low, high, step, 2 * (i - 1) + 1) == Midpoint(low, step, Steps - i)
  {
    LoopNodeIsMidpoint(low, high, step, 2 * (i - 1));
    LoopNodeIsMidpoint(low, high, step, 2 * (i - 1) + 1);
  }

  /** Midpoint sum to integral: area * step * sum / (sigma sqrt(2 pi)). */
  function Normalised(par: LangauParams, step: real, sum: real): real
    requires par.sigma != 0.0
  { par.area * step * sum * InvSqrt2Pi / par.sigma }

  /** The convolution value at x. */
  function Langau(d: Densities, x: real, par: LangauParams): real
    requires par.width != 0.0 && par.sigma != 0.0
  {
    var step := StepWidth(x, par);
    Normalised(par, step, GridSum(Kernel(d, x, par), WindowLow(x, par), step, 0, Steps))
  }

  /** The convolution as langaufun computes it, loop included. */
  method LangauLoop(d: Densities, x: real, par: LangauParams) returns (r: real)
    requires par.width != 0.0 && par.sigma != 0.0
    ensures r == Langau(d, x, par)
  {
    var low, high := WindowLow(x, par), WindowHigh(x, par);
    var sum, step := PairedSum(Kernel(d, x, par), low, high);
    assert step == StepWidth(x, par);
    r := Normalised(par, step, sum);
  }

  /** The convolution is linear in the area parameter. */
  lemma LinearInArea(d: Densities, x: real, par: LangauParams)
    requires par.width != 0.0 && par.sigma != 0.0
    ensures Langau(d, x, par) == par.area * Langau(d, x, par.(area := 1.0))
  {
    var unit := par.(area := 1.0);
    var step := StepWidth(x, par);
    assert StepWidth(x, unit) == step && WindowLow(x, unit) == WindowLow(x, par);
    assert ShiftedMp(unit) == ShiftedMp(par);
    assert Kernel(d, x, unit) == Kernel(d, x, par);
    NormalisedLinear(par, step, GridSum(Kernel(d, x, par), WindowLow(x, par), step, 0, Steps));
  }

  /** LinearInArea with the unit-area parameters named, for callers that build them directly. */
  lemma LinearInAreaAt(d: Densities, x: real, par: LangauParams, unit: LangauParams)
    requires par.width != 0.0 && par.sigma != 0.0 && unit == par.(area := 1.0)
    ensures Langau(d, x, par) == par.area * Langau(d, x, unit)
  {
    LinearInArea(d, x, par);
  }

  lemma NormalisedLinear(par: LangauParams, step: real, sum: real)
    requires par.sigma != 0.0
    ensures Normalised(par, step, sum) == par.area * Normalised(par.(area := 1.0), step, sum)
  { }

  /** A MIP peak of area 0 contributes nothing, whatever the densities. */
  lemma ZeroArea(d: Densities, x: real, par: LangauParams)
    requires par.width != 0.0 && par.sigma != 0.0 && par.area == 0.0
    ensures Langau(d, x, par) == 0.0
  { }
}
