/**
 * The six-stage fit of one channel's spectrum.  Each stage fixes some
 * parameters, frees the others with a starting value, bounds every parameter
 * and restricts the fit to a window; the values fixed and the bounds come from
 * seed constants or from the previous stage's result.  The minimiser itself
 * is a parameter: any function from a stage to a parameter vector.
 */
module StagedFit {
  import opened Densities
  import opened Spectrum

  /** A parameter is either fixed to a value or free, starting from a value. */
  datatype Param = Fixed(value: real) | Free(start: real)

  datatype Bounds = Bounds(lo: real, hi: real)

  /** An interval of the x axis: the fit function's domain or the fitted window. */
  datatype Interval = Interval(lo: real, hi: real)

  datatype Stage = Stage(shape: Shape, params: seq<Param>, bounds: seq<Bounds>, domain: Interval, window: Interval)

  /** Starting values set0 .. set13. */
  const Seeds: seq<real> := [4900.0, 8.0, 140.0, 2000.0, 5.0, 5000.0, 0.15, 140.0, 15.0, 0.05, 0.0, 0.0, 50.0, 100.0]
  /** Lower limits min0 .. min13. */
  const Minima: seq<real> := [4500.0, 2.0, 0.0, 0.0, 0.0, 3000.0, 0.05, 140.0, 12.0, 0.02, 0.0, 0.0, 1.0, 1.0]
  /** Upper limits max0 .. max13. */
  const Maxima: seq<real> := [5300.0, 10.0, 200.0, 2000.0, 10.0, 6000.0, 0.3, 150.0, 18.0, 0.06, 1.0, 1.0, 150.0, 200.0]
  /** The value the pedestal and photoelectron amplitudes are pinned to while they are not being fitted. */
  const Pinned: real := 0.01

  /** Number of parameters without and with the MIP peak. */
  const SpectrumParamCount: nat := 10
  const MipParamCount: nat := 14

  const ThreePeaks: Shape := Shape(3, false)
  const SixPeaks: Shape := Shape(6, false)
  const SixPeaksMip: Shape := Shape(6, true)

  function TableBounds(n: nat): (b: seq<Bounds>)
    requires n <= MipParamCount
    ensures |b| == n && forall i :: 0 <= i < n ==> b[i] == Bounds(Minima[i], Maxima[i])
  { seq(n, i requires 0 <= i < n => Bounds(Minima[i], Maxima[i])) }

  /** Every seed lies inside the table interval of its parameter, so each stage that starts a parameter from its seed starts it within bounds. */
  lemma SeedsWithinBounds()
    ensures forall i :: 0 <= i < MipParamCount ==> TableBounds(MipParamCount)[i].lo <= Seeds[i] <= TableBounds(MipParamCount)[i].hi
  { }

  /** Background only: the background amplitude and width are fitted, everything else fixed. */
  function Stage0(): Stage
  {
    Stage(ThreePeaks,
      [Fixed(Pinned), Fixed(Seeds[1]), Fixed(Seeds[2]), Free(Seeds[3]), Free(Seeds[4]),
       Fixed(Pinned), Fixed(Seeds[6]), Fixed(Seeds[7]), Fixed(Seeds[8]), Fixed(Seeds[9])],
      TableBounds(SpectrumParamCount), Interval(0.0, 1000.0), Interval(0.0, 1000.0))
  }

  /** Pedestal: amplitude, width and position fitted, background fixed to stage 0's result. */
  function Stage1(r0: seq<real>): Stage
    requires |r0| == SpectrumParamCount
  {
    Stage(ThreePeaks,
      [Free(Seeds[0]), Free(Seeds[1]), Free(Seeds[2]), Fixed(r0[3]), Fixed(r0[4]),
       Fixed(Pinned), Fixed(Seeds[6]), Fixed(Seeds[7]), Fixed(Seeds[8]), Fixed(Seeds[9])],
      TableBounds(SpectrumParamCount), Interval(130.0, 160.0), Interval(130.0, 160.0))
  }

  /** Photoelectron peaks: pedestal fixed to stage 1's result, the window starting at the fitted pedestal. */
  function Stage2(r1: seq<real>): Stage
    requires |r1| == SpectrumParamCount
  {
    Stage(ThreePeaks,
      [Fixed(r1[0]), Fixed(r1[1]), Fixed(r1[2]), Free(r1[3]), Free(r1[4]),
       Free(Seeds[5]), Free(Seeds[6]), Free(Seeds[7]), Free(Seeds[8]), Free(Seeds[9])],
      TableBounds(SpectrumParamCount), Interval(140.0, 500.0), Interval(r1[2], 450.0))
  }

  /** Stage 3's bound for parameter i around the previous value v. */
  function FineBounds(i: nat, v: real): Bounds
  {
    if i == 3 || i == 4 then Bounds(0.5 * v, v)
    else if i == 7 then Bounds(0.85 * v, 1.5 * v)
    else Bounds(0.5 * v, 1.5 * v)
  }

  /** Six peaks: p0 .. p5 fixed to stage 2's result, p6 .. p9 refined within bounds around it. */
  function Stage3(r2: seq<real>): Stage
    requires |r2| == SpectrumParamCount
  {
    Stage(SixPeaks,
      seq(SpectrumParamCount, i requires 0 <= i < SpectrumParamCount => if i < 6 then Fixed(r2[i]) else Free(r2[i])),
      seq(SpectrumParamCount, i requires 0 <= i < SpectrumParamCount => FineBounds(i, r2[i])),
      Interval(300.0, 1000.0), Interval(450.0, 1000.0))
  }

  /** MIP peak: the whole spectrum fixed to stage 3's result, the MIP parameters fixed to their seeds. */
  function Stage4(r3: seq<real>): Stage
    requires |r3| == SpectrumParamCount
  {
    Stage(SixPeaksMip,
      seq(MipParamCount, i requires 0 <= i < MipParamCount => if i < SpectrumParamCount then Fixed(r3[i]) else Fixed(Seeds[i])),
      TableBounds(MipParamCount), Interval(130.0, 1000.0), Interval(r3[2], 1000.0))
  }

  /** Stage 5's bound for parameter i around the previous value v. */
  function FinalBounds(i: nat, v: real): Bounds
  {
    if i == 3 || i == 4 || i == 8 then Bounds(0.95 * v, v) else Bounds(0.95 * v, 1.05 * v)
  }

  /** Final tuning: the spectrum refined within tight bounds, the MIP parameters fixed to stage 4's result. */
  function Stage5(r4: seq<real>): Stage
    requires |r4| == MipParamCount
  {
    Stage(SixPeaksMip,
      seq(MipParamCount, i requires 0 <= i < MipParamCount => if i < SpectrumParamCount then Free(r4[i]) else Fixed(r4[i])),
      seq(MipParamCount, i requires 0 <= i < MipParamCount => FinalBounds(i, r4[i])),
      Interval(350.0, 1000.0), Interval(r4[2], 1500.0))
  }

  /** A minimiser returns one value per parameter of the stage it is given. */
  ghost predicate Sized(fit: Stage -> seq<real>)
  { forall st: Stage :: |fit(st)| == |st.params| }

  /** A minimiser leaves every fixed parameter at its fixed value. */
  ghost predicate KeepsFixed(fit: Stage -> seq<real>)
  {
    forall st: Stage, i: int :: 0 <= i < |st.params| && i < |fit(st)| && st.params[i].Fixed? ==> fit(st)[i] == st.params[i].value
  }

  /**
   * A minimiser keeps every free parameter inside its bounds whenever they
   * form an interval of positive width.  The fitter leaves a parameter with
   * limits (0, 0) free and fixes one whose nonzero limits have lo >= hi;
   * KeepsBounds constrains neither case, so it assumes less than the fitter.
   */
  ghost predicate KeepsBounds(fit: Stage -> seq<real>)
  {
    forall st: Stage, i: int :: 0 <= i < |st.params| && i < |st.bounds| && i < |fit(st)| && st.params[i].Free? && st.bounds[i].lo < st.bounds[i].hi ==>
      st.bounds[i].lo <= fit(st)[i] <= st.bounds[i].hi
  }

  datatype Chain = Chain(stages: seq<Stage>, results: seq<seq<real>>)

  /** The six fits in order, each built from the previous one's result. */
  function RunChain(fit: Stage -> seq<real>): (c: Chain)
    requires Sized(fit)
    ensures |c.stages| == 6 && |c.results| == 6
    ensures forall k :: 0 <= k < 6 ==> c.results[k] == fit(c.stages[k])
  {
    var s0 := Stage0();
    var r0 := fit(s0);
    var s1 := Stage1(r0);
    var r1 := fit(s1);
    var s2 := Stage2(r1);
    var r2 := fit(s2);
    var s3 := Stage3(r2);
    var r3 := fit(s3);
    var s4 := Stage4(r3);
    var r4 := fit(s4);
    var s5 := Stage5(r4);
    var r5 := fit(s5);
    Chain([s0, s1, s2, s3, s4, s5], [r0, r1, r2, r3, r4, r5])
  }

  /** The per-channel record: pedestal, mean photoelectron count, gain and crosstalk probability. */
  datatype TreeVars = TreeVars(ped: real, meanPE: real, gain: real, ctProb: real)

  function Output(fit: Stage -> seq<real>): (v: TreeVars)
    requires Sized(fit)
    ensures var r := RunChain(fit).results[5];
      v.ped == r[2] && v.meanPE == r[6] && v.gain == r[7] && v.ctProb == r[9]
  {
    var r := RunChain(fit).results[5];
    TreeVars(r[2], r[6], r[7], r[9])
  }

  /** The stages use the 3-peak spectrum for fits 0 to 2, the 6-peak one for fit 3 and the 6-peak one with the MIP peak for fits 4 and 5. */
  lemma StageShapes(fit: Stage -> seq<real>)
    requires Sized(fit)
    ensures var c := RunChain(fit);
      c.stages[0].shape == c.stages[1].shape == c.stages[2].shape == Shape(3, false) &&
      c.stages[3].shape == Shape(6, false) &&
      c.stages[4].shape == c.stages[5].shape == Shape(6, true)
    ensures var c := RunChain(fit);
      forall k :: 0 <= k < 6 ==> |c.stages[k].params| == |c.stages[k].bounds| == (if k < 4 then 10 else 14)
  { }

  /**
   * Every fixed value is a seed, the pinned amplitude, or the previous
   * stage's result for the same parameter.
   */
  lemma FixedProvenance(fit: Stage -> seq<real>, k: nat, i: nat)
    requires Sized(fit) && k < 6
    requires i < |RunChain(fit).stages[k].params| && RunChain(fit).stages[k].params[i].Fixed?
    ensures var c := RunChain(fit);
      var v := c.stages[k].params[i].value;
      v == Pinned || (i < |Seeds| && v == Seeds[i]) || (k > 0 && i < |c.results[k - 1]| && v == c.results[k - 1][i])
  { }

  /** If the minimiser respects fixed parameters, the fixed values pass unchanged from stage to stage. */
  lemma FixedValuesCarried(fit: Stage -> seq<real>)
    requires Sized(fit) && KeepsFixed(fit)
    ensures var r := RunChain(fit).results;
      (forall i :: 0 <= i < 3 ==> r[2][i] == r[1][i]) &&
      (forall i :: 0 <= i < 6 ==> r[3][i] == r[2][i]) &&
      (forall i :: 0 <= i < 10 ==> r[4][i] == r[3][i]) &&
      (forall i :: 10 <= i < 14 ==> r[5][i] == r[4][i] == Seeds[i])
  {
    var c := RunChain(fit);
    var r := c.results;
    forall i | 0 <= i < 3
      ensures r[2][i] == r[1][i]
    {
      assert c.stages[2].params[i] == Fixed(r[1][i]);
    }
    forall i | 0 <= i < 6
      ensures r[3][i] == r[2][i]
    {
      assert c.stages[3].params[i] == Fixed(r[2][i]);
    }
    forall i | 0 <= i < 10
      ensures r[4][i] == r[3][i]
    {
      assert c.stages[4].params[i] == Fixed(r[3][i]);
    }
    forall i | 10 <= i < 14
      ensures r[5][i] == r[4][i] == Seeds[i]
    {
      assert c.stages[4].params[i] == Fixed(Seeds[i]);
      assert c.stages[5].params[i] == Fixed(r[4][i]);
    }
  }

  /** The final fit's MIP area is 0, so its MIP peak contributes nothing to the fitted spectrum. */
  lemma FinalMipVanishes(d: Densities, fit: Stage -> seq<real>, x: real)
    requires Sized(fit) && KeepsFixed(fit)
    ensures var r := RunChain(fit).results[5];
      r[10] == 0.0 && Evaluable(SixPeaksMip, r) && Evaluate(d, SixPeaksMip, x, r) == PpeFunc(d, 6, x, r)
  {
    FixedValuesCarried(fit);
    var r := RunChain(fit).results[5];
    assert r[10] == 0.0 && r[12] == 50.0 && r[13] == 100.0;
    ZeroMipArea(d, SixPeaksMip, x, r);
  }

  /** The fine-tuning bounds around a previous value v are a non-empty interval exactly when v >= 0. */
  lemma FineBoundsOrdered(r2: seq<real>, i: nat)
    requires |r2| == SpectrumParamCount && i < SpectrumParamCount
    ensures var b := Stage3(r2).bounds[i]; b.lo <= b.hi <==> 0.0 <= r2[i]
  { }

  lemma FinalBoundsOrdered(r4: seq<real>, i: nat)
    requires |r4| == MipParamCount && i < MipParamCount
    ensures var b := Stage5(r4).bounds[i]; b.lo <= b.hi <==> 0.0 <= r4[i]
  { }

  /** Fits 2, 4 and 5 start their window at the pedestal position the previous fit found. */
  lemma WindowsChained(fit: Stage -> seq<real>)
    requires Sized(fit)
    ensures var c := RunChain(fit);
      c.stages[2].window.lo == c.results[1][2] &&
      c.stages[4].window.lo == c.results[3][2] &&
      c.stages[5].window.lo == c.results[4][2]
  { }

  /**
   * With a minimiser that keeps fixed parameters and respects bounds, the
   * pedestal position fit 1 found lies inside [0, 200] and, when it is
   * positive, the stored pedestal lies within 5% of it (a zero position makes
   * the final limits the degenerate (0, 0), which the fitter leaves unbounded); the stored
   * photoelectron mean, gain and crosstalk probability lie within 5% of the
   * values fit 3 found.
   */
  lemma OutputNearStageValues(fit: Stage -> seq<real>)
    requires Sized(fit) && KeepsFixed(fit) && KeepsBounds(fit)
    ensures var r, v := RunChain(fit).results, Output(fit);
      0.0 <= r[1][2] <= 200.0 &&
      (0.0 < r[1][2] ==> 0.95 * r[1][2] <= v.ped <= 1.05 * r[1][2]) &&
      0.95 * r[3][6] <= v.meanPE <= 1.05 * r[3][6] &&
      0.95 * r[3][7] <= v.gain <= 1.05 * r[3][7] &&
      0.95 * r[3][9] <= v.ctProb <= 1.05 * r[3][9]
  {
    var c := RunChain(fit);
    var r := c.results;
    FixedValuesCarried(fit);
    FittedPedestalInTable(fit, r[0]);
    FittedPeakParamsPositive(fit, r[1]);
    FineFitKeepsPositive(fit, r[2]);
    FinalFitNear(fit, r[4], 6);
    FinalFitNear(fit, r[4], 7);
    FinalFitNear(fit, r[4], 9);
    if 0.0 < r[1][2] {
      FinalFitNear(fit, r[4], 2);
    }
  }

  lemma FittedPedestalInTable(fit: Stage -> seq<real>, r0: seq<real>)
    requires Sized(fit) && KeepsBounds(fit) && |r0| == SpectrumParamCount
    ensures 0.0 <= fit(Stage1(r0))[2] <= 200.0
  {
    assert Stage1(r0).params[2].Free? && Stage1(r0).bounds[2] == Bounds(0.0, 200.0);
  }

  lemma FittedPeakParamsPositive(fit: Stage -> seq<real>, r1: seq<real>)
    requires Sized(fit) && KeepsBounds(fit) && |r1| == SpectrumParamCount
    ensures 0.0 < fit(Stage2(r1))[6] && 0.0 < fit(Stage2(r1))[7] && 0.0 < fit(Stage2(r1))[9]
  {
    var st := Stage2(r1);
    assert st.params[6].Free? && st.bounds[6] == Bounds(Minima[6], Maxima[6]);
    assert st.params[7].Free? && st.bounds[7] == Bounds(Minima[7], Maxima[7]);
    assert st.params[9].Free? && st.bounds[9] == Bounds(Minima[9], Maxima[9]);
  }

  lemma FineFitKeepsPositive(fit: Stage -> seq<real>, r2: seq<real>)
    requires Sized(fit) && KeepsBounds(fit) && |r2| == SpectrumParamCount
    requires 0.0 < r2[6] && 0.0 < r2[7] && 0.0 < r2[9]
    ensures 0.0 < fit(Stage3(r2))[6] && 0.0 < fit(Stage3(r2))[7] && 0.0 < fit(Stage3(r2))[9]
  {
    var st := Stage3(r2);
    assert st.params[6].Free? && st.bounds[6] == FineBounds(6, r2[6]);
    assert st.params[7].Free? && st.bounds[7] == FineBounds(7, r2[7]);
    assert st.params[9].Free? && st.bounds[9] == FineBounds(9, r2[9]);
  }

  lemma FinalFitNear(fit: Stage -> seq<real>, r4: seq<real>, i: nat)
    requires Sized(fit) && KeepsBounds(fit) && |r4| == MipParamCount
    requires i in {2, 6, 7, 9} && 0.0 < r4[i]
    ensures 0.95 * r4[i] <= fit(Stage5(r4))[i] <= 1.05 * r4[i]
  {
    var st := Stage5(r4);
    assert st.params[i].Free? && st.bounds[i] == FinalBounds(i, r4[i]);
  }
}
