/**
 * The pedestal-plus-photoelectron spectrum and its optional MIP peak.
 * Parameters p[0..9] of the spectrum:
 *   p[0] pedestal amplitude, p[1] pedestal width, p[2] overall shift (the
 *   average pedestal), p[3] background amplitude, p[4] background width,
 *   p[5] overall photoelectron amplitude, p[6] Poisson mean number of
 *   photoelectrons, p[7] peak spacing, p[8] peak width, p[9] crosstalk
 *   probability;
 * and of the MIP peak p[10..13]: area, Landau most probable value, Landau
 * width and Gaussian width.
 */
module Spectrum {
  import opened Densities
  import opened Series
  import opened Crosstalk
  import opened PeakWeights
  import LandauGauss

  /** Number of photoelectron peaks the weight tables provide. */
  const TotalPeaks: nat := 15
  /** The background Landau is evaluated this far to the right of the shifted x. */
  const BackgroundOffset: real := 50.0

  /** s[0..15]: s[k] = Poisson(k; mean) for k >= 1; index 0 is never written and stays 0. */
  function PoissonWeights(d: Densities, mean: real): (s: seq<real>)
    ensures |s| == 16 && s[0] == 0.0
  { seq(16, k requires 0 <= k < 16 => if k == 0 then 0.0 else d.poisson(k, mean)) }

  /** sc[0..15]: the written-out peak weights; index 0 is never written and stays 0. */
  function PeakWeightTable(s: seq<real>, cp: seq<real>): (sc: seq<real>)
    requires |s| == 16 && |cp| == 16
    ensures |sc| == 16 && sc[0] == 0.0
  { seq(16, k requires 0 <= k < 16 => if k == 0 then 0.0 else PeakWeight(s, cp, k)) }

  /** The compound Poisson-crosstalk distribution: entry k is the z^k coefficient of the series, entry 0 is 0. */
  function CompoundWeights(s: seq<real>, cp: seq<real>): (sc: seq<real>)
    requires |s| == 16 && |cp| == 16
    ensures |sc| == 16
  { seq(16, k requires 0 <= k < 16 => if k == 0 then 0.0 else SeriesCoefficient(s, cp, k)) }

  /** Every proved entry of the written-out weight table is the compound-distribution probability of its order. */
  lemma WeightTableIsSeries(s: seq<real>, cp: seq<real>, k: nat)
    requires |s| == 16 && |cp| == 16 && 1 <= k <= ProvedOrders
    ensures PeakWeightTable(s, cp)[k] == CompoundWeights(s, cp)[k] == SeriesCoefficient(s, cp, k)
  {
    PeakWeightIsSeriesCoefficient(s, cp, k);
  }

  /** The peak weights the parameters select. */
  function Weights(d: Densities, p: seq<real>): (sc: seq<real>)
    requires |p| >= 10
    ensures |sc| == 16
  { PeakWeightTable(PoissonWeights(d, p[6]), CrosstalkWeights(p[9])) }

  /** Photoelectron peak i: a Gaussian of amplitude p[5] at (i - 1) spacings, weighted by sc[i]. */
  function PeakTerm(d: Densities, sc: seq<real>, i: nat, x: real, p: seq<real>): real
    requires |p| >= 10 && 1 <= i < |sc|
  { sc[i] * (p[5] * d.gaus(x - p[2], ((i - 1) as real) * p[7], p[8])) }

  /** Peaks 1 .. n. */
  function PeakSum(d: Densities, sc: seq<real>, n: nat, x: real, p: seq<real>): real
    requires |p| >= 10 && n < |sc|
  { if n == 0 then 0.0 else PeakSum(d, sc, n - 1, x, p) + PeakTerm(d, sc, n, x, p) }

  function Pedestal(d: Densities, x: real, p: seq<real>): real
    requires |p| >= 10
  { p[0] * d.gaus(x - p[2], 0.0, p[1]) }

  function Background(d: Densities, x: real, p: seq<real>): real
    requires |p| >= 10
  { p[3] * d.landau(x - p[2] + BackgroundOffset, 0.0, p[4]) }

  /** The spectrum for given peak weights sc. */
  function SpectrumWith(d: Densities, nPeaks: nat, x: real, p: seq<real>, sc: seq<real>): real
    requires |p| >= 10 && nPeaks <= TotalPeaks && |sc| == 16
  { Pedestal(d, x, p) + PeakSum(d, sc, nPeaks, x, p) + Background(d, x, p) }

  /**
   * The pedestal and photoelectron spectrum with nPeaks peaks.  Up to the
   * proved order, peak i is weighted by the probability that i cells fire when
   * the photoelectron count is Poisson with mean p[6] and each fired cell adds
   * crosstalk cells with probability p[9].
   */
  function PpeFunc(d: Densities, nPeaks: nat, x: real, p: seq<real>): (r: real)
    requires |p| >= 10 && nPeaks <= TotalPeaks
    ensures nPeaks <= ProvedOrders ==>
      r == SpectrumWith(d, nPeaks, x, p, CompoundWeights(PoissonWeights(d, p[6]), CrosstalkWeights(p[9])))
  {
    CompoundSpectrum(d, nPeaks, x, p);
    SpectrumWith(d, nPeaks, x, p, Weights(d, p))
  }

  lemma CompoundSpectrum(d: Densities, nPeaks: nat, x: real, p: seq<real>)
    requires |p| >= 10 && nPeaks <= TotalPeaks
    ensures nPeaks <= ProvedOrders ==>
      SpectrumWith(d, nPeaks, x, p, Weights(d, p)) ==
      SpectrumWith(d, nPeaks, x, p, CompoundWeights(PoissonWeights(d, p[6]), CrosstalkWeights(p[9])))
  {
    if nPeaks <= ProvedOrders {
      var s, cp := PoissonWeights(d, p[6]), CrosstalkWeights(p[9]);
      forall i | 1 <= i <= nPeaks
        ensures Weights(d, p)[i] == CompoundWeights(s, cp)[i]
      {
        WeightTableIsSeries(s, cp, i);
      }
      UnusedWeightsIrrelevant(d, nPeaks, x, p, Weights(d, p), CompoundWeights(s, cp));
    }
  }

  /** The spectrum as ppeFunc computes it: pedestal first, then the peaks in order, then the background. */
  method EvalPpe(d: Densities, nPeaks: nat, x: real, p: seq<real>) returns (g: real)
    requires |p| >= 10 && nPeaks <= TotalPeaks
    ensures g == PpeFunc(d, nPeaks, x, p)
  {
    var sc := Weights(d, p);
    g := Pedestal(d, x, p);
    var i := 1;
    while i < nPeaks + 1
      invariant 1 <= i <= nPeaks + 1
      invariant g == Pedestal(d, x, p) + PeakSum(d, sc, i - 1, x, p)
    {
      g := g + PeakTerm(d, sc, i, x, p);
      i := i + 1;
    }
    g := g + Background(d, x, p);
  }

  lemma {:induction false} PeakSumAgrees(d: Densities, sc: seq<real>, sc': seq<real>, n: nat, x: real, p: seq<real>)
    requires |p| >= 10 && n < |sc| && n < |sc'|
    requires forall i :: 1 <= i <= n ==> sc[i] == sc'[i]
    ensures PeakSum(d, sc, n, x, p) == PeakSum(d, sc', n, x, p)
  {
    if n > 0 {
      PeakSumAgrees(d, sc, sc', n - 1, x, p);
    }
  }

  /** Only the weights of the peaks actually summed matter: sc[0] and sc[i] for i > nPeaks never do. */
  lemma UnusedWeightsIrrelevant(d: Densities, nPeaks: nat, x: real, p: seq<real>, sc: seq<real>, sc': seq<real>)
    requires |p| >= 10 && nPeaks <= TotalPeaks && |sc| == 16 && |sc'| == 16
    requires forall i :: 1 <= i <= nPeaks ==> sc[i] == sc'[i]
    ensures SpectrumWith(d, nPeaks, x, p, sc) == SpectrumWith(d, nPeaks, x, p, sc')
  {
    PeakSumAgrees(d, sc, sc', nPeaks, x, p);
  }

  /** The first two weights: one cell fired by one photon; two cells fired by one photon and crosstalk, or by two photons. */
  lemma FirstWeights(d: Densities, p: seq<real>)
    requires |p| >= 10
    ensures var s, cp := PoissonWeights(d, p[6]), CrosstalkWeights(p[9]);
      Weights(d, p)[1] == s[1] * cp[1] && Weights(d, p)[2] == s[1] * cp[2] + s[2] * cp[1] * cp[1]
  { }

  /** Without crosstalk (p[9] = 0) each peak weight is the Poisson weight alone. */
  lemma NoCrosstalkWeights(d: Densities, p: seq<real>, k: nat)
    requires |p| >= 10 && p[9] == 0.0 && 1 <= k <= 15
    ensures Weights(d, p)[k] == d.poisson(k, p[6])
  {
    ZeroProbability();
    PeakWeightNoCrosstalk(PoissonWeights(d, p[6]), k);
  }

  /** Without crosstalk the spectrum is the plain Poisson-weighted sum of peaks. */
  lemma NoCrosstalkSpectrum(d: Densities, nPeaks: nat, x: real, p: seq<real>)
    requires |p| >= 10 && p[9] == 0.0 && nPeaks <= TotalPeaks
    ensures PpeFunc(d, nPeaks, x, p) == SpectrumWith(d, nPeaks, x, p, PoissonWeights(d, p[6]))
  {
    var sc, s := Weights(d, p), PoissonWeights(d, p[6]);
    forall i | 1 <= i <= nPeaks
      ensures sc[i] == s[i]
    {
      NoCrosstalkWeights(d, p, i);
    }
    UnusedWeightsIrrelevant(d, nPeaks, x, p, sc, s);
  }

  /** The MIP peak's convolution parameters: width p[12], most probable value p[11], area p[10], Gaussian width p[13]. */
  function MipParams(p: seq<real>): (par: LandauGauss.LangauParams)
    requires |p| >= 14
    ensures par.area == p[10]
  { LandauGauss.LangauParams(p[12], p[11], p[10], p[13]) }

  /** Parameters for which the MIP term is defined: nonzero Landau and Gaussian widths. */
  predicate MipDefined(p: seq<real>)
  { |p| >= 14 && p[12] != 0.0 && p[13] != 0.0 }

  /** The MIP peak: the Landau-Gaussian convolution evaluated at the shifted x, proportional to the area p[10]. */
  function MipFunc(d: Densities, x: real, p: seq<real>): (r: real)
    requires MipDefined(p)
    ensures r == p[10] * LandauGauss.Langau(d, x - p[2], LandauGauss.LangauParams(p[12], p[11], 1.0, p[13]))
  {
    MipLinear(d, x, p);
    LandauGauss.Langau(d, x - p[2], MipParams(p))
  }

  lemma MipLinear(d: Densities, x: real, p: seq<real>)
    requires MipDefined(p)
    ensures LandauGauss.Langau(d, x - p[2], MipParams(p)) ==
      p[10] * LandauGauss.Langau(d, x - p[2], LandauGauss.LangauParams(p[12], p[11], 1.0, p[13]))
  {
    LandauGauss.LinearInAreaAt(d, x - p[2], MipParams(p), LandauGauss.LangauParams(p[12], p[11], 1.0, p[13]));
  }

  /** Which spectrum a fit function evaluates: the number of peaks and whether the MIP peak is added. */
  datatype Shape = Shape(nPeaks: nat, withMip: bool)

  predicate Evaluable(shape: Shape, p: seq<real>)
  { |p| >= 10 && shape.nPeaks <= TotalPeaks && (shape.withMip ==> MipDefined(p)) }

  /** The fit function: the spectrum, plus the MIP peak only when it is switched on. */
  function Evaluate(d: Densities, shape: Shape, x: real, p: seq<real>): (r: real)
    requires Evaluable(shape, p)
    ensures !shape.withMip ==> r == PpeFunc(d, shape.nPeaks, x, p)
    ensures shape.withMip ==>
      r == PpeFunc(d, shape.nPeaks, x, p) + p[10] * LandauGauss.Langau(d, x - p[2], LandauGauss.LangauParams(p[12], p[11], 1.0, p[13]))
  {
    var g := PpeFunc(d, shape.nPeaks, x, p);
    if shape.withMip then g + MipFunc(d, x, p) else g
  }

  /** A MIP peak of area 0 leaves the spectrum unchanged. */
  lemma ZeroMipArea(d: Densities, shape: Shape, x: real, p: seq<real>)
    requires Evaluable(shape, p) && shape.withMip && p[10] == 0.0
    ensures Evaluate(d, shape, x, p) == PpeFunc(d, shape.nPeaks, x, p)
  {
    LandauGauss.ZeroArea(d, x - p[2], MipParams(p));
  }
}
