# SiPM photoelectron and MIP spectrum fit — a Dafny model

This project models the fit model used to calibrate silicon photomultiplier
(SiPM) channels. Each channel's ADC spectrum has several parts:

- a Gaussian pedestal;
- a comb of photoelectron (PE) peaks;
- a Landau background;
- optionally, a minimum-ionising-particle (MIP) peak, drawn as a Landau
  convolved with a Gaussian.

The heights of the PE peaks come from a compound distribution. The number of
primary photoelectrons is Poisson with mean p[6]. Each fired pixel can
trigger further pixels by optical crosstalk, with probability p[9] and n = 4
neighbours. The k-th peak weight sc[k] is the coefficient of z^k in
Σ_m s[m]·P(z)^m, where:

- s[m] is the Poisson weight;
- P(z) = Σ_j cp[j]·z^j is the crosstalk distribution;
- cp[j] = CPn[j]·p^(j−1)·(1−p)^(jn−(j−1)).

The source writes sc[1..15] out by hand as sums of products. It also writes
the combinatorial constants CPn as polynomials in n.

The model covers:

- the CPn table and the crosstalk weights (`Crosstalk`);
- the compound-series coefficient (`Series`) and its expansion as a sum over
  compositions (`Keys`, `Enumeration`);
- the hand-written weights (`PeakWeights`);
- the spectrum function `ppeFunc`, `mipFunc` and `operator()` (`Spectrum`);
- the Landau–Gauss convolution `langaufun`, including its paired midpoint
  loop (`LandauGauss`);
- the histogram fill and normalisation of the driver (`Histogram`);
- the six-stage fit protocol (`StagedFit`).

The density functions (Gaussian, Landau, Poisson) are parameters, bundled in
`Densities.Densities`. Every result therefore holds for any choice of them.
The minimiser is also a parameter: a function from a fit stage to a
parameter vector.

Key results:

- **CPn table.** At n = 4 every entry of the table is the Fuss–Catalan number
  C(4k, k−1)/k (`Crosstalk.CPnIsFussCatalan`). This includes entry 15, which
  the source writes as a degree-15 polynomial in n.
- **Peak weights.** For orders 1..12, each hand-expanded sc[k] equals the z^k
  coefficient of the compound series, for all weights s and cp
  (`PeakWeights.PeakWeightIsSeriesCoefficient`).
  Without crosstalk every sc[k], 1 ≤ k ≤ 15, is the Poisson weight s[k]
  (`PeakWeights.PeakWeightNoCrosstalk`).
- **Quadrature loop.** The loop in `langaufun` visits points from both ends.
  It visits each of the 200 midpoints of the ±5σ window exactly once, so it
  computes the midpoint rule (`LandauGauss.PairedSum`,
  `LandauGauss.VisitsAreBijective`).
- **Fit chain.** Along the stages, the fixed parameters carry their values
  forward. The final MIP area is therefore 0, and the last fit's MIP term
  vanishes (`StagedFit.FinalMipVanishes`).
- **Normalisation.** On the driver's uniform 2-ADC bins, the width-division
  followed by rescaling to the event count leaves bins 0..1000 unchanged,
  for any channel with an accepted sample below 2000
  (`Histogram.FilledChannelNormalises`). A channel whose accepted samples all
  lie in [2000, 5000) has an empty axis and does not normalise.

## Model

| member | source | states |
|---|---|---|
| Crosstalk.CPnValues | test/SPEfunc.h:108-148 | At n = 4 the table is 0, 1, 4, 22, 140, 969, 7084, 53820, 420732, 3362260, 27343888, 225568798, 1882933364, 15875338990, 134993766600, 1156393243320 |
| Crosstalk.CPnIsFussCatalan | test/SPEfunc.h:133-148 | For 1 ≤ k ≤ 15, CPn[k] at n = 4 is the number of crosstalk trees, C(4k, k−1)/k, computed independently from factorials |
| Crosstalk.CPnPositive | test/SPEfunc.h:133-148 | Every CPn[k] with 1 ≤ k ≤ 15 is positive |
| Crosstalk.Exponent | test/SPEfunc.h:183-197 | The exponent k·n − (k−1) of (1−p) is the natural number 3k+1 at n = 4 |
| Crosstalk.CrosstalkWeights | test/SPEfunc.h:183-197 | cp has 16 entries, cp[0] = 0 (never assigned), and cp[1] = (1−p)^4 |
| Crosstalk.CrosstalkNonnegative | test/SPEfunc.h:183-197 | For 0 ≤ p ≤ 1 every crosstalk weight is non-negative |
| Crosstalk.ZeroProbability | test/SPEfunc.h:183-197 | With p = 0 the crosstalk distribution is a point mass at one pixel: cp = [0, 1, 0, …, 0] |
| Series.SeriesNoCrosstalk | test/SPEfunc.h:119-120 | With no crosstalk the compound-series coefficient of z^k is the Poisson weight s[k] |
| Enumeration.SeriesTerm | test/SPEfunc.h:199-214 | s[m]·[z^k]P(z)^m is the sum over ordered compositions of k into m parts of s[m]·Π cp[part] |
| Enumeration.SeriesIsEnumerated | test/SPEfunc.h:199-214 | The series coefficient of z^k is the sum over all compositions of k, grouped by number of parts |
| PeakWeights.Weight1IsSeries | test/SPEfunc.h:200 | The written sc[1] is the z^1 series coefficient |
| PeakWeights.Weight2IsSeries | test/SPEfunc.h:201 | The written sc[2] is the z^2 series coefficient |
| PeakWeights.Weight3IsSeries | test/SPEfunc.h:202 | The written sc[3] is the z^3 series coefficient |
| PeakWeights.Weight4IsSeries | test/SPEfunc.h:203 | The written sc[4] is the z^4 series coefficient |
| PeakWeights.Weight5IsSeries | test/SPEfunc.h:204 | The written sc[5] is the z^5 series coefficient |
| PeakWeights.Weight6IsSeries | test/SPEfunc.h:205 | The written sc[6] is the z^6 series coefficient |
| PeakWeights.Weight7IsSeries | test/SPEfunc.h:206 | The written sc[7] is the z^7 series coefficient |
| PeakWeights.Weight8IsSeries | test/SPEfunc.h:207 | The written sc[8] is the z^8 series coefficient |
| PeakWeights.Weight9IsSeries | test/SPEfunc.h:208 | The written sc[9] is the z^9 series coefficient |
| PeakWeights.Weight10IsSeries | test/SPEfunc.h:209 | The written sc[10] is the z^10 series coefficient |
| PeakWeights.Weight11IsSeries | test/SPEfunc.h:210 | The written sc[11] is the z^11 series coefficient |
| PeakWeights.Weight12IsSeries | test/SPEfunc.h:211 | The written sc[12] is the z^12 series coefficient |
| PeakWeights.PeakWeightIsSeriesCoefficient | test/SPEfunc.h:199-214 | For orders 1..12, every hand-expanded peak weight equals the compound Poisson–crosstalk coefficient, for all s and cp |
| PeakWeights.PeakWeightNoCrosstalk | test/SPEfunc.h:199-214 | With cp = [0, 1, 0, …, 0] every written sc[k], 1 ≤ k ≤ 15, is s[k]: through the series for orders 1..12, by evaluating the written sum for 13..15 |
| Spectrum.WeightTableIsSeries | test/SPEfunc.h:199-214 | For orders up to 12, entry k of the written weight table is the z^k coefficient of the compound Poisson–crosstalk series |
| Spectrum.NoCrosstalkWeights | test/SPEfunc.h:181-214 | With p[9] = 0, for every k in 1..15, the k-th peak weight is the Poisson probability of k photoelectrons with mean p[6] |
| Spectrum.NoCrosstalkSpectrum | test/SPEfunc.h:216-242 | With p[9] = 0 and any number of peaks up to 15, the spectrum equals the one built from the plain Poisson weights |
| Spectrum.PpeFunc | test/SPEfunc.h:165-243 | For up to 12 peaks, ppeFunc is pedestal + Σ_{i=1..nPeaks} P(i fired cells)·peak_i + background, where P is the compound distribution of a Poisson(p[6]) photoelectron count with crosstalk probability p[9] |
| Spectrum.EvalPpe | test/SPEfunc.h:216-242 | The loop returns pedestal + Σ_{i=1..nPeaks} sc[i]·peak_i + background at x − p[2], with the background shifted by 50 |
| Spectrum.UnusedWeightsIrrelevant | test/SPEfunc.h:219-238 | The spectrum depends only on sc[1..nPeaks]; weights of unused peaks and sc[0] do not matter |
| Spectrum.MipFunc | test/SPEfunc.h:245-271 | The MIP peak at x is p[10] times the unit-area Landau–Gaussian convolution at x − p[2] with Landau width p[12], most probable value p[11] and Gaussian width p[13] |
| Spectrum.Evaluate | test/SPEfunc.h:276-284 | Without the MIP switch, operator() is ppeFunc; with it, ppeFunc plus p[10] times the unit-area MIP convolution at x − p[2] |
| Spectrum.ZeroMipArea | test/SPEfunc.h:266-283 | With the MIP switch on and p[10] = 0, operator() equals ppeFunc |
| LandauGauss.Window | test/SPEfunc.h:82-85 | The integration window is centred on x, spans 200 steps, and each step is σ/20 |
| LandauGauss.MidpointIsCentre | test/SPEfunc.h:90-94 | Each evaluation point is the centre of its sub-interval |
| LandauGauss.LoopNodeIsMidpoint | test/SPEfunc.h:88-97 | The p-th point the loop visits, alternating from the low and high ends, is midpoint NodeIndex(p) of the grid |
| LandauGauss.VisitsAreBijective | test/SPEfunc.h:88-97 | The visit order is a bijection of the 200 grid midpoints; it is inverted by VisitOf, in both directions |
| LandauGauss.PairedSum | test/SPEfunc.h:85-97 | The paired loop over i = 1..100 sums the integrand over all 200 midpoints of the window |
| LandauGauss.LangauLoop | test/SPEfunc.h:48-100 | The function as written (loop, step and normalisation) equals the area·step·Σ/(√(2π)σ) midpoint rule |
| LandauGauss.LinearInArea | test/SPEfunc.h:99 | The convolution is linear in its area parameter |
| LandauGauss.ZeroArea | test/SPEfunc.h:99 | A zero area gives a zero convolution |
| Histogram.BinOf | test/mipFitsSiPM.C:465-471 | A sample below 2000 lands in regular bin b exactly when 2(b−1) ≤ v < 2b, one of the bins 1..1000; from 2000 on it lands in the overflow bin |
| Histogram.FillCounts | test/mipFitsSiPM.C:469-472 | Bin b holds the number of samples strictly between 20 and 5000 that fall in bin b |
| Histogram.UnderflowEmpty | test/mipFitsSiPM.C:471 | The fill condition keeps the underflow bin empty |
| Histogram.FillIntegral | test/mipFitsSiPM.C:465-472 | The integral over bins 1..1000 is the number of accepted samples below 2000 |
| Histogram.Normalise | test/mipFitsSiPM.C:481-490 | After dividing bins 0..1000 by their width and rescaling, the integral equals the event count from before, whenever the rescaling is defined |
| Histogram.NormaliseUniform | test/mipFitsSiPM.C:481-490 | With equal widths w, normalisation leaves the contents and errors of bins 0..n unchanged and multiplies the overflow bin by w |
| Histogram.FilledChannelNormalises | test/mipFitsSiPM.C:465-490 | A channel with at least one accepted sample below 2000 (inside the axis) normalises, and bins 0..1000 keep their counts |
| StagedFit.SeedsWithinBounds | test/mipFitsSiPM.C:55-88 | Every starting value set_i lies inside its table interval [min_i, max_i], for all 14 parameters |
| StagedFit.StageShapes | test/mipFitsSiPM.C:43-50 | Fits 0–2 use the 3-peak spectrum, fit 3 the 6-peak one, and fits 4–5 the 6-peak one with the MIP peak; they have 10, 10, 10, 10, 14 and 14 parameters |
| StagedFit.FixedProvenance | test/mipFitsSiPM.C:104-273 | Every fixed parameter is a seed value, the pinned amplitude 0.01, or the previous fit's result for that parameter |
| StagedFit.FixedValuesCarried | test/mipFitsSiPM.C:160-273 | If the minimiser respects fixed parameters, fixed values pass unchanged from fit to fit, and the MIP parameters end at their seeds |
| StagedFit.FinalMipVanishes | test/mipFitsSiPM.C:232-273 | The final MIP area is 0, so the final fit function equals the 6-peak spectrum alone |
| StagedFit.FineBoundsOrdered | test/mipFitsSiPM.C:178-189 | Fit 3's bounds [0.5v, 1.5v] (or [0.5v, v], or [0.85v, 1.5v]) are non-empty exactly when v ≥ 0 |
| StagedFit.FinalBoundsOrdered | test/mipFitsSiPM.C:244-259 | Fit 5's bounds [0.95v, 1.05v] (or [0.95v, v]) are non-empty exactly when v ≥ 0 |
| StagedFit.WindowsChained | test/mipFitsSiPM.C:170-274 | Fits 2, 4 and 5 start their window at the pedestal position p[2] found by the previous fit |
| StagedFit.OutputNearStageValues | test/mipFitsSiPM.C:243-282 | For a minimiser that keeps fixed parameters and respects bounds of positive width, fit 1's pedestal position lies in [0, 200] and, when positive, the stored pedestal is within 5% of it; and the stored mean photoelectron count, gain and crosstalk probability are within 5% of fit 3's values |

## Left out

- The Gaussian, Landau and Poisson density evaluators are left out. They are parameters, because only their role in the sums is modelled.
- Floating point is left out. All arithmetic is exact real arithmetic, so rounding and the literal 3.6288e6 are exact.
- The minimiser (log-likelihood fit with bounds) is a parameter. Lemmas that need more than its shape assume that it keeps fixed parameters (KeepsFixed) and keeps free ones inside ordered bounds (KeepsBounds). The model does not say whether the function domain or the explicit fit window limits the fit.
- The unused `crystalBall` and `gaufun` helpers are left out.
- The bin-edge lookups (`FindBin`, `GetBinLowEdge`, `GetBinWidth`) in `ppeFunc` and `mipFunc` are left out. Their results only feed commented-out code.
- Canvas drawing, plotting, printing, file and tree I/O, and the event reader are left out.
- The variable-width `binEdges` table is left out, because nothing uses it.
- Heap allocation of the fit functions is left out.
- The narrowing of the stored record to `float` is left out.
- The event loop over boards and channels is left out. One channel's samples are a sequence.
- Histogram.Normalise: returns None when the width-divided integral is 0. The source has no guard there and would divide by zero.
- Spectrum.MipDefined: the MIP term is defined only for nonzero p[12] and p[13]. The source divides by both without a guard, giving inf or NaN. Every fit fixes them at 50 and 100, so no reachable behaviour is lost.
- LandauGauss.Langau: requires nonzero Landau and Gaussian widths, for the same reason as Spectrum.MipDefined.
- PeakWeights.PeakWeightIsSeriesCoefficient: proved for orders 1..12, which covers the 3 and 6 peaks the fits use. Weights 13..15 are transcribed but not proved equal to the series.
- Spectrum.WeightTableIsSeries: stated for entries 1..12 only, for the same reason. Entries 13..15, which ppeFunc uses when nPeaks > 12, are not proved to be series coefficients; the fits use 3 and 6 peaks.
- Spectrum.PpeFunc: the compound-distribution meaning is stated for nPeaks <= 12 only, for the same reason. The source accepts up to 15 peaks, but the fits use 3 and 6.
- StagedFit.KeepsBounds: only limits of positive width bind a free parameter. The fitter leaves a parameter with limits (0, 0) free, and it fixes a parameter whose nonzero limits have lo >= hi. KeepsBounds constrains neither case, so it assumes less than the fitter. A fit-1 pedestal of 0 gives the final limits (0, 0), which is why the pedestal clause of StagedFit.OutputNearStageValues needs a positive fit-1 pedestal.
- Spectrum.PpeFunc: requires nPeaks <= 15. In the source a larger count indexes past the end of the 16-entry weight and function tables, which is undefined behaviour.
