/**
 * The probability densities the spectrum is built from.  Their numerical
 * evaluators belong to the analysis library and are not modelled: each one is
 * an arbitrary real function passed in as a parameter, so every result below
 * holds whatever the densities compute.
 */
module Densities {
  /**
   * gaus(x, mean, sigma) is the unnormalised Gaussian, landau(x, mpv, width)
   * the Landau density, poisson(k, mean) the Poisson probability of k.
   */
  datatype Densities = Densities(
    gaus: (real, real, real) -> real,
    landau: (real, real, real) -> real,
    poisson: (nat, real) -> real)
}
