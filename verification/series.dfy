/**
 * The compound series behind the peak weights.  With the crosstalk series
 * P(z) = cp[1] z + cp[2] z^2 + ... + cp[15] z^15 and Poisson weights s[m],
 * the weight of the k-th photo-electron peak is the coefficient of z^k in
 * s[0] + s[1] P(z) + s[2] P(z)^2 + ... + s[15] P(z)^15.
 */
module Series {
  /** Coefficient of z^k in P(z)^m, by convolution over the degree i of the first factor. */
  function PowCoeff(cp: seq<real>, m: nat, k: nat): real
    requires |cp| == 16
    decreases m, 1
  { if m == 0 then (if k == 0 then 1.0 else 0.0) else PowFrom(cp, m, k, 1) }

  function PowFrom(cp: seq<real>, m: nat, k: nat, i: nat): real
    requires |cp| == 16 && 1 <= m && 1 <= i
    decreases m, 0, k + 1 - i
  { if i > k || i > 15 then 0.0 else cp[i] * PowCoeff(cp, m - 1, k - i) + PowFrom(cp, m, k, i + 1) }

  /** Coefficient of z^k in a * P(z)^m, with the scale pushed down to the leaves. */
  function Scaled(cp: seq<real>, m: nat, k: nat, a: real): real
    requires |cp| == 16
    decreases m, 1
  { if m == 0 then (if k == 0 then a else 0.0) else ScaledFrom(cp, m, k, a, 1) }

  function ScaledFrom(cp: seq<real>, m: nat, k: nat, a: real, i: nat): real
    requires |cp| == 16 && 1 <= m && 1 <= i
    decreases m, 0, k + 1 - i
  { if i > k || i > 15 then 0.0 else Scaled(cp, m - 1, k - i, a * cp[i]) + ScaledFrom(cp, m, k, a, i + 1) }

  lemma Distribute(a: real, c: real, pc: real, tail: real, ac: real, whole: real)
    requires ac == a * c && whole == c * pc + tail
    ensures ac * pc + a * tail == a * whole
  { }

  lemma ScaledStep(cp: seq<real>, m: nat, k: nat, a: real, i: nat, ac: real)
    requires |cp| == 16 && 1 <= m && 1 <= i <= k && i <= 15 && ac == a * cp[i]
    ensures ScaledFrom(cp, m, k, a, i) == Scaled(cp, m - 1, k - i, ac) + ScaledFrom(cp, m, k, a, i + 1)
  { }

  lemma PowStep(cp: seq<real>, m: nat, k: nat, i: nat)
    requires |cp| == 16 && 1 <= m && 1 <= i <= k && i <= 15
    ensures PowFrom(cp, m, k, i) == cp[i] * PowCoeff(cp, m - 1, k - i) + PowFrom(cp, m, k, i + 1)
  { }

  lemma {:induction false} ScaledIsProduct(cp: seq<real>, m: nat, k: nat, a: real)
    requires |cp| == 16
    ensures Scaled(cp, m, k, a) == a * PowCoeff(cp, m, k)
    decreases m, 2
  {
    if m > 0 {
      ScaledFromIsProduct(cp, m, k, a, 1);
    }
  }

  lemma {:induction false} ScaledIsProductAt(cp: seq<real>, m: nat, k: nat, i: nat, ac: real)
    requires |cp| == 16 && 1 <= m && 1 <= i <= k
    ensures Scaled(cp, m - 1, k - i, ac) == ac * PowCoeff(cp, m - 1, k - i)
    decreases m, 0
  {
    ScaledIsProduct(cp, m - 1, k - i, ac);
  }

  lemma {:induction false} ScaledFromIsProduct(cp: seq<real>, m: nat, k: nat, a: real, i: nat)
    requires |cp| == 16 && 1 <= m && 1 <= i
    ensures ScaledFrom(cp, m, k, a, i) == a * PowFrom(cp, m, k, i)
    decreases m, 1, k + 1 - i, 1
  {
    if i <= k && i <= 15 {
      var ac := a * cp[i];
      ScaledStep(cp, m, k, a, i, ac);
      PowStep(cp, m, k, i);
      ScaledIsProductAt(cp, m, k, i, ac);
      ScaledFromIsProductNext(cp, m, k, a, i);
      Distribute(a, cp[i], PowCoeff(cp, m - 1, k - i), PowFrom(cp, m, k, i + 1), ac, PowFrom(cp, m, k, i));
    }
  }

  lemma {:induction false} ScaledFromIsProductNext(cp: seq<real>, m: nat, k: nat, a: real, i: nat)
    requires |cp| == 16 && 1 <= m && 1 <= i <= k
    ensures ScaledFrom(cp, m, k, a, i + 1) == a * PowFrom(cp, m, k, i + 1)
    decreases m, 1, k + 1 - i, 0
  {
    ScaledFromIsProduct(cp, m, k, a, i + 1);
  }

  /** P(z)^1 is P(z) itself. */
  lemma {:induction false} PowCoeffFirstPower(cp: seq<real>, k: nat)
    requires |cp| == 16 && 1 <= k <= 15
    ensures PowCoeff(cp, 1, k) == cp[k]
  {
    PowFromFirstPower(cp, k, 1);
  }

  lemma {:induction false} PowFromFirstPower(cp: seq<real>, k: nat, i: nat)
    requires |cp| == 16 && 1 <= i <= k <= 15
    ensures PowFrom(cp, 1, k, i) == cp[k]
    decreases k - i
  {
    if i < k {
      PowFromFirstPower(cp, k, i + 1);
      assert PowCoeff(cp, 0, k - i) == 0.0;
    } else {
      assert PowCoeff(cp, 0, 0) == 1.0;
    }
  }

  /** Every factor of P(z) has degree at least one, so P(z)^m has no term below z^m. */
  lemma {:induction false} PowCoeffBelow(cp: seq<real>, m: nat, k: nat)
    requires |cp| == 16 && k < m
    ensures PowCoeff(cp, m, k) == 0.0
    decreases m, 1
  {
    PowFromBelow(cp, m, k, 1);
  }

  lemma {:induction false} PowFromBelow(cp: seq<real>, m: nat, k: nat, i: nat)
    requires |cp| == 16 && k < m && 1 <= i
    ensures PowFrom(cp, m, k, i) == 0.0
    decreases m, 0, k + 1 - i
  {
    if i <= k && i <= 15 {
      PowCoeffBelow(cp, m - 1, k - i);
      PowFromBelow(cp, m, k, i + 1);
    }
  }

  /** The peak weight of order k: the z^k coefficient of the compound series. */
  function SeriesCoefficient(s: seq<real>, cp: seq<real>, k: nat): real
    requires |s| == 16 && |cp| == 16
  { CoefFrom(s, cp, k, 0) }

  function CoefFrom(s: seq<real>, cp: seq<real>, k: nat, m: nat): real
    requires |s| == 16 && |cp| == 16
    decreases 16 - m
  { if m > 15 then 0.0 else s[m] * PowCoeff(cp, m, k) + CoefFrom(s, cp, k, m + 1) }

  /** Crosstalk weights with no crosstalk at all: P(z) = z. */
  const NoCrosstalk: seq<real> := [0.0, 1.0, 0.0, 0.0, 0.0, 0.0, 0.0, 0.0, 0.0, 0.0, 0.0, 0.0, 0.0, 0.0, 0.0, 0.0]

  /** Without crosstalk P(z)^m = z^m. */
  lemma {:induction false} PowCoeffNoCrosstalk(m: nat, k: nat)
    ensures PowCoeff(NoCrosstalk, m, k) == if m == k then 1.0 else 0.0
    decreases m
  {
    if m > 0 && k > 0 {
      PowCoeffNoCrosstalk(m - 1, k - 1);
      PowFromNoCrosstalkTail(m, k, 2);
    }
  }

  lemma {:induction false} PowFromNoCrosstalkTail(m: nat, k: nat, i: nat)
    requires 1 <= m && 2 <= i
    ensures PowFrom(NoCrosstalk, m, k, i) == 0.0
    decreases k + 1 - i
  {
    if i <= k && i <= 15 {
      assert NoCrosstalk[i] == 0.0;
      PowFromNoCrosstalkTail(m, k, i + 1);
    }
  }

  /** Without crosstalk the peak weights are the Poisson weights themselves. */
  lemma SeriesNoCrosstalk(s: seq<real>, k: nat)
    requires |s| == 16 && k <= 15
    ensures SeriesCoefficient(s, NoCrosstalk, k) == s[k]
  {
    CoefFromNoCrosstalk(s, k, 0);
  }

  lemma {:induction false} CoefFromNoCrosstalk(s: seq<real>, k: nat, m: nat)
    requires |s| == 16 && k <= 15
    ensures CoefFrom(s, NoCrosstalk, k, m) == if m <= k then s[k] else 0.0
    decreases 16 - m
  {
    if m <= 15 {
      PowCoeffNoCrosstalk(m, k);
      CoefFromNoCrosstalk(s, k, m + 1);
    }
  }
}
