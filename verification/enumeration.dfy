/**
 * The compound series written out as an enumeration of compositions.
 * Expand(s, cp, m, k, key) sums, over every ordered way of writing k as m
 * positive parts i1 + ... + im (each at most 15), the product the key
 * key + Radix(i1) + ... + Radix(im) stands for.  Each composition thus ends in
 * a leaf whose key records the Poisson index and how often each crosstalk
 * weight was used, which is how a hand-written peak-weight sum groups its terms.
 */
module Enumeration {
  import opened Keys
  import opened Series

  function Expand(s: seq<real>, cp: seq<real>, m: nat, k: nat, key: nat): real
    requires |s| == 16 && |cp| == 16
    decreases m, 1
  { if m == 0 then (if k == 0 then Leaf(s, cp, key) else 0.0) else ExpandFrom(s, cp, m, k, key, 1) }

  function ExpandFrom(s: seq<real>, cp: seq<real>, m: nat, k: nat, key: nat, i: nat): real
    requires |s| == 16 && |cp| == 16 && 1 <= m && 1 <= i
    decreases m, 0, k + 1 - i
  { if i > k || i > 15 then 0.0 else Expand(s, cp, m - 1, k - i, key + Radix(i)) + ExpandFrom(s, cp, m, k, key, i + 1) }

  /** No crosstalk digit of key overflows when m more parts are added. */
  ghost predicate Room(key: nat, m: nat)
  { forall f :: 1 <= f <= 15 ==> Digit(key, f) + m <= 15 }

  lemma RoomShift(key: nat, m: nat, i: nat)
    requires Room(key, m) && 1 <= m && 1 <= i <= 15
    ensures Room(key + Radix(i), m - 1)
  {
    assert Digit(key, i) < 15;
    var next := key + Radix(i);
    forall f | 1 <= f <= 15
      ensures Digit(next, f) + (m - 1) <= 15
    {
      DigitShift(key, i, f);
    }
  }

  /** A bare Poisson index has every crosstalk digit zero, so room for fifteen parts. */
  lemma BareRoom(m: nat)
    requires m <= 15
    ensures Room(m, 15)
  {
    forall f | 1 <= f <= 15
      ensures Digit(m, f) + 15 <= 15
    {
      DigitZero(f - 1);
    }
  }

  lemma LeafShiftBy(s: seq<real>, cp: seq<real>, key: nat, f: nat, a: real, ac: real)
    requires |s| == 16 && |cp| == 16 && 1 <= f <= 15 && Digit(key, f) < 15
    requires a == Leaf(s, cp, key) && ac == a * cp[f]
    ensures Leaf(s, cp, key + Radix(f)) == ac
  {
    LeafShift(s, cp, key, f);
  }

  lemma ExpandStep(s: seq<real>, cp: seq<real>, m: nat, k: nat, key: nat, i: nat)
    requires |s| == 16 && |cp| == 16 && 1 <= m && 1 <= i <= k && i <= 15
    ensures ExpandFrom(s, cp, m, k, key, i) == Expand(s, cp, m - 1, k - i, key + Radix(i)) + ExpandFrom(s, cp, m, k, key, i + 1)
  { }

  /** ExpandStep with the shifted key named, for callers that pass literals. */
  lemma ExpandStepAt(s: seq<real>, cp: seq<real>, m: nat, k: nat, key: nat, i: nat, next: nat)
    requires |s| == 16 && |cp| == 16 && 1 <= m && 1 <= i <= k && i <= 15 && next == key + Radix(i)
    ensures ExpandFrom(s, cp, m, k, key, i) == Expand(s, cp, m - 1, k - i, next) + ExpandFrom(s, cp, m, k, key, i + 1)
  { }

  /** With room for m more parts, enumerating compositions from key computes the series coefficient scaled by Leaf(key). */
  lemma {:induction false} ExpandIsScaled(s: seq<real>, cp: seq<real>, m: nat, k: nat, key: nat, a: real)
    requires |s| == 16 && |cp| == 16 && Room(key, m) && a == Leaf(s, cp, key)
    ensures Expand(s, cp, m, k, key) == Scaled(cp, m, k, a)
    decreases m, 2
  {
    if m > 0 {
      ExpandFromIsScaled(s, cp, m, k, key, a, 1);
    }
  }

  lemma {:induction false} ExpandIsScaledAt(s: seq<real>, cp: seq<real>, m: nat, k: nat, key: nat, i: nat, ac: real)
    requires |s| == 16 && |cp| == 16 && 1 <= m && 1 <= i <= k && i <= 15
    requires Room(key + Radix(i), m - 1) && ac == Leaf(s, cp, key + Radix(i))
    ensures Expand(s, cp, m - 1, k - i, key + Radix(i)) == Scaled(cp, m - 1, k - i, ac)
    decreases m, 0
  {
    ExpandIsScaled(s, cp, m - 1, k - i, key + Radix(i), ac);
  }

  lemma {:induction false} ExpandFromIsScaled(s: seq<real>, cp: seq<real>, m: nat, k: nat, key: nat, a: real, i: nat)
    requires |s| == 16 && |cp| == 16 && 1 <= m && 1 <= i && Room(key, m) && a == Leaf(s, cp, key)
    ensures ExpandFrom(s, cp, m, k, key, i) == ScaledFrom(cp, m, k, a, i)
    decreases m, 1, k + 1 - i, 1
  {
    if i <= k && i <= 15 {
      var ac := a * cp[i];
      RoomShift(key, m, i);
      LeafShiftBy(s, cp, key, i, a, ac);
      ExpandIsScaledAt(s, cp, m, k, key, i, ac);
      ExpandFromIsScaledNext(s, cp, m, k, key, a, i);
      ExpandStep(s, cp, m, k, key, i);
      ScaledStep(cp, m, k, a, i, ac);
    }
  }

  lemma {:induction false} ExpandFromIsScaledNext(s: seq<real>, cp: seq<real>, m: nat, k: nat, key: nat, a: real, i: nat)
    requires |s| == 16 && |cp| == 16 && 1 <= m && 1 <= i <= k && Room(key, m) && a == Leaf(s, cp, key)
    ensures ExpandFrom(s, cp, m, k, key, i + 1) == ScaledFrom(cp, m, k, a, i + 1)
    decreases m, 1, k + 1 - i, 0
  {
    ExpandFromIsScaled(s, cp, m, k, key, a, i + 1);
  }

  /** Compositions of k into more than k positive parts do not exist. */
  lemma {:induction false} ExpandBelow(s: seq<real>, cp: seq<real>, m: nat, k: nat, key: nat)
    requires |s| == 16 && |cp| == 16 && k < m
    ensures Expand(s, cp, m, k, key) == 0.0
    decreases m, 1
  {
    ExpandFromBelow(s, cp, m, k, key, 1);
  }

  lemma {:induction false} ExpandFromBelow(s: seq<real>, cp: seq<real>, m: nat, k: nat, key: nat, i: nat)
    requires |s| == 16 && |cp| == 16 && k < m && 1 <= i
    ensures ExpandFrom(s, cp, m, k, key, i) == 0.0
    decreases m, 0, k + 1 - i
  {
    if i <= k && i <= 15 {
      ExpandBelow(s, cp, m - 1, k - i, key + Radix(i));
      ExpandFromBelow(s, cp, m, k, key, i + 1);
    }
  }

  /** The m-th series term s[m] * [z^k] P(z)^m is the enumeration of compositions of k into m parts. */
  lemma SeriesTerm(s: seq<real>, cp: seq<real>, m: nat, k: nat)
    requires |s| == 16 && |cp| == 16 && m <= 15
    ensures Expand(s, cp, m, k, m) == s[m] * PowCoeff(cp, m, k)
  {
    LeafBase(s, cp, m);
    BareRoom(m);
    ExpandIsScaled(s, cp, m, k, m, s[m]);
    ScaledIsProduct(cp, m, k, s[m]);
  }

  /** The whole compound-series coefficient as an enumeration over the number m of parts. */
  function Enumerated(s: seq<real>, cp: seq<real>, k: nat): real
    requires |s| == 16 && |cp| == 16
  { EnumFrom(s, cp, k, 0) }

  function EnumFrom(s: seq<real>, cp: seq<real>, k: nat, m: nat): real
    requires |s| == 16 && |cp| == 16
    decreases 16 - m
  { if m > 15 then 0.0 else Expand(s, cp, m, k, m) + EnumFrom(s, cp, k, m + 1) }

  lemma SeriesIsEnumerated(s: seq<real>, cp: seq<real>, k: nat)
    requires |s| == 16 && |cp| == 16
    ensures SeriesCoefficient(s, cp, k) == Enumerated(s, cp, k)
  {
    CoefFromIsEnumFrom(s, cp, k, 0);
  }

  lemma {:induction false} CoefFromIsEnumFrom(s: seq<real>, cp: seq<real>, k: nat, m: nat)
    requires |s| == 16 && |cp| == 16
    ensures CoefFrom(s, cp, k, m) == EnumFrom(s, cp, k, m)
    decreases 16 - m
  {
    if m <= 15 {
      EnumFromStep(s, cp, k, m);
      CoefFromIsEnumFrom(s, cp, k, m + 1);
    }
  }

  /** One term of the enumeration is the matching term of the series. */
  lemma EnumFromStep(s: seq<real>, cp: seq<real>, k: nat, m: nat)
    requires |s| == 16 && |cp| == 16 && m <= 15
    ensures EnumFrom(s, cp, k, m) == s[m] * PowCoeff(cp, m, k) + EnumFrom(s, cp, k, m + 1)
  {
    SeriesTerm(s, cp, m, k);
  }

  /** No term with more parts than k contributes to the coefficient of z^k. */
  lemma {:induction false} EnumFromBelow(s: seq<real>, cp: seq<real>, k: nat, m: nat)
    requires |s| == 16 && |cp| == 16 && k < m
    ensures EnumFrom(s, cp, k, m) == 0.0
    decreases 16 - m
  {
    if m <= 15 {
      ExpandBelow(s, cp, m, k, m);
      EnumFromBelow(s, cp, k, m + 1);
    }
  }
}
