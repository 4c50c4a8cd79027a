/**
 * The per-channel histogram: which samples are filled, how they are binned,
 * and the normalisation that divides every bin by its width and rescales the
 * result to the original number of entries.  Bin 0 is the underflow bin,
 * bins 1 .. n the regular ones and bin n + 1 the overflow bin.
 */
module Histogram {
  /** Regular bins of the channel histograms, spanning [0, AxisHigh). */
  const Bins: nat := 1000
  const AxisHigh: nat := 2000
  /** Samples strictly between these limits are filled. */
  const FillLow: nat := 20
  const FillHigh: nat := 5000

  /** A sample (a 16-bit ADC value) is filled when 20 < v < 5000. */
  predicate Accept(v: nat)
  { FillLow < v < FillHigh }

  /** The bin of a non-negative integer sample: regular bins of width 2, overflow from 2000 on. */
  function BinOf(v: nat): (b: nat)
    ensures 1 <= b <= Bins + 1
    ensures b <= Bins <==> v < AxisHigh
    ensures b <= Bins ==> 2 * (b - 1) <= v < 2 * b
  { if v < AxisHigh then 1 + v * Bins / AxisHigh else Bins + 1 }

  function Empty(): (h: seq<real>)
    ensures |h| == Bins + 2 && forall b :: 0 <= b < |h| ==> h[b] == 0.0
  { seq(Bins + 2, b => 0.0) }

  /** Content after filling the samples in order. */
  function FillAll(samples: seq<nat>): (h: seq<real>)
    ensures |h| == Bins + 2
  {
    if |samples| == 0 then Empty()
    else
      var h := FillAll(samples[..|samples| - 1]);
      var v := samples[|samples| - 1];
      if Accept(v) then h[BinOf(v) := h[BinOf(v)] + 1.0] else h
  }

  /** Number of filled samples that land in bin b. */
  function CountIn(samples: seq<nat>, b: nat): nat
  {
    if |samples| == 0 then 0
    else
      var v := samples[|samples| - 1];
      CountIn(samples[..|samples| - 1], b) + (if Accept(v) && BinOf(v) == b then 1 else 0)
  }

  /** Number of filled samples inside the axis range. */
  function CountInRange(samples: seq<nat>): nat
  {
    if |samples| == 0 then 0
    else
      var v := samples[|samples| - 1];
      CountInRange(samples[..|samples| - 1]) + (if Accept(v) && v < AxisHigh then 1 else 0)
  }

  /** Each bin holds exactly the number of accepted samples that fall in it. */
  lemma {:induction false} FillCounts(samples: seq<nat>, b: nat)
    requires b < Bins + 2
    ensures FillAll(samples)[b] == CountIn(samples, b) as real
  {
    if |samples| > 0 {
      FillCounts(samples[..|samples| - 1], b);
    }
  }

  /** No accepted sample is below 21, so the underflow bin stays empty. */
  lemma UnderflowEmpty(samples: seq<nat>)
    ensures FillAll(samples)[0] == 0.0
  {
    FillCounts(samples, 0);
    NoUnderflow(samples);
  }

  lemma {:induction false} NoUnderflow(samples: seq<nat>)
    ensures CountIn(samples, 0) == 0
  {
    if |samples| > 0 {
      NoUnderflow(samples[..|samples| - 1]);
    }
  }

  /** Sum of xs[a .. b-1]. */
  function Sum(xs: seq<real>, a: nat, b: nat): real
    requires b <= |xs|
    decreases b - a
  { if b <= a then 0.0 else xs[a] + Sum(xs, a + 1, b) }

  /** Content of the regular bins 1 .. n of a histogram with n + 2 bins. */
  function Integral(xs: seq<real>): real
    requires 2 <= |xs|
  { Sum(xs, 1, |xs| - 1) }

  lemma {:induction false} SumIncrement(xs: seq<real>, k: nat, a: nat, b: nat)
    requires k < |xs| && b <= |xs|
    ensures Sum(xs[k := xs[k] + 1.0], a, b) == Sum(xs, a, b) + (if a <= k < b then 1.0 else 0.0)
    decreases b - a
  {
    if a < b {
      SumIncrement(xs, k, a + 1, b);
    }
  }

  /** The integral of the filled histogram counts the accepted samples below 2000. */
  lemma {:induction false} FillIntegral(samples: seq<nat>)
    ensures Integral(FillAll(samples)) == CountInRange(samples) as real
  {
    if |samples| == 0 {
      SumZero(Empty(), 1, Bins + 1);
    } else {
      var front := samples[..|samples| - 1];
      FillIntegral(front);
      var v := samples[|samples| - 1];
      if Accept(v) {
        SumIncrement(FillAll(front), BinOf(v), 1, Bins + 1);
      }
    }
  }

  lemma {:induction false} SumZero(xs: seq<real>, a: nat, b: nat)
    requires b <= |xs| && forall j :: a <= j < b ==> xs[j] == 0.0
    ensures Sum(xs, a, b) == 0.0
    decreases b - a
  {
    if a < b {
      SumZero(xs, a + 1, b);
    }
  }

  datatype Hist = Hist(content: seq<real>, error: seq<real>, width: seq<real>)

  /** n + 2 bins with content, error and a positive width each. */
  predicate Valid(h: Hist)
  {
    2 <= |h.content| && |h.error| == |h.content| && |h.width| == |h.content| &&
    forall j :: 0 <= j < |h.width| ==> 0.0 < h.width[j]
  }

  /** Bins 0 .. n divided by their width; the overflow bin n + 1 is left as it is. */
  function DivideByWidth(h: Hist): (q: Hist)
    requires Valid(h)
    ensures |q.content| == |q.error| == |h.content| && q.width == h.width
  {
    var last := |h.content| - 1;
    Hist(
      seq(|h.content|, j requires 0 <= j < |h.content| => if j < last then h.content[j] / h.width[j] else h.content[j]),
      seq(|h.error|, j requires 0 <= j < |h.error| => if j < last then h.error[j] / h.width[j] else h.error[j]),
      h.width)
  }

  function Abs(c: real): real
  { if c < 0.0 then -c else c }

  /** Every bin scaled by c, errors by |c|. */
  function Scale(h: Hist, c: real): (q: Hist)
    requires |h.error| == |h.content|
    ensures |q.content| == |q.error| == |h.content| && q.width == h.width
  {
    Hist(
      seq(|h.content|, j requires 0 <= j < |h.content| => h.content[j] * c),
      seq(|h.error|, j requires 0 <= j < |h.error| => h.error[j] * Abs(c)),
      h.width)
  }

  datatype Option<T> = None | Some(value: T)

  /**
   * Divide by the bin widths, then rescale so that the integral is the number
   * of entries before the division.  When the divided integral is 0 the
   * rescaling factor does not exist.
   */
  function Normalise(h: Hist): (r: Option<Hist>)
    requires Valid(h)
    ensures r.Some? <==> Integral(DivideByWidth(h).content) != 0.0
    ensures r.Some? ==> |r.value.content| == |h.content| && Integral(r.value.content) == Integral(h.content)
  {
    var entries := Integral(h.content);
    var q := DivideByWidth(h);
    var t := Integral(q.content);
    if t == 0.0 then None
    else
      var c := entries / t;
      var s := Scale(q, c);
      SumScaled(q.content, s.content, c, 1, |h.content| - 1);
      Some(s)
  }

  lemma {:induction false} SumScaled(xs: seq<real>, ys: seq<real>, c: real, a: nat, b: nat)
    requires b <= |xs| && b <= |ys|
    requires forall j :: a <= j < b ==> ys[j] == xs[j] * c
    ensures Sum(ys, a, b) == c * Sum(xs, a, b)
    decreases b - a
  {
    if a < b {
      SumScaled(xs, ys, c, a + 1, b);
    }
  }

  /** The width of every bin of the channel histograms: 1000 equal bins over [0, 2000). */
  const ChannelWidth: real := 2.0

  function UniformWidths(n: nat, w: real): (ws: seq<real>)
    ensures |ws| == n && forall j :: 0 <= j < n ==> ws[j] == w
  { seq(n, j => w) }

  /**
   * With equal bin widths w the normalisation gives back every bin 0 .. n
   * unchanged (content and error) and multiplies the overflow bin, which was
   * never divided, by w.
   */
  lemma NormaliseUniform(h: Hist, w: real)
    requires Valid(h) && h.width == UniformWidths(|h.content|, w) && Integral(h.content) != 0.0
    ensures Normalise(h).Some?
    ensures var g := Normalise(h).value; var last := |h.content| - 1;
      (forall j :: 0 <= j < last ==> g.content[j] == h.content[j] && g.error[j] == h.error[j]) &&
      g.content[last] == h.content[last] * w && g.error[last] == h.error[last] * w
  {
    assert 0.0 < w by { assert h.width[0] == w; }
    UniformFactor(h, w);
    assert Normalise(h) == Some(Scale(DivideByWidth(h), w));
    ScaleBack(h, w);
  }

  /** With equal widths w the rescaling factor is w itself. */
  lemma UniformFactor(h: Hist, w: real)
    requires Valid(h) && h.width == UniformWidths(|h.content|, w) && Integral(h.content) != 0.0 && 0.0 < w
    ensures Integral(DivideByWidth(h).content) != 0.0
    ensures Integral(h.content) / Integral(DivideByWidth(h).content) == w
  {
    var last := |h.content| - 1;
    var q := DivideByWidth(h);
    forall j | 1 <= j < last
      ensures q.content[j] == h.content[j] * (1.0 / w)
    {
      DivideIsScale(h.content[j], w);
    }
    SumScaled(h.content, q.content, 1.0 / w, 1, last);
    RescaleFactor(Integral(h.content), w, Integral(q.content));
  }

  lemma ScaleBack(h: Hist, w: real)
    requires Valid(h) && h.width == UniformWidths(|h.content|, w) && 0.0 < w
    ensures var g := Scale(DivideByWidth(h), w); var last := |h.content| - 1;
      (forall j :: 0 <= j < last ==> g.content[j] == h.content[j] && g.error[j] == h.error[j]) &&
      g.content[last] == h.content[last] * w && g.error[last] == h.error[last] * w
  {
    var g := Scale(DivideByWidth(h), w);
    var last := |h.content| - 1;
    forall j | 0 <= j < last
      ensures g.content[j] == h.content[j] && g.error[j] == h.error[j]
    {
      DivideThenScale(h.content[j], w);
      DivideThenScale(h.error[j], w);
    }
    assert Abs(w) == w;
  }

  lemma DivideIsScale(x: real, w: real)
    requires w != 0.0
    ensures x / w == x * (1.0 / w)
  { }

  lemma DivideThenScale(x: real, w: real)
    requires 0.0 < w
    ensures x / w * w == x && x / w * Abs(w) == x
  { }

  lemma RescaleFactor(n: real, w: real, t: real)
    requires 0.0 < w && n != 0.0 && t == (1.0 / w) * n
    ensures t != 0.0 && n / t == w
  { }

  /**
   * A channel with at least one accepted sample below 2000 can be normalised,
   * and normalising it changes only the overflow bin.
   */
  lemma FilledChannelNormalises(samples: seq<nat>, errors: seq<real>)
    requires |errors| == Bins + 2 && 0 < CountInRange(samples)
    ensures var h := Hist(FillAll(samples), errors, UniformWidths(Bins + 2, ChannelWidth));
      Normalise(h).Some? && forall j :: 0 <= j <= Bins ==> Normalise(h).value.content[j] == h.content[j]
  {
    var h := Hist(FillAll(samples), errors, UniformWidths(Bins + 2, ChannelWidth));
    FillIntegral(samples);
    NormaliseUniform(h, ChannelWidth);
  }
}
