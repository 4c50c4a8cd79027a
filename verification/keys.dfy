/**
 * Composition keys.  A product  s[m] * cp[i1] * ... * cp[ij]  of one Poisson
 * weight and several crosstalk weights is identified by a natural number
 * "key": hexadecimal digit 0 of the key is the Poisson index m, and hex digit
 * f (1 <= f <= 15) counts how many times the crosstalk weight cp[f] occurs.
 * Leaf(s, cp, key) evaluates that product.  Adding Radix(f) to a key
 * multiplies its product by cp[f] (LeafShift), provided digit f does not
 * overflow.
 */
module Keys {
  /** 16^d: the weight of hex digit d. */
  function Radix(d: nat): (r: nat)
    ensures r >= 1
  { if d == 0 then 1 else 16 * Radix(d - 1) }

  /** Hex digit d of q. */
  function Digit(q: nat, d: nat): (r: nat)
    ensures r < 16
  { if d == 0 then q % 16 else Digit(q / 16, d - 1) }

  /**
   * acc times the product of crosstalk weights counted by the hex digits of q,
   * digit 0 of q counting cp[i], digit 1 counting cp[i + 1], and so on.
   */
  function Mono(acc: real, cp: seq<real>, q: nat, i: nat): real
    requires |cp| == 16 && 1 <= i
    decreases q
  {
    if q == 0 || i > 15 then acc
    else if q % 16 == 0 then Mono(acc, cp, q / 16, i + 1)
    else Mono(acc * cp[i], cp, q - 1, i)
  }

  /** The product of weights a key stands for. */
  function Leaf(s: seq<real>, cp: seq<real>, key: nat): real
    requires |s| == 16 && |cp| == 16
  { Mono(s[key % 16], cp, key / 16, 1) }

  lemma Swap(a: real, x: real, y: real, ax: real, ay: real)
    requires ax == a * x && ay == a * y
    ensures ax * y == ay * x
  { }

  lemma MonoUnfold(b: real, cp: seq<real>, q: nat, i: nat, qPrev: nat)
    requires |cp| == 16 && 1 <= i <= 15 && q % 16 != 0 && qPrev == q - 1
    ensures Mono(b, cp, q, i) == Mono(b * cp[i], cp, qPrev, i)
  { }

  lemma {:induction false} MonoScale(a: real, x: real, ax: real, cp: seq<real>, q: nat, i: nat)
    requires |cp| == 16 && 1 <= i && ax == a * x
    ensures Mono(ax, cp, q, i) == Mono(a, cp, q, i) * x
    decreases q
  {
    if q == 0 || i > 15 {
    } else if q % 16 == 0 {
      MonoScale(a, x, ax, cp, q / 16, i + 1);
    } else {
      MonoUnfold(ax, cp, q, i, q - 1);
      MonoUnfold(a, cp, q, i, q - 1);
      var ac := a * cp[i];
      var axc := ax * cp[i];
      Swap(a, x, cp[i], ax, ac);
      MonoScale(ac, x, axc, cp, q - 1, i);
    }
  }

  lemma MonoSkip(b: real, cp: seq<real>, q: nat, i: nat, qHigh: nat)
    requires |cp| == 16 && 1 <= i <= 15 && q % 16 == 0 && qHigh == q / 16
    ensures Mono(b, cp, q, i) == Mono(b, cp, qHigh, i + 1)
  { }

  lemma Split(q: nat, d: nat, next: nat)
    requires 1 <= d && next == q + Radix(d)
    ensures next % 16 == q % 16 && next / 16 == q / 16 + Radix(d - 1)
  {
    assert Radix(d) == 16 * Radix(d - 1);
  }

  lemma DigitDec(q: nat, d: nat, qPrev: nat)
    requires 1 <= d && q % 16 != 0 && qPrev == q - 1
    ensures Digit(qPrev, d) == Digit(q, d)
  {
    assert qPrev / 16 == q / 16;
  }

  lemma {:induction false} MonoShift(a: real, cp: seq<real>, q: nat, i: nat, d: nat, f: nat, next: nat)
    requires |cp| == 16 && 1 <= i && f == i + d && f <= 15
    requires Digit(q, d) < 15 && next == q + Radix(d)
    ensures Mono(a, cp, next, i) == Mono(a, cp, q, i) * cp[f]
    decreases q, d, 1
  {
    if d == 0 {
      MonoUnfold(a, cp, next, i, q);
      var ac := a * cp[i];
      MonoScale(a, cp[i], ac, cp, q, i);
    } else if q % 16 == 0 {
      MonoShiftSkip(a, cp, q, i, d, f, next);
    } else {
      MonoShiftStep(a, cp, q, i, d, f, next);
    }
  }

  lemma {:induction false} MonoShiftSkip(a: real, cp: seq<real>, q: nat, i: nat, d: nat, f: nat, next: nat)
    requires |cp| == 16 && 1 <= i && 1 <= d && f == i + d && f <= 15 && q % 16 == 0
    requires Digit(q, d) < 15 && next == q + Radix(d)
    ensures Mono(a, cp, next, i) == Mono(a, cp, q, i) * cp[f]
    decreases q, d, 0
  {
    Split(q, d, next);
    MonoSkip(a, cp, next, i, next / 16);
    MonoSkip(a, cp, q, i, q / 16);
    MonoShift(a, cp, q / 16, i + 1, d - 1, f, next / 16);
  }

  lemma {:induction false} MonoShiftStep(a: real, cp: seq<real>, q: nat, i: nat, d: nat, f: nat, next: nat)
    requires |cp| == 16 && 1 <= i && 1 <= d && f == i + d && f <= 15 && q % 16 != 0
    requires Digit(q, d) < 15 && next == q + Radix(d)
    ensures Mono(a, cp, next, i) == Mono(a, cp, q, i) * cp[f]
    decreases q, d, 0
  {
    Split(q, d, next);
    MonoUnfold(a, cp, next, i, next - 1);
    MonoUnfold(a, cp, q, i, q - 1);
    DigitDec(q, d, q - 1);
    var ac := a * cp[i];
    MonoShift(ac, cp, q - 1, i, d, f, next - 1);
  }

  lemma LeafSplit(s: seq<real>, cp: seq<real>, key: nat, a: real, q: nat)
    requires |s| == 16 && |cp| == 16 && a == s[key % 16] && q == key / 16
    ensures Leaf(s, cp, key) == Mono(a, cp, q, 1)
  { }

  /** Counting one more cp[f] multiplies the product by cp[f]. */
  lemma LeafShift(s: seq<real>, cp: seq<real>, key: nat, f: nat)
    requires |s| == 16 && |cp| == 16 && 1 <= f <= 15 && Digit(key, f) < 15
    ensures Leaf(s, cp, key + Radix(f)) == Leaf(s, cp, key) * cp[f]
  {
    var next := key + Radix(f);
    Split(key, f, next);
    var a, q, qNext := s[key % 16], key / 16, next / 16;
    assert Digit(q, f - 1) == Digit(key, f);
    LeafSplit(s, cp, key, a, q);
    LeafSplit(s, cp, next, a, qNext);
    MonoShift(a, cp, q, 1, f - 1, f, qNext);
  }

  /** LeafShift for a caller that names the shifted key. */
  lemma LeafStep(s: seq<real>, cp: seq<real>, key: nat, f: nat, next: nat)
    requires |s| == 16 && |cp| == 16 && 1 <= f <= 15 && Digit(key, f) < 15 && next == key + Radix(f)
    ensures Leaf(s, cp, next) == Leaf(s, cp, key) * cp[f]
  {
    LeafShift(s, cp, key, f);
  }

  lemma {:induction false} DigitZero(d: nat)
    ensures Digit(0, d) == 0
  { if d > 0 { DigitZero(d - 1); } }

  lemma ModUnit(q: nat)
    requires q % 16 < 15
    ensures (q + 1) % 16 == q % 16 + 1 && (q + 1) / 16 == q / 16
  { }

  lemma ModBlock(q: nat, r: nat)
    ensures (q + 16 * r) % 16 == q % 16 && (q + 16 * r) / 16 == q / 16 + r
  { }

  /** Adding 16^e to q increments digit e and leaves every other digit alone. */
  lemma {:induction false} DigitShift(q: nat, e: nat, d: nat)
    requires Digit(q, e) < 15
    ensures Digit(q + Radix(e), d) == Digit(q, d) + (if d == e then 1 else 0)
    decreases d
  {
    if e == 0 {
      ModUnit(q);
      if d > 0 {
        assert Digit(q + 1, d) == Digit(q / 16, d - 1);
      }
    } else {
      var r := Radix(e - 1);
      ModBlock(q, r);
      if d > 0 {
        DigitShift(q / 16, e - 1, d - 1);
      }
    }
  }

  /** A key with no crosstalk digits is the bare Poisson weight s[m]. */
  lemma LeafBase(s: seq<real>, cp: seq<real>, m: nat)
    requires |s| == 16 && |cp| == 16 && m <= 15
    ensures Leaf(s, cp, m) == s[m]
  { }

  /** The digit weights 16^1 .. 16^15 as literals. */
  lemma RadixTable()
    ensures Radix(1) == 0x10 && Radix(2) == 0x100 && Radix(3) == 0x1000 && Radix(4) == 0x1_0000
    ensures Radix(5) == 0x10_0000 && Radix(6) == 0x100_0000 && Radix(7) == 0x1000_0000
    ensures Radix(8) == 0x1_0000_0000 && Radix(9) == 0x10_0000_0000 && Radix(10) == 0x100_0000_0000
    ensures Radix(11) == 0x1000_0000_0000 && Radix(12) == 0x1_0000_0000_0000
    ensures Radix(13) == 0x10_0000_0000_0000 && Radix(14) == 0x100_0000_0000_0000
    ensures Radix(15) == 0x1000_0000_0000_0000
  { }
}
