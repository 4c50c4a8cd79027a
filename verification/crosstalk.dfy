/**
 * The crosstalk model of the spectrum: the combinatorial constants CPn of the
 * neighbour-cell crosstalk model (n = 4 neighbours) and the per-order crosstalk
 * weights cp[k] built from them and the crosstalk probability.
 */
module Crosstalk {
  import opened Series

  /** Number of neighbour cells a fired cell can trigger. */
  const Neighbours: real := 4.0

  function Pow(x: real, e: nat): real
  { if e == 0 then 1.0 else x * Pow(x, e - 1) }

  lemma {:induction false} PowNonnegative(x: real, e: nat)
    requires 0.0 <= x
    ensures 0.0 <= Pow(x, e)
  {
    if e > 0 {
      PowNonnegative(x, e - 1);
    }
  }

  lemma PowZero(e: nat)
    requires 1 <= e
    ensures Pow(0.0, e) == 0.0
  { }

  lemma {:induction false} PowOne(e: nat)
    ensures Pow(1.0, e) == 1.0
  {
    if e > 0 {
      PowOne(e - 1);
    }
  }

  /** The sixteen constants CPn[0..15] as polynomials in the neighbour count n, as written in the constructor. */
  function CPnTable(n: real): (t: seq<real>)
    ensures |t| == 16 && t[0] == 0.0 && t[1] == 1.0 && t[2] == n
  {
    [ 0.0,
      1.0,
      n,
      (n * (-1.0 + 3.0 * n)) / 2.0,
      (n * (1.0 - 6.0 * n + 8.0 * Pow(n, 2))) / 3.0,
      (n * (-3.0 + 5.0 * n) * (-2.0 + 5.0 * n) * (-1.0 + 5.0 * n)) / 24.0,
      (n * (-1.0 + 2.0 * n) * (-2.0 + 3.0 * n) * (-1.0 + 3.0 * n) * (-1.0 + 6.0 * n)) / 10.0,
      (n * (-5.0 + 7.0 * n) * (-4.0 + 7.0 * n) * (-3.0 + 7.0 * n) * (-2.0 + 7.0 * n) * (-1.0 + 7.0 * n)) / 720.0,
      (n * (-1.0 + 2.0 * n) * (-3.0 + 4.0 * n) * (-1.0 + 4.0 * n) * (-5.0 + 8.0 * n) * (-3.0 + 8.0 * n) * (-1.0 + 8.0 * n)) / 315.0,
      (n * (-2.0 + 3.0 * n) * (-1.0 + 3.0 * n) * (-7.0 + 9.0 * n) * (-5.0 + 9.0 * n) * (-4.0 + 9.0 * n) * (-2.0 + 9.0 * n) * (-1.0 + 9.0 * n)) / 4480.0,
      (n * (-1.0 + 2.0 * n) * (-4.0 + 5.0 * n) * (-3.0 + 5.0 * n) * (-2.0 + 5.0 * n) * (-1.0 + 5.0 * n) * (-7.0 + 10.0 * n) * (-3.0 + 10.0 * n) * (-1.0 + 10.0 * n)) / 4536.0,
      (n * (-9.0 + 11.0 * n) * (-8.0 + 11.0 * n) * (-7.0 + 11.0 * n) * (-6.0 + 11.0 * n) * (-5.0 + 11.0 * n) * (-4.0 + 11.0 * n) * (-3.0 + 11.0 * n) * (-2.0 + 11.0 * n) * (-1.0 + 11.0 * n)) / 3628800.0,
      (n * (-1.0 + 2.0 * n) * (-2.0 + 3.0 * n) * (-1.0 + 3.0 * n) * (-3.0 + 4.0 * n) * (-1.0 + 4.0 * n) * (-5.0 + 6.0 * n) * (-1.0 + 6.0 * n) * (-7.0 + 12.0 * n) * (-5.0 + 12.0 * n) * (-1.0 + 12.0 * n)) / 11550.0,
      (n * (-11.0 + 13.0 * n) * (-10.0 + 13.0 * n) * (-9.0 + 13.0 * n) * (-8.0 + 13.0 * n) * (-7.0 + 13.0 * n) * (-6.0 + 13.0 * n) * (-5.0 + 13.0 * n) * (-4.0 + 13.0 * n) * (-3.0 + 13.0 * n) * (-2.0 + 13.0 * n) * (-1.0 + 13.0 * n)) / 479001600.0,
      (n * (-1.0 + 2.0 * n) * (-6.0 + 7.0 * n) * (-5.0 + 7.0 * n) * (-4.0 + 7.0 * n) * (-3.0 + 7.0 * n) * (-2.0 + 7.0 * n) * (-1.0 + 7.0 * n) * (-11.0 + 14.0 * n) * (-9.0 + 14.0 * n) * (-5.0 + 14.0 * n) * (-3.0 + 14.0 * n) * (-1.0 + 14.0 * n)) / 13899600.0,
      (Pow(n, 2) * (19802759040.0 + n * (-425547472896.0 + n * (4895614496136.0 + n * (-36007056781696.0 + n * (180954419071426.0 + n * (-643524004371248.0 + n * (1648017660281993.0 + n * (-3051606955645248.0 + n * (4048835387589993.0 + n * (-3751975766595056.0 + n * (2305159936523171.0 + n * (-843351196289056.0 + 139013933454241.0 * n))))))))))))) / 6227020800.0
    ]
  }

  /** The constants the spectrum uses: the table at n = 4. */
  const CPn: seq<real> := CPnTable(Neighbours)

  function Factorial(n: nat): nat
  { if n == 0 then 1 else n * Factorial(n - 1) }

  lemma {:induction false} FactorialPositive(n: nat)
    ensures 1 <= Factorial(n)
  {
    if n > 0 {
      FactorialPositive(n - 1);
    }
  }

  /** The binomial coefficient C(n, r). */
  function Choose(n: nat, r: nat): nat
    requires r <= n
  {
    FactorialPositive(r);
    FactorialPositive(n - r);
    Factorial(n) / (Factorial(r) * Factorial(n - r))
  }

  /** C(k n, k - 1) / k at n = 4: the number of crosstalk trees with k fired cells. */
  function FussCatalan(k: nat): real
    requires 1 <= k
  { (Choose(4 * k, k - 1) as real) / (k as real) }

  lemma FactorialTable()
    ensures Factorial(0) == 1
    ensures Factorial(1) == 1
    ensures Factorial(2) == 2
    ensures Factorial(3) == 6
    ensures Factorial(4) == 24
    ensures Factorial(5) == 120
    ensures Factorial(6) == 720
    ensures Factorial(7) == 5040
    ensures Factorial(8) == 40320
    ensures Factorial(9) == 362880
    ensures Factorial(10) == 3628800
    ensures Factorial(11) == 39916800
    ensures Factorial(12) == 479001600
    ensures Factorial(13) == 6227020800
    ensures Factorial(14) == 87178291200
    ensures Factorial(15) == 1307674368000
    ensures Factorial(16) == 20922789888000
    ensures Factorial(17) == 355687428096000
    ensures Factorial(18) == 6402373705728000
    ensures Factorial(19) == 121645100408832000
    ensures Factorial(20) == 2432902008176640000
    ensures Factorial(21) == 51090942171709440000
    ensures Factorial(22) == 1124000727777607680000
    ensures Factorial(23) == 25852016738884976640000
    ensures Factorial(24) == 620448401733239439360000
    ensures Factorial(25) == 15511210043330985984000000
    ensures Factorial(26) == 403291461126605635584000000
    ensures Factorial(27) == 10888869450418352160768000000
    ensures Factorial(28) == 304888344611713860501504000000
    ensures Factorial(29) == 8841761993739701954543616000000
    ensures Factorial(30) == 265252859812191058636308480000000
    ensures Factorial(31) == 8222838654177922817725562880000000
    ensures Factorial(32) == 263130836933693530167218012160000000
    ensures Factorial(33) == 8683317618811886495518194401280000000
    ensures Factorial(34) == 295232799039604140847618609643520000000
    ensures Factorial(35) == 10333147966386144929666651337523200000000
    ensures Factorial(36) == 371993326789901217467999448150835200000000
    ensures Factorial(37) == 13763753091226345046315979581580902400000000
    ensures Factorial(38) == 523022617466601111760007224100074291200000000
    ensures Factorial(39) == 20397882081197443358640281739902897356800000000
    ensures Factorial(40) == 815915283247897734345611269596115894272000000000
    ensures Factorial(41) == 33452526613163807108170062053440751665152000000000
    ensures Factorial(42) == 1405006117752879898543142606244511569936384000000000
    ensures Factorial(43) == 60415263063373835637355132068513997507264512000000000
    ensures Factorial(44) == 2658271574788448768043625811014615890319638528000000000
    ensures Factorial(45) == 119622220865480194561963161495657715064383733760000000000
    ensures Factorial(46) == 5502622159812088949850305428800254892961651752960000000000
    ensures Factorial(47) == 258623241511168180642964355153611979969197632389120000000000
    ensures Factorial(48) == 12413915592536072670862289047373375038521486354677760000000000
    ensures Factorial(49) == 608281864034267560872252163321295376887552831379210240000000000
    ensures Factorial(50) == 30414093201713378043612608166064768844377641568960512000000000000
    ensures Factorial(51) == 1551118753287382280224243016469303211063259720016986112000000000000
    ensures Factorial(52) == 80658175170943878571660636856403766975289505440883277824000000000000
    ensures Factorial(53) == 4274883284060025564298013753389399649690343788366813724672000000000000
    ensures Factorial(54) == 230843697339241380472092742683027581083278564571807941132288000000000000
    ensures Factorial(55) == 12696403353658275925965100847566516959580321051449436762275840000000000000
    ensures Factorial(56) == 710998587804863451854045647463724949736497978881168458687447040000000000000
    ensures Factorial(57) == 40526919504877216755680601905432322134980384796226602145184481280000000000000
    ensures Factorial(58) == 2350561331282878571829474910515074683828862318181142924420699914240000000000000
    ensures Factorial(59) == 138683118545689835737939019720389406345902876772687432540821294940160000000000000
    ensures Factorial(60) == 8320987112741390144276341183223364380754172606361245952449277696409600000000000000
  {
    assert Factorial(1) == 1;
    assert Factorial(2) == 2;
    assert Factorial(3) == 6;
    assert Factorial(4) == 24;
    assert Factorial(5) == 120;
    assert Factorial(6) == 720;
    assert Factorial(7) == 5040;
    assert Factorial(8) == 40320;
    assert Factorial(9) == 362880;
    assert Factorial(10) == 3628800;
    assert Factorial(11) == 39916800;
    assert Factorial(12) == 479001600;
    assert Factorial(13) == 6227020800;
    assert Factorial(14) == 87178291200;
    assert Factorial(15) == 1307674368000;
    assert Factorial(16) == 20922789888000;
    assert Factorial(17) == 355687428096000;
    assert Factorial(18) == 6402373705728000;
    assert Factorial(19) == 121645100408832000;
    assert Factorial(20) == 2432902008176640000;
    assert Factorial(21) == 51090942171709440000;
    assert Factorial(22) == 1124000727777607680000;
    assert Factorial(23) == 25852016738884976640000;
    assert Factorial(24) == 620448401733239439360000;
    assert Factorial(25) == 15511210043330985984000000;
    assert Factorial(26) == 403291461126605635584000000;
    assert Factorial(27) == 10888869450418352160768000000;
    assert Factorial(28) == 304888344611713860501504000000;
    assert Factorial(29) == 8841761993739701954543616000000;
    assert Factorial(30) == 265252859812191058636308480000000;
    assert Factorial(31) == 8222838654177922817725562880000000;
    assert Factorial(32) == 263130836933693530167218012160000000;
    assert Factorial(33) == 8683317618811886495518194401280000000;
    assert Factorial(34) == 295232799039604140847618609643520000000;
    assert Factorial(35) == 10333147966386144929666651337523200000000;
    assert Factorial(36) == 371993326789901217467999448150835200000000;
    assert Factorial(37) == 13763753091226345046315979581580902400000000;
    assert Factorial(38) == 523022617466601111760007224100074291200000000;
    assert Factorial(39) == 20397882081197443358640281739902897356800000000;
    assert Factorial(40) == 815915283247897734345611269596115894272000000000;
    assert Factorial(41) == 33452526613163807108170062053440751665152000000000;
    assert Factorial(42) == 1405006117752879898543142606244511569936384000000000;
    assert Factorial(43) == 60415263063373835637355132068513997507264512000000000;
    assert Factorial(44) == 2658271574788448768043625811014615890319638528000000000;
    assert Factorial(45) == 119622220865480194561963161495657715064383733760000000000;
    assert Factorial(46) == 5502622159812088949850305428800254892961651752960000000000;
    assert Factorial(47) == 258623241511168180642964355153611979969197632389120000000000;
    assert Factorial(48) == 12413915592536072670862289047373375038521486354677760000000000;
    assert Factorial(49) == 608281864034267560872252163321295376887552831379210240000000000;
    assert Factorial(50) == 30414093201713378043612608166064768844377641568960512000000000000;
    assert Factorial(51) == 1551118753287382280224243016469303211063259720016986112000000000000;
    assert Factorial(52) == 80658175170943878571660636856403766975289505440883277824000000000000;
    assert Factorial(53) == 4274883284060025564298013753389399649690343788366813724672000000000000;
    assert Factorial(54) == 230843697339241380472092742683027581083278564571807941132288000000000000;
    assert Factorial(55) == 12696403353658275925965100847566516959580321051449436762275840000000000000;
    assert Factorial(56) == 710998587804863451854045647463724949736497978881168458687447040000000000000;
    assert Factorial(57) == 40526919504877216755680601905432322134980384796226602145184481280000000000000;
    assert Factorial(58) == 2350561331282878571829474910515074683828862318181142924420699914240000000000000;
    assert Factorial(59) == 138683118545689835737939019720389406345902876772687432540821294940160000000000000;
    assert Factorial(60) == 8320987112741390144276341183223364380754172606361245952449277696409600000000000000;
  }

  /** At n = 4 every constant CPn[k], k = 1..15, is C(4k, k - 1) / k; CPn[15] agrees although it is written in a different form. */
  lemma CPnIsFussCatalan(k: nat)
    requires 1 <= k <= 15
    ensures CPn[k] == FussCatalan(k)
  {
    CPnValues();
    FactorialTable();
    if k == 1 {
      assert Choose(4, 0) == 1;
    } else if k == 2 {
      assert Choose(8, 1) == 8;
    } else if k == 3 {
      assert Choose(12, 2) == 66;
    } else if k == 4 {
      assert Choose(16, 3) == 560;
    } else if k == 5 {
      assert Choose(20, 4) == 4845;
    } else if k == 6 {
      assert Choose(24, 5) == 42504;
    } else if k == 7 {
      assert Choose(28, 6) == 376740;
    } else if k == 8 {
      assert Choose(32, 7) == 3365856;
    } else if k == 9 {
      assert Choose(36, 8) == 30260340;
    } else if k == 10 {
      assert Choose(40, 9) == 273438880;
    } else if k == 11 {
      assert Choose(44, 10) == 2481256778;
    } else if k == 12 {
      assert Choose(48, 11) == 22595200368;
    } else if k == 13 {
      assert Choose(52, 12) == 206379406870;
    } else if k == 14 {
      assert Choose(56, 13) == 1889912732400;
    } else if k == 15 {
      assert Choose(60, 14) == 17345898649800;
    }
  }

  /** The table evaluated at n = 4. */
  lemma CPnValues()
    ensures CPn == [0.0, 1.0, 4.0, 22.0, 140.0, 969.0, 7084.0, 53820.0, 420732.0, 3362260.0, 27343888.0, 225568798.0, 1882933364.0, 15875338990.0, 134993766600.0, 1156393243320.0]
  { }

  /** The constants at n = 4 are positive. */
  lemma CPnPositive(k: nat)
    requires 1 <= k <= 15
    ensures 0.0 < CPn[k]
  {
    CPnValues();
  }

  /**
   * The exponent of (1 - p) in cp[k]: k n - (k - 1) with n = 4, a natural
   * number although the model writes it as a real.
   */
  function Exponent(k: nat): (e: nat)
    requires 1 <= k
    ensures (e as real) == (k as real) * Neighbours - ((k - 1) as real)
  { 3 * k + 1 }

  /**
   * The crosstalk weight of order k: the probability that one primary
   * avalanche ends with k fired cells, CPn[k] p^(k-1) (1-p)^(kn-(k-1)).
   */
  function CrosstalkWeight(p: real, k: nat): real
    requires 1 <= k <= 15
  { CPn[k] * Pow(p, k - 1) * Pow(1.0 - p, Exponent(k)) }

  /** cp[0..15]; index 0 is never written and stays 0. */
  function CrosstalkWeights(p: real): (cp: seq<real>)
    ensures |cp| == 16 && cp[0] == 0.0
    ensures cp[1] == Pow(1.0 - p, 4)
  {
    seq(16, k requires 0 <= k < 16 => if k == 0 then 0.0 else CrosstalkWeight(p, k))
  }

  /** For a probability p in [0, 1] no crosstalk weight is negative. */
  lemma CrosstalkNonnegative(p: real, k: nat)
    requires 0.0 <= p <= 1.0 && k < 16
    ensures 0.0 <= CrosstalkWeights(p)[k]
  {
    if k > 0 {
      WeightNonnegative(p, k);
    }
  }

  lemma WeightNonnegative(p: real, k: nat)
    requires 0.0 <= p <= 1.0 && 1 <= k <= 15
    ensures 0.0 <= CrosstalkWeight(p, k)
  {
    CPnPositive(k);
    PowNonnegative(p, k - 1);
    PowNonnegative(1.0 - p, Exponent(k));
    ProductNonnegative(CPn[k], Pow(p, k - 1), Pow(1.0 - p, Exponent(k)));
  }

  lemma ProductNonnegative(c: real, a: real, b: real)
    requires 0.0 <= c && 0.0 <= a && 0.0 <= b
    ensures 0.0 <= c * a * b
  {
    assert 0.0 <= c * a;
  }

  /** Switching crosstalk off leaves only single-cell avalanches, with weight 1. */
  lemma ZeroProbability()
    ensures CrosstalkWeights(0.0) == NoCrosstalk
  {
    var cp := CrosstalkWeights(0.0);
    forall k | 0 <= k < 16
      ensures cp[k] == NoCrosstalk[k]
    {
      if k == 1 {
        PowOne(4);
      } else if k > 1 {
        PowZero(k - 1);
      }
    }
  }
}
