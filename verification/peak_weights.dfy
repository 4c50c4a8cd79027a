/**
 * The peak weights sc[1..15] exactly as the spectrum model writes them out: a
 * hand-expanded sum of products for each order, and the proof that each one
 * is the coefficient the compound series defines.
 *
 * The proof for order k goes in layers, all stated over the leaf keys of the
 * Enumeration module (a key m + sum of count_f * 16^f names the product
 * s[m] * cp[1]^count_1 * ... * cp[15]^count_15):
 *   Parts{m}Of{j}From{i}  the compositions of j into m parts whose first part
 *                         is at least i, as a linear sum of leaves, proved one
 *                         first part at a time from Parts{m-1}Of{j-i};
 *   Parts{m}Of{j}         all compositions of j into m parts (From1);
 *   Enumerated{k}         the enumeration of the series coefficient of z^k,
 *                         summing Parts{m}Of{k} over m = k .. 1;
 *   Weight{k}Term{t}      the t-th written term of sc[k] is its leaf;
 *   Weight{k}IsSeries     the written sc[k] is the series coefficient, by the
 *                         term lemmas, Enumerated{k} and SeriesIsEnumerated.
 * Orders above ProvedOrders are transcribed; for them only the value without
 * crosstalk is proved, by evaluating the written sum.
 */
module PeakWeights {
  import opened Keys
  import opened Series
  import opened Enumeration

  /** The written-out weight of peak 1. */
  function Weight1(s: seq<real>, cp: seq<real>): real
    requires |s| == 16 && |cp| == 16
  {
    1.0 * s[1] * cp[1]
  }

  /** The written-out weight of peak 2. */
  function Weight2(s: seq<real>, cp: seq<real>): real
    requires |s| == 16 && |cp| == 16
  {
    1.0 * s[1] * cp[2] +
    1.0 * s[2] * cp[1] * cp[1]
  }

  /** The written-out weight of peak 3. */
  function Weight3(s: seq<real>, cp: seq<real>): real
    requires |s| == 16 && |cp| == 16
  {
    2.0 * s[2] * cp[1] * cp[2] +
    1.0 * s[3] * cp[1] * cp[1] * cp[1] +
    1.0 * s[1] * cp[3]
  }

  /** The written-out weight of peak 4. */
  function Weight4(s: seq<real>, cp: seq<real>): real
    requires |s| == 16 && |cp| == 16
  {
    3.0 * s[3] * cp[1] * cp[1] * cp[2] +
    2.0 * s[2] * cp[1] * cp[3] +
    1.0 * s[4] * cp[1] * cp[1] * cp[1] * cp[1] +
    1.0 * s[2] * cp[2] * cp[2] +
    1.0 * s[1] * cp[4]
  }

  /** The written-out weight of peak 5. */
  function Weight5(s: seq<real>, cp: seq<real>): real
    requires |s| == 16 && |cp| == 16
  {
    3.0 * s[3] * cp[1] * cp[1] * cp[3] +
    2.0 * s[2] * cp[1] * cp[4] +
    3.0 * s[3] * cp[1] * cp[2] * cp[2] +
    1.0 * s[1] * cp[5] +
    2.0 * s[2] * cp[2] * cp[3] +
    4.0 * s[4] * cp[1] * cp[1] * cp[1] * cp[2] +
    1.0 * s[5] * cp[1] * cp[1] * cp[1] * cp[1] * cp[1]
  }

  /** The written-out weight of peak 6. */
  function Weight6(s: seq<real>, cp: seq<real>): real
    requires |s| == 16 && |cp| == 16
  {
    1.0 * s[3] * cp[2] * cp[2] * cp[2] +
    1.0 * s[2] * cp[3] * cp[3] +
    6.0 * s[4] * cp[1] * cp[1] * cp[2] * cp[2] +
    5.0 * s[5] * cp[1] * cp[1] * cp[1] * cp[1] * cp[2] +
    6.0 * s[3] * cp[1] * cp[2] * cp[3] +
    2.0 * s[2] * cp[1] * cp[5] +
    1.0 * s[1] * cp[6] +
    2.0 * s[2] * cp[2] * cp[4] +
    1.0 * s[6] * cp[1] * cp[1] * cp[1] * cp[1] * cp[1] * cp[1] +
    3.0 * s[3] * cp[1] * cp[1] * cp[4] +
    4.0 * s[4] * cp[1] * cp[1] * cp[1] * cp[3]
  }

  /** The written-out weight of peak 7. */
  function Weight7(s: seq<real>, cp: seq<real>): real
    requires |s| == 16 && |cp| == 16
  {
    1.0 * s[7] * cp[1] * cp[1] * cp[1] * cp[1] * cp[1] * cp[1] * cp[1] +
    3.0 * s[3] * cp[1] * cp[1] * cp[5] +
    4.0 * s[4] * cp[1] * cp[1] * cp[1] * cp[4] +
    6.0 * s[6] * cp[1] * cp[1] * cp[1] * cp[1] * cp[1] * cp[2] +
    5.0 * s[5] * cp[1] * cp[1] * cp[1] * cp[1] * cp[3] +
    4.0 * s[4] * cp[1] * cp[2] * cp[2] * cp[2] +
    12.0 * s[4] * cp[1] * cp[1] * cp[2] * cp[3] +
    10.0 * s[5] * cp[1] * cp[1] * cp[1] * cp[2] * cp[2] +
    2.0 * s[2] * cp[1] * cp[6] +
    6.0 * s[3] * cp[1] * cp[2] * cp[4] +
    1.0 * s[1] * cp[7] +
    2.0 * s[2] * cp[2] * cp[5] +
    2.0 * s[2] * cp[3] * cp[4] +
    3.0 * s[3] * cp[2] * cp[2] * cp[3] +
    3.0 * s[3] * cp[1] * cp[3] * cp[3]
  }

  /** The written-out weight of peak 8. */
  function Weight8(s: seq<real>, cp: seq<real>): real
    requires |s| == 16 && |cp| == 16
  {
    20.0 * s[5] * cp[1] * cp[1] * cp[1] * cp[2] * cp[3] +
    3.0 * s[3] * cp[2] * cp[3] * cp[3] +
    3.0 * s[3] * cp[1] * cp[1] * cp[6] +
    3.0 * s[3] * cp[2] * cp[2] * cp[4] +
    15.0 * s[6] * cp[1] * cp[1] * cp[1] * cp[1] * cp[2] * cp[2] +
    1.0 * s[4] * cp[2] * cp[2] * cp[2] * cp[2] +
    1.0 * s[2] * cp[4] * cp[4] +
    4.0 * s[4] * cp[1] * cp[1] * cp[1] * cp[5] +
    2.0 * s[2] * cp[2] * cp[6] +
    6.0 * s[4] * cp[1] * cp[1] * cp[3] * cp[3] +
    1.0 * s[8] * cp[1] * cp[1] * cp[1] * cp[1] * cp[1] * cp[1] * cp[1] * cp[1] +
    1.0 * s[1] * cp[8] +
    7.0 * s[7] * cp[1] * cp[1] * cp[1] * cp[1] * cp[1] * cp[1] * cp[2] +
    12.0 * s[4] * cp[1] * cp[1] * cp[2] * cp[4] +
    10.0 * s[5] * cp[1] * cp[1] * cp[2] * cp[2] * cp[2] +
    6.0 * s[3] * cp[1] * cp[2] * cp[5] +
    2.0 * s[2] * cp[3] * cp[5] +
    2.0 * s[2] * cp[1] * cp[7] +
    5.0 * s[5] * cp[1] * cp[1] * cp[1] * cp[1] * cp[4] +
    6.0 * s[6] * cp[1] * cp[1] * cp[1] * cp[1] * cp[1] * cp[3] +
    6.0 * s[3] * cp[1] * cp[3] * cp[4] +
    12.0 * s[4] * cp[1] * cp[2] * cp[2] * cp[3]
  }

  /** The written-out weight of peak 9. */
  function Weight9(s: seq<real>, cp: seq<real>): real
    requires |s| == 16 && |cp| == 16
  {
    3.0 * s[3] * cp[1] * cp[1] * cp[7] +
    5.0 * s[5] * cp[1] * cp[2] * cp[2] * cp[2] * cp[2] +
    3.0 * s[3] * cp[1] * cp[4] * cp[4] +
    1.0 * s[1] * cp[9] +
    12.0 * s[4] * cp[1] * cp[1] * cp[3] * cp[4] +
    3.0 * s[3] * cp[2] * cp[2] * cp[5] +
    20.0 * s[6] * cp[1] * cp[1] * cp[1] * cp[2] * cp[2] * cp[2] +
    1.0 * s[3] * cp[3] * cp[3] * cp[3] +
    8.0 * s[8] * cp[1] * cp[1] * cp[1] * cp[1] * cp[1] * cp[1] * cp[1] * cp[2] +
    12.0 * s[4] * cp[1] * cp[1] * cp[2] * cp[5] +
    12.0 * s[4] * cp[1] * cp[2] * cp[2] * cp[4] +
    1.0 * s[9] * cp[1] * cp[1] * cp[1] * cp[1] * cp[1] * cp[1] * cp[1] * cp[1] * cp[1] +
    30.0 * s[6] * cp[1] * cp[1] * cp[1] * cp[1] * cp[2] * cp[3] +
    12.0 * s[4] * cp[1] * cp[2] * cp[3] * cp[3] +
    2.0 * s[2] * cp[3] * cp[6] +
    6.0 * s[6] * cp[1] * cp[1] * cp[1] * cp[1] * cp[1] * cp[4] +
    5.0 * s[5] * cp[1] * cp[1] * cp[1] * cp[1] * cp[5] +
    2.0 * s[2] * cp[4] * cp[5] +
    7.0 * s[7] * cp[1] * cp[1] * cp[1] * cp[1] * cp[1] * cp[1] * cp[3] +
    30.0 * s[5] * cp[1] * cp[1] * cp[2] * cp[2] * cp[3] +
    4.0 * s[4] * cp[1] * cp[1] * cp[1] * cp[6] +
    2.0 * s[2] * cp[2] * cp[7] +
    6.0 * s[3] * cp[1] * cp[2] * cp[6] +
    20.0 * s[5] * cp[1] * cp[1] * cp[1] * cp[2] * cp[4] +
    21.0 * s[7] * cp[1] * cp[1] * cp[1] * cp[1] * cp[1] * cp[2] * cp[2] +
    6.0 * s[3] * cp[1] * cp[3] * cp[5] +
    2.0 * s[2] * cp[1] * cp[8] +
    10.0 * s[5] * cp[1] * cp[1] * cp[1] * cp[3] * cp[3] +
    6.0 * s[3] * cp[2] * cp[3] * cp[4] +
    4.0 * s[4] * cp[2] * cp[2] * cp[2] * cp[3]
  }

  /** The written-out weight of peak 10. */
  function Weight10(s: seq<real>, cp: seq<real>): real
    requires |s| == 16 && |cp| == 16
  {
    6.0 * s[3] * cp[2] * cp[3] * cp[5] +
    4.0 * s[4] * cp[1] * cp[1] * cp[1] * cp[7] +
    9.0 * s[9] * cp[1] * cp[1] * cp[1] * cp[1] * cp[1] * cp[1] * cp[1] * cp[1] * cp[2] +
    2.0 * s[2] * cp[2] * cp[8] +
    8.0 * s[8] * cp[1] * cp[1] * cp[1] * cp[1] * cp[1] * cp[1] * cp[1] * cp[3] +
    6.0 * s[3] * cp[1] * cp[4] * cp[5] +
    1.0 * s[10] * cp[1] * cp[1] * cp[1] * cp[1] * cp[1] * cp[1] * cp[1] * cp[1] * cp[1] * cp[1] +
    60.0 * s[6] * cp[1] * cp[1] * cp[1] * cp[2] * cp[2] * cp[3] +
    1.0 * s[5] * cp[2] * cp[2] * cp[2] * cp[2] * cp[2] +
    15.0 * s[6] * cp[1] * cp[1] * cp[2] * cp[2] * cp[2] * cp[2] +
    2.0 * s[2] * cp[3] * cp[7] +
    28.0 * s[8] * cp[1] * cp[1] * cp[1] * cp[1] * cp[1] * cp[1] * cp[2] * cp[2] +
    20.0 * s[5] * cp[1] * cp[1] * cp[1] * cp[2] * cp[5] +
    4.0 * s[4] * cp[1] * cp[3] * cp[3] * cp[3] +
    30.0 * s[5] * cp[1] * cp[1] * cp[2] * cp[3] * cp[3] +
    1.0 * s[2] * cp[5] * cp[5] +
    3.0 * s[3] * cp[1] * cp[1] * cp[8] +
    7.0 * s[7] * cp[1] * cp[1] * cp[1] * cp[1] * cp[1] * cp[1] * cp[4] +
    3.0 * s[3] * cp[3] * cp[3] * cp[4] +
    12.0 * s[4] * cp[1] * cp[1] * cp[3] * cp[5] +
    3.0 * s[3] * cp[2] * cp[4] * cp[4] +
    15.0 * s[6] * cp[1] * cp[1] * cp[1] * cp[1] * cp[3] * cp[3] +
    30.0 * s[6] * cp[1] * cp[1] * cp[1] * cp[1] * cp[2] * cp[4] +
    6.0 * s[4] * cp[2] * cp[2] * cp[3] * cp[3] +
    20.0 * s[5] * cp[1] * cp[2] * cp[2] * cp[2] * cp[3] +
    12.0 * s[4] * cp[1] * cp[2] * cp[2] * cp[5] +
    2.0 * s[2] * cp[1] * cp[9] +
    4.0 * s[4] * cp[2] * cp[2] * cp[2] * cp[4] +
    6.0 * s[6] * cp[1] * cp[1] * cp[1] * cp[1] * cp[1] * cp[5] +
    2.0 * s[2] * cp[4] * cp[6] +
    35.0 * s[7] * cp[1] * cp[1] * cp[1] * cp[1] * cp[2] * cp[2] * cp[2] +
    24.0 * s[4] * cp[1] * cp[2] * cp[3] * cp[4] +
    1.0 * s[1] * cp[10] +
    6.0 * s[3] * cp[1] * cp[3] * cp[6] +
    6.0 * s[3] * cp[1] * cp[2] * cp[7] +
    3.0 * s[3] * cp[2] * cp[2] * cp[6] +
    20.0 * s[5] * cp[1] * cp[1] * cp[1] * cp[3] * cp[4] +
    30.0 * s[5] * cp[1] * cp[1] * cp[2] * cp[2] * cp[4] +
    6.0 * s[4] * cp[1] * cp[1] * cp[4] * cp[4] +
    5.0 * s[5] * cp[1] * cp[1] * cp[1] * cp[1] * cp[6] +
    12.0 * s[4] * cp[1] * cp[1] * cp[2] * cp[6] +
    42.0 * s[7] * cp[1] * cp[1] * cp[1] * cp[1] * cp[1] * cp[2] * cp[3]
  }

  /** The written-out weight of peak 11. */
  function Weight11(s: seq<real>, cp: seq<real>): real
    requires |s| == 16 && |cp| == 16
  {
    2.0 * s[2] * cp[4] * cp[7] +
    21.0 * s[7] * cp[1] * cp[1] * cp[1] * cp[1] * cp[1] * cp[3] * cp[3] +
    1.0 * s[11] * cp[1] * cp[1] * cp[1] * cp[1] * cp[1] * cp[1] * cp[1] * cp[1] * cp[1] * cp[1] * cp[1] +
    2.0 * s[2] * cp[5] * cp[6] +
    12.0 * s[4] * cp[2] * cp[2] * cp[3] * cp[4] +
    42.0 * s[7] * cp[1] * cp[1] * cp[1] * cp[1] * cp[1] * cp[2] * cp[4] +
    6.0 * s[3] * cp[1] * cp[2] * cp[8] +
    10.0 * s[5] * cp[1] * cp[1] * cp[3] * cp[3] * cp[3] +
    1.0 * s[1] * cp[11] +
    20.0 * s[5] * cp[1] * cp[2] * cp[2] * cp[2] * cp[4] +
    60.0 * s[5] * cp[1] * cp[1] * cp[2] * cp[3] * cp[4] +
    8.0 * s[8] * cp[1] * cp[1] * cp[1] * cp[1] * cp[1] * cp[1] * cp[1] * cp[4] +
    30.0 * s[5] * cp[1] * cp[1] * cp[2] * cp[2] * cp[5] +
    3.0 * s[3] * cp[1] * cp[1] * cp[9] +
    60.0 * s[6] * cp[1] * cp[1] * cp[2] * cp[2] * cp[2] * cp[3] +
    2.0 * s[2] * cp[2] * cp[9] +
    10.0 * s[10] * cp[1] * cp[1] * cp[1] * cp[1] * cp[1] * cp[1] * cp[1] * cp[1] * cp[1] * cp[2] +
    20.0 * s[5] * cp[1] * cp[1] * cp[1] * cp[3] * cp[5] +
    4.0 * s[4] * cp[1] * cp[1] * cp[1] * cp[8] +
    60.0 * s[6] * cp[1] * cp[1] * cp[1] * cp[2] * cp[2] * cp[4] +
    3.0 * s[3] * cp[3] * cp[3] * cp[5] +
    6.0 * s[3] * cp[2] * cp[3] * cp[6] +
    5.0 * s[5] * cp[1] * cp[1] * cp[1] * cp[1] * cp[7] +
    6.0 * s[3] * cp[2] * cp[4] * cp[5] +
    2.0 * s[2] * cp[1] * cp[10] +
    24.0 * s[4] * cp[1] * cp[2] * cp[3] * cp[5] +
    12.0 * s[4] * cp[1] * cp[1] * cp[3] * cp[6] +
    60.0 * s[6] * cp[1] * cp[1] * cp[1] * cp[2] * cp[3] * cp[3] +
    30.0 * s[5] * cp[1] * cp[2] * cp[2] * cp[3] * cp[3] +
    7.0 * s[7] * cp[1] * cp[1] * cp[1] * cp[1] * cp[1] * cp[1] * cp[5] +
    12.0 * s[4] * cp[1] * cp[3] * cp[3] * cp[4] +
    5.0 * s[5] * cp[2] * cp[2] * cp[2] * cp[2] * cp[3] +
    36.0 * s[9] * cp[1] * cp[1] * cp[1] * cp[1] * cp[1] * cp[1] * cp[1] * cp[2] * cp[2] +
    12.0 * s[4] * cp[1] * cp[1] * cp[4] * cp[5] +
    105.0 * s[7] * cp[1] * cp[1] * cp[1] * cp[1] * cp[2] * cp[2] * cp[3] +
    12.0 * s[4] * cp[1] * cp[1] * cp[2] * cp[7] +
    12.0 * s[4] * cp[1] * cp[2] * cp[4] * cp[4] +
    6.0 * s[6] * cp[1] * cp[2] * cp[2] * cp[2] * cp[2] * cp[2] +
    3.0 * s[3] * cp[1] * cp[5] * cp[5] +
    56.0 * s[8] * cp[1] * cp[1] * cp[1] * cp[1] * cp[1] * cp[2] * cp[2] * cp[2] +
    6.0 * s[3] * cp[1] * cp[4] * cp[6] +
    4.0 * s[4] * cp[2] * cp[3] * cp[3] * cp[3] +
    30.0 * s[6] * cp[1] * cp[1] * cp[1] * cp[1] * cp[2] * cp[5] +
    4.0 * s[4] * cp[2] * cp[2] * cp[2] * cp[5] +
    6.0 * s[3] * cp[1] * cp[3] * cp[7] +
    30.0 * s[6] * cp[1] * cp[1] * cp[1] * cp[1] * cp[3] * cp[4] +
    6.0 * s[6] * cp[1] * cp[1] * cp[1] * cp[1] * cp[1] * cp[6] +
    56.0 * s[8] * cp[1] * cp[1] * cp[1] * cp[1] * cp[1] * cp[1] * cp[2] * cp[3] +
    9.0 * s[9] * cp[1] * cp[1] * cp[1] * cp[1] * cp[1] * cp[1] * cp[1] * cp[1] * cp[3] +
    2.0 * s[2] * cp[3] * cp[8] +
    3.0 * s[3] * cp[3] * cp[4] * cp[4] +
    3.0 * s[3] * cp[2] * cp[2] * cp[7] +
    10.0 * s[5] * cp[1] * cp[1] * cp[1] * cp[4] * cp[4] +
    20.0 * s[5] * cp[1] * cp[1] * cp[1] * cp[2] * cp[6] +
    12.0 * s[4] * cp[1] * cp[2] * cp[2] * cp[6] +
    35.0 * s[7] * cp[1] * cp[1] * cp[1] * cp[2] * cp[2] * cp[2] * cp[2]
  }

  /** The written-out weight of peak 12. */
  function Weight12(s: seq<real>, cp: seq<real>): real
    requires |s| == 16 && |cp| == 16
  {
    42.0 * s[7] * cp[1] * cp[1] * cp[1] * cp[1] * cp[1] * cp[3] * cp[4] +
    6.0 * s[3] * cp[1] * cp[4] * cp[7] +
    12.0 * s[4] * cp[1] * cp[3] * cp[4] * cp[4] +
    3.0 * s[3] * cp[2] * cp[5] * cp[5] +
    30.0 * s[6] * cp[1] * cp[1] * cp[1] * cp[1] * cp[3] * cp[5] +
    168.0 * s[8] * cp[1] * cp[1] * cp[1] * cp[1] * cp[1] * cp[2] * cp[2] * cp[3] +
    1.0 * s[2] * cp[6] * cp[6] +
    6.0 * s[3] * cp[1] * cp[2] * cp[9] +
    72.0 * s[9] * cp[1] * cp[1] * cp[1] * cp[1] * cp[1] * cp[1] * cp[1] * cp[2] * cp[3] +
    60.0 * s[6] * cp[1] * cp[1] * cp[2] * cp[2] * cp[2] * cp[4] +
    6.0 * s[6] * cp[1] * cp[1] * cp[1] * cp[1] * cp[1] * cp[7] +
    21.0 * s[7] * cp[1] * cp[1] * cp[2] * cp[2] * cp[2] * cp[2] * cp[2] +
    6.0 * s[3] * cp[2] * cp[3] * cp[7] +
    42.0 * s[7] * cp[1] * cp[1] * cp[1] * cp[1] * cp[1] * cp[2] * cp[5] +
    60.0 * s[5] * cp[1] * cp[2] * cp[2] * cp[3] * cp[4] +
    3.0 * s[3] * cp[3] * cp[3] * cp[6] +
    20.0 * s[6] * cp[1] * cp[1] * cp[1] * cp[3] * cp[3] * cp[3] +
    10.0 * s[5] * cp[2] * cp[2] * cp[2] * cp[3] * cp[3] +
    60.0 * s[6] * cp[1] * cp[1] * cp[1] * cp[2] * cp[2] * cp[5] +
    1.0 * s[3] * cp[4] * cp[4] * cp[4] +
    1.0 * s[4] * cp[3] * cp[3] * cp[3] * cp[3] +
    105.0 * s[7] * cp[1] * cp[1] * cp[1] * cp[1] * cp[2] * cp[3] * cp[3] +
    12.0 * s[4] * cp[2] * cp[2] * cp[3] * cp[5] +
    2.0 * s[2] * cp[1] * cp[11] +
    10.0 * s[10] * cp[1] * cp[1] * cp[1] * cp[1] * cp[1] * cp[1] * cp[1] * cp[1] * cp[1] * cp[3] +
    70.0 * s[8] * cp[1] * cp[1] * cp[1] * cp[1] * cp[2] * cp[2] * cp[2] * cp[2] +
    20.0 * s[5] * cp[1] * cp[1] * cp[1] * cp[4] * cp[5] +
    2.0 * s[2] * cp[4] * cp[8] +
    30.0 * s[6] * cp[1] * cp[1] * cp[1] * cp[1] * cp[2] * cp[6] +
    140.0 * s[7] * cp[1] * cp[1] * cp[1] * cp[2] * cp[2] * cp[2] * cp[3] +
    4.0 * s[4] * cp[2] * cp[2] * cp[2] * cp[6] +
    28.0 * s[8] * cp[1] * cp[1] * cp[1] * cp[1] * cp[1] * cp[1] * cp[3] * cp[3] +
    15.0 * s[6] * cp[1] * cp[1] * cp[1] * cp[1] * cp[4] * cp[4] +
    45.0 * s[10] * cp[1] * cp[1] * cp[1] * cp[1] * cp[1] * cp[1] * cp[1] * cp[1] * cp[2] * cp[2] +
    3.0 * s[3] * cp[2] * cp[2] * cp[8] +
    56.0 * s[8] * cp[1] * cp[1] * cp[1] * cp[1] * cp[1] * cp[1] * cp[2] * cp[4] +
    1.0 * s[6] * cp[2] * cp[2] * cp[2] * cp[2] * cp[2] * cp[2] +
    12.0 * s[4] * cp[1] * cp[1] * cp[4] * cp[6] +
    12.0 * s[4] * cp[1] * cp[1] * cp[2] * cp[8] +
    30.0 * s[5] * cp[1] * cp[1] * cp[2] * cp[4] * cp[4] +
    12.0 * s[4] * cp[1] * cp[2] * cp[2] * cp[7] +
    6.0 * s[3] * cp[2] * cp[4] * cp[6] +
    9.0 * s[9] * cp[1] * cp[1] * cp[1] * cp[1] * cp[1] * cp[1] * cp[1] * cp[1] * cp[4] +
    20.0 * s[5] * cp[1] * cp[2] * cp[2] * cp[2] * cp[5] +
    90.0 * s[6] * cp[1] * cp[1] * cp[2] * cp[2] * cp[3] * cp[3] +
    6.0 * s[3] * cp[1] * cp[3] * cp[8] +
    3.0 * s[3] * cp[1] * cp[1] * cp[10] +
    7.0 * s[7] * cp[1] * cp[1] * cp[1] * cp[1] * cp[1] * cp[1] * cp[6] +
    2.0 * s[2] * cp[2] * cp[10] +
    24.0 * s[4] * cp[1] * cp[2] * cp[3] * cp[6] +
    2.0 * s[2] * cp[3] * cp[9] +
    4.0 * s[4] * cp[1] * cp[1] * cp[1] * cp[9] +
    1.0 * s[1] * cp[12] +
    84.0 * s[9] * cp[1] * cp[1] * cp[1] * cp[1] * cp[1] * cp[1] * cp[2] * cp[2] * cp[2] +
    12.0 * s[4] * cp[2] * cp[3] * cp[3] * cp[4] +
    6.0 * s[4] * cp[2] * cp[2] * cp[4] * cp[4] +
    20.0 * s[5] * cp[1] * cp[1] * cp[1] * cp[2] * cp[7] +
    1.0 * s[12] * cp[1] * cp[1] * cp[1] * cp[1] * cp[1] * cp[1] * cp[1] * cp[1] * cp[1] * cp[1] * cp[1] * cp[1] +
    20.0 * s[5] * cp[1] * cp[1] * cp[1] * cp[3] * cp[6] +
    30.0 * s[5] * cp[1] * cp[1] * cp[2] * cp[2] * cp[6] +
    8.0 * s[8] * cp[1] * cp[1] * cp[1] * cp[1] * cp[1] * cp[1] * cp[1] * cp[5] +
    60.0 * s[5] * cp[1] * cp[1] * cp[2] * cp[3] * cp[5] +
    12.0 * s[4] * cp[1] * cp[1] * cp[3] * cp[7] +
    20.0 * s[5] * cp[1] * cp[2] * cp[3] * cp[3] * cp[3] +
    2.0 * s[2] * cp[5] * cp[7] +
    5.0 * s[5] * cp[2] * cp[2] * cp[2] * cp[2] * cp[4] +
    6.0 * s[3] * cp[1] * cp[5] * cp[6] +
    12.0 * s[4] * cp[1] * cp[3] * cp[3] * cp[5] +
    105.0 * s[7] * cp[1] * cp[1] * cp[1] * cp[1] * cp[2] * cp[2] * cp[4] +
    11.0 * s[11] * cp[1] * cp[1] * cp[1] * cp[1] * cp[1] * cp[1] * cp[1] * cp[1] * cp[1] * cp[1] * cp[2] +
    120.0 * s[6] * cp[1] * cp[1] * cp[1] * cp[2] * cp[3] * cp[4] +
    30.0 * s[6] * cp[1] * cp[2] * cp[2] * cp[2] * cp[2] * cp[3] +
    30.0 * s[5] * cp[1] * cp[1] * cp[3] * cp[3] * cp[4] +
    6.0 * s[3] * cp[3] * cp[4] * cp[5] +
    24.0 * s[4] * cp[1] * cp[2] * cp[4] * cp[5] +
    5.0 * s[5] * cp[1] * cp[1] * cp[1] * cp[1] * cp[8] +
    6.0 * s[4] * cp[1] * cp[1] * cp[5] * cp[5]
  }

  /** The written-out weight of peak 13. */
  function Weight13(s: seq<real>, cp: seq<real>): real
    requires |s| == 16 && |cp| == 16
  {
    280.0 * s[8] * cp[1] * cp[1] * cp[1] * cp[1] * cp[2] * cp[2] * cp[2] * cp[3] +
    6.0 * s[3] * cp[1] * cp[2] * cp[10] +
    12.0 * s[4] * cp[1] * cp[1] * cp[2] * cp[9] +
    56.0 * s[8] * cp[1] * cp[1] * cp[1] * cp[1] * cp[1] * cp[1] * cp[3] * cp[4] +
    20.0 * s[5] * cp[1] * cp[1] * cp[1] * cp[3] * cp[7] +
    2.0 * s[2] * cp[5] * cp[8] +
    3.0 * s[3] * cp[2] * cp[2] * cp[9] +
    2.0 * s[2] * cp[6] * cp[7] +
    20.0 * s[5] * cp[1] * cp[2] * cp[2] * cp[2] * cp[6] +
    56.0 * s[8] * cp[1] * cp[1] * cp[1] * cp[2] * cp[2] * cp[2] * cp[2] * cp[2] +
    5.0 * s[5] * cp[1] * cp[1] * cp[1] * cp[1] * cp[9] +
    42.0 * s[7] * cp[1] * cp[1] * cp[1] * cp[1] * cp[1] * cp[3] * cp[5] +
    30.0 * s[5] * cp[1] * cp[2] * cp[2] * cp[4] * cp[4] +
    72.0 * s[9] * cp[1] * cp[1] * cp[1] * cp[1] * cp[1] * cp[1] * cp[1] * cp[2] * cp[4] +
    30.0 * s[6] * cp[1] * cp[1] * cp[1] * cp[1] * cp[4] * cp[5] +
    36.0 * s[9] * cp[1] * cp[1] * cp[1] * cp[1] * cp[1] * cp[1] * cp[1] * cp[3] * cp[3] +
    6.0 * s[3] * cp[2] * cp[3] * cp[8] +
    105.0 * s[7] * cp[1] * cp[1] * cp[1] * cp[1] * cp[2] * cp[2] * cp[5] +
    2.0 * s[2] * cp[1] * cp[12] +
    6.0 * s[3] * cp[1] * cp[5] * cp[7] +
    2.0 * s[2] * cp[2] * cp[11] +
    12.0 * s[4] * cp[2] * cp[3] * cp[4] * cp[4] +
    12.0 * s[4] * cp[1] * cp[2] * cp[5] * cp[5] +
    42.0 * s[7] * cp[1] * cp[1] * cp[1] * cp[1] * cp[1] * cp[2] * cp[6] +
    60.0 * s[5] * cp[1] * cp[2] * cp[2] * cp[3] * cp[5] +
    24.0 * s[4] * cp[1] * cp[2] * cp[3] * cp[7] +
    30.0 * s[6] * cp[1] * cp[1] * cp[1] * cp[1] * cp[2] * cp[7] +
    11.0 * s[11] * cp[1] * cp[1] * cp[1] * cp[1] * cp[1] * cp[1] * cp[1] * cp[1] * cp[1] * cp[1] * cp[3] +
    60.0 * s[5] * cp[1] * cp[2] * cp[3] * cp[3] * cp[4] +
    12.0 * s[4] * cp[1] * cp[3] * cp[3] * cp[6] +
    12.0 * s[4] * cp[1] * cp[1] * cp[4] * cp[7] +
    12.0 * s[4] * cp[2] * cp[2] * cp[4] * cp[5] +
    10.0 * s[10] * cp[1] * cp[1] * cp[1] * cp[1] * cp[1] * cp[1] * cp[1] * cp[1] * cp[1] * cp[4] +
    60.0 * s[6] * cp[1] * cp[2] * cp[2] * cp[2] * cp[3] * cp[3] +
    12.0 * s[4] * cp[2] * cp[3] * cp[3] * cp[5] +
    3.0 * s[3] * cp[3] * cp[3] * cp[7] +
    6.0 * s[3] * cp[1] * cp[3] * cp[9] +
    3.0 * s[3] * cp[1] * cp[6] * cp[6] +
    12.0 * s[4] * cp[1] * cp[2] * cp[2] * cp[8] +
    10.0 * s[5] * cp[2] * cp[2] * cp[3] * cp[3] * cp[3] +
    8.0 * s[8] * cp[1] * cp[1] * cp[1] * cp[1] * cp[1] * cp[1] * cp[1] * cp[6] +
    3.0 * s[3] * cp[4] * cp[4] * cp[5] +
    210.0 * s[7] * cp[1] * cp[1] * cp[1] * cp[2] * cp[2] * cp[3] * cp[3] +
    30.0 * s[6] * cp[1] * cp[1] * cp[1] * cp[1] * cp[3] * cp[6] +
    12.0 * s[4] * cp[1] * cp[1] * cp[5] * cp[6] +
    60.0 * s[6] * cp[1] * cp[1] * cp[1] * cp[2] * cp[2] * cp[6] +
    120.0 * s[10] * cp[1] * cp[1] * cp[1] * cp[1] * cp[1] * cp[1] * cp[1] * cp[2] * cp[2] * cp[2] +
    20.0 * s[5] * cp[1] * cp[1] * cp[1] * cp[4] * cp[6] +
    126.0 * s[9] * cp[1] * cp[1] * cp[1] * cp[1] * cp[1] * cp[2] * cp[2] * cp[2] * cp[2] +
    5.0 * s[5] * cp[2] * cp[2] * cp[2] * cp[2] * cp[5] +
    210.0 * s[7] * cp[1] * cp[1] * cp[1] * cp[1] * cp[2] * cp[3] * cp[4] +
    4.0 * s[4] * cp[2] * cp[2] * cp[2] * cp[7] +
    140.0 * s[7] * cp[1] * cp[1] * cp[1] * cp[2] * cp[2] * cp[2] * cp[4] +
    9.0 * s[9] * cp[1] * cp[1] * cp[1] * cp[1] * cp[1] * cp[1] * cp[1] * cp[1] * cp[5] +
    12.0 * s[4] * cp[1] * cp[1] * cp[3] * cp[8] +
    2.0 * s[2] * cp[3] * cp[10] +
    12.0 * s[12] * cp[1] * cp[1] * cp[1] * cp[1] * cp[1] * cp[1] * cp[1] * cp[1] * cp[1] * cp[1] * cp[1] * cp[2] +
    7.0 * s[7] * cp[1] * cp[2] * cp[2] * cp[2] * cp[2] * cp[2] * cp[2] +
    30.0 * s[5] * cp[1] * cp[1] * cp[2] * cp[2] * cp[7] +
    168.0 * s[8] * cp[1] * cp[1] * cp[1] * cp[1] * cp[1] * cp[2] * cp[3] * cp[3] +
    5.0 * s[5] * cp[1] * cp[3] * cp[3] * cp[3] * cp[3] +
    6.0 * s[6] * cp[2] * cp[2] * cp[2] * cp[2] * cp[2] * cp[3] +
    6.0 * s[3] * cp[2] * cp[5] * cp[6] +
    60.0 * s[6] * cp[1] * cp[1] * cp[2] * cp[3] * cp[3] * cp[3] +
    120.0 * s[6] * cp[1] * cp[1] * cp[1] * cp[2] * cp[3] * cp[5] +
    60.0 * s[6] * cp[1] * cp[1] * cp[1] * cp[3] * cp[3] * cp[4] +
    105.0 * s[7] * cp[1] * cp[1] * cp[2] * cp[2] * cp[2] * cp[2] * cp[3] +
    4.0 * s[4] * cp[1] * cp[4] * cp[4] * cp[4] +
    4.0 * s[4] * cp[3] * cp[3] * cp[3] * cp[4] +
    10.0 * s[5] * cp[1] * cp[1] * cp[1] * cp[5] * cp[5] +
    20.0 * s[5] * cp[1] * cp[1] * cp[1] * cp[2] * cp[8] +
    1.0 * s[13] * cp[1] * cp[1] * cp[1] * cp[1] * cp[1] * cp[1] * cp[1] * cp[1] * cp[1] * cp[1] * cp[1] * cp[1] * cp[1] +
    60.0 * s[5] * cp[1] * cp[1] * cp[2] * cp[4] * cp[5] +
    56.0 * s[8] * cp[1] * cp[1] * cp[1] * cp[1] * cp[1] * cp[1] * cp[2] * cp[5] +
    12.0 * s[4] * cp[2] * cp[2] * cp[3] * cp[6] +
    6.0 * s[3] * cp[3] * cp[4] * cp[6] +
    30.0 * s[5] * cp[1] * cp[1] * cp[3] * cp[4] * cp[4] +
    24.0 * s[4] * cp[1] * cp[2] * cp[4] * cp[6] +
    1.0 * s[1] * cp[13] +
    60.0 * s[6] * cp[1] * cp[1] * cp[1] * cp[2] * cp[4] * cp[4] +
    24.0 * s[4] * cp[1] * cp[3] * cp[4] * cp[5] +
    30.0 * s[5] * cp[1] * cp[1] * cp[3] * cp[3] * cp[5] +
    168.0 * s[8] * cp[1] * cp[1] * cp[1] * cp[1] * cp[1] * cp[2] * cp[2] * cp[4] +
    2.0 * s[2] * cp[4] * cp[9] +
    30.0 * s[6] * cp[1] * cp[2] * cp[2] * cp[2] * cp[2] * cp[4] +
    60.0 * s[6] * cp[1] * cp[1] * cp[2] * cp[2] * cp[2] * cp[5] +
    60.0 * s[5] * cp[1] * cp[1] * cp[2] * cp[3] * cp[6] +
    3.0 * s[3] * cp[1] * cp[1] * cp[11] +
    7.0 * s[7] * cp[1] * cp[1] * cp[1] * cp[1] * cp[1] * cp[1] * cp[7] +
    6.0 * s[6] * cp[1] * cp[1] * cp[1] * cp[1] * cp[1] * cp[8] +
    6.0 * s[3] * cp[2] * cp[4] * cp[7] +
    55.0 * s[11] * cp[1] * cp[1] * cp[1] * cp[1] * cp[1] * cp[1] * cp[1] * cp[1] * cp[1] * cp[2] * cp[2] +
    21.0 * s[7] * cp[1] * cp[1] * cp[1] * cp[1] * cp[1] * cp[4] * cp[4] +
    35.0 * s[7] * cp[1] * cp[1] * cp[1] * cp[1] * cp[3] * cp[3] * cp[3] +
    252.0 * s[9] * cp[1] * cp[1] * cp[1] * cp[1] * cp[1] * cp[1] * cp[2] * cp[2] * cp[3] +
    90.0 * s[10] * cp[1] * cp[1] * cp[1] * cp[1] * cp[1] * cp[1] * cp[1] * cp[1] * cp[2] * cp[3] +
    6.0 * s[3] * cp[1] * cp[4] * cp[8] +
    180.0 * s[6] * cp[1] * cp[1] * cp[2] * cp[2] * cp[3] * cp[4] +
    4.0 * s[4] * cp[1] * cp[1] * cp[1] * cp[10] +
    3.0 * s[3] * cp[3] * cp[5] * cp[5] +
    20.0 * s[5] * cp[2] * cp[2] * cp[2] * cp[3] * cp[4]
  }

  /** The written-out weight of peak 14. */
  function Weight14(s: seq<real>, cp: seq<real>): real
    requires |s| == 16 && |cp| == 16
  {
    8.0 * s[8] * cp[1] * cp[1] * cp[1] * cp[1] * cp[1] * cp[1] * cp[1] * cp[7] +
    110.0 * s[11] * cp[1] * cp[1] * cp[1] * cp[1] * cp[1] * cp[1] * cp[1] * cp[1] * cp[1] * cp[2] * cp[3] +
    42.0 * s[7] * cp[1] * cp[1] * cp[1] * cp[1] * cp[1] * cp[2] * cp[7] +
    12.0 * s[4] * cp[1] * cp[1] * cp[4] * cp[8] +
    12.0 * s[4] * cp[1] * cp[4] * cp[4] * cp[5] +
    4.0 * s[4] * cp[3] * cp[3] * cp[3] * cp[5] +
    20.0 * s[5] * cp[1] * cp[1] * cp[1] * cp[3] * cp[8] +
    45.0 * s[10] * cp[1] * cp[1] * cp[1] * cp[1] * cp[1] * cp[1] * cp[1] * cp[1] * cp[3] * cp[3] +
    420.0 * s[7] * cp[1] * cp[1] * cp[1] * cp[2] * cp[2] * cp[3] * cp[4] +
    12.0 * s[4] * cp[2] * cp[2] * cp[3] * cp[7] +
    24.0 * s[4] * cp[1] * cp[2] * cp[4] * cp[7] +
    90.0 * s[6] * cp[1] * cp[1] * cp[2] * cp[2] * cp[4] * cp[4] +
    6.0 * s[4] * cp[2] * cp[2] * cp[5] * cp[5] +
    2.0 * s[2] * cp[4] * cp[10] +
    20.0 * s[5] * cp[2] * cp[2] * cp[2] * cp[3] * cp[5] +
    1.0 * s[7] * cp[2] * cp[2] * cp[2] * cp[2] * cp[2] * cp[2] * cp[2] +
    6.0 * s[4] * cp[3] * cp[3] * cp[4] * cp[4] +
    105.0 * s[7] * cp[1] * cp[1] * cp[1] * cp[1] * cp[3] * cp[3] * cp[4] +
    168.0 * s[8] * cp[1] * cp[1] * cp[1] * cp[1] * cp[1] * cp[2] * cp[2] * cp[5] +
    6.0 * s[3] * cp[2] * cp[5] * cp[7] +
    2.0 * s[2] * cp[6] * cp[8] +
    105.0 * s[7] * cp[1] * cp[1] * cp[2] * cp[2] * cp[2] * cp[2] * cp[4] +
    6.0 * s[3] * cp[2] * cp[4] * cp[8] +
    60.0 * s[6] * cp[1] * cp[1] * cp[1] * cp[2] * cp[2] * cp[7] +
    210.0 * s[10] * cp[1] * cp[1] * cp[1] * cp[1] * cp[1] * cp[1] * cp[2] * cp[2] * cp[2] * cp[2] +
    72.0 * s[9] * cp[1] * cp[1] * cp[1] * cp[1] * cp[1] * cp[1] * cp[1] * cp[3] * cp[4] +
    6.0 * s[6] * cp[2] * cp[2] * cp[2] * cp[2] * cp[2] * cp[4] +
    20.0 * s[5] * cp[1] * cp[2] * cp[2] * cp[2] * cp[7] +
    30.0 * s[5] * cp[1] * cp[1] * cp[3] * cp[3] * cp[6] +
    7.0 * s[7] * cp[1] * cp[1] * cp[1] * cp[1] * cp[1] * cp[1] * cp[8] +
    6.0 * s[3] * cp[3] * cp[4] * cp[7] +
    4.0 * s[4] * cp[2] * cp[2] * cp[2] * cp[8] +
    60.0 * s[5] * cp[1] * cp[2] * cp[2] * cp[4] * cp[5] +
    140.0 * s[7] * cp[1] * cp[1] * cp[1] * cp[2] * cp[3] * cp[3] * cp[3] +
    2.0 * s[2] * cp[2] * cp[12] +
    15.0 * s[6] * cp[1] * cp[1] * cp[3] * cp[3] * cp[3] * cp[3] +
    210.0 * s[7] * cp[1] * cp[1] * cp[1] * cp[1] * cp[2] * cp[3] * cp[5] +
    66.0 * s[12] * cp[1] * cp[1] * cp[1] * cp[1] * cp[1] * cp[1] * cp[1] * cp[1] * cp[1] * cp[1] * cp[2] * cp[2] +
    12.0 * s[4] * cp[1] * cp[3] * cp[5] * cp[5] +
    24.0 * s[4] * cp[2] * cp[3] * cp[4] * cp[5] +
    15.0 * s[6] * cp[2] * cp[2] * cp[2] * cp[2] * cp[3] * cp[3] +
    140.0 * s[7] * cp[1] * cp[1] * cp[1] * cp[2] * cp[2] * cp[2] * cp[5] +
    12.0 * s[4] * cp[2] * cp[3] * cp[3] * cp[6] +
    6.0 * s[4] * cp[1] * cp[1] * cp[6] * cp[6] +
    42.0 * s[7] * cp[1] * cp[2] * cp[2] * cp[2] * cp[2] * cp[2] * cp[3] +
    60.0 * s[6] * cp[1] * cp[1] * cp[1] * cp[3] * cp[4] * cp[4] +
    1.0 * s[2] * cp[7] * cp[7] +
    4.0 * s[4] * cp[2] * cp[4] * cp[4] * cp[4] +
    10.0 * s[10] * cp[1] * cp[1] * cp[1] * cp[1] * cp[1] * cp[1] * cp[1] * cp[1] * cp[1] * cp[5] +
    12.0 * s[4] * cp[1] * cp[2] * cp[2] * cp[9] +
    72.0 * s[9] * cp[1] * cp[1] * cp[1] * cp[1] * cp[1] * cp[1] * cp[1] * cp[2] * cp[5] +
    30.0 * s[5] * cp[2] * cp[2] * cp[3] * cp[3] * cp[4] +
    3.0 * s[3] * cp[1] * cp[1] * cp[12] +
    120.0 * s[6] * cp[1] * cp[2] * cp[2] * cp[2] * cp[3] * cp[4] +
    30.0 * s[5] * cp[1] * cp[1] * cp[2] * cp[5] * cp[5] +
    28.0 * s[8] * cp[1] * cp[1] * cp[2] * cp[2] * cp[2] * cp[2] * cp[2] * cp[2] +
    28.0 * s[8] * cp[1] * cp[1] * cp[1] * cp[1] * cp[1] * cp[1] * cp[4] * cp[4] +
    9.0 * s[9] * cp[1] * cp[1] * cp[1] * cp[1] * cp[1] * cp[1] * cp[1] * cp[1] * cp[6] +
    56.0 * s[8] * cp[1] * cp[1] * cp[1] * cp[1] * cp[1] * cp[1] * cp[2] * cp[6] +
    30.0 * s[6] * cp[1] * cp[1] * cp[1] * cp[1] * cp[3] * cp[7] +
    60.0 * s[5] * cp[1] * cp[2] * cp[3] * cp[3] * cp[5] +
    60.0 * s[6] * cp[1] * cp[2] * cp[2] * cp[3] * cp[3] * cp[3] +
    24.0 * s[4] * cp[1] * cp[2] * cp[5] * cp[6] +
    10.0 * s[5] * cp[1] * cp[1] * cp[4] * cp[4] * cp[4] +
    336.0 * s[8] * cp[1] * cp[1] * cp[1] * cp[1] * cp[1] * cp[2] * cp[3] * cp[4] +
    105.0 * s[7] * cp[1] * cp[1] * cp[1] * cp[1] * cp[2] * cp[2] * cp[6] +
    24.0 * s[4] * cp[1] * cp[3] * cp[4] * cp[6] +
    6.0 * s[3] * cp[1] * cp[4] * cp[9] +
    6.0 * s[3] * cp[3] * cp[5] * cp[6] +
    1.0 * s[14] * cp[1] * cp[1] * cp[1] * cp[1] * cp[1] * cp[1] * cp[1] * cp[1] * cp[1] * cp[1] * cp[1] * cp[1] * cp[1] * cp[1] +
    20.0 * s[5] * cp[1] * cp[3] * cp[3] * cp[3] * cp[4] +
    13.0 * s[13] * cp[1] * cp[1] * cp[1] * cp[1] * cp[1] * cp[1] * cp[1] * cp[1] * cp[1] * cp[1] * cp[1] * cp[1] * cp[2] +
    180.0 * s[6] * cp[1] * cp[1] * cp[2] * cp[3] * cp[3] * cp[4] +
    5.0 * s[5] * cp[1] * cp[1] * cp[1] * cp[1] * cp[10] +
    60.0 * s[5] * cp[1] * cp[2] * cp[3] * cp[4] * cp[4] +
    6.0 * s[3] * cp[1] * cp[2] * cp[11] +
    30.0 * s[6] * cp[1] * cp[1] * cp[1] * cp[1] * cp[2] * cp[8] +
    165.0 * s[11] * cp[1] * cp[1] * cp[1] * cp[1] * cp[1] * cp[1] * cp[1] * cp[1] * cp[2] * cp[2] * cp[2] +
    20.0 * s[5] * cp[1] * cp[1] * cp[1] * cp[2] * cp[9] +
    3.0 * s[3] * cp[2] * cp[6] * cp[6] +
    60.0 * s[5] * cp[1] * cp[1] * cp[2] * cp[4] * cp[6] +
    252.0 * s[9] * cp[1] * cp[1] * cp[1] * cp[1] * cp[1] * cp[1] * cp[2] * cp[2] * cp[4] +
    56.0 * s[8] * cp[1] * cp[1] * cp[1] * cp[1] * cp[1] * cp[1] * cp[3] * cp[5] +
    5.0 * s[5] * cp[2] * cp[2] * cp[2] * cp[2] * cp[6] +
    24.0 * s[4] * cp[1] * cp[2] * cp[3] * cp[8] +
    12.0 * s[4] * cp[1] * cp[3] * cp[3] * cp[7] +
    6.0 * s[3] * cp[1] * cp[5] * cp[8] +
    60.0 * s[6] * cp[1] * cp[1] * cp[1] * cp[3] * cp[3] * cp[5] +
    280.0 * s[8] * cp[1] * cp[1] * cp[1] * cp[2] * cp[2] * cp[2] * cp[2] * cp[3] +
    360.0 * s[10] * cp[1] * cp[1] * cp[1] * cp[1] * cp[1] * cp[1] * cp[1] * cp[2] * cp[2] * cp[3] +
    2.0 * s[2] * cp[3] * cp[11] +
    20.0 * s[5] * cp[1] * cp[1] * cp[1] * cp[4] * cp[7] +
    42.0 * s[7] * cp[1] * cp[1] * cp[1] * cp[1] * cp[1] * cp[4] * cp[5] +
    11.0 * s[11] * cp[1] * cp[1] * cp[1] * cp[1] * cp[1] * cp[1] * cp[1] * cp[1] * cp[1] * cp[1] * cp[4] +
    105.0 * s[7] * cp[1] * cp[1] * cp[1] * cp[1] * cp[2] * cp[4] * cp[4] +
    6.0 * s[3] * cp[2] * cp[3] * cp[9] +
    60.0 * s[5] * cp[1] * cp[2] * cp[2] * cp[3] * cp[6] +
    12.0 * s[4] * cp[1] * cp[1] * cp[2] * cp[10] +
    120.0 * s[6] * cp[1] * cp[1] * cp[1] * cp[2] * cp[3] * cp[6] +
    252.0 * s[9] * cp[1] * cp[1] * cp[1] * cp[1] * cp[1] * cp[1] * cp[2] * cp[3] * cp[3] +
    30.0 * s[5] * cp[1] * cp[1] * cp[2] * cp[2] * cp[8] +
    2.0 * s[2] * cp[5] * cp[9] +
    504.0 * s[9] * cp[1] * cp[1] * cp[1] * cp[1] * cp[1] * cp[2] * cp[2] * cp[2] * cp[3] +
    120.0 * s[6] * cp[1] * cp[1] * cp[1] * cp[2] * cp[4] * cp[5] +
    6.0 * s[6] * cp[1] * cp[1] * cp[1] * cp[1] * cp[1] * cp[9] +
    56.0 * s[8] * cp[1] * cp[1] * cp[1] * cp[1] * cp[1] * cp[3] * cp[3] * cp[3] +
    30.0 * s[6] * cp[1] * cp[2] * cp[2] * cp[2] * cp[2] * cp[5] +
    10.0 * s[5] * cp[2] * cp[2] * cp[2] * cp[4] * cp[4] +
    42.0 * s[7] * cp[1] * cp[1] * cp[1] * cp[1] * cp[1] * cp[3] * cp[6] +
    90.0 * s[10] * cp[1] * cp[1] * cp[1] * cp[1] * cp[1] * cp[1] * cp[1] * cp[1] * cp[2] * cp[4] +
    280.0 * s[8] * cp[1] * cp[1] * cp[1] * cp[1] * cp[2] * cp[2] * cp[2] * cp[4] +
    4.0 * s[4] * cp[1] * cp[1] * cp[1] * cp[11] +
    3.0 * s[3] * cp[2] * cp[2] * cp[10] +
    20.0 * s[5] * cp[1] * cp[1] * cp[1] * cp[5] * cp[6] +
    210.0 * s[7] * cp[1] * cp[1] * cp[2] * cp[2] * cp[2] * cp[3] * cp[3] +
    60.0 * s[6] * cp[1] * cp[1] * cp[2] * cp[2] * cp[2] * cp[6] +
    6.0 * s[3] * cp[1] * cp[3] * cp[10] +
    15.0 * s[6] * cp[1] * cp[1] * cp[1] * cp[1] * cp[5] * cp[5] +
    420.0 * s[8] * cp[1] * cp[1] * cp[1] * cp[1] * cp[2] * cp[2] * cp[3] * cp[3] +
    12.0 * s[12] * cp[1] * cp[1] * cp[1] * cp[1] * cp[1] * cp[1] * cp[1] * cp[1] * cp[1] * cp[1] * cp[1] * cp[3] +
    2.0 * s[2] * cp[1] * cp[13] +
    60.0 * s[5] * cp[1] * cp[1] * cp[3] * cp[4] * cp[5] +
    12.0 * s[4] * cp[1] * cp[1] * cp[3] * cp[9] +
    3.0 * s[3] * cp[3] * cp[3] * cp[8] +
    5.0 * s[5] * cp[2] * cp[3] * cp[3] * cp[3] * cp[3] +
    3.0 * s[3] * cp[4] * cp[5] * cp[5] +
    6.0 * s[3] * cp[1] * cp[6] * cp[7] +
    180.0 * s[6] * cp[1] * cp[1] * cp[2] * cp[2] * cp[3] * cp[5] +
    126.0 * s[9] * cp[1] * cp[1] * cp[1] * cp[1] * cp[2] * cp[2] * cp[2] * cp[2] * cp[2] +
    1.0 * s[1] * cp[14] +
    3.0 * s[3] * cp[4] * cp[4] * cp[6] +
    12.0 * s[4] * cp[1] * cp[1] * cp[5] * cp[7] +
    60.0 * s[5] * cp[1] * cp[1] * cp[2] * cp[3] * cp[7] +
    12.0 * s[4] * cp[2] * cp[2] * cp[4] * cp[6] +
    30.0 * s[6] * cp[1] * cp[1] * cp[1] * cp[1] * cp[4] * cp[6]
  }

  /** The written-out weight of peak 15. */
  function Weight15(s: seq<real>, cp: seq<real>): real
    requires |s| == 16 && |cp| == 16
  {
    20.0 * s[5] * cp[1] * cp[1] * cp[1] * cp[2] * cp[10] +
    2.0 * s[2] * cp[6] * cp[9] +
    12.0 * s[4] * cp[1] * cp[1] * cp[6] * cp[7] +
    168.0 * s[8] * cp[1] * cp[1] * cp[1] * cp[1] * cp[1] * cp[2] * cp[4] * cp[4] +
    4.0 * s[4] * cp[3] * cp[4] * cp[4] * cp[4] +
    12.0 * s[4] * cp[2] * cp[3] * cp[3] * cp[7] +
    60.0 * s[6] * cp[1] * cp[1] * cp[1] * cp[2] * cp[5] * cp[5] +
    12.0 * s[4] * cp[2] * cp[4] * cp[4] * cp[5] +
    210.0 * s[7] * cp[1] * cp[1] * cp[1] * cp[1] * cp[2] * cp[3] * cp[6] +
    1.0 * s[5] * cp[3] * cp[3] * cp[3] * cp[3] * cp[3] +
    4.0 * s[4] * cp[3] * cp[3] * cp[3] * cp[6] +
    11.0 * s[11] * cp[1] * cp[1] * cp[1] * cp[1] * cp[1] * cp[1] * cp[1] * cp[1] * cp[1] * cp[1] * cp[5] +
    12.0 * s[4] * cp[1] * cp[2] * cp[2] * cp[10] +
    1.0 * s[1] * cp[15] +
    6.0 * s[3] * cp[2] * cp[6] * cp[7] +
    90.0 * s[10] * cp[1] * cp[1] * cp[1] * cp[1] * cp[1] * cp[1] * cp[1] * cp[1] * cp[2] * cp[5] +
    12.0 * s[4] * cp[1] * cp[2] * cp[6] * cp[6] +
    1.0 * s[3] * cp[5] * cp[5] * cp[5] +
    10.0 * s[10] * cp[1] * cp[1] * cp[1] * cp[1] * cp[1] * cp[1] * cp[1] * cp[1] * cp[1] * cp[6] +
    30.0 * s[5] * cp[1] * cp[1] * cp[3] * cp[3] * cp[7] +
    30.0 * s[6] * cp[1] * cp[1] * cp[1] * cp[1] * cp[5] * cp[6] +
    6.0 * s[3] * cp[1] * cp[5] * cp[9] +
    12.0 * s[4] * cp[2] * cp[2] * cp[5] * cp[6] +
    20.0 * s[5] * cp[2] * cp[2] * cp[2] * cp[4] * cp[5] +
    20.0 * s[5] * cp[1] * cp[3] * cp[3] * cp[3] * cp[5] +
    84.0 * s[9] * cp[1] * cp[1] * cp[1] * cp[1] * cp[1] * cp[1] * cp[3] * cp[3] * cp[3] +
    24.0 * s[4] * cp[1] * cp[3] * cp[4] * cp[7] +
    180.0 * s[6] * cp[1] * cp[1] * cp[2] * cp[2] * cp[4] * cp[5] +
    4.0 * s[4] * cp[1] * cp[1] * cp[1] * cp[12] +
    30.0 * s[6] * cp[1] * cp[1] * cp[1] * cp[1] * cp[3] * cp[8] +
    60.0 * s[6] * cp[1] * cp[2] * cp[2] * cp[2] * cp[4] * cp[4] +
    30.0 * s[5] * cp[1] * cp[3] * cp[3] * cp[4] * cp[4] +
    55.0 * s[11] * cp[1] * cp[1] * cp[1] * cp[1] * cp[1] * cp[1] * cp[1] * cp[1] * cp[1] * cp[3] * cp[3] +
    42.0 * s[7] * cp[1] * cp[1] * cp[1] * cp[1] * cp[1] * cp[3] * cp[7] +
    2.0 * s[2] * cp[3] * cp[12] +
    756.0 * s[9] * cp[1] * cp[1] * cp[1] * cp[1] * cp[1] * cp[2] * cp[2] * cp[3] * cp[3] +
    840.0 * s[8] * cp[1] * cp[1] * cp[1] * cp[1] * cp[2] * cp[2] * cp[3] * cp[4] +
    6.0 * s[3] * cp[2] * cp[3] * cp[10] +
    20.0 * s[6] * cp[1] * cp[1] * cp[1] * cp[4] * cp[4] * cp[4] +
    30.0 * s[5] * cp[1] * cp[1] * cp[3] * cp[5] * cp[5] +
    140.0 * s[7] * cp[1] * cp[1] * cp[1] * cp[2] * cp[2] * cp[2] * cp[6] +
    12.0 * s[4] * cp[1] * cp[4] * cp[5] * cp[5] +
    220.0 * s[12] * cp[1] * cp[1] * cp[1] * cp[1] * cp[1] * cp[1] * cp[1] * cp[1] * cp[1] * cp[2] * cp[2] * cp[2] +
    60.0 * s[6] * cp[1] * cp[1] * cp[3] * cp[3] * cp[3] * cp[4] +
    30.0 * s[5] * cp[2] * cp[2] * cp[3] * cp[3] * cp[5] +
    60.0 * s[6] * cp[1] * cp[1] * cp[1] * cp[2] * cp[2] * cp[8] +
    504.0 * s[9] * cp[1] * cp[1] * cp[1] * cp[1] * cp[1] * cp[1] * cp[2] * cp[3] * cp[4] +
    105.0 * s[7] * cp[1] * cp[1] * cp[1] * cp[1] * cp[2] * cp[2] * cp[7] +
    105.0 * s[7] * cp[1] * cp[2] * cp[2] * cp[2] * cp[2] * cp[3] * cp[3] +
    12.0 * s[12] * cp[1] * cp[1] * cp[1] * cp[1] * cp[1] * cp[1] * cp[1] * cp[1] * cp[1] * cp[1] * cp[1] * cp[4] +
    36.0 * s[9] * cp[1] * cp[1] * cp[1] * cp[1] * cp[1] * cp[1] * cp[1] * cp[4] * cp[4] +
    105.0 * s[7] * cp[1] * cp[1] * cp[2] * cp[2] * cp[2] * cp[2] * cp[5] +
    30.0 * s[6] * cp[1] * cp[1] * cp[1] * cp[1] * cp[4] * cp[7] +
    110.0 * s[11] * cp[1] * cp[1] * cp[1] * cp[1] * cp[1] * cp[1] * cp[1] * cp[1] * cp[1] * cp[2] * cp[4] +
    24.0 * s[4] * cp[1] * cp[2] * cp[3] * cp[9] +
    6.0 * s[3] * cp[1] * cp[6] * cp[8] +
    30.0 * s[5] * cp[1] * cp[1] * cp[4] * cp[4] * cp[5] +
    3.0 * s[3] * cp[2] * cp[2] * cp[11] +
    24.0 * s[4] * cp[1] * cp[3] * cp[5] * cp[6] +
    60.0 * s[6] * cp[1] * cp[1] * cp[2] * cp[2] * cp[2] * cp[7] +
    3.0 * s[3] * cp[3] * cp[6] * cp[6] +
    6.0 * s[3] * cp[1] * cp[2] * cp[12] +
    6.0 * s[3] * cp[1] * cp[3] * cp[11] +
    12.0 * s[4] * cp[1] * cp[4] * cp[4] * cp[6] +
    20.0 * s[5] * cp[1] * cp[2] * cp[2] * cp[2] * cp[8] +
    120.0 * s[5] * cp[1] * cp[2] * cp[3] * cp[4] * cp[5] +
    12.0 * s[4] * cp[1] * cp[1] * cp[2] * cp[11] +
    90.0 * s[10] * cp[1] * cp[1] * cp[1] * cp[1] * cp[1] * cp[1] * cp[1] * cp[1] * cp[3] * cp[4] +
    24.0 * s[4] * cp[1] * cp[2] * cp[4] * cp[8] +
    5.0 * s[5] * cp[1] * cp[1] * cp[1] * cp[1] * cp[11] +
    3.0 * s[3] * cp[3] * cp[3] * cp[9] +
    210.0 * s[7] * cp[1] * cp[1] * cp[2] * cp[2] * cp[3] * cp[3] * cp[3] +
    105.0 * s[7] * cp[1] * cp[1] * cp[1] * cp[1] * cp[3] * cp[3] * cp[5] +
    120.0 * s[6] * cp[1] * cp[1] * cp[1] * cp[2] * cp[4] * cp[6] +
    42.0 * s[7] * cp[1] * cp[2] * cp[2] * cp[2] * cp[2] * cp[2] * cp[4] +
    42.0 * s[7] * cp[1] * cp[1] * cp[1] * cp[1] * cp[1] * cp[4] * cp[6] +
    3.0 * s[3] * cp[4] * cp[4] * cp[7] +
    6.0 * s[3] * cp[4] * cp[5] * cp[6] +
    252.0 * s[9] * cp[1] * cp[1] * cp[1] * cp[1] * cp[1] * cp[1] * cp[2] * cp[2] * cp[5] +
    2.0 * s[2] * cp[4] * cp[11] +
    120.0 * s[6] * cp[1] * cp[2] * cp[2] * cp[2] * cp[3] * cp[5] +
    2.0 * s[2] * cp[5] * cp[10] +
    630.0 * s[9] * cp[1] * cp[1] * cp[1] * cp[1] * cp[2] * cp[2] * cp[2] * cp[2] * cp[3] +
    7.0 * s[7] * cp[1] * cp[1] * cp[1] * cp[1] * cp[1] * cp[1] * cp[9] +
    2.0 * s[2] * cp[7] * cp[8] +
    280.0 * s[8] * cp[1] * cp[1] * cp[1] * cp[1] * cp[2] * cp[2] * cp[2] * cp[5] +
    5.0 * s[5] * cp[2] * cp[2] * cp[2] * cp[2] * cp[7] +
    180.0 * s[6] * cp[1] * cp[1] * cp[2] * cp[3] * cp[4] * cp[4] +
    12.0 * s[4] * cp[1] * cp[1] * cp[3] * cp[10] +
    280.0 * s[8] * cp[1] * cp[1] * cp[1] * cp[2] * cp[2] * cp[2] * cp[2] * cp[4] +
    105.0 * s[7] * cp[1] * cp[1] * cp[1] * cp[1] * cp[3] * cp[4] * cp[4] +
    12.0 * s[4] * cp[1] * cp[1] * cp[5] * cp[8] +
    132.0 * s[12] * cp[1] * cp[1] * cp[1] * cp[1] * cp[1] * cp[1] * cp[1] * cp[1] * cp[1] * cp[1] * cp[2] * cp[3] +
    336.0 * s[8] * cp[1] * cp[1] * cp[1] * cp[1] * cp[1] * cp[2] * cp[3] * cp[5] +
    6.0 * s[3] * cp[2] * cp[5] * cp[8] +
    9.0 * s[9] * cp[1] * cp[1] * cp[1] * cp[1] * cp[1] * cp[1] * cp[1] * cp[1] * cp[7] +
    60.0 * s[5] * cp[1] * cp[2] * cp[2] * cp[3] * cp[7] +
    24.0 * s[4] * cp[2] * cp[3] * cp[4] * cp[6] +
    20.0 * s[6] * cp[2] * cp[2] * cp[2] * cp[3] * cp[3] * cp[3] +
    180.0 * s[6] * cp[1] * cp[1] * cp[2] * cp[3] * cp[3] * cp[5] +
    24.0 * s[4] * cp[1] * cp[2] * cp[5] * cp[7] +
    60.0 * s[5] * cp[1] * cp[2] * cp[3] * cp[3] * cp[6] +
    2.0 * s[2] * cp[1] * cp[14] +
    280.0 * s[8] * cp[1] * cp[1] * cp[1] * cp[1] * cp[2] * cp[3] * cp[3] * cp[3] +
    840.0 * s[10] * cp[1] * cp[1] * cp[1] * cp[1] * cp[1] * cp[1] * cp[2] * cp[2] * cp[2] * cp[3] +
    2.0 * s[2] * cp[2] * cp[13] +
    30.0 * s[5] * cp[1] * cp[1] * cp[2] * cp[2] * cp[9] +
    3.0 * s[3] * cp[1] * cp[7] * cp[7] +
    21.0 * s[7] * cp[1] * cp[1] * cp[1] * cp[1] * cp[1] * cp[5] * cp[5] +
    30.0 * s[6] * cp[1] * cp[1] * cp[1] * cp[1] * cp[2] * cp[9] +
    495.0 * s[11] * cp[1] * cp[1] * cp[1] * cp[1] * cp[1] * cp[1] * cp[1] * cp[1] * cp[2] * cp[2] * cp[3] +
    420.0 * s[7] * cp[1] * cp[1] * cp[2] * cp[2] * cp[2] * cp[3] * cp[4] +
    84.0 * s[9] * cp[1] * cp[1] * cp[1] * cp[2] * cp[2] * cp[2] * cp[2] * cp[2] * cp[2] +
    78.0 * s[13] * cp[1] * cp[1] * cp[1] * cp[1] * cp[1] * cp[1] * cp[1] * cp[1] * cp[1] * cp[1] * cp[1] * cp[2] * cp[2] +
    12.0 * s[4] * cp[2] * cp[2] * cp[4] * cp[7] +
    60.0 * s[5] * cp[1] * cp[1] * cp[2] * cp[4] * cp[7] +
    30.0 * s[6] * cp[1] * cp[2] * cp[3] * cp[3] * cp[3] * cp[3] +
    360.0 * s[10] * cp[1] * cp[1] * cp[1] * cp[1] * cp[1] * cp[1] * cp[1] * cp[2] * cp[2] * cp[4] +
    6.0 * s[3] * cp[2] * cp[4] * cp[9] +
    12.0 * s[4] * cp[1] * cp[1] * cp[4] * cp[9] +
    168.0 * s[8] * cp[1] * cp[1] * cp[1] * cp[1] * cp[1] * cp[3] * cp[3] * cp[4] +
    168.0 * s[8] * cp[1] * cp[1] * cp[1] * cp[1] * cp[1] * cp[2] * cp[2] * cp[6] +
    210.0 * s[7] * cp[1] * cp[1] * cp[1] * cp[2] * cp[2] * cp[4] * cp[4] +
    20.0 * s[5] * cp[2] * cp[2] * cp[2] * cp[3] * cp[6] +
    1.0 * s[15] * cp[1] * cp[1] * cp[1] * cp[1] * cp[1] * cp[1] * cp[1] * cp[1] * cp[1] * cp[1] * cp[1] * cp[1] * cp[1] * cp[1] * cp[1] +
    30.0 * s[6] * cp[1] * cp[2] * cp[2] * cp[2] * cp[2] * cp[6] +
    72.0 * s[9] * cp[1] * cp[1] * cp[1] * cp[1] * cp[1] * cp[1] * cp[1] * cp[2] * cp[6] +
    30.0 * s[6] * cp[2] * cp[2] * cp[2] * cp[2] * cp[3] * cp[4] +
    13.0 * s[13] * cp[1] * cp[1] * cp[1] * cp[1] * cp[1] * cp[1] * cp[1] * cp[1] * cp[1] * cp[1] * cp[1] * cp[1] * cp[3] +
    42.0 * s[7] * cp[1] * cp[1] * cp[1] * cp[1] * cp[1] * cp[2] * cp[8] +
    12.0 * s[4] * cp[2] * cp[3] * cp[5] * cp[5] +
    8.0 * s[8] * cp[1] * cp[2] * cp[2] * cp[2] * cp[2] * cp[2] * cp[2] * cp[2] +
    12.0 * s[4] * cp[2] * cp[2] * cp[3] * cp[8] +
    360.0 * s[10] * cp[1] * cp[1] * cp[1] * cp[1] * cp[1] * cp[1] * cp[1] * cp[2] * cp[3] * cp[3] +
    120.0 * s[6] * cp[1] * cp[1] * cp[1] * cp[2] * cp[3] * cp[7] +
    60.0 * s[6] * cp[1] * cp[1] * cp[1] * cp[3] * cp[3] * cp[6] +
    560.0 * s[8] * cp[1] * cp[1] * cp[1] * cp[2] * cp[2] * cp[2] * cp[3] * cp[3] +
    20.0 * s[5] * cp[1] * cp[2] * cp[4] * cp[4] * cp[4] +
    20.0 * s[5] * cp[1] * cp[1] * cp[1] * cp[4] * cp[8] +
    330.0 * s[11] * cp[1] * cp[1] * cp[1] * cp[1] * cp[1] * cp[1] * cp[1] * cp[2] * cp[2] * cp[2] * cp[2] +
    60.0 * s[5] * cp[1] * cp[1] * cp[3] * cp[4] * cp[6] +
    504.0 * s[9] * cp[1] * cp[1] * cp[1] * cp[1] * cp[1] * cp[2] * cp[2] * cp[2] * cp[4] +
    12.0 * s[4] * cp[3] * cp[3] * cp[4] * cp[5] +
    168.0 * s[8] * cp[1] * cp[1] * cp[2] * cp[2] * cp[2] * cp[2] * cp[2] * cp[3] +
    56.0 * s[8] * cp[1] * cp[1] * cp[1] * cp[1] * cp[1] * cp[1] * cp[4] * cp[5] +
    60.0 * s[5] * cp[1] * cp[2] * cp[2] * cp[4] * cp[6] +
    56.0 * s[8] * cp[1] * cp[1] * cp[1] * cp[1] * cp[1] * cp[1] * cp[2] * cp[7] +
    72.0 * s[9] * cp[1] * cp[1] * cp[1] * cp[1] * cp[1] * cp[1] * cp[1] * cp[3] * cp[5] +
    10.0 * s[5] * cp[1] * cp[1] * cp[1] * cp[6] * cp[6] +
    3.0 * s[3] * cp[1] * cp[1] * cp[13] +
    180.0 * s[6] * cp[1] * cp[1] * cp[2] * cp[2] * cp[3] * cp[6] +
    8.0 * s[8] * cp[1] * cp[1] * cp[1] * cp[1] * cp[1] * cp[1] * cp[1] * cp[8] +
    6.0 * s[3] * cp[3] * cp[4] * cp[8] +
    252.0 * s[10] * cp[1] * cp[1] * cp[1] * cp[1] * cp[1] * cp[2] * cp[2] * cp[2] * cp[2] * cp[2] +
    30.0 * s[5] * cp[1] * cp[2] * cp[2] * cp[5] * cp[5] +
    420.0 * s[7] * cp[1] * cp[1] * cp[1] * cp[2] * cp[2] * cp[3] * cp[5] +
    20.0 * s[5] * cp[1] * cp[1] * cp[1] * cp[3] * cp[9] +
    6.0 * s[6] * cp[1] * cp[1] * cp[1] * cp[1] * cp[1] * cp[10] +
    20.0 * s[5] * cp[2] * cp[3] * cp[3] * cp[3] * cp[4] +
    56.0 * s[8] * cp[1] * cp[1] * cp[1] * cp[1] * cp[1] * cp[1] * cp[3] * cp[6] +
    35.0 * s[7] * cp[1] * cp[1] * cp[1] * cp[3] * cp[3] * cp[3] * cp[3] +
    14.0 * s[14] * cp[1] * cp[1] * cp[1] * cp[1] * cp[1] * cp[1] * cp[1] * cp[1] * cp[1] * cp[1] * cp[1] * cp[1] * cp[1] * cp[2] +
    210.0 * s[7] * cp[1] * cp[1] * cp[1] * cp[1] * cp[2] * cp[4] * cp[5] +
    6.0 * s[3] * cp[1] * cp[4] * cp[10] +
    30.0 * s[5] * cp[2] * cp[2] * cp[3] * cp[4] * cp[4] +
    4.0 * s[4] * cp[2] * cp[2] * cp[2] * cp[9] +
    120.0 * s[6] * cp[1] * cp[1] * cp[1] * cp[3] * cp[4] * cp[5] +
    6.0 * s[6] * cp[2] * cp[2] * cp[2] * cp[2] * cp[2] * cp[5] +
    12.0 * s[4] * cp[1] * cp[3] * cp[3] * cp[8] +
    6.0 * s[3] * cp[3] * cp[5] * cp[7] +
    60.0 * s[5] * cp[1] * cp[1] * cp[2] * cp[5] * cp[6] +
    420.0 * s[7] * cp[1] * cp[1] * cp[1] * cp[2] * cp[3] * cp[3] * cp[4] +
    7.0 * s[7] * cp[2] * cp[2] * cp[2] * cp[2] * cp[2] * cp[2] * cp[3] +
    60.0 * s[5] * cp[1] * cp[1] * cp[2] * cp[3] * cp[8] +
    180.0 * s[6] * cp[1] * cp[2] * cp[2] * cp[3] * cp[3] * cp[4] +
    20.0 * s[5] * cp[1] * cp[1] * cp[1] * cp[5] * cp[7]
  }

  /** sc[k] for 1 <= k <= 15. */
  function PeakWeight(s: seq<real>, cp: seq<real>, k: nat): real
    requires |s| == 16 && |cp| == 16 && 1 <= k <= 15
  {
    if k == 1 then Weight1(s, cp)
    else if k == 2 then Weight2(s, cp)
    else if k == 3 then Weight3(s, cp)
    else if k == 4 then Weight4(s, cp)
    else if k == 5 then Weight5(s, cp)
    else if k == 6 then Weight6(s, cp)
    else if k == 7 then Weight7(s, cp)
    else if k == 8 then Weight8(s, cp)
    else if k == 9 then Weight9(s, cp)
    else if k == 10 then Weight10(s, cp)
    else if k == 11 then Weight11(s, cp)
    else if k == 12 then Weight12(s, cp)
    else if k == 13 then Weight13(s, cp)
    else if k == 14 then Weight14(s, cp)
    else Weight15(s, cp)
  }

  lemma Parts1Of1From1(s: seq<real>, cp: seq<real>, key: nat)
    requires |s| == 16 && |cp| == 16
    ensures ExpandFrom(s, cp, 1, 1, key, 1) == 1.0 * Leaf(s, cp, key + 0x10)
  {
    RadixTable();
    ExpandStepAt(s, cp, 1, 1, key, 1, key + 0x10);
    assert Expand(s, cp, 0, 0, key + 0x10) == Leaf(s, cp, key + 0x10);
    assert ExpandFrom(s, cp, 1, 1, key, 2) == 0.0;
  }
  lemma Parts1Of1(s: seq<real>, cp: seq<real>, key: nat)
    requires |s| == 16 && |cp| == 16
    ensures Expand(s, cp, 1, 1, key) == 1.0 * Leaf(s, cp, key + 0x10)
  {
    Parts1Of1From1(s, cp, key);
  }
  lemma Parts1Of2From2(s: seq<real>, cp: seq<real>, key: nat)
    requires |s| == 16 && |cp| == 16
    ensures ExpandFrom(s, cp, 1, 2, key, 2) == 1.0 * Leaf(s, cp, key + 0x100)
  {
    RadixTable();
    ExpandStepAt(s, cp, 1, 2, key, 2, key + 0x100);
    assert Expand(s, cp, 0, 0, key + 0x100) == Leaf(s, cp, key + 0x100);
    assert ExpandFrom(s, cp, 1, 2, key, 3) == 0.0;
  }
  lemma Parts1Of2From1(s: seq<real>, cp: seq<real>, key: nat)
    requires |s| == 16 && |cp| == 16
    ensures ExpandFrom(s, cp, 1, 2, key, 1) == 1.0 * Leaf(s, cp, key + 0x100)
  {
    RadixTable();
    ExpandStepAt(s, cp, 1, 2, key, 1, key + 0x10);
    assert Expand(s, cp, 0, 1, key + 0x10) == 0.0;
    Parts1Of2From2(s, cp, key);
  }
  lemma Parts1Of2(s: seq<real>, cp: seq<real>, key: nat)
    requires |s| == 16 && |cp| == 16
    ensures Expand(s, cp, 1, 2, key) == 1.0 * Leaf(s, cp, key + 0x100)
  {
    Parts1Of2From1(s, cp, key);
  }
  lemma Parts2Of2From2(s: seq<real>, cp: seq<real>, key: nat)
    requires |s| == 16 && |cp| == 16
    ensures ExpandFrom(s, cp, 2, 2, key, 2) == 0.0
  {
    RadixTable();
    ExpandStepAt(s, cp, 2, 2, key, 2, key + 0x100);
    ExpandBelow(s, cp, 1, 0, key + 0x100);
    assert ExpandFrom(s, cp, 2, 2, key, 3) == 0.0;
  }
  lemma Parts2Of2From1(s: seq<real>, cp: seq<real>, key: nat)
    requires |s| == 16 && |cp| == 16
    ensures ExpandFrom(s, cp, 2, 2, key, 1) == 1.0 * Leaf(s, cp, key + 0x20)
  {
    RadixTable();
    ExpandStepAt(s, cp, 2, 2, key, 1, key + 0x10);
    Parts1Of1(s, cp, key + 0x10);
    Parts2Of2From2(s, cp, key);
  }
  lemma Parts2Of2(s: seq<real>, cp: seq<real>, key: nat)
    requires |s| == 16 && |cp| == 16
    ensures Expand(s, cp, 2, 2, key) == 1.0 * Leaf(s, cp, key + 0x20)
  {
    Parts2Of2From1(s, cp, key);
  }
  lemma Parts1Of3From3(s: seq<real>, cp: seq<real>, key: nat)
    requires |s| == 16 && |cp| == 16
    ensures ExpandFrom(s, cp, 1, 3, key, 3) == 1.0 * Leaf(s, cp, key + 0x1000)
  {
    RadixTable();
    ExpandStepAt(s, cp, 1, 3, key, 3, key + 0x1000);
    assert Expand(s, cp, 0, 0, key + 0x1000) == Leaf(s, cp, key + 0x1000);
    assert ExpandFrom(s, cp, 1, 3, key, 4) == 0.0;
  }
  lemma Parts1Of3From2(s: seq<real>, cp: seq<real>, key: nat)
    requires |s| == 16 && |cp| == 16
    ensures ExpandFrom(s, cp, 1, 3, key, 2) == 1.0 * Leaf(s, cp, key + 0x1000)
  {
    RadixTable();
    ExpandStepAt(s, cp, 1, 3, key, 2, key + 0x100);
    assert Expand(s, cp, 0, 1, key + 0x100) == 0.0;
    Parts1Of3From3(s, cp, key);
  }
  lemma Parts1Of3From1(s: seq<real>, cp: seq<real>, key: nat)
    requires |s| == 16 && |cp| == 16
    ensures ExpandFrom(s, cp, 1, 3, key, 1) == 1.0 * Leaf(s, cp, key + 0x1000)
  {
    RadixTable();
    ExpandStepAt(s, cp, 1, 3, key, 1, key + 0x10);
    assert Expand(s, cp, 0, 2, key + 0x10) == 0.0;
    Parts1Of3From2(s, cp, key);
  }
  lemma Parts1Of3(s: seq<real>, cp: seq<real>, key: nat)
    requires |s| == 16 && |cp| == 16
    ensures Expand(s, cp, 1, 3, key) == 1.0 * Leaf(s, cp, key + 0x1000)
  {
    Parts1Of3From1(s, cp, key);
  }
  lemma Parts2Of3From3(s: seq<real>, cp: seq<real>, key: nat)
    requires |s| == 16 && |cp| == 16
    ensures ExpandFrom(s, cp, 2, 3, key, 3) == 0.0
  {
    RadixTable();
    ExpandStepAt(s, cp, 2, 3, key, 3, key + 0x1000);
    ExpandBelow(s, cp, 1, 0, key + 0x1000);
    assert ExpandFrom(s, cp, 2, 3, key, 4) == 0.0;
  }
  lemma Parts2Of3From2(s: seq<real>, cp: seq<real>, key: nat)
    requires |s| == 16 && |cp| == 16
    ensures ExpandFrom(s, cp, 2, 3, key, 2) == 1.0 * Leaf(s, cp, key + 0x110)
  {
    RadixTable();
    ExpandStepAt(s, cp, 2, 3, key, 2, key + 0x100);
    Parts1Of1(s, cp, key + 0x100);
    Parts2Of3From3(s, cp, key);
  }
  lemma Parts2Of3From1(s: seq<real>, cp: seq<real>, key: nat)
    requires |s| == 16 && |cp| == 16
    ensures ExpandFrom(s, cp, 2, 3, key, 1) == 2.0 * Leaf(s, cp, key + 0x110)
  {
    RadixTable();
    ExpandStepAt(s, cp, 2, 3, key, 1, key + 0x10);
    Parts1Of2(s, cp, key + 0x10);
    Parts2Of3From2(s, cp, key);
  }
  lemma Parts2Of3(s: seq<real>, cp: seq<real>, key: nat)
    requires |s| == 16 && |cp| == 16
    ensures Expand(s, cp, 2, 3, key) == 2.0 * Leaf(s, cp, key + 0x110)
  {
    Parts2Of3From1(s, cp, key);
  }
  lemma Parts3Of3From3(s: seq<real>, cp: seq<real>, key: nat)
    requires |s| == 16 && |cp| == 16
    ensures ExpandFrom(s, cp, 3, 3, key, 3) == 0.0
  {
    RadixTable();
    ExpandStepAt(s, cp, 3, 3, key, 3, key + 0x1000);
    ExpandBelow(s, cp, 2, 0, key + 0x1000);
    assert ExpandFrom(s, cp, 3, 3, key, 4) == 0.0;
  }
  lemma Parts3Of3From2(s: seq<real>, cp: seq<real>, key: nat)
    requires |s| == 16 && |cp| == 16
    ensures ExpandFrom(s, cp, 3, 3, key, 2) == 0.0
  {
    RadixTable();
    ExpandStepAt(s, cp, 3, 3, key, 2, key + 0x100);
    ExpandBelow(s, cp, 2, 1, key + 0x100);
    Parts3Of3From3(s, cp, key);
  }
  lemma Parts3Of3From1(s: seq<real>, cp: seq<real>, key: nat)
    requires |s| == 16 && |cp| == 16
    ensures ExpandFrom(s, cp, 3, 3, key, 1) == 1.0 * Leaf(s, cp, key + 0x30)
  {
    RadixTable();
    ExpandStepAt(s, cp, 3, 3, key, 1, key + 0x10);
    Parts2Of2(s, cp, key + 0x10);
    Parts3Of3From2(s, cp, key);
  }
  lemma Parts3Of3(s: seq<real>, cp: seq<real>, key: nat)
    requires |s| == 16 && |cp| == 16
    ensures Expand(s, cp, 3, 3, key) == 1.0 * Leaf(s, cp, key + 0x30)
  {
    Parts3Of3From1(s, cp, key);
  }
  lemma Parts1Of4From4(s: seq<real>, cp: seq<real>, key: nat)
    requires |s| == 16 && |cp| == 16
    ensures ExpandFrom(s, cp, 1, 4, key, 4) == 1.0 * Leaf(s, cp, key + 0x1_0000)
  {
    RadixTable();
    ExpandStepAt(s, cp, 1, 4, key, 4, key + 0x1_0000);
    assert Expand(s, cp, 0, 0, key + 0x1_0000) == Leaf(s, cp, key + 0x1_0000);
    assert ExpandFrom(s, cp, 1, 4, key, 5) == 0.0;
  }
  lemma Parts1Of4From3(s: seq<real>, cp: seq<real>, key: nat)
    requires |s| == 16 && |cp| == 16
    ensures ExpandFrom(s, cp, 1, 4, key, 3) == 1.0 * Leaf(s, cp, key + 0x1_0000)
  {
    RadixTable();
    ExpandStepAt(s, cp, 1, 4, key, 3, key + 0x1000);
    assert Expand(s, cp, 0, 1, key + 0x1000) == 0.0;
    Parts1Of4From4(s, cp, key);
  }
  lemma Parts1Of4From2(s: seq<real>, cp: seq<real>, key: nat)
    requires |s| == 16 && |cp| == 16
    ensures ExpandFrom(s, cp, 1, 4, key, 2) == 1.0 * Leaf(s, cp, key + 0x1_0000)
  {
    RadixTable();
    ExpandStepAt(s, cp, 1, 4, key, 2, key + 0x100);
    assert Expand(s, cp, 0, 2, key + 0x100) == 0.0;
    Parts1Of4From3(s, cp, key);
  }
  lemma Parts1Of4From1(s: seq<real>, cp: seq<real>, key: nat)
    requires |s| == 16 && |cp| == 16
    ensures ExpandFrom(s, cp, 1, 4, key, 1) == 1.0 * Leaf(s, cp, key + 0x1_0000)
  {
    RadixTable();
    ExpandStepAt(s, cp, 1, 4, key, 1, key + 0x10);
    assert Expand(s, cp, 0, 3, key + 0x10) == 0.0;
    Parts1Of4From2(s, cp, key);
  }
  lemma Parts1Of4(s: seq<real>, cp: seq<real>, key: nat)
    requires |s| == 16 && |cp| == 16
    ensures Expand(s, cp, 1, 4, key) == 1.0 * Leaf(s, cp, key + 0x1_0000)
  {
    Parts1Of4From1(s, cp, key);
  }
  lemma Parts2Of4From4(s: seq<real>, cp: seq<real>, key: nat)
    requires |s| == 16 && |cp| == 16
    ensures ExpandFrom(s, cp, 2, 4, key, 4) == 0.0
  {
    RadixTable();
    ExpandStepAt(s, cp, 2, 4, key, 4, key + 0x1_0000);
    ExpandBelow(s, cp, 1, 0, key + 0x1_0000);
    assert ExpandFrom(s, cp, 2, 4, key, 5) == 0.0;
  }
  lemma Parts2Of4From3(s: seq<real>, cp: seq<real>, key: nat)
    requires |s| == 16 && |cp| == 16
    ensures ExpandFrom(s, cp, 2, 4, key, 3) == 1.0 * Leaf(s, cp, key + 0x1010)
  {
    RadixTable();
    ExpandStepAt(s, cp, 2, 4, key, 3, key + 0x1000);
    Parts1Of1(s, cp, key + 0x1000);
    Parts2Of4From4(s, cp, key);
  }
  lemma Parts2Of4From2(s: seq<real>, cp: seq<real>, key: nat)
    requires |s| == 16 && |cp| == 16
    ensures ExpandFrom(s, cp, 2, 4, key, 2) == 1.0 * Leaf(s, cp, key + 0x200) + 1.0 * Leaf(s, cp, key + 0x1010)
  {
    RadixTable();
    ExpandStepAt(s, cp, 2, 4, key, 2, key + 0x100);
    Parts1Of2(s, cp, key + 0x100);
    Parts2Of4From3(s, cp, key);
  }
  lemma Parts2Of4From1(s: seq<real>, cp: seq<real>, key: nat)
    requires |s| == 16 && |cp| == 16
    ensures ExpandFrom(s, cp, 2, 4, key, 1) == 1.0 * Leaf(s, cp, key + 0x200) + 2.0 * Leaf(s, cp, key + 0x1010)
  {
    RadixTable();
    ExpandStepAt(s, cp, 2, 4, key, 1, key + 0x10);
    Parts1Of3(s, cp, key + 0x10);
    Parts2Of4From2(s, cp, key);
  }
  lemma Parts2Of4(s: seq<real>, cp: seq<real>, key: nat)
    requires |s| == 16 && |cp| == 16
    ensures Expand(s, cp, 2, 4, key) == 1.0 * Leaf(s, cp, key + 0x200) + 2.0 * Leaf(s, cp, key + 0x1010)
  {
    Parts2Of4From1(s, cp, key);
  }
  lemma Parts3Of4From4(s: seq<real>, cp: seq<real>, key: nat)
    requires |s| == 16 && |cp| == 16
    ensures ExpandFrom(s, cp, 3, 4, key, 4) == 0.0
  {
    RadixTable();
    ExpandStepAt(s, cp, 3, 4, key, 4, key + 0x1_0000);
    ExpandBelow(s, cp, 2, 0, key + 0x1_0000);
    assert ExpandFrom(s, cp, 3, 4, key, 5) == 0.0;
  }
  lemma Parts3Of4From3(s: seq<real>, cp: seq<real>, key: nat)
    requires |s| == 16 && |cp| == 16
    ensures ExpandFrom(s, cp, 3, 4, key, 3) == 0.0
  {
    RadixTable();
    ExpandStepAt(s, cp, 3, 4, key, 3, key + 0x1000);
    ExpandBelow(s, cp, 2, 1, key + 0x1000);
    Parts3Of4From4(s, cp, key);
  }
  lemma Parts3Of4From2(s: seq<real>, cp: seq<real>, key: nat)
    requires |s| == 16 && |cp| == 16
    ensures ExpandFrom(s, cp, 3, 4, key, 2) == 1.0 * Leaf(s, cp, key + 0x120)
  {
    RadixTable();
    ExpandStepAt(s, cp, 3, 4, key, 2, key + 0x100);
    Parts2Of2(s, cp, key + 0x100);
    Parts3Of4From3(s, cp, key);
  }
  lemma Parts3Of4From1(s: seq<real>, cp: seq<real>, key: nat)
    requires |s| == 16 && |cp| == 16
    ensures ExpandFrom(s, cp, 3, 4, key, 1) == 3.0 * Leaf(s, cp, key + 0x120)
  {
    RadixTable();
    ExpandStepAt(s, cp, 3, 4, key, 1, key + 0x10);
    Parts2Of3(s, cp, key + 0x10);
    Parts3Of4From2(s, cp, key);
  }
  lemma Parts3Of4(s: seq<real>, cp: seq<real>, key: nat)
    requires |s| == 16 && |cp| == 16
    ensures Expand(s, cp, 3, 4, key) == 3.0 * Leaf(s, cp, key + 0x120)
  {
    Parts3Of4From1(s, cp, key);
  }
  lemma Parts4Of4From4(s: seq<real>, cp: seq<real>, key: nat)
    requires |s| == 16 && |cp| == 16
    ensures ExpandFrom(s, cp, 4, 4, key, 4) == 0.0
  {
    RadixTable();
    ExpandStepAt(s, cp, 4, 4, key, 4, key + 0x1_0000);
    ExpandBelow(s, cp, 3, 0, key + 0x1_0000);
    assert ExpandFrom(s, cp, 4, 4, key, 5) == 0.0;
  }
  lemma Parts4Of4From3(s: seq<real>, cp: seq<real>, key: nat)
    requires |s| == 16 && |cp| == 16
    ensures ExpandFrom(s, cp, 4, 4, key, 3) == 0.0
  {
    RadixTable();
    ExpandStepAt(s, cp, 4, 4, key, 3, key + 0x1000);
    ExpandBelow(s, cp, 3, 1, key + 0x1000);
    Parts4Of4From4(s, cp, key);
  }
  lemma Parts4Of4From2(s: seq<real>, cp: seq<real>, key: nat)
    requires |s| == 16 && |cp| == 16
    ensures ExpandFrom(s, cp, 4, 4, key, 2) == 0.0
  {
    RadixTable();
    ExpandStepAt(s, cp, 4, 4, key, 2, key + 0x100);
    ExpandBelow(s, cp, 3, 2, key + 0x100);
    Parts4Of4From3(s, cp, key);
  }
  lemma Parts4Of4From1(s: seq<real>, cp: seq<real>, key: nat)
    requires |s| == 16 && |cp| == 16
    ensures ExpandFrom(s, cp, 4, 4, key, 1) == 1.0 * Leaf(s, cp, key + 0x40)
  {
    RadixTable();
    ExpandStepAt(s, cp, 4, 4, key, 1, key + 0x10);
    Parts3Of3(s, cp, key + 0x10);
    Parts4Of4From2(s, cp, key);
  }
  lemma Parts4Of4(s: seq<real>, cp: seq<real>, key: nat)
    requires |s| == 16 && |cp| == 16
    ensures Expand(s, cp, 4, 4, key) == 1.0 * Leaf(s, cp, key + 0x40)
  {
    Parts4Of4From1(s, cp, key);
  }
  lemma Parts1Of5From5(s: seq<real>, cp: seq<real>, key: nat)
    requires |s| == 16 && |cp| == 16
    ensures ExpandFrom(s, cp, 1, 5, key, 5) == 1.0 * Leaf(s, cp, key + 0x10_0000)
  {
    RadixTable();
    ExpandStepAt(s, cp, 1, 5, key, 5, key + 0x10_0000);
    assert Expand(s, cp, 0, 0, key + 0x10_0000) == Leaf(s, cp, key + 0x10_0000);
    assert ExpandFrom(s, cp, 1, 5, key, 6) == 0.0;
  }
  lemma Parts1Of5From4(s: seq<real>, cp: seq<real>, key: nat)
    requires |s| == 16 && |cp| == 16
    ensures ExpandFrom(s, cp, 1, 5, key, 4) == 1.0 * Leaf(s, cp, key + 0x10_0000)
  {
    RadixTable();
    ExpandStepAt(s, cp, 1, 5, key, 4, key + 0x1_0000);
    assert Expand(s, cp, 0, 1, key + 0x1_0000) == 0.0;
    Parts1Of5From5(s, cp, key);
  }
  lemma Parts1Of5From3(s: seq<real>, cp: seq<real>, key: nat)
    requires |s| == 16 && |cp| == 16
    ensures ExpandFrom(s, cp, 1, 5, key, 3) == 1.0 * Leaf(s, cp, key + 0x10_0000)
  {
    RadixTable();
    ExpandStepAt(s, cp, 1, 5, key, 3, key + 0x1000);
    assert Expand(s, cp, 0, 2, key + 0x1000) == 0.0;
    Parts1Of5From4(s, cp, key);
  }
  lemma Parts1Of5From2(s: seq<real>, cp: seq<real>, key: nat)
    requires |s| == 16 && |cp| == 16
    ensures ExpandFrom(s, cp, 1, 5, key, 2) == 1.0 * Leaf(s, cp, key + 0x10_0000)
  {
    RadixTable();
    ExpandStepAt(s, cp, 1, 5, key, 2, key + 0x100);
    assert Expand(s, cp, 0, 3, key + 0x100) == 0.0;
    Parts1Of5From3(s, cp, key);
  }
  lemma Parts1Of5From1(s: seq<real>, cp: seq<real>, key: nat)
    requires |s| == 16 && |cp| == 16
    ensures ExpandFrom(s, cp, 1, 5, key, 1) == 1.0 * Leaf(s, cp, key + 0x10_0000)
  {
    RadixTable();
    ExpandStepAt(s, cp, 1, 5, key, 1, key + 0x10);
    assert Expand(s, cp, 0, 4, key + 0x10) == 0.0;
    Parts1Of5From2(s, cp, key);
  }
  lemma Parts1Of5(s: seq<real>, cp: seq<real>, key: nat)
    requires |s| == 16 && |cp| == 16
    ensures Expand(s, cp, 1, 5, key) == 1.0 * Leaf(s, cp, key + 0x10_0000)
  {
    Parts1Of5From1(s, cp, key);
  }
  lemma Parts2Of5From5(s: seq<real>, cp: seq<real>, key: nat)
    requires |s| == 16 && |cp| == 16
    ensures ExpandFrom(s, cp, 2, 5, key, 5) == 0.0
  {
    RadixTable();
    ExpandStepAt(s, cp, 2, 5, key, 5, key + 0x10_0000);
    ExpandBelow(s, cp, 1, 0, key + 0x10_0000);
    assert ExpandFrom(s, cp, 2, 5, key, 6) == 0.0;
  }
  lemma Parts2Of5From4(s: seq<real>, cp: seq<real>, key: nat)
    requires |s| == 16 && |cp| == 16
    ensures ExpandFrom(s, cp, 2, 5, key, 4) == 1.0 * Leaf(s, cp, key + 0x1_0010)
  {
    RadixTable();
    ExpandStepAt(s, cp, 2, 5, key, 4, key + 0x1_0000);
    Parts1Of1(s, cp, key + 0x1_0000);
    Parts2Of5From5(s, cp, key);
  }
  lemma Parts2Of5From3(s: seq<real>, cp: seq<real>, key: nat)
    requires |s| == 16 && |cp| == 16
    ensures ExpandFrom(s, cp, 2, 5, key, 3) == 1.0 * Leaf(s, cp, key + 0x1100) + 1.0 * Leaf(s, cp, key + 0x1_0010)
  {
    RadixTable();
    ExpandStepAt(s, cp, 2, 5, key, 3, key + 0x1000);
    Parts1Of2(s, cp, key + 0x1000);
    Parts2Of5From4(s, cp, key);
  }
  lemma Parts2Of5From2(s: seq<real>, cp: seq<real>, key: nat)
    requires |s| == 16 && |cp| == 16
    ensures ExpandFrom(s, cp, 2, 5, key, 2) == 2.0 * Leaf(s, cp, key + 0x1100) + 1.0 * Leaf(s, cp, key + 0x1_0010)
  {
    RadixTable();
    ExpandStepAt(s, cp, 2, 5, key, 2, key + 0x100);
    Parts1Of3(s, cp, key + 0x100);
    Parts2Of5From3(s, cp, key);
  }
  lemma Parts2Of5From1(s: seq<real>, cp: seq<real>, key: nat)
    requires |s| == 16 && |cp| == 16
    ensures ExpandFrom(s, cp, 2, 5, key, 1) == 2.0 * Leaf(s, cp, key + 0x1100) + 2.0 * Leaf(s, cp, key + 0x1_0010)
  {
    RadixTable();
    ExpandStepAt(s, cp, 2, 5, key, 1, key + 0x10);
    Parts1Of4(s, cp, key + 0x10);
    Parts2Of5From2(s, cp, key);
  }
  lemma Parts2Of5(s: seq<real>, cp: seq<real>, key: nat)
    requires |s| == 16 && |cp| == 16
    ensures Expand(s, cp, 2, 5, key) == 2.0 * Leaf(s, cp, key + 0x1100) + 2.0 * Leaf(s, cp, key + 0x1_0010)
  {
    Parts2Of5From1(s, cp, key);
  }
  lemma Parts3Of5From5(s: seq<real>, cp: seq<real>, key: nat)
    requires |s| == 16 && |cp| == 16
    ensures ExpandFrom(s, cp, 3, 5, key, 5) == 0.0
  {
    RadixTable();
    ExpandStepAt(s, cp, 3, 5, key, 5, key + 0x10_0000);
    ExpandBelow(s, cp, 2, 0, key + 0x10_0000);
    assert ExpandFrom(s, cp, 3, 5, key, 6) == 0.0;
  }
  lemma Parts3Of5From4(s: seq<real>, cp: seq<real>, key: nat)
    requires |s| == 16 && |cp| == 16
    ensures ExpandFrom(s, cp, 3, 5, key, 4) == 0.0
  {
    RadixTable();
    ExpandStepAt(s, cp, 3, 5, key, 4, key + 0x1_0000);
    ExpandBelow(s, cp, 2, 1, key + 0x1_0000);
    Parts3Of5From5(s, cp, key);
  }
  lemma Parts3Of5From3(s: seq<real>, cp: seq<real>, key: nat)
    requires |s| == 16 && |cp| == 16
    ensures ExpandFrom(s, cp, 3, 5, key, 3) == 1.0 * Leaf(s, cp, key + 0x1020)
  {
    RadixTable();
    ExpandStepAt(s, cp, 3, 5, key, 3, key + 0x1000);
    Parts2Of2(s, cp, key + 0x1000);
    Parts3Of5From4(s, cp, key);
  }
  lemma Parts3Of5From2(s: seq<real>, cp: seq<real>, key: nat)
    requires |s| == 16 && |cp| == 16
    ensures ExpandFrom(s, cp, 3, 5, key, 2) == 2.0 * Leaf(s, cp, key + 0x210) + 1.0 * Leaf(s, cp, key + 0x1020)
  {
    RadixTable();
    ExpandStepAt(s, cp, 3, 5, key, 2, key + 0x100);
    Parts2Of3(s, cp, key + 0x100);
    Parts3Of5From3(s, cp, key);
  }
  lemma Parts3Of5From1(s: seq<real>, cp: seq<real>, key: nat)
    requires |s| == 16 && |cp| == 16
    ensures ExpandFrom(s, cp, 3, 5, key, 1) == 3.0 * Leaf(s, cp, key + 0x210) + 3.0 * Leaf(s, cp, key + 0x1020)
  {
    RadixTable();
    ExpandStepAt(s, cp, 3, 5, key, 1, key + 0x10);
    Parts2Of4(s, cp, key + 0x10);
    Parts3Of5From2(s, cp, key);
  }
  lemma Parts3Of5(s: seq<real>, cp: seq<real>, key: nat)
    requires |s| == 16 && |cp| == 16
    ensures Expand(s, cp, 3, 5, key) == 3.0 * Leaf(s, cp, key + 0x210) + 3.0 * Leaf(s, cp, key + 0x1020)
  {
    Parts3Of5From1(s, cp, key);
  }
  lemma Parts4Of5From5(s: seq<real>, cp: seq<real>, key: nat)
    requires |s| == 16 && |cp| == 16
    ensures ExpandFrom(s, cp, 4, 5, key, 5) == 0.0
  {
    RadixTable();
    ExpandStepAt(s, cp, 4, 5, key, 5, key + 0x10_0000);
    ExpandBelow(s, cp, 3, 0, key + 0x10_0000);
    assert ExpandFrom(s, cp, 4, 5, key, 6) == 0.0;
  }
  lemma Parts4Of5From4(s: seq<real>, cp: seq<real>, key: nat)
    requires |s| == 16 && |cp| == 16
    ensures ExpandFrom(s, cp, 4, 5, key, 4) == 0.0
  {
    RadixTable();
    ExpandStepAt(s, cp, 4, 5, key, 4, key + 0x1_0000);
    ExpandBelow(s, cp, 3, 1, key + 0x1_0000);
    Parts4Of5From5(s, cp, key);
  }
  lemma Parts4Of5From3(s: seq<real>, cp: seq<real>, key: nat)
    requires |s| == 16 && |cp| == 16
    ensures ExpandFrom(s, cp, 4, 5, key, 3) == 0.0
  {
    RadixTable();
    ExpandStepAt(s, cp, 4, 5, key, 3, key + 0x1000);
    ExpandBelow(s, cp, 3, 2, key + 0x1000);
    Parts4Of5From4(s, cp, key);
  }
  lemma Parts4Of5From2(s: seq<real>, cp: seq<real>, key: nat)
    requires |s| == 16 && |cp| == 16
    ensures ExpandFrom(s, cp, 4, 5, key, 2) == 1.0 * Leaf(s, cp, key + 0x130)
  {
    RadixTable();
    ExpandStepAt(s, cp, 4, 5, key, 2, key + 0x100);
    Parts3Of3(s, cp, key + 0x100);
    Parts4Of5From3(s, cp, key);
  }
  lemma Parts4Of5From1(s: seq<real>, cp: seq<real>, key: nat)
    requires |s| == 16 && |cp| == 16
    ensures ExpandFrom(s, cp, 4, 5, key, 1) == 4.0 * Leaf(s, cp, key + 0x130)
  {
    RadixTable();
    ExpandStepAt(s, cp, 4, 5, key, 1, key + 0x10);
    Parts3Of4(s, cp, key + 0x10);
    Parts4Of5From2(s, cp, key);
  }
  lemma Parts4Of5(s: seq<real>, cp: seq<real>, key: nat)
    requires |s| == 16 && |cp| == 16
    ensures Expand(s, cp, 4, 5, key) == 4.0 * Leaf(s, cp, key + 0x130)
  {
    Parts4Of5From1(s, cp, key);
  }
  lemma Parts5Of5From5(s: seq<real>, cp: seq<real>, key: nat)
    requires |s| == 16 && |cp| == 16
    ensures ExpandFrom(s, cp, 5, 5, key, 5) == 0.0
  {
    RadixTable();
    ExpandStepAt(s, cp, 5, 5, key, 5, key + 0x10_0000);
    ExpandBelow(s, cp, 4, 0, key + 0x10_0000);
    assert ExpandFrom(s, cp, 5, 5, key, 6) == 0.0;
  }
  lemma Parts5Of5From4(s: seq<real>, cp: seq<real>, key: nat)
    requires |s| == 16 && |cp| == 16
    ensures ExpandFrom(s, cp, 5, 5, key, 4) == 0.0
  {
    RadixTable();
    ExpandStepAt(s, cp, 5, 5, key, 4, key + 0x1_0000);
    ExpandBelow(s, cp, 4, 1, key + 0x1_0000);
    Parts5Of5From5(s, cp, key);
  }
  lemma Parts5Of5From3(s: seq<real>, cp: seq<real>, key: nat)
    requires |s| == 16 && |cp| == 16
    ensures ExpandFrom(s, cp, 5, 5, key, 3) == 0.0
  {
    RadixTable();
    ExpandStepAt(s, cp, 5, 5, key, 3, key + 0x1000);
    ExpandBelow(s, cp, 4, 2, key + 0x1000);
    Parts5Of5From4(s, cp, key);
  }
  lemma Parts5Of5From2(s: seq<real>, cp: seq<real>, key: nat)
    requires |s| == 16 && |cp| == 16
    ensures ExpandFrom(s, cp, 5, 5, key, 2) == 0.0
  {
    RadixTable();
    ExpandStepAt(s, cp, 5, 5, key, 2, key + 0x100);
    ExpandBelow(s, cp, 4, 3, key + 0x100);
    Parts5Of5From3(s, cp, key);
  }
  lemma Parts5Of5From1(s: seq<real>, cp: seq<real>, key: nat)
    requires |s| == 16 && |cp| == 16
    ensures ExpandFrom(s, cp, 5, 5, key, 1) == 1.0 * Leaf(s, cp, key + 0x50)
  {
    RadixTable();
    ExpandStepAt(s, cp, 5, 5, key, 1, key + 0x10);
    Parts4Of4(s, cp, key + 0x10);
    Parts5Of5From2(s, cp, key);
  }
  lemma Parts5Of5(s: seq<real>, cp: seq<real>, key: nat)
    requires |s| == 16 && |cp| == 16
    ensures Expand(s, cp, 5, 5, key) == 1.0 * Leaf(s, cp, key + 0x50)
  {
    Parts5Of5From1(s, cp, key);
  }
  lemma Parts1Of6From6(s: seq<real>, cp: seq<real>, key: nat)
    requires |s| == 16 && |cp| == 16
    ensures ExpandFrom(s, cp, 1, 6, key, 6) == 1.0 * Leaf(s, cp, key + 0x100_0000)
  {
    RadixTable();
    ExpandStepAt(s, cp, 1, 6, key, 6, key + 0x100_0000);
    assert Expand(s, cp, 0, 0, key + 0x100_0000) == Leaf(s, cp, key + 0x100_0000);
    assert ExpandFrom(s, cp, 1, 6, key, 7) == 0.0;
  }
  lemma Parts1Of6From5(s: seq<real>, cp: seq<real>, key: nat)
    requires |s| == 16 && |cp| == 16
    ensures ExpandFrom(s, cp, 1, 6, key, 5) == 1.0 * Leaf(s, cp, key + 0x100_0000)
  {
    RadixTable();
    ExpandStepAt(s, cp, 1, 6, key, 5, key + 0x10_0000);
    assert Expand(s, cp, 0, 1, key + 0x10_0000) == 0.0;
    Parts1Of6From6(s, cp, key);
  }
  lemma Parts1Of6From4(s: seq<real>, cp: seq<real>, key: nat)
    requires |s| == 16 && |cp| == 16
    ensures ExpandFrom(s, cp, 1, 6, key, 4) == 1.0 * Leaf(s, cp, key + 0x100_0000)
  {
    RadixTable();
    ExpandStepAt(s, cp, 1, 6, key, 4, key + 0x1_0000);
    assert Expand(s, cp, 0, 2, key + 0x1_0000) == 0.0;
    Parts1Of6From5(s, cp, key);
  }
  lemma Parts1Of6From3(s: seq<real>, cp: seq<real>, key: nat)
    requires |s| == 16 && |cp| == 16
    ensures ExpandFrom(s, cp, 1, 6, key, 3) == 1.0 * Leaf(s, cp, key + 0x100_0000)
  {
    RadixTable();
    ExpandStepAt(s, cp, 1, 6, key, 3, key + 0x1000);
    assert Expand(s, cp, 0, 3, key + 0x1000) == 0.0;
    Parts1Of6From4(s, cp, key);
  }
  lemma Parts1Of6From2(s: seq<real>, cp: seq<real>, key: nat)
    requires |s| == 16 && |cp| == 16
    ensures ExpandFrom(s, cp, 1, 6, key, 2) == 1.0 * Leaf(s, cp, key + 0x100_0000)
  {
    RadixTable();
    ExpandStepAt(s, cp, 1, 6, key, 2, key + 0x100);
    assert Expand(s, cp, 0, 4, key + 0x100) == 0.0;
    Parts1Of6From3(s, cp, key);
  }
  lemma Parts1Of6From1(s: seq<real>, cp: seq<real>, key: nat)
    requires |s| == 16 && |cp| == 16
    ensures ExpandFrom(s, cp, 1, 6, key, 1) == 1.0 * Leaf(s, cp, key + 0x100_0000)
  {
    RadixTable();
    ExpandStepAt(s, cp, 1, 6, key, 1, key + 0x10);
    assert Expand(s, cp, 0, 5, key + 0x10) == 0.0;
    Parts1Of6From2(s, cp, key);
  }
  lemma Parts1Of6(s: seq<real>, cp: seq<real>, key: nat)
    requires |s| == 16 && |cp| == 16
    ensures Expand(s, cp, 1, 6, key) == 1.0 * Leaf(s, cp, key + 0x100_0000)
  {
    Parts1Of6From1(s, cp, key);
  }
  lemma Parts2Of6From6(s: seq<real>, cp: seq<real>, key: nat)
    requires |s| == 16 && |cp| == 16
    ensures ExpandFrom(s, cp, 2, 6, key, 6) == 0.0
  {
    RadixTable();
    ExpandStepAt(s, cp, 2, 6, key, 6, key + 0x100_0000);
    ExpandBelow(s, cp, 1, 0, key + 0x100_0000);
    assert ExpandFrom(s, cp, 2, 6, key, 7) == 0.0;
  }
  lemma Parts2Of6From5(s: seq<real>, cp: seq<real>, key: nat)
    requires |s| == 16 && |cp| == 16
    ensures ExpandFrom(s, cp, 2, 6, key, 5) == 1.0 * Leaf(s, cp, key + 0x10_0010)
  {
    RadixTable();
    ExpandStepAt(s, cp, 2, 6, key, 5, key + 0x10_0000);
    Parts1Of1(s, cp, key + 0x10_0000);
    Parts2Of6From6(s, cp, key);
  }
  lemma Parts2Of6From4(s: seq<real>, cp: seq<real>, key: nat)
    requires |s| == 16 && |cp| == 16
    ensures ExpandFrom(s, cp, 2, 6, key, 4) == 1.0 * Leaf(s, cp, key + 0x1_0100) + 1.0 * Leaf(s, cp, key + 0x10_0010)
  {
    RadixTable();
    ExpandStepAt(s, cp, 2, 6, key, 4, key + 0x1_0000);
    Parts1Of2(s, cp, key + 0x1_0000);
    Parts2Of6From5(s, cp, key);
  }
  lemma Parts2Of6From3(s: seq<real>, cp: seq<real>, key: nat)
    requires |s| == 16 && |cp| == 16
    ensures ExpandFrom(s, cp, 2, 6, key, 3) == 1.0 * Leaf(s, cp, key + 0x2000) + 1.0 * Leaf(s, cp, key + 0x1_0100) + 1.0 * Leaf(s, cp, key + 0x10_0010)
  {
    RadixTable();
    ExpandStepAt(s, cp, 2, 6, key, 3, key + 0x1000);
    Parts1Of3(s, cp, key + 0x1000);
    Parts2Of6From4(s, cp, key);
  }
  lemma Parts2Of6From2(s: seq<real>, cp: seq<real>, key: nat)
    requires |s| == 16 && |cp| == 16
    ensures ExpandFrom(s, cp, 2, 6, key, 2) == 1.0 * Leaf(s, cp, key + 0x2000) + 2.0 * Leaf(s, cp, key + 0x1_0100) + 1.0 * Leaf(s, cp, key + 0x10_0010)
  {
    RadixTable();
    ExpandStepAt(s, cp, 2, 6, key, 2, key + 0x100);
    Parts1Of4(s, cp, key + 0x100);
    Parts2Of6From3(s, cp, key);
  }
  lemma Parts2Of6From1(s: seq<real>, cp: seq<real>, key: nat)
    requires |s| == 16 && |cp| == 16
    ensures ExpandFrom(s, cp, 2, 6, key, 1) == 1.0 * Leaf(s, cp, key + 0x2000) + 2.0 * Leaf(s, cp, key + 0x1_0100) + 2.0 * Leaf(s, cp, key + 0x10_0010)
  {
    RadixTable();
    ExpandStepAt(s, cp, 2, 6, key, 1, key + 0x10);
    Parts1Of5(s, cp, key + 0x10);
    Parts2Of6From2(s, cp, key);
  }
  lemma Parts2Of6(s: seq<real>, cp: seq<real>, key: nat)
    requires |s| == 16 && |cp| == 16
    ensures Expand(s, cp, 2, 6, key) == 1.0 * Leaf(s, cp, key + 0x2000) + 2.0 * Leaf(s, cp, key + 0x1_0100) + 2.0 * Leaf(s, cp, key + 0x10_0010)
  {
    Parts2Of6From1(s, cp, key);
  }
  lemma Parts3Of6From6(s: seq<real>, cp: seq<real>, key: nat)
    requires |s| == 16 && |cp| == 16
    ensures ExpandFrom(s, cp, 3, 6, key, 6) == 0.0
  {
    RadixTable();
    ExpandStepAt(s, cp, 3, 6, key, 6, key + 0x100_0000);
    ExpandBelow(s, cp, 2, 0, key + 0x100_0000);
    assert ExpandFrom(s, cp, 3, 6, key, 7) == 0.0;
  }
  lemma Parts3Of6From5(s: seq<real>, cp: seq<real>, key: nat)
    requires |s| == 16 && |cp| == 16
    ensures ExpandFrom(s, cp, 3, 6, key, 5) == 0.0
  {
    RadixTable();
    ExpandStepAt(s, cp, 3, 6, key, 5, key + 0x10_0000);
    ExpandBelow(s, cp, 2, 1, key + 0x10_0000);
    Parts3Of6From6(s, cp, key);
  }
  lemma Parts3Of6From4(s: seq<real>, cp: seq<real>, key: nat)
    requires |s| == 16 && |cp| == 16
    ensures ExpandFrom(s, cp, 3, 6, key, 4) == 1.0 * Leaf(s, cp, key + 0x1_0020)
  {
    RadixTable();
    ExpandStepAt(s, cp, 3, 6, key, 4, key + 0x1_0000);
    Parts2Of2(s, cp, key + 0x1_0000);
    Parts3Of6From5(s, cp, key);
  }
  lemma Parts3Of6From3(s: seq<real>, cp: seq<real>, key: nat)
    requires |s| == 16 && |cp| == 16
    ensures ExpandFrom(s, cp, 3, 6, key, 3) == 2.0 * Leaf(s, cp, key + 0x1110) + 1.0 * Leaf(s, cp, key + 0x1_0020)
  {
    RadixTable();
    ExpandStepAt(s, cp, 3, 6, key, 3, key + 0x1000);
    Parts2Of3(s, cp, key + 0x1000);
    Parts3Of6From4(s, cp, key);
  }
  lemma Parts3Of6From2(s: seq<real>, cp: seq<real>, key: nat)
    requires |s| == 16 && |cp| == 16
    ensures ExpandFrom(s, cp, 3, 6, key, 2) == 1.0 * Leaf(s, cp, key + 0x300) + 4.0 * Leaf(s, cp, key + 0x1110) + 1.0 * Leaf(s, cp, key + 0x1_0020)
  {
    RadixTable();
    ExpandStepAt(s, cp, 3, 6, key, 2, key + 0x100);
    Parts2Of4(s, cp, key + 0x100);
    Parts3Of6From3(s, cp, key);
  }
  lemma Parts3Of6From1(s: seq<real>, cp: seq<real>, key: nat)
    requires |s| == 16 && |cp| == 16
    ensures ExpandFrom(s, cp, 3, 6, key, 1) == 1.0 * Leaf(s, cp, key + 0x300) + 6.0 * Leaf(s, cp, key + 0x1110) + 3.0 * Leaf(s, cp, key + 0x1_0020)
  {
    RadixTable();
    ExpandStepAt(s, cp, 3, 6, key, 1, key + 0x10);
    Parts2Of5(s, cp, key + 0x10);
    Parts3Of6From2(s, cp, key);
  }
  lemma Parts3Of6(s: seq<real>, cp: seq<real>, key: nat)
    requires |s| == 16 && |cp| == 16
    ensures Expand(s, cp, 3, 6, key) == 1.0 * Leaf(s, cp, key + 0x300) + 6.0 * Leaf(s, cp, key + 0x1110) + 3.0 * Leaf(s, cp, key + 0x1_0020)
  {
    Parts3Of6From1(s, cp, key);
  }
  lemma Parts4Of6From6(s: seq<real>, cp: seq<real>, key: nat)
    requires |s| == 16 && |cp| == 16
    ensures ExpandFrom(s, cp, 4, 6, key, 6) == 0.0
  {
    RadixTable();
    ExpandStepAt(s, cp, 4, 6, key, 6, key + 0x100_0000);
    ExpandBelow(s, cp, 3, 0, key + 0x100_0000);
    assert ExpandFrom(s, cp, 4, 6, key, 7) == 0.0;
  }
  lemma Parts4Of6From5(s: seq<real>, cp: seq<real>, key: nat)
    requires |s| == 16 && |cp| == 16
    ensures ExpandFrom(s, cp, 4, 6, key, 5) == 0.0
  {
    RadixTable();
    ExpandStepAt(s, cp, 4, 6, key, 5, key + 0x10_0000);
    ExpandBelow(s, cp, 3, 1, key + 0x10_0000);
    Parts4Of6From6(s, cp, key);
  }
  lemma Parts4Of6From4(s: seq<real>, cp: seq<real>, key: nat)
    requires |s| == 16 && |cp| == 16
    ensures ExpandFrom(s, cp, 4, 6, key, 4) == 0.0
  {
    RadixTable();
    ExpandStepAt(s, cp, 4, 6, key, 4, key + 0x1_0000);
    ExpandBelow(s, cp, 3, 2, key + 0x1_0000);
    Parts4Of6From5(s, cp, key);
  }
  lemma Parts4Of6From3(s: seq<real>, cp: seq<real>, key: nat)
    requires |s| == 16 && |cp| == 16
    ensures ExpandFrom(s, cp, 4, 6, key, 3) == 1.0 * Leaf(s, cp, key + 0x1030)
  {
    RadixTable();
    ExpandStepAt(s, cp, 4, 6, key, 3, key + 0x1000);
    Parts3Of3(s, cp, key + 0x1000);
    Parts4Of6From4(s, cp, key);
  }
  lemma Parts4Of6From2(s: seq<real>, cp: seq<real>, key: nat)
    requires |s| == 16 && |cp| == 16
    ensures ExpandFrom(s, cp, 4, 6, key, 2) == 3.0 * Leaf(s, cp, key + 0x220) + 1.0 * Leaf(s, cp, key + 0x1030)
  {
    RadixTable();
    ExpandStepAt(s, cp, 4, 6, key, 2, key + 0x100);
    Parts3Of4(s, cp, key + 0x100);
    Parts4Of6From3(s, cp, key);
  }
  lemma Parts4Of6From1(s: seq<real>, cp: seq<real>, key: nat)
    requires |s| == 16 && |cp| == 16
    ensures ExpandFrom(s, cp, 4, 6, key, 1) == 6.0 * Leaf(s, cp, key + 0x220) + 4.0 * Leaf(s, cp, key + 0x1030)
  {
    RadixTable();
    ExpandStepAt(s, cp, 4, 6, key, 1, key + 0x10);
    Parts3Of5(s, cp, key + 0x10);
    Parts4Of6From2(s, cp, key);
  }
  lemma Parts4Of6(s: seq<real>, cp: seq<real>, key: nat)
    requires |s| == 16 && |cp| == 16
    ensures Expand(s, cp, 4, 6, key) == 6.0 * Leaf(s, cp, key + 0x220) + 4.0 * Leaf(s, cp, key + 0x1030)
  {
    Parts4Of6From1(s, cp, key);
  }
  lemma Parts5Of6From6(s: seq<real>, cp: seq<real>, key: nat)
    requires |s| == 16 && |cp| == 16
    ensures ExpandFrom(s, cp, 5, 6, key, 6) == 0.0
  {
    RadixTable();
    ExpandStepAt(s, cp, 5, 6, key, 6, key + 0x100_0000);
    ExpandBelow(s, cp, 4, 0, key + 0x100_0000);
    assert ExpandFrom(s, cp, 5, 6, key, 7) == 0.0;
  }
  lemma Parts5Of6From5(s: seq<real>, cp: seq<real>, key: nat)
    requires |s| == 16 && |cp| == 16
    ensures ExpandFrom(s, cp, 5, 6, key, 5) == 0.0
  {
    RadixTable();
    ExpandStepAt(s, cp, 5, 6, key, 5, key + 0x10_0000);
    ExpandBelow(s, cp, 4, 1, key + 0x10_0000);
    Parts5Of6From6(s, cp, key);
  }
  lemma Parts5Of6From4(s: seq<real>, cp: seq<real>, key: nat)
    requires |s| == 16 && |cp| == 16
    ensures ExpandFrom(s, cp, 5, 6, key, 4) == 0.0
  {
    RadixTable();
    ExpandStepAt(s, cp, 5, 6, key, 4, key + 0x1_0000);
    ExpandBelow(s, cp, 4, 2, key + 0x1_0000);
    Parts5Of6From5(s, cp, key);
  }
  lemma Parts5Of6From3(s: seq<real>, cp: seq<real>, key: nat)
    requires |s| == 16 && |cp| == 16
    ensures ExpandFrom(s, cp, 5, 6, key, 3) == 0.0
  {
    RadixTable();
    ExpandStepAt(s, cp, 5, 6, key, 3, key + 0x1000);
    ExpandBelow(s, cp, 4, 3, key + 0x1000);
    Parts5Of6From4(s, cp, key);
  }
  lemma Parts5Of6From2(s: seq<real>, cp: seq<real>, key: nat)
    requires |s| == 16 && |cp| == 16
    ensures ExpandFrom(s, cp, 5, 6, key, 2) == 1.0 * Leaf(s, cp, key + 0x140)
  {
    RadixTable();
    ExpandStepAt(s, cp, 5, 6, key, 2, key + 0x100);
    Parts4Of4(s, cp, key + 0x100);
    Parts5Of6From3(s, cp, key);
  }
  lemma Parts5Of6From1(s: seq<real>, cp: seq<real>, key: nat)
    requires |s| == 16 && |cp| == 16
    ensures ExpandFrom(s, cp, 5, 6, key, 1) == 5.0 * Leaf(s, cp, key + 0x140)
  {
    RadixTable();
    ExpandStepAt(s, cp, 5, 6, key, 1, key + 0x10);
    Parts4Of5(s, cp, key + 0x10);
    Parts5Of6From2(s, cp, key);
  }
  lemma Parts5Of6(s: seq<real>, cp: seq<real>, key: nat)
    requires |s| == 16 && |cp| == 16
    ensures Expand(s, cp, 5, 6, key) == 5.0 * Leaf(s, cp, key + 0x140)
  {
    Parts5Of6From1(s, cp, key);
  }
  lemma Parts6Of6From6(s: seq<real>, cp: seq<real>, key: nat)
    requires |s| == 16 && |cp| == 16
    ensures ExpandFrom(s, cp, 6, 6, key, 6) == 0.0
  {
    RadixTable();
    ExpandStepAt(s, cp, 6, 6, key, 6, key + 0x100_0000);
    ExpandBelow(s, cp, 5, 0, key + 0x100_0000);
    assert ExpandFrom(s, cp, 6, 6, key, 7) == 0.0;
  }
  lemma Parts6Of6From5(s: seq<real>, cp: seq<real>, key: nat)
    requires |s| == 16 && |cp| == 16
    ensures ExpandFrom(s, cp, 6, 6, key, 5) == 0.0
  {
    RadixTable();
    ExpandStepAt(s, cp, 6, 6, key, 5, key + 0x10_0000);
    ExpandBelow(s, cp, 5, 1, key + 0x10_0000);
    Parts6Of6From6(s, cp, key);
  }
  lemma Parts6Of6From4(s: seq<real>, cp: seq<real>, key: nat)
    requires |s| == 16 && |cp| == 16
    ensures ExpandFrom(s, cp, 6, 6, key, 4) == 0.0
  {
    RadixTable();
    ExpandStepAt(s, cp, 6, 6, key, 4, key + 0x1_0000);
    ExpandBelow(s, cp, 5, 2, key + 0x1_0000);
    Parts6Of6From5(s, cp, key);
  }
  lemma Parts6Of6From3(s: seq<real>, cp: seq<real>, key: nat)
    requires |s| == 16 && |cp| == 16
    ensures ExpandFrom(s, cp, 6, 6, key, 3) == 0.0
  {
    RadixTable();
    ExpandStepAt(s, cp, 6, 6, key, 3, key + 0x1000);
    ExpandBelow(s, cp, 5, 3, key + 0x1000);
    Parts6Of6From4(s, cp, key);
  }
  lemma Parts6Of6From2(s: seq<real>, cp: seq<real>, key: nat)
    requires |s| == 16 && |cp| == 16
    ensures ExpandFrom(s, cp, 6, 6, key, 2) == 0.0
  {
    RadixTable();
    ExpandStepAt(s, cp, 6, 6, key, 2, key + 0x100);
    ExpandBelow(s, cp, 5, 4, key + 0x100);
    Parts6Of6From3(s, cp, key);
  }
  lemma Parts6Of6From1(s: seq<real>, cp: seq<real>, key: nat)
    requires |s| == 16 && |cp| == 16
    ensures ExpandFrom(s, cp, 6, 6, key, 1) == 1.0 * Leaf(s, cp, key + 0x60)
  {
    RadixTable();
    ExpandStepAt(s, cp, 6, 6, key, 1, key + 0x10);
    Parts5Of5(s, cp, key + 0x10);
    Parts6Of6From2(s, cp, key);
  }
  lemma Parts6Of6(s: seq<real>, cp: seq<real>, key: nat)
    requires |s| == 16 && |cp| == 16
    ensures Expand(s, cp, 6, 6, key) == 1.0 * Leaf(s, cp, key + 0x60)
  {
    Parts6Of6From1(s, cp, key);
  }
  lemma Parts1Of7From7(s: seq<real>, cp: seq<real>, key: nat)
    requires |s| == 16 && |cp| == 16
    ensures ExpandFrom(s, cp, 1, 7, key, 7) == 1.0 * Leaf(s, cp, key + 0x1000_0000)
  {
    RadixTable();
    ExpandStepAt(s, cp, 1, 7, key, 7, key + 0x1000_0000);
    assert Expand(s, cp, 0, 0, key + 0x1000_0000) == Leaf(s, cp, key + 0x1000_0000);
    assert ExpandFrom(s, cp, 1, 7, key, 8) == 0.0;
  }
  lemma Parts1Of7From6(s: seq<real>, cp: seq<real>, key: nat)
    requires |s| == 16 && |cp| == 16
    ensures ExpandFrom(s, cp, 1, 7, key, 6) == 1.0 * Leaf(s, cp, key + 0x1000_0000)
  {
    RadixTable();
    ExpandStepAt(s, cp, 1, 7, key, 6, key + 0x100_0000);
    assert Expand(s, cp, 0, 1, key + 0x100_0000) == 0.0;
    Parts1Of7From7(s, cp, key);
  }
  lemma Parts1Of7From5(s: seq<real>, cp: seq<real>, key: nat)
    requires |s| == 16 && |cp| == 16
    ensures ExpandFrom(s, cp, 1, 7, key, 5) == 1.0 * Leaf(s, cp, key + 0x1000_0000)
  {
    RadixTable();
    ExpandStepAt(s, cp, 1, 7, key, 5, key + 0x10_0000);
    assert Expand(s, cp, 0, 2, key + 0x10_0000) == 0.0;
    Parts1Of7From6(s, cp, key);
  }
  lemma Parts1Of7From4(s: seq<real>, cp: seq<real>, key: nat)
    requires |s| == 16 && |cp| == 16
    ensures ExpandFrom(s, cp, 1, 7, key, 4) == 1.0 * Leaf(s, cp, key + 0x1000_0000)
  {
    RadixTable();
    ExpandStepAt(s, cp, 1, 7, key, 4, key + 0x1_0000);
    assert Expand(s, cp, 0, 3, key + 0x1_0000) == 0.0;
    Parts1Of7From5(s, cp, key);
  }
  lemma Parts1Of7From3(s: seq<real>, cp: seq<real>, key: nat)
    requires |s| == 16 && |cp| == 16
    ensures ExpandFrom(s, cp, 1, 7, key, 3) == 1.0 * Leaf(s, cp, key + 0x1000_0000)
  {
    RadixTable();
    ExpandStepAt(s, cp, 1, 7, key, 3, key + 0x1000);
    assert Expand(s, cp, 0, 4, key + 0x1000) == 0.0;
    Parts1Of7From4(s, cp, key);
  }
  lemma Parts1Of7From2(s: seq<real>, cp: seq<real>, key: nat)
    requires |s| == 16 && |cp| == 16
    ensures ExpandFrom(s, cp, 1, 7, key, 2) == 1.0 * Leaf(s, cp, key + 0x1000_0000)
  {
    RadixTable();
    ExpandStepAt(s, cp, 1, 7, key, 2, key + 0x100);
    assert Expand(s, cp, 0, 5, key + 0x100) == 0.0;
    Parts1Of7From3(s, cp, key);
  }
  lemma Parts1Of7From1(s: seq<real>, cp: seq<real>, key: nat)
    requires |s| == 16 && |cp| == 16
    ensures ExpandFrom(s, cp, 1, 7, key, 1) == 1.0 * Leaf(s, cp, key + 0x1000_0000)
  {
    RadixTable();
    ExpandStepAt(s, cp, 1, 7, key, 1, key + 0x10);
    assert Expand(s, cp, 0, 6, key + 0x10) == 0.0;
    Parts1Of7From2(s, cp, key);
  }
  lemma Parts1Of7(s: seq<real>, cp: seq<real>, key: nat)
    requires |s| == 16 && |cp| == 16
    ensures Expand(s, cp, 1, 7, key) == 1.0 * Leaf(s, cp, key + 0x1000_0000)
  {
    Parts1Of7From1(s, cp, key);
  }
  lemma Parts2Of7From7(s: seq<real>, cp: seq<real>, key: nat)
    requires |s| == 16 && |cp| == 16
    ensures ExpandFrom(s, cp, 2, 7, key, 7) == 0.0
  {
    RadixTable();
    ExpandStepAt(s, cp, 2, 7, key, 7, key + 0x1000_0000);
    ExpandBelow(s, cp, 1, 0, key + 0x1000_0000);
    assert ExpandFrom(s, cp, 2, 7, key, 8) == 0.0;
  }
  lemma Parts2Of7From6(s: seq<real>, cp: seq<real>, key: nat)
    requires |s| == 16 && |cp| == 16
    ensures ExpandFrom(s, cp, 2, 7, key, 6) == 1.0 * Leaf(s, cp, key + 0x100_0010)
  {
    RadixTable();
    ExpandStepAt(s, cp, 2, 7, key, 6, key + 0x100_0000);
    Parts1Of1(s, cp, key + 0x100_0000);
    Parts2Of7From7(s, cp, key);
  }
  lemma Parts2Of7From5(s: seq<real>, cp: seq<real>, key: nat)
    requires |s| == 16 && |cp| == 16
    ensures ExpandFrom(s, cp, 2, 7, key, 5) == 1.0 * Leaf(s, cp, key + 0x10_0100) + 1.0 * Leaf(s, cp, key + 0x100_0010)
  {
    RadixTable();
    ExpandStepAt(s, cp, 2, 7, key, 5, key + 0x10_0000);
    Parts1Of2(s, cp, key + 0x10_0000);
    Parts2Of7From6(s, cp, key);
  }
  lemma Parts2Of7From4(s: seq<real>, cp: seq<real>, key: nat)
    requires |s| == 16 && |cp| == 16
    ensures ExpandFrom(s, cp, 2, 7, key, 4) == 1.0 * Leaf(s, cp, key + 0x1_1000) + 1.0 * Leaf(s, cp, key + 0x10_0100) + 1.0 * Leaf(s, cp, key + 0x100_0010)
  {
    RadixTable();
    ExpandStepAt(s, cp, 2, 7, key, 4, key + 0x1_0000);
    Parts1Of3(s, cp, key + 0x1_0000);
    Parts2Of7From5(s, cp, key);
  }
  lemma Parts2Of7From3(s: seq<real>, cp: seq<real>, key: nat)
    requires |s| == 16 && |cp| == 16
    ensures ExpandFrom(s, cp, 2, 7, key, 3) == 2.0 * Leaf(s, cp, key + 0x1_1000) + 1.0 * Leaf(s, cp, key + 0x10_0100) + 1.0 * Leaf(s, cp, key + 0x100_0010)
  {
    RadixTable();
    ExpandStepAt(s, cp, 2, 7, key, 3, key + 0x1000);
    Parts1Of4(s, cp, key + 0x1000);
    Parts2Of7From4(s, cp, key);
  }
  lemma Parts2Of7From2(s: seq<real>, cp: seq<real>, key: nat)
    requires |s| == 16 && |cp| == 16
    ensures ExpandFrom(s, cp, 2, 7, key, 2) == 2.0 * Leaf(s, cp, key + 0x1_1000) + 2.0 * Leaf(s, cp, key + 0x10_0100) + 1.0 * Leaf(s, cp, key + 0x100_0010)
  {
    RadixTable();
    ExpandStepAt(s, cp, 2, 7, key, 2, key + 0x100);
    Parts1Of5(s, cp, key + 0x100);
    Parts2Of7From3(s, cp, key);
  }
  lemma Parts2Of7From1(s: seq<real>, cp: seq<real>, key: nat)
    requires |s| == 16 && |cp| == 16
    ensures ExpandFrom(s, cp, 2, 7, key, 1) == 2.0 * Leaf(s, cp, key + 0x1_1000) + 2.0 * Leaf(s, cp, key + 0x10_0100) + 2.0 * Leaf(s, cp, key + 0x100_0010)
  {
    RadixTable();
    ExpandStepAt(s, cp, 2, 7, key, 1, key + 0x10);
    Parts1Of6(s, cp, key + 0x10);
    Parts2Of7From2(s, cp, key);
  }
  lemma Parts2Of7(s: seq<real>, cp: seq<real>, key: nat)
    requires |s| == 16 && |cp| == 16
    ensures Expand(s, cp, 2, 7, key) == 2.0 * Leaf(s, cp, key + 0x1_1000) + 2.0 * Leaf(s, cp, key + 0x10_0100) + 2.0 * Leaf(s, cp, key + 0x100_0010)
  {
    Parts2Of7From1(s, cp, key);
  }
  lemma Parts3Of7From7(s: seq<real>, cp: seq<real>, key: nat)
    requires |s| == 16 && |cp| == 16
    ensures ExpandFrom(s, cp, 3, 7, key, 7) == 0.0
  {
    RadixTable();
    ExpandStepAt(s, cp, 3, 7, key, 7, key + 0x1000_0000);
    ExpandBelow(s, cp, 2, 0, key + 0x1000_0000);
    assert ExpandFrom(s, cp, 3, 7, key, 8) == 0.0;
  }
  lemma Parts3Of7From6(s: seq<real>, cp: seq<real>, key: nat)
    requires |s| == 16 && |cp| == 16
    ensures ExpandFrom(s, cp, 3, 7, key, 6) == 0.0
  {
    RadixTable();
    ExpandStepAt(s, cp, 3, 7, key, 6, key + 0x100_0000);
    ExpandBelow(s, cp, 2, 1, key + 0x100_0000);
    Parts3Of7From7(s, cp, key);
  }
  lemma Parts3Of7From5(s: seq<real>, cp: seq<real>, key: nat)
    requires |s| == 16 && |cp| == 16
    ensures ExpandFrom(s, cp, 3, 7, key, 5) == 1.0 * Leaf(s, cp, key + 0x10_0020)
  {
    RadixTable();
    ExpandStepAt(s, cp, 3, 7, key, 5, key + 0x10_0000);
    Parts2Of2(s, cp, key + 0x10_0000);
    Parts3Of7From6(s, cp, key);
  }
  lemma Parts3Of7From4(s: seq<real>, cp: seq<real>, key: nat)
    requires |s| == 16 && |cp| == 16
    ensures ExpandFrom(s, cp, 3, 7, key, 4) == 2.0 * Leaf(s, cp, key + 0x1_0110) + 1.0 * Leaf(s, cp, key + 0x10_0020)
  {
    RadixTable();
    ExpandStepAt(s, cp, 3, 7, key, 4, key + 0x1_0000);
    Parts2Of3(s, cp, key + 0x1_0000);
    Parts3Of7From5(s, cp, key);
  }
  lemma Parts3Of7From3(s: seq<real>, cp: seq<real>, key: nat)
    requires |s| == 16 && |cp| == 16
    ensures ExpandFrom(s, cp, 3, 7, key, 3) == 1.0 * Leaf(s, cp, key + 0x1200) + 2.0 * Leaf(s, cp, key + 0x2010) + 2.0 * Leaf(s, cp, key + 0x1_0110) + 1.0 * Leaf(s, cp, key + 0x10_0020)
  {
    RadixTable();
    ExpandStepAt(s, cp, 3, 7, key, 3, key + 0x1000);
    Parts2Of4(s, cp, key + 0x1000);
    Parts3Of7From4(s, cp, key);
  }
  lemma Parts3Of7From2(s: seq<real>, cp: seq<real>, key: nat)
    requires |s| == 16 && |cp| == 16
    ensures ExpandFrom(s, cp, 3, 7, key, 2) == 3.0 * Leaf(s, cp, key + 0x1200) + 2.0 * Leaf(s, cp, key + 0x2010) + 4.0 * Leaf(s, cp, key + 0x1_0110) + 1.0 * Leaf(s, cp, key + 0x10_0020)
  {
    RadixTable();
    ExpandStepAt(s, cp, 3, 7, key, 2, key + 0x100);
    Parts2Of5(s, cp, key + 0x100);
    Parts3Of7From3(s, cp, key);
  }
  lemma Parts3Of7From1(s: seq<real>, cp: seq<real>, key: nat)
    requires |s| == 16 && |cp| == 16
    ensures ExpandFrom(s, cp, 3, 7, key, 1) == 3.0 * Leaf(s, cp, key + 0x1200) + 3.0 * Leaf(s, cp, key + 0x2010) + 6.0 * Leaf(s, cp, key + 0x1_0110) + 3.0 * Leaf(s, cp, key + 0x10_0020)
  {
    RadixTable();
    ExpandStepAt(s, cp, 3, 7, key, 1, key + 0x10);
    Parts2Of6(s, cp, key + 0x10);
    Parts3Of7From2(s, cp, key);
  }
  lemma Parts3Of7(s: seq<real>, cp: seq<real>, key: nat)
    requires |s| == 16 && |cp| == 16
    ensures Expand(s, cp, 3, 7, key) == 3.0 * Leaf(s, cp, key + 0x1200) + 3.0 * Leaf(s, cp, key + 0x2010) + 6.0 * Leaf(s, cp, key + 0x1_0110) + 3.0 * Leaf(s, cp, key + 0x10_0020)
  {
    Parts3Of7From1(s, cp, key);
  }
  lemma Parts4Of7From7(s: seq<real>, cp: seq<real>, key: nat)
    requires |s| == 16 && |cp| == 16
    ensures ExpandFrom(s, cp, 4, 7, key, 7) == 0.0
  {
    RadixTable();
    ExpandStepAt(s, cp, 4, 7, key, 7, key + 0x1000_0000);
    ExpandBelow(s, cp, 3, 0, key + 0x1000_0000);
    assert ExpandFrom(s, cp, 4, 7, key, 8) == 0.0;
  }
  lemma Parts4Of7From6(s: seq<real>, cp: seq<real>, key: nat)
    requires |s| == 16 && |cp| == 16
    ensures ExpandFrom(s, cp, 4, 7, key, 6) == 0.0
  {
    RadixTable();
    ExpandStepAt(s, cp, 4, 7, key, 6, key + 0x100_0000);
    ExpandBelow(s, cp, 3, 1, key + 0x100_0000);
    Parts4Of7From7(s, cp, key);
  }
  lemma Parts4Of7From5(s: seq<real>, cp: seq<real>, key: nat)
    requires |s| == 16 && |cp| == 16
    ensures ExpandFrom(s, cp, 4, 7, key, 5) == 0.0
  {
    RadixTable();
    ExpandStepAt(s, cp, 4, 7, key, 5, key + 0x10_0000);
    ExpandBelow(s, cp, 3, 2, key + 0x10_0000);
    Parts4Of7From6(s, cp, key);
  }
  lemma Parts4Of7From4(s: seq<real>, cp: seq<real>, key: nat)
    requires |s| == 16 && |cp| == 16
    ensures ExpandFrom(s, cp, 4, 7, key, 4) == 1.0 * Leaf(s, cp, key + 0x1_0030)
  {
    RadixTable();
    ExpandStepAt(s, cp, 4, 7, key, 4, key + 0x1_0000);
    Parts3Of3(s, cp, key + 0x1_0000);
    Parts4Of7From5(s, cp, key);
  }
  lemma Parts4Of7From3(s: seq<real>, cp: seq<real>, key: nat)
    requires |s| == 16 && |cp| == 16
    ensures ExpandFrom(s, cp, 4, 7, key, 3) == 3.0 * Leaf(s, cp, key + 0x1120) + 1.0 * Leaf(s, cp, key + 0x1_0030)
  {
    RadixTable();
    ExpandStepAt(s, cp, 4, 7, key, 3, key + 0x1000);
    Parts3Of4(s, cp, key + 0x1000);
    Parts4Of7From4(s, cp, key);
  }
  lemma Parts4Of7From2(s: seq<real>, cp: seq<real>, key: nat)
    requires |s| == 16 && |cp| == 16
    ensures ExpandFrom(s, cp, 4, 7, key, 2) == 3.0 * Leaf(s, cp, key + 0x310) + 6.0 * Leaf(s, cp, key + 0x1120) + 1.0 * Leaf(s, cp, key + 0x1_0030)
  {
    RadixTable();
    ExpandStepAt(s, cp, 4, 7, key, 2, key + 0x100);
    Parts3Of5(s, cp, key + 0x100);
    Parts4Of7From3(s, cp, key);
  }
  lemma Parts4Of7From1(s: seq<real>, cp: seq<real>, key: nat)
    requires |s| == 16 && |cp| == 16
    ensures ExpandFrom(s, cp, 4, 7, key, 1) == 4.0 * Leaf(s, cp, key + 0x310) + 12.0 * Leaf(s, cp, key + 0x1120) + 4.0 * Leaf(s, cp, key + 0x1_0030)
  {
    RadixTable();
    ExpandStepAt(s, cp, 4, 7, key, 1, key + 0x10);
    Parts3Of6(s, cp, key + 0x10);
    Parts4Of7From2(s, cp, key);
  }
  lemma Parts4Of7(s: seq<real>, cp: seq<real>, key: nat)
    requires |s| == 16 && |cp| == 16
    ensures Expand(s, cp, 4, 7, key) == 4.0 * Leaf(s, cp, key + 0x310) + 12.0 * Leaf(s, cp, key + 0x1120) + 4.0 * Leaf(s, cp, key + 0x1_0030)
  {
    Parts4Of7From1(s, cp, key);
  }
  lemma Parts5Of7From7(s: seq<real>, cp: seq<real>, key: nat)
    requires |s| == 16 && |cp| == 16
    ensures ExpandFrom(s, cp, 5, 7, key, 7) == 0.0
  {
    RadixTable();
    ExpandStepAt(s, cp, 5, 7, key, 7, key + 0x1000_0000);
    ExpandBelow(s, cp, 4, 0, key + 0x1000_0000);
    assert ExpandFrom(s, cp, 5, 7, key, 8) == 0.0;
  }
  lemma Parts5Of7From6(s: seq<real>, cp: seq<real>, key: nat)
    requires |s| == 16 && |cp| == 16
    ensures ExpandFrom(s, cp, 5, 7, key, 6) == 0.0
  {
    RadixTable();
    ExpandStepAt(s, cp, 5, 7, key, 6, key + 0x100_0000);
    ExpandBelow(s, cp, 4, 1, key + 0x100_0000);
    Parts5Of7From7(s, cp, key);
  }
  lemma Parts5Of7From5(s: seq<real>, cp: seq<real>, key: nat)
    requires |s| == 16 && |cp| == 16
    ensures ExpandFrom(s, cp, 5, 7, key, 5) == 0.0
  {
    RadixTable();
    ExpandStepAt(s, cp, 5, 7, key, 5, key + 0x10_0000);
    ExpandBelow(s, cp, 4, 2, key + 0x10_0000);
    Parts5Of7From6(s, cp, key);
  }
  lemma Parts5Of7From4(s: seq<real>, cp: seq<real>, key: nat)
    requires |s| == 16 && |cp| == 16
    ensures ExpandFrom(s, cp, 5, 7, key, 4) == 0.0
  {
    RadixTable();
    ExpandStepAt(s, cp, 5, 7, key, 4, key + 0x1_0000);
    ExpandBelow(s, cp, 4, 3, key + 0x1_0000);
    Parts5Of7From5(s, cp, key);
  }
  lemma Parts5Of7From3(s: seq<real>, cp: seq<real>, key: nat)
    requires |s| == 16 && |cp| == 16
    ensures ExpandFrom(s, cp, 5, 7, key, 3) == 1.0 * Leaf(s, cp, key + 0x1040)
  {
    RadixTable();
    ExpandStepAt(s, cp, 5, 7, key, 3, key + 0x1000);
    Parts4Of4(s, cp, key + 0x1000);
    Parts5Of7From4(s, cp, key);
  }
  lemma Parts5Of7From2(s: seq<real>, cp: seq<real>, key: nat)
    requires |s| == 16 && |cp| == 16
    ensures ExpandFrom(s, cp, 5, 7, key, 2) == 4.0 * Leaf(s, cp, key + 0x230) + 1.0 * Leaf(s, cp, key + 0x1040)
  {
    RadixTable();
    ExpandStepAt(s, cp, 5, 7, key, 2, key + 0x100);
    Parts4Of5(s, cp, key + 0x100);
    Parts5Of7From3(s, cp, key);
  }
  lemma Parts5Of7From1(s: seq<real>, cp: seq<real>, key: nat)
    requires |s| == 16 && |cp| == 16
    ensures ExpandFrom(s, cp, 5, 7, key, 1) == 10.0 * Leaf(s, cp, key + 0x230) + 5.0 * Leaf(s, cp, key + 0x1040)
  {
    RadixTable();
    ExpandStepAt(s, cp, 5, 7, key, 1, key + 0x10);
    Parts4Of6(s, cp, key + 0x10);
    Parts5Of7From2(s, cp, key);
  }
  lemma Parts5Of7(s: seq<real>, cp: seq<real>, key: nat)
    requires |s| == 16 && |cp| == 16
    ensures Expand(s, cp, 5, 7, key) == 10.0 * Leaf(s, cp, key + 0x230) + 5.0 * Leaf(s, cp, key + 0x1040)
  {
    Parts5Of7From1(s, cp, key);
  }
  lemma Parts6Of7From7(s: seq<real>, cp: seq<real>, key: nat)
    requires |s| == 16 && |cp| == 16
    ensures ExpandFrom(s, cp, 6, 7, key, 7) == 0.0
  {
    RadixTable();
    ExpandStepAt(s, cp, 6, 7, key, 7, key + 0x1000_0000);
    ExpandBelow(s, cp, 5, 0, key + 0x1000_0000);
    assert ExpandFrom(s, cp, 6, 7, key, 8) == 0.0;
  }
  lemma Parts6Of7From6(s: seq<real>, cp: seq<real>, key: nat)
    requires |s| == 16 && |cp| == 16
    ensures ExpandFrom(s, cp, 6, 7, key, 6) == 0.0
  {
    RadixTable();
    ExpandStepAt(s, cp, 6, 7, key, 6, key + 0x100_0000);
    ExpandBelow(s, cp, 5, 1, key + 0x100_0000);
    Parts6Of7From7(s, cp, key);
  }
  lemma Parts6Of7From5(s: seq<real>, cp: seq<real>, key: nat)
    requires |s| == 16 && |cp| == 16
    ensures ExpandFrom(s, cp, 6, 7, key, 5) == 0.0
  {
    RadixTable();
    ExpandStepAt(s, cp, 6, 7, key, 5, key + 0x10_0000);
    ExpandBelow(s, cp, 5, 2, key + 0x10_0000);
    Parts6Of7From6(s, cp, key);
  }
  lemma Parts6Of7From4(s: seq<real>, cp: seq<real>, key: nat)
    requires |s| == 16 && |cp| == 16
    ensures ExpandFrom(s, cp, 6, 7, key, 4) == 0.0
  {
    RadixTable();
    ExpandStepAt(s, cp, 6, 7, key, 4, key + 0x1_0000);
    ExpandBelow(s, cp, 5, 3, key + 0x1_0000);
    Parts6Of7From5(s, cp, key);
  }
  lemma Parts6Of7From3(s: seq<real>, cp: seq<real>, key: nat)
    requires |s| == 16 && |cp| == 16
    ensures ExpandFrom(s, cp, 6, 7, key, 3) == 0.0
  {
    RadixTable();
    ExpandStepAt(s, cp, 6, 7, key, 3, key + 0x1000);
    ExpandBelow(s, cp, 5, 4, key + 0x1000);
    Parts6Of7From4(s, cp, key);
  }
  lemma Parts6Of7From2(s: seq<real>, cp: seq<real>, key: nat)
    requires |s| == 16 && |cp| == 16
    ensures ExpandFrom(s, cp, 6, 7, key, 2) == 1.0 * Leaf(s, cp, key + 0x150)
  {
    RadixTable();
    ExpandStepAt(s, cp, 6, 7, key, 2, key + 0x100);
    Parts5Of5(s, cp, key + 0x100);
    Parts6Of7From3(s, cp, key);
  }
  lemma Parts6Of7From1(s: seq<real>, cp: seq<real>, key: nat)
    requires |s| == 16 && |cp| == 16
    ensures ExpandFrom(s, cp, 6, 7, key, 1) == 6.0 * Leaf(s, cp, key + 0x150)
  {
    RadixTable();
    ExpandStepAt(s, cp, 6, 7, key, 1, key + 0x10);
    Parts5Of6(s, cp, key + 0x10);
    Parts6Of7From2(s, cp, key);
  }
  lemma Parts6Of7(s: seq<real>, cp: seq<real>, key: nat)
    requires |s| == 16 && |cp| == 16
    ensures Expand(s, cp, 6, 7, key) == 6.0 * Leaf(s, cp, key + 0x150)
  {
    Parts6Of7From1(s, cp, key);
  }
  lemma Parts7Of7From7(s: seq<real>, cp: seq<real>, key: nat)
    requires |s| == 16 && |cp| == 16
    ensures ExpandFrom(s, cp, 7, 7, key, 7) == 0.0
  {
    RadixTable();
    ExpandStepAt(s, cp, 7, 7, key, 7, key + 0x1000_0000);
    ExpandBelow(s, cp, 6, 0, key + 0x1000_0000);
    assert ExpandFrom(s, cp, 7, 7, key, 8) == 0.0;
  }
  lemma Parts7Of7From6(s: seq<real>, cp: seq<real>, key: nat)
    requires |s| == 16 && |cp| == 16
    ensures ExpandFrom(s, cp, 7, 7, key, 6) == 0.0
  {
    RadixTable();
    ExpandStepAt(s, cp, 7, 7, key, 6, key + 0x100_0000);
    ExpandBelow(s, cp, 6, 1, key + 0x100_0000);
    Parts7Of7From7(s, cp, key);
  }
  lemma Parts7Of7From5(s: seq<real>, cp: seq<real>, key: nat)
    requires |s| == 16 && |cp| == 16
    ensures ExpandFrom(s, cp, 7, 7, key, 5) == 0.0
  {
    RadixTable();
    ExpandStepAt(s, cp, 7, 7, key, 5, key + 0x10_0000);
    ExpandBelow(s, cp, 6, 2, key + 0x10_0000);
    Parts7Of7From6(s, cp, key);
  }
  lemma Parts7Of7From4(s: seq<real>, cp: seq<real>, key: nat)
    requires |s| == 16 && |cp| == 16
    ensures ExpandFrom(s, cp, 7, 7, key, 4) == 0.0
  {
    RadixTable();
    ExpandStepAt(s, cp, 7, 7, key, 4, key + 0x1_0000);
    ExpandBelow(s, cp, 6, 3, key + 0x1_0000);
    Parts7Of7From5(s, cp, key);
  }
  lemma Parts7Of7From3(s: seq<real>, cp: seq<real>, key: nat)
    requires |s| == 16 && |cp| == 16
    ensures ExpandFrom(s, cp, 7, 7, key, 3) == 0.0
  {
    RadixTable();
    ExpandStepAt(s, cp, 7, 7, key, 3, key + 0x1000);
    ExpandBelow(s, cp, 6, 4, key + 0x1000);
    Parts7Of7From4(s, cp, key);
  }
  lemma Parts7Of7From2(s: seq<real>, cp: seq<real>, key: nat)
    requires |s| == 16 && |cp| == 16
    ensures ExpandFrom(s, cp, 7, 7, key, 2) == 0.0
  {
    RadixTable();
    ExpandStepAt(s, cp, 7, 7, key, 2, key + 0x100);
    ExpandBelow(s, cp, 6, 5, key + 0x100);
    Parts7Of7From3(s, cp, key);
  }
  lemma Parts7Of7From1(s: seq<real>, cp: seq<real>, key: nat)
    requires |s| == 16 && |cp| == 16
    ensures ExpandFrom(s, cp, 7, 7, key, 1) == 1.0 * Leaf(s, cp, key + 0x70)
  {
    RadixTable();
    ExpandStepAt(s, cp, 7, 7, key, 1, key + 0x10);
    Parts6Of6(s, cp, key + 0x10);
    Parts7Of7From2(s, cp, key);
  }
  lemma Parts7Of7(s: seq<real>, cp: seq<real>, key: nat)
    requires |s| == 16 && |cp| == 16
    ensures Expand(s, cp, 7, 7, key) == 1.0 * Leaf(s, cp, key + 0x70)
  {
    Parts7Of7From1(s, cp, key);
  }
  lemma Parts1Of8From8(s: seq<real>, cp: seq<real>, key: nat)
    requires |s| == 16 && |cp| == 16
    ensures ExpandFrom(s, cp, 1, 8, key, 8) == 1.0 * Leaf(s, cp, key + 0x1_0000_0000)
  {
    RadixTable();
    ExpandStepAt(s, cp, 1, 8, key, 8, key + 0x1_0000_0000);
    assert Expand(s, cp, 0, 0, key + 0x1_0000_0000) == Leaf(s, cp, key + 0x1_0000_0000);
    assert ExpandFrom(s, cp, 1, 8, key, 9) == 0.0;
  }
  lemma Parts1Of8From7(s: seq<real>, cp: seq<real>, key: nat)
    requires |s| == 16 && |cp| == 16
    ensures ExpandFrom(s, cp, 1, 8, key, 7) == 1.0 * Leaf(s, cp, key + 0x1_0000_0000)
  {
    RadixTable();
    ExpandStepAt(s, cp, 1, 8, key, 7, key + 0x1000_0000);
    assert Expand(s, cp, 0, 1, key + 0x1000_0000) == 0.0;
    Parts1Of8From8(s, cp, key);
  }
  lemma Parts1Of8From6(s: seq<real>, cp: seq<real>, key: nat)
    requires |s| == 16 && |cp| == 16
    ensures ExpandFrom(s, cp, 1, 8, key, 6) == 1.0 * Leaf(s, cp, key + 0x1_0000_0000)
  {
    RadixTable();
    ExpandStepAt(s, cp, 1, 8, key, 6, key + 0x100_0000);
    assert Expand(s, cp, 0, 2, key + 0x100_0000) == 0.0;
    Parts1Of8From7(s, cp, key);
  }
  lemma Parts1Of8From5(s: seq<real>, cp: seq<real>, key: nat)
    requires |s| == 16 && |cp| == 16
    ensures ExpandFrom(s, cp, 1, 8, key, 5) == 1.0 * Leaf(s, cp, key + 0x1_0000_0000)
  {
    RadixTable();
    ExpandStepAt(s, cp, 1, 8, key, 5, key + 0x10_0000);
    assert Expand(s, cp, 0, 3, key + 0x10_0000) == 0.0;
    Parts1Of8From6(s, cp, key);
  }
  lemma Parts1Of8From4(s: seq<real>, cp: seq<real>, key: nat)
    requires |s| == 16 && |cp| == 16
    ensures ExpandFrom(s, cp, 1, 8, key, 4) == 1.0 * Leaf(s, cp, key + 0x1_0000_0000)
  {
    RadixTable();
    ExpandStepAt(s, cp, 1, 8, key, 4, key + 0x1_0000);
    assert Expand(s, cp, 0, 4, key + 0x1_0000) == 0.0;
    Parts1Of8From5(s, cp, key);
  }
  lemma Parts1Of8From3(s: seq<real>, cp: seq<real>, key: nat)
    requires |s| == 16 && |cp| == 16
    ensures ExpandFrom(s, cp, 1, 8, key, 3) == 1.0 * Leaf(s, cp, key + 0x1_0000_0000)
  {
    RadixTable();
    ExpandStepAt(s, cp, 1, 8, key, 3, key + 0x1000);
    assert Expand(s, cp, 0, 5, key + 0x1000) == 0.0;
    Parts1Of8From4(s, cp, key);
  }
  lemma Parts1Of8From2(s: seq<real>, cp: seq<real>, key: nat)
    requires |s| == 16 && |cp| == 16
    ensures ExpandFrom(s, cp, 1, 8, key, 2) == 1.0 * Leaf(s, cp, key + 0x1_0000_0000)
  {
    RadixTable();
    ExpandStepAt(s, cp, 1, 8, key, 2, key + 0x100);
    assert Expand(s, cp, 0, 6, key + 0x100) == 0.0;
    Parts1Of8From3(s, cp, key);
  }
  lemma Parts1Of8From1(s: seq<real>, cp: seq<real>, key: nat)
    requires |s| == 16 && |cp| == 16
    ensures ExpandFrom(s, cp, 1, 8, key, 1) == 1.0 * Leaf(s, cp, key + 0x1_0000_0000)
  {
    RadixTable();
    ExpandStepAt(s, cp, 1, 8, key, 1, key + 0x10);
    assert Expand(s, cp, 0, 7, key + 0x10) == 0.0;
    Parts1Of8From2(s, cp, key);
  }
  lemma Parts1Of8(s: seq<real>, cp: seq<real>, key: nat)
    requires |s| == 16 && |cp| == 16
    ensures Expand(s, cp, 1, 8, key) == 1.0 * Leaf(s, cp, key + 0x1_0000_0000)
  {
    Parts1Of8From1(s, cp, key);
  }
  lemma Parts2Of8From8(s: seq<real>, cp: seq<real>, key: nat)
    requires |s| == 16 && |cp| == 16
    ensures ExpandFrom(s, cp, 2, 8, key, 8) == 0.0
  {
    RadixTable();
    ExpandStepAt(s, cp, 2, 8, key, 8, key + 0x1_0000_0000);
    ExpandBelow(s, cp, 1, 0, key + 0x1_0000_0000);
    assert ExpandFrom(s, cp, 2, 8, key, 9) == 0.0;
  }
  lemma Parts2Of8From7(s: seq<real>, cp: seq<real>, key: nat)
    requires |s| == 16 && |cp| == 16
    ensures ExpandFrom(s, cp, 2, 8, key, 7) == 1.0 * Leaf(s, cp, key + 0x1000_0010)
  {
    RadixTable();
    ExpandStepAt(s, cp, 2, 8, key, 7, key + 0x1000_0000);
    Parts1Of1(s, cp, key + 0x1000_0000);
    Parts2Of8From8(s, cp, key);
  }
  lemma Parts2Of8From6(s: seq<real>, cp: seq<real>, key: nat)
    requires |s| == 16 && |cp| == 16
    ensures ExpandFrom(s, cp, 2, 8, key, 6) == 1.0 * Leaf(s, cp, key + 0x100_0100) + 1.0 * Leaf(s, cp, key + 0x1000_0010)
  {
    RadixTable();
    ExpandStepAt(s, cp, 2, 8, key, 6, key + 0x100_0000);
    Parts1Of2(s, cp, key + 0x100_0000);
    Parts2Of8From7(s, cp, key);
  }
  lemma Parts2Of8From5(s: seq<real>, cp: seq<real>, key: nat)
    requires |s| == 16 && |cp| == 16
    ensures ExpandFrom(s, cp, 2, 8, key, 5) == 1.0 * Leaf(s, cp, key + 0x10_1000) + 1.0 * Leaf(s, cp, key + 0x100_0100) + 1.0 * Leaf(s, cp, key + 0x1000_0010)
  {
    RadixTable();
    ExpandStepAt(s, cp, 2, 8, key, 5, key + 0x10_0000);
    Parts1Of3(s, cp, key + 0x10_0000);
    Parts2Of8From6(s, cp, key);
  }
  lemma Parts2Of8From4(s: seq<real>, cp: seq<real>, key: nat)
    requires |s| == 16 && |cp| == 16
    ensures ExpandFrom(s, cp, 2, 8, key, 4) == 1.0 * Leaf(s, cp, key + 0x2_0000) + 1.0 * Leaf(s, cp, key + 0x10_1000) + 1.0 * Leaf(s, cp, key + 0x100_0100) + 1.0 * Leaf(s, cp, key + 0x1000_0010)
  {
    RadixTable();
    ExpandStepAt(s, cp, 2, 8, key, 4, key + 0x1_0000);
    Parts1Of4(s, cp, key + 0x1_0000);
    Parts2Of8From5(s, cp, key);
  }
  lemma Parts2Of8From3(s: seq<real>, cp: seq<real>, key: nat)
    requires |s| == 16 && |cp| == 16
    ensures ExpandFrom(s, cp, 2, 8, key, 3) == 1.0 * Leaf(s, cp, key + 0x2_0000) + 2.0 * Leaf(s, cp, key + 0x10_1000) + 1.0 * Leaf(s, cp, key + 0x100_0100) + 1.0 * Leaf(s, cp, key + 0x1000_0010)
  {
    RadixTable();
    ExpandStepAt(s, cp, 2, 8, key, 3, key + 0x1000);
    Parts1Of5(s, cp, key + 0x1000);
    Parts2Of8From4(s, cp, key);
  }
  lemma Parts2Of8From2(s: seq<real>, cp: seq<real>, key: nat)
    requires |s| == 16 && |cp| == 16
    ensures ExpandFrom(s, cp, 2, 8, key, 2) == 1.0 * Leaf(s, cp, key + 0x2_0000) + 2.0 * Leaf(s, cp, key + 0x10_1000) + 2.0 * Leaf(s, cp, key + 0x100_0100) + 1.0 * Leaf(s, cp, key + 0x1000_0010)
  {
    RadixTable();
    ExpandStepAt(s, cp, 2, 8, key, 2, key + 0x100);
    Parts1Of6(s, cp, key + 0x100);
    Parts2Of8From3(s, cp, key);
  }
  lemma Parts2Of8From1(s: seq<real>, cp: seq<real>, key: nat)
    requires |s| == 16 && |cp| == 16
    ensures ExpandFrom(s, cp, 2, 8, key, 1) == 1.0 * Leaf(s, cp, key + 0x2_0000) + 2.0 * Leaf(s, cp, key + 0x10_1000) + 2.0 * Leaf(s, cp, key + 0x100_0100) + 2.0 * Leaf(s, cp, key + 0x1000_0010)
  {
    RadixTable();
    ExpandStepAt(s, cp, 2, 8, key, 1, key + 0x10);
    Parts1Of7(s, cp, key + 0x10);
    Parts2Of8From2(s, cp, key);
  }
  lemma Parts2Of8(s: seq<real>, cp: seq<real>, key: nat)
    requires |s| == 16 && |cp| == 16
    ensures Expand(s, cp, 2, 8, key) == 1.0 * Leaf(s, cp, key + 0x2_0000) + 2.0 * Leaf(s, cp, key + 0x10_1000) + 2.0 * Leaf(s, cp, key + 0x100_0100) + 2.0 * Leaf(s, cp, key + 0x1000_0010)
  {
    Parts2Of8From1(s, cp, key);
  }
  lemma Parts3Of8From8(s: seq<real>, cp: seq<real>, key: nat)
    requires |s| == 16 && |cp| == 16
    ensures ExpandFrom(s, cp, 3, 8, key, 8) == 0.0
  {
    RadixTable();
    ExpandStepAt(s, cp, 3, 8, key, 8, key + 0x1_0000_0000);
    ExpandBelow(s, cp, 2, 0, key + 0x1_0000_0000);
    assert ExpandFrom(s, cp, 3, 8, key, 9) == 0.0;
  }
  lemma Parts3Of8From7(s: seq<real>, cp: seq<real>, key: nat)
    requires |s| == 16 && |cp| == 16
    ensures ExpandFrom(s, cp, 3, 8, key, 7) == 0.0
  {
    RadixTable();
    ExpandStepAt(s, cp, 3, 8, key, 7, key + 0x1000_0000);
    ExpandBelow(s, cp, 2, 1, key + 0x1000_0000);
    Parts3Of8From8(s, cp, key);
  }
  lemma Parts3Of8From6(s: seq<real>, cp: seq<real>, key: nat)
    requires |s| == 16 && |cp| == 16
    ensures ExpandFrom(s, cp, 3, 8, key, 6) == 1.0 * Leaf(s, cp, key + 0x100_0020)
  {
    RadixTable();
    ExpandStepAt(s, cp, 3, 8, key, 6, key + 0x100_0000);
    Parts2Of2(s, cp, key + 0x100_0000);
    Parts3Of8From7(s, cp, key);
  }
  lemma Parts3Of8From5(s: seq<real>, cp: seq<real>, key: nat)
    requires |s| == 16 && |cp| == 16
    ensures ExpandFrom(s, cp, 3, 8, key, 5) == 2.0 * Leaf(s, cp, key + 0x10_0110) + 1.0 * Leaf(s, cp, key + 0x100_0020)
  {
    RadixTable();
    ExpandStepAt(s, cp, 3, 8, key, 5, key + 0x10_0000);
    Parts2Of3(s, cp, key + 0x10_0000);
    Parts3Of8From6(s, cp, key);
  }
  lemma Parts3Of8From4(s: seq<real>, cp: seq<real>, key: nat)
    requires |s| == 16 && |cp| == 16
    ensures ExpandFrom(s, cp, 3, 8, key, 4) == 1.0 * Leaf(s, cp, key + 0x1_0200) + 2.0 * Leaf(s, cp, key + 0x1_1010) + 2.0 * Leaf(s, cp, key + 0x10_0110) + 1.0 * Leaf(s, cp, key + 0x100_0020)
  {
    RadixTable();
    ExpandStepAt(s, cp, 3, 8, key, 4, key + 0x1_0000);
    Parts2Of4(s, cp, key + 0x1_0000);
    Parts3Of8From5(s, cp, key);
  }
  lemma Parts3Of8From3(s: seq<real>, cp: seq<real>, key: nat)
    requires |s| == 16 && |cp| == 16
    ensures ExpandFrom(s, cp, 3, 8, key, 3) == 2.0 * Leaf(s, cp, key + 0x2100) + 1.0 * Leaf(s, cp, key + 0x1_0200) + 4.0 * Leaf(s, cp, key + 0x1_1010) + 2.0 * Leaf(s, cp, key + 0x10_0110) + 1.0 * Leaf(s, cp, key + 0x100_0020)
  {
    RadixTable();
    ExpandStepAt(s, cp, 3, 8, key, 3, key + 0x1000);
    Parts2Of5(s, cp, key + 0x1000);
    Parts3Of8From4(s, cp, key);
  }
  lemma Parts3Of8From2(s: seq<real>, cp: seq<real>, key: nat)
    requires |s| == 16 && |cp| == 16
    ensures ExpandFrom(s, cp, 3, 8, key, 2) == 3.0 * Leaf(s, cp, key + 0x2100) + 3.0 * Leaf(s, cp, key + 0x1_0200) + 4.0 * Leaf(s, cp, key + 0x1_1010) + 4.0 * Leaf(s, cp, key + 0x10_0110) + 1.0 * Leaf(s, cp, key + 0x100_0020)
  {
    RadixTable();
    ExpandStepAt(s, cp, 3, 8, key, 2, key + 0x100);
    Parts2Of6(s, cp, key + 0x100);
    Parts3Of8From3(s, cp, key);
  }
  lemma Parts3Of8From1(s: seq<real>, cp: seq<real>, key: nat)
    requires |s| == 16 && |cp| == 16
    ensures ExpandFrom(s, cp, 3, 8, key, 1) == 3.0 * Leaf(s, cp, key + 0x2100) + 3.0 * Leaf(s, cp, key + 0x1_0200) + 6.0 * Leaf(s, cp, key + 0x1_1010) + 6.0 * Leaf(s, cp, key + 0x10_0110) + 3.0 * Leaf(s, cp, key + 0x100_0020)
  {
    RadixTable();
    ExpandStepAt(s, cp, 3, 8, key, 1, key + 0x10);
    Parts2Of7(s, cp, key + 0x10);
    Parts3Of8From2(s, cp, key);
  }
  lemma Parts3Of8(s: seq<real>, cp: seq<real>, key: nat)
    requires |s| == 16 && |cp| == 16
    ensures Expand(s, cp, 3, 8, key) == 3.0 * Leaf(s, cp, key + 0x2100) + 3.0 * Leaf(s, cp, key + 0x1_0200) + 6.0 * Leaf(s, cp, key + 0x1_1010) + 6.0 * Leaf(s, cp, key + 0x10_0110) + 3.0 * Leaf(s, cp, key + 0x100_0020)
  {
    Parts3Of8From1(s, cp, key);
  }
  lemma Parts4Of8From8(s: seq<real>, cp: seq<real>, key: nat)
    requires |s| == 16 && |cp| == 16
    ensures ExpandFrom(s, cp, 4, 8, key, 8) == 0.0
  {
    RadixTable();
    ExpandStepAt(s, cp, 4, 8, key, 8, key + 0x1_0000_0000);
    ExpandBelow(s, cp, 3, 0, key + 0x1_0000_0000);
    assert ExpandFrom(s, cp, 4, 8, key, 9) == 0.0;
  }
  lemma Parts4Of8From7(s: seq<real>, cp: seq<real>, key: nat)
    requires |s| == 16 && |cp| == 16
    ensures ExpandFrom(s, cp, 4, 8, key, 7) == 0.0
  {
    RadixTable();
    ExpandStepAt(s, cp, 4, 8, key, 7, key + 0x1000_0000);
    ExpandBelow(s, cp, 3, 1, key + 0x1000_0000);
    Parts4Of8From8(s, cp, key);
  }
  lemma Parts4Of8From6(s: seq<real>, cp: seq<real>, key: nat)
    requires |s| == 16 && |cp| == 16
    ensures ExpandFrom(s, cp, 4, 8, key, 6) == 0.0
  {
    RadixTable();
    ExpandStepAt(s, cp, 4, 8, key, 6, key + 0x100_0000);
    ExpandBelow(s, cp, 3, 2, key + 0x100_0000);
    Parts4Of8From7(s, cp, key);
  }
  lemma Parts4Of8From5(s: seq<real>, cp: seq<real>, key: nat)
    requires |s| == 16 && |cp| == 16
    ensures ExpandFrom(s, cp, 4, 8, key, 5) == 1.0 * Leaf(s, cp, key + 0x10_0030)
  {
    RadixTable();
    ExpandStepAt(s, cp, 4, 8, key, 5, key + 0x10_0000);
    Parts3Of3(s, cp, key + 0x10_0000);
    Parts4Of8From6(s, cp, key);
  }
  lemma Parts4Of8From4(s: seq<real>, cp: seq<real>, key: nat)
    requires |s| == 16 && |cp| == 16
    ensures ExpandFrom(s, cp, 4, 8, key, 4) == 3.0 * Leaf(s, cp, key + 0x1_0120) + 1.0 * Leaf(s, cp, key + 0x10_0030)
  {
    RadixTable();
    ExpandStepAt(s, cp, 4, 8, key, 4, key + 0x1_0000);
    Parts3Of4(s, cp, key + 0x1_0000);
    Parts4Of8From5(s, cp, key);
  }
  lemma Parts4Of8From3(s: seq<real>, cp: seq<real>, key: nat)
    requires |s| == 16 && |cp| == 16
    ensures ExpandFrom(s, cp, 4, 8, key, 3) == 3.0 * Leaf(s, cp, key + 0x1210) + 3.0 * Leaf(s, cp, key + 0x2020) + 3.0 * Leaf(s, cp, key + 0x1_0120) + 1.0 * Leaf(s, cp, key + 0x10_0030)
  {
    RadixTable();
    ExpandStepAt(s, cp, 4, 8, key, 3, key + 0x1000);
    Parts3Of5(s, cp, key + 0x1000);
    Parts4Of8From4(s, cp, key);
  }
  lemma Parts4Of8From2(s: seq<real>, cp: seq<real>, key: nat)
    requires |s| == 16 && |cp| == 16
    ensures ExpandFrom(s, cp, 4, 8, key, 2) == 1.0 * Leaf(s, cp, key + 0x400) + 9.0 * Leaf(s, cp, key + 0x1210) + 3.0 * Leaf(s, cp, key + 0x2020) + 6.0 * Leaf(s, cp, key + 0x1_0120) + 1.0 * Leaf(s, cp, key + 0x10_0030)
  {
    RadixTable();
    ExpandStepAt(s, cp, 4, 8, key, 2, key + 0x100);
    Parts3Of6(s, cp, key + 0x100);
    Parts4Of8From3(s, cp, key);
  }
  lemma Parts4Of8From1(s: seq<real>, cp: seq<real>, key: nat)
    requires |s| == 16 && |cp| == 16
    ensures ExpandFrom(s, cp, 4, 8, key, 1) == 1.0 * Leaf(s, cp, key + 0x400) + 12.0 * Leaf(s, cp, key + 0x1210) + 6.0 * Leaf(s, cp, key + 0x2020) + 12.0 * Leaf(s, cp, key + 0x1_0120) + 4.0 * Leaf(s, cp, key + 0x10_0030)
  {
    RadixTable();
    ExpandStepAt(s, cp, 4, 8, key, 1, key + 0x10);
    Parts3Of7(s, cp, key + 0x10);
    Parts4Of8From2(s, cp, key);
  }
  lemma Parts4Of8(s: seq<real>, cp: seq<real>, key: nat)
    requires |s| == 16 && |cp| == 16
    ensures Expand(s, cp, 4, 8, key) == 1.0 * Leaf(s, cp, key + 0x400) + 12.0 * Leaf(s, cp, key + 0x1210) + 6.0 * Leaf(s, cp, key + 0x2020) + 12.0 * Leaf(s, cp, key + 0x1_0120) + 4.0 * Leaf(s, cp, key + 0x10_0030)
  {
    Parts4Of8From1(s, cp, key);
  }
  lemma Parts5Of8From8(s: seq<real>, cp: seq<real>, key: nat)
    requires |s| == 16 && |cp| == 16
    ensures ExpandFrom(s, cp, 5, 8, key, 8) == 0.0
  {
    RadixTable();
    ExpandStepAt(s, cp, 5, 8, key, 8, key + 0x1_0000_0000);
    ExpandBelow(s, cp, 4, 0, key + 0x1_0000_0000);
    assert ExpandFrom(s, cp, 5, 8, key, 9) == 0.0;
  }
  lemma Parts5Of8From7(s: seq<real>, cp: seq<real>, key: nat)
    requires |s| == 16 && |cp| == 16
    ensures ExpandFrom(s, cp, 5, 8, key, 7) == 0.0
  {
    RadixTable();
    ExpandStepAt(s, cp, 5, 8, key, 7, key + 0x1000_0000);
    ExpandBelow(s, cp, 4, 1, key + 0x1000_0000);
    Parts5Of8From8(s, cp, key);
  }
  lemma Parts5Of8From6(s: seq<real>, cp: seq<real>, key: nat)
    requires |s| == 16 && |cp| == 16
    ensures ExpandFrom(s, cp, 5, 8, key, 6) == 0.0
  {
    RadixTable();
    ExpandStepAt(s, cp, 5, 8, key, 6, key + 0x100_0000);
    ExpandBelow(s, cp, 4, 2, key + 0x100_0000);
    Parts5Of8From7(s, cp, key);
  }
  lemma Parts5Of8From5(s: seq<real>, cp: seq<real>, key: nat)
    requires |s| == 16 && |cp| == 16
    ensures ExpandFrom(s, cp, 5, 8, key, 5) == 0.0
  {
    RadixTable();
    ExpandStepAt(s, cp, 5, 8, key, 5, key + 0x10_0000);
    ExpandBelow(s, cp, 4, 3, key + 0x10_0000);
    Parts5Of8From6(s, cp, key);
  }
  lemma Parts5Of8From4(s: seq<real>, cp: seq<real>, key: nat)
    requires |s| == 16 && |cp| == 16
    ensures ExpandFrom(s, cp, 5, 8, key, 4) == 1.0 * Leaf(s, cp, key + 0x1_0040)
  {
    RadixTable();
    ExpandStepAt(s, cp, 5, 8, key, 4, key + 0x1_0000);
    Parts4Of4(s, cp, key + 0x1_0000);
    Parts5Of8From5(s, cp, key);
  }
  lemma Parts5Of8From3(s: seq<real>, cp: seq<real>, key: nat)
    requires |s| == 16 && |cp| == 16
    ensures ExpandFrom(s, cp, 5, 8, key, 3) == 4.0 * Leaf(s, cp, key + 0x1130) + 1.0 * Leaf(s, cp, key + 0x1_0040)
  {
    RadixTable();
    ExpandStepAt(s, cp, 5, 8, key, 3, key + 0x1000);
    Parts4Of5(s, cp, key + 0x1000);
    Parts5Of8From4(s, cp, key);
  }
  lemma Parts5Of8From2(s: seq<real>, cp: seq<real>, key: nat)
    requires |s| == 16 && |cp| == 16
    ensures ExpandFrom(s, cp, 5, 8, key, 2) == 6.0 * Leaf(s, cp, key + 0x320) + 8.0 * Leaf(s, cp, key + 0x1130) + 1.0 * Leaf(s, cp, key + 0x1_0040)
  {
    RadixTable();
    ExpandStepAt(s, cp, 5, 8, key, 2, key + 0x100);
    Parts4Of6(s, cp, key + 0x100);
    Parts5Of8From3(s, cp, key);
  }
  lemma Parts5Of8From1(s: seq<real>, cp: seq<real>, key: nat)
    requires |s| == 16 && |cp| == 16
    ensures ExpandFrom(s, cp, 5, 8, key, 1) == 10.0 * Leaf(s, cp, key + 0x320) + 20.0 * Leaf(s, cp, key + 0x1130) + 5.0 * Leaf(s, cp, key + 0x1_0040)
  {
    RadixTable();
    ExpandStepAt(s, cp, 5, 8, key, 1, key + 0x10);
    Parts4Of7(s, cp, key + 0x10);
    Parts5Of8From2(s, cp, key);
  }
  lemma Parts5Of8(s: seq<real>, cp: seq<real>, key: nat)
    requires |s| == 16 && |cp| == 16
    ensures Expand(s, cp, 5, 8, key) == 10.0 * Leaf(s, cp, key + 0x320) + 20.0 * Leaf(s, cp, key + 0x1130) + 5.0 * Leaf(s, cp, key + 0x1_0040)
  {
    Parts5Of8From1(s, cp, key);
  }
  lemma Parts6Of8From8(s: seq<real>, cp: seq<real>, key: nat)
    requires |s| == 16 && |cp| == 16
    ensures ExpandFrom(s, cp, 6, 8, key, 8) == 0.0
  {
    RadixTable();
    ExpandStepAt(s, cp, 6, 8, key, 8, key + 0x1_0000_0000);
    ExpandBelow(s, cp, 5, 0, key + 0x1_0000_0000);
    assert ExpandFrom(s, cp, 6, 8, key, 9) == 0.0;
  }
  lemma Parts6Of8From7(s: seq<real>, cp: seq<real>, key: nat)
    requires |s| == 16 && |cp| == 16
    ensures ExpandFrom(s, cp, 6, 8, key, 7) == 0.0
  {
    RadixTable();
    ExpandStepAt(s, cp, 6, 8, key, 7, key + 0x1000_0000);
    ExpandBelow(s, cp, 5, 1, key + 0x1000_0000);
    Parts6Of8From8(s, cp, key);
  }
  lemma Parts6Of8From6(s: seq<real>, cp: seq<real>, key: nat)
    requires |s| == 16 && |cp| == 16
    ensures ExpandFrom(s, cp, 6, 8, key, 6) == 0.0
  {
    RadixTable();
    ExpandStepAt(s, cp, 6, 8, key, 6, key + 0x100_0000);
    ExpandBelow(s, cp, 5, 2, key + 0x100_0000);
    Parts6Of8From7(s, cp, key);
  }
  lemma Parts6Of8From5(s: seq<real>, cp: seq<real>, key: nat)
    requires |s| == 16 && |cp| == 16
    ensures ExpandFrom(s, cp, 6, 8, key, 5) == 0.0
  {
    RadixTable();
    ExpandStepAt(s, cp, 6, 8, key, 5, key + 0x10_0000);
    ExpandBelow(s, cp, 5, 3, key + 0x10_0000);
    Parts6Of8From6(s, cp, key);
  }
  lemma Parts6Of8From4(s: seq<real>, cp: seq<real>, key: nat)
    requires |s| == 16 && |cp| == 16
    ensures ExpandFrom(s, cp, 6, 8, key, 4) == 0.0
  {
    RadixTable();
    ExpandStepAt(s, cp, 6, 8, key, 4, key + 0x1_0000);
    ExpandBelow(s, cp, 5, 4, key + 0x1_0000);
    Parts6Of8From5(s, cp, key);
  }
  lemma Parts6Of8From3(s: seq<real>, cp: seq<real>, key: nat)
    requires |s| == 16 && |cp| == 16
    ensures ExpandFrom(s, cp, 6, 8, key, 3) == 1.0 * Leaf(s, cp, key + 0x1050)
  {
    RadixTable();
    ExpandStepAt(s, cp, 6, 8, key, 3, key + 0x1000);
    Parts5Of5(s, cp, key + 0x1000);
    Parts6Of8From4(s, cp, key);
  }
  lemma Parts6Of8From2(s: seq<real>, cp: seq<real>, key: nat)
    requires |s| == 16 && |cp| == 16
    ensures ExpandFrom(s, cp, 6, 8, key, 2) == 5.0 * Leaf(s, cp, key + 0x240) + 1.0 * Leaf(s, cp, key + 0x1050)
  {
    RadixTable();
    ExpandStepAt(s, cp, 6, 8, key, 2, key + 0x100);
    Parts5Of6(s, cp, key + 0x100);
    Parts6Of8From3(s, cp, key);
  }
  lemma Parts6Of8From1(s: seq<real>, cp: seq<real>, key: nat)
    requires |s| == 16 && |cp| == 16
    ensures ExpandFrom(s, cp, 6, 8, key, 1) == 15.0 * Leaf(s, cp, key + 0x240) + 6.0 * Leaf(s, cp, key + 0x1050)
  {
    RadixTable();
    ExpandStepAt(s, cp, 6, 8, key, 1, key + 0x10);
    Parts5Of7(s, cp, key + 0x10);
    Parts6Of8From2(s, cp, key);
  }
  lemma Parts6Of8(s: seq<real>, cp: seq<real>, key: nat)
    requires |s| == 16 && |cp| == 16
    ensures Expand(s, cp, 6, 8, key) == 15.0 * Leaf(s, cp, key + 0x240) + 6.0 * Leaf(s, cp, key + 0x1050)
  {
    Parts6Of8From1(s, cp, key);
  }
  lemma Parts7Of8From8(s: seq<real>, cp: seq<real>, key: nat)
    requires |s| == 16 && |cp| == 16
    ensures ExpandFrom(s, cp, 7, 8, key, 8) == 0.0
  {
    RadixTable();
    ExpandStepAt(s, cp, 7, 8, key, 8, key + 0x1_0000_0000);
    ExpandBelow(s, cp, 6, 0, key + 0x1_0000_0000);
    assert ExpandFrom(s, cp, 7, 8, key, 9) == 0.0;
  }
  lemma Parts7Of8From7(s: seq<real>, cp: seq<real>, key: nat)
    requires |s| == 16 && |cp| == 16
    ensures ExpandFrom(s, cp, 7, 8, key, 7) == 0.0
  {
    RadixTable();
    ExpandStepAt(s, cp, 7, 8, key, 7, key + 0x1000_0000);
    ExpandBelow(s, cp, 6, 1, key + 0x1000_0000);
    Parts7Of8From8(s, cp, key);
  }
  lemma Parts7Of8From6(s: seq<real>, cp: seq<real>, key: nat)
    requires |s| == 16 && |cp| == 16
    ensures ExpandFrom(s, cp, 7, 8, key, 6) == 0.0
  {
    RadixTable();
    ExpandStepAt(s, cp, 7, 8, key, 6, key + 0x100_0000);
    ExpandBelow(s, cp, 6, 2, key + 0x100_0000);
    Parts7Of8From7(s, cp, key);
  }
  lemma Parts7Of8From5(s: seq<real>, cp: seq<real>, key: nat)
    requires |s| == 16 && |cp| == 16
    ensures ExpandFrom(s, cp, 7, 8, key, 5) == 0.0
  {
    RadixTable();
    ExpandStepAt(s, cp, 7, 8, key, 5, key + 0x10_0000);
    ExpandBelow(s, cp, 6, 3, key + 0x10_0000);
    Parts7Of8From6(s, cp, key);
  }
  lemma Parts7Of8From4(s: seq<real>, cp: seq<real>, key: nat)
    requires |s| == 16 && |cp| == 16
    ensures ExpandFrom(s, cp, 7, 8, key, 4) == 0.0
  {
    RadixTable();
    ExpandStepAt(s, cp, 7, 8, key, 4, key + 0x1_0000);
    ExpandBelow(s, cp, 6, 4, key + 0x1_0000);
    Parts7Of8From5(s, cp, key);
  }
  lemma Parts7Of8From3(s: seq<real>, cp: seq<real>, key: nat)
    requires |s| == 16 && |cp| == 16
    ensures ExpandFrom(s, cp, 7, 8, key, 3) == 0.0
  {
    RadixTable();
    ExpandStepAt(s, cp, 7, 8, key, 3, key + 0x1000);
    ExpandBelow(s, cp, 6, 5, key + 0x1000);
    Parts7Of8From4(s, cp, key);
  }
  lemma Parts7Of8From2(s: seq<real>, cp: seq<real>, key: nat)
    requires |s| == 16 && |cp| == 16
    ensures ExpandFrom(s, cp, 7, 8, key, 2) == 1.0 * Leaf(s, cp, key + 0x160)
  {
    RadixTable();
    ExpandStepAt(s, cp, 7, 8, key, 2, key + 0x100);
    Parts6Of6(s, cp, key + 0x100);
    Parts7Of8From3(s, cp, key);
  }
  lemma Parts7Of8From1(s: seq<real>, cp: seq<real>, key: nat)
    requires |s| == 16 && |cp| == 16
    ensures ExpandFrom(s, cp, 7, 8, key, 1) == 7.0 * Leaf(s, cp, key + 0x160)
  {
    RadixTable();
    ExpandStepAt(s, cp, 7, 8, key, 1, key + 0x10);
    Parts6Of7(s, cp, key + 0x10);
    Parts7Of8From2(s, cp, key);
  }
  lemma Parts7Of8(s: seq<real>, cp: seq<real>, key: nat)
    requires |s| == 16 && |cp| == 16
    ensures Expand(s, cp, 7, 8, key) == 7.0 * Leaf(s, cp, key + 0x160)
  {
    Parts7Of8From1(s, cp, key);
  }
  lemma Parts8Of8From8(s: seq<real>, cp: seq<real>, key: nat)
    requires |s| == 16 && |cp| == 16
    ensures ExpandFrom(s, cp, 8, 8, key, 8) == 0.0
  {
    RadixTable();
    ExpandStepAt(s, cp, 8, 8, key, 8, key + 0x1_0000_0000);
    ExpandBelow(s, cp, 7, 0, key + 0x1_0000_0000);
    assert ExpandFrom(s, cp, 8, 8, key, 9) == 0.0;
  }
  lemma Parts8Of8From7(s: seq<real>, cp: seq<real>, key: nat)
    requires |s| == 16 && |cp| == 16
    ensures ExpandFrom(s, cp, 8, 8, key, 7) == 0.0
  {
    RadixTable();
    ExpandStepAt(s, cp, 8, 8, key, 7, key + 0x1000_0000);
    ExpandBelow(s, cp, 7, 1, key + 0x1000_0000);
    Parts8Of8From8(s, cp, key);
  }
  lemma Parts8Of8From6(s: seq<real>, cp: seq<real>, key: nat)
    requires |s| == 16 && |cp| == 16
    ensures ExpandFrom(s, cp, 8, 8, key, 6) == 0.0
  {
    RadixTable();
    ExpandStepAt(s, cp, 8, 8, key, 6, key + 0x100_0000);
    ExpandBelow(s, cp, 7, 2, key + 0x100_0000);
    Parts8Of8From7(s, cp, key);
  }
  lemma Parts8Of8From5(s: seq<real>, cp: seq<real>, key: nat)
    requires |s| == 16 && |cp| == 16
    ensures ExpandFrom(s, cp, 8, 8, key, 5) == 0.0
  {
    RadixTable();
    ExpandStepAt(s, cp, 8, 8, key, 5, key + 0x10_0000);
    ExpandBelow(s, cp, 7, 3, key + 0x10_0000);
    Parts8Of8From6(s, cp, key);
  }
  lemma Parts8Of8From4(s: seq<real>, cp: seq<real>, key: nat)
    requires |s| == 16 && |cp| == 16
    ensures ExpandFrom(s, cp, 8, 8, key, 4) == 0.0
  {
    RadixTable();
    ExpandStepAt(s, cp, 8, 8, key, 4, key + 0x1_0000);
    ExpandBelow(s, cp, 7, 4, key + 0x1_0000);
    Parts8Of8From5(s, cp, key);
  }
  lemma Parts8Of8From3(s: seq<real>, cp: seq<real>, key: nat)
    requires |s| == 16 && |cp| == 16
    ensures ExpandFrom(s, cp, 8, 8, key, 3) == 0.0
  {
    RadixTable();
    ExpandStepAt(s, cp, 8, 8, key, 3, key + 0x1000);
    ExpandBelow(s, cp, 7, 5, key + 0x1000);
    Parts8Of8From4(s, cp, key);
  }
  lemma Parts8Of8From2(s: seq<real>, cp: seq<real>, key: nat)
    requires |s| == 16 && |cp| == 16
    ensures ExpandFrom(s, cp, 8, 8, key, 2) == 0.0
  {
    RadixTable();
    ExpandStepAt(s, cp, 8, 8, key, 2, key + 0x100);
    ExpandBelow(s, cp, 7, 6, key + 0x100);
    Parts8Of8From3(s, cp, key);
  }
  lemma Parts8Of8From1(s: seq<real>, cp: seq<real>, key: nat)
    requires |s| == 16 && |cp| == 16
    ensures ExpandFrom(s, cp, 8, 8, key, 1) == 1.0 * Leaf(s, cp, key + 0x80)
  {
    RadixTable();
    ExpandStepAt(s, cp, 8, 8, key, 1, key + 0x10);
    Parts7Of7(s, cp, key + 0x10);
    Parts8Of8From2(s, cp, key);
  }
  lemma Parts8Of8(s: seq<real>, cp: seq<real>, key: nat)
    requires |s| == 16 && |cp| == 16
    ensures Expand(s, cp, 8, 8, key) == 1.0 * Leaf(s, cp, key + 0x80)
  {
    Parts8Of8From1(s, cp, key);
  }
  lemma Parts1Of9From9(s: seq<real>, cp: seq<real>, key: nat)
    requires |s| == 16 && |cp| == 16
    ensures ExpandFrom(s, cp, 1, 9, key, 9) == 1.0 * Leaf(s, cp, key + 0x10_0000_0000)
  {
    RadixTable();
    ExpandStepAt(s, cp, 1, 9, key, 9, key + 0x10_0000_0000);
    assert Expand(s, cp, 0, 0, key + 0x10_0000_0000) == Leaf(s, cp, key + 0x10_0000_0000);
    assert ExpandFrom(s, cp, 1, 9, key, 10) == 0.0;
  }
  lemma Parts1Of9From8(s: seq<real>, cp: seq<real>, key: nat)
    requires |s| == 16 && |cp| == 16
    ensures ExpandFrom(s, cp, 1, 9, key, 8) == 1.0 * Leaf(s, cp, key + 0x10_0000_0000)
  {
    RadixTable();
    ExpandStepAt(s, cp, 1, 9, key, 8, key + 0x1_0000_0000);
    assert Expand(s, cp, 0, 1, key + 0x1_0000_0000) == 0.0;
    Parts1Of9From9(s, cp, key);
  }
  lemma Parts1Of9From7(s: seq<real>, cp: seq<real>, key: nat)
    requires |s| == 16 && |cp| == 16
    ensures ExpandFrom(s, cp, 1, 9, key, 7) == 1.0 * Leaf(s, cp, key + 0x10_0000_0000)
  {
    RadixTable();
    ExpandStepAt(s, cp, 1, 9, key, 7, key + 0x1000_0000);
    assert Expand(s, cp, 0, 2, key + 0x1000_0000) == 0.0;
    Parts1Of9From8(s, cp, key);
  }
  lemma Parts1Of9From6(s: seq<real>, cp: seq<real>, key: nat)
    requires |s| == 16 && |cp| == 16
    ensures ExpandFrom(s, cp, 1, 9, key, 6) == 1.0 * Leaf(s, cp, key + 0x10_0000_0000)
  {
    RadixTable();
    ExpandStepAt(s, cp, 1, 9, key, 6, key + 0x100_0000);
    assert Expand(s, cp, 0, 3, key + 0x100_0000) == 0.0;
    Parts1Of9From7(s, cp, key);
  }
  lemma Parts1Of9From5(s: seq<real>, cp: seq<real>, key: nat)
    requires |s| == 16 && |cp| == 16
    ensures ExpandFrom(s, cp, 1, 9, key, 5) == 1.0 * Leaf(s, cp, key + 0x10_0000_0000)
  {
    RadixTable();
    ExpandStepAt(s, cp, 1, 9, key, 5, key + 0x10_0000);
    assert Expand(s, cp, 0, 4, key + 0x10_0000) == 0.0;
    Parts1Of9From6(s, cp, key);
  }
  lemma Parts1Of9From4(s: seq<real>, cp: seq<real>, key: nat)
    requires |s| == 16 && |cp| == 16
    ensures ExpandFrom(s, cp, 1, 9, key, 4) == 1.0 * Leaf(s, cp, key + 0x10_0000_0000)
  {
    RadixTable();
    ExpandStepAt(s, cp, 1, 9, key, 4, key + 0x1_0000);
    assert Expand(s, cp, 0, 5, key + 0x1_0000) == 0.0;
    Parts1Of9From5(s, cp, key);
  }
  lemma Parts1Of9From3(s: seq<real>, cp: seq<real>, key: nat)
    requires |s| == 16 && |cp| == 16
    ensures ExpandFrom(s, cp, 1, 9, key, 3) == 1.0 * Leaf(s, cp, key + 0x10_0000_0000)
  {
    RadixTable();
    ExpandStepAt(s, cp, 1, 9, key, 3, key + 0x1000);
    assert Expand(s, cp, 0, 6, key + 0x1000) == 0.0;
    Parts1Of9From4(s, cp, key);
  }
  lemma Parts1Of9From2(s: seq<real>, cp: seq<real>, key: nat)
    requires |s| == 16 && |cp| == 16
    ensures ExpandFrom(s, cp, 1, 9, key, 2) == 1.0 * Leaf(s, cp, key + 0x10_0000_0000)
  {
    RadixTable();
    ExpandStepAt(s, cp, 1, 9, key, 2, key + 0x100);
    assert Expand(s, cp, 0, 7, key + 0x100) == 0.0;
    Parts1Of9From3(s, cp, key);
  }
  lemma Parts1Of9From1(s: seq<real>, cp: seq<real>, key: nat)
    requires |s| == 16 && |cp| == 16
    ensures ExpandFrom(s, cp, 1, 9, key, 1) == 1.0 * Leaf(s, cp, key + 0x10_0000_0000)
  {
    RadixTable();
    ExpandStepAt(s, cp, 1, 9, key, 1, key + 0x10);
    assert Expand(s, cp, 0, 8, key + 0x10) == 0.0;
    Parts1Of9From2(s, cp, key);
  }
  lemma Parts1Of9(s: seq<real>, cp: seq<real>, key: nat)
    requires |s| == 16 && |cp| == 16
    ensures Expand(s, cp, 1, 9, key) == 1.0 * Leaf(s, cp, key + 0x10_0000_0000)
  {
    Parts1Of9From1(s, cp, key);
  }
  lemma Parts2Of9From9(s: seq<real>, cp: seq<real>, key: nat)
    requires |s| == 16 && |cp| == 16
    ensures ExpandFrom(s, cp, 2, 9, key, 9) == 0.0
  {
    RadixTable();
    ExpandStepAt(s, cp, 2, 9, key, 9, key + 0x10_0000_0000);
    ExpandBelow(s, cp, 1, 0, key + 0x10_0000_0000);
    assert ExpandFrom(s, cp, 2, 9, key, 10) == 0.0;
  }
  lemma Parts2Of9From8(s: seq<real>, cp: seq<real>, key: nat)
    requires |s| == 16 && |cp| == 16
    ensures ExpandFrom(s, cp, 2, 9, key, 8) == 1.0 * Leaf(s, cp, key + 0x1_0000_0010)
  {
    RadixTable();
    ExpandStepAt(s, cp, 2, 9, key, 8, key + 0x1_0000_0000);
    Parts1Of1(s, cp, key + 0x1_0000_0000);
    Parts2Of9From9(s, cp, key);
  }
  lemma Parts2Of9From7(s: seq<real>, cp: seq<real>, key: nat)
    requires |s| == 16 && |cp| == 16
    ensures ExpandFrom(s, cp, 2, 9, key, 7) == 1.0 * Leaf(s, cp, key + 0x1000_0100) + 1.0 * Leaf(s, cp, key + 0x1_0000_0010)
  {
    RadixTable();
    ExpandStepAt(s, cp, 2, 9, key, 7, key + 0x1000_0000);
    Parts1Of2(s, cp, key + 0x1000_0000);
    Parts2Of9From8(s, cp, key);
  }
  lemma Parts2Of9From6(s: seq<real>, cp: seq<real>, key: nat)
    requires |s| == 16 && |cp| == 16
    ensures ExpandFrom(s, cp, 2, 9, key, 6) == 1.0 * Leaf(s, cp, key + 0x100_1000) + 1.0 * Leaf(s, cp, key + 0x1000_0100) + 1.0 * Leaf(s, cp, key + 0x1_0000_0010)
  {
    RadixTable();
    ExpandStepAt(s, cp, 2, 9, key, 6, key + 0x100_0000);
    Parts1Of3(s, cp, key + 0x100_0000);
    Parts2Of9From7(s, cp, key);
  }
  lemma Parts2Of9From5(s: seq<real>, cp: seq<real>, key: nat)
    requires |s| == 16 && |cp| == 16
    ensures ExpandFrom(s, cp, 2, 9, key, 5) == 1.0 * Leaf(s, cp, key + 0x11_0000) + 1.0 * Leaf(s, cp, key + 0x100_1000) + 1.0 * Leaf(s, cp, key + 0x1000_0100) + 1.0 * Leaf(s, cp, key + 0x1_0000_0010)
  {
    RadixTable();
    ExpandStepAt(s, cp, 2, 9, key, 5, key + 0x10_0000);
    Parts1Of4(s, cp, key + 0x10_0000);
    Parts2Of9From6(s, cp, key);
  }
  lemma Parts2Of9From4(s: seq<real>, cp: seq<real>, key: nat)
    requires |s| == 16 && |cp| == 16
    ensures ExpandFrom(s, cp, 2, 9, key, 4) == 2.0 * Leaf(s, cp, key + 0x11_0000) + 1.0 * Leaf(s, cp, key + 0x100_1000) + 1.0 * Leaf(s, cp, key + 0x1000_0100) + 1.0 * Leaf(s, cp, key + 0x1_0000_0010)
  {
    RadixTable();
    ExpandStepAt(s, cp, 2, 9, key, 4, key + 0x1_0000);
    Parts1Of5(s, cp, key + 0x1_0000);
    Parts2Of9From5(s, cp, key);
  }
  lemma Parts2Of9From3(s: seq<real>, cp: seq<real>, key: nat)
    requires |s| == 16 && |cp| == 16
    ensures ExpandFrom(s, cp, 2, 9, key, 3) == 2.0 * Leaf(s, cp, key + 0x11_0000) + 2.0 * Leaf(s, cp, key + 0x100_1000) + 1.0 * Leaf(s, cp, key + 0x1000_0100) + 1.0 * Leaf(s, cp, key + 0x1_0000_0010)
  {
    RadixTable();
    ExpandStepAt(s, cp, 2, 9, key, 3, key + 0x1000);
    Parts1Of6(s, cp, key + 0x1000);
    Parts2Of9From4(s, cp, key);
  }
  lemma Parts2Of9From2(s: seq<real>, cp: seq<real>, key: nat)
    requires |s| == 16 && |cp| == 16
    ensures ExpandFrom(s, cp, 2, 9, key, 2) == 2.0 * Leaf(s, cp, key + 0x11_0000) + 2.0 * Leaf(s, cp, key + 0x100_1000) + 2.0 * Leaf(s, cp, key + 0x1000_0100) + 1.0 * Leaf(s, cp, key + 0x1_0000_0010)
  {
    RadixTable();
    ExpandStepAt(s, cp, 2, 9, key, 2, key + 0x100);
    Parts1Of7(s, cp, key + 0x100);
    Parts2Of9From3(s, cp, key);
  }
  lemma Parts2Of9From1(s: seq<real>, cp: seq<real>, key: nat)
    requires |s| == 16 && |cp| == 16
    ensures ExpandFrom(s, cp, 2, 9, key, 1) == 2.0 * Leaf(s, cp, key + 0x11_0000) + 2.0 * Leaf(s, cp, key + 0x100_1000) + 2.0 * Leaf(s, cp, key + 0x1000_0100) + 2.0 * Leaf(s, cp, key + 0x1_0000_0010)
  {
    RadixTable();
    ExpandStepAt(s, cp, 2, 9, key, 1, key + 0x10);
    Parts1Of8(s, cp, key + 0x10);
    Parts2Of9From2(s, cp, key);
  }
  lemma Parts2Of9(s: seq<real>, cp: seq<real>, key: nat)
    requires |s| == 16 && |cp| == 16
    ensures Expand(s, cp, 2, 9, key) == 2.0 * Leaf(s, cp, key + 0x11_0000) + 2.0 * Leaf(s, cp, key + 0x100_1000) + 2.0 * Leaf(s, cp, key + 0x1000_0100) + 2.0 * Leaf(s, cp, key + 0x1_0000_0010)
  {
    Parts2Of9From1(s, cp, key);
  }
  lemma Parts3Of9From9(s: seq<real>, cp: seq<real>, key: nat)
    requires |s| == 16 && |cp| == 16
    ensures ExpandFrom(s, cp, 3, 9, key, 9) == 0.0
  {
    RadixTable();
    ExpandStepAt(s, cp, 3, 9, key, 9, key + 0x10_0000_0000);
    ExpandBelow(s, cp, 2, 0, key + 0x10_0000_0000);
    assert ExpandFrom(s, cp, 3, 9, key, 10) == 0.0;
  }
  lemma Parts3Of9From8(s: seq<real>, cp: seq<real>, key: nat)
    requires |s| == 16 && |cp| == 16
    ensures ExpandFrom(s, cp, 3, 9, key, 8) == 0.0
  {
    RadixTable();
    ExpandStepAt(s, cp, 3, 9, key, 8, key + 0x1_0000_0000);
    ExpandBelow(s, cp, 2, 1, key + 0x1_0000_0000);
    Parts3Of9From9(s, cp, key);
  }
  lemma Parts3Of9From7(s: seq<real>, cp: seq<real>, key: nat)
    requires |s| == 16 && |cp| == 16
    ensures ExpandFrom(s, cp, 3, 9, key, 7) == 1.0 * Leaf(s, cp, key + 0x1000_0020)
  {
    RadixTable();
    ExpandStepAt(s, cp, 3, 9, key, 7, key + 0x1000_0000);
    Parts2Of2(s, cp, key + 0x1000_0000);
    Parts3Of9From8(s, cp, key);
  }
  lemma Parts3Of9From6(s: seq<real>, cp: seq<real>, key: nat)
    requires |s| == 16 && |cp| == 16
    ensures ExpandFrom(s, cp, 3, 9, key, 6) == 2.0 * Leaf(s, cp, key + 0x100_0110) + 1.0 * Leaf(s, cp, key + 0x1000_0020)
  {
    RadixTable();
    ExpandStepAt(s, cp, 3, 9, key, 6, key + 0x100_0000);
    Parts2Of3(s, cp, key + 0x100_0000);
    Parts3Of9From7(s, cp, key);
  }
  lemma Parts3Of9From5(s: seq<real>, cp: seq<real>, key: nat)
    requires |s| == 16 && |cp| == 16
    ensures ExpandFrom(s, cp, 3, 9, key, 5) == 1.0 * Leaf(s, cp, key + 0x10_0200) + 2.0 * Leaf(s, cp, key + 0x10_1010) + 2.0 * Leaf(s, cp, key + 0x100_0110) + 1.0 * Leaf(s, cp, key + 0x1000_0020)
  {
    RadixTable();
    ExpandStepAt(s, cp, 3, 9, key, 5, key + 0x10_0000);
    Parts2Of4(s, cp, key + 0x10_0000);
    Parts3Of9From6(s, cp, key);
  }
  lemma Parts3Of9From4(s: seq<real>, cp: seq<real>, key: nat)
    requires |s| == 16 && |cp| == 16
    ensures ExpandFrom(s, cp, 3, 9, key, 4) == 2.0 * Leaf(s, cp, key + 0x1_1100) + 2.0 * Leaf(s, cp, key + 0x2_0010) + 1.0 * Leaf(s, cp, key + 0x10_0200) + 2.0 * Leaf(s, cp, key + 0x10_1010) + 2.0 * Leaf(s, cp, key + 0x100_0110) + 1.0 * Leaf(s, cp, key + 0x1000_0020)
  {
    RadixTable();
    ExpandStepAt(s, cp, 3, 9, key, 4, key + 0x1_0000);
    Parts2Of5(s, cp, key + 0x1_0000);
    Parts3Of9From5(s, cp, key);
  }
  lemma Parts3Of9From3(s: seq<real>, cp: seq<real>, key: nat)
    requires |s| == 16 && |cp| == 16
    ensures ExpandFrom(s, cp, 3, 9, key, 3) == 1.0 * Leaf(s, cp, key + 0x3000) + 4.0 * Leaf(s, cp, key + 0x1_1100) + 2.0 * Leaf(s, cp, key + 0x2_0010) + 1.0 * Leaf(s, cp, key + 0x10_0200) + 4.0 * Leaf(s, cp, key + 0x10_1010) + 2.0 * Leaf(s, cp, key + 0x100_0110) + 1.0 * Leaf(s, cp, key + 0x1000_0020)
  {
    RadixTable();
    ExpandStepAt(s, cp, 3, 9, key, 3, key + 0x1000);
    Parts2Of6(s, cp, key + 0x1000);
    Parts3Of9From4(s, cp, key);
  }
  lemma Parts3Of9From2(s: seq<real>, cp: seq<real>, key: nat)
    requires |s| == 16 && |cp| == 16
    ensures ExpandFrom(s, cp, 3, 9, key, 2) == 1.0 * Leaf(s, cp, key + 0x3000) + 6.0 * Leaf(s, cp, key + 0x1_1100) + 2.0 * Leaf(s, cp, key + 0x2_0010) + 3.0 * Leaf(s, cp, key + 0x10_0200) + 4.0 * Leaf(s, cp, key + 0x10_1010) + 4.0 * Leaf(s, cp, key + 0x100_0110) + 1.0 * Leaf(s, cp, key + 0x1000_0020)
  {
    RadixTable();
    ExpandStepAt(s, cp, 3, 9, key, 2, key + 0x100);
    Parts2Of7(s, cp, key + 0x100);
    Parts3Of9From3(s, cp, key);
  }
  lemma Parts3Of9From1(s: seq<real>, cp: seq<real>, key: nat)
    requires |s| == 16 && |cp| == 16
    ensures ExpandFrom(s, cp, 3, 9, key, 1) == 1.0 * Leaf(s, cp, key + 0x3000) + 6.0 * Leaf(s, cp, key + 0x1_1100) + 3.0 * Leaf(s, cp, key + 0x2_0010) + 3.0 * Leaf(s, cp, key + 0x10_0200) + 6.0 * Leaf(s, cp, key + 0x10_1010) + 6.0 * Leaf(s, cp, key + 0x100_0110) + 3.0 * Leaf(s, cp, key + 0x1000_0020)
  {
    RadixTable();
    ExpandStepAt(s, cp, 3, 9, key, 1, key + 0x10);
    Parts2Of8(s, cp, key + 0x10);
    Parts3Of9From2(s, cp, key);
  }
  lemma Parts3Of9(s: seq<real>, cp: seq<real>, key: nat)
    requires |s| == 16 && |cp| == 16
    ensures Expand(s, cp, 3, 9, key) == 1.0 * Leaf(s, cp, key + 0x3000) + 6.0 * Leaf(s, cp, key + 0x1_1100) + 3.0 * Leaf(s, cp, key + 0x2_0010) + 3.0 * Leaf(s, cp, key + 0x10_0200) + 6.0 * Leaf(s, cp, key + 0x10_1010) + 6.0 * Leaf(s, cp, key + 0x100_0110) + 3.0 * Leaf(s, cp, key + 0x1000_0020)
  {
    Parts3Of9From1(s, cp, key);
  }
  lemma Parts4Of9From9(s: seq<real>, cp: seq<real>, key: nat)
    requires |s| == 16 && |cp| == 16
    ensures ExpandFrom(s, cp, 4, 9, key, 9) == 0.0
  {
    RadixTable();
    ExpandStepAt(s, cp, 4, 9, key, 9, key + 0x10_0000_0000);
    ExpandBelow(s, cp, 3, 0, key + 0x10_0000_0000);
    assert ExpandFrom(s, cp, 4, 9, key, 10) == 0.0;
  }
  lemma Parts4Of9From8(s: seq<real>, cp: seq<real>, key: nat)
    requires |s| == 16 && |cp| == 16
    ensures ExpandFrom(s, cp, 4, 9, key, 8) == 0.0
  {
    RadixTable();
    ExpandStepAt(s, cp, 4, 9, key, 8, key + 0x1_0000_0000);
    ExpandBelow(s, cp, 3, 1, key + 0x1_0000_0000);
    Parts4Of9From9(s, cp, key);
  }
  lemma Parts4Of9From7(s: seq<real>, cp: seq<real>, key: nat)
    requires |s| == 16 && |cp| == 16
    ensures ExpandFrom(s, cp, 4, 9, key, 7) == 0.0
  {
    RadixTable();
    ExpandStepAt(s, cp, 4, 9, key, 7, key + 0x1000_0000);
    ExpandBelow(s, cp, 3, 2, key + 0x1000_0000);
    Parts4Of9From8(s, cp, key);
  }
  lemma Parts4Of9From6(s: seq<real>, cp: seq<real>, key: nat)
    requires |s| == 16 && |cp| == 16
    ensures ExpandFrom(s, cp, 4, 9, key, 6) == 1.0 * Leaf(s, cp, key + 0x100_0030)
  {
    RadixTable();
    ExpandStepAt(s, cp, 4, 9, key, 6, key + 0x100_0000);
    Parts3Of3(s, cp, key + 0x100_0000);
    Parts4Of9From7(s, cp, key);
  }
  lemma Parts4Of9From5(s: seq<real>, cp: seq<real>, key: nat)
    requires |s| == 16 && |cp| == 16
    ensures ExpandFrom(s, cp, 4, 9, key, 5) == 3.0 * Leaf(s, cp, key + 0x10_0120) + 1.0 * Leaf(s, cp, key + 0x100_0030)
  {
    RadixTable();
    ExpandStepAt(s, cp, 4, 9, key, 5, key + 0x10_0000);
    Parts3Of4(s, cp, key + 0x10_0000);
    Parts4Of9From6(s, cp, key);
  }
  lemma Parts4Of9From4(s: seq<real>, cp: seq<real>, key: nat)
    requires |s| == 16 && |cp| == 16
    ensures ExpandFrom(s, cp, 4, 9, key, 4) == 3.0 * Leaf(s, cp, key + 0x1_0210) + 3.0 * Leaf(s, cp, key + 0x1_1020) + 3.0 * Leaf(s, cp, key + 0x10_0120) + 1.0 * Leaf(s, cp, key + 0x100_0030)
  {
    RadixTable();
    ExpandStepAt(s, cp, 4, 9, key, 4, key + 0x1_0000);
    Parts3Of5(s, cp, key + 0x1_0000);
    Parts4Of9From5(s, cp, key);
  }
  lemma Parts4Of9From3(s: seq<real>, cp: seq<real>, key: nat)
    requires |s| == 16 && |cp| == 16
    ensures ExpandFrom(s, cp, 4, 9, key, 3) == 1.0 * Leaf(s, cp, key + 0x1300) + 6.0 * Leaf(s, cp, key + 0x2110) + 3.0 * Leaf(s, cp, key + 0x1_0210) + 6.0 * Leaf(s, cp, key + 0x1_1020) + 3.0 * Leaf(s, cp, key + 0x10_0120) + 1.0 * Leaf(s, cp, key + 0x100_0030)
  {
    RadixTable();
    ExpandStepAt(s, cp, 4, 9, key, 3, key + 0x1000);
    Parts3Of6(s, cp, key + 0x1000);
    Parts4Of9From4(s, cp, key);
  }
  lemma Parts4Of9From2(s: seq<real>, cp: seq<real>, key: nat)
    requires |s| == 16 && |cp| == 16
    ensures ExpandFrom(s, cp, 4, 9, key, 2) == 4.0 * Leaf(s, cp, key + 0x1300) + 9.0 * Leaf(s, cp, key + 0x2110) + 9.0 * Leaf(s, cp, key + 0x1_0210) + 6.0 * Leaf(s, cp, key + 0x1_1020) + 6.0 * Leaf(s, cp, key + 0x10_0120) + 1.0 * Leaf(s, cp, key + 0x100_0030)
  {
    RadixTable();
    ExpandStepAt(s, cp, 4, 9, key, 2, key + 0x100);
    Parts3Of7(s, cp, key + 0x100);
    Parts4Of9From3(s, cp, key);
  }
  lemma Parts4Of9From1(s: seq<real>, cp: seq<real>, key: nat)
    requires |s| == 16 && |cp| == 16
    ensures ExpandFrom(s, cp, 4, 9, key, 1) == 4.0 * Leaf(s, cp, key + 0x1300) + 12.0 * Leaf(s, cp, key + 0x2110) + 12.0 * Leaf(s, cp, key + 0x1_0210) + 12.0 * Leaf(s, cp, key + 0x1_1020) + 12.0 * Leaf(s, cp, key + 0x10_0120) + 4.0 * Leaf(s, cp, key + 0x100_0030)
  {
    RadixTable();
    ExpandStepAt(s, cp, 4, 9, key, 1, key + 0x10);
    Parts3Of8(s, cp, key + 0x10);
    Parts4Of9From2(s, cp, key);
  }
  lemma Parts4Of9(s: seq<real>, cp: seq<real>, key: nat)
    requires |s| == 16 && |cp| == 16
    ensures Expand(s, cp, 4, 9, key) == 4.0 * Leaf(s, cp, key + 0x1300) + 12.0 * Leaf(s, cp, key + 0x2110) + 12.0 * Leaf(s, cp, key + 0x1_0210) + 12.0 * Leaf(s, cp, key + 0x1_1020) + 12.0 * Leaf(s, cp, key + 0x10_0120) + 4.0 * Leaf(s, cp, key + 0x100_0030)
  {
    Parts4Of9From1(s, cp, key);
  }
  lemma Parts5Of9From9(s: seq<real>, cp: seq<real>, key: nat)
    requires |s| == 16 && |cp| == 16
    ensures ExpandFrom(s, cp, 5, 9, key, 9) == 0.0
  {
    RadixTable();
    ExpandStepAt(s, cp, 5, 9, key, 9, key + 0x10_0000_0000);
    ExpandBelow(s, cp, 4, 0, key + 0x10_0000_0000);
    assert ExpandFrom(s, cp, 5, 9, key, 10) == 0.0;
  }
  lemma Parts5Of9From8(s: seq<real>, cp: seq<real>, key: nat)
    requires |s| == 16 && |cp| == 16
    ensures ExpandFrom(s, cp, 5, 9, key, 8) == 0.0
  {
    RadixTable();
    ExpandStepAt(s, cp, 5, 9, key, 8, key + 0x1_0000_0000);
    ExpandBelow(s, cp, 4, 1, key + 0x1_0000_0000);
    Parts5Of9From9(s, cp, key);
  }
  lemma Parts5Of9From7(s: seq<real>, cp: seq<real>, key: nat)
    requires |s| == 16 && |cp| == 16
    ensures ExpandFrom(s, cp, 5, 9, key, 7) == 0.0
  {
    RadixTable();
    ExpandStepAt(s, cp, 5, 9, key, 7, key + 0x1000_0000);
    ExpandBelow(s, cp, 4, 2, key + 0x1000_0000);
    Parts5Of9From8(s, cp, key);
  }
  lemma Parts5Of9From6(s: seq<real>, cp: seq<real>, key: nat)
    requires |s| == 16 && |cp| == 16
    ensures ExpandFrom(s, cp, 5, 9, key, 6) == 0.0
  {
    RadixTable();
    ExpandStepAt(s, cp, 5, 9, key, 6, key + 0x100_0000);
    ExpandBelow(s, cp, 4, 3, key + 0x100_0000);
    Parts5Of9From7(s, cp, key);
  }
  lemma Parts5Of9From5(s: seq<real>, cp: seq<real>, key: nat)
    requires |s| == 16 && |cp| == 16
    ensures ExpandFrom(s, cp, 5, 9, key, 5) == 1.0 * Leaf(s, cp, key + 0x10_0040)
  {
    RadixTable();
    ExpandStepAt(s, cp, 5, 9, key, 5, key + 0x10_0000);
    Parts4Of4(s, cp, key + 0x10_0000);
    Parts5Of9From6(s, cp, key);
  }
  lemma Parts5Of9From4(s: seq<real>, cp: seq<real>, key: nat)
    requires |s| == 16 && |cp| == 16
    ensures ExpandFrom(s, cp, 5, 9, key, 4) == 4.0 * Leaf(s, cp, key + 0x1_0130) + 1.0 * Leaf(s, cp, key + 0x10_0040)
  {
    RadixTable();
    ExpandStepAt(s, cp, 5, 9, key, 4, key + 0x1_0000);
    Parts4Of5(s, cp, key + 0x1_0000);
    Parts5Of9From5(s, cp, key);
  }
  lemma Parts5Of9From3(s: seq<real>, cp: seq<real>, key: nat)
    requires |s| == 16 && |cp| == 16
    ensures ExpandFrom(s, cp, 5, 9, key, 3) == 6.0 * Leaf(s, cp, key + 0x1220) + 4.0 * Leaf(s, cp, key + 0x2030) + 4.0 * Leaf(s, cp, key + 0x1_0130) + 1.0 * Leaf(s, cp, key + 0x10_0040)
  {
    RadixTable();
    ExpandStepAt(s, cp, 5, 9, key, 3, key + 0x1000);
    Parts4Of6(s, cp, key + 0x1000);
    Parts5Of9From4(s, cp, key);
  }
  lemma Parts5Of9From2(s: seq<real>, cp: seq<real>, key: nat)
    requires |s| == 16 && |cp| == 16
    ensures ExpandFrom(s, cp, 5, 9, key, 2) == 4.0 * Leaf(s, cp, key + 0x410) + 18.0 * Leaf(s, cp, key + 0x1220) + 4.0 * Leaf(s, cp, key + 0x2030) + 8.0 * Leaf(s, cp, key + 0x1_0130) + 1.0 * Leaf(s, cp, key + 0x10_0040)
  {
    RadixTable();
    ExpandStepAt(s, cp, 5, 9, key, 2, key + 0x100);
    Parts4Of7(s, cp, key + 0x100);
    Parts5Of9From3(s, cp, key);
  }
  lemma Parts5Of9From1(s: seq<real>, cp: seq<real>, key: nat)
    requires |s| == 16 && |cp| == 16
    ensures ExpandFrom(s, cp, 5, 9, key, 1) == 5.0 * Leaf(s, cp, key + 0x410) + 30.0 * Leaf(s, cp, key + 0x1220) + 10.0 * Leaf(s, cp, key + 0x2030) + 20.0 * Leaf(s, cp, key + 0x1_0130) + 5.0 * Leaf(s, cp, key + 0x10_0040)
  {
    RadixTable();
    ExpandStepAt(s, cp, 5, 9, key, 1, key + 0x10);
    Parts4Of8(s, cp, key + 0x10);
    Parts5Of9From2(s, cp, key);
  }
  lemma Parts5Of9(s: seq<real>, cp: seq<real>, key: nat)
    requires |s| == 16 && |cp| == 16
    ensures Expand(s, cp, 5, 9, key) == 5.0 * Leaf(s, cp, key + 0x410) + 30.0 * Leaf(s, cp, key + 0x1220) + 10.0 * Leaf(s, cp, key + 0x2030) + 20.0 * Leaf(s, cp, key + 0x1_0130) + 5.0 * Leaf(s, cp, key + 0x10_0040)
  {
    Parts5Of9From1(s, cp, key);
  }
  lemma Parts6Of9From9(s: seq<real>, cp: seq<real>, key: nat)
    requires |s| == 16 && |cp| == 16
    ensures ExpandFrom(s, cp, 6, 9, key, 9) == 0.0
  {
    RadixTable();
    ExpandStepAt(s, cp, 6, 9, key, 9, key + 0x10_0000_0000);
    ExpandBelow(s, cp, 5, 0, key + 0x10_0000_0000);
    assert ExpandFrom(s, cp, 6, 9, key, 10) == 0.0;
  }
  lemma Parts6Of9From8(s: seq<real>, cp: seq<real>, key: nat)
    requires |s| == 16 && |cp| == 16
    ensures ExpandFrom(s, cp, 6, 9, key, 8) == 0.0
  {
    RadixTable();
    ExpandStepAt(s, cp, 6, 9, key, 8, key + 0x1_0000_0000);
    ExpandBelow(s, cp, 5, 1, key + 0x1_0000_0000);
    Parts6Of9From9(s, cp, key);
  }
  lemma Parts6Of9From7(s: seq<real>, cp: seq<real>, key: nat)
    requires |s| == 16 && |cp| == 16
    ensures ExpandFrom(s, cp, 6, 9, key, 7) == 0.0
  {
    RadixTable();
    ExpandStepAt(s, cp, 6, 9, key, 7, key + 0x1000_0000);
    ExpandBelow(s, cp, 5, 2, key + 0x1000_0000);
    Parts6Of9From8(s, cp, key);
  }
  lemma Parts6Of9From6(s: seq<real>, cp: seq<real>, key: nat)
    requires |s| == 16 && |cp| == 16
    ensures ExpandFrom(s, cp, 6, 9, key, 6) == 0.0
  {
    RadixTable();
    ExpandStepAt(s, cp, 6, 9, key, 6, key + 0x100_0000);
    ExpandBelow(s, cp, 5, 3, key + 0x100_0000);
    Parts6Of9From7(s, cp, key);
  }
  lemma Parts6Of9From5(s: seq<real>, cp: seq<real>, key: nat)
    requires |s| == 16 && |cp| == 16
    ensures ExpandFrom(s, cp, 6, 9, key, 5) == 0.0
  {
    RadixTable();
    ExpandStepAt(s, cp, 6, 9, key, 5, key + 0x10_0000);
    ExpandBelow(s, cp, 5, 4, key + 0x10_0000);
    Parts6Of9From6(s, cp, key);
  }
  lemma Parts6Of9From4(s: seq<real>, cp: seq<real>, key: nat)
    requires |s| == 16 && |cp| == 16
    ensures ExpandFrom(s, cp, 6, 9, key, 4) == 1.0 * Leaf(s, cp, key + 0x1_0050)
  {
    RadixTable();
    ExpandStepAt(s, cp, 6, 9, key, 4, key + 0x1_0000);
    Parts5Of5(s, cp, key + 0x1_0000);
    Parts6Of9From5(s, cp, key);
  }
  lemma Parts6Of9From3(s: seq<real>, cp: seq<real>, key: nat)
    requires |s| == 16 && |cp| == 16
    ensures ExpandFrom(s, cp, 6, 9, key, 3) == 5.0 * Leaf(s, cp, key + 0x1140) + 1.0 * Leaf(s, cp, key + 0x1_0050)
  {
    RadixTable();
    ExpandStepAt(s, cp, 6, 9, key, 3, key + 0x1000);
    Parts5Of6(s, cp, key + 0x1000);
    Parts6Of9From4(s, cp, key);
  }
  lemma Parts6Of9From2(s: seq<real>, cp: seq<real>, key: nat)
    requires |s| == 16 && |cp| == 16
    ensures ExpandFrom(s, cp, 6, 9, key, 2) == 10.0 * Leaf(s, cp, key + 0x330) + 10.0 * Leaf(s, cp, key + 0x1140) + 1.0 * Leaf(s, cp, key + 0x1_0050)
  {
    RadixTable();
    ExpandStepAt(s, cp, 6, 9, key, 2, key + 0x100);
    Parts5Of7(s, cp, key + 0x100);
    Parts6Of9From3(s, cp, key);
  }
  lemma Parts6Of9From1(s: seq<real>, cp: seq<real>, key: nat)
    requires |s| == 16 && |cp| == 16
    ensures ExpandFrom(s, cp, 6, 9, key, 1) == 20.0 * Leaf(s, cp, key + 0x330) + 30.0 * Leaf(s, cp, key + 0x1140) + 6.0 * Leaf(s, cp, key + 0x1_0050)
  {
    RadixTable();
    ExpandStepAt(s, cp, 6, 9, key, 1, key + 0x10);
    Parts5Of8(s, cp, key + 0x10);
    Parts6Of9From2(s, cp, key);
  }
  lemma Parts6Of9(s: seq<real>, cp: seq<real>, key: nat)
    requires |s| == 16 && |cp| == 16
    ensures Expand(s, cp, 6, 9, key) == 20.0 * Leaf(s, cp, key + 0x330) + 30.0 * Leaf(s, cp, key + 0x1140) + 6.0 * Leaf(s, cp, key + 0x1_0050)
  {
    Parts6Of9From1(s, cp, key);
  }
  lemma Parts7Of9From9(s: seq<real>, cp: seq<real>, key: nat)
    requires |s| == 16 && |cp| == 16
    ensures ExpandFrom(s, cp, 7, 9, key, 9) == 0.0
  {
    RadixTable();
    ExpandStepAt(s, cp, 7, 9, key, 9, key + 0x10_0000_0000);
    ExpandBelow(s, cp, 6, 0, key + 0x10_0000_0000);
    assert ExpandFrom(s, cp, 7, 9, key, 10) == 0.0;
  }
  lemma Parts7Of9From8(s: seq<real>, cp: seq<real>, key: nat)
    requires |s| == 16 && |cp| == 16
    ensures ExpandFrom(s, cp, 7, 9, key, 8) == 0.0
  {
    RadixTable();
    ExpandStepAt(s, cp, 7, 9, key, 8, key + 0x1_0000_0000);
    ExpandBelow(s, cp, 6, 1, key + 0x1_0000_0000);
    Parts7Of9From9(s, cp, key);
  }
  lemma Parts7Of9From7(s: seq<real>, cp: seq<real>, key: nat)
    requires |s| == 16 && |cp| == 16
    ensures ExpandFrom(s, cp, 7, 9, key, 7) == 0.0
  {
    RadixTable();
    ExpandStepAt(s, cp, 7, 9, key, 7, key + 0x1000_0000);
    ExpandBelow(s, cp, 6, 2, key + 0x1000_0000);
    Parts7Of9From8(s, cp, key);
  }
  lemma Parts7Of9From6(s: seq<real>, cp: seq<real>, key: nat)
    requires |s| == 16 && |cp| == 16
    ensures ExpandFrom(s, cp, 7, 9, key, 6) == 0.0
  {
    RadixTable();
    ExpandStepAt(s, cp, 7, 9, key, 6, key + 0x100_0000);
    ExpandBelow(s, cp, 6, 3, key + 0x100_0000);
    Parts7Of9From7(s, cp, key);
  }
  lemma Parts7Of9From5(s: seq<real>, cp: seq<real>, key: nat)
    requires |s| == 16 && |cp| == 16
    ensures ExpandFrom(s, cp, 7, 9, key, 5) == 0.0
  {
    RadixTable();
    ExpandStepAt(s, cp, 7, 9, key, 5, key + 0x10_0000);
    ExpandBelow(s, cp, 6, 4, key + 0x10_0000);
    Parts7Of9From6(s, cp, key);
  }
  lemma Parts7Of9From4(s: seq<real>, cp: seq<real>, key: nat)
    requires |s| == 16 && |cp| == 16
    ensures ExpandFrom(s, cp, 7, 9, key, 4) == 0.0
  {
    RadixTable();
    ExpandStepAt(s, cp, 7, 9, key, 4, key + 0x1_0000);
    ExpandBelow(s, cp, 6, 5, key + 0x1_0000);
    Parts7Of9From5(s, cp, key);
  }
  lemma Parts7Of9From3(s: seq<real>, cp: seq<real>, key: nat)
    requires |s| == 16 && |cp| == 16
    ensures ExpandFrom(s, cp, 7, 9, key, 3) == 1.0 * Leaf(s, cp, key + 0x1060)
  {
    RadixTable();
    ExpandStepAt(s, cp, 7, 9, key, 3, key + 0x1000);
    Parts6Of6(s, cp, key + 0x1000);
    Parts7Of9From4(s, cp, key);
  }
  lemma Parts7Of9From2(s: seq<real>, cp: seq<real>, key: nat)
    requires |s| == 16 && |cp| == 16
    ensures ExpandFrom(s, cp, 7, 9, key, 2) == 6.0 * Leaf(s, cp, key + 0x250) + 1.0 * Leaf(s, cp, key + 0x1060)
  {
    RadixTable();
    ExpandStepAt(s, cp, 7, 9, key, 2, key + 0x100);
    Parts6Of7(s, cp, key + 0x100);
    Parts7Of9From3(s, cp, key);
  }
  lemma Parts7Of9From1(s: seq<real>, cp: seq<real>, key: nat)
    requires |s| == 16 && |cp| == 16
    ensures ExpandFrom(s, cp, 7, 9, key, 1) == 21.0 * Leaf(s, cp, key + 0x250) + 7.0 * Leaf(s, cp, key + 0x1060)
  {
    RadixTable();
    ExpandStepAt(s, cp, 7, 9, key, 1, key + 0x10);
    Parts6Of8(s, cp, key + 0x10);
    Parts7Of9From2(s, cp, key);
  }
  lemma Parts7Of9(s: seq<real>, cp: seq<real>, key: nat)
    requires |s| == 16 && |cp| == 16
    ensures Expand(s, cp, 7, 9, key) == 21.0 * Leaf(s, cp, key + 0x250) + 7.0 * Leaf(s, cp, key + 0x1060)
  {
    Parts7Of9From1(s, cp, key);
  }
  lemma Parts8Of9From9(s: seq<real>, cp: seq<real>, key: nat)
    requires |s| == 16 && |cp| == 16
    ensures ExpandFrom(s, cp, 8, 9, key, 9) == 0.0
  {
    RadixTable();
    ExpandStepAt(s, cp, 8, 9, key, 9, key + 0x10_0000_0000);
    ExpandBelow(s, cp, 7, 0, key + 0x10_0000_0000);
    assert ExpandFrom(s, cp, 8, 9, key, 10) == 0.0;
  }
  lemma Parts8Of9From8(s: seq<real>, cp: seq<real>, key: nat)
    requires |s| == 16 && |cp| == 16
    ensures ExpandFrom(s, cp, 8, 9, key, 8) == 0.0
  {
    RadixTable();
    ExpandStepAt(s, cp, 8, 9, key, 8, key + 0x1_0000_0000);
    ExpandBelow(s, cp, 7, 1, key + 0x1_0000_0000);
    Parts8Of9From9(s, cp, key);
  }
  lemma Parts8Of9From7(s: seq<real>, cp: seq<real>, key: nat)
    requires |s| == 16 && |cp| == 16
    ensures ExpandFrom(s, cp, 8, 9, key, 7) == 0.0
  {
    RadixTable();
    ExpandStepAt(s, cp, 8, 9, key, 7, key + 0x1000_0000);
    ExpandBelow(s, cp, 7, 2, key + 0x1000_0000);
    Parts8Of9From8(s, cp, key);
  }
  lemma Parts8Of9From6(s: seq<real>, cp: seq<real>, key: nat)
    requires |s| == 16 && |cp| == 16
    ensures ExpandFrom(s, cp, 8, 9, key, 6) == 0.0
  {
    RadixTable();
    ExpandStepAt(s, cp, 8, 9, key, 6, key + 0x100_0000);
    ExpandBelow(s, cp, 7, 3, key + 0x100_0000);
    Parts8Of9From7(s, cp, key);
  }
  lemma Parts8Of9From5(s: seq<real>, cp: seq<real>, key: nat)
    requires |s| == 16 && |cp| == 16
    ensures ExpandFrom(s, cp, 8, 9, key, 5) == 0.0
  {
    RadixTable();
    ExpandStepAt(s, cp, 8, 9, key, 5, key + 0x10_0000);
    ExpandBelow(s, cp, 7, 4, key + 0x10_0000);
    Parts8Of9From6(s, cp, key);
  }
  lemma Parts8Of9From4(s: seq<real>, cp: seq<real>, key: nat)
    requires |s| == 16 && |cp| == 16
    ensures ExpandFrom(s, cp, 8, 9, key, 4) == 0.0
  {
    RadixTable();
    ExpandStepAt(s, cp, 8, 9, key, 4, key + 0x1_0000);
    ExpandBelow(s, cp, 7, 5, key + 0x1_0000);
    Parts8Of9From5(s, cp, key);
  }
  lemma Parts8Of9From3(s: seq<real>, cp: seq<real>, key: nat)
    requires |s| == 16 && |cp| == 16
    ensures ExpandFrom(s, cp, 8, 9, key, 3) == 0.0
  {
    RadixTable();
    ExpandStepAt(s, cp, 8, 9, key, 3, key + 0x1000);
    ExpandBelow(s, cp, 7, 6, key + 0x1000);
    Parts8Of9From4(s, cp, key);
  }
  lemma Parts8Of9From2(s: seq<real>, cp: seq<real>, key: nat)
    requires |s| == 16 && |cp| == 16
    ensures ExpandFrom(s, cp, 8, 9, key, 2) == 1.0 * Leaf(s, cp, key + 0x170)
  {
    RadixTable();
    ExpandStepAt(s, cp, 8, 9, key, 2, key + 0x100);
    Parts7Of7(s, cp, key + 0x100);
    Parts8Of9From3(s, cp, key);
  }
  lemma Parts8Of9From1(s: seq<real>, cp: seq<real>, key: nat)
    requires |s| == 16 && |cp| == 16
    ensures ExpandFrom(s, cp, 8, 9, key, 1) == 8.0 * Leaf(s, cp, key + 0x170)
  {
    RadixTable();
    ExpandStepAt(s, cp, 8, 9, key, 1, key + 0x10);
    Parts7Of8(s, cp, key + 0x10);
    Parts8Of9From2(s, cp, key);
  }
  lemma Parts8Of9(s: seq<real>, cp: seq<real>, key: nat)
    requires |s| == 16 && |cp| == 16
    ensures Expand(s, cp, 8, 9, key) == 8.0 * Leaf(s, cp, key + 0x170)
  {
    Parts8Of9From1(s, cp, key);
  }
  lemma Parts9Of9From9(s: seq<real>, cp: seq<real>, key: nat)
    requires |s| == 16 && |cp| == 16
    ensures ExpandFrom(s, cp, 9, 9, key, 9) == 0.0
  {
    RadixTable();
    ExpandStepAt(s, cp, 9, 9, key, 9, key + 0x10_0000_0000);
    ExpandBelow(s, cp, 8, 0, key + 0x10_0000_0000);
    assert ExpandFrom(s, cp, 9, 9, key, 10) == 0.0;
  }
  lemma Parts9Of9From8(s: seq<real>, cp: seq<real>, key: nat)
    requires |s| == 16 && |cp| == 16
    ensures ExpandFrom(s, cp, 9, 9, key, 8) == 0.0
  {
    RadixTable();
    ExpandStepAt(s, cp, 9, 9, key, 8, key + 0x1_0000_0000);
    ExpandBelow(s, cp, 8, 1, key + 0x1_0000_0000);
    Parts9Of9From9(s, cp, key);
  }
  lemma Parts9Of9From7(s: seq<real>, cp: seq<real>, key: nat)
    requires |s| == 16 && |cp| == 16
    ensures ExpandFrom(s, cp, 9, 9, key, 7) == 0.0
  {
    RadixTable();
    ExpandStepAt(s, cp, 9, 9, key, 7, key + 0x1000_0000);
    ExpandBelow(s, cp, 8, 2, key + 0x1000_0000);
    Parts9Of9From8(s, cp, key);
  }
  lemma Parts9Of9From6(s: seq<real>, cp: seq<real>, key: nat)
    requires |s| == 16 && |cp| == 16
    ensures ExpandFrom(s, cp, 9, 9, key, 6) == 0.0
  {
    RadixTable();
    ExpandStepAt(s, cp, 9, 9, key, 6, key + 0x100_0000);
    ExpandBelow(s, cp, 8, 3, key + 0x100_0000);
    Parts9Of9From7(s, cp, key);
  }
  lemma Parts9Of9From5(s: seq<real>, cp: seq<real>, key: nat)
    requires |s| == 16 && |cp| == 16
    ensures ExpandFrom(s, cp, 9, 9, key, 5) == 0.0
  {
    RadixTable();
    ExpandStepAt(s, cp, 9, 9, key, 5, key + 0x10_0000);
    ExpandBelow(s, cp, 8, 4, key + 0x10_0000);
    Parts9Of9From6(s, cp, key);
  }
  lemma Parts9Of9From4(s: seq<real>, cp: seq<real>, key: nat)
    requires |s| == 16 && |cp| == 16
    ensures ExpandFrom(s, cp, 9, 9, key, 4) == 0.0
  {
    RadixTable();
    ExpandStepAt(s, cp, 9, 9, key, 4, key + 0x1_0000);
    ExpandBelow(s, cp, 8, 5, key + 0x1_0000);
    Parts9Of9From5(s, cp, key);
  }
  lemma Parts9Of9From3(s: seq<real>, cp: seq<real>, key: nat)
    requires |s| == 16 && |cp| == 16
    ensures ExpandFrom(s, cp, 9, 9, key, 3) == 0.0
  {
    RadixTable();
    ExpandStepAt(s, cp, 9, 9, key, 3, key + 0x1000);
    ExpandBelow(s, cp, 8, 6, key + 0x1000);
    Parts9Of9From4(s, cp, key);
  }
  lemma Parts9Of9From2(s: seq<real>, cp: seq<real>, key: nat)
    requires |s| == 16 && |cp| == 16
    ensures ExpandFrom(s, cp, 9, 9, key, 2) == 0.0
  {
    RadixTable();
    ExpandStepAt(s, cp, 9, 9, key, 2, key + 0x100);
    ExpandBelow(s, cp, 8, 7, key + 0x100);
    Parts9Of9From3(s, cp, key);
  }
  lemma Parts9Of9From1(s: seq<real>, cp: seq<real>, key: nat)
    requires |s| == 16 && |cp| == 16
    ensures ExpandFrom(s, cp, 9, 9, key, 1) == 1.0 * Leaf(s, cp, key + 0x90)
  {
    RadixTable();
    ExpandStepAt(s, cp, 9, 9, key, 1, key + 0x10);
    Parts8Of8(s, cp, key + 0x10);
    Parts9Of9From2(s, cp, key);
  }
  lemma Parts9Of9(s: seq<real>, cp: seq<real>, key: nat)
    requires |s| == 16 && |cp| == 16
    ensures Expand(s, cp, 9, 9, key) == 1.0 * Leaf(s, cp, key + 0x90)
  {
    Parts9Of9From1(s, cp, key);
  }
  lemma Parts1Of10From10(s: seq<real>, cp: seq<real>, key: nat)
    requires |s| == 16 && |cp| == 16
    ensures ExpandFrom(s, cp, 1, 10, key, 10) == 1.0 * Leaf(s, cp, key + 0x100_0000_0000)
  {
    RadixTable();
    ExpandStepAt(s, cp, 1, 10, key, 10, key + 0x100_0000_0000);
    assert Expand(s, cp, 0, 0, key + 0x100_0000_0000) == Leaf(s, cp, key + 0x100_0000_0000);
    assert ExpandFrom(s, cp, 1, 10, key, 11) == 0.0;
  }
  lemma Parts1Of10From9(s: seq<real>, cp: seq<real>, key: nat)
    requires |s| == 16 && |cp| == 16
    ensures ExpandFrom(s, cp, 1, 10, key, 9) == 1.0 * Leaf(s, cp, key + 0x100_0000_0000)
  {
    RadixTable();
    ExpandStepAt(s, cp, 1, 10, key, 9, key + 0x10_0000_0000);
    assert Expand(s, cp, 0, 1, key + 0x10_0000_0000) == 0.0;
    Parts1Of10From10(s, cp, key);
  }
  lemma Parts1Of10From8(s: seq<real>, cp: seq<real>, key: nat)
    requires |s| == 16 && |cp| == 16
    ensures ExpandFrom(s, cp, 1, 10, key, 8) == 1.0 * Leaf(s, cp, key + 0x100_0000_0000)
  {
    RadixTable();
    ExpandStepAt(s, cp, 1, 10, key, 8, key + 0x1_0000_0000);
    assert Expand(s, cp, 0, 2, key + 0x1_0000_0000) == 0.0;
    Parts1Of10From9(s, cp, key);
  }
  lemma Parts1Of10From7(s: seq<real>, cp: seq<real>, key: nat)
    requires |s| == 16 && |cp| == 16
    ensures ExpandFrom(s, cp, 1, 10, key, 7) == 1.0 * Leaf(s, cp, key + 0x100_0000_0000)
  {
    RadixTable();
    ExpandStepAt(s, cp, 1, 10, key, 7, key + 0x1000_0000);
    assert Expand(s, cp, 0, 3, key + 0x1000_0000) == 0.0;
    Parts1Of10From8(s, cp, key);
  }
  lemma Parts1Of10From6(s: seq<real>, cp: seq<real>, key: nat)
    requires |s| == 16 && |cp| == 16
    ensures ExpandFrom(s, cp, 1, 10, key, 6) == 1.0 * Leaf(s, cp, key + 0x100_0000_0000)
  {
    RadixTable();
    ExpandStepAt(s, cp, 1, 10, key, 6, key + 0x100_0000);
    assert Expand(s, cp, 0, 4, key + 0x100_0000) == 0.0;
    Parts1Of10From7(s, cp, key);
  }
  lemma Parts1Of10From5(s: seq<real>, cp: seq<real>, key: nat)
    requires |s| == 16 && |cp| == 16
    ensures ExpandFrom(s, cp, 1, 10, key, 5) == 1.0 * Leaf(s, cp, key + 0x100_0000_0000)
  {
    RadixTable();
    ExpandStepAt(s, cp, 1, 10, key, 5, key + 0x10_0000);
    assert Expand(s, cp, 0, 5, key + 0x10_0000) == 0.0;
    Parts1Of10From6(s, cp, key);
  }
  lemma Parts1Of10From4(s: seq<real>, cp: seq<real>, key: nat)
    requires |s| == 16 && |cp| == 16
    ensures ExpandFrom(s, cp, 1, 10, key, 4) == 1.0 * Leaf(s, cp, key + 0x100_0000_0000)
  {
    RadixTable();
    ExpandStepAt(s, cp, 1, 10, key, 4, key + 0x1_0000);
    assert Expand(s, cp, 0, 6, key + 0x1_0000) == 0.0;
    Parts1Of10From5(s, cp, key);
  }
  lemma Parts1Of10From3(s: seq<real>, cp: seq<real>, key: nat)
    requires |s| == 16 && |cp| == 16
    ensures ExpandFrom(s, cp, 1, 10, key, 3) == 1.0 * Leaf(s, cp, key + 0x100_0000_0000)
  {
    RadixTable();
    ExpandStepAt(s, cp, 1, 10, key, 3, key + 0x1000);
    assert Expand(s, cp, 0, 7, key + 0x1000) == 0.0;
    Parts1Of10From4(s, cp, key);
  }
  lemma Parts1Of10From2(s: seq<real>, cp: seq<real>, key: nat)
    requires |s| == 16 && |cp| == 16
    ensures ExpandFrom(s, cp, 1, 10, key, 2) == 1.0 * Leaf(s, cp, key + 0x100_0000_0000)
  {
    RadixTable();
    ExpandStepAt(s, cp, 1, 10, key, 2, key + 0x100);
    assert Expand(s, cp, 0, 8, key + 0x100) == 0.0;
    Parts1Of10From3(s, cp, key);
  }
  lemma Parts1Of10From1(s: seq<real>, cp: seq<real>, key: nat)
    requires |s| == 16 && |cp| == 16
    ensures ExpandFrom(s, cp, 1, 10, key, 1) == 1.0 * Leaf(s, cp, key + 0x100_0000_0000)
  {
    RadixTable();
    ExpandStepAt(s, cp, 1, 10, key, 1, key + 0x10);
    assert Expand(s, cp, 0, 9, key + 0x10) == 0.0;
    Parts1Of10From2(s, cp, key);
  }
  lemma Parts1Of10(s: seq<real>, cp: seq<real>, key: nat)
    requires |s| == 16 && |cp| == 16
    ensures Expand(s, cp, 1, 10, key) == 1.0 * Leaf(s, cp, key + 0x100_0000_0000)
  {
    Parts1Of10From1(s, cp, key);
  }
  lemma Parts2Of10From10(s: seq<real>, cp: seq<real>, key: nat)
    requires |s| == 16 && |cp| == 16
    ensures ExpandFrom(s, cp, 2, 10, key, 10) == 0.0
  {
    RadixTable();
    ExpandStepAt(s, cp, 2, 10, key, 10, key + 0x100_0000_0000);
    ExpandBelow(s, cp, 1, 0, key + 0x100_0000_0000);
    assert ExpandFrom(s, cp, 2, 10, key, 11) == 0.0;
  }
  lemma Parts2Of10From9(s: seq<real>, cp: seq<real>, key: nat)
    requires |s| == 16 && |cp| == 16
    ensures ExpandFrom(s, cp, 2, 10, key, 9) == 1.0 * Leaf(s, cp, key + 0x10_0000_0010)
  {
    RadixTable();
    ExpandStepAt(s, cp, 2, 10, key, 9, key + 0x10_0000_0000);
    Parts1Of1(s, cp, key + 0x10_0000_0000);
    Parts2Of10From10(s, cp, key);
  }
  lemma Parts2Of10From8(s: seq<real>, cp: seq<real>, key: nat)
    requires |s| == 16 && |cp| == 16
    ensures ExpandFrom(s, cp, 2, 10, key, 8) == 1.0 * Leaf(s, cp, key + 0x1_0000_0100) + 1.0 * Leaf(s, cp, key + 0x10_0000_0010)
  {
    RadixTable();
    ExpandStepAt(s, cp, 2, 10, key, 8, key + 0x1_0000_0000);
    Parts1Of2(s, cp, key + 0x1_0000_0000);
    Parts2Of10From9(s, cp, key);
  }
  lemma Parts2Of10From7(s: seq<real>, cp: seq<real>, key: nat)
    requires |s| == 16 && |cp| == 16
    ensures ExpandFrom(s, cp, 2, 10, key, 7) == 1.0 * Leaf(s, cp, key + 0x1000_1000) + 1.0 * Leaf(s, cp, key + 0x1_0000_0100) + 1.0 * Leaf(s, cp, key + 0x10_0000_0010)
  {
    RadixTable();
    ExpandStepAt(s, cp, 2, 10, key, 7, key + 0x1000_0000);
    Parts1Of3(s, cp, key + 0x1000_0000);
    Parts2Of10From8(s, cp, key);
  }
  lemma Parts2Of10From6(s: seq<real>, cp: seq<real>, key: nat)
    requires |s| == 16 && |cp| == 16
    ensures ExpandFrom(s, cp, 2, 10, key, 6) == 1.0 * Leaf(s, cp, key + 0x101_0000) + 1.0 * Leaf(s, cp, key + 0x1000_1000) + 1.0 * Leaf(s, cp, key + 0x1_0000_0100) + 1.0 * Leaf(s, cp, key + 0x10_0000_0010)
  {
    RadixTable();
    ExpandStepAt(s, cp, 2, 10, key, 6, key + 0x100_0000);
    Parts1Of4(s, cp, key + 0x100_0000);
    Parts2Of10From7(s, cp, key);
  }
  lemma Parts2Of10From5(s: seq<real>, cp: seq<real>, key: nat)
    requires |s| == 16 && |cp| == 16
    ensures ExpandFrom(s, cp, 2, 10, key, 5) == 1.0 * Leaf(s, cp, key + 0x20_0000) + 1.0 * Leaf(s, cp, key + 0x101_0000) + 1.0 * Leaf(s, cp, key + 0x1000_1000) + 1.0 * Leaf(s, cp, key + 0x1_0000_0100) + 1.0 * Leaf(s, cp, key + 0x10_0000_0010)
  {
    RadixTable();
    ExpandStepAt(s, cp, 2, 10, key, 5, key + 0x10_0000);
    Parts1Of5(s, cp, key + 0x10_0000);
    Parts2Of10From6(s, cp, key);
  }
  lemma Parts2Of10From4(s: seq<real>, cp: seq<real>, key: nat)
    requires |s| == 16 && |cp| == 16
    ensures ExpandFrom(s, cp, 2, 10, key, 4) == 1.0 * Leaf(s, cp, key + 0x20_0000) + 2.0 * Leaf(s, cp, key + 0x101_0000) + 1.0 * Leaf(s, cp, key + 0x1000_1000) + 1.0 * Leaf(s, cp, key + 0x1_0000_0100) + 1.0 * Leaf(s, cp, key + 0x10_0000_0010)
  {
    RadixTable();
    ExpandStepAt(s, cp, 2, 10, key, 4, key + 0x1_0000);
    Parts1Of6(s, cp, key + 0x1_0000);
    Parts2Of10From5(s, cp, key);
  }
  lemma Parts2Of10From3(s: seq<real>, cp: seq<real>, key: nat)
    requires |s| == 16 && |cp| == 16
    ensures ExpandFrom(s, cp, 2, 10, key, 3) == 1.0 * Leaf(s, cp, key + 0x20_0000) + 2.0 * Leaf(s, cp, key + 0x101_0000) + 2.0 * Leaf(s, cp, key + 0x1000_1000) + 1.0 * Leaf(s, cp, key + 0x1_0000_0100) + 1.0 * Leaf(s, cp, key + 0x10_0000_0010)
  {
    RadixTable();
    ExpandStepAt(s, cp, 2, 10, key, 3, key + 0x1000);
    Parts1Of7(s, cp, key + 0x1000);
    Parts2Of10From4(s, cp, key);
  }
  lemma Parts2Of10From2(s: seq<real>, cp: seq<real>, key: nat)
    requires |s| == 16 && |cp| == 16
    ensures ExpandFrom(s, cp, 2, 10, key, 2) == 1.0 * Leaf(s, cp, key + 0x20_0000) + 2.0 * Leaf(s, cp, key + 0x101_0000) + 2.0 * Leaf(s, cp, key + 0x1000_1000) + 2.0 * Leaf(s, cp, key + 0x1_0000_0100) + 1.0 * Leaf(s, cp, key + 0x10_0000_0010)
  {
    RadixTable();
    ExpandStepAt(s, cp, 2, 10, key, 2, key + 0x100);
    Parts1Of8(s, cp, key + 0x100);
    Parts2Of10From3(s, cp, key);
  }
  lemma Parts2Of10From1(s: seq<real>, cp: seq<real>, key: nat)
    requires |s| == 16 && |cp| == 16
    ensures ExpandFrom(s, cp, 2, 10, key, 1) == 1.0 * Leaf(s, cp, key + 0x20_0000) + 2.0 * Leaf(s, cp, key + 0x101_0000) + 2.0 * Leaf(s, cp, key + 0x1000_1000) + 2.0 * Leaf(s, cp, key + 0x1_0000_0100) + 2.0 * Leaf(s, cp, key + 0x10_0000_0010)
  {
    RadixTable();
    ExpandStepAt(s, cp, 2, 10, key, 1, key + 0x10);
    Parts1Of9(s, cp, key + 0x10);
    Parts2Of10From2(s, cp, key);
  }
  lemma Parts2Of10(s: seq<real>, cp: seq<real>, key: nat)
    requires |s| == 16 && |cp| == 16
    ensures Expand(s, cp, 2, 10, key) == 1.0 * Leaf(s, cp, key + 0x20_0000) + 2.0 * Leaf(s, cp, key + 0x101_0000) + 2.0 * Leaf(s, cp, key + 0x1000_1000) + 2.0 * Leaf(s, cp, key + 0x1_0000_0100) + 2.0 * Leaf(s, cp, key + 0x10_0000_0010)
  {
    Parts2Of10From1(s, cp, key);
  }
  lemma Parts3Of10From10(s: seq<real>, cp: seq<real>, key: nat)
    requires |s| == 16 && |cp| == 16
    ensures ExpandFrom(s, cp, 3, 10, key, 10) == 0.0
  {
    RadixTable();
    ExpandStepAt(s, cp, 3, 10, key, 10, key + 0x100_0000_0000);
    ExpandBelow(s, cp, 2, 0, key + 0x100_0000_0000);
    assert ExpandFrom(s, cp, 3, 10, key, 11) == 0.0;
  }
  lemma Parts3Of10From9(s: seq<real>, cp: seq<real>, key: nat)
    requires |s| == 16 && |cp| == 16
    ensures ExpandFrom(s, cp, 3, 10, key, 9) == 0.0
  {
    RadixTable();
    ExpandStepAt(s, cp, 3, 10, key, 9, key + 0x10_0000_0000);
    ExpandBelow(s, cp, 2, 1, key + 0x10_0000_0000);
    Parts3Of10From10(s, cp, key);
  }
  lemma Parts3Of10From8(s: seq<real>, cp: seq<real>, key: nat)
    requires |s| == 16 && |cp| == 16
    ensures ExpandFrom(s, cp, 3, 10, key, 8) == 1.0 * Leaf(s, cp, key + 0x1_0000_0020)
  {
    RadixTable();
    ExpandStepAt(s, cp, 3, 10, key, 8, key + 0x1_0000_0000);
    Parts2Of2(s, cp, key + 0x1_0000_0000);
    Parts3Of10From9(s, cp, key);
  }
  lemma Parts3Of10From7(s: seq<real>, cp: seq<real>, key: nat)
    requires |s| == 16 && |cp| == 16
    ensures ExpandFrom(s, cp, 3, 10, key, 7) == 2.0 * Leaf(s, cp, key + 0x1000_0110) + 1.0 * Leaf(s, cp, key + 0x1_0000_0020)
  {
    RadixTable();
    ExpandStepAt(s, cp, 3, 10, key, 7, key + 0x1000_0000);
    Parts2Of3(s, cp, key + 0x1000_0000);
    Parts3Of10From8(s, cp, key);
  }
  lemma Parts3Of10From6(s: seq<real>, cp: seq<real>, key: nat)
    requires |s| == 16 && |cp| == 16
    ensures ExpandFrom(s, cp, 3, 10, key, 6) == 1.0 * Leaf(s, cp, key + 0x100_0200) + 2.0 * Leaf(s, cp, key + 0x100_1010) + 2.0 * Leaf(s, cp, key + 0x1000_0110) + 1.0 * Leaf(s, cp, key + 0x1_0000_0020)
  {
    RadixTable();
    ExpandStepAt(s, cp, 3, 10, key, 6, key + 0x100_0000);
    Parts2Of4(s, cp, key + 0x100_0000);
    Parts3Of10From7(s, cp, key);
  }
  lemma Parts3Of10From5(s: seq<real>, cp: seq<real>, key: nat)
    requires |s| == 16 && |cp| == 16
    ensures ExpandFrom(s, cp, 3, 10, key, 5) == 2.0 * Leaf(s, cp, key + 0x10_1100) + 2.0 * Leaf(s, cp, key + 0x11_0010) + 1.0 * Leaf(s, cp, key + 0x100_0200) + 2.0 * Leaf(s, cp, key + 0x100_1010) + 2.0 * Leaf(s, cp, key + 0x1000_0110) + 1.0 * Leaf(s, cp, key + 0x1_0000_0020)
  {
    RadixTable();
    ExpandStepAt(s, cp, 3, 10, key, 5, key + 0x10_0000);
    Parts2Of5(s, cp, key + 0x10_0000);
    Parts3Of10From6(s, cp, key);
  }
  lemma Parts3Of10From4(s: seq<real>, cp: seq<real>, key: nat)
    requires |s| == 16 && |cp| == 16
    ensures ExpandFrom(s, cp, 3, 10, key, 4) == 1.0 * Leaf(s, cp, key + 0x1_2000) + 2.0 * Leaf(s, cp, key + 0x2_0100) + 2.0 * Leaf(s, cp, key + 0x10_1100) + 4.0 * Leaf(s, cp, key + 0x11_0010) + 1.0 * Leaf(s, cp, key + 0x100_0200) + 2.0 * Leaf(s, cp, key + 0x100_1010) + 2.0 * Leaf(s, cp, key + 0x1000_0110) + 1.0 * Leaf(s, cp, key + 0x1_0000_0020)
  {
    RadixTable();
    ExpandStepAt(s, cp, 3, 10, key, 4, key + 0x1_0000);
    Parts2Of6(s, cp, key + 0x1_0000);
    Parts3Of10From5(s, cp, key);
  }
  lemma Parts3Of10From3(s: seq<real>, cp: seq<real>, key: nat)
    requires |s| == 16 && |cp| == 16
    ensures ExpandFrom(s, cp, 3, 10, key, 3) == 3.0 * Leaf(s, cp, key + 0x1_2000) + 2.0 * Leaf(s, cp, key + 0x2_0100) + 4.0 * Leaf(s, cp, key + 0x10_1100) + 4.0 * Leaf(s, cp, key + 0x11_0010) + 1.0 * Leaf(s, cp, key + 0x100_0200) + 4.0 * Leaf(s, cp, key + 0x100_1010) + 2.0 * Leaf(s, cp, key + 0x1000_0110) + 1.0 * Leaf(s, cp, key + 0x1_0000_0020)
  {
    RadixTable();
    ExpandStepAt(s, cp, 3, 10, key, 3, key + 0x1000);
    Parts2Of7(s, cp, key + 0x1000);
    Parts3Of10From4(s, cp, key);
  }
  lemma Parts3Of10From2(s: seq<real>, cp: seq<real>, key: nat)
    requires |s| == 16 && |cp| == 16
    ensures ExpandFrom(s, cp, 3, 10, key, 2) == 3.0 * Leaf(s, cp, key + 0x1_2000) + 3.0 * Leaf(s, cp, key + 0x2_0100) + 6.0 * Leaf(s, cp, key + 0x10_1100) + 4.0 * Leaf(s, cp, key + 0x11_0010) + 3.0 * Leaf(s, cp, key + 0x100_0200) + 4.0 * Leaf(s, cp, key + 0x100_1010) + 4.0 * Leaf(s, cp, key + 0x1000_0110) + 1.0 * Leaf(s, cp, key + 0x1_0000_0020)
  {
    RadixTable();
    ExpandStepAt(s, cp, 3, 10, key, 2, key + 0x100);
    Parts2Of8(s, cp, key + 0x100);
    Parts3Of10From3(s, cp, key);
  }
  lemma Parts3Of10From1(s: seq<real>, cp: seq<real>, key: nat)
    requires |s| == 16 && |cp| == 16
    ensures ExpandFrom(s, cp, 3, 10, key, 1) == 3.0 * Leaf(s, cp, key + 0x1_2000) + 3.0 * Leaf(s, cp, key + 0x2_0100) + 6.0 * Leaf(s, cp, key + 0x10_1100) + 6.0 * Leaf(s, cp, key + 0x11_0010) + 3.0 * Leaf(s, cp, key + 0x100_0200) + 6.0 * Leaf(s, cp, key + 0x100_1010) + 6.0 * Leaf(s, cp, key + 0x1000_0110) + 3.0 * Leaf(s, cp, key + 0x1_0000_0020)
  {
    RadixTable();
    ExpandStepAt(s, cp, 3, 10, key, 1, key + 0x10);
    Parts2Of9(s, cp, key + 0x10);
    Parts3Of10From2(s, cp, key);
  }
  lemma Parts3Of10(s: seq<real>, cp: seq<real>, key: nat)
    requires |s| == 16 && |cp| == 16
    ensures Expand(s, cp, 3, 10, key) == 3.0 * Leaf(s, cp, key + 0x1_2000) + 3.0 * Leaf(s, cp, key + 0x2_0100) + 6.0 * Leaf(s, cp, key + 0x10_1100) + 6.0 * Leaf(s, cp, key + 0x11_0010) + 3.0 * Leaf(s, cp, key + 0x100_0200) + 6.0 * Leaf(s, cp, key + 0x100_1010) + 6.0 * Leaf(s, cp, key + 0x1000_0110) + 3.0 * Leaf(s, cp, key + 0x1_0000_0020)
  {
    Parts3Of10From1(s, cp, key);
  }
  lemma Parts4Of10From10(s: seq<real>, cp: seq<real>, key: nat)
    requires |s| == 16 && |cp| == 16
    ensures ExpandFrom(s, cp, 4, 10, key, 10) == 0.0
  {
    RadixTable();
    ExpandStepAt(s, cp, 4, 10, key, 10, key + 0x100_0000_0000);
    ExpandBelow(s, cp, 3, 0, key + 0x100_0000_0000);
    assert ExpandFrom(s, cp, 4, 10, key, 11) == 0.0;
  }
  lemma Parts4Of10From9(s: seq<real>, cp: seq<real>, key: nat)
    requires |s| == 16 && |cp| == 16
    ensures ExpandFrom(s, cp, 4, 10, key, 9) == 0.0
  {
    RadixTable();
    ExpandStepAt(s, cp, 4, 10, key, 9, key + 0x10_0000_0000);
    ExpandBelow(s, cp, 3, 1, key + 0x10_0000_0000);
    Parts4Of10From10(s, cp, key);
  }
  lemma Parts4Of10From8(s: seq<real>, cp: seq<real>, key: nat)
    requires |s| == 16 && |cp| == 16
    ensures ExpandFrom(s, cp, 4, 10, key, 8) == 0.0
  {
    RadixTable();
    ExpandStepAt(s, cp, 4, 10, key, 8, key + 0x1_0000_0000);
    ExpandBelow(s, cp, 3, 2, key + 0x1_0000_0000);
    Parts4Of10From9(s, cp, key);
  }
  lemma Parts4Of10From7(s: seq<real>, cp: seq<real>, key: nat)
    requires |s| == 16 && |cp| == 16
    ensures ExpandFrom(s, cp, 4, 10, key, 7) == 1.0 * Leaf(s, cp, key + 0x1000_0030)
  {
    RadixTable();
    ExpandStepAt(s, cp, 4, 10, key, 7, key + 0x1000_0000);
    Parts3Of3(s, cp, key + 0x1000_0000);
    Parts4Of10From8(s, cp, key);
  }
  lemma Parts4Of10From6(s: seq<real>, cp: seq<real>, key: nat)
    requires |s| == 16 && |cp| == 16
    ensures ExpandFrom(s, cp, 4, 10, key, 6) == 3.0 * Leaf(s, cp, key + 0x100_0120) + 1.0 * Leaf(s, cp, key + 0x1000_0030)
  {
    RadixTable();
    ExpandStepAt(s, cp, 4, 10, key, 6, key + 0x100_0000);
    Parts3Of4(s, cp, key + 0x100_0000);
    Parts4Of10From7(s, cp, key);
  }
  lemma Parts4Of10From5(s: seq<real>, cp: seq<real>, key: nat)
    requires |s| == 16 && |cp| == 16
    ensures ExpandFrom(s, cp, 4, 10, key, 5) == 3.0 * Leaf(s, cp, key + 0x10_0210) + 3.0 * Leaf(s, cp, key + 0x10_1020) + 3.0 * Leaf(s, cp, key + 0x100_0120) + 1.0 * Leaf(s, cp, key + 0x1000_0030)
  {
    RadixTable();
    ExpandStepAt(s, cp, 4, 10, key, 5, key + 0x10_0000);
    Parts3Of5(s, cp, key + 0x10_0000);
    Parts4Of10From6(s, cp, key);
  }
  lemma Parts4Of10From4(s: seq<real>, cp: seq<real>, key: nat)
    requires |s| == 16 && |cp| == 16
    ensures ExpandFrom(s, cp, 4, 10, key, 4) == 1.0 * Leaf(s, cp, key + 0x1_0300) + 6.0 * Leaf(s, cp, key + 0x1_1110) + 3.0 * Leaf(s, cp, key + 0x2_0020) + 3.0 * Leaf(s, cp, key + 0x10_0210) + 3.0 * Leaf(s, cp, key + 0x10_1020) + 3.0 * Leaf(s, cp, key + 0x100_0120) + 1.0 * Leaf(s, cp, key + 0x1000_0030)
  {
    RadixTable();
    ExpandStepAt(s, cp, 4, 10, key, 4, key + 0x1_0000);
    Parts3Of6(s, cp, key + 0x1_0000);
    Parts4Of10From5(s, cp, key);
  }
  lemma Parts4Of10From3(s: seq<real>, cp: seq<real>, key: nat)
    requires |s| == 16 && |cp| == 16
    ensures ExpandFrom(s, cp, 4, 10, key, 3) == 3.0 * Leaf(s, cp, key + 0x2200) + 3.0 * Leaf(s, cp, key + 0x3010) + 1.0 * Leaf(s, cp, key + 0x1_0300) + 12.0 * Leaf(s, cp, key + 0x1_1110) + 3.0 * Leaf(s, cp, key + 0x2_0020) + 3.0 * Leaf(s, cp, key + 0x10_0210) + 6.0 * Leaf(s, cp, key + 0x10_1020) + 3.0 * Leaf(s, cp, key + 0x100_0120) + 1.0 * Leaf(s, cp, key + 0x1000_0030)
  {
    RadixTable();
    ExpandStepAt(s, cp, 4, 10, key, 3, key + 0x1000);
    Parts3Of7(s, cp, key + 0x1000);
    Parts4Of10From4(s, cp, key);
  }
  lemma Parts4Of10From2(s: seq<real>, cp: seq<real>, key: nat)
    requires |s| == 16 && |cp| == 16
    ensures ExpandFrom(s, cp, 4, 10, key, 2) == 6.0 * Leaf(s, cp, key + 0x2200) + 3.0 * Leaf(s, cp, key + 0x3010) + 4.0 * Leaf(s, cp, key + 0x1_0300) + 18.0 * Leaf(s, cp, key + 0x1_1110) + 3.0 * Leaf(s, cp, key + 0x2_0020) + 9.0 * Leaf(s, cp, key + 0x10_0210) + 6.0 * Leaf(s, cp, key + 0x10_1020) + 6.0 * Leaf(s, cp, key + 0x100_0120) + 1.0 * Leaf(s, cp, key + 0x1000_0030)
  {
    RadixTable();
    ExpandStepAt(s, cp, 4, 10, key, 2, key + 0x100);
    Parts3Of8(s, cp, key + 0x100);
    Parts4Of10From3(s, cp, key);
  }
  lemma Parts4Of10From1(s: seq<real>, cp: seq<real>, key: nat)
    requires |s| == 16 && |cp| == 16
    ensures ExpandFrom(s, cp, 4, 10, key, 1) == 6.0 * Leaf(s, cp, key + 0x2200) + 4.0 * Leaf(s, cp, key + 0x3010) + 4.0 * Leaf(s, cp, key + 0x1_0300) + 24.0 * Leaf(s, cp, key + 0x1_1110) + 6.0 * Leaf(s, cp, key + 0x2_0020) + 12.0 * Leaf(s, cp, key + 0x10_0210) + 12.0 * Leaf(s, cp, key + 0x10_1020) + 12.0 * Leaf(s, cp, key + 0x100_0120) + 4.0 * Leaf(s, cp, key + 0x1000_0030)
  {
    RadixTable();
    ExpandStepAt(s, cp, 4, 10, key, 1, key + 0x10);
    Parts3Of9(s, cp, key + 0x10);
    Parts4Of10From2(s, cp, key);
  }
  lemma Parts4Of10(s: seq<real>, cp: seq<real>, key: nat)
    requires |s| == 16 && |cp| == 16
    ensures Expand(s, cp, 4, 10, key) == 6.0 * Leaf(s, cp, key + 0x2200) + 4.0 * Leaf(s, cp, key + 0x3010) + 4.0 * Leaf(s, cp, key + 0x1_0300) + 24.0 * Leaf(s, cp, key + 0x1_1110) + 6.0 * Leaf(s, cp, key + 0x2_0020) + 12.0 * Leaf(s, cp, key + 0x10_0210) + 12.0 * Leaf(s, cp, key + 0x10_1020) + 12.0 * Leaf(s, cp, key + 0x100_0120) + 4.0 * Leaf(s, cp, key + 0x1000_0030)
  {
    Parts4Of10From1(s, cp, key);
  }
  lemma Parts5Of10From10(s: seq<real>, cp: seq<real>, key: nat)
    requires |s| == 16 && |cp| == 16
    ensures ExpandFrom(s, cp, 5, 10, key, 10) == 0.0
  {
    RadixTable();
    ExpandStepAt(s, cp, 5, 10, key, 10, key + 0x100_0000_0000);
    ExpandBelow(s, cp, 4, 0, key + 0x100_0000_0000);
    assert ExpandFrom(s, cp, 5, 10, key, 11) == 0.0;
  }
  lemma Parts5Of10From9(s: seq<real>, cp: seq<real>, key: nat)
    requires |s| == 16 && |cp| == 16
    ensures ExpandFrom(s, cp, 5, 10, key, 9) == 0.0
  {
    RadixTable();
    ExpandStepAt(s, cp, 5, 10, key, 9, key + 0x10_0000_0000);
    ExpandBelow(s, cp, 4, 1, key + 0x10_0000_0000);
    Parts5Of10From10(s, cp, key);
  }
  lemma Parts5Of10From8(s: seq<real>, cp: seq<real>, key: nat)
    requires |s| == 16 && |cp| == 16
    ensures ExpandFrom(s, cp, 5, 10, key, 8) == 0.0
  {
    RadixTable();
    ExpandStepAt(s, cp, 5, 10, key, 8, key + 0x1_0000_0000);
    ExpandBelow(s, cp, 4, 2, key + 0x1_0000_0000);
    Parts5Of10From9(s, cp, key);
  }
  lemma Parts5Of10From7(s: seq<real>, cp: seq<real>, key: nat)
    requires |s| == 16 && |cp| == 16
    ensures ExpandFrom(s, cp, 5, 10, key, 7) == 0.0
  {
    RadixTable();
    ExpandStepAt(s, cp, 5, 10, key, 7, key + 0x1000_0000);
    ExpandBelow(s, cp, 4, 3, key + 0x1000_0000);
    Parts5Of10From8(s, cp, key);
  }
  lemma Parts5Of10From6(s: seq<real>, cp: seq<real>, key: nat)
    requires |s| == 16 && |cp| == 16
    ensures ExpandFrom(s, cp, 5, 10, key, 6) == 1.0 * Leaf(s, cp, key + 0x100_0040)
  {
    RadixTable();
    ExpandStepAt(s, cp, 5, 10, key, 6, key + 0x100_0000);
    Parts4Of4(s, cp, key + 0x100_0000);
    Parts5Of10From7(s, cp, key);
  }
  lemma Parts5Of10From5(s: seq<real>, cp: seq<real>, key: nat)
    requires |s| == 16 && |cp| == 16
    ensures ExpandFrom(s, cp, 5, 10, key, 5) == 4.0 * Leaf(s, cp, key + 0x10_0130) + 1.0 * Leaf(s, cp, key + 0x100_0040)
  {
    RadixTable();
    ExpandStepAt(s, cp, 5, 10, key, 5, key + 0x10_0000);
    Parts4Of5(s, cp, key + 0x10_0000);
    Parts5Of10From6(s, cp, key);
  }
  lemma Parts5Of10From4(s: seq<real>, cp: seq<real>, key: nat)
    requires |s| == 16 && |cp| == 16
    ensures ExpandFrom(s, cp, 5, 10, key, 4) == 6.0 * Leaf(s, cp, key + 0x1_0220) + 4.0 * Leaf(s, cp, key + 0x1_1030) + 4.0 * Leaf(s, cp, key + 0x10_0130) + 1.0 * Leaf(s, cp, key + 0x100_0040)
  {
    RadixTable();
    ExpandStepAt(s, cp, 5, 10, key, 4, key + 0x1_0000);
    Parts4Of6(s, cp, key + 0x1_0000);
    Parts5Of10From5(s, cp, key);
  }
  lemma Parts5Of10From3(s: seq<real>, cp: seq<real>, key: nat)
    requires |s| == 16 && |cp| == 16
    ensures ExpandFrom(s, cp, 5, 10, key, 3) == 4.0 * Leaf(s, cp, key + 0x1310) + 12.0 * Leaf(s, cp, key + 0x2120) + 6.0 * Leaf(s, cp, key + 0x1_0220) + 8.0 * Leaf(s, cp, key + 0x1_1030) + 4.0 * Leaf(s, cp, key + 0x10_0130) + 1.0 * Leaf(s, cp, key + 0x100_0040)
  {
    RadixTable();
    ExpandStepAt(s, cp, 5, 10, key, 3, key + 0x1000);
    Parts4Of7(s, cp, key + 0x1000);
    Parts5Of10From4(s, cp, key);
  }
  lemma Parts5Of10From2(s: seq<real>, cp: seq<real>, key: nat)
    requires |s| == 16 && |cp| == 16
    ensures ExpandFrom(s, cp, 5, 10, key, 2) == 1.0 * Leaf(s, cp, key + 0x500) + 16.0 * Leaf(s, cp, key + 0x1310) + 18.0 * Leaf(s, cp, key + 0x2120) + 18.0 * Leaf(s, cp, key + 0x1_0220) + 8.0 * Leaf(s, cp, key + 0x1_1030) + 8.0 * Leaf(s, cp, key + 0x10_0130) + 1.0 * Leaf(s, cp, key + 0x100_0040)
  {
    RadixTable();
    ExpandStepAt(s, cp, 5, 10, key, 2, key + 0x100);
    Parts4Of8(s, cp, key + 0x100);
    Parts5Of10From3(s, cp, key);
  }
  lemma Parts5Of10From1(s: seq<real>, cp: seq<real>, key: nat)
    requires |s| == 16 && |cp| == 16
    ensures ExpandFrom(s, cp, 5, 10, key, 1) == 1.0 * Leaf(s, cp, key + 0x500) + 20.0 * Leaf(s, cp, key + 0x1310) + 30.0 * Leaf(s, cp, key + 0x2120) + 30.0 * Leaf(s, cp, key + 0x1_0220) + 20.0 * Leaf(s, cp, key + 0x1_1030) + 20.0 * Leaf(s, cp, key + 0x10_0130) + 5.0 * Leaf(s, cp, key + 0x100_0040)
  {
    RadixTable();
    ExpandStepAt(s, cp, 5, 10, key, 1, key + 0x10);
    Parts4Of9(s, cp, key + 0x10);
    Parts5Of10From2(s, cp, key);
  }
  lemma Parts5Of10(s: seq<real>, cp: seq<real>, key: nat)
    requires |s| == 16 && |cp| == 16
    ensures Expand(s, cp, 5, 10, key) == 1.0 * Leaf(s, cp, key + 0x500) + 20.0 * Leaf(s, cp, key + 0x1310) + 30.0 * Leaf(s, cp, key + 0x2120) + 30.0 * Leaf(s, cp, key + 0x1_0220) + 20.0 * Leaf(s, cp, key + 0x1_1030) + 20.0 * Leaf(s, cp, key + 0x10_0130) + 5.0 * Leaf(s, cp, key + 0x100_0040)
  {
    Parts5Of10From1(s, cp, key);
  }
  lemma Parts6Of10From10(s: seq<real>, cp: seq<real>, key: nat)
    requires |s| == 16 && |cp| == 16
    ensures ExpandFrom(s, cp, 6, 10, key, 10) == 0.0
  {
    RadixTable();
    ExpandStepAt(s, cp, 6, 10, key, 10, key + 0x100_0000_0000);
    ExpandBelow(s, cp, 5, 0, key + 0x100_0000_0000);
    assert ExpandFrom(s, cp, 6, 10, key, 11) == 0.0;
  }
  lemma Parts6Of10From9(s: seq<real>, cp: seq<real>, key: nat)
    requires |s| == 16 && |cp| == 16
    ensures ExpandFrom(s, cp, 6, 10, key, 9) == 0.0
  {
    RadixTable();
    ExpandStepAt(s, cp, 6, 10, key, 9, key + 0x10_0000_0000);
    ExpandBelow(s, cp, 5, 1, key + 0x10_0000_0000);
    Parts6Of10From10(s, cp, key);
  }
  lemma Parts6Of10From8(s: seq<real>, cp: seq<real>, key: nat)
    requires |s| == 16 && |cp| == 16
    ensures ExpandFrom(s, cp, 6, 10, key, 8) == 0.0
  {
    RadixTable();
    ExpandStepAt(s, cp, 6, 10, key, 8, key + 0x1_0000_0000);
    ExpandBelow(s, cp, 5, 2, key + 0x1_0000_0000);
    Parts6Of10From9(s, cp, key);
  }
  lemma Parts6Of10From7(s: seq<real>, cp: seq<real>, key: nat)
    requires |s| == 16 && |cp| == 16
    ensures ExpandFrom(s, cp, 6, 10, key, 7) == 0.0
  {
    RadixTable();
    ExpandStepAt(s, cp, 6, 10, key, 7, key + 0x1000_0000);
    ExpandBelow(s, cp, 5, 3, key + 0x1000_0000);
    Parts6Of10From8(s, cp, key);
  }
  lemma Parts6Of10From6(s: seq<real>, cp: seq<real>, key: nat)
    requires |s| == 16 && |cp| == 16
    ensures ExpandFrom(s, cp, 6, 10, key, 6) == 0.0
  {
    RadixTable();
    ExpandStepAt(s, cp, 6, 10, key, 6, key + 0x100_0000);
    ExpandBelow(s, cp, 5, 4, key + 0x100_0000);
    Parts6Of10From7(s, cp, key);
  }
  lemma Parts6Of10From5(s: seq<real>, cp: seq<real>, key: nat)
    requires |s| == 16 && |cp| == 16
    ensures ExpandFrom(s, cp, 6, 10, key, 5) == 1.0 * Leaf(s, cp, key + 0x10_0050)
  {
    RadixTable();
    ExpandStepAt(s, cp, 6, 10, key, 5, key + 0x10_0000);
    Parts5Of5(s, cp, key + 0x10_0000);
    Parts6Of10From6(s, cp, key);
  }
  lemma Parts6Of10From4(s: seq<real>, cp: seq<real>, key: nat)
    requires |s| == 16 && |cp| == 16
    ensures ExpandFrom(s, cp, 6, 10, key, 4) == 5.0 * Leaf(s, cp, key + 0x1_0140) + 1.0 * Leaf(s, cp, key + 0x10_0050)
  {
    RadixTable();
    ExpandStepAt(s, cp, 6, 10, key, 4, key + 0x1_0000);
    Parts5Of6(s, cp, key + 0x1_0000);
    Parts6Of10From5(s, cp, key);
  }
  lemma Parts6Of10From3(s: seq<real>, cp: seq<real>, key: nat)
    requires |s| == 16 && |cp| == 16
    ensures ExpandFrom(s, cp, 6, 10, key, 3) == 10.0 * Leaf(s, cp, key + 0x1230) + 5.0 * Leaf(s, cp, key + 0x2040) + 5.0 * Leaf(s, cp, key + 0x1_0140) + 1.0 * Leaf(s, cp, key + 0x10_0050)
  {
    RadixTable();
    ExpandStepAt(s, cp, 6, 10, key, 3, key + 0x1000);
    Parts5Of7(s, cp, key + 0x1000);
    Parts6Of10From4(s, cp, key);
  }
  lemma Parts6Of10From2(s: seq<real>, cp: seq<real>, key: nat)
    requires |s| == 16 && |cp| == 16
    ensures ExpandFrom(s, cp, 6, 10, key, 2) == 10.0 * Leaf(s, cp, key + 0x420) + 30.0 * Leaf(s, cp, key + 0x1230) + 5.0 * Leaf(s, cp, key + 0x2040) + 10.0 * Leaf(s, cp, key + 0x1_0140) + 1.0 * Leaf(s, cp, key + 0x10_0050)
  {
    RadixTable();
    ExpandStepAt(s, cp, 6, 10, key, 2, key + 0x100);
    Parts5Of8(s, cp, key + 0x100);
    Parts6Of10From3(s, cp, key);
  }
  lemma Parts6Of10From1(s: seq<real>, cp: seq<real>, key: nat)
    requires |s| == 16 && |cp| == 16
    ensures ExpandFrom(s, cp, 6, 10, key, 1) == 15.0 * Leaf(s, cp, key + 0x420) + 60.0 * Leaf(s, cp, key + 0x1230) + 15.0 * Leaf(s, cp, key + 0x2040) + 30.0 * Leaf(s, cp, key + 0x1_0140) + 6.0 * Leaf(s, cp, key + 0x10_0050)
  {
    RadixTable();
    ExpandStepAt(s, cp, 6, 10, key, 1, key + 0x10);
    Parts5Of9(s, cp, key + 0x10);
    Parts6Of10From2(s, cp, key);
  }
  lemma Parts6Of10(s: seq<real>, cp: seq<real>, key: nat)
    requires |s| == 16 && |cp| == 16
    ensures Expand(s, cp, 6, 10, key) == 15.0 * Leaf(s, cp, key + 0x420) + 60.0 * Leaf(s, cp, key + 0x1230) + 15.0 * Leaf(s, cp, key + 0x2040) + 30.0 * Leaf(s, cp, key + 0x1_0140) + 6.0 * Leaf(s, cp, key + 0x10_0050)
  {
    Parts6Of10From1(s, cp, key);
  }
  lemma Parts7Of10From10(s: seq<real>, cp: seq<real>, key: nat)
    requires |s| == 16 && |cp| == 16
    ensures ExpandFrom(s, cp, 7, 10, key, 10) == 0.0
  {
    RadixTable();
    ExpandStepAt(s, cp, 7, 10, key, 10, key + 0x100_0000_0000);
    ExpandBelow(s, cp, 6, 0, key + 0x100_0000_0000);
    assert ExpandFrom(s, cp, 7, 10, key, 11) == 0.0;
  }
  lemma Parts7Of10From9(s: seq<real>, cp: seq<real>, key: nat)
    requires |s| == 16 && |cp| == 16
    ensures ExpandFrom(s, cp, 7, 10, key, 9) == 0.0
  {
    RadixTable();
    ExpandStepAt(s, cp, 7, 10, key, 9, key + 0x10_0000_0000);
    ExpandBelow(s, cp, 6, 1, key + 0x10_0000_0000);
    Parts7Of10From10(s, cp, key);
  }
  lemma Parts7Of10From8(s: seq<real>, cp: seq<real>, key: nat)
    requires |s| == 16 && |cp| == 16
    ensures ExpandFrom(s, cp, 7, 10, key, 8) == 0.0
  {
    RadixTable();
    ExpandStepAt(s, cp, 7, 10, key, 8, key + 0x1_0000_0000);
    ExpandBelow(s, cp, 6, 2, key + 0x1_0000_0000);
    Parts7Of10From9(s, cp, key);
  }
  lemma Parts7Of10From7(s: seq<real>, cp: seq<real>, key: nat)
    requires |s| == 16 && |cp| == 16
    ensures ExpandFrom(s, cp, 7, 10, key, 7) == 0.0
  {
    RadixTable();
    ExpandStepAt(s, cp, 7, 10, key, 7, key + 0x1000_0000);
    ExpandBelow(s, cp, 6, 3, key + 0x1000_0000);
    Parts7Of10From8(s, cp, key);
  }
  lemma Parts7Of10From6(s: seq<real>, cp: seq<real>, key: nat)
    requires |s| == 16 && |cp| == 16
    ensures ExpandFrom(s, cp, 7, 10, key, 6) == 0.0
  {
    RadixTable();
    ExpandStepAt(s, cp, 7, 10, key, 6, key + 0x100_0000);
    ExpandBelow(s, cp, 6, 4, key + 0x100_0000);
    Parts7Of10From7(s, cp, key);
  }
  lemma Parts7Of10From5(s: seq<real>, cp: seq<real>, key: nat)
    requires |s| == 16 && |cp| == 16
    ensures ExpandFrom(s, cp, 7, 10, key, 5) == 0.0
  {
    RadixTable();
    ExpandStepAt(s, cp, 7, 10, key, 5, key + 0x10_0000);
    ExpandBelow(s, cp, 6, 5, key + 0x10_0000);
    Parts7Of10From6(s, cp, key);
  }
  lemma Parts7Of10From4(s: seq<real>, cp: seq<real>, key: nat)
    requires |s| == 16 && |cp| == 16
    ensures ExpandFrom(s, cp, 7, 10, key, 4) == 1.0 * Leaf(s, cp, key + 0x1_0060)
  {
    RadixTable();
    ExpandStepAt(s, cp, 7, 10, key, 4, key + 0x1_0000);
    Parts6Of6(s, cp, key + 0x1_0000);
    Parts7Of10From5(s, cp, key);
  }
  lemma Parts7Of10From3(s: seq<real>, cp: seq<real>, key: nat)
    requires |s| == 16 && |cp| == 16
    ensures ExpandFrom(s, cp, 7, 10, key, 3) == 6.0 * Leaf(s, cp, key + 0x1150) + 1.0 * Leaf(s, cp, key + 0x1_0060)
  {
    RadixTable();
    ExpandStepAt(s, cp, 7, 10, key, 3, key + 0x1000);
    Parts6Of7(s, cp, key + 0x1000);
    Parts7Of10From4(s, cp, key);
  }
  lemma Parts7Of10From2(s: seq<real>, cp: seq<real>, key: nat)
    requires |s| == 16 && |cp| == 16
    ensures ExpandFrom(s, cp, 7, 10, key, 2) == 15.0 * Leaf(s, cp, key + 0x340) + 12.0 * Leaf(s, cp, key + 0x1150) + 1.0 * Leaf(s, cp, key + 0x1_0060)
  {
    RadixTable();
    ExpandStepAt(s, cp, 7, 10, key, 2, key + 0x100);
    Parts6Of8(s, cp, key + 0x100);
    Parts7Of10From3(s, cp, key);
  }
  lemma Parts7Of10From1(s: seq<real>, cp: seq<real>, key: nat)
    requires |s| == 16 && |cp| == 16
    ensures ExpandFrom(s, cp, 7, 10, key, 1) == 35.0 * Leaf(s, cp, key + 0x340) + 42.0 * Leaf(s, cp, key + 0x1150) + 7.0 * Leaf(s, cp, key + 0x1_0060)
  {
    RadixTable();
    ExpandStepAt(s, cp, 7, 10, key, 1, key + 0x10);
    Parts6Of9(s, cp, key + 0x10);
    Parts7Of10From2(s, cp, key);
  }
  lemma Parts7Of10(s: seq<real>, cp: seq<real>, key: nat)
    requires |s| == 16 && |cp| == 16
    ensures Expand(s, cp, 7, 10, key) == 35.0 * Leaf(s, cp, key + 0x340) + 42.0 * Leaf(s, cp, key + 0x1150) + 7.0 * Leaf(s, cp, key + 0x1_0060)
  {
    Parts7Of10From1(s, cp, key);
  }
  lemma Parts8Of10From10(s: seq<real>, cp: seq<real>, key: nat)
    requires |s| == 16 && |cp| == 16
    ensures ExpandFrom(s, cp, 8, 10, key, 10) == 0.0
  {
    RadixTable();
    ExpandStepAt(s, cp, 8, 10, key, 10, key + 0x100_0000_0000);
    ExpandBelow(s, cp, 7, 0, key + 0x100_0000_0000);
    assert ExpandFrom(s, cp, 8, 10, key, 11) == 0.0;
  }
  lemma Parts8Of10From9(s: seq<real>, cp: seq<real>, key: nat)
    requires |s| == 16 && |cp| == 16
    ensures ExpandFrom(s, cp, 8, 10, key, 9) == 0.0
  {
    RadixTable();
    ExpandStepAt(s, cp, 8, 10, key, 9, key + 0x10_0000_0000);
    ExpandBelow(s, cp, 7, 1, key + 0x10_0000_0000);
    Parts8Of10From10(s, cp, key);
  }
  lemma Parts8Of10From8(s: seq<real>, cp: seq<real>, key: nat)
    requires |s| == 16 && |cp| == 16
    ensures ExpandFrom(s, cp, 8, 10, key, 8) == 0.0
  {
    RadixTable();
    ExpandStepAt(s, cp, 8, 10, key, 8, key + 0x1_0000_0000);
    ExpandBelow(s, cp, 7, 2, key + 0x1_0000_0000);
    Parts8Of10From9(s, cp, key);
  }
  lemma Parts8Of10From7(s: seq<real>, cp: seq<real>, key: nat)
    requires |s| == 16 && |cp| == 16
    ensures ExpandFrom(s, cp, 8, 10, key, 7) == 0.0
  {
    RadixTable();
    ExpandStepAt(s, cp, 8, 10, key, 7, key + 0x1000_0000);
    ExpandBelow(s, cp, 7, 3, key + 0x1000_0000);
    Parts8Of10From8(s, cp, key);
  }
  lemma Parts8Of10From6(s: seq<real>, cp: seq<real>, key: nat)
    requires |s| == 16 && |cp| == 16
    ensures ExpandFrom(s, cp, 8, 10, key, 6) == 0.0
  {
    RadixTable();
    ExpandStepAt(s, cp, 8, 10, key, 6, key + 0x100_0000);
    ExpandBelow(s, cp, 7, 4, key + 0x100_0000);
    Parts8Of10From7(s, cp, key);
  }
  lemma Parts8Of10From5(s: seq<real>, cp: seq<real>, key: nat)
    requires |s| == 16 && |cp| == 16
    ensures ExpandFrom(s, cp, 8, 10, key, 5) == 0.0
  {
    RadixTable();
    ExpandStepAt(s, cp, 8, 10, key, 5, key + 0x10_0000);
    ExpandBelow(s, cp, 7, 5, key + 0x10_0000);
    Parts8Of10From6(s, cp, key);
  }
  lemma Parts8Of10From4(s: seq<real>, cp: seq<real>, key: nat)
    requires |s| == 16 && |cp| == 16
    ensures ExpandFrom(s, cp, 8, 10, key, 4) == 0.0
  {
    RadixTable();
    ExpandStepAt(s, cp, 8, 10, key, 4, key + 0x1_0000);
    ExpandBelow(s, cp, 7, 6, key + 0x1_0000);
    Parts8Of10From5(s, cp, key);
  }
  lemma Parts8Of10From3(s: seq<real>, cp: seq<real>, key: nat)
    requires |s| == 16 && |cp| == 16
    ensures ExpandFrom(s, cp, 8, 10, key, 3) == 1.0 * Leaf(s, cp, key + 0x1070)
  {
    RadixTable();
    ExpandStepAt(s, cp, 8, 10, key, 3, key + 0x1000);
    Parts7Of7(s, cp, key + 0x1000);
    Parts8Of10From4(s, cp, key);
  }
  lemma Parts8Of10From2(s: seq<real>, cp: seq<real>, key: nat)
    requires |s| == 16 && |cp| == 16
    ensures ExpandFrom(s, cp, 8, 10, key, 2) == 7.0 * Leaf(s, cp, key + 0x260) + 1.0 * Leaf(s, cp, key + 0x1070)
  {
    RadixTable();
    ExpandStepAt(s, cp, 8, 10, key, 2, key + 0x100);
    Parts7Of8(s, cp, key + 0x100);
    Parts8Of10From3(s, cp, key);
  }
  lemma Parts8Of10From1(s: seq<real>, cp: seq<real>, key: nat)
    requires |s| == 16 && |cp| == 16
    ensures ExpandFrom(s, cp, 8, 10, key, 1) == 28.0 * Leaf(s, cp, key + 0x260) + 8.0 * Leaf(s, cp, key + 0x1070)
  {
    RadixTable();
    ExpandStepAt(s, cp, 8, 10, key, 1, key + 0x10);
    Parts7Of9(s, cp, key + 0x10);
    Parts8Of10From2(s, cp, key);
  }
  lemma Parts8Of10(s: seq<real>, cp: seq<real>, key: nat)
    requires |s| == 16 && |cp| == 16
    ensures Expand(s, cp, 8, 10, key) == 28.0 * Leaf(s, cp, key + 0x260) + 8.0 * Leaf(s, cp, key + 0x1070)
  {
    Parts8Of10From1(s, cp, key);
  }
  lemma Parts9Of10From10(s: seq<real>, cp: seq<real>, key: nat)
    requires |s| == 16 && |cp| == 16
    ensures ExpandFrom(s, cp, 9, 10, key, 10) == 0.0
  {
    RadixTable();
    ExpandStepAt(s, cp, 9, 10, key, 10, key + 0x100_0000_0000);
    ExpandBelow(s, cp, 8, 0, key + 0x100_0000_0000);
    assert ExpandFrom(s, cp, 9, 10, key, 11) == 0.0;
  }
  lemma Parts9Of10From9(s: seq<real>, cp: seq<real>, key: nat)
    requires |s| == 16 && |cp| == 16
    ensures ExpandFrom(s, cp, 9, 10, key, 9) == 0.0
  {
    RadixTable();
    ExpandStepAt(s, cp, 9, 10, key, 9, key + 0x10_0000_0000);
    ExpandBelow(s, cp, 8, 1, key + 0x10_0000_0000);
    Parts9Of10From10(s, cp, key);
  }
  lemma Parts9Of10From8(s: seq<real>, cp: seq<real>, key: nat)
    requires |s| == 16 && |cp| == 16
    ensures ExpandFrom(s, cp, 9, 10, key, 8) == 0.0
  {
    RadixTable();
    ExpandStepAt(s, cp, 9, 10, key, 8, key + 0x1_0000_0000);
    ExpandBelow(s, cp, 8, 2, key + 0x1_0000_0000);
    Parts9Of10From9(s, cp, key);
  }
  lemma Parts9Of10From7(s: seq<real>, cp: seq<real>, key: nat)
    requires |s| == 16 && |cp| == 16
    ensures ExpandFrom(s, cp, 9, 10, key, 7) == 0.0
  {
    RadixTable();
    ExpandStepAt(s, cp, 9, 10, key, 7, key + 0x1000_0000);
    ExpandBelow(s, cp, 8, 3, key + 0x1000_0000);
    Parts9Of10From8(s, cp, key);
  }
  lemma Parts9Of10From6(s: seq<real>, cp: seq<real>, key: nat)
    requires |s| == 16 && |cp| == 16
    ensures ExpandFrom(s, cp, 9, 10, key, 6) == 0.0
  {
    RadixTable();
    ExpandStepAt(s, cp, 9, 10, key, 6, key + 0x100_0000);
    ExpandBelow(s, cp, 8, 4, key + 0x100_0000);
    Parts9Of10From7(s, cp, key);
  }
  lemma Parts9Of10From5(s: seq<real>, cp: seq<real>, key: nat)
    requires |s| == 16 && |cp| == 16
    ensures ExpandFrom(s, cp, 9, 10, key, 5) == 0.0
  {
    RadixTable();
    ExpandStepAt(s, cp, 9, 10, key, 5, key + 0x10_0000);
    ExpandBelow(s, cp, 8, 5, key + 0x10_0000);
    Parts9Of10From6(s, cp, key);
  }
  lemma Parts9Of10From4(s: seq<real>, cp: seq<real>, key: nat)
    requires |s| == 16 && |cp| == 16
    ensures ExpandFrom(s, cp, 9, 10, key, 4) == 0.0
  {
    RadixTable();
    ExpandStepAt(s, cp, 9, 10, key, 4, key + 0x1_0000);
    ExpandBelow(s, cp, 8, 6, key + 0x1_0000);
    Parts9Of10From5(s, cp, key);
  }
  lemma Parts9Of10From3(s: seq<real>, cp: seq<real>, key: nat)
    requires |s| == 16 && |cp| == 16
    ensures ExpandFrom(s, cp, 9, 10, key, 3) == 0.0
  {
    RadixTable();
    ExpandStepAt(s, cp, 9, 10, key, 3, key + 0x1000);
    ExpandBelow(s, cp, 8, 7, key + 0x1000);
    Parts9Of10From4(s, cp, key);
  }
  lemma Parts9Of10From2(s: seq<real>, cp: seq<real>, key: nat)
    requires |s| == 16 && |cp| == 16
    ensures ExpandFrom(s, cp, 9, 10, key, 2) == 1.0 * Leaf(s, cp, key + 0x180)
  {
    RadixTable();
    ExpandStepAt(s, cp, 9, 10, key, 2, key + 0x100);
    Parts8Of8(s, cp, key + 0x100);
    Parts9Of10From3(s, cp, key);
  }
  lemma Parts9Of10From1(s: seq<real>, cp: seq<real>, key: nat)
    requires |s| == 16 && |cp| == 16
    ensures ExpandFrom(s, cp, 9, 10, key, 1) == 9.0 * Leaf(s, cp, key + 0x180)
  {
    RadixTable();
    ExpandStepAt(s, cp, 9, 10, key, 1, key + 0x10);
    Parts8Of9(s, cp, key + 0x10);
    Parts9Of10From2(s, cp, key);
  }
  lemma Parts9Of10(s: seq<real>, cp: seq<real>, key: nat)
    requires |s| == 16 && |cp| == 16
    ensures Expand(s, cp, 9, 10, key) == 9.0 * Leaf(s, cp, key + 0x180)
  {
    Parts9Of10From1(s, cp, key);
  }
  lemma Parts10Of10From10(s: seq<real>, cp: seq<real>, key: nat)
    requires |s| == 16 && |cp| == 16
    ensures ExpandFrom(s, cp, 10, 10, key, 10) == 0.0
  {
    RadixTable();
    ExpandStepAt(s, cp, 10, 10, key, 10, key + 0x100_0000_0000);
    ExpandBelow(s, cp, 9, 0, key + 0x100_0000_0000);
    assert ExpandFrom(s, cp, 10, 10, key, 11) == 0.0;
  }
  lemma Parts10Of10From9(s: seq<real>, cp: seq<real>, key: nat)
    requires |s| == 16 && |cp| == 16
    ensures ExpandFrom(s, cp, 10, 10, key, 9) == 0.0
  {
    RadixTable();
    ExpandStepAt(s, cp, 10, 10, key, 9, key + 0x10_0000_0000);
    ExpandBelow(s, cp, 9, 1, key + 0x10_0000_0000);
    Parts10Of10From10(s, cp, key);
  }
  lemma Parts10Of10From8(s: seq<real>, cp: seq<real>, key: nat)
    requires |s| == 16 && |cp| == 16
    ensures ExpandFrom(s, cp, 10, 10, key, 8) == 0.0
  {
    RadixTable();
    ExpandStepAt(s, cp, 10, 10, key, 8, key + 0x1_0000_0000);
    ExpandBelow(s, cp, 9, 2, key + 0x1_0000_0000);
    Parts10Of10From9(s, cp, key);
  }
  lemma Parts10Of10From7(s: seq<real>, cp: seq<real>, key: nat)
    requires |s| == 16 && |cp| == 16
    ensures ExpandFrom(s, cp, 10, 10, key, 7) == 0.0
  {
    RadixTable();
    ExpandStepAt(s, cp, 10, 10, key, 7, key + 0x1000_0000);
    ExpandBelow(s, cp, 9, 3, key + 0x1000_0000);
    Parts10Of10From8(s, cp, key);
  }
  lemma Parts10Of10From6(s: seq<real>, cp: seq<real>, key: nat)
    requires |s| == 16 && |cp| == 16
    ensures ExpandFrom(s, cp, 10, 10, key, 6) == 0.0
  {
    RadixTable();
    ExpandStepAt(s, cp, 10, 10, key, 6, key + 0x100_0000);
    ExpandBelow(s, cp, 9, 4, key + 0x100_0000);
    Parts10Of10From7(s, cp, key);
  }
  lemma Parts10Of10From5(s: seq<real>, cp: seq<real>, key: nat)
    requires |s| == 16 && |cp| == 16
    ensures ExpandFrom(s, cp, 10, 10, key, 5) == 0.0
  {
    RadixTable();
    ExpandStepAt(s, cp, 10, 10, key, 5, key + 0x10_0000);
    ExpandBelow(s, cp, 9, 5, key + 0x10_0000);
    Parts10Of10From6(s, cp, key);
  }
  lemma Parts10Of10From4(s: seq<real>, cp: seq<real>, key: nat)
    requires |s| == 16 && |cp| == 16
    ensures ExpandFrom(s, cp, 10, 10, key, 4) == 0.0
  {
    RadixTable();
    ExpandStepAt(s, cp, 10, 10, key, 4, key + 0x1_0000);
    ExpandBelow(s, cp, 9, 6, key + 0x1_0000);
    Parts10Of10From5(s, cp, key);
  }
  lemma Parts10Of10From3(s: seq<real>, cp: seq<real>, key: nat)
    requires |s| == 16 && |cp| == 16
    ensures ExpandFrom(s, cp, 10, 10, key, 3) == 0.0
  {
    RadixTable();
    ExpandStepAt(s, cp, 10, 10, key, 3, key + 0x1000);
    ExpandBelow(s, cp, 9, 7, key + 0x1000);
    Parts10Of10From4(s, cp, key);
  }
  lemma Parts10Of10From2(s: seq<real>, cp: seq<real>, key: nat)
    requires |s| == 16 && |cp| == 16
    ensures ExpandFrom(s, cp, 10, 10, key, 2) == 0.0
  {
    RadixTable();
    ExpandStepAt(s, cp, 10, 10, key, 2, key + 0x100);
    ExpandBelow(s, cp, 9, 8, key + 0x100);
    Parts10Of10From3(s, cp, key);
  }
  lemma Parts10Of10From1(s: seq<real>, cp: seq<real>, key: nat)
    requires |s| == 16 && |cp| == 16
    ensures ExpandFrom(s, cp, 10, 10, key, 1) == 1.0 * Leaf(s, cp, key + 0xa0)
  {
    RadixTable();
    ExpandStepAt(s, cp, 10, 10, key, 1, key + 0x10);
    Parts9Of9(s, cp, key + 0x10);
    Parts10Of10From2(s, cp, key);
  }
  lemma Parts10Of10(s: seq<real>, cp: seq<real>, key: nat)
    requires |s| == 16 && |cp| == 16
    ensures Expand(s, cp, 10, 10, key) == 1.0 * Leaf(s, cp, key + 0xa0)
  {
    Parts10Of10From1(s, cp, key);
  }
  lemma Parts1Of11From11(s: seq<real>, cp: seq<real>, key: nat)
    requires |s| == 16 && |cp| == 16
    ensures ExpandFrom(s, cp, 1, 11, key, 11) == 1.0 * Leaf(s, cp, key + 0x1000_0000_0000)
  {
    RadixTable();
    ExpandStepAt(s, cp, 1, 11, key, 11, key + 0x1000_0000_0000);
    assert Expand(s, cp, 0, 0, key + 0x1000_0000_0000) == Leaf(s, cp, key + 0x1000_0000_0000);
    assert ExpandFrom(s, cp, 1, 11, key, 12) == 0.0;
  }
  lemma Parts1Of11From10(s: seq<real>, cp: seq<real>, key: nat)
    requires |s| == 16 && |cp| == 16
    ensures ExpandFrom(s, cp, 1, 11, key, 10) == 1.0 * Leaf(s, cp, key + 0x1000_0000_0000)
  {
    RadixTable();
    ExpandStepAt(s, cp, 1, 11, key, 10, key + 0x100_0000_0000);
    assert Expand(s, cp, 0, 1, key + 0x100_0000_0000) == 0.0;
    Parts1Of11From11(s, cp, key);
  }
  lemma Parts1Of11From9(s: seq<real>, cp: seq<real>, key: nat)
    requires |s| == 16 && |cp| == 16
    ensures ExpandFrom(s, cp, 1, 11, key, 9) == 1.0 * Leaf(s, cp, key + 0x1000_0000_0000)
  {
    RadixTable();
    ExpandStepAt(s, cp, 1, 11, key, 9, key + 0x10_0000_0000);
    assert Expand(s, cp, 0, 2, key + 0x10_0000_0000) == 0.0;
    Parts1Of11From10(s, cp, key);
  }
  lemma Parts1Of11From8(s: seq<real>, cp: seq<real>, key: nat)
    requires |s| == 16 && |cp| == 16
    ensures ExpandFrom(s, cp, 1, 11, key, 8) == 1.0 * Leaf(s, cp, key + 0x1000_0000_0000)
  {
    RadixTable();
    ExpandStepAt(s, cp, 1, 11, key, 8, key + 0x1_0000_0000);
    assert Expand(s, cp, 0, 3, key + 0x1_0000_0000) == 0.0;
    Parts1Of11From9(s, cp, key);
  }
  lemma Parts1Of11From7(s: seq<real>, cp: seq<real>, key: nat)
    requires |s| == 16 && |cp| == 16
    ensures ExpandFrom(s, cp, 1, 11, key, 7) == 1.0 * Leaf(s, cp, key + 0x1000_0000_0000)
  {
    RadixTable();
    ExpandStepAt(s, cp, 1, 11, key, 7, key + 0x1000_0000);
    assert Expand(s, cp, 0, 4, key + 0x1000_0000) == 0.0;
    Parts1Of11From8(s, cp, key);
  }
  lemma Parts1Of11From6(s: seq<real>, cp: seq<real>, key: nat)
    requires |s| == 16 && |cp| == 16
    ensures ExpandFrom(s, cp, 1, 11, key, 6) == 1.0 * Leaf(s, cp, key + 0x1000_0000_0000)
  {
    RadixTable();
    ExpandStepAt(s, cp, 1, 11, key, 6, key + 0x100_0000);
    assert Expand(s, cp, 0, 5, key + 0x100_0000) == 0.0;
    Parts1Of11From7(s, cp, key);
  }
  lemma Parts1Of11From5(s: seq<real>, cp: seq<real>, key: nat)
    requires |s| == 16 && |cp| == 16
    ensures ExpandFrom(s, cp, 1, 11, key, 5) == 1.0 * Leaf(s, cp, key + 0x1000_0000_0000)
  {
    RadixTable();
    ExpandStepAt(s, cp, 1, 11, key, 5, key + 0x10_0000);
    assert Expand(s, cp, 0, 6, key + 0x10_0000) == 0.0;
    Parts1Of11From6(s, cp, key);
  }
  lemma Parts1Of11From4(s: seq<real>, cp: seq<real>, key: nat)
    requires |s| == 16 && |cp| == 16
    ensures ExpandFrom(s, cp, 1, 11, key, 4) == 1.0 * Leaf(s, cp, key + 0x1000_0000_0000)
  {
    RadixTable();
    ExpandStepAt(s, cp, 1, 11, key, 4, key + 0x1_0000);
    assert Expand(s, cp, 0, 7, key + 0x1_0000) == 0.0;
    Parts1Of11From5(s, cp, key);
  }
  lemma Parts1Of11From3(s: seq<real>, cp: seq<real>, key: nat)
    requires |s| == 16 && |cp| == 16
    ensures ExpandFrom(s, cp, 1, 11, key, 3) == 1.0 * Leaf(s, cp, key + 0x1000_0000_0000)
  {
    RadixTable();
    ExpandStepAt(s, cp, 1, 11, key, 3, key + 0x1000);
    assert Expand(s, cp, 0, 8, key + 0x1000) == 0.0;
    Parts1Of11From4(s, cp, key);
  }
  lemma Parts1Of11From2(s: seq<real>, cp: seq<real>, key: nat)
    requires |s| == 16 && |cp| == 16
    ensures ExpandFrom(s, cp, 1, 11, key, 2) == 1.0 * Leaf(s, cp, key + 0x1000_0000_0000)
  {
    RadixTable();
    ExpandStepAt(s, cp, 1, 11, key, 2, key + 0x100);
    assert Expand(s, cp, 0, 9, key + 0x100) == 0.0;
    Parts1Of11From3(s, cp, key);
  }
  lemma Parts1Of11From1(s: seq<real>, cp: seq<real>, key: nat)
    requires |s| == 16 && |cp| == 16
    ensures ExpandFrom(s, cp, 1, 11, key, 1) == 1.0 * Leaf(s, cp, key + 0x1000_0000_0000)
  {
    RadixTable();
    ExpandStepAt(s, cp, 1, 11, key, 1, key + 0x10);
    assert Expand(s, cp, 0, 10, key + 0x10) == 0.0;
    Parts1Of11From2(s, cp, key);
  }
  lemma Parts1Of11(s: seq<real>, cp: seq<real>, key: nat)
    requires |s| == 16 && |cp| == 16
    ensures Expand(s, cp, 1, 11, key) == 1.0 * Leaf(s, cp, key + 0x1000_0000_0000)
  {
    Parts1Of11From1(s, cp, key);
  }
  lemma Parts2Of11From11(s: seq<real>, cp: seq<real>, key: nat)
    requires |s| == 16 && |cp| == 16
    ensures ExpandFrom(s, cp, 2, 11, key, 11) == 0.0
  {
    RadixTable();
    ExpandStepAt(s, cp, 2, 11, key, 11, key + 0x1000_0000_0000);
    ExpandBelow(s, cp, 1, 0, key + 0x1000_0000_0000);
    assert ExpandFrom(s, cp, 2, 11, key, 12) == 0.0;
  }
  lemma Parts2Of11From10(s: seq<real>, cp: seq<real>, key: nat)
    requires |s| == 16 && |cp| == 16
    ensures ExpandFrom(s, cp, 2, 11, key, 10) == 1.0 * Leaf(s, cp, key + 0x100_0000_0010)
  {
    RadixTable();
    ExpandStepAt(s, cp, 2, 11, key, 10, key + 0x100_0000_0000);
    Parts1Of1(s, cp, key + 0x100_0000_0000);
    Parts2Of11From11(s, cp, key);
  }
  lemma Parts2Of11From9(s: seq<real>, cp: seq<real>, key: nat)
    requires |s| == 16 && |cp| == 16
    ensures ExpandFrom(s, cp, 2, 11, key, 9) == 1.0 * Leaf(s, cp, key + 0x10_0000_0100) + 1.0 * Leaf(s, cp, key + 0x100_0000_0010)
  {
    RadixTable();
    ExpandStepAt(s, cp, 2, 11, key, 9, key + 0x10_0000_0000);
    Parts1Of2(s, cp, key + 0x10_0000_0000);
    Parts2Of11From10(s, cp, key);
  }
  lemma Parts2Of11From8(s: seq<real>, cp: seq<real>, key: nat)
    requires |s| == 16 && |cp| == 16
    ensures ExpandFrom(s, cp, 2, 11, key, 8) == 1.0 * Leaf(s, cp, key + 0x1_0000_1000) + 1.0 * Leaf(s, cp, key + 0x10_0000_0100) + 1.0 * Leaf(s, cp, key + 0x100_0000_0010)
  {
    RadixTable();
    ExpandStepAt(s, cp, 2, 11, key, 8, key + 0x1_0000_0000);
    Parts1Of3(s, cp, key + 0x1_0000_0000);
    Parts2Of11From9(s, cp, key);
  }
  lemma Parts2Of11From7(s: seq<real>, cp: seq<real>, key: nat)
    requires |s| == 16 && |cp| == 16
    ensures ExpandFrom(s, cp, 2, 11, key, 7) == 1.0 * Leaf(s, cp, key + 0x1001_0000) + 1.0 * Leaf(s, cp, key + 0x1_0000_1000) + 1.0 * Leaf(s, cp, key + 0x10_0000_0100) + 1.0 * Leaf(s, cp, key + 0x100_0000_0010)
  {
    RadixTable();
    ExpandStepAt(s, cp, 2, 11, key, 7, key + 0x1000_0000);
    Parts1Of4(s, cp, key + 0x1000_0000);
    Parts2Of11From8(s, cp, key);
  }
  lemma Parts2Of11From6(s: seq<real>, cp: seq<real>, key: nat)
    requires |s| == 16 && |cp| == 16
    ensures ExpandFrom(s, cp, 2, 11, key, 6) == 1.0 * Leaf(s, cp, key + 0x110_0000) + 1.0 * Leaf(s, cp, key + 0x1001_0000) + 1.0 * Leaf(s, cp, key + 0x1_0000_1000) + 1.0 * Leaf(s, cp, key + 0x10_0000_0100) + 1.0 * Leaf(s, cp, key + 0x100_0000_0010)
  {
    RadixTable();
    ExpandStepAt(s, cp, 2, 11, key, 6, key + 0x100_0000);
    Parts1Of5(s, cp, key + 0x100_0000);
    Parts2Of11From7(s, cp, key);
  }
  lemma Parts2Of11From5(s: seq<real>, cp: seq<real>, key: nat)
    requires |s| == 16 && |cp| == 16
    ensures ExpandFrom(s, cp, 2, 11, key, 5) == 2.0 * Leaf(s, cp, key + 0x110_0000) + 1.0 * Leaf(s, cp, key + 0x1001_0000) + 1.0 * Leaf(s, cp, key + 0x1_0000_1000) + 1.0 * Leaf(s, cp, key + 0x10_0000_0100) + 1.0 * Leaf(s, cp, key + 0x100_0000_0010)
  {
    RadixTable();
    ExpandStepAt(s, cp, 2, 11, key, 5, key + 0x10_0000);
    Parts1Of6(s, cp, key + 0x10_0000);
    Parts2Of11From6(s, cp, key);
  }
  lemma Parts2Of11From4(s: seq<real>, cp: seq<real>, key: nat)
    requires |s| == 16 && |cp| == 16
    ensures ExpandFrom(s, cp, 2, 11, key, 4) == 2.0 * Leaf(s, cp, key + 0x110_0000) + 2.0 * Leaf(s, cp, key + 0x1001_0000) + 1.0 * Leaf(s, cp, key + 0x1_0000_1000) + 1.0 * Leaf(s, cp, key + 0x10_0000_0100) + 1.0 * Leaf(s, cp, key + 0x100_0000_0010)
  {
    RadixTable();
    ExpandStepAt(s, cp, 2, 11, key, 4, key + 0x1_0000);
    Parts1Of7(s, cp, key + 0x1_0000);
    Parts2Of11From5(s, cp, key);
  }
  lemma Parts2Of11From3(s: seq<real>, cp: seq<real>, key: nat)
    requires |s| == 16 && |cp| == 16
    ensures ExpandFrom(s, cp, 2, 11, key, 3) == 2.0 * Leaf(s, cp, key + 0x110_0000) + 2.0 * Leaf(s, cp, key + 0x1001_0000) + 2.0 * Leaf(s, cp, key + 0x1_0000_1000) + 1.0 * Leaf(s, cp, key + 0x10_0000_0100) + 1.0 * Leaf(s, cp, key + 0x100_0000_0010)
  {
    RadixTable();
    ExpandStepAt(s, cp, 2, 11, key, 3, key + 0x1000);
    Parts1Of8(s, cp, key + 0x1000);
    Parts2Of11From4(s, cp, key);
  }
  lemma Parts2Of11From2(s: seq<real>, cp: seq<real>, key: nat)
    requires |s| == 16 && |cp| == 16
    ensures ExpandFrom(s, cp, 2, 11, key, 2) == 2.0 * Leaf(s, cp, key + 0x110_0000) + 2.0 * Leaf(s, cp, key + 0x1001_0000) + 2.0 * Leaf(s, cp, key + 0x1_0000_1000) + 2.0 * Leaf(s, cp, key + 0x10_0000_0100) + 1.0 * Leaf(s, cp, key + 0x100_0000_0010)
  {
    RadixTable();
    ExpandStepAt(s, cp, 2, 11, key, 2, key + 0x100);
    Parts1Of9(s, cp, key + 0x100);
    Parts2Of11From3(s, cp, key);
  }
  lemma Parts2Of11From1(s: seq<real>, cp: seq<real>, key: nat)
    requires |s| == 16 && |cp| == 16
    ensures ExpandFrom(s, cp, 2, 11, key, 1) == 2.0 * Leaf(s, cp, key + 0x110_0000) + 2.0 * Leaf(s, cp, key + 0x1001_0000) + 2.0 * Leaf(s, cp, key + 0x1_0000_1000) + 2.0 * Leaf(s, cp, key + 0x10_0000_0100) + 2.0 * Leaf(s, cp, key + 0x100_0000_0010)
  {
    RadixTable();
    ExpandStepAt(s, cp, 2, 11, key, 1, key + 0x10);
    Parts1Of10(s, cp, key + 0x10);
    Parts2Of11From2(s, cp, key);
  }
  lemma Parts2Of11(s: seq<real>, cp: seq<real>, key: nat)
    requires |s| == 16 && |cp| == 16
    ensures Expand(s, cp, 2, 11, key) == 2.0 * Leaf(s, cp, key + 0x110_0000) + 2.0 * Leaf(s, cp, key + 0x1001_0000) + 2.0 * Leaf(s, cp, key + 0x1_0000_1000) + 2.0 * Leaf(s, cp, key + 0x10_0000_0100) + 2.0 * Leaf(s, cp, key + 0x100_0000_0010)
  {
    Parts2Of11From1(s, cp, key);
  }
  lemma Parts3Of11From11(s: seq<real>, cp: seq<real>, key: nat)
    requires |s| == 16 && |cp| == 16
    ensures ExpandFrom(s, cp, 3, 11, key, 11) == 0.0
  {
    RadixTable();
    ExpandStepAt(s, cp, 3, 11, key, 11, key + 0x1000_0000_0000);
    ExpandBelow(s, cp, 2, 0, key + 0x1000_0000_0000);
    assert ExpandFrom(s, cp, 3, 11, key, 12) == 0.0;
  }
  lemma Parts3Of11From10(s: seq<real>, cp: seq<real>, key: nat)
    requires |s| == 16 && |cp| == 16
    ensures ExpandFrom(s, cp, 3, 11, key, 10) == 0.0
  {
    RadixTable();
    ExpandStepAt(s, cp, 3, 11, key, 10, key + 0x100_0000_0000);
    ExpandBelow(s, cp, 2, 1, key + 0x100_0000_0000);
    Parts3Of11From11(s, cp, key);
  }
  lemma Parts3Of11From9(s: seq<real>, cp: seq<real>, key: nat)
    requires |s| == 16 && |cp| == 16
    ensures ExpandFrom(s, cp, 3, 11, key, 9) == 1.0 * Leaf(s, cp, key + 0x10_0000_0020)
  {
    RadixTable();
    ExpandStepAt(s, cp, 3, 11, key, 9, key + 0x10_0000_0000);
    Parts2Of2(s, cp, key + 0x10_0000_0000);
    Parts3Of11From10(s, cp, key);
  }
  lemma Parts3Of11From8(s: seq<real>, cp: seq<real>, key: nat)
    requires |s| == 16 && |cp| == 16
    ensures ExpandFrom(s, cp, 3, 11, key, 8) == 2.0 * Leaf(s, cp, key + 0x1_0000_0110) + 1.0 * Leaf(s, cp, key + 0x10_0000_0020)
  {
    RadixTable();
    ExpandStepAt(s, cp, 3, 11, key, 8, key + 0x1_0000_0000);
    Parts2Of3(s, cp, key + 0x1_0000_0000);
    Parts3Of11From9(s, cp, key);
  }
  lemma Parts3Of11From7(s: seq<real>, cp: seq<real>, key: nat)
    requires |s| == 16 && |cp| == 16
    ensures ExpandFrom(s, cp, 3, 11, key, 7) == 1.0 * Leaf(s, cp, key + 0x1000_0200) + 2.0 * Leaf(s, cp, key + 0x1000_1010) + 2.0 * Leaf(s, cp, key + 0x1_0000_0110) + 1.0 * Leaf(s, cp, key + 0x10_0000_0020)
  {
    RadixTable();
    ExpandStepAt(s, cp, 3, 11, key, 7, key + 0x1000_0000);
    Parts2Of4(s, cp, key + 0x1000_0000);
    Parts3Of11From8(s, cp, key);
  }
  lemma Parts3Of11From6(s: seq<real>, cp: seq<real>, key: nat)
    requires |s| == 16 && |cp| == 16
    ensures ExpandFrom(s, cp, 3, 11, key, 6) == 2.0 * Leaf(s, cp, key + 0x100_1100) + 2.0 * Leaf(s, cp, key + 0x101_0010) + 1.0 * Leaf(s, cp, key + 0x1000_0200) + 2.0 * Leaf(s, cp, key + 0x1000_1010) + 2.0 * Leaf(s, cp, key + 0x1_0000_0110) + 1.0 * Leaf(s, cp, key + 0x10_0000_0020)
  {
    RadixTable();
    ExpandStepAt(s, cp, 3, 11, key, 6, key + 0x100_0000);
    Parts2Of5(s, cp, key + 0x100_0000);
    Parts3Of11From7(s, cp, key);
  }
  lemma Parts3Of11From5(s: seq<real>, cp: seq<real>, key: nat)
    requires |s| == 16 && |cp| == 16
    ensures ExpandFrom(s, cp, 3, 11, key, 5) == 1.0 * Leaf(s, cp, key + 0x10_2000) + 2.0 * Leaf(s, cp, key + 0x11_0100) + 2.0 * Leaf(s, cp, key + 0x20_0010) + 2.0 * Leaf(s, cp, key + 0x100_1100) + 2.0 * Leaf(s, cp, key + 0x101_0010) + 1.0 * Leaf(s, cp, key + 0x1000_0200) + 2.0 * Leaf(s, cp, key + 0x1000_1010) + 2.0 * Leaf(s, cp, key + 0x1_0000_0110) + 1.0 * Leaf(s, cp, key + 0x10_0000_0020)
  {
    RadixTable();
    ExpandStepAt(s, cp, 3, 11, key, 5, key + 0x10_0000);
    Parts2Of6(s, cp, key + 0x10_0000);
    Parts3Of11From6(s, cp, key);
  }
  lemma Parts3Of11From4(s: seq<real>, cp: seq<real>, key: nat)
    requires |s| == 16 && |cp| == 16
    ensures ExpandFrom(s, cp, 3, 11, key, 4) == 2.0 * Leaf(s, cp, key + 0x2_1000) + 1.0 * Leaf(s, cp, key + 0x10_2000) + 4.0 * Leaf(s, cp, key + 0x11_0100) + 2.0 * Leaf(s, cp, key + 0x20_0010) + 2.0 * Leaf(s, cp, key + 0x100_1100) + 4.0 * Leaf(s, cp, key + 0x101_0010) + 1.0 * Leaf(s, cp, key + 0x1000_0200) + 2.0 * Leaf(s, cp, key + 0x1000_1010) + 2.0 * Leaf(s, cp, key + 0x1_0000_0110) + 1.0 * Leaf(s, cp, key + 0x10_0000_0020)
  {
    RadixTable();
    ExpandStepAt(s, cp, 3, 11, key, 4, key + 0x1_0000);
    Parts2Of7(s, cp, key + 0x1_0000);
    Parts3Of11From5(s, cp, key);
  }
  lemma Parts3Of11From3(s: seq<real>, cp: seq<real>, key: nat)
    requires |s| == 16 && |cp| == 16
    ensures ExpandFrom(s, cp, 3, 11, key, 3) == 3.0 * Leaf(s, cp, key + 0x2_1000) + 3.0 * Leaf(s, cp, key + 0x10_2000) + 4.0 * Leaf(s, cp, key + 0x11_0100) + 2.0 * Leaf(s, cp, key + 0x20_0010) + 4.0 * Leaf(s, cp, key + 0x100_1100) + 4.0 * Leaf(s, cp, key + 0x101_0010) + 1.0 * Leaf(s, cp, key + 0x1000_0200) + 4.0 * Leaf(s, cp, key + 0x1000_1010) + 2.0 * Leaf(s, cp, key + 0x1_0000_0110) + 1.0 * Leaf(s, cp, key + 0x10_0000_0020)
  {
    RadixTable();
    ExpandStepAt(s, cp, 3, 11, key, 3, key + 0x1000);
    Parts2Of8(s, cp, key + 0x1000);
    Parts3Of11From4(s, cp, key);
  }
  lemma Parts3Of11From2(s: seq<real>, cp: seq<real>, key: nat)
    requires |s| == 16 && |cp| == 16
    ensures ExpandFrom(s, cp, 3, 11, key, 2) == 3.0 * Leaf(s, cp, key + 0x2_1000) + 3.0 * Leaf(s, cp, key + 0x10_2000) + 6.0 * Leaf(s, cp, key + 0x11_0100) + 2.0 * Leaf(s, cp, key + 0x20_0010) + 6.0 * Leaf(s, cp, key + 0x100_1100) + 4.0 * Leaf(s, cp, key + 0x101_0010) + 3.0 * Leaf(s, cp, key + 0x1000_0200) + 4.0 * Leaf(s, cp, key + 0x1000_1010) + 4.0 * Leaf(s, cp, key + 0x1_0000_0110) + 1.0 * Leaf(s, cp, key + 0x10_0000_0020)
  {
    RadixTable();
    ExpandStepAt(s, cp, 3, 11, key, 2, key + 0x100);
    Parts2Of9(s, cp, key + 0x100);
    Parts3Of11From3(s, cp, key);
  }
  lemma Parts3Of11From1(s: seq<real>, cp: seq<real>, key: nat)
    requires |s| == 16 && |cp| == 16
    ensures ExpandFrom(s, cp, 3, 11, key, 1) == 3.0 * Leaf(s, cp, key + 0x2_1000) + 3.0 * Leaf(s, cp, key + 0x10_2000) + 6.0 * Leaf(s, cp, key + 0x11_0100) + 3.0 * Leaf(s, cp, key + 0x20_0010) + 6.0 * Leaf(s, cp, key + 0x100_1100) + 6.0 * Leaf(s, cp, key + 0x101_0010) + 3.0 * Leaf(s, cp, key + 0x1000_0200) + 6.0 * Leaf(s, cp, key + 0x1000_1010) + 6.0 * Leaf(s, cp, key + 0x1_0000_0110) + 3.0 * Leaf(s, cp, key + 0x10_0000_0020)
  {
    RadixTable();
    ExpandStepAt(s, cp, 3, 11, key, 1, key + 0x10);
    Parts2Of10(s, cp, key + 0x10);
    Parts3Of11From2(s, cp, key);
  }
  lemma Parts3Of11(s: seq<real>, cp: seq<real>, key: nat)
    requires |s| == 16 && |cp| == 16
    ensures Expand(s, cp, 3, 11, key) == 3.0 * Leaf(s, cp, key + 0x2_1000) + 3.0 * Leaf(s, cp, key + 0x10_2000) + 6.0 * Leaf(s, cp, key + 0x11_0100) + 3.0 * Leaf(s, cp, key + 0x20_0010) + 6.0 * Leaf(s, cp, key + 0x100_1100) + 6.0 * Leaf(s, cp, key + 0x101_0010) + 3.0 * Leaf(s, cp, key + 0x1000_0200) + 6.0 * Leaf(s, cp, key + 0x1000_1010) + 6.0 * Leaf(s, cp, key + 0x1_0000_0110) + 3.0 * Leaf(s, cp, key + 0x10_0000_0020)
  {
    Parts3Of11From1(s, cp, key);
  }
  lemma Parts4Of11From11(s: seq<real>, cp: seq<real>, key: nat)
    requires |s| == 16 && |cp| == 16
    ensures ExpandFrom(s, cp, 4, 11, key, 11) == 0.0
  {
    RadixTable();
    ExpandStepAt(s, cp, 4, 11, key, 11, key + 0x1000_0000_0000);
    ExpandBelow(s, cp, 3, 0, key + 0x1000_0000_0000);
    assert ExpandFrom(s, cp, 4, 11, key, 12) == 0.0;
  }
  lemma Parts4Of11From10(s: seq<real>, cp: seq<real>, key: nat)
    requires |s| == 16 && |cp| == 16
    ensures ExpandFrom(s, cp, 4, 11, key, 10) == 0.0
  {
    RadixTable();
    ExpandStepAt(s, cp, 4, 11, key, 10, key + 0x100_0000_0000);
    ExpandBelow(s, cp, 3, 1, key + 0x100_0000_0000);
    Parts4Of11From11(s, cp, key);
  }
  lemma Parts4Of11From9(s: seq<real>, cp: seq<real>, key: nat)
    requires |s| == 16 && |cp| == 16
    ensures ExpandFrom(s, cp, 4, 11, key, 9) == 0.0
  {
    RadixTable();
    ExpandStepAt(s, cp, 4, 11, key, 9, key + 0x10_0000_0000);
    ExpandBelow(s, cp, 3, 2, key + 0x10_0000_0000);
    Parts4Of11From10(s, cp, key);
  }
  lemma Parts4Of11From8(s: seq<real>, cp: seq<real>, key: nat)
    requires |s| == 16 && |cp| == 16
    ensures ExpandFrom(s, cp, 4, 11, key, 8) == 1.0 * Leaf(s, cp, key + 0x1_0000_0030)
  {
    RadixTable();
    ExpandStepAt(s, cp, 4, 11, key, 8, key + 0x1_0000_0000);
    Parts3Of3(s, cp, key + 0x1_0000_0000);
    Parts4Of11From9(s, cp, key);
  }
  lemma Parts4Of11From7(s: seq<real>, cp: seq<real>, key: nat)
    requires |s| == 16 && |cp| == 16
    ensures ExpandFrom(s, cp, 4, 11, key, 7) == 3.0 * Leaf(s, cp, key + 0x1000_0120) + 1.0 * Leaf(s, cp, key + 0x1_0000_0030)
  {
    RadixTable();
    ExpandStepAt(s, cp, 4, 11, key, 7, key + 0x1000_0000);
    Parts3Of4(s, cp, key + 0x1000_0000);
    Parts4Of11From8(s, cp, key);
  }
  lemma Parts4Of11From6(s: seq<real>, cp: seq<real>, key: nat)
    requires |s| == 16 && |cp| == 16
    ensures ExpandFrom(s, cp, 4, 11, key, 6) == 3.0 * Leaf(s, cp, key + 0x100_0210) + 3.0 * Leaf(s, cp, key + 0x100_1020) + 3.0 * Leaf(s, cp, key + 0x1000_0120) + 1.0 * Leaf(s, cp, key + 0x1_0000_0030)
  {
    RadixTable();
    ExpandStepAt(s, cp, 4, 11, key, 6, key + 0x100_0000);
    Parts3Of5(s, cp, key + 0x100_0000);
    Parts4Of11From7(s, cp, key);
  }
  lemma Parts4Of11From5(s: seq<real>, cp: seq<real>, key: nat)
    requires |s| == 16 && |cp| == 16
    ensures ExpandFrom(s, cp, 4, 11, key, 5) == 1.0 * Leaf(s, cp, key + 0x10_0300) + 6.0 * Leaf(s, cp, key + 0x10_1110) + 3.0 * Leaf(s, cp, key + 0x11_0020) + 3.0 * Leaf(s, cp, key + 0x100_0210) + 3.0 * Leaf(s, cp, key + 0x100_1020) + 3.0 * Leaf(s, cp, key + 0x1000_0120) + 1.0 * Leaf(s, cp, key + 0x1_0000_0030)
  {
    RadixTable();
    ExpandStepAt(s, cp, 4, 11, key, 5, key + 0x10_0000);
    Parts3Of6(s, cp, key + 0x10_0000);
    Parts4Of11From6(s, cp, key);
  }
  lemma Parts4Of11From4(s: seq<real>, cp: seq<real>, key: nat)
    requires |s| == 16 && |cp| == 16
    ensures ExpandFrom(s, cp, 4, 11, key, 4) == 3.0 * Leaf(s, cp, key + 0x1_1200) + 3.0 * Leaf(s, cp, key + 0x1_2010) + 6.0 * Leaf(s, cp, key + 0x2_0110) + 1.0 * Leaf(s, cp, key + 0x10_0300) + 6.0 * Leaf(s, cp, key + 0x10_1110) + 6.0 * Leaf(s, cp, key + 0x11_0020) + 3.0 * Leaf(s, cp, key + 0x100_0210) + 3.0 * Leaf(s, cp, key + 0x100_1020) + 3.0 * Leaf(s, cp, key + 0x1000_0120) + 1.0 * Leaf(s, cp, key + 0x1_0000_0030)
  {
    RadixTable();
    ExpandStepAt(s, cp, 4, 11, key, 4, key + 0x1_0000);
    Parts3Of7(s, cp, key + 0x1_0000);
    Parts4Of11From5(s, cp, key);
  }
  lemma Parts4Of11From3(s: seq<real>, cp: seq<real>, key: nat)
    requires |s| == 16 && |cp| == 16
    ensures ExpandFrom(s, cp, 4, 11, key, 3) == 3.0 * Leaf(s, cp, key + 0x3100) + 6.0 * Leaf(s, cp, key + 0x1_1200) + 9.0 * Leaf(s, cp, key + 0x1_2010) + 6.0 * Leaf(s, cp, key + 0x2_0110) + 1.0 * Leaf(s, cp, key + 0x10_0300) + 12.0 * Leaf(s, cp, key + 0x10_1110) + 6.0 * Leaf(s, cp, key + 0x11_0020) + 3.0 * Leaf(s, cp, key + 0x100_0210) + 6.0 * Leaf(s, cp, key + 0x100_1020) + 3.0 * Leaf(s, cp, key + 0x1000_0120) + 1.0 * Leaf(s, cp, key + 0x1_0000_0030)
  {
    RadixTable();
    ExpandStepAt(s, cp, 4, 11, key, 3, key + 0x1000);
    Parts3Of8(s, cp, key + 0x1000);
    Parts4Of11From4(s, cp, key);
  }
  lemma Parts4Of11From2(s: seq<real>, cp: seq<real>, key: nat)
    requires |s| == 16 && |cp| == 16
    ensures ExpandFrom(s, cp, 4, 11, key, 2) == 4.0 * Leaf(s, cp, key + 0x3100) + 12.0 * Leaf(s, cp, key + 0x1_1200) + 9.0 * Leaf(s, cp, key + 0x1_2010) + 9.0 * Leaf(s, cp, key + 0x2_0110) + 4.0 * Leaf(s, cp, key + 0x10_0300) + 18.0 * Leaf(s, cp, key + 0x10_1110) + 6.0 * Leaf(s, cp, key + 0x11_0020) + 9.0 * Leaf(s, cp, key + 0x100_0210) + 6.0 * Leaf(s, cp, key + 0x100_1020) + 6.0 * Leaf(s, cp, key + 0x1000_0120) + 1.0 * Leaf(s, cp, key + 0x1_0000_0030)
  {
    RadixTable();
    ExpandStepAt(s, cp, 4, 11, key, 2, key + 0x100);
    Parts3Of9(s, cp, key + 0x100);
    Parts4Of11From3(s, cp, key);
  }
  lemma Parts4Of11From1(s: seq<real>, cp: seq<real>, key: nat)
    requires |s| == 16 && |cp| == 16
    ensures ExpandFrom(s, cp, 4, 11, key, 1) == 4.0 * Leaf(s, cp, key + 0x3100) + 12.0 * Leaf(s, cp, key + 0x1_1200) + 12.0 * Leaf(s, cp, key + 0x1_2010) + 12.0 * Leaf(s, cp, key + 0x2_0110) + 4.0 * Leaf(s, cp, key + 0x10_0300) + 24.0 * Leaf(s, cp, key + 0x10_1110) + 12.0 * Leaf(s, cp, key + 0x11_0020) + 12.0 * Leaf(s, cp, key + 0x100_0210) + 12.0 * Leaf(s, cp, key + 0x100_1020) + 12.0 * Leaf(s, cp, key + 0x1000_0120) + 4.0 * Leaf(s, cp, key + 0x1_0000_0030)
  {
    RadixTable();
    ExpandStepAt(s, cp, 4, 11, key, 1, key + 0x10);
    Parts3Of10(s, cp, key + 0x10);
    Parts4Of11From2(s, cp, key);
  }
  lemma Parts4Of11(s: seq<real>, cp: seq<real>, key: nat)
    requires |s| == 16 && |cp| == 16
    ensures Expand(s, cp, 4, 11, key) == 4.0 * Leaf(s, cp, key + 0x3100) + 12.0 * Leaf(s, cp, key + 0x1_1200) + 12.0 * Leaf(s, cp, key + 0x1_2010) + 12.0 * Leaf(s, cp, key + 0x2_0110) + 4.0 * Leaf(s, cp, key + 0x10_0300) + 24.0 * Leaf(s, cp, key + 0x10_1110) + 12.0 * Leaf(s, cp, key + 0x11_0020) + 12.0 * Leaf(s, cp, key + 0x100_0210) + 12.0 * Leaf(s, cp, key + 0x100_1020) + 12.0 * Leaf(s, cp, key + 0x1000_0120) + 4.0 * Leaf(s, cp, key + 0x1_0000_0030)
  {
    Parts4Of11From1(s, cp, key);
  }
  lemma Parts5Of11From11(s: seq<real>, cp: seq<real>, key: nat)
    requires |s| == 16 && |cp| == 16
    ensures ExpandFrom(s, cp, 5, 11, key, 11) == 0.0
  {
    RadixTable();
    ExpandStepAt(s, cp, 5, 11, key, 11, key + 0x1000_0000_0000);
    ExpandBelow(s, cp, 4, 0, key + 0x1000_0000_0000);
    assert ExpandFrom(s, cp, 5, 11, key, 12) == 0.0;
  }
  lemma Parts5Of11From10(s: seq<real>, cp: seq<real>, key: nat)
    requires |s| == 16 && |cp| == 16
    ensures ExpandFrom(s, cp, 5, 11, key, 10) == 0.0
  {
    RadixTable();
    ExpandStepAt(s, cp, 5, 11, key, 10, key + 0x100_0000_0000);
    ExpandBelow(s, cp, 4, 1, key + 0x100_0000_0000);
    Parts5Of11From11(s, cp, key);
  }
  lemma Parts5Of11From9(s: seq<real>, cp: seq<real>, key: nat)
    requires |s| == 16 && |cp| == 16
    ensures ExpandFrom(s, cp, 5, 11, key, 9) == 0.0
  {
    RadixTable();
    ExpandStepAt(s, cp, 5, 11, key, 9, key + 0x10_0000_0000);
    ExpandBelow(s, cp, 4, 2, key + 0x10_0000_0000);
    Parts5Of11From10(s, cp, key);
  }
  lemma Parts5Of11From8(s: seq<real>, cp: seq<real>, key: nat)
    requires |s| == 16 && |cp| == 16
    ensures ExpandFrom(s, cp, 5, 11, key, 8) == 0.0
  {
    RadixTable();
    ExpandStepAt(s, cp, 5, 11, key, 8, key + 0x1_0000_0000);
    ExpandBelow(s, cp, 4, 3, key + 0x1_0000_0000);
    Parts5Of11From9(s, cp, key);
  }
  lemma Parts5Of11From7(s: seq<real>, cp: seq<real>, key: nat)
    requires |s| == 16 && |cp| == 16
    ensures ExpandFrom(s, cp, 5, 11, key, 7) == 1.0 * Leaf(s, cp, key + 0x1000_0040)
  {
    RadixTable();
    ExpandStepAt(s, cp, 5, 11, key, 7, key + 0x1000_0000);
    Parts4Of4(s, cp, key + 0x1000_0000);
    Parts5Of11From8(s, cp, key);
  }
  lemma Parts5Of11From6(s: seq<real>, cp: seq<real>, key: nat)
    requires |s| == 16 && |cp| == 16
    ensures ExpandFrom(s, cp, 5, 11, key, 6) == 4.0 * Leaf(s, cp, key + 0x100_0130) + 1.0 * Leaf(s, cp, key + 0x1000_0040)
  {
    RadixTable();
    ExpandStepAt(s, cp, 5, 11, key, 6, key + 0x100_0000);
    Parts4Of5(s, cp, key + 0x100_0000);
    Parts5Of11From7(s, cp, key);
  }
  lemma Parts5Of11From5(s: seq<real>, cp: seq<real>, key: nat)
    requires |s| == 16 && |cp| == 16
    ensures ExpandFrom(s, cp, 5, 11, key, 5) == 6.0 * Leaf(s, cp, key + 0x10_0220) + 4.0 * Leaf(s, cp, key + 0x10_1030) + 4.0 * Leaf(s, cp, key + 0x100_0130) + 1.0 * Leaf(s, cp, key + 0x1000_0040)
  {
    RadixTable();
    ExpandStepAt(s, cp, 5, 11, key, 5, key + 0x10_0000);
    Parts4Of6(s, cp, key + 0x10_0000);
    Parts5Of11From6(s, cp, key);
  }
  lemma Parts5Of11From4(s: seq<real>, cp: seq<real>, key: nat)
    requires |s| == 16 && |cp| == 16
    ensures ExpandFrom(s, cp, 5, 11, key, 4) == 4.0 * Leaf(s, cp, key + 0x1_0310) + 12.0 * Leaf(s, cp, key + 0x1_1120) + 4.0 * Leaf(s, cp, key + 0x2_0030) + 6.0 * Leaf(s, cp, key + 0x10_0220) + 4.0 * Leaf(s, cp, key + 0x10_1030) + 4.0 * Leaf(s, cp, key + 0x100_0130) + 1.0 * Leaf(s, cp, key + 0x1000_0040)
  {
    RadixTable();
    ExpandStepAt(s, cp, 5, 11, key, 4, key + 0x1_0000);
    Parts4Of7(s, cp, key + 0x1_0000);
    Parts5Of11From5(s, cp, key);
  }
  lemma Parts5Of11From3(s: seq<real>, cp: seq<real>, key: nat)
    requires |s| == 16 && |cp| == 16
    ensures ExpandFrom(s, cp, 5, 11, key, 3) == 1.0 * Leaf(s, cp, key + 0x1400) + 12.0 * Leaf(s, cp, key + 0x2210) + 6.0 * Leaf(s, cp, key + 0x3020) + 4.0 * Leaf(s, cp, key + 0x1_0310) + 24.0 * Leaf(s, cp, key + 0x1_1120) + 4.0 * Leaf(s, cp, key + 0x2_0030) + 6.0 * Leaf(s, cp, key + 0x10_0220) + 8.0 * Leaf(s, cp, key + 0x10_1030) + 4.0 * Leaf(s, cp, key + 0x100_0130) + 1.0 * Leaf(s, cp, key + 0x1000_0040)
  {
    RadixTable();
    ExpandStepAt(s, cp, 5, 11, key, 3, key + 0x1000);
    Parts4Of8(s, cp, key + 0x1000);
    Parts5Of11From4(s, cp, key);
  }
  lemma Parts5Of11From2(s: seq<real>, cp: seq<real>, key: nat)
    requires |s| == 16 && |cp| == 16
    ensures ExpandFrom(s, cp, 5, 11, key, 2) == 5.0 * Leaf(s, cp, key + 0x1400) + 24.0 * Leaf(s, cp, key + 0x2210) + 6.0 * Leaf(s, cp, key + 0x3020) + 16.0 * Leaf(s, cp, key + 0x1_0310) + 36.0 * Leaf(s, cp, key + 0x1_1120) + 4.0 * Leaf(s, cp, key + 0x2_0030) + 18.0 * Leaf(s, cp, key + 0x10_0220) + 8.0 * Leaf(s, cp, key + 0x10_1030) + 8.0 * Leaf(s, cp, key + 0x100_0130) + 1.0 * Leaf(s, cp, key + 0x1000_0040)
  {
    RadixTable();
    ExpandStepAt(s, cp, 5, 11, key, 2, key + 0x100);
    Parts4Of9(s, cp, key + 0x100);
    Parts5Of11From3(s, cp, key);
  }
  lemma Parts5Of11From1(s: seq<real>, cp: seq<real>, key: nat)
    requires |s| == 16 && |cp| == 16
    ensures ExpandFrom(s, cp, 5, 11, key, 1) == 5.0 * Leaf(s, cp, key + 0x1400) + 30.0 * Leaf(s, cp, key + 0x2210) + 10.0 * Leaf(s, cp, key + 0x3020) + 20.0 * Leaf(s, cp, key + 0x1_0310) + 60.0 * Leaf(s, cp, key + 0x1_1120) + 10.0 * Leaf(s, cp, key + 0x2_0030) + 30.0 * Leaf(s, cp, key + 0x10_0220) + 20.0 * Leaf(s, cp, key + 0x10_1030) + 20.0 * Leaf(s, cp, key + 0x100_0130) + 5.0 * Leaf(s, cp, key + 0x1000_0040)
  {
    RadixTable();
    ExpandStepAt(s, cp, 5, 11, key, 1, key + 0x10);
    Parts4Of10(s, cp, key + 0x10);
    Parts5Of11From2(s, cp, key);
  }
  lemma Parts5Of11(s: seq<real>, cp: seq<real>, key: nat)
    requires |s| == 16 && |cp| == 16
    ensures Expand(s, cp, 5, 11, key) == 5.0 * Leaf(s, cp, key + 0x1400) + 30.0 * Leaf(s, cp, key + 0x2210) + 10.0 * Leaf(s, cp, key + 0x3020) + 20.0 * Leaf(s, cp, key + 0x1_0310) + 60.0 * Leaf(s, cp, key + 0x1_1120) + 10.0 * Leaf(s, cp, key + 0x2_0030) + 30.0 * Leaf(s, cp, key + 0x10_0220) + 20.0 * Leaf(s, cp, key + 0x10_1030) + 20.0 * Leaf(s, cp, key + 0x100_0130) + 5.0 * Leaf(s, cp, key + 0x1000_0040)
  {
    Parts5Of11From1(s, cp, key);
  }
  lemma Parts6Of11From11(s: seq<real>, cp: seq<real>, key: nat)
    requires |s| == 16 && |cp| == 16
    ensures ExpandFrom(s, cp, 6, 11, key, 11) == 0.0
  {
    RadixTable();
    ExpandStepAt(s, cp, 6, 11, key, 11, key + 0x1000_0000_0000);
    ExpandBelow(s, cp, 5, 0, key + 0x1000_0000_0000);
    assert ExpandFrom(s, cp, 6, 11, key, 12) == 0.0;
  }
  lemma Parts6Of11From10(s: seq<real>, cp: seq<real>, key: nat)
    requires |s| == 16 && |cp| == 16
    ensures ExpandFrom(s, cp, 6, 11, key, 10) == 0.0
  {
    RadixTable();
    ExpandStepAt(s, cp, 6, 11, key, 10, key + 0x100_0000_0000);
    ExpandBelow(s, cp, 5, 1, key + 0x100_0000_0000);
    Parts6Of11From11(s, cp, key);
  }
  lemma Parts6Of11From9(s: seq<real>, cp: seq<real>, key: nat)
    requires |s| == 16 && |cp| == 16
    ensures ExpandFrom(s, cp, 6, 11, key, 9) == 0.0
  {
    RadixTable();
    ExpandStepAt(s, cp, 6, 11, key, 9, key + 0x10_0000_0000);
    ExpandBelow(s, cp, 5, 2, key + 0x10_0000_0000);
    Parts6Of11From10(s, cp, key);
  }
  lemma Parts6Of11From8(s: seq<real>, cp: seq<real>, key: nat)
    requires |s| == 16 && |cp| == 16
    ensures ExpandFrom(s, cp, 6, 11, key, 8) == 0.0
  {
    RadixTable();
    ExpandStepAt(s, cp, 6, 11, key, 8, key + 0x1_0000_0000);
    ExpandBelow(s, cp, 5, 3, key + 0x1_0000_0000);
    Parts6Of11From9(s, cp, key);
  }
  lemma Parts6Of11From7(s: seq<real>, cp: seq<real>, key: nat)
    requires |s| == 16 && |cp| == 16
    ensures ExpandFrom(s, cp, 6, 11, key, 7) == 0.0
  {
    RadixTable();
    ExpandStepAt(s, cp, 6, 11, key, 7, key + 0x1000_0000);
    ExpandBelow(s, cp, 5, 4, key + 0x1000_0000);
    Parts6Of11From8(s, cp, key);
  }
  lemma Parts6Of11From6(s: seq<real>, cp: seq<real>, key: nat)
    requires |s| == 16 && |cp| == 16
    ensures ExpandFrom(s, cp, 6, 11, key, 6) == 1.0 * Leaf(s, cp, key + 0x100_0050)
  {
    RadixTable();
    ExpandStepAt(s, cp, 6, 11, key, 6, key + 0x100_0000);
    Parts5Of5(s, cp, key + 0x100_0000);
    Parts6Of11From7(s, cp, key);
  }
  lemma Parts6Of11From5(s: seq<real>, cp: seq<real>, key: nat)
    requires |s| == 16 && |cp| == 16
    ensures ExpandFrom(s, cp, 6, 11, key, 5) == 5.0 * Leaf(s, cp, key + 0x10_0140) + 1.0 * Leaf(s, cp, key + 0x100_0050)
  {
    RadixTable();
    ExpandStepAt(s, cp, 6, 11, key, 5, key + 0x10_0000);
    Parts5Of6(s, cp, key + 0x10_0000);
    Parts6Of11From6(s, cp, key);
  }
  lemma Parts6Of11From4(s: seq<real>, cp: seq<real>, key: nat)
    requires |s| == 16 && |cp| == 16
    ensures ExpandFrom(s, cp, 6, 11, key, 4) == 10.0 * Leaf(s, cp, key + 0x1_0230) + 5.0 * Leaf(s, cp, key + 0x1_1040) + 5.0 * Leaf(s, cp, key + 0x10_0140) + 1.0 * Leaf(s, cp, key + 0x100_0050)
  {
    RadixTable();
    ExpandStepAt(s, cp, 6, 11, key, 4, key + 0x1_0000);
    Parts5Of7(s, cp, key + 0x1_0000);
    Parts6Of11From5(s, cp, key);
  }
  lemma Parts6Of11From3(s: seq<real>, cp: seq<real>, key: nat)
    requires |s| == 16 && |cp| == 16
    ensures ExpandFrom(s, cp, 6, 11, key, 3) == 10.0 * Leaf(s, cp, key + 0x1320) + 20.0 * Leaf(s, cp, key + 0x2130) + 10.0 * Leaf(s, cp, key + 0x1_0230) + 10.0 * Leaf(s, cp, key + 0x1_1040) + 5.0 * Leaf(s, cp, key + 0x10_0140) + 1.0 * Leaf(s, cp, key + 0x100_0050)
  {
    RadixTable();
    ExpandStepAt(s, cp, 6, 11, key, 3, key + 0x1000);
    Parts5Of8(s, cp, key + 0x1000);
    Parts6Of11From4(s, cp, key);
  }
  lemma Parts6Of11From2(s: seq<real>, cp: seq<real>, key: nat)
    requires |s| == 16 && |cp| == 16
    ensures ExpandFrom(s, cp, 6, 11, key, 2) == 5.0 * Leaf(s, cp, key + 0x510) + 40.0 * Leaf(s, cp, key + 0x1320) + 30.0 * Leaf(s, cp, key + 0x2130) + 30.0 * Leaf(s, cp, key + 0x1_0230) + 10.0 * Leaf(s, cp, key + 0x1_1040) + 10.0 * Leaf(s, cp, key + 0x10_0140) + 1.0 * Leaf(s, cp, key + 0x100_0050)
  {
    RadixTable();
    ExpandStepAt(s, cp, 6, 11, key, 2, key + 0x100);
    Parts5Of9(s, cp, key + 0x100);
    Parts6Of11From3(s, cp, key);
  }
  lemma Parts6Of11From1(s: seq<real>, cp: seq<real>, key: nat)
    requires |s| == 16 && |cp| == 16
    ensures ExpandFrom(s, cp, 6, 11, key, 1) == 6.0 * Leaf(s, cp, key + 0x510) + 60.0 * Leaf(s, cp, key + 0x1320) + 60.0 * Leaf(s, cp, key + 0x2130) + 60.0 * Leaf(s, cp, key + 0x1_0230) + 30.0 * Leaf(s, cp, key + 0x1_1040) + 30.0 * Leaf(s, cp, key + 0x10_0140) + 6.0 * Leaf(s, cp, key + 0x100_0050)
  {
    RadixTable();
    ExpandStepAt(s, cp, 6, 11, key, 1, key + 0x10);
    Parts5Of10(s, cp, key + 0x10);
    Parts6Of11From2(s, cp, key);
  }
  lemma Parts6Of11(s: seq<real>, cp: seq<real>, key: nat)
    requires |s| == 16 && |cp| == 16
    ensures Expand(s, cp, 6, 11, key) == 6.0 * Leaf(s, cp, key + 0x510) + 60.0 * Leaf(s, cp, key + 0x1320) + 60.0 * Leaf(s, cp, key + 0x2130) + 60.0 * Leaf(s, cp, key + 0x1_0230) + 30.0 * Leaf(s, cp, key + 0x1_1040) + 30.0 * Leaf(s, cp, key + 0x10_0140) + 6.0 * Leaf(s, cp, key + 0x100_0050)
  {
    Parts6Of11From1(s, cp, key);
  }
  lemma Parts7Of11From11(s: seq<real>, cp: seq<real>, key: nat)
    requires |s| == 16 && |cp| == 16
    ensures ExpandFrom(s, cp, 7, 11, key, 11) == 0.0
  {
    RadixTable();
    ExpandStepAt(s, cp, 7, 11, key, 11, key + 0x1000_0000_0000);
    ExpandBelow(s, cp, 6, 0, key + 0x1000_0000_0000);
    assert ExpandFrom(s, cp, 7, 11, key, 12) == 0.0;
  }
  lemma Parts7Of11From10(s: seq<real>, cp: seq<real>, key: nat)
    requires |s| == 16 && |cp| == 16
    ensures ExpandFrom(s, cp, 7, 11, key, 10) == 0.0
  {
    RadixTable();
    ExpandStepAt(s, cp, 7, 11, key, 10, key + 0x100_0000_0000);
    ExpandBelow(s, cp, 6, 1, key + 0x100_0000_0000);
    Parts7Of11From11(s, cp, key);
  }
  lemma Parts7Of11From9(s: seq<real>, cp: seq<real>, key: nat)
    requires |s| == 16 && |cp| == 16
    ensures ExpandFrom(s, cp, 7, 11, key, 9) == 0.0
  {
    RadixTable();
    ExpandStepAt(s, cp, 7, 11, key, 9, key + 0x10_0000_0000);
    ExpandBelow(s, cp, 6, 2, key + 0x10_0000_0000);
    Parts7Of11From10(s, cp, key);
  }
  lemma Parts7Of11From8(s: seq<real>, cp: seq<real>, key: nat)
    requires |s| == 16 && |cp| == 16
    ensures ExpandFrom(s, cp, 7, 11, key, 8) == 0.0
  {
    RadixTable();
    ExpandStepAt(s, cp, 7, 11, key, 8, key + 0x1_0000_0000);
    ExpandBelow(s, cp, 6, 3, key + 0x1_0000_0000);
    Parts7Of11From9(s, cp, key);
  }
  lemma Parts7Of11From7(s: seq<real>, cp: seq<real>, key: nat)
    requires |s| == 16 && |cp| == 16
    ensures ExpandFrom(s, cp, 7, 11, key, 7) == 0.0
  {
    RadixTable();
    ExpandStepAt(s, cp, 7, 11, key, 7, key + 0x1000_0000);
    ExpandBelow(s, cp, 6, 4, key + 0x1000_0000);
    Parts7Of11From8(s, cp, key);
  }
  lemma Parts7Of11From6(s: seq<real>, cp: seq<real>, key: nat)
    requires |s| == 16 && |cp| == 16
    ensures ExpandFrom(s, cp, 7, 11, key, 6) == 0.0
  {
    RadixTable();
    ExpandStepAt(s, cp, 7, 11, key, 6, key + 0x100_0000);
    ExpandBelow(s, cp, 6, 5, key + 0x100_0000);
    Parts7Of11From7(s, cp, key);
  }
  lemma Parts7Of11From5(s: seq<real>, cp: seq<real>, key: nat)
    requires |s| == 16 && |cp| == 16
    ensures ExpandFrom(s, cp, 7, 11, key, 5) == 1.0 * Leaf(s, cp, key + 0x10_0060)
  {
    RadixTable();
    ExpandStepAt(s, cp, 7, 11, key, 5, key + 0x10_0000);
    Parts6Of6(s, cp, key + 0x10_0000);
    Parts7Of11From6(s, cp, key);
  }
  lemma Parts7Of11From4(s: seq<real>, cp: seq<real>, key: nat)
    requires |s| == 16 && |cp| == 16
    ensures ExpandFrom(s, cp, 7, 11, key, 4) == 6.0 * Leaf(s, cp, key + 0x1_0150) + 1.0 * Leaf(s, cp, key + 0x10_0060)
  {
    RadixTable();
    ExpandStepAt(s, cp, 7, 11, key, 4, key + 0x1_0000);
    Parts6Of7(s, cp, key + 0x1_0000);
    Parts7Of11From5(s, cp, key);
  }
  lemma Parts7Of11From3(s: seq<real>, cp: seq<real>, key: nat)
    requires |s| == 16 && |cp| == 16
    ensures ExpandFrom(s, cp, 7, 11, key, 3) == 15.0 * Leaf(s, cp, key + 0x1240) + 6.0 * Leaf(s, cp, key + 0x2050) + 6.0 * Leaf(s, cp, key + 0x1_0150) + 1.0 * Leaf(s, cp, key + 0x10_0060)
  {
    RadixTable();
    ExpandStepAt(s, cp, 7, 11, key, 3, key + 0x1000);
    Parts6Of8(s, cp, key + 0x1000);
    Parts7Of11From4(s, cp, key);
  }
  lemma Parts7Of11From2(s: seq<real>, cp: seq<real>, key: nat)
    requires |s| == 16 && |cp| == 16
    ensures ExpandFrom(s, cp, 7, 11, key, 2) == 20.0 * Leaf(s, cp, key + 0x430) + 45.0 * Leaf(s, cp, key + 0x1240) + 6.0 * Leaf(s, cp, key + 0x2050) + 12.0 * Leaf(s, cp, key + 0x1_0150) + 1.0 * Leaf(s, cp, key + 0x10_0060)
  {
    RadixTable();
    ExpandStepAt(s, cp, 7, 11, key, 2, key + 0x100);
    Parts6Of9(s, cp, key + 0x100);
    Parts7Of11From3(s, cp, key);
  }
  lemma Parts7Of11From1(s: seq<real>, cp: seq<real>, key: nat)
    requires |s| == 16 && |cp| == 16
    ensures ExpandFrom(s, cp, 7, 11, key, 1) == 35.0 * Leaf(s, cp, key + 0x430) + 105.0 * Leaf(s, cp, key + 0x1240) + 21.0 * Leaf(s, cp, key + 0x2050) + 42.0 * Leaf(s, cp, key + 0x1_0150) + 7.0 * Leaf(s, cp, key + 0x10_0060)
  {
    RadixTable();
    ExpandStepAt(s, cp, 7, 11, key, 1, key + 0x10);
    Parts6Of10(s, cp, key + 0x10);
    Parts7Of11From2(s, cp, key);
  }
  lemma Parts7Of11(s: seq<real>, cp: seq<real>, key: nat)
    requires |s| == 16 && |cp| == 16
    ensures Expand(s, cp, 7, 11, key) == 35.0 * Leaf(s, cp, key + 0x430) + 105.0 * Leaf(s, cp, key + 0x1240) + 21.0 * Leaf(s, cp, key + 0x2050) + 42.0 * Leaf(s, cp, key + 0x1_0150) + 7.0 * Leaf(s, cp, key + 0x10_0060)
  {
    Parts7Of11From1(s, cp, key);
  }
  lemma Parts8Of11From11(s: seq<real>, cp: seq<real>, key: nat)
    requires |s| == 16 && |cp| == 16
    ensures ExpandFrom(s, cp, 8, 11, key, 11) == 0.0
  {
    RadixTable();
    ExpandStepAt(s, cp, 8, 11, key, 11, key + 0x1000_0000_0000);
    ExpandBelow(s, cp, 7, 0, key + 0x1000_0000_0000);
    assert ExpandFrom(s, cp, 8, 11, key, 12) == 0.0;
  }
  lemma Parts8Of11From10(s: seq<real>, cp: seq<real>, key: nat)
    requires |s| == 16 && |cp| == 16
    ensures ExpandFrom(s, cp, 8, 11, key, 10) == 0.0
  {
    RadixTable();
    ExpandStepAt(s, cp, 8, 11, key, 10, key + 0x100_0000_0000);
    ExpandBelow(s, cp, 7, 1, key + 0x100_0000_0000);
    Parts8Of11From11(s, cp, key);
  }
  lemma Parts8Of11From9(s: seq<real>, cp: seq<real>, key: nat)
    requires |s| == 16 && |cp| == 16
    ensures ExpandFrom(s, cp, 8, 11, key, 9) == 0.0
  {
    RadixTable();
    ExpandStepAt(s, cp, 8, 11, key, 9, key + 0x10_0000_0000);
    ExpandBelow(s, cp, 7, 2, key + 0x10_0000_0000);
    Parts8Of11From10(s, cp, key);
  }
  lemma Parts8Of11From8(s: seq<real>, cp: seq<real>, key: nat)
    requires |s| == 16 && |cp| == 16
    ensures ExpandFrom(s, cp, 8, 11, key, 8) == 0.0
  {
    RadixTable();
    ExpandStepAt(s, cp, 8, 11, key, 8, key + 0x1_0000_0000);
    ExpandBelow(s, cp, 7, 3, key + 0x1_0000_0000);
    Parts8Of11From9(s, cp, key);
  }
  lemma Parts8Of11From7(s: seq<real>, cp: seq<real>, key: nat)
    requires |s| == 16 && |cp| == 16
    ensures ExpandFrom(s, cp, 8, 11, key, 7) == 0.0
  {
    RadixTable();
    ExpandStepAt(s, cp, 8, 11, key, 7, key + 0x1000_0000);
    ExpandBelow(s, cp, 7, 4, key + 0x1000_0000);
    Parts8Of11From8(s, cp, key);
  }
  lemma Parts8Of11From6(s: seq<real>, cp: seq<real>, key: nat)
    requires |s| == 16 && |cp| == 16
    ensures ExpandFrom(s, cp, 8, 11, key, 6) == 0.0
  {
    RadixTable();
    ExpandStepAt(s, cp, 8, 11, key, 6, key + 0x100_0000);
    ExpandBelow(s, cp, 7, 5, key + 0x100_0000);
    Parts8Of11From7(s, cp, key);
  }
  lemma Parts8Of11From5(s: seq<real>, cp: seq<real>, key: nat)
    requires |s| == 16 && |cp| == 16
    ensures ExpandFrom(s, cp, 8, 11, key, 5) == 0.0
  {
    RadixTable();
    ExpandStepAt(s, cp, 8, 11, key, 5, key + 0x10_0000);
    ExpandBelow(s, cp, 7, 6, key + 0x10_0000);
    Parts8Of11From6(s, cp, key);
  }
  lemma Parts8Of11From4(s: seq<real>, cp: seq<real>, key: nat)
    requires |s| == 16 && |cp| == 16
    ensures ExpandFrom(s, cp, 8, 11, key, 4) == 1.0 * Leaf(s, cp, key + 0x1_0070)
  {
    RadixTable();
    ExpandStepAt(s, cp, 8, 11, key, 4, key + 0x1_0000);
    Parts7Of7(s, cp, key + 0x1_0000);
    Parts8Of11From5(s, cp, key);
  }
  lemma Parts8Of11From3(s: seq<real>, cp: seq<real>, key: nat)
    requires |s| == 16 && |cp| == 16
    ensures ExpandFrom(s, cp, 8, 11, key, 3) == 7.0 * Leaf(s, cp, key + 0x1160) + 1.0 * Leaf(s, cp, key + 0x1_0070)
  {
    RadixTable();
    ExpandStepAt(s, cp, 8, 11, key, 3, key + 0x1000);
    Parts7Of8(s, cp, key + 0x1000);
    Parts8Of11From4(s, cp, key);
  }
  lemma Parts8Of11From2(s: seq<real>, cp: seq<real>, key: nat)
    requires |s| == 16 && |cp| == 16
    ensures ExpandFrom(s, cp, 8, 11, key, 2) == 21.0 * Leaf(s, cp, key + 0x350) + 14.0 * Leaf(s, cp, key + 0x1160) + 1.0 * Leaf(s, cp, key + 0x1_0070)
  {
    RadixTable();
    ExpandStepAt(s, cp, 8, 11, key, 2, key + 0x100);
    Parts7Of9(s, cp, key + 0x100);
    Parts8Of11From3(s, cp, key);
  }
  lemma Parts8Of11From1(s: seq<real>, cp: seq<real>, key: nat)
    requires |s| == 16 && |cp| == 16
    ensures ExpandFrom(s, cp, 8, 11, key, 1) == 56.0 * Leaf(s, cp, key + 0x350) + 56.0 * Leaf(s, cp, key + 0x1160) + 8.0 * Leaf(s, cp, key + 0x1_0070)
  {
    RadixTable();
    ExpandStepAt(s, cp, 8, 11, key, 1, key + 0x10);
    Parts7Of10(s, cp, key + 0x10);
    Parts8Of11From2(s, cp, key);
  }
  lemma Parts8Of11(s: seq<real>, cp: seq<real>, key: nat)
    requires |s| == 16 && |cp| == 16
    ensures Expand(s, cp, 8, 11, key) == 56.0 * Leaf(s, cp, key + 0x350) + 56.0 * Leaf(s, cp, key + 0x1160) + 8.0 * Leaf(s, cp, key + 0x1_0070)
  {
    Parts8Of11From1(s, cp, key);
  }
  lemma Parts9Of11From11(s: seq<real>, cp: seq<real>, key: nat)
    requires |s| == 16 && |cp| == 16
    ensures ExpandFrom(s, cp, 9, 11, key, 11) == 0.0
  {
    RadixTable();
    ExpandStepAt(s, cp, 9, 11, key, 11, key + 0x1000_0000_0000);
    ExpandBelow(s, cp, 8, 0, key + 0x1000_0000_0000);
    assert ExpandFrom(s, cp, 9, 11, key, 12) == 0.0;
  }
  lemma Parts9Of11From10(s: seq<real>, cp: seq<real>, key: nat)
    requires |s| == 16 && |cp| == 16
    ensures ExpandFrom(s, cp, 9, 11, key, 10) == 0.0
  {
    RadixTable();
    ExpandStepAt(s, cp, 9, 11, key, 10, key + 0x100_0000_0000);
    ExpandBelow(s, cp, 8, 1, key + 0x100_0000_0000);
    Parts9Of11From11(s, cp, key);
  }
  lemma Parts9Of11From9(s: seq<real>, cp: seq<real>, key: nat)
    requires |s| == 16 && |cp| == 16
    ensures ExpandFrom(s, cp, 9, 11, key, 9) == 0.0
  {
    RadixTable();
    ExpandStepAt(s, cp, 9, 11, key, 9, key + 0x10_0000_0000);
    ExpandBelow(s, cp, 8, 2, key + 0x10_0000_0000);
    Parts9Of11From10(s, cp, key);
  }
  lemma Parts9Of11From8(s: seq<real>, cp: seq<real>, key: nat)
    requires |s| == 16 && |cp| == 16
    ensures ExpandFrom(s, cp, 9, 11, key, 8) == 0.0
  {
    RadixTable();
    ExpandStepAt(s, cp, 9, 11, key, 8, key + 0x1_0000_0000);
    ExpandBelow(s, cp, 8, 3, key + 0x1_0000_0000);
    Parts9Of11From9(s, cp, key);
  }
  lemma Parts9Of11From7(s: seq<real>, cp: seq<real>, key: nat)
    requires |s| == 16 && |cp| == 16
    ensures ExpandFrom(s, cp, 9, 11, key, 7) == 0.0
  {
    RadixTable();
    ExpandStepAt(s, cp, 9, 11, key, 7, key + 0x1000_0000);
    ExpandBelow(s, cp, 8, 4, key + 0x1000_0000);
    Parts9Of11From8(s, cp, key);
  }
  lemma Parts9Of11From6(s: seq<real>, cp: seq<real>, key: nat)
    requires |s| == 16 && |cp| == 16
    ensures ExpandFrom(s, cp, 9, 11, key, 6) == 0.0
  {
    RadixTable();
    ExpandStepAt(s, cp, 9, 11, key, 6, key + 0x100_0000);
    ExpandBelow(s, cp, 8, 5, key + 0x100_0000);
    Parts9Of11From7(s, cp, key);
  }
  lemma Parts9Of11From5(s: seq<real>, cp: seq<real>, key: nat)
    requires |s| == 16 && |cp| == 16
    ensures ExpandFrom(s, cp, 9, 11, key, 5) == 0.0
  {
    RadixTable();
    ExpandStepAt(s, cp, 9, 11, key, 5, key + 0x10_0000);
    ExpandBelow(s, cp, 8, 6, key + 0x10_0000);
    Parts9Of11From6(s, cp, key);
  }
  lemma Parts9Of11From4(s: seq<real>, cp: seq<real>, key: nat)
    requires |s| == 16 && |cp| == 16
    ensures ExpandFrom(s, cp, 9, 11, key, 4) == 0.0
  {
    RadixTable();
    ExpandStepAt(s, cp, 9, 11, key, 4, key + 0x1_0000);
    ExpandBelow(s, cp, 8, 7, key + 0x1_0000);
    Parts9Of11From5(s, cp, key);
  }
  lemma Parts9Of11From3(s: seq<real>, cp: seq<real>, key: nat)
    requires |s| == 16 && |cp| == 16
    ensures ExpandFrom(s, cp, 9, 11, key, 3) == 1.0 * Leaf(s, cp, key + 0x1080)
  {
    RadixTable();
    ExpandStepAt(s, cp, 9, 11, key, 3, key + 0x1000);
    Parts8Of8(s, cp, key + 0x1000);
    Parts9Of11From4(s, cp, key);
  }
  lemma Parts9Of11From2(s: seq<real>, cp: seq<real>, key: nat)
    requires |s| == 16 && |cp| == 16
    ensures ExpandFrom(s, cp, 9, 11, key, 2) == 8.0 * Leaf(s, cp, key + 0x270) + 1.0 * Leaf(s, cp, key + 0x1080)
  {
    RadixTable();
    ExpandStepAt(s, cp, 9, 11, key, 2, key + 0x100);
    Parts8Of9(s, cp, key + 0x100);
    Parts9Of11From3(s, cp, key);
  }
  lemma Parts9Of11From1(s: seq<real>, cp: seq<real>, key: nat)
    requires |s| == 16 && |cp| == 16
    ensures ExpandFrom(s, cp, 9, 11, key, 1) == 36.0 * Leaf(s, cp, key + 0x270) + 9.0 * Leaf(s, cp, key + 0x1080)
  {
    RadixTable();
    ExpandStepAt(s, cp, 9, 11, key, 1, key + 0x10);
    Parts8Of10(s, cp, key + 0x10);
    Parts9Of11From2(s, cp, key);
  }
  lemma Parts9Of11(s: seq<real>, cp: seq<real>, key: nat)
    requires |s| == 16 && |cp| == 16
    ensures Expand(s, cp, 9, 11, key) == 36.0 * Leaf(s, cp, key + 0x270) + 9.0 * Leaf(s, cp, key + 0x1080)
  {
    Parts9Of11From1(s, cp, key);
  }
  lemma Parts10Of11From11(s: seq<real>, cp: seq<real>, key: nat)
    requires |s| == 16 && |cp| == 16
    ensures ExpandFrom(s, cp, 10, 11, key, 11) == 0.0
  {
    RadixTable();
    ExpandStepAt(s, cp, 10, 11, key, 11, key + 0x1000_0000_0000);
    ExpandBelow(s, cp, 9, 0, key + 0x1000_0000_0000);
    assert ExpandFrom(s, cp, 10, 11, key, 12) == 0.0;
  }
  lemma Parts10Of11From10(s: seq<real>, cp: seq<real>, key: nat)
    requires |s| == 16 && |cp| == 16
    ensures ExpandFrom(s, cp, 10, 11, key, 10) == 0.0
  {
    RadixTable();
    ExpandStepAt(s, cp, 10, 11, key, 10, key + 0x100_0000_0000);
    ExpandBelow(s, cp, 9, 1, key + 0x100_0000_0000);
    Parts10Of11From11(s, cp, key);
  }
  lemma Parts10Of11From9(s: seq<real>, cp: seq<real>, key: nat)
    requires |s| == 16 && |cp| == 16
    ensures ExpandFrom(s, cp, 10, 11, key, 9) == 0.0
  {
    RadixTable();
    ExpandStepAt(s, cp, 10, 11, key, 9, key + 0x10_0000_0000);
    ExpandBelow(s, cp, 9, 2, key + 0x10_0000_0000);
    Parts10Of11From10(s, cp, key);
  }
  lemma Parts10Of11From8(s: seq<real>, cp: seq<real>, key: nat)
    requires |s| == 16 && |cp| == 16
    ensures ExpandFrom(s, cp, 10, 11, key, 8) == 0.0
  {
    RadixTable();
    ExpandStepAt(s, cp, 10, 11, key, 8, key + 0x1_0000_0000);
    ExpandBelow(s, cp, 9, 3, key + 0x1_0000_0000);
    Parts10Of11From9(s, cp, key);
  }
  lemma Parts10Of11From7(s: seq<real>, cp: seq<real>, key: nat)
    requires |s| == 16 && |cp| == 16
    ensures ExpandFrom(s, cp, 10, 11, key, 7) == 0.0
  {
    RadixTable();
    ExpandStepAt(s, cp, 10, 11, key, 7, key + 0x1000_0000);
    ExpandBelow(s, cp, 9, 4, key + 0x1000_0000);
    Parts10Of11From8(s, cp, key);
  }
  lemma Parts10Of11From6(s: seq<real>, cp: seq<real>, key: nat)
    requires |s| == 16 && |cp| == 16
    ensures ExpandFrom(s, cp, 10, 11, key, 6) == 0.0
  {
    RadixTable();
    ExpandStepAt(s, cp, 10, 11, key, 6, key + 0x100_0000);
    ExpandBelow(s, cp, 9, 5, key + 0x100_0000);
    Parts10Of11From7(s, cp, key);
  }
  lemma Parts10Of11From5(s: seq<real>, cp: seq<real>, key: nat)
    requires |s| == 16 && |cp| == 16
    ensures ExpandFrom(s, cp, 10, 11, key, 5) == 0.0
  {
    RadixTable();
    ExpandStepAt(s, cp, 10, 11, key, 5, key + 0x10_0000);
    ExpandBelow(s, cp, 9, 6, key + 0x10_0000);
    Parts10Of11From6(s, cp, key);
  }
  lemma Parts10Of11From4(s: seq<real>, cp: seq<real>, key: nat)
    requires |s| == 16 && |cp| == 16
    ensures ExpandFrom(s, cp, 10, 11, key, 4) == 0.0
  {
    RadixTable();
    ExpandStepAt(s, cp, 10, 11, key, 4, key + 0x1_0000);
    ExpandBelow(s, cp, 9, 7, key + 0x1_0000);
    Parts10Of11From5(s, cp, key);
  }
  lemma Parts10Of11From3(s: seq<real>, cp: seq<real>, key: nat)
    requires |s| == 16 && |cp| == 16
    ensures ExpandFrom(s, cp, 10, 11, key, 3) == 0.0
  {
    RadixTable();
    ExpandStepAt(s, cp, 10, 11, key, 3, key + 0x1000);
    ExpandBelow(s, cp, 9, 8, key + 0x1000);
    Parts10Of11From4(s, cp, key);
  }
  lemma Parts10Of11From2(s: seq<real>, cp: seq<real>, key: nat)
    requires |s| == 16 && |cp| == 16
    ensures ExpandFrom(s, cp, 10, 11, key, 2) == 1.0 * Leaf(s, cp, key + 0x190)
  {
    RadixTable();
    ExpandStepAt(s, cp, 10, 11, key, 2, key + 0x100);
    Parts9Of9(s, cp, key + 0x100);
    Parts10Of11From3(s, cp, key);
  }
  lemma Parts10Of11From1(s: seq<real>, cp: seq<real>, key: nat)
    requires |s| == 16 && |cp| == 16
    ensures ExpandFrom(s, cp, 10, 11, key, 1) == 10.0 * Leaf(s, cp, key + 0x190)
  {
    RadixTable();
    ExpandStepAt(s, cp, 10, 11, key, 1, key + 0x10);
    Parts9Of10(s, cp, key + 0x10);
    Parts10Of11From2(s, cp, key);
  }
  lemma Parts10Of11(s: seq<real>, cp: seq<real>, key: nat)
    requires |s| == 16 && |cp| == 16
    ensures Expand(s, cp, 10, 11, key) == 10.0 * Leaf(s, cp, key + 0x190)
  {
    Parts10Of11From1(s, cp, key);
  }
  lemma Parts11Of11From11(s: seq<real>, cp: seq<real>, key: nat)
    requires |s| == 16 && |cp| == 16
    ensures ExpandFrom(s, cp, 11, 11, key, 11) == 0.0
  {
    RadixTable();
    ExpandStepAt(s, cp, 11, 11, key, 11, key + 0x1000_0000_0000);
    ExpandBelow(s, cp, 10, 0, key + 0x1000_0000_0000);
    assert ExpandFrom(s, cp, 11, 11, key, 12) == 0.0;
  }
  lemma Parts11Of11From10(s: seq<real>, cp: seq<real>, key: nat)
    requires |s| == 16 && |cp| == 16
    ensures ExpandFrom(s, cp, 11, 11, key, 10) == 0.0
  {
    RadixTable();
    ExpandStepAt(s, cp, 11, 11, key, 10, key + 0x100_0000_0000);
    ExpandBelow(s, cp, 10, 1, key + 0x100_0000_0000);
    Parts11Of11From11(s, cp, key);
  }
  lemma Parts11Of11From9(s: seq<real>, cp: seq<real>, key: nat)
    requires |s| == 16 && |cp| == 16
    ensures ExpandFrom(s, cp, 11, 11, key, 9) == 0.0
  {
    RadixTable();
    ExpandStepAt(s, cp, 11, 11, key, 9, key + 0x10_0000_0000);
    ExpandBelow(s, cp, 10, 2, key + 0x10_0000_0000);
    Parts11Of11From10(s, cp, key);
  }
  lemma Parts11Of11From8(s: seq<real>, cp: seq<real>, key: nat)
    requires |s| == 16 && |cp| == 16
    ensures ExpandFrom(s, cp, 11, 11, key, 8) == 0.0
  {
    RadixTable();
    ExpandStepAt(s, cp, 11, 11, key, 8, key + 0x1_0000_0000);
    ExpandBelow(s, cp, 10, 3, key + 0x1_0000_0000);
    Parts11Of11From9(s, cp, key);
  }
  lemma Parts11Of11From7(s: seq<real>, cp: seq<real>, key: nat)
    requires |s| == 16 && |cp| == 16
    ensures ExpandFrom(s, cp, 11, 11, key, 7) == 0.0
  {
    RadixTable();
    ExpandStepAt(s, cp, 11, 11, key, 7, key + 0x1000_0000);
    ExpandBelow(s, cp, 10, 4, key + 0x1000_0000);
    Parts11Of11From8(s, cp, key);
  }
  lemma Parts11Of11From6(s: seq<real>, cp: seq<real>, key: nat)
    requires |s| == 16 && |cp| == 16
    ensures ExpandFrom(s, cp, 11, 11, key, 6) == 0.0
  {
    RadixTable();
    ExpandStepAt(s, cp, 11, 11, key, 6, key + 0x100_0000);
    ExpandBelow(s, cp, 10, 5, key + 0x100_0000);
    Parts11Of11From7(s, cp, key);
  }
  lemma Parts11Of11From5(s: seq<real>, cp: seq<real>, key: nat)
    requires |s| == 16 && |cp| == 16
    ensures ExpandFrom(s, cp, 11, 11, key, 5) == 0.0
  {
    RadixTable();
    ExpandStepAt(s, cp, 11, 11, key, 5, key + 0x10_0000);
    ExpandBelow(s, cp, 10, 6, key + 0x10_0000);
    Parts11Of11From6(s, cp, key);
  }
  lemma Parts11Of11From4(s: seq<real>, cp: seq<real>, key: nat)
    requires |s| == 16 && |cp| == 16
    ensures ExpandFrom(s, cp, 11, 11, key, 4) == 0.0
  {
    RadixTable();
    ExpandStepAt(s, cp, 11, 11, key, 4, key + 0x1_0000);
    ExpandBelow(s, cp, 10, 7, key + 0x1_0000);
    Parts11Of11From5(s, cp, key);
  }
  lemma Parts11Of11From3(s: seq<real>, cp: seq<real>, key: nat)
    requires |s| == 16 && |cp| == 16
    ensures ExpandFrom(s, cp, 11, 11, key, 3) == 0.0
  {
    RadixTable();
    ExpandStepAt(s, cp, 11, 11, key, 3, key + 0x1000);
    ExpandBelow(s, cp, 10, 8, key + 0x1000);
    Parts11Of11From4(s, cp, key);
  }
  lemma Parts11Of11From2(s: seq<real>, cp: seq<real>, key: nat)
    requires |s| == 16 && |cp| == 16
    ensures ExpandFrom(s, cp, 11, 11, key, 2) == 0.0
  {
    RadixTable();
    ExpandStepAt(s, cp, 11, 11, key, 2, key + 0x100);
    ExpandBelow(s, cp, 10, 9, key + 0x100);
    Parts11Of11From3(s, cp, key);
  }
  lemma Parts11Of11From1(s: seq<real>, cp: seq<real>, key: nat)
    requires |s| == 16 && |cp| == 16
    ensures ExpandFrom(s, cp, 11, 11, key, 1) == 1.0 * Leaf(s, cp, key + 0xb0)
  {
    RadixTable();
    ExpandStepAt(s, cp, 11, 11, key, 1, key + 0x10);
    Parts10Of10(s, cp, key + 0x10);
    Parts11Of11From2(s, cp, key);
  }
  lemma Parts11Of11(s: seq<real>, cp: seq<real>, key: nat)
    requires |s| == 16 && |cp| == 16
    ensures Expand(s, cp, 11, 11, key) == 1.0 * Leaf(s, cp, key + 0xb0)
  {
    Parts11Of11From1(s, cp, key);
  }
  lemma Parts1Of12From12(s: seq<real>, cp: seq<real>, key: nat)
    requires |s| == 16 && |cp| == 16
    ensures ExpandFrom(s, cp, 1, 12, key, 12) == 1.0 * Leaf(s, cp, key + 0x1_0000_0000_0000)
  {
    RadixTable();
    ExpandStepAt(s, cp, 1, 12, key, 12, key + 0x1_0000_0000_0000);
    assert Expand(s, cp, 0, 0, key + 0x1_0000_0000_0000) == Leaf(s, cp, key + 0x1_0000_0000_0000);
    assert ExpandFrom(s, cp, 1, 12, key, 13) == 0.0;
  }
  lemma Parts1Of12From11(s: seq<real>, cp: seq<real>, key: nat)
    requires |s| == 16 && |cp| == 16
    ensures ExpandFrom(s, cp, 1, 12, key, 11) == 1.0 * Leaf(s, cp, key + 0x1_0000_0000_0000)
  {
    RadixTable();
    ExpandStepAt(s, cp, 1, 12, key, 11, key + 0x1000_0000_0000);
    assert Expand(s, cp, 0, 1, key + 0x1000_0000_0000) == 0.0;
    Parts1Of12From12(s, cp, key);
  }
  lemma Parts1Of12From10(s: seq<real>, cp: seq<real>, key: nat)
    requires |s| == 16 && |cp| == 16
    ensures ExpandFrom(s, cp, 1, 12, key, 10) == 1.0 * Leaf(s, cp, key + 0x1_0000_0000_0000)
  {
    RadixTable();
    ExpandStepAt(s, cp, 1, 12, key, 10, key + 0x100_0000_0000);
    assert Expand(s, cp, 0, 2, key + 0x100_0000_0000) == 0.0;
    Parts1Of12From11(s, cp, key);
  }
  lemma Parts1Of12From9(s: seq<real>, cp: seq<real>, key: nat)
    requires |s| == 16 && |cp| == 16
    ensures ExpandFrom(s, cp, 1, 12, key, 9) == 1.0 * Leaf(s, cp, key + 0x1_0000_0000_0000)
  {
    RadixTable();
    ExpandStepAt(s, cp, 1, 12, key, 9, key + 0x10_0000_0000);
    assert Expand(s, cp, 0, 3, key + 0x10_0000_0000) == 0.0;
    Parts1Of12From10(s, cp, key);
  }
  lemma Parts1Of12From8(s: seq<real>, cp: seq<real>, key: nat)
    requires |s| == 16 && |cp| == 16
    ensures ExpandFrom(s, cp, 1, 12, key, 8) == 1.0 * Leaf(s, cp, key + 0x1_0000_0000_0000)
  {
    RadixTable();
    ExpandStepAt(s, cp, 1, 12, key, 8, key + 0x1_0000_0000);
    assert Expand(s, cp, 0, 4, key + 0x1_0000_0000) == 0.0;
    Parts1Of12From9(s, cp, key);
  }
  lemma Parts1Of12From7(s: seq<real>, cp: seq<real>, key: nat)
    requires |s| == 16 && |cp| == 16
    ensures ExpandFrom(s, cp, 1, 12, key, 7) == 1.0 * Leaf(s, cp, key + 0x1_0000_0000_0000)
  {
    RadixTable();
    ExpandStepAt(s, cp, 1, 12, key, 7, key + 0x1000_0000);
    assert Expand(s, cp, 0, 5, key + 0x1000_0000) == 0.0;
    Parts1Of12From8(s, cp, key);
  }
  lemma Parts1Of12From6(s: seq<real>, cp: seq<real>, key: nat)
    requires |s| == 16 && |cp| == 16
    ensures ExpandFrom(s, cp, 1, 12, key, 6) == 1.0 * Leaf(s, cp, key + 0x1_0000_0000_0000)
  {
    RadixTable();
    ExpandStepAt(s, cp, 1, 12, key, 6, key + 0x100_0000);
    assert Expand(s, cp, 0, 6, key + 0x100_0000) == 0.0;
    Parts1Of12From7(s, cp, key);
  }
  lemma Parts1Of12From5(s: seq<real>, cp: seq<real>, key: nat)
    requires |s| == 16 && |cp| == 16
    ensures ExpandFrom(s, cp, 1, 12, key, 5) == 1.0 * Leaf(s, cp, key + 0x1_0000_0000_0000)
  {
    RadixTable();
    ExpandStepAt(s, cp, 1, 12, key, 5, key + 0x10_0000);
    assert Expand(s, cp, 0, 7, key + 0x10_0000) == 0.0;
    Parts1Of12From6(s, cp, key);
  }
  lemma Parts1Of12From4(s: seq<real>, cp: seq<real>, key: nat)
    requires |s| == 16 && |cp| == 16
    ensures ExpandFrom(s, cp, 1, 12, key, 4) == 1.0 * Leaf(s, cp, key + 0x1_0000_0000_0000)
  {
    RadixTable();
    ExpandStepAt(s, cp, 1, 12, key, 4, key + 0x1_0000);
    assert Expand(s, cp, 0, 8, key + 0x1_0000) == 0.0;
    Parts1Of12From5(s, cp, key);
  }
  lemma Parts1Of12From3(s: seq<real>, cp: seq<real>, key: nat)
    requires |s| == 16 && |cp| == 16
    ensures ExpandFrom(s, cp, 1, 12, key, 3) == 1.0 * Leaf(s, cp, key + 0x1_0000_0000_0000)
  {
    RadixTable();
    ExpandStepAt(s, cp, 1, 12, key, 3, key + 0x1000);
    assert Expand(s, cp, 0, 9, key + 0x1000) == 0.0;
    Parts1Of12From4(s, cp, key);
  }
  lemma Parts1Of12From2(s: seq<real>, cp: seq<real>, key: nat)
    requires |s| == 16 && |cp| == 16
    ensures ExpandFrom(s, cp, 1, 12, key, 2) == 1.0 * Leaf(s, cp, key + 0x1_0000_0000_0000)
  {
    RadixTable();
    ExpandStepAt(s, cp, 1, 12, key, 2, key + 0x100);
    assert Expand(s, cp, 0, 10, key + 0x100) == 0.0;
    Parts1Of12From3(s, cp, key);
  }
  lemma Parts1Of12From1(s: seq<real>, cp: seq<real>, key: nat)
    requires |s| == 16 && |cp| == 16
    ensures ExpandFrom(s, cp, 1, 12, key, 1) == 1.0 * Leaf(s, cp, key + 0x1_0000_0000_0000)
  {
    RadixTable();
    ExpandStepAt(s, cp, 1, 12, key, 1, key + 0x10);
    assert Expand(s, cp, 0, 11, key + 0x10) == 0.0;
    Parts1Of12From2(s, cp, key);
  }
  lemma Parts1Of12(s: seq<real>, cp: seq<real>, key: nat)
    requires |s| == 16 && |cp| == 16
    ensures Expand(s, cp, 1, 12, key) == 1.0 * Leaf(s, cp, key + 0x1_0000_0000_0000)
  {
    Parts1Of12From1(s, cp, key);
  }
  lemma Parts2Of12From12(s: seq<real>, cp: seq<real>, key: nat)
    requires |s| == 16 && |cp| == 16
    ensures ExpandFrom(s, cp, 2, 12, key, 12) == 0.0
  {
    RadixTable();
    ExpandStepAt(s, cp, 2, 12, key, 12, key + 0x1_0000_0000_0000);
    ExpandBelow(s, cp, 1, 0, key + 0x1_0000_0000_0000);
    assert ExpandFrom(s, cp, 2, 12, key, 13) == 0.0;
  }
  lemma Parts2Of12From11(s: seq<real>, cp: seq<real>, key: nat)
    requires |s| == 16 && |cp| == 16
    ensures ExpandFrom(s, cp, 2, 12, key, 11) == 1.0 * Leaf(s, cp, key + 0x1000_0000_0010)
  {
    RadixTable();
    ExpandStepAt(s, cp, 2, 12, key, 11, key + 0x1000_0000_0000);
    Parts1Of1(s, cp, key + 0x1000_0000_0000);
    Parts2Of12From12(s, cp, key);
  }
  lemma Parts2Of12From10(s: seq<real>, cp: seq<real>, key: nat)
    requires |s| == 16 && |cp| == 16
    ensures ExpandFrom(s, cp, 2, 12, key, 10) == 1.0 * Leaf(s, cp, key + 0x100_0000_0100) + 1.0 * Leaf(s, cp, key + 0x1000_0000_0010)
  {
    RadixTable();
    ExpandStepAt(s, cp, 2, 12, key, 10, key + 0x100_0000_0000);
    Parts1Of2(s, cp, key + 0x100_0000_0000);
    Parts2Of12From11(s, cp, key);
  }
  lemma Parts2Of12From9(s: seq<real>, cp: seq<real>, key: nat)
    requires |s| == 16 && |cp| == 16
    ensures ExpandFrom(s, cp, 2, 12, key, 9) == 1.0 * Leaf(s, cp, key + 0x10_0000_1000) + 1.0 * Leaf(s, cp, key + 0x100_0000_0100) + 1.0 * Leaf(s, cp, key + 0x1000_0000_0010)
  {
    RadixTable();
    ExpandStepAt(s, cp, 2, 12, key, 9, key + 0x10_0000_0000);
    Parts1Of3(s, cp, key + 0x10_0000_0000);
    Parts2Of12From10(s, cp, key);
  }
  lemma Parts2Of12From8(s: seq<real>, cp: seq<real>, key: nat)
    requires |s| == 16 && |cp| == 16
    ensures ExpandFrom(s, cp, 2, 12, key, 8) == 1.0 * Leaf(s, cp, key + 0x1_0001_0000) + 1.0 * Leaf(s, cp, key + 0x10_0000_1000) + 1.0 * Leaf(s, cp, key + 0x100_0000_0100) + 1.0 * Leaf(s, cp, key + 0x1000_0000_0010)
  {
    RadixTable();
    ExpandStepAt(s, cp, 2, 12, key, 8, key + 0x1_0000_0000);
    Parts1Of4(s, cp, key + 0x1_0000_0000);
    Parts2Of12From9(s, cp, key);
  }
  lemma Parts2Of12From7(s: seq<real>, cp: seq<real>, key: nat)
    requires |s| == 16 && |cp| == 16
    ensures ExpandFrom(s, cp, 2, 12, key, 7) == 1.0 * Leaf(s, cp, key + 0x1010_0000) + 1.0 * Leaf(s, cp, key + 0x1_0001_0000) + 1.0 * Leaf(s, cp, key + 0x10_0000_1000) + 1.0 * Leaf(s, cp, key + 0x100_0000_0100) + 1.0 * Leaf(s, cp, key + 0x1000_0000_0010)
  {
    RadixTable();
    ExpandStepAt(s, cp, 2, 12, key, 7, key + 0x1000_0000);
    Parts1Of5(s, cp, key + 0x1000_0000);
    Parts2Of12From8(s, cp, key);
  }
  lemma Parts2Of12From6(s: seq<real>, cp: seq<real>, key: nat)
    requires |s| == 16 && |cp| == 16
    ensures ExpandFrom(s, cp, 2, 12, key, 6) == 1.0 * Leaf(s, cp, key + 0x200_0000) + 1.0 * Leaf(s, cp, key + 0x1010_0000) + 1.0 * Leaf(s, cp, key + 0x1_0001_0000) + 1.0 * Leaf(s, cp, key + 0x10_0000_1000) + 1.0 * Leaf(s, cp, key + 0x100_0000_0100) + 1.0 * Leaf(s, cp, key + 0x1000_0000_0010)
  {
    RadixTable();
    ExpandStepAt(s, cp, 2, 12, key, 6, key + 0x100_0000);
    Parts1Of6(s, cp, key + 0x100_0000);
    Parts2Of12From7(s, cp, key);
  }
  lemma Parts2Of12From5(s: seq<real>, cp: seq<real>, key: nat)
    requires |s| == 16 && |cp| == 16
    ensures ExpandFrom(s, cp, 2, 12, key, 5) == 1.0 * Leaf(s, cp, key + 0x200_0000) + 2.0 * Leaf(s, cp, key + 0x1010_0000) + 1.0 * Leaf(s, cp, key + 0x1_0001_0000) + 1.0 * Leaf(s, cp, key + 0x10_0000_1000) + 1.0 * Leaf(s, cp, key + 0x100_0000_0100) + 1.0 * Leaf(s, cp, key + 0x1000_0000_0010)
  {
    RadixTable();
    ExpandStepAt(s, cp, 2, 12, key, 5, key + 0x10_0000);
    Parts1Of7(s, cp, key + 0x10_0000);
    Parts2Of12From6(s, cp, key);
  }
  lemma Parts2Of12From4(s: seq<real>, cp: seq<real>, key: nat)
    requires |s| == 16 && |cp| == 16
    ensures ExpandFrom(s, cp, 2, 12, key, 4) == 1.0 * Leaf(s, cp, key + 0x200_0000) + 2.0 * Leaf(s, cp, key + 0x1010_0000) + 2.0 * Leaf(s, cp, key + 0x1_0001_0000) + 1.0 * Leaf(s, cp, key + 0x10_0000_1000) + 1.0 * Leaf(s, cp, key + 0x100_0000_0100) + 1.0 * Leaf(s, cp, key + 0x1000_0000_0010)
  {
    RadixTable();
    ExpandStepAt(s, cp, 2, 12, key, 4, key + 0x1_0000);
    Parts1Of8(s, cp, key + 0x1_0000);
    Parts2Of12From5(s, cp, key);
  }
  lemma Parts2Of12From3(s: seq<real>, cp: seq<real>, key: nat)
    requires |s| == 16 && |cp| == 16
    ensures ExpandFrom(s, cp, 2, 12, key, 3) == 1.0 * Leaf(s, cp, key + 0x200_0000) + 2.0 * Leaf(s, cp, key + 0x1010_0000) + 2.0 * Leaf(s, cp, key + 0x1_0001_0000) + 2.0 * Leaf(s, cp, key + 0x10_0000_1000) + 1.0 * Leaf(s, cp, key + 0x100_0000_0100) + 1.0 * Leaf(s, cp, key + 0x1000_0000_0010)
  {
    RadixTable();
    ExpandStepAt(s, cp, 2, 12, key, 3, key + 0x1000);
    Parts1Of9(s, cp, key + 0x1000);
    Parts2Of12From4(s, cp, key);
  }
  lemma Parts2Of12From2(s: seq<real>, cp: seq<real>, key: nat)
    requires |s| == 16 && |cp| == 16
    ensures ExpandFrom(s, cp, 2, 12, key, 2) == 1.0 * Leaf(s, cp, key + 0x200_0000) + 2.0 * Leaf(s, cp, key + 0x1010_0000) + 2.0 * Leaf(s, cp, key + 0x1_0001_0000) + 2.0 * Leaf(s, cp, key + 0x10_0000_1000) + 2.0 * Leaf(s, cp, key + 0x100_0000_0100) + 1.0 * Leaf(s, cp, key + 0x1000_0000_0010)
  {
    RadixTable();
    ExpandStepAt(s, cp, 2, 12, key, 2, key + 0x100);
    Parts1Of10(s, cp, key + 0x100);
    Parts2Of12From3(s, cp, key);
  }
  lemma Parts2Of12From1(s: seq<real>, cp: seq<real>, key: nat)
    requires |s| == 16 && |cp| == 16
    ensures ExpandFrom(s, cp, 2, 12, key, 1) == 1.0 * Leaf(s, cp, key + 0x200_0000) + 2.0 * Leaf(s, cp, key + 0x1010_0000) + 2.0 * Leaf(s, cp, key + 0x1_0001_0000) + 2.0 * Leaf(s, cp, key + 0x10_0000_1000) + 2.0 * Leaf(s, cp, key + 0x100_0000_0100) + 2.0 * Leaf(s, cp, key + 0x1000_0000_0010)
  {
    RadixTable();
    ExpandStepAt(s, cp, 2, 12, key, 1, key + 0x10);
    Parts1Of11(s, cp, key + 0x10);
    Parts2Of12From2(s, cp, key);
  }
  lemma Parts2Of12(s: seq<real>, cp: seq<real>, key: nat)
    requires |s| == 16 && |cp| == 16
    ensures Expand(s, cp, 2, 12, key) == 1.0 * Leaf(s, cp, key + 0x200_0000) + 2.0 * Leaf(s, cp, key + 0x1010_0000) + 2.0 * Leaf(s, cp, key + 0x1_0001_0000) + 2.0 * Leaf(s, cp, key + 0x10_0000_1000) + 2.0 * Leaf(s, cp, key + 0x100_0000_0100) + 2.0 * Leaf(s, cp, key + 0x1000_0000_0010)
  {
    Parts2Of12From1(s, cp, key);
  }
  lemma Parts3Of12From12(s: seq<real>, cp: seq<real>, key: nat)
    requires |s| == 16 && |cp| == 16
    ensures ExpandFrom(s, cp, 3, 12, key, 12) == 0.0
  {
    RadixTable();
    ExpandStepAt(s, cp, 3, 12, key, 12, key + 0x1_0000_0000_0000);
    ExpandBelow(s, cp, 2, 0, key + 0x1_0000_0000_0000);
    assert ExpandFrom(s, cp, 3, 12, key, 13) == 0.0;
  }
  lemma Parts3Of12From11(s: seq<real>, cp: seq<real>, key: nat)
    requires |s| == 16 && |cp| == 16
    ensures ExpandFrom(s, cp, 3, 12, key, 11) == 0.0
  {
    RadixTable();
    ExpandStepAt(s, cp, 3, 12, key, 11, key + 0x1000_0000_0000);
    ExpandBelow(s, cp, 2, 1, key + 0x1000_0000_0000);
    Parts3Of12From12(s, cp, key);
  }
  lemma Parts3Of12From10(s: seq<real>, cp: seq<real>, key: nat)
    requires |s| == 16 && |cp| == 16
    ensures ExpandFrom(s, cp, 3, 12, key, 10) == 1.0 * Leaf(s, cp, key + 0x100_0000_0020)
  {
    RadixTable();
    ExpandStepAt(s, cp, 3, 12, key, 10, key + 0x100_0000_0000);
    Parts2Of2(s, cp, key + 0x100_0000_0000);
    Parts3Of12From11(s, cp, key);
  }
  lemma Parts3Of12From9(s: seq<real>, cp: seq<real>, key: nat)
    requires |s| == 16 && |cp| == 16
    ensures ExpandFrom(s, cp, 3, 12, key, 9) == 2.0 * Leaf(s, cp, key + 0x10_0000_0110) + 1.0 * Leaf(s, cp, key + 0x100_0000_0020)
  {
    RadixTable();
    ExpandStepAt(s, cp, 3, 12, key, 9, key + 0x10_0000_0000);
    Parts2Of3(s, cp, key + 0x10_0000_0000);
    Parts3Of12From10(s, cp, key);
  }
  lemma Parts3Of12From8(s: seq<real>, cp: seq<real>, key: nat)
    requires |s| == 16 && |cp| == 16
    ensures ExpandFrom(s, cp, 3, 12, key, 8) == 1.0 * Leaf(s, cp, key + 0x1_0000_0200) + 2.0 * Leaf(s, cp, key + 0x1_0000_1010) + 2.0 * Leaf(s, cp, key + 0x10_0000_0110) + 1.0 * Leaf(s, cp, key + 0x100_0000_0020)
  {
    RadixTable();
    ExpandStepAt(s, cp, 3, 12, key, 8, key + 0x1_0000_0000);
    Parts2Of4(s, cp, key + 0x1_0000_0000);
    Parts3Of12From9(s, cp, key);
  }
  lemma Parts3Of12From7(s: seq<real>, cp: seq<real>, key: nat)
    requires |s| == 16 && |cp| == 16
    ensures ExpandFrom(s, cp, 3, 12, key, 7) == 2.0 * Leaf(s, cp, key + 0x1000_1100) + 2.0 * Leaf(s, cp, key + 0x1001_0010) + 1.0 * Leaf(s, cp, key + 0x1_0000_0200) + 2.0 * Leaf(s, cp, key + 0x1_0000_1010) + 2.0 * Leaf(s, cp, key + 0x10_0000_0110) + 1.0 * Leaf(s, cp, key + 0x100_0000_0020)
  {
    RadixTable();
    ExpandStepAt(s, cp, 3, 12, key, 7, key + 0x1000_0000);
    Parts2Of5(s, cp, key + 0x1000_0000);
    Parts3Of12From8(s, cp, key);
  }
  lemma Parts3Of12From6(s: seq<real>, cp: seq<real>, key: nat)
    requires |s| == 16 && |cp| == 16
    ensures ExpandFrom(s, cp, 3, 12, key, 6) == 1.0 * Leaf(s, cp, key + 0x100_2000) + 2.0 * Leaf(s, cp, key + 0x101_0100) + 2.0 * Leaf(s, cp, key + 0x110_0010) + 2.0 * Leaf(s, cp, key + 0x1000_1100) + 2.0 * Leaf(s, cp, key + 0x1001_0010) + 1.0 * Leaf(s, cp, key + 0x1_0000_0200) + 2.0 * Leaf(s, cp, key + 0x1_0000_1010) + 2.0 * Leaf(s, cp, key + 0x10_0000_0110) + 1.0 * Leaf(s, cp, key + 0x100_0000_0020)
  {
    RadixTable();
    ExpandStepAt(s, cp, 3, 12, key, 6, key + 0x100_0000);
    Parts2Of6(s, cp, key + 0x100_0000);
    Parts3Of12From7(s, cp, key);
  }
  lemma Parts3Of12From5(s: seq<real>, cp: seq<real>, key: nat)
    requires |s| == 16 && |cp| == 16
    ensures ExpandFrom(s, cp, 3, 12, key, 5) == 2.0 * Leaf(s, cp, key + 0x11_1000) + 2.0 * Leaf(s, cp, key + 0x20_0100) + 1.0 * Leaf(s, cp, key + 0x100_2000) + 2.0 * Leaf(s, cp, key + 0x101_0100) + 4.0 * Leaf(s, cp, key + 0x110_0010) + 2.0 * Leaf(s, cp, key + 0x1000_1100) + 2.0 * Leaf(s, cp, key + 0x1001_0010) + 1.0 * Leaf(s, cp, key + 0x1_0000_0200) + 2.0 * Leaf(s, cp, key + 0x1_0000_1010) + 2.0 * Leaf(s, cp, key + 0x10_0000_0110) + 1.0 * Leaf(s, cp, key + 0x100_0000_0020)
  {
    RadixTable();
    ExpandStepAt(s, cp, 3, 12, key, 5, key + 0x10_0000);
    Parts2Of7(s, cp, key + 0x10_0000);
    Parts3Of12From6(s, cp, key);
  }
  lemma Parts3Of12From4(s: seq<real>, cp: seq<real>, key: nat)
    requires |s| == 16 && |cp| == 16
    ensures ExpandFrom(s, cp, 3, 12, key, 4) == 1.0 * Leaf(s, cp, key + 0x3_0000) + 4.0 * Leaf(s, cp, key + 0x11_1000) + 2.0 * Leaf(s, cp, key + 0x20_0100) + 1.0 * Leaf(s, cp, key + 0x100_2000) + 4.0 * Leaf(s, cp, key + 0x101_0100) + 4.0 * Leaf(s, cp, key + 0x110_0010) + 2.0 * Leaf(s, cp, key + 0x1000_1100) + 4.0 * Leaf(s, cp, key + 0x1001_0010) + 1.0 * Leaf(s, cp, key + 0x1_0000_0200) + 2.0 * Leaf(s, cp, key + 0x1_0000_1010) + 2.0 * Leaf(s, cp, key + 0x10_0000_0110) + 1.0 * Leaf(s, cp, key + 0x100_0000_0020)
  {
    RadixTable();
    ExpandStepAt(s, cp, 3, 12, key, 4, key + 0x1_0000);
    Parts2Of8(s, cp, key + 0x1_0000);
    Parts3Of12From5(s, cp, key);
  }
  lemma Parts3Of12From3(s: seq<real>, cp: seq<real>, key: nat)
    requires |s| == 16 && |cp| == 16
    ensures ExpandFrom(s, cp, 3, 12, key, 3) == 1.0 * Leaf(s, cp, key + 0x3_0000) + 6.0 * Leaf(s, cp, key + 0x11_1000) + 2.0 * Leaf(s, cp, key + 0x20_0100) + 3.0 * Leaf(s, cp, key + 0x100_2000) + 4.0 * Leaf(s, cp, key + 0x101_0100) + 4.0 * Leaf(s, cp, key + 0x110_0010) + 4.0 * Leaf(s, cp, key + 0x1000_1100) + 4.0 * Leaf(s, cp, key + 0x1001_0010) + 1.0 * Leaf(s, cp, key + 0x1_0000_0200) + 4.0 * Leaf(s, cp, key + 0x1_0000_1010) + 2.0 * Leaf(s, cp, key + 0x10_0000_0110) + 1.0 * Leaf(s, cp, key + 0x100_0000_0020)
  {
    RadixTable();
    ExpandStepAt(s, cp, 3, 12, key, 3, key + 0x1000);
    Parts2Of9(s, cp, key + 0x1000);
    Parts3Of12From4(s, cp, key);
  }
  lemma Parts3Of12From2(s: seq<real>, cp: seq<real>, key: nat)
    requires |s| == 16 && |cp| == 16
    ensures ExpandFrom(s, cp, 3, 12, key, 2) == 1.0 * Leaf(s, cp, key + 0x3_0000) + 6.0 * Leaf(s, cp, key + 0x11_1000) + 3.0 * Leaf(s, cp, key + 0x20_0100) + 3.0 * Leaf(s, cp, key + 0x100_2000) + 6.0 * Leaf(s, cp, key + 0x101_0100) + 4.0 * Leaf(s, cp, key + 0x110_0010) + 6.0 * Leaf(s, cp, key + 0x1000_1100) + 4.0 * Leaf(s, cp, key + 0x1001_0010) + 3.0 * Leaf(s, cp, key + 0x1_0000_0200) + 4.0 * Leaf(s, cp, key + 0x1_0000_1010) + 4.0 * Leaf(s, cp, key + 0x10_0000_0110) + 1.0 * Leaf(s, cp, key + 0x100_0000_0020)
  {
    RadixTable();
    ExpandStepAt(s, cp, 3, 12, key, 2, key + 0x100);
    Parts2Of10(s, cp, key + 0x100);
    Parts3Of12From3(s, cp, key);
  }
  lemma Parts3Of12From1(s: seq<real>, cp: seq<real>, key: nat)
    requires |s| == 16 && |cp| == 16
    ensures ExpandFrom(s, cp, 3, 12, key, 1) == 1.0 * Leaf(s, cp, key + 0x3_0000) + 6.0 * Leaf(s, cp, key + 0x11_1000) + 3.0 * Leaf(s, cp, key + 0x20_0100) + 3.0 * Leaf(s, cp, key + 0x100_2000) + 6.0 * Leaf(s, cp, key + 0x101_0100) + 6.0 * Leaf(s, cp, key + 0x110_0010) + 6.0 * Leaf(s, cp, key + 0x1000_1100) + 6.0 * Leaf(s, cp, key + 0x1001_0010) + 3.0 * Leaf(s, cp, key + 0x1_0000_0200) + 6.0 * Leaf(s, cp, key + 0x1_0000_1010) + 6.0 * Leaf(s, cp, key + 0x10_0000_0110) + 3.0 * Leaf(s, cp, key + 0x100_0000_0020)
  {
    RadixTable();
    ExpandStepAt(s, cp, 3, 12, key, 1, key + 0x10);
    Parts2Of11(s, cp, key + 0x10);
    Parts3Of12From2(s, cp, key);
  }
  lemma Parts3Of12(s: seq<real>, cp: seq<real>, key: nat)
    requires |s| == 16 && |cp| == 16
    ensures Expand(s, cp, 3, 12, key) == 1.0 * Leaf(s, cp, key + 0x3_0000) + 6.0 * Leaf(s, cp, key + 0x11_1000) + 3.0 * Leaf(s, cp, key + 0x20_0100) + 3.0 * Leaf(s, cp, key + 0x100_2000) + 6.0 * Leaf(s, cp, key + 0x101_0100) + 6.0 * Leaf(s, cp, key + 0x110_0010) + 6.0 * Leaf(s, cp, key + 0x1000_1100) + 6.0 * Leaf(s, cp, key + 0x1001_0010) + 3.0 * Leaf(s, cp, key + 0x1_0000_0200) + 6.0 * Leaf(s, cp, key + 0x1_0000_1010) + 6.0 * Leaf(s, cp, key + 0x10_0000_0110) + 3.0 * Leaf(s, cp, key + 0x100_0000_0020)
  {
    Parts3Of12From1(s, cp, key);
  }
  lemma Parts4Of12From12(s: seq<real>, cp: seq<real>, key: nat)
    requires |s| == 16 && |cp| == 16
    ensures ExpandFrom(s, cp, 4, 12, key, 12) == 0.0
  {
    RadixTable();
    ExpandStepAt(s, cp, 4, 12, key, 12, key + 0x1_0000_0000_0000);
    ExpandBelow(s, cp, 3, 0, key + 0x1_0000_0000_0000);
    assert ExpandFrom(s, cp, 4, 12, key, 13) == 0.0;
  }
  lemma Parts4Of12From11(s: seq<real>, cp: seq<real>, key: nat)
    requires |s| == 16 && |cp| == 16
    ensures ExpandFrom(s, cp, 4, 12, key, 11) == 0.0
  {
    RadixTable();
    ExpandStepAt(s, cp, 4, 12, key, 11, key + 0x1000_0000_0000);
    ExpandBelow(s, cp, 3, 1, key + 0x1000_0000_0000);
    Parts4Of12From12(s, cp, key);
  }
  lemma Parts4Of12From10(s: seq<real>, cp: seq<real>, key: nat)
    requires |s| == 16 && |cp| == 16
    ensures ExpandFrom(s, cp, 4, 12, key, 10) == 0.0
  {
    RadixTable();
    ExpandStepAt(s, cp, 4, 12, key, 10, key + 0x100_0000_0000);
    ExpandBelow(s, cp, 3, 2, key + 0x100_0000_0000);
    Parts4Of12From11(s, cp, key);
  }
  lemma Parts4Of12From9(s: seq<real>, cp: seq<real>, key: nat)
    requires |s| == 16 && |cp| == 16
    ensures ExpandFrom(s, cp, 4, 12, key, 9) == 1.0 * Leaf(s, cp, key + 0x10_0000_0030)
  {
    RadixTable();
    ExpandStepAt(s, cp, 4, 12, key, 9, key + 0x10_0000_0000);
    Parts3Of3(s, cp, key + 0x10_0000_0000);
    Parts4Of12From10(s, cp, key);
  }
  lemma Parts4Of12From8(s: seq<real>, cp: seq<real>, key: nat)
    requires |s| == 16 && |cp| == 16
    ensures ExpandFrom(s, cp, 4, 12, key, 8) == 3.0 * Leaf(s, cp, key + 0x1_0000_0120) + 1.0 * Leaf(s, cp, key + 0x10_0000_0030)
  {
    RadixTable();
    ExpandStepAt(s, cp, 4, 12, key, 8, key + 0x1_0000_0000);
    Parts3Of4(s, cp, key + 0x1_0000_0000);
    Parts4Of12From9(s, cp, key);
  }
  lemma Parts4Of12From7(s: seq<real>, cp: seq<real>, key: nat)
    requires |s| == 16 && |cp| == 16
    ensures ExpandFrom(s, cp, 4, 12, key, 7) == 3.0 * Leaf(s, cp, key + 0x1000_0210) + 3.0 * Leaf(s, cp, key + 0x1000_1020) + 3.0 * Leaf(s, cp, key + 0x1_0000_0120) + 1.0 * Leaf(s, cp, key + 0x10_0000_0030)
  {
    RadixTable();
    ExpandStepAt(s, cp, 4, 12, key, 7, key + 0x1000_0000);
    Parts3Of5(s, cp, key + 0x1000_0000);
    Parts4Of12From8(s, cp, key);
  }
  lemma Parts4Of12From6(s: seq<real>, cp: seq<real>, key: nat)
    requires |s| == 16 && |cp| == 16
    ensures ExpandFrom(s, cp, 4, 12, key, 6) == 1.0 * Leaf(s, cp, key + 0x100_0300) + 6.0 * Leaf(s, cp, key + 0x100_1110) + 3.0 * Leaf(s, cp, key + 0x101_0020) + 3.0 * Leaf(s, cp, key + 0x1000_0210) + 3.0 * Leaf(s, cp, key + 0x1000_1020) + 3.0 * Leaf(s, cp, key + 0x1_0000_0120) + 1.0 * Leaf(s, cp, key + 0x10_0000_0030)
  {
    RadixTable();
    ExpandStepAt(s, cp, 4, 12, key, 6, key + 0x100_0000);
    Parts3Of6(s, cp, key + 0x100_0000);
    Parts4Of12From7(s, cp, key);
  }
  lemma Parts4Of12From5(s: seq<real>, cp: seq<real>, key: nat)
    requires |s| == 16 && |cp| == 16
    ensures ExpandFrom(s, cp, 4, 12, key, 5) == 3.0 * Leaf(s, cp, key + 0x10_1200) + 3.0 * Leaf(s, cp, key + 0x10_2010) + 6.0 * Leaf(s, cp, key + 0x11_0110) + 3.0 * Leaf(s, cp, key + 0x20_0020) + 1.0 * Leaf(s, cp, key + 0x100_0300) + 6.0 * Leaf(s, cp, key + 0x100_1110) + 3.0 * Leaf(s, cp, key + 0x101_0020) + 3.0 * Leaf(s, cp, key + 0x1000_0210) + 3.0 * Leaf(s, cp, key + 0x1000_1020) + 3.0 * Leaf(s, cp, key + 0x1_0000_0120) + 1.0 * Leaf(s, cp, key + 0x10_0000_0030)
  {
    RadixTable();
    ExpandStepAt(s, cp, 4, 12, key, 5, key + 0x10_0000);
    Parts3Of7(s, cp, key + 0x10_0000);
    Parts4Of12From6(s, cp, key);
  }
  lemma Parts4Of12From4(s: seq<real>, cp: seq<real>, key: nat)
    requires |s| == 16 && |cp| == 16
    ensures ExpandFrom(s, cp, 4, 12, key, 4) == 3.0 * Leaf(s, cp, key + 0x1_2100) + 3.0 * Leaf(s, cp, key + 0x2_0200) + 6.0 * Leaf(s, cp, key + 0x2_1010) + 3.0 * Leaf(s, cp, key + 0x10_1200) + 3.0 * Leaf(s, cp, key + 0x10_2010) + 12.0 * Leaf(s, cp, key + 0x11_0110) + 3.0 * Leaf(s, cp, key + 0x20_0020) + 1.0 * Leaf(s, cp, key + 0x100_0300) + 6.0 * Leaf(s, cp, key + 0x100_1110) + 6.0 * Leaf(s, cp, key + 0x101_0020) + 3.0 * Leaf(s, cp, key + 0x1000_0210) + 3.0 * Leaf(s, cp, key + 0x1000_1020) + 3.0 * Leaf(s, cp, key + 0x1_0000_0120) + 1.0 * Leaf(s, cp, key + 0x10_0000_0030)
  {
    RadixTable();
    ExpandStepAt(s, cp, 4, 12, key, 4, key + 0x1_0000);
    Parts3Of8(s, cp, key + 0x1_0000);
    Parts4Of12From5(s, cp, key);
  }
  lemma Parts4Of12From3(s: seq<real>, cp: seq<real>, key: nat)
    requires |s| == 16 && |cp| == 16
    ensures ExpandFrom(s, cp, 4, 12, key, 3) == 1.0 * Leaf(s, cp, key + 0x4000) + 9.0 * Leaf(s, cp, key + 0x1_2100) + 3.0 * Leaf(s, cp, key + 0x2_0200) + 9.0 * Leaf(s, cp, key + 0x2_1010) + 6.0 * Leaf(s, cp, key + 0x10_1200) + 9.0 * Leaf(s, cp, key + 0x10_2010) + 12.0 * Leaf(s, cp, key + 0x11_0110) + 3.0 * Leaf(s, cp, key + 0x20_0020) + 1.0 * Leaf(s, cp, key + 0x100_0300) + 12.0 * Leaf(s, cp, key + 0x100_1110) + 6.0 * Leaf(s, cp, key + 0x101_0020) + 3.0 * Leaf(s, cp, key + 0x1000_0210) + 6.0 * Leaf(s, cp, key + 0x1000_1020) + 3.0 * Leaf(s, cp, key + 0x1_0000_0120) + 1.0 * Leaf(s, cp, key + 0x10_0000_0030)
  {
    RadixTable();
    ExpandStepAt(s, cp, 4, 12, key, 3, key + 0x1000);
    Parts3Of9(s, cp, key + 0x1000);
    Parts4Of12From4(s, cp, key);
  }
  lemma Parts4Of12From2(s: seq<real>, cp: seq<real>, key: nat)
    requires |s| == 16 && |cp| == 16
    ensures ExpandFrom(s, cp, 4, 12, key, 2) == 1.0 * Leaf(s, cp, key + 0x4000) + 12.0 * Leaf(s, cp, key + 0x1_2100) + 6.0 * Leaf(s, cp, key + 0x2_0200) + 9.0 * Leaf(s, cp, key + 0x2_1010) + 12.0 * Leaf(s, cp, key + 0x10_1200) + 9.0 * Leaf(s, cp, key + 0x10_2010) + 18.0 * Leaf(s, cp, key + 0x11_0110) + 3.0 * Leaf(s, cp, key + 0x20_0020) + 4.0 * Leaf(s, cp, key + 0x100_0300) + 18.0 * Leaf(s, cp, key + 0x100_1110) + 6.0 * Leaf(s, cp, key + 0x101_0020) + 9.0 * Leaf(s, cp, key + 0x1000_0210) + 6.0 * Leaf(s, cp, key + 0x1000_1020) + 6.0 * Leaf(s, cp, key + 0x1_0000_0120) + 1.0 * Leaf(s, cp, key + 0x10_0000_0030)
  {
    RadixTable();
    ExpandStepAt(s, cp, 4, 12, key, 2, key + 0x100);
    Parts3Of10(s, cp, key + 0x100);
    Parts4Of12From3(s, cp, key);
  }
  lemma Parts4Of12From1(s: seq<real>, cp: seq<real>, key: nat)
    requires |s| == 16 && |cp| == 16
    ensures ExpandFrom(s, cp, 4, 12, key, 1) == 1.0 * Leaf(s, cp, key + 0x4000) + 12.0 * Leaf(s, cp, key + 0x1_2100) + 6.0 * Leaf(s, cp, key + 0x2_0200) + 12.0 * Leaf(s, cp, key + 0x2_1010) + 12.0 * Leaf(s, cp, key + 0x10_1200) + 12.0 * Leaf(s, cp, key + 0x10_2010) + 24.0 * Leaf(s, cp, key + 0x11_0110) + 6.0 * Leaf(s, cp, key + 0x20_0020) + 4.0 * Leaf(s, cp, key + 0x100_0300) + 24.0 * Leaf(s, cp, key + 0x100_1110) + 12.0 * Leaf(s, cp, key + 0x101_0020) + 12.0 * Leaf(s, cp, key + 0x1000_0210) + 12.0 * Leaf(s, cp, key + 0x1000_1020) + 12.0 * Leaf(s, cp, key + 0x1_0000_0120) + 4.0 * Leaf(s, cp, key + 0x10_0000_0030)
  {
    RadixTable();
    ExpandStepAt(s, cp, 4, 12, key, 1, key + 0x10);
    Parts3Of11(s, cp, key + 0x10);
    Parts4Of12From2(s, cp, key);
  }
  lemma Parts4Of12(s: seq<real>, cp: seq<real>, key: nat)
    requires |s| == 16 && |cp| == 16
    ensures Expand(s, cp, 4, 12, key) == 1.0 * Leaf(s, cp, key + 0x4000) + 12.0 * Leaf(s, cp, key + 0x1_2100) + 6.0 * Leaf(s, cp, key + 0x2_0200) + 12.0 * Leaf(s, cp, key + 0x2_1010) + 12.0 * Leaf(s, cp, key + 0x10_1200) + 12.0 * Leaf(s, cp, key + 0x10_2010) + 24.0 * Leaf(s, cp, key + 0x11_0110) + 6.0 * Leaf(s, cp, key + 0x20_0020) + 4.0 * Leaf(s, cp, key + 0x100_0300) + 24.0 * Leaf(s, cp, key + 0x100_1110) + 12.0 * Leaf(s, cp, key + 0x101_0020) + 12.0 * Leaf(s, cp, key + 0x1000_0210) + 12.0 * Leaf(s, cp, key + 0x1000_1020) + 12.0 * Leaf(s, cp, key + 0x1_0000_0120) + 4.0 * Leaf(s, cp, key + 0x10_0000_0030)
  {
    Parts4Of12From1(s, cp, key);
  }
  lemma Parts5Of12From12(s: seq<real>, cp: seq<real>, key: nat)
    requires |s| == 16 && |cp| == 16
    ensures ExpandFrom(s, cp, 5, 12, key, 12) == 0.0
  {
    RadixTable();
    ExpandStepAt(s, cp, 5, 12, key, 12, key + 0x1_0000_0000_0000);
    ExpandBelow(s, cp, 4, 0, key + 0x1_0000_0000_0000);
    assert ExpandFrom(s, cp, 5, 12, key, 13) == 0.0;
  }
  lemma Parts5Of12From11(s: seq<real>, cp: seq<real>, key: nat)
    requires |s| == 16 && |cp| == 16
    ensures ExpandFrom(s, cp, 5, 12, key, 11) == 0.0
  {
    RadixTable();
    ExpandStepAt(s, cp, 5, 12, key, 11, key + 0x1000_0000_0000);
    ExpandBelow(s, cp, 4, 1, key + 0x1000_0000_0000);
    Parts5Of12From12(s, cp, key);
  }
  lemma Parts5Of12From10(s: seq<real>, cp: seq<real>, key: nat)
    requires |s| == 16 && |cp| == 16
    ensures ExpandFrom(s, cp, 5, 12, key, 10) == 0.0
  {
    RadixTable();
    ExpandStepAt(s, cp, 5, 12, key, 10, key + 0x100_0000_0000);
    ExpandBelow(s, cp, 4, 2, key + 0x100_0000_0000);
    Parts5Of12From11(s, cp, key);
  }
  lemma Parts5Of12From9(s: seq<real>, cp: seq<real>, key: nat)
    requires |s| == 16 && |cp| == 16
    ensures ExpandFrom(s, cp, 5, 12, key, 9) == 0.0
  {
    RadixTable();
    ExpandStepAt(s, cp, 5, 12, key, 9, key + 0x10_0000_0000);
    ExpandBelow(s, cp, 4, 3, key + 0x10_0000_0000);
    Parts5Of12From10(s, cp, key);
  }
  lemma Parts5Of12From8(s: seq<real>, cp: seq<real>, key: nat)
    requires |s| == 16 && |cp| == 16
    ensures ExpandFrom(s, cp, 5, 12, key, 8) == 1.0 * Leaf(s, cp, key + 0x1_0000_0040)
  {
    RadixTable();
    ExpandStepAt(s, cp, 5, 12, key, 8, key + 0x1_0000_0000);
    Parts4Of4(s, cp, key + 0x1_0000_0000);
    Parts5Of12From9(s, cp, key);
  }
  lemma Parts5Of12From7(s: seq<real>, cp: seq<real>, key: nat)
    requires |s| == 16 && |cp| == 16
    ensures ExpandFrom(s, cp, 5, 12, key, 7) == 4.0 * Leaf(s, cp, key + 0x1000_0130) + 1.0 * Leaf(s, cp, key + 0x1_0000_0040)
  {
    RadixTable();
    ExpandStepAt(s, cp, 5, 12, key, 7, key + 0x1000_0000);
    Parts4Of5(s, cp, key + 0x1000_0000);
    Parts5Of12From8(s, cp, key);
  }
  lemma Parts5Of12From6(s: seq<real>, cp: seq<real>, key: nat)
    requires |s| == 16 && |cp| == 16
    ensures ExpandFrom(s, cp, 5, 12, key, 6) == 6.0 * Leaf(s, cp, key + 0x100_0220) + 4.0 * Leaf(s, cp, key + 0x100_1030) + 4.0 * Leaf(s, cp, key + 0x1000_0130) + 1.0 * Leaf(s, cp, key + 0x1_0000_0040)
  {
    RadixTable();
    ExpandStepAt(s, cp, 5, 12, key, 6, key + 0x100_0000);
    Parts4Of6(s, cp, key + 0x100_0000);
    Parts5Of12From7(s, cp, key);
  }
  lemma Parts5Of12From5(s: seq<real>, cp: seq<real>, key: nat)
    requires |s| == 16 && |cp| == 16
    ensures ExpandFrom(s, cp, 5, 12, key, 5) == 4.0 * Leaf(s, cp, key + 0x10_0310) + 12.0 * Leaf(s, cp, key + 0x10_1120) + 4.0 * Leaf(s, cp, key + 0x11_0030) + 6.0 * Leaf(s, cp, key + 0x100_0220) + 4.0 * Leaf(s, cp, key + 0x100_1030) + 4.0 * Leaf(s, cp, key + 0x1000_0130) + 1.0 * Leaf(s, cp, key + 0x1_0000_0040)
  {
    RadixTable();
    ExpandStepAt(s, cp, 5, 12, key, 5, key + 0x10_0000);
    Parts4Of7(s, cp, key + 0x10_0000);
    Parts5Of12From6(s, cp, key);
  }
  lemma Parts5Of12From4(s: seq<real>, cp: seq<real>, key: nat)
    requires |s| == 16 && |cp| == 16
    ensures ExpandFrom(s, cp, 5, 12, key, 4) == 1.0 * Leaf(s, cp, key + 0x1_0400) + 12.0 * Leaf(s, cp, key + 0x1_1210) + 6.0 * Leaf(s, cp, key + 0x1_2020) + 12.0 * Leaf(s, cp, key + 0x2_0120) + 4.0 * Leaf(s, cp, key + 0x10_0310) + 12.0 * Leaf(s, cp, key + 0x10_1120) + 8.0 * Leaf(s, cp, key + 0x11_0030) + 6.0 * Leaf(s, cp, key + 0x100_0220) + 4.0 * Leaf(s, cp, key + 0x100_1030) + 4.0 * Leaf(s, cp, key + 0x1000_0130) + 1.0 * Leaf(s, cp, key + 0x1_0000_0040)
  {
    RadixTable();
    ExpandStepAt(s, cp, 5, 12, key, 4, key + 0x1_0000);
    Parts4Of8(s, cp, key + 0x1_0000);
    Parts5Of12From5(s, cp, key);
  }
  lemma Parts5Of12From3(s: seq<real>, cp: seq<real>, key: nat)
    requires |s| == 16 && |cp| == 16
    ensures ExpandFrom(s, cp, 5, 12, key, 3) == 4.0 * Leaf(s, cp, key + 0x2300) + 12.0 * Leaf(s, cp, key + 0x3110) + 1.0 * Leaf(s, cp, key + 0x1_0400) + 24.0 * Leaf(s, cp, key + 0x1_1210) + 18.0 * Leaf(s, cp, key + 0x1_2020) + 12.0 * Leaf(s, cp, key + 0x2_0120) + 4.0 * Leaf(s, cp, key + 0x10_0310) + 24.0 * Leaf(s, cp, key + 0x10_1120) + 8.0 * Leaf(s, cp, key + 0x11_0030) + 6.0 * Leaf(s, cp, key + 0x100_0220) + 8.0 * Leaf(s, cp, key + 0x100_1030) + 4.0 * Leaf(s, cp, key + 0x1000_0130) + 1.0 * Leaf(s, cp, key + 0x1_0000_0040)
  {
    RadixTable();
    ExpandStepAt(s, cp, 5, 12, key, 3, key + 0x1000);
    Parts4Of9(s, cp, key + 0x1000);
    Parts5Of12From4(s, cp, key);
  }
  lemma Parts5Of12From2(s: seq<real>, cp: seq<real>, key: nat)
    requires |s| == 16 && |cp| == 16
    ensures ExpandFrom(s, cp, 5, 12, key, 2) == 10.0 * Leaf(s, cp, key + 0x2300) + 16.0 * Leaf(s, cp, key + 0x3110) + 5.0 * Leaf(s, cp, key + 0x1_0400) + 48.0 * Leaf(s, cp, key + 0x1_1210) + 18.0 * Leaf(s, cp, key + 0x1_2020) + 18.0 * Leaf(s, cp, key + 0x2_0120) + 16.0 * Leaf(s, cp, key + 0x10_0310) + 36.0 * Leaf(s, cp, key + 0x10_1120) + 8.0 * Leaf(s, cp, key + 0x11_0030) + 18.0 * Leaf(s, cp, key + 0x100_0220) + 8.0 * Leaf(s, cp, key + 0x100_1030) + 8.0 * Leaf(s, cp, key + 0x1000_0130) + 1.0 * Leaf(s, cp, key + 0x1_0000_0040)
  {
    RadixTable();
    ExpandStepAt(s, cp, 5, 12, key, 2, key + 0x100);
    Parts4Of10(s, cp, key + 0x100);
    Parts5Of12From3(s, cp, key);
  }
  lemma Parts5Of12From1(s: seq<real>, cp: seq<real>, key: nat)
    requires |s| == 16 && |cp| == 16
    ensures ExpandFrom(s, cp, 5, 12, key, 1) == 10.0 * Leaf(s, cp, key + 0x2300) + 20.0 * Leaf(s, cp, key + 0x3110) + 5.0 * Leaf(s, cp, key + 0x1_0400) + 60.0 * Leaf(s, cp, key + 0x1_1210) + 30.0 * Leaf(s, cp, key + 0x1_2020) + 30.0 * Leaf(s, cp, key + 0x2_0120) + 20.0 * Leaf(s, cp, key + 0x10_0310) + 60.0 * Leaf(s, cp, key + 0x10_1120) + 20.0 * Leaf(s, cp, key + 0x11_0030) + 30.0 * Leaf(s, cp, key + 0x100_0220) + 20.0 * Leaf(s, cp, key + 0x100_1030) + 20.0 * Leaf(s, cp, key + 0x1000_0130) + 5.0 * Leaf(s, cp, key + 0x1_0000_0040)
  {
    RadixTable();
    ExpandStepAt(s, cp, 5, 12, key, 1, key + 0x10);
    Parts4Of11(s, cp, key + 0x10);
    Parts5Of12From2(s, cp, key);
  }
  lemma Parts5Of12(s: seq<real>, cp: seq<real>, key: nat)
    requires |s| == 16 && |cp| == 16
    ensures Expand(s, cp, 5, 12, key) == 10.0 * Leaf(s, cp, key + 0x2300) + 20.0 * Leaf(s, cp, key + 0x3110) + 5.0 * Leaf(s, cp, key + 0x1_0400) + 60.0 * Leaf(s, cp, key + 0x1_1210) + 30.0 * Leaf(s, cp, key + 0x1_2020) + 30.0 * Leaf(s, cp, key + 0x2_0120) + 20.0 * Leaf(s, cp, key + 0x10_0310) + 60.0 * Leaf(s, cp, key + 0x10_1120) + 20.0 * Leaf(s, cp, key + 0x11_0030) + 30.0 * Leaf(s, cp, key + 0x100_0220) + 20.0 * Leaf(s, cp, key + 0x100_1030) + 20.0 * Leaf(s, cp, key + 0x1000_0130) + 5.0 * Leaf(s, cp, key + 0x1_0000_0040)
  {
    Parts5Of12From1(s, cp, key);
  }
  lemma Parts6Of12From12(s: seq<real>, cp: seq<real>, key: nat)
    requires |s| == 16 && |cp| == 16
    ensures ExpandFrom(s, cp, 6, 12, key, 12) == 0.0
  {
    RadixTable();
    ExpandStepAt(s, cp, 6, 12, key, 12, key + 0x1_0000_0000_0000);
    ExpandBelow(s, cp, 5, 0, key + 0x1_0000_0000_0000);
    assert ExpandFrom(s, cp, 6, 12, key, 13) == 0.0;
  }
  lemma Parts6Of12From11(s: seq<real>, cp: seq<real>, key: nat)
    requires |s| == 16 && |cp| == 16
    ensures ExpandFrom(s, cp, 6, 12, key, 11) == 0.0
  {
    RadixTable();
    ExpandStepAt(s, cp, 6, 12, key, 11, key + 0x1000_0000_0000);
    ExpandBelow(s, cp, 5, 1, key + 0x1000_0000_0000);
    Parts6Of12From12(s, cp, key);
  }
  lemma Parts6Of12From10(s: seq<real>, cp: seq<real>, key: nat)
    requires |s| == 16 && |cp| == 16
    ensures ExpandFrom(s, cp, 6, 12, key, 10) == 0.0
  {
    RadixTable();
    ExpandStepAt(s, cp, 6, 12, key, 10, key + 0x100_0000_0000);
    ExpandBelow(s, cp, 5, 2, key + 0x100_0000_0000);
    Parts6Of12From11(s, cp, key);
  }
  lemma Parts6Of12From9(s: seq<real>, cp: seq<real>, key: nat)
    requires |s| == 16 && |cp| == 16
    ensures ExpandFrom(s, cp, 6, 12, key, 9) == 0.0
  {
    RadixTable();
    ExpandStepAt(s, cp, 6, 12, key, 9, key + 0x10_0000_0000);
    ExpandBelow(s, cp, 5, 3, key + 0x10_0000_0000);
    Parts6Of12From10(s, cp, key);
  }
  lemma Parts6Of12From8(s: seq<real>, cp: seq<real>, key: nat)
    requires |s| == 16 && |cp| == 16
    ensures ExpandFrom(s, cp, 6, 12, key, 8) == 0.0
  {
    RadixTable();
    ExpandStepAt(s, cp, 6, 12, key, 8, key + 0x1_0000_0000);
    ExpandBelow(s, cp, 5, 4, key + 0x1_0000_0000);
    Parts6Of12From9(s, cp, key);
  }
  lemma Parts6Of12From7(s: seq<real>, cp: seq<real>, key: nat)
    requires |s| == 16 && |cp| == 16
    ensures ExpandFrom(s, cp, 6, 12, key, 7) == 1.0 * Leaf(s, cp, key + 0x1000_0050)
  {
    RadixTable();
    ExpandStepAt(s, cp, 6, 12, key, 7, key + 0x1000_0000);
    Parts5Of5(s, cp, key + 0x1000_0000);
    Parts6Of12From8(s, cp, key);
  }
  lemma Parts6Of12From6(s: seq<real>, cp: seq<real>, key: nat)
    requires |s| == 16 && |cp| == 16
    ensures ExpandFrom(s, cp, 6, 12, key, 6) == 5.0 * Leaf(s, cp, key + 0x100_0140) + 1.0 * Leaf(s, cp, key + 0x1000_0050)
  {
    RadixTable();
    ExpandStepAt(s, cp, 6, 12, key, 6, key + 0x100_0000);
    Parts5Of6(s, cp, key + 0x100_0000);
    Parts6Of12From7(s, cp, key);
  }
  lemma Parts6Of12From5(s: seq<real>, cp: seq<real>, key: nat)
    requires |s| == 16 && |cp| == 16
    ensures ExpandFrom(s, cp, 6, 12, key, 5) == 10.0 * Leaf(s, cp, key + 0x10_0230) + 5.0 * Leaf(s, cp, key + 0x10_1040) + 5.0 * Leaf(s, cp, key + 0x100_0140) + 1.0 * Leaf(s, cp, key + 0x1000_0050)
  {
    RadixTable();
    ExpandStepAt(s, cp, 6, 12, key, 5, key + 0x10_0000);
    Parts5Of7(s, cp, key + 0x10_0000);
    Parts6Of12From6(s, cp, key);
  }
  lemma Parts6Of12From4(s: seq<real>, cp: seq<real>, key: nat)
    requires |s| == 16 && |cp| == 16
    ensures ExpandFrom(s, cp, 6, 12, key, 4) == 10.0 * Leaf(s, cp, key + 0x1_0320) + 20.0 * Leaf(s, cp, key + 0x1_1130) + 5.0 * Leaf(s, cp, key + 0x2_0040) + 10.0 * Leaf(s, cp, key + 0x10_0230) + 5.0 * Leaf(s, cp, key + 0x10_1040) + 5.0 * Leaf(s, cp, key + 0x100_0140) + 1.0 * Leaf(s, cp, key + 0x1000_0050)
  {
    RadixTable();
    ExpandStepAt(s, cp, 6, 12, key, 4, key + 0x1_0000);
    Parts5Of8(s, cp, key + 0x1_0000);
    Parts6Of12From5(s, cp, key);
  }
  lemma Parts6Of12From3(s: seq<real>, cp: seq<real>, key: nat)
    requires |s| == 16 && |cp| == 16
    ensures ExpandFrom(s, cp, 6, 12, key, 3) == 5.0 * Leaf(s, cp, key + 0x1410) + 30.0 * Leaf(s, cp, key + 0x2220) + 10.0 * Leaf(s, cp, key + 0x3030) + 10.0 * Leaf(s, cp, key + 0x1_0320) + 40.0 * Leaf(s, cp, key + 0x1_1130) + 5.0 * Leaf(s, cp, key + 0x2_0040) + 10.0 * Leaf(s, cp, key + 0x10_0230) + 10.0 * Leaf(s, cp, key + 0x10_1040) + 5.0 * Leaf(s, cp, key + 0x100_0140) + 1.0 * Leaf(s, cp, key + 0x1000_0050)
  {
    RadixTable();
    ExpandStepAt(s, cp, 6, 12, key, 3, key + 0x1000);
    Parts5Of9(s, cp, key + 0x1000);
    Parts6Of12From4(s, cp, key);
  }
  lemma Parts6Of12From2(s: seq<real>, cp: seq<real>, key: nat)
    requires |s| == 16 && |cp| == 16
    ensures ExpandFrom(s, cp, 6, 12, key, 2) == 1.0 * Leaf(s, cp, key + 0x600) + 25.0 * Leaf(s, cp, key + 0x1410) + 60.0 * Leaf(s, cp, key + 0x2220) + 10.0 * Leaf(s, cp, key + 0x3030) + 40.0 * Leaf(s, cp, key + 0x1_0320) + 60.0 * Leaf(s, cp, key + 0x1_1130) + 5.0 * Leaf(s, cp, key + 0x2_0040) + 30.0 * Leaf(s, cp, key + 0x10_0230) + 10.0 * Leaf(s, cp, key + 0x10_1040) + 10.0 * Leaf(s, cp, key + 0x100_0140) + 1.0 * Leaf(s, cp, key + 0x1000_0050)
  {
    RadixTable();
    ExpandStepAt(s, cp, 6, 12, key, 2, key + 0x100);
    Parts5Of10(s, cp, key + 0x100);
    Parts6Of12From3(s, cp, key);
  }
  lemma Parts6Of12From1(s: seq<real>, cp: seq<real>, key: nat)
    requires |s| == 16 && |cp| == 16
    ensures ExpandFrom(s, cp, 6, 12, key, 1) == 1.0 * Leaf(s, cp, key + 0x600) + 30.0 * Leaf(s, cp, key + 0x1410) + 90.0 * Leaf(s, cp, key + 0x2220) + 20.0 * Leaf(s, cp, key + 0x3030) + 60.0 * Leaf(s, cp, key + 0x1_0320) + 120.0 * Leaf(s, cp, key + 0x1_1130) + 15.0 * Leaf(s, cp, key + 0x2_0040) + 60.0 * Leaf(s, cp, key + 0x10_0230) + 30.0 * Leaf(s, cp, key + 0x10_1040) + 30.0 * Leaf(s, cp, key + 0x100_0140) + 6.0 * Leaf(s, cp, key + 0x1000_0050)
  {
    RadixTable();
    ExpandStepAt(s, cp, 6, 12, key, 1, key + 0x10);
    Parts5Of11(s, cp, key + 0x10);
    Parts6Of12From2(s, cp, key);
  }
  lemma Parts6Of12(s: seq<real>, cp: seq<real>, key: nat)
    requires |s| == 16 && |cp| == 16
    ensures Expand(s, cp, 6, 12, key) == 1.0 * Leaf(s, cp, key + 0x600) + 30.0 * Leaf(s, cp, key + 0x1410) + 90.0 * Leaf(s, cp, key + 0x2220) + 20.0 * Leaf(s, cp, key + 0x3030) + 60.0 * Leaf(s, cp, key + 0x1_0320) + 120.0 * Leaf(s, cp, key + 0x1_1130) + 15.0 * Leaf(s, cp, key + 0x2_0040) + 60.0 * Leaf(s, cp, key + 0x10_0230) + 30.0 * Leaf(s, cp, key + 0x10_1040) + 30.0 * Leaf(s, cp, key + 0x100_0140) + 6.0 * Leaf(s, cp, key + 0x1000_0050)
  {
    Parts6Of12From1(s, cp, key);
  }
  lemma Parts7Of12From12(s: seq<real>, cp: seq<real>, key: nat)
    requires |s| == 16 && |cp| == 16
    ensures ExpandFrom(s, cp, 7, 12, key, 12) == 0.0
  {
    RadixTable();
    ExpandStepAt(s, cp, 7, 12, key, 12, key + 0x1_0000_0000_0000);
    ExpandBelow(s, cp, 6, 0, key + 0x1_0000_0000_0000);
    assert ExpandFrom(s, cp, 7, 12, key, 13) == 0.0;
  }
  lemma Parts7Of12From11(s: seq<real>, cp: seq<real>, key: nat)
    requires |s| == 16 && |cp| == 16
    ensures ExpandFrom(s, cp, 7, 12, key, 11) == 0.0
  {
    RadixTable();
    ExpandStepAt(s, cp, 7, 12, key, 11, key + 0x1000_0000_0000);
    ExpandBelow(s, cp, 6, 1, key + 0x1000_0000_0000);
    Parts7Of12From12(s, cp, key);
  }
  lemma Parts7Of12From10(s: seq<real>, cp: seq<real>, key: nat)
    requires |s| == 16 && |cp| == 16
    ensures ExpandFrom(s, cp, 7, 12, key, 10) == 0.0
  {
    RadixTable();
    ExpandStepAt(s, cp, 7, 12, key, 10, key + 0x100_0000_0000);
    ExpandBelow(s, cp, 6, 2, key + 0x100_0000_0000);
    Parts7Of12From11(s, cp, key);
  }
  lemma Parts7Of12From9(s: seq<real>, cp: seq<real>, key: nat)
    requires |s| == 16 && |cp| == 16
    ensures ExpandFrom(s, cp, 7, 12, key, 9) == 0.0
  {
    RadixTable();
    ExpandStepAt(s, cp, 7, 12, key, 9, key + 0x10_0000_0000);
    ExpandBelow(s, cp, 6, 3, key + 0x10_0000_0000);
    Parts7Of12From10(s, cp, key);
  }
  lemma Parts7Of12From8(s: seq<real>, cp: seq<real>, key: nat)
    requires |s| == 16 && |cp| == 16
    ensures ExpandFrom(s, cp, 7, 12, key, 8) == 0.0
  {
    RadixTable();
    ExpandStepAt(s, cp, 7, 12, key, 8, key + 0x1_0000_0000);
    ExpandBelow(s, cp, 6, 4, key + 0x1_0000_0000);
    Parts7Of12From9(s, cp, key);
  }
  lemma Parts7Of12From7(s: seq<real>, cp: seq<real>, key: nat)
    requires |s| == 16 && |cp| == 16
    ensures ExpandFrom(s, cp, 7, 12, key, 7) == 0.0
  {
    RadixTable();
    ExpandStepAt(s, cp, 7, 12, key, 7, key + 0x1000_0000);
    ExpandBelow(s, cp, 6, 5, key + 0x1000_0000);
    Parts7Of12From8(s, cp, key);
  }
  lemma Parts7Of12From6(s: seq<real>, cp: seq<real>, key: nat)
    requires |s| == 16 && |cp| == 16
    ensures ExpandFrom(s, cp, 7, 12, key, 6) == 1.0 * Leaf(s, cp, key + 0x100_0060)
  {
    RadixTable();
    ExpandStepAt(s, cp, 7, 12, key, 6, key + 0x100_0000);
    Parts6Of6(s, cp, key + 0x100_0000);
    Parts7Of12From7(s, cp, key);
  }
  lemma Parts7Of12From5(s: seq<real>, cp: seq<real>, key: nat)
    requires |s| == 16 && |cp| == 16
    ensures ExpandFrom(s, cp, 7, 12, key, 5) == 6.0 * Leaf(s, cp, key + 0x10_0150) + 1.0 * Leaf(s, cp, key + 0x100_0060)
  {
    RadixTable();
    ExpandStepAt(s, cp, 7, 12, key, 5, key + 0x10_0000);
    Parts6Of7(s, cp, key + 0x10_0000);
    Parts7Of12From6(s, cp, key);
  }
  lemma Parts7Of12From4(s: seq<real>, cp: seq<real>, key: nat)
    requires |s| == 16 && |cp| == 16
    ensures ExpandFrom(s, cp, 7, 12, key, 4) == 15.0 * Leaf(s, cp, key + 0x1_0240) + 6.0 * Leaf(s, cp, key + 0x1_1050) + 6.0 * Leaf(s, cp, key + 0x10_0150) + 1.0 * Leaf(s, cp, key + 0x100_0060)
  {
    RadixTable();
    ExpandStepAt(s, cp, 7, 12, key, 4, key + 0x1_0000);
    Parts6Of8(s, cp, key + 0x1_0000);
    Parts7Of12From5(s, cp, key);
  }
  lemma Parts7Of12From3(s: seq<real>, cp: seq<real>, key: nat)
    requires |s| == 16 && |cp| == 16
    ensures ExpandFrom(s, cp, 7, 12, key, 3) == 20.0 * Leaf(s, cp, key + 0x1330) + 30.0 * Leaf(s, cp, key + 0x2140) + 15.0 * Leaf(s, cp, key + 0x1_0240) + 12.0 * Leaf(s, cp, key + 0x1_1050) + 6.0 * Leaf(s, cp, key + 0x10_0150) + 1.0 * Leaf(s, cp, key + 0x100_0060)
  {
    RadixTable();
    ExpandStepAt(s, cp, 7, 12, key, 3, key + 0x1000);
    Parts6Of9(s, cp, key + 0x1000);
    Parts7Of12From4(s, cp, key);
  }
  lemma Parts7Of12From2(s: seq<real>, cp: seq<real>, key: nat)
    requires |s| == 16 && |cp| == 16
    ensures ExpandFrom(s, cp, 7, 12, key, 2) == 15.0 * Leaf(s, cp, key + 0x520) + 80.0 * Leaf(s, cp, key + 0x1330) + 45.0 * Leaf(s, cp, key + 0x2140) + 45.0 * Leaf(s, cp, key + 0x1_0240) + 12.0 * Leaf(s, cp, key + 0x1_1050) + 12.0 * Leaf(s, cp, key + 0x10_0150) + 1.0 * Leaf(s, cp, key + 0x100_0060)
  {
    RadixTable();
    ExpandStepAt(s, cp, 7, 12, key, 2, key + 0x100);
    Parts6Of10(s, cp, key + 0x100);
    Parts7Of12From3(s, cp, key);
  }
  lemma Parts7Of12From1(s: seq<real>, cp: seq<real>, key: nat)
    requires |s| == 16 && |cp| == 16
    ensures ExpandFrom(s, cp, 7, 12, key, 1) == 21.0 * Leaf(s, cp, key + 0x520) + 140.0 * Leaf(s, cp, key + 0x1330) + 105.0 * Leaf(s, cp, key + 0x2140) + 105.0 * Leaf(s, cp, key + 0x1_0240) + 42.0 * Leaf(s, cp, key + 0x1_1050) + 42.0 * Leaf(s, cp, key + 0x10_0150) + 7.0 * Leaf(s, cp, key + 0x100_0060)
  {
    RadixTable();
    ExpandStepAt(s, cp, 7, 12, key, 1, key + 0x10);
    Parts6Of11(s, cp, key + 0x10);
    Parts7Of12From2(s, cp, key);
  }
  lemma Parts7Of12(s: seq<real>, cp: seq<real>, key: nat)
    requires |s| == 16 && |cp| == 16
    ensures Expand(s, cp, 7, 12, key) == 21.0 * Leaf(s, cp, key + 0x520) + 140.0 * Leaf(s, cp, key + 0x1330) + 105.0 * Leaf(s, cp, key + 0x2140) + 105.0 * Leaf(s, cp, key + 0x1_0240) + 42.0 * Leaf(s, cp, key + 0x1_1050) + 42.0 * Leaf(s, cp, key + 0x10_0150) + 7.0 * Leaf(s, cp, key + 0x100_0060)
  {
    Parts7Of12From1(s, cp, key);
  }
  lemma Parts8Of12From12(s: seq<real>, cp: seq<real>, key: nat)
    requires |s| == 16 && |cp| == 16
    ensures ExpandFrom(s, cp, 8, 12, key, 12) == 0.0
  {
    RadixTable();
    ExpandStepAt(s, cp, 8, 12, key, 12, key + 0x1_0000_0000_0000);
    ExpandBelow(s, cp, 7, 0, key + 0x1_0000_0000_0000);
    assert ExpandFrom(s, cp, 8, 12, key, 13) == 0.0;
  }
  lemma Parts8Of12From11(s: seq<real>, cp: seq<real>, key: nat)
    requires |s| == 16 && |cp| == 16
    ensures ExpandFrom(s, cp, 8, 12, key, 11) == 0.0
  {
    RadixTable();
    ExpandStepAt(s, cp, 8, 12, key, 11, key + 0x1000_0000_0000);
    ExpandBelow(s, cp, 7, 1, key + 0x1000_0000_0000);
    Parts8Of12From12(s, cp, key);
  }
  lemma Parts8Of12From10(s: seq<real>, cp: seq<real>, key: nat)
    requires |s| == 16 && |cp| == 16
    ensures ExpandFrom(s, cp, 8, 12, key, 10) == 0.0
  {
    RadixTable();
    ExpandStepAt(s, cp, 8, 12, key, 10, key + 0x100_0000_0000);
    ExpandBelow(s, cp, 7, 2, key + 0x100_0000_0000);
    Parts8Of12From11(s, cp, key);
  }
  lemma Parts8Of12From9(s: seq<real>, cp: seq<real>, key: nat)
    requires |s| == 16 && |cp| == 16
    ensures ExpandFrom(s, cp, 8, 12, key, 9) == 0.0
  {
    RadixTable();
    ExpandStepAt(s, cp, 8, 12, key, 9, key + 0x10_0000_0000);
    ExpandBelow(s, cp, 7, 3, key + 0x10_0000_0000);
    Parts8Of12From10(s, cp, key);
  }
  lemma Parts8Of12From8(s: seq<real>, cp: seq<real>, key: nat)
    requires |s| == 16 && |cp| == 16
    ensures ExpandFrom(s, cp, 8, 12, key, 8) == 0.0
  {
    RadixTable();
    ExpandStepAt(s, cp, 8, 12, key, 8, key + 0x1_0000_0000);
    ExpandBelow(s, cp, 7, 4, key + 0x1_0000_0000);
    Parts8Of12From9(s, cp, key);
  }
  lemma Parts8Of12From7(s: seq<real>, cp: seq<real>, key: nat)
    requires |s| == 16 && |cp| == 16
    ensures ExpandFrom(s, cp, 8, 12, key, 7) == 0.0
  {
    RadixTable();
    ExpandStepAt(s, cp, 8, 12, key, 7, key + 0x1000_0000);
    ExpandBelow(s, cp, 7, 5, key + 0x1000_0000);
    Parts8Of12From8(s, cp, key);
  }
  lemma Parts8Of12From6(s: seq<real>, cp: seq<real>, key: nat)
    requires |s| == 16 && |cp| == 16
    ensures ExpandFrom(s, cp, 8, 12, key, 6) == 0.0
  {
    RadixTable();
    ExpandStepAt(s, cp, 8, 12, key, 6, key + 0x100_0000);
    ExpandBelow(s, cp, 7, 6, key + 0x100_0000);
    Parts8Of12From7(s, cp, key);
  }
  lemma Parts8Of12From5(s: seq<real>, cp: seq<real>, key: nat)
    requires |s| == 16 && |cp| == 16
    ensures ExpandFrom(s, cp, 8, 12, key, 5) == 1.0 * Leaf(s, cp, key + 0x10_0070)
  {
    RadixTable();
    ExpandStepAt(s, cp, 8, 12, key, 5, key + 0x10_0000);
    Parts7Of7(s, cp, key + 0x10_0000);
    Parts8Of12From6(s, cp, key);
  }
  lemma Parts8Of12From4(s: seq<real>, cp: seq<real>, key: nat)
    requires |s| == 16 && |cp| == 16
    ensures ExpandFrom(s, cp, 8, 12, key, 4) == 7.0 * Leaf(s, cp, key + 0x1_0160) + 1.0 * Leaf(s, cp, key + 0x10_0070)
  {
    RadixTable();
    ExpandStepAt(s, cp, 8, 12, key, 4, key + 0x1_0000);
    Parts7Of8(s, cp, key + 0x1_0000);
    Parts8Of12From5(s, cp, key);
  }
  lemma Parts8Of12From3(s: seq<real>, cp: seq<real>, key: nat)
    requires |s| == 16 && |cp| == 16
    ensures ExpandFrom(s, cp, 8, 12, key, 3) == 21.0 * Leaf(s, cp, key + 0x1250) + 7.0 * Leaf(s, cp, key + 0x2060) + 7.0 * Leaf(s, cp, key + 0x1_0160) + 1.0 * Leaf(s, cp, key + 0x10_0070)
  {
    RadixTable();
    ExpandStepAt(s, cp, 8, 12, key, 3, key + 0x1000);
    Parts7Of9(s, cp, key + 0x1000);
    Parts8Of12From4(s, cp, key);
  }
  lemma Parts8Of12From2(s: seq<real>, cp: seq<real>, key: nat)
    requires |s| == 16 && |cp| == 16
    ensures ExpandFrom(s, cp, 8, 12, key, 2) == 35.0 * Leaf(s, cp, key + 0x440) + 63.0 * Leaf(s, cp, key + 0x1250) + 7.0 * Leaf(s, cp, key + 0x2060) + 14.0 * Leaf(s, cp, key + 0x1_0160) + 1.0 * Leaf(s, cp, key + 0x10_0070)
  {
    RadixTable();
    ExpandStepAt(s, cp, 8, 12, key, 2, key + 0x100);
    Parts7Of10(s, cp, key + 0x100);
    Parts8Of12From3(s, cp, key);
  }
  lemma Parts8Of12From1(s: seq<real>, cp: seq<real>, key: nat)
    requires |s| == 16 && |cp| == 16
    ensures ExpandFrom(s, cp, 8, 12, key, 1) == 70.0 * Leaf(s, cp, key + 0x440) + 168.0 * Leaf(s, cp, key + 0x1250) + 28.0 * Leaf(s, cp, key + 0x2060) + 56.0 * Leaf(s, cp, key + 0x1_0160) + 8.0 * Leaf(s, cp, key + 0x10_0070)
  {
    RadixTable();
    ExpandStepAt(s, cp, 8, 12, key, 1, key + 0x10);
    Parts7Of11(s, cp, key + 0x10);
    Parts8Of12From2(s, cp, key);
  }
  lemma Parts8Of12(s: seq<real>, cp: seq<real>, key: nat)
    requires |s| == 16 && |cp| == 16
    ensures Expand(s, cp, 8, 12, key) == 70.0 * Leaf(s, cp, key + 0x440) + 168.0 * Leaf(s, cp, key + 0x1250) + 28.0 * Leaf(s, cp, key + 0x2060) + 56.0 * Leaf(s, cp, key + 0x1_0160) + 8.0 * Leaf(s, cp, key + 0x10_0070)
  {
    Parts8Of12From1(s, cp, key);
  }
  lemma Parts9Of12From12(s: seq<real>, cp: seq<real>, key: nat)
    requires |s| == 16 && |cp| == 16
    ensures ExpandFrom(s, cp, 9, 12, key, 12) == 0.0
  {
    RadixTable();
    ExpandStepAt(s, cp, 9, 12, key, 12, key + 0x1_0000_0000_0000);
    ExpandBelow(s, cp, 8, 0, key + 0x1_0000_0000_0000);
    assert ExpandFrom(s, cp, 9, 12, key, 13) == 0.0;
  }
  lemma Parts9Of12From11(s: seq<real>, cp: seq<real>, key: nat)
    requires |s| == 16 && |cp| == 16
    ensures ExpandFrom(s, cp, 9, 12, key, 11) == 0.0
  {
    RadixTable();
    ExpandStepAt(s, cp, 9, 12, key, 11, key + 0x1000_0000_0000);
    ExpandBelow(s, cp, 8, 1, key + 0x1000_0000_0000);
    Parts9Of12From12(s, cp, key);
  }
  lemma Parts9Of12From10(s: seq<real>, cp: seq<real>, key: nat)
    requires |s| == 16 && |cp| == 16
    ensures ExpandFrom(s, cp, 9, 12, key, 10) == 0.0
  {
    RadixTable();
    ExpandStepAt(s, cp, 9, 12, key, 10, key + 0x100_0000_0000);
    ExpandBelow(s, cp, 8, 2, key + 0x100_0000_0000);
    Parts9Of12From11(s, cp, key);
  }
  lemma Parts9Of12From9(s: seq<real>, cp: seq<real>, key: nat)
    requires |s| == 16 && |cp| == 16
    ensures ExpandFrom(s, cp, 9, 12, key, 9) == 0.0
  {
    RadixTable();
    ExpandStepAt(s, cp, 9, 12, key, 9, key + 0x10_0000_0000);
    ExpandBelow(s, cp, 8, 3, key + 0x10_0000_0000);
    Parts9Of12From10(s, cp, key);
  }
  lemma Parts9Of12From8(s: seq<real>, cp: seq<real>, key: nat)
    requires |s| == 16 && |cp| == 16
    ensures ExpandFrom(s, cp, 9, 12, key, 8) == 0.0
  {
    RadixTable();
    ExpandStepAt(s, cp, 9, 12, key, 8, key + 0x1_0000_0000);
    ExpandBelow(s, cp, 8, 4, key + 0x1_0000_0000);
    Parts9Of12From9(s, cp, key);
  }
  lemma Parts9Of12From7(s: seq<real>, cp: seq<real>, key: nat)
    requires |s| == 16 && |cp| == 16
    ensures ExpandFrom(s, cp, 9, 12, key, 7) == 0.0
  {
    RadixTable();
    ExpandStepAt(s, cp, 9, 12, key, 7, key + 0x1000_0000);
    ExpandBelow(s, cp, 8, 5, key + 0x1000_0000);
    Parts9Of12From8(s, cp, key);
  }
  lemma Parts9Of12From6(s: seq<real>, cp: seq<real>, key: nat)
    requires |s| == 16 && |cp| == 16
    ensures ExpandFrom(s, cp, 9, 12, key, 6) == 0.0
  {
    RadixTable();
    ExpandStepAt(s, cp, 9, 12, key, 6, key + 0x100_0000);
    ExpandBelow(s, cp, 8, 6, key + 0x100_0000);
    Parts9Of12From7(s, cp, key);
  }
  lemma Parts9Of12From5(s: seq<real>, cp: seq<real>, key: nat)
    requires |s| == 16 && |cp| == 16
    ensures ExpandFrom(s, cp, 9, 12, key, 5) == 0.0
  {
    RadixTable();
    ExpandStepAt(s, cp, 9, 12, key, 5, key + 0x10_0000);
    ExpandBelow(s, cp, 8, 7, key + 0x10_0000);
    Parts9Of12From6(s, cp, key);
  }
  lemma Parts9Of12From4(s: seq<real>, cp: seq<real>, key: nat)
    requires |s| == 16 && |cp| == 16
    ensures ExpandFrom(s, cp, 9, 12, key, 4) == 1.0 * Leaf(s, cp, key + 0x1_0080)
  {
    RadixTable();
    ExpandStepAt(s, cp, 9, 12, key, 4, key + 0x1_0000);
    Parts8Of8(s, cp, key + 0x1_0000);
    Parts9Of12From5(s, cp, key);
  }
  lemma Parts9Of12From3(s: seq<real>, cp: seq<real>, key: nat)
    requires |s| == 16 && |cp| == 16
    ensures ExpandFrom(s, cp, 9, 12, key, 3) == 8.0 * Leaf(s, cp, key + 0x1170) + 1.0 * Leaf(s, cp, key + 0x1_0080)
  {
    RadixTable();
    ExpandStepAt(s, cp, 9, 12, key, 3, key + 0x1000);
    Parts8Of9(s, cp, key + 0x1000);
    Parts9Of12From4(s, cp, key);
  }
  lemma Parts9Of12From2(s: seq<real>, cp: seq<real>, key: nat)
    requires |s| == 16 && |cp| == 16
    ensures ExpandFrom(s, cp, 9, 12, key, 2) == 28.0 * Leaf(s, cp, key + 0x360) + 16.0 * Leaf(s, cp, key + 0x1170) + 1.0 * Leaf(s, cp, key + 0x1_0080)
  {
    RadixTable();
    ExpandStepAt(s, cp, 9, 12, key, 2, key + 0x100);
    Parts8Of10(s, cp, key + 0x100);
    Parts9Of12From3(s, cp, key);
  }
  lemma Parts9Of12From1(s: seq<real>, cp: seq<real>, key: nat)
    requires |s| == 16 && |cp| == 16
    ensures ExpandFrom(s, cp, 9, 12, key, 1) == 84.0 * Leaf(s, cp, key + 0x360) + 72.0 * Leaf(s, cp, key + 0x1170) + 9.0 * Leaf(s, cp, key + 0x1_0080)
  {
    RadixTable();
    ExpandStepAt(s, cp, 9, 12, key, 1, key + 0x10);
    Parts8Of11(s, cp, key + 0x10);
    Parts9Of12From2(s, cp, key);
  }
  lemma Parts9Of12(s: seq<real>, cp: seq<real>, key: nat)
    requires |s| == 16 && |cp| == 16
    ensures Expand(s, cp, 9, 12, key) == 84.0 * Leaf(s, cp, key + 0x360) + 72.0 * Leaf(s, cp, key + 0x1170) + 9.0 * Leaf(s, cp, key + 0x1_0080)
  {
    Parts9Of12From1(s, cp, key);
  }
  lemma Parts10Of12From12(s: seq<real>, cp: seq<real>, key: nat)
    requires |s| == 16 && |cp| == 16
    ensures ExpandFrom(s, cp, 10, 12, key, 12) == 0.0
  {
    RadixTable();
    ExpandStepAt(s, cp, 10, 12, key, 12, key + 0x1_0000_0000_0000);
    ExpandBelow(s, cp, 9, 0, key + 0x1_0000_0000_0000);
    assert ExpandFrom(s, cp, 10, 12, key, 13) == 0.0;
  }
  lemma Parts10Of12From11(s: seq<real>, cp: seq<real>, key: nat)
    requires |s| == 16 && |cp| == 16
    ensures ExpandFrom(s, cp, 10, 12, key, 11) == 0.0
  {
    RadixTable();
    ExpandStepAt(s, cp, 10, 12, key, 11, key + 0x1000_0000_0000);
    ExpandBelow(s, cp, 9, 1, key + 0x1000_0000_0000);
    Parts10Of12From12(s, cp, key);
  }
  lemma Parts10Of12From10(s: seq<real>, cp: seq<real>, key: nat)
    requires |s| == 16 && |cp| == 16
    ensures ExpandFrom(s, cp, 10, 12, key, 10) == 0.0
  {
    RadixTable();
    ExpandStepAt(s, cp, 10, 12, key, 10, key + 0x100_0000_0000);
    ExpandBelow(s, cp, 9, 2, key + 0x100_0000_0000);
    Parts10Of12From11(s, cp, key);
  }
  lemma Parts10Of12From9(s: seq<real>, cp: seq<real>, key: nat)
    requires |s| == 16 && |cp| == 16
    ensures ExpandFrom(s, cp, 10, 12, key, 9) == 0.0
  {
    RadixTable();
    ExpandStepAt(s, cp, 10, 12, key, 9, key + 0x10_0000_0000);
    ExpandBelow(s, cp, 9, 3, key + 0x10_0000_0000);
    Parts10Of12From10(s, cp, key);
  }
  lemma Parts10Of12From8(s: seq<real>, cp: seq<real>, key: nat)
    requires |s| == 16 && |cp| == 16
    ensures ExpandFrom(s, cp, 10, 12, key, 8) == 0.0
  {
    RadixTable();
    ExpandStepAt(s, cp, 10, 12, key, 8, key + 0x1_0000_0000);
    ExpandBelow(s, cp, 9, 4, key + 0x1_0000_0000);
    Parts10Of12From9(s, cp, key);
  }
  lemma Parts10Of12From7(s: seq<real>, cp: seq<real>, key: nat)
    requires |s| == 16 && |cp| == 16
    ensures ExpandFrom(s, cp, 10, 12, key, 7) == 0.0
  {
    RadixTable();
    ExpandStepAt(s, cp, 10, 12, key, 7, key + 0x1000_0000);
    ExpandBelow(s, cp, 9, 5, key + 0x1000_0000);
    Parts10Of12From8(s, cp, key);
  }
  lemma Parts10Of12From6(s: seq<real>, cp: seq<real>, key: nat)
    requires |s| == 16 && |cp| == 16
    ensures ExpandFrom(s, cp, 10, 12, key, 6) == 0.0
  {
    RadixTable();
    ExpandStepAt(s, cp, 10, 12, key, 6, key + 0x100_0000);
    ExpandBelow(s, cp, 9, 6, key + 0x100_0000);
    Parts10Of12From7(s, cp, key);
  }
  lemma Parts10Of12From5(s: seq<real>, cp: seq<real>, key: nat)
    requires |s| == 16 && |cp| == 16
    ensures ExpandFrom(s, cp, 10, 12, key, 5) == 0.0
  {
    RadixTable();
    ExpandStepAt(s, cp, 10, 12, key, 5, key + 0x10_0000);
    ExpandBelow(s, cp, 9, 7, key + 0x10_0000);
    Parts10Of12From6(s, cp, key);
  }
  lemma Parts10Of12From4(s: seq<real>, cp: seq<real>, key: nat)
    requires |s| == 16 && |cp| == 16
    ensures ExpandFrom(s, cp, 10, 12, key, 4) == 0.0
  {
    RadixTable();
    ExpandStepAt(s, cp, 10, 12, key, 4, key + 0x1_0000);
    ExpandBelow(s, cp, 9, 8, key + 0x1_0000);
    Parts10Of12From5(s, cp, key);
  }
  lemma Parts10Of12From3(s: seq<real>, cp: seq<real>, key: nat)
    requires |s| == 16 && |cp| == 16
    ensures ExpandFrom(s, cp, 10, 12, key, 3) == 1.0 * Leaf(s, cp, key + 0x1090)
  {
    RadixTable();
    ExpandStepAt(s, cp, 10, 12, key, 3, key + 0x1000);
    Parts9Of9(s, cp, key + 0x1000);
    Parts10Of12From4(s, cp, key);
  }
  lemma Parts10Of12From2(s: seq<real>, cp: seq<real>, key: nat)
    requires |s| == 16 && |cp| == 16
    ensures ExpandFrom(s, cp, 10, 12, key, 2) == 9.0 * Leaf(s, cp, key + 0x280) + 1.0 * Leaf(s, cp, key + 0x1090)
  {
    RadixTable();
    ExpandStepAt(s, cp, 10, 12, key, 2, key + 0x100);
    Parts9Of10(s, cp, key + 0x100);
    Parts10Of12From3(s, cp, key);
  }
  lemma Parts10Of12From1(s: seq<real>, cp: seq<real>, key: nat)
    requires |s| == 16 && |cp| == 16
    ensures ExpandFrom(s, cp, 10, 12, key, 1) == 45.0 * Leaf(s, cp, key + 0x280) + 10.0 * Leaf(s, cp, key + 0x1090)
  {
    RadixTable();
    ExpandStepAt(s, cp, 10, 12, key, 1, key + 0x10);
    Parts9Of11(s, cp, key + 0x10);
    Parts10Of12From2(s, cp, key);
  }
  lemma Parts10Of12(s: seq<real>, cp: seq<real>, key: nat)
    requires |s| == 16 && |cp| == 16
    ensures Expand(s, cp, 10, 12, key) == 45.0 * Leaf(s, cp, key + 0x280) + 10.0 * Leaf(s, cp, key + 0x1090)
  {
    Parts10Of12From1(s, cp, key);
  }
  lemma Parts11Of12From12(s: seq<real>, cp: seq<real>, key: nat)
    requires |s| == 16 && |cp| == 16
    ensures ExpandFrom(s, cp, 11, 12, key, 12) == 0.0
  {
    RadixTable();
    ExpandStepAt(s, cp, 11, 12, key, 12, key + 0x1_0000_0000_0000);
    ExpandBelow(s, cp, 10, 0, key + 0x1_0000_0000_0000);
    assert ExpandFrom(s, cp, 11, 12, key, 13) == 0.0;
  }
  lemma Parts11Of12From11(s: seq<real>, cp: seq<real>, key: nat)
    requires |s| == 16 && |cp| == 16
    ensures ExpandFrom(s, cp, 11, 12, key, 11) == 0.0
  {
    RadixTable();
    ExpandStepAt(s, cp, 11, 12, key, 11, key + 0x1000_0000_0000);
    ExpandBelow(s, cp, 10, 1, key + 0x1000_0000_0000);
    Parts11Of12From12(s, cp, key);
  }
  lemma Parts11Of12From10(s: seq<real>, cp: seq<real>, key: nat)
    requires |s| == 16 && |cp| == 16
    ensures ExpandFrom(s, cp, 11, 12, key, 10) == 0.0
  {
    RadixTable();
    ExpandStepAt(s, cp, 11, 12, key, 10, key + 0x100_0000_0000);
    ExpandBelow(s, cp, 10, 2, key + 0x100_0000_0000);
    Parts11Of12From11(s, cp, key);
  }
  lemma Parts11Of12From9(s: seq<real>, cp: seq<real>, key: nat)
    requires |s| == 16 && |cp| == 16
    ensures ExpandFrom(s, cp, 11, 12, key, 9) == 0.0
  {
    RadixTable();
    ExpandStepAt(s, cp, 11, 12, key, 9, key + 0x10_0000_0000);
    ExpandBelow(s, cp, 10, 3, key + 0x10_0000_0000);
    Parts11Of12From10(s, cp, key);
  }
  lemma Parts11Of12From8(s: seq<real>, cp: seq<real>, key: nat)
    requires |s| == 16 && |cp| == 16
    ensures ExpandFrom(s, cp, 11, 12, key, 8) == 0.0
  {
    RadixTable();
    ExpandStepAt(s, cp, 11, 12, key, 8, key + 0x1_0000_0000);
    ExpandBelow(s, cp, 10, 4, key + 0x1_0000_0000);
    Parts11Of12From9(s, cp, key);
  }
  lemma Parts11Of12From7(s: seq<real>, cp: seq<real>, key: nat)
    requires |s| == 16 && |cp| == 16
    ensures ExpandFrom(s, cp, 11, 12, key, 7) == 0.0
  {
    RadixTable();
    ExpandStepAt(s, cp, 11, 12, key, 7, key + 0x1000_0000);
    ExpandBelow(s, cp, 10, 5, key + 0x1000_0000);
    Parts11Of12From8(s, cp, key);
  }
  lemma Parts11Of12From6(s: seq<real>, cp: seq<real>, key: nat)
    requires |s| == 16 && |cp| == 16
    ensures ExpandFrom(s, cp, 11, 12, key, 6) == 0.0
  {
    RadixTable();
    ExpandStepAt(s, cp, 11, 12, key, 6, key + 0x100_0000);
    ExpandBelow(s, cp, 10, 6, key + 0x100_0000);
    Parts11Of12From7(s, cp, key);
  }
  lemma Parts11Of12From5(s: seq<real>, cp: seq<real>, key: nat)
    requires |s| == 16 && |cp| == 16
    ensures ExpandFrom(s, cp, 11, 12, key, 5) == 0.0
  {
    RadixTable();
    ExpandStepAt(s, cp, 11, 12, key, 5, key + 0x10_0000);
    ExpandBelow(s, cp, 10, 7, key + 0x10_0000);
    Parts11Of12From6(s, cp, key);
  }
  lemma Parts11Of12From4(s: seq<real>, cp: seq<real>, key: nat)
    requires |s| == 16 && |cp| == 16
    ensures ExpandFrom(s, cp, 11, 12, key, 4) == 0.0
  {
    RadixTable();
    ExpandStepAt(s, cp, 11, 12, key, 4, key + 0x1_0000);
    ExpandBelow(s, cp, 10, 8, key + 0x1_0000);
    Parts11Of12From5(s, cp, key);
  }
  lemma Parts11Of12From3(s: seq<real>, cp: seq<real>, key: nat)
    requires |s| == 16 && |cp| == 16
    ensures ExpandFrom(s, cp, 11, 12, key, 3) == 0.0
  {
    RadixTable();
    ExpandStepAt(s, cp, 11, 12, key, 3, key + 0x1000);
    ExpandBelow(s, cp, 10, 9, key + 0x1000);
    Parts11Of12From4(s, cp, key);
  }
  lemma Parts11Of12From2(s: seq<real>, cp: seq<real>, key: nat)
    requires |s| == 16 && |cp| == 16
    ensures ExpandFrom(s, cp, 11, 12, key, 2) == 1.0 * Leaf(s, cp, key + 0x1a0)
  {
    RadixTable();
    ExpandStepAt(s, cp, 11, 12, key, 2, key + 0x100);
    Parts10Of10(s, cp, key + 0x100);
    Parts11Of12From3(s, cp, key);
  }
  lemma Parts11Of12From1(s: seq<real>, cp: seq<real>, key: nat)
    requires |s| == 16 && |cp| == 16
    ensures ExpandFrom(s, cp, 11, 12, key, 1) == 11.0 * Leaf(s, cp, key + 0x1a0)
  {
    RadixTable();
    ExpandStepAt(s, cp, 11, 12, key, 1, key + 0x10);
    Parts10Of11(s, cp, key + 0x10);
    Parts11Of12From2(s, cp, key);
  }
  lemma Parts11Of12(s: seq<real>, cp: seq<real>, key: nat)
    requires |s| == 16 && |cp| == 16
    ensures Expand(s, cp, 11, 12, key) == 11.0 * Leaf(s, cp, key + 0x1a0)
  {
    Parts11Of12From1(s, cp, key);
  }
  lemma Parts12Of12From12(s: seq<real>, cp: seq<real>, key: nat)
    requires |s| == 16 && |cp| == 16
    ensures ExpandFrom(s, cp, 12, 12, key, 12) == 0.0
  {
    RadixTable();
    ExpandStepAt(s, cp, 12, 12, key, 12, key + 0x1_0000_0000_0000);
    ExpandBelow(s, cp, 11, 0, key + 0x1_0000_0000_0000);
    assert ExpandFrom(s, cp, 12, 12, key, 13) == 0.0;
  }
  lemma Parts12Of12From11(s: seq<real>, cp: seq<real>, key: nat)
    requires |s| == 16 && |cp| == 16
    ensures ExpandFrom(s, cp, 12, 12, key, 11) == 0.0
  {
    RadixTable();
    ExpandStepAt(s, cp, 12, 12, key, 11, key + 0x1000_0000_0000);
    ExpandBelow(s, cp, 11, 1, key + 0x1000_0000_0000);
    Parts12Of12From12(s, cp, key);
  }
  lemma Parts12Of12From10(s: seq<real>, cp: seq<real>, key: nat)
    requires |s| == 16 && |cp| == 16
    ensures ExpandFrom(s, cp, 12, 12, key, 10) == 0.0
  {
    RadixTable();
    ExpandStepAt(s, cp, 12, 12, key, 10, key + 0x100_0000_0000);
    ExpandBelow(s, cp, 11, 2, key + 0x100_0000_0000);
    Parts12Of12From11(s, cp, key);
  }
  lemma Parts12Of12From9(s: seq<real>, cp: seq<real>, key: nat)
    requires |s| == 16 && |cp| == 16
    ensures ExpandFrom(s, cp, 12, 12, key, 9) == 0.0
  {
    RadixTable();
    ExpandStepAt(s, cp, 12, 12, key, 9, key + 0x10_0000_0000);
    ExpandBelow(s, cp, 11, 3, key + 0x10_0000_0000);
    Parts12Of12From10(s, cp, key);
  }
  lemma Parts12Of12From8(s: seq<real>, cp: seq<real>, key: nat)
    requires |s| == 16 && |cp| == 16
    ensures ExpandFrom(s, cp, 12, 12, key, 8) == 0.0
  {
    RadixTable();
    ExpandStepAt(s, cp, 12, 12, key, 8, key + 0x1_0000_0000);
    ExpandBelow(s, cp, 11, 4, key + 0x1_0000_0000);
    Parts12Of12From9(s, cp, key);
  }
  lemma Parts12Of12From7(s: seq<real>, cp: seq<real>, key: nat)
    requires |s| == 16 && |cp| == 16
    ensures ExpandFrom(s, cp, 12, 12, key, 7) == 0.0
  {
    RadixTable();
    ExpandStepAt(s, cp, 12, 12, key, 7, key + 0x1000_0000);
    ExpandBelow(s, cp, 11, 5, key + 0x1000_0000);
    Parts12Of12From8(s, cp, key);
  }
  lemma Parts12Of12From6(s: seq<real>, cp: seq<real>, key: nat)
    requires |s| == 16 && |cp| == 16
    ensures ExpandFrom(s, cp, 12, 12, key, 6) == 0.0
  {
    RadixTable();
    ExpandStepAt(s, cp, 12, 12, key, 6, key + 0x100_0000);
    ExpandBelow(s, cp, 11, 6, key + 0x100_0000);
    Parts12Of12From7(s, cp, key);
  }
  lemma Parts12Of12From5(s: seq<real>, cp: seq<real>, key: nat)
    requires |s| == 16 && |cp| == 16
    ensures ExpandFrom(s, cp, 12, 12, key, 5) == 0.0
  {
    RadixTable();
    ExpandStepAt(s, cp, 12, 12, key, 5, key + 0x10_0000);
    ExpandBelow(s, cp, 11, 7, key + 0x10_0000);
    Parts12Of12From6(s, cp, key);
  }
  lemma Parts12Of12From4(s: seq<real>, cp: seq<real>, key: nat)
    requires |s| == 16 && |cp| == 16
    ensures ExpandFrom(s, cp, 12, 12, key, 4) == 0.0
  {
    RadixTable();
    ExpandStepAt(s, cp, 12, 12, key, 4, key + 0x1_0000);
    ExpandBelow(s, cp, 11, 8, key + 0x1_0000);
    Parts12Of12From5(s, cp, key);
  }
  lemma Parts12Of12From3(s: seq<real>, cp: seq<real>, key: nat)
    requires |s| == 16 && |cp| == 16
    ensures ExpandFrom(s, cp, 12, 12, key, 3) == 0.0
  {
    RadixTable();
    ExpandStepAt(s, cp, 12, 12, key, 3, key + 0x1000);
    ExpandBelow(s, cp, 11, 9, key + 0x1000);
    Parts12Of12From4(s, cp, key);
  }
  lemma Parts12Of12From2(s: seq<real>, cp: seq<real>, key: nat)
    requires |s| == 16 && |cp| == 16
    ensures ExpandFrom(s, cp, 12, 12, key, 2) == 0.0
  {
    RadixTable();
    ExpandStepAt(s, cp, 12, 12, key, 2, key + 0x100);
    ExpandBelow(s, cp, 11, 10, key + 0x100);
    Parts12Of12From3(s, cp, key);
  }
  lemma Parts12Of12From1(s: seq<real>, cp: seq<real>, key: nat)
    requires |s| == 16 && |cp| == 16
    ensures ExpandFrom(s, cp, 12, 12, key, 1) == 1.0 * Leaf(s, cp, key + 0xc0)
  {
    RadixTable();
    ExpandStepAt(s, cp, 12, 12, key, 1, key + 0x10);
    Parts11Of11(s, cp, key + 0x10);
    Parts12Of12From2(s, cp, key);
  }
  lemma Parts12Of12(s: seq<real>, cp: seq<real>, key: nat)
    requires |s| == 16 && |cp| == 16
    ensures Expand(s, cp, 12, 12, key) == 1.0 * Leaf(s, cp, key + 0xc0)
  {
    Parts12Of12From1(s, cp, key);
  }
  lemma Enumerated1From1(s: seq<real>, cp: seq<real>)
    requires |s| == 16 && |cp| == 16
    ensures EnumFrom(s, cp, 1, 1) == 1.0 * Leaf(s, cp, 0x11)
  {
    Parts1Of1(s, cp, 1);
    EnumFromBelow(s, cp, 1, 2);
  }
  lemma Enumerated1From0(s: seq<real>, cp: seq<real>)
    requires |s| == 16 && |cp| == 16
    ensures EnumFrom(s, cp, 1, 0) == 1.0 * Leaf(s, cp, 0x11)
  {
    assert Expand(s, cp, 0, 1, 0) == 0.0;
    Enumerated1From1(s, cp);
  }
  lemma Enumerated1(s: seq<real>, cp: seq<real>)
    requires |s| == 16 && |cp| == 16
    ensures Enumerated(s, cp, 1) == 1.0 * Leaf(s, cp, 0x11)
  {
    Enumerated1From0(s, cp);
  }
  lemma Weight1Term1(s: seq<real>, cp: seq<real>)
    requires |s| == 16 && |cp| == 16
    ensures Leaf(s, cp, 0x11) == s[1] * cp[1]
  {
    RadixTable();
    LeafBase(s, cp, 1);
    LeafStep(s, cp, 0x1, 1, 0x11);
  }
  lemma Weight1IsSeries(s: seq<real>, cp: seq<real>)
    requires |s| == 16 && |cp| == 16
    ensures Weight1(s, cp) == SeriesCoefficient(s, cp, 1)
  {
    Weight1Term1(s, cp);
    Enumerated1(s, cp);
    SeriesIsEnumerated(s, cp, 1);
  }
  lemma Enumerated2From2(s: seq<real>, cp: seq<real>)
    requires |s| == 16 && |cp| == 16
    ensures EnumFrom(s, cp, 2, 2) == 1.0 * Leaf(s, cp, 0x22)
  {
    Parts2Of2(s, cp, 2);
    EnumFromBelow(s, cp, 2, 3);
  }
  lemma Enumerated2From1(s: seq<real>, cp: seq<real>)
    requires |s| == 16 && |cp| == 16
    ensures EnumFrom(s, cp, 2, 1) == 1.0 * Leaf(s, cp, 0x22) + 1.0 * Leaf(s, cp, 0x101)
  {
    Parts1Of2(s, cp, 1);
    Enumerated2From2(s, cp);
  }
  lemma Enumerated2From0(s: seq<real>, cp: seq<real>)
    requires |s| == 16 && |cp| == 16
    ensures EnumFrom(s, cp, 2, 0) == 1.0 * Leaf(s, cp, 0x22) + 1.0 * Leaf(s, cp, 0x101)
  {
    assert Expand(s, cp, 0, 2, 0) == 0.0;
    Enumerated2From1(s, cp);
  }
  lemma Enumerated2(s: seq<real>, cp: seq<real>)
    requires |s| == 16 && |cp| == 16
    ensures Enumerated(s, cp, 2) == 1.0 * Leaf(s, cp, 0x22) + 1.0 * Leaf(s, cp, 0x101)
  {
    Enumerated2From0(s, cp);
  }
  lemma Weight2Term1(s: seq<real>, cp: seq<real>)
    requires |s| == 16 && |cp| == 16
    ensures Leaf(s, cp, 0x101) == s[1] * cp[2]
  {
    RadixTable();
    LeafBase(s, cp, 1);
    LeafStep(s, cp, 0x1, 2, 0x101);
  }
  lemma Weight2Term2(s: seq<real>, cp: seq<real>)
    requires |s| == 16 && |cp| == 16
    ensures Leaf(s, cp, 0x22) == s[2] * cp[1] * cp[1]
  {
    RadixTable();
    LeafBase(s, cp, 2);
    LeafStep(s, cp, 0x2, 1, 0x12);
    LeafStep(s, cp, 0x12, 1, 0x22);
  }
  lemma Weight2IsSeries(s: seq<real>, cp: seq<real>)
    requires |s| == 16 && |cp| == 16
    ensures Weight2(s, cp) == SeriesCoefficient(s, cp, 2)
  {
    Weight2Term1(s, cp);
    Weight2Term2(s, cp);
    Enumerated2(s, cp);
    SeriesIsEnumerated(s, cp, 2);
  }
  lemma Enumerated3From3(s: seq<real>, cp: seq<real>)
    requires |s| == 16 && |cp| == 16
    ensures EnumFrom(s, cp, 3, 3) == 1.0 * Leaf(s, cp, 0x33)
  {
    Parts3Of3(s, cp, 3);
    EnumFromBelow(s, cp, 3, 4);
  }
  lemma Enumerated3From2(s: seq<real>, cp: seq<real>)
    requires |s| == 16 && |cp| == 16
    ensures EnumFrom(s, cp, 3, 2) == 1.0 * Leaf(s, cp, 0x33) + 2.0 * Leaf(s, cp, 0x112)
  {
    Parts2Of3(s, cp, 2);
    Enumerated3From3(s, cp);
  }
  lemma Enumerated3From1(s: seq<real>, cp: seq<real>)
    requires |s| == 16 && |cp| == 16
    ensures EnumFrom(s, cp, 3, 1) == 1.0 * Leaf(s, cp, 0x33) + 2.0 * Leaf(s, cp, 0x112) + 1.0 * Leaf(s, cp, 0x1001)
  {
    Parts1Of3(s, cp, 1);
    Enumerated3From2(s, cp);
  }
  lemma Enumerated3From0(s: seq<real>, cp: seq<real>)
    requires |s| == 16 && |cp| == 16
    ensures EnumFrom(s, cp, 3, 0) == 1.0 * Leaf(s, cp, 0x33) + 2.0 * Leaf(s, cp, 0x112) + 1.0 * Leaf(s, cp, 0x1001)
  {
    assert Expand(s, cp, 0, 3, 0) == 0.0;
    Enumerated3From1(s, cp);
  }
  lemma Enumerated3(s: seq<real>, cp: seq<real>)
    requires |s| == 16 && |cp| == 16
    ensures Enumerated(s, cp, 3) == 1.0 * Leaf(s, cp, 0x33) + 2.0 * Leaf(s, cp, 0x112) + 1.0 * Leaf(s, cp, 0x1001)
  {
    Enumerated3From0(s, cp);
  }
  lemma Weight3Term1(s: seq<real>, cp: seq<real>)
    requires |s| == 16 && |cp| == 16
    ensures Leaf(s, cp, 0x112) == s[2] * cp[1] * cp[2]
  {
    RadixTable();
    LeafBase(s, cp, 2);
    LeafStep(s, cp, 0x2, 1, 0x12);
    LeafStep(s, cp, 0x12, 2, 0x112);
  }
  lemma Weight3Term2(s: seq<real>, cp: seq<real>)
    requires |s| == 16 && |cp| == 16
    ensures Leaf(s, cp, 0x33) == s[3] * cp[1] * cp[1] * cp[1]
  {
    RadixTable();
    LeafBase(s, cp, 3);
    LeafStep(s, cp, 0x3, 1, 0x13);
    LeafStep(s, cp, 0x13, 1, 0x23);
    LeafStep(s, cp, 0x23, 1, 0x33);
  }
  lemma Weight3Term3(s: seq<real>, cp: seq<real>)
    requires |s| == 16 && |cp| == 16
    ensures Leaf(s, cp, 0x1001) == s[1] * cp[3]
  {
    RadixTable();
    LeafBase(s, cp, 1);
    LeafStep(s, cp, 0x1, 3, 0x1001);
  }
  lemma Weight3IsSeries(s: seq<real>, cp: seq<real>)
    requires |s| == 16 && |cp| == 16
    ensures Weight3(s, cp) == SeriesCoefficient(s, cp, 3)
  {
    Weight3Term1(s, cp);
    Weight3Term2(s, cp);
    Weight3Term3(s, cp);
    Enumerated3(s, cp);
    SeriesIsEnumerated(s, cp, 3);
  }
  lemma Enumerated4From4(s: seq<real>, cp: seq<real>)
    requires |s| == 16 && |cp| == 16
    ensures EnumFrom(s, cp, 4, 4) == 1.0 * Leaf(s, cp, 0x44)
  {
    Parts4Of4(s, cp, 4);
    EnumFromBelow(s, cp, 4, 5);
  }
  lemma Enumerated4From3(s: seq<real>, cp: seq<real>)
    requires |s| == 16 && |cp| == 16
    ensures EnumFrom(s, cp, 4, 3) == 1.0 * Leaf(s, cp, 0x44) + 3.0 * Leaf(s, cp, 0x123)
  {
    Parts3Of4(s, cp, 3);
    Enumerated4From4(s, cp);
  }
  lemma Enumerated4From2(s: seq<real>, cp: seq<real>)
    requires |s| == 16 && |cp| == 16
    ensures EnumFrom(s, cp, 4, 2) == 1.0 * Leaf(s, cp, 0x44) + 3.0 * Leaf(s, cp, 0x123) + 1.0 * Leaf(s, cp, 0x202) + 2.0 * Leaf(s, cp, 0x1012)
  {
    Parts2Of4(s, cp, 2);
    Enumerated4From3(s, cp);
  }
  lemma Enumerated4From1(s: seq<real>, cp: seq<real>)
    requires |s| == 16 && |cp| == 16
    ensures EnumFrom(s, cp, 4, 1) == 1.0 * Leaf(s, cp, 0x44) + 3.0 * Leaf(s, cp, 0x123) + 1.0 * Leaf(s, cp, 0x202) + 2.0 * Leaf(s, cp, 0x1012) + 1.0 * Leaf(s, cp, 0x1_0001)
  {
    Parts1Of4(s, cp, 1);
    Enumerated4From2(s, cp);
  }
  lemma Enumerated4From0(s: seq<real>, cp: seq<real>)
    requires |s| == 16 && |cp| == 16
    ensures EnumFrom(s, cp, 4, 0) == 1.0 * Leaf(s, cp, 0x44) + 3.0 * Leaf(s, cp, 0x123) + 1.0 * Leaf(s, cp, 0x202) + 2.0 * Leaf(s, cp, 0x1012) + 1.0 * Leaf(s, cp, 0x1_0001)
  {
    assert Expand(s, cp, 0, 4, 0) == 0.0;
    Enumerated4From1(s, cp);
  }
  lemma Enumerated4(s: seq<real>, cp: seq<real>)
    requires |s| == 16 && |cp| == 16
    ensures Enumerated(s, cp, 4) == 1.0 * Leaf(s, cp, 0x44) + 3.0 * Leaf(s, cp, 0x123) + 1.0 * Leaf(s, cp, 0x202) + 2.0 * Leaf(s, cp, 0x1012) + 1.0 * Leaf(s, cp, 0x1_0001)
  {
    Enumerated4From0(s, cp);
  }
  lemma Weight4Term1(s: seq<real>, cp: seq<real>)
    requires |s| == 16 && |cp| == 16
    ensures Leaf(s, cp, 0x123) == s[3] * cp[1] * cp[1] * cp[2]
  {
    RadixTable();
    LeafBase(s, cp, 3);
    LeafStep(s, cp, 0x3, 1, 0x13);
    LeafStep(s, cp, 0x13, 1, 0x23);
    LeafStep(s, cp, 0x23, 2, 0x123);
  }
  lemma Weight4Term2(s: seq<real>, cp: seq<real>)
    requires |s| == 16 && |cp| == 16
    ensures Leaf(s, cp, 0x1012) == s[2] * cp[1] * cp[3]
  {
    RadixTable();
    LeafBase(s, cp, 2);
    LeafStep(s, cp, 0x2, 1, 0x12);
    LeafStep(s, cp, 0x12, 3, 0x1012);
  }
  lemma Weight4Term3(s: seq<real>, cp: seq<real>)
    requires |s| == 16 && |cp| == 16
    ensures Leaf(s, cp, 0x44) == s[4] * cp[1] * cp[1] * cp[1] * cp[1]
  {
    RadixTable();
    LeafBase(s, cp, 4);
    LeafStep(s, cp, 0x4, 1, 0x14);
    LeafStep(s, cp, 0x14, 1, 0x24);
    LeafStep(s, cp, 0x24, 1, 0x34);
    LeafStep(s, cp, 0x34, 1, 0x44);
  }
  lemma Weight4Term4(s: seq<real>, cp: seq<real>)
    requires |s| == 16 && |cp| == 16
    ensures Leaf(s, cp, 0x202) == s[2] * cp[2] * cp[2]
  {
    RadixTable();
    LeafBase(s, cp, 2);
    LeafStep(s, cp, 0x2, 2, 0x102);
    LeafStep(s, cp, 0x102, 2, 0x202);
  }
  lemma Weight4Term5(s: seq<real>, cp: seq<real>)
    requires |s| == 16 && |cp| == 16
    ensures Leaf(s, cp, 0x1_0001) == s[1] * cp[4]
  {
    RadixTable();
    LeafBase(s, cp, 1);
    LeafStep(s, cp, 0x1, 4, 0x1_0001);
  }
  lemma Weight4IsSeries(s: seq<real>, cp: seq<real>)
    requires |s| == 16 && |cp| == 16
    ensures Weight4(s, cp) == SeriesCoefficient(s, cp, 4)
  {
    Weight4Term1(s, cp);
    Weight4Term2(s, cp);
    Weight4Term3(s, cp);
    Weight4Term4(s, cp);
    Weight4Term5(s, cp);
    Enumerated4(s, cp);
    SeriesIsEnumerated(s, cp, 4);
  }
  lemma Enumerated5From5(s: seq<real>, cp: seq<real>)
    requires |s| == 16 && |cp| == 16
    ensures EnumFrom(s, cp, 5, 5) == 1.0 * Leaf(s, cp, 0x55)
  {
    Parts5Of5(s, cp, 5);
    EnumFromBelow(s, cp, 5, 6);
  }
  lemma Enumerated5From4(s: seq<real>, cp: seq<real>)
    requires |s| == 16 && |cp| == 16
    ensures EnumFrom(s, cp, 5, 4) == 1.0 * Leaf(s, cp, 0x55) + 4.0 * Leaf(s, cp, 0x134)
  {
    Parts4Of5(s, cp, 4);
    Enumerated5From5(s, cp);
  }
  lemma Enumerated5From3(s: seq<real>, cp: seq<real>)
    requires |s| == 16 && |cp| == 16
    ensures EnumFrom(s, cp, 5, 3) == 1.0 * Leaf(s, cp, 0x55) + 4.0 * Leaf(s, cp, 0x134) + 3.0 * Leaf(s, cp, 0x213) + 3.0 * Leaf(s, cp, 0x1023)
  {
    Parts3Of5(s, cp, 3);
    Enumerated5From4(s, cp);
  }
  lemma Enumerated5From2(s: seq<real>, cp: seq<real>)
    requires |s| == 16 && |cp| == 16
    ensures EnumFrom(s, cp, 5, 2) == 1.0 * Leaf(s, cp, 0x55) + 4.0 * Leaf(s, cp, 0x134) + 3.0 * Leaf(s, cp, 0x213) + 3.0 * Leaf(s, cp, 0x1023) + 2.0 * Leaf(s, cp, 0x1102) + 2.0 * Leaf(s, cp, 0x1_0012)
  {
    Parts2Of5(s, cp, 2);
    Enumerated5From3(s, cp);
  }
  lemma Enumerated5From1(s: seq<real>, cp: seq<real>)
    requires |s| == 16 && |cp| == 16
    ensures EnumFrom(s, cp, 5, 1) == 1.0 * Leaf(s, cp, 0x55) + 4.0 * Leaf(s, cp, 0x134) + 3.0 * Leaf(s, cp, 0x213) + 3.0 * Leaf(s, cp, 0x1023) + 2.0 * Leaf(s, cp, 0x1102) + 2.0 * Leaf(s, cp, 0x1_0012) + 1.0 * Leaf(s, cp, 0x10_0001)
  {
    Parts1Of5(s, cp, 1);
    Enumerated5From2(s, cp);
  }
  lemma Enumerated5From0(s: seq<real>, cp: seq<real>)
    requires |s| == 16 && |cp| == 16
    ensures EnumFrom(s, cp, 5, 0) == 1.0 * Leaf(s, cp, 0x55) + 4.0 * Leaf(s, cp, 0x134) + 3.0 * Leaf(s, cp, 0x213) + 3.0 * Leaf(s, cp, 0x1023) + 2.0 * Leaf(s, cp, 0x1102) + 2.0 * Leaf(s, cp, 0x1_0012) + 1.0 * Leaf(s, cp, 0x10_0001)
  {
    assert Expand(s, cp, 0, 5, 0) == 0.0;
    Enumerated5From1(s, cp);
  }
  lemma Enumerated5(s: seq<real>, cp: seq<real>)
    requires |s| == 16 && |cp| == 16
    ensures Enumerated(s, cp, 5) == 1.0 * Leaf(s, cp, 0x55) + 4.0 * Leaf(s, cp, 0x134) + 3.0 * Leaf(s, cp, 0x213) + 3.0 * Leaf(s, cp, 0x1023) + 2.0 * Leaf(s, cp, 0x1102) + 2.0 * Leaf(s, cp, 0x1_0012) + 1.0 * Leaf(s, cp, 0x10_0001)
  {
    Enumerated5From0(s, cp);
  }
  lemma Weight5Term1(s: seq<real>, cp: seq<real>)
    requires |s| == 16 && |cp| == 16
    ensures Leaf(s, cp, 0x1023) == s[3] * cp[1] * cp[1] * cp[3]
  {
    RadixTable();
    LeafBase(s, cp, 3);
    LeafStep(s, cp, 0x3, 1, 0x13);
    LeafStep(s, cp, 0x13, 1, 0x23);
    LeafStep(s, cp, 0x23, 3, 0x1023);
  }
  lemma Weight5Term2(s: seq<real>, cp: seq<real>)
    requires |s| == 16 && |cp| == 16
    ensures Leaf(s, cp, 0x1_0012) == s[2] * cp[1] * cp[4]
  {
    RadixTable();
    LeafBase(s, cp, 2);
    LeafStep(s, cp, 0x2, 1, 0x12);
    LeafStep(s, cp, 0x12, 4, 0x1_0012);
  }
  lemma Weight5Term3(s: seq<real>, cp: seq<real>)
    requires |s| == 16 && |cp| == 16
    ensures Leaf(s, cp, 0x213) == s[3] * cp[1] * cp[2] * cp[2]
  {
    RadixTable();
    LeafBase(s, cp, 3);
    LeafStep(s, cp, 0x3, 1, 0x13);
    LeafStep(s, cp, 0x13, 2, 0x113);
    LeafStep(s, cp, 0x113, 2, 0x213);
  }
  lemma Weight5Term4(s: seq<real>, cp: seq<real>)
    requires |s| == 16 && |cp| == 16
    ensures Leaf(s, cp, 0x10_0001) == s[1] * cp[5]
  {
    RadixTable();
    LeafBase(s, cp, 1);
    LeafStep(s, cp, 0x1, 5, 0x10_0001);
  }
  lemma Weight5Term5(s: seq<real>, cp: seq<real>)
    requires |s| == 16 && |cp| == 16
    ensures Leaf(s, cp, 0x1102) == s[2] * cp[2] * cp[3]
  {
    RadixTable();
    LeafBase(s, cp, 2);
    LeafStep(s, cp, 0x2, 2, 0x102);
    LeafStep(s, cp, 0x102, 3, 0x1102);
  }
  lemma Weight5Term6(s: seq<real>, cp: seq<real>)
    requires |s| == 16 && |cp| == 16
    ensures Leaf(s, cp, 0x134) == s[4] * cp[1] * cp[1] * cp[1] * cp[2]
  {
    RadixTable();
    LeafBase(s, cp, 4);
    LeafStep(s, cp, 0x4, 1, 0x14);
    LeafStep(s, cp, 0x14, 1, 0x24);
    LeafStep(s, cp, 0x24, 1, 0x34);
    LeafStep(s, cp, 0x34, 2, 0x134);
  }
  lemma Weight5Term7(s: seq<real>, cp: seq<real>)
    requires |s| == 16 && |cp| == 16
    ensures Leaf(s, cp, 0x55) == s[5] * cp[1] * cp[1] * cp[1] * cp[1] * cp[1]
  {
    RadixTable();
    LeafBase(s, cp, 5);
    LeafStep(s, cp, 0x5, 1, 0x15);
    LeafStep(s, cp, 0x15, 1, 0x25);
    LeafStep(s, cp, 0x25, 1, 0x35);
    LeafStep(s, cp, 0x35, 1, 0x45);
    LeafStep(s, cp, 0x45, 1, 0x55);
  }
  lemma Weight5IsSeries(s: seq<real>, cp: seq<real>)
    requires |s| == 16 && |cp| == 16
    ensures Weight5(s, cp) == SeriesCoefficient(s, cp, 5)
  {
    Weight5Term1(s, cp);
    Weight5Term2(s, cp);
    Weight5Term3(s, cp);
    Weight5Term4(s, cp);
    Weight5Term5(s, cp);
    Weight5Term6(s, cp);
    Weight5Term7(s, cp);
    Enumerated5(s, cp);
    SeriesIsEnumerated(s, cp, 5);
  }
  lemma Enumerated6From6(s: seq<real>, cp: seq<real>)
    requires |s| == 16 && |cp| == 16
    ensures EnumFrom(s, cp, 6, 6) == 1.0 * Leaf(s, cp, 0x66)
  {
    Parts6Of6(s, cp, 6);
    EnumFromBelow(s, cp, 6, 7);
  }
  lemma Enumerated6From5(s: seq<real>, cp: seq<real>)
    requires |s| == 16 && |cp| == 16
    ensures EnumFrom(s, cp, 6, 5) == 1.0 * Leaf(s, cp, 0x66) + 5.0 * Leaf(s, cp, 0x145)
  {
    Parts5Of6(s, cp, 5);
    Enumerated6From6(s, cp);
  }
  lemma Enumerated6From4(s: seq<real>, cp: seq<real>)
    requires |s| == 16 && |cp| == 16
    ensures EnumFrom(s, cp, 6, 4) == 1.0 * Leaf(s, cp, 0x66) + 5.0 * Leaf(s, cp, 0x145) + 6.0 * Leaf(s, cp, 0x224) + 4.0 * Leaf(s, cp, 0x1034)
  {
    Parts4Of6(s, cp, 4);
    Enumerated6From5(s, cp);
  }
  lemma Enumerated6From3(s: seq<real>, cp: seq<real>)
    requires |s| == 16 && |cp| == 16
    ensures EnumFrom(s, cp, 6, 3) == 1.0 * Leaf(s, cp, 0x66) + 5.0 * Leaf(s, cp, 0x145) + 6.0 * Leaf(s, cp, 0x224) + 1.0 * Leaf(s, cp, 0x303) + 4.0 * Leaf(s, cp, 0x1034) + 6.0 * Leaf(s, cp, 0x1113) + 3.0 * Leaf(s, cp, 0x1_0023)
  {
    Parts3Of6(s, cp, 3);
    Enumerated6From4(s, cp);
  }
  lemma Enumerated6From2(s: seq<real>, cp: seq<real>)
    requires |s| == 16 && |cp| == 16
    ensures EnumFrom(s, cp, 6, 2) == 1.0 * Leaf(s, cp, 0x66) + 5.0 * Leaf(s, cp, 0x145) + 6.0 * Leaf(s, cp, 0x224) + 1.0 * Leaf(s, cp, 0x303) + 4.0 * Leaf(s, cp, 0x1034) + 6.0 * Leaf(s, cp, 0x1113) + 1.0 * Leaf(s, cp, 0x2002) + 3.0 * Leaf(s, cp, 0x1_0023) + 2.0 * Leaf(s, cp, 0x1_0102) + 2.0 * Leaf(s, cp, 0x10_0012)
  {
    Parts2Of6(s, cp, 2);
    Enumerated6From3(s, cp);
  }
  lemma Enumerated6From1(s: seq<real>, cp: seq<real>)
    requires |s| == 16 && |cp| == 16
    ensures EnumFrom(s, cp, 6, 1) == 1.0 * Leaf(s, cp, 0x66) + 5.0 * Leaf(s, cp, 0x145) + 6.0 * Leaf(s, cp, 0x224) + 1.0 * Leaf(s, cp, 0x303) + 4.0 * Leaf(s, cp, 0x1034) + 6.0 * Leaf(s, cp, 0x1113) + 1.0 * Leaf(s, cp, 0x2002) + 3.0 * Leaf(s, cp, 0x1_0023) + 2.0 * Leaf(s, cp, 0x1_0102) + 2.0 * Leaf(s, cp, 0x10_0012) + 1.0 * Leaf(s, cp, 0x100_0001)
  {
    Parts1Of6(s, cp, 1);
    Enumerated6From2(s, cp);
  }
  lemma Enumerated6From0(s: seq<real>, cp: seq<real>)
    requires |s| == 16 && |cp| == 16
    ensures EnumFrom(s, cp, 6, 0) == 1.0 * Leaf(s, cp, 0x66) + 5.0 * Leaf(s, cp, 0x145) + 6.0 * Leaf(s, cp, 0x224) + 1.0 * Leaf(s, cp, 0x303) + 4.0 * Leaf(s, cp, 0x1034) + 6.0 * Leaf(s, cp, 0x1113) + 1.0 * Leaf(s, cp, 0x2002) + 3.0 * Leaf(s, cp, 0x1_0023) + 2.0 * Leaf(s, cp, 0x1_0102) + 2.0 * Leaf(s, cp, 0x10_0012) + 1.0 * Leaf(s, cp, 0x100_0001)
  {
    assert Expand(s, cp, 0, 6, 0) == 0.0;
    Enumerated6From1(s, cp);
  }
  lemma Enumerated6(s: seq<real>, cp: seq<real>)
    requires |s| == 16 && |cp| == 16
    ensures Enumerated(s, cp, 6) == 1.0 * Leaf(s, cp, 0x66) + 5.0 * Leaf(s, cp, 0x145) + 6.0 * Leaf(s, cp, 0x224) + 1.0 * Leaf(s, cp, 0x303) + 4.0 * Leaf(s, cp, 0x1034) + 6.0 * Leaf(s, cp, 0x1113) + 1.0 * Leaf(s, cp, 0x2002) + 3.0 * Leaf(s, cp, 0x1_0023) + 2.0 * Leaf(s, cp, 0x1_0102) + 2.0 * Leaf(s, cp, 0x10_0012) + 1.0 * Leaf(s, cp, 0x100_0001)
  {
    Enumerated6From0(s, cp);
  }
  lemma Weight6Term1(s: seq<real>, cp: seq<real>)
    requires |s| == 16 && |cp| == 16
    ensures Leaf(s, cp, 0x303) == s[3] * cp[2] * cp[2] * cp[2]
  {
    RadixTable();
    LeafBase(s, cp, 3);
    LeafStep(s, cp, 0x3, 2, 0x103);
    LeafStep(s, cp, 0x103, 2, 0x203);
    LeafStep(s, cp, 0x203, 2, 0x303);
  }
  lemma Weight6Term2(s: seq<real>, cp: seq<real>)
    requires |s| == 16 && |cp| == 16
    ensures Leaf(s, cp, 0x2002) == s[2] * cp[3] * cp[3]
  {
    RadixTable();
    LeafBase(s, cp, 2);
    LeafStep(s, cp, 0x2, 3, 0x1002);
    LeafStep(s, cp, 0x1002, 3, 0x2002);
  }
  lemma Weight6Term3(s: seq<real>, cp: seq<real>)
    requires |s| == 16 && |cp| == 16
    ensures Leaf(s, cp, 0x224) == s[4] * cp[1] * cp[1] * cp[2] * cp[2]
  {
    RadixTable();
    LeafBase(s, cp, 4);
    LeafStep(s, cp, 0x4, 1, 0x14);
    LeafStep(s, cp, 0x14, 1, 0x24);
    LeafStep(s, cp, 0x24, 2, 0x124);
    LeafStep(s, cp, 0x124, 2, 0x224);
  }
  lemma Weight6Term4(s: seq<real>, cp: seq<real>)
    requires |s| == 16 && |cp| == 16
    ensures Leaf(s, cp, 0x145) == s[5] * cp[1] * cp[1] * cp[1] * cp[1] * cp[2]
  {
    RadixTable();
    LeafBase(s, cp, 5);
    LeafStep(s, cp, 0x5, 1, 0x15);
    LeafStep(s, cp, 0x15, 1, 0x25);
    LeafStep(s, cp, 0x25, 1, 0x35);
    LeafStep(s, cp, 0x35, 1, 0x45);
    LeafStep(s, cp, 0x45, 2, 0x145);
  }
  lemma Weight6Term5(s: seq<real>, cp: seq<real>)
    requires |s| == 16 && |cp| == 16
    ensures Leaf(s, cp, 0x1113) == s[3] * cp[1] * cp[2] * cp[3]
  {
    RadixTable();
    LeafBase(s, cp, 3);
    LeafStep(s, cp, 0x3, 1, 0x13);
    LeafStep(s, cp, 0x13, 2, 0x113);
    LeafStep(s, cp, 0x113, 3, 0x1113);
  }
  lemma Weight6Term6(s: seq<real>, cp: seq<real>)
    requires |s| == 16 && |cp| == 16
    ensures Leaf(s, cp, 0x10_0012) == s[2] * cp[1] * cp[5]
  {
    RadixTable();
    LeafBase(s, cp, 2);
    LeafStep(s, cp, 0x2, 1, 0x12);
    LeafStep(s, cp, 0x12, 5, 0x10_0012);
  }
  lemma Weight6Term7(s: seq<real>, cp: seq<real>)
    requires |s| == 16 && |cp| == 16
    ensures Leaf(s, cp, 0x100_0001) == s[1] * cp[6]
  {
    RadixTable();
    LeafBase(s, cp, 1);
    LeafStep(s, cp, 0x1, 6, 0x100_0001);
  }
  lemma Weight6Term8(s: seq<real>, cp: seq<real>)
    requires |s| == 16 && |cp| == 16
    ensures Leaf(s, cp, 0x1_0102) == s[2] * cp[2] * cp[4]
  {
    RadixTable();
    LeafBase(s, cp, 2);
    LeafStep(s, cp, 0x2, 2, 0x102);
    LeafStep(s, cp, 0x102, 4, 0x1_0102);
  }
  lemma Weight6Term9(s: seq<real>, cp: seq<real>)
    requires |s| == 16 && |cp| == 16
    ensures Leaf(s, cp, 0x66) == s[6] * cp[1] * cp[1] * cp[1] * cp[1] * cp[1] * cp[1]
  {
    RadixTable();
    LeafBase(s, cp, 6);
    LeafStep(s, cp, 0x6, 1, 0x16);
    LeafStep(s, cp, 0x16, 1, 0x26);
    LeafStep(s, cp, 0x26, 1, 0x36);
    LeafStep(s, cp, 0x36, 1, 0x46);
    LeafStep(s, cp, 0x46, 1, 0x56);
    LeafStep(s, cp, 0x56, 1, 0x66);
  }
  lemma Weight6Term10(s: seq<real>, cp: seq<real>)
    requires |s| == 16 && |cp| == 16
    ensures Leaf(s, cp, 0x1_0023) == s[3] * cp[1] * cp[1] * cp[4]
  {
    RadixTable();
    LeafBase(s, cp, 3);
    LeafStep(s, cp, 0x3, 1, 0x13);
    LeafStep(s, cp, 0x13, 1, 0x23);
    LeafStep(s, cp, 0x23, 4, 0x1_0023);
  }
  lemma Weight6Term11(s: seq<real>, cp: seq<real>)
    requires |s| == 16 && |cp| == 16
    ensures Leaf(s, cp, 0x1034) == s[4] * cp[1] * cp[1] * cp[1] * cp[3]
  {
    RadixTable();
    LeafBase(s, cp, 4);
    LeafStep(s, cp, 0x4, 1, 0x14);
    LeafStep(s, cp, 0x14, 1, 0x24);
    LeafStep(s, cp, 0x24, 1, 0x34);
    LeafStep(s, cp, 0x34, 3, 0x1034);
  }
  lemma Weight6IsSeries(s: seq<real>, cp: seq<real>)
    requires |s| == 16 && |cp| == 16
    ensures Weight6(s, cp) == SeriesCoefficient(s, cp, 6)
  {
    Weight6Term1(s, cp);
    Weight6Term2(s, cp);
    Weight6Term3(s, cp);
    Weight6Term4(s, cp);
    Weight6Term5(s, cp);
    Weight6Term6(s, cp);
    Weight6Term7(s, cp);
    Weight6Term8(s, cp);
    Weight6Term9(s, cp);
    Weight6Term10(s, cp);
    Weight6Term11(s, cp);
    Enumerated6(s, cp);
    SeriesIsEnumerated(s, cp, 6);
  }
  lemma Enumerated7From7(s: seq<real>, cp: seq<real>)
    requires |s| == 16 && |cp| == 16
    ensures EnumFrom(s, cp, 7, 7) == 1.0 * Leaf(s, cp, 0x77)
  {
    Parts7Of7(s, cp, 7);
    EnumFromBelow(s, cp, 7, 8);
  }
  lemma Enumerated7From6(s: seq<real>, cp: seq<real>)
    requires |s| == 16 && |cp| == 16
    ensures EnumFrom(s, cp, 7, 6) == 1.0 * Leaf(s, cp, 0x77) + 6.0 * Leaf(s, cp, 0x156)
  {
    Parts6Of7(s, cp, 6);
    Enumerated7From7(s, cp);
  }
  lemma Enumerated7From5(s: seq<real>, cp: seq<real>)
    requires |s| == 16 && |cp| == 16
    ensures EnumFrom(s, cp, 7, 5) == 1.0 * Leaf(s, cp, 0x77) + 6.0 * Leaf(s, cp, 0x156) + 10.0 * Leaf(s, cp, 0x235) + 5.0 * Leaf(s, cp, 0x1045)
  {
    Parts5Of7(s, cp, 5);
    Enumerated7From6(s, cp);
  }
  lemma Enumerated7From4(s: seq<real>, cp: seq<real>)
    requires |s| == 16 && |cp| == 16
    ensures EnumFrom(s, cp, 7, 4) == 1.0 * Leaf(s, cp, 0x77) + 6.0 * Leaf(s, cp, 0x156) + 10.0 * Leaf(s, cp, 0x235) + 4.0 * Leaf(s, cp, 0x314) + 5.0 * Leaf(s, cp, 0x1045) + 12.0 * Leaf(s, cp, 0x1124) + 4.0 * Leaf(s, cp, 0x1_0034)
  {
    Parts4Of7(s, cp, 4);
    Enumerated7From5(s, cp);
  }
  lemma Enumerated7From3(s: seq<real>, cp: seq<real>)
    requires |s| == 16 && |cp| == 16
    ensures EnumFrom(s, cp, 7, 3) == 1.0 * Leaf(s, cp, 0x77) + 6.0 * Leaf(s, cp, 0x156) + 10.0 * Leaf(s, cp, 0x235) + 4.0 * Leaf(s, cp, 0x314) + 5.0 * Leaf(s, cp, 0x1045) + 12.0 * Leaf(s, cp, 0x1124) + 3.0 * Leaf(s, cp, 0x1203) + 3.0 * Leaf(s, cp, 0x2013) + 4.0 * Leaf(s, cp, 0x1_0034) + 6.0 * Leaf(s, cp, 0x1_0113) + 3.0 * Leaf(s, cp, 0x10_0023)
  {
    Parts3Of7(s, cp, 3);
    Enumerated7From4(s, cp);
  }
  lemma Enumerated7From2(s: seq<real>, cp: seq<real>)
    requires |s| == 16 && |cp| == 16
    ensures EnumFrom(s, cp, 7, 2) == 1.0 * Leaf(s, cp, 0x77) + 6.0 * Leaf(s, cp, 0x156) + 10.0 * Leaf(s, cp, 0x235) + 4.0 * Leaf(s, cp, 0x314) + 5.0 * Leaf(s, cp, 0x1045) + 12.0 * Leaf(s, cp, 0x1124) + 3.0 * Leaf(s, cp, 0x1203) + 3.0 * Leaf(s, cp, 0x2013) + 4.0 * Leaf(s, cp, 0x1_0034) + 6.0 * Leaf(s, cp, 0x1_0113) + 2.0 * Leaf(s, cp, 0x1_1002) + 3.0 * Leaf(s, cp, 0x10_0023) + 2.0 * Leaf(s, cp, 0x10_0102) + 2.0 * Leaf(s, cp, 0x100_0012)
  {
    Parts2Of7(s, cp, 2);
    Enumerated7From3(s, cp);
  }
  lemma Enumerated7From1(s: seq<real>, cp: seq<real>)
    requires |s| == 16 && |cp| == 16
    ensures EnumFrom(s, cp, 7, 1) == 1.0 * Leaf(s, cp, 0x77) + 6.0 * Leaf(s, cp, 0x156) + 10.0 * Leaf(s, cp, 0x235) + 4.0 * Leaf(s, cp, 0x314) + 5.0 * Leaf(s, cp, 0x1045) + 12.0 * Leaf(s, cp, 0x1124) + 3.0 * Leaf(s, cp, 0x1203) + 3.0 * Leaf(s, cp, 0x2013) + 4.0 * Leaf(s, cp, 0x1_0034) + 6.0 * Leaf(s, cp, 0x1_0113) + 2.0 * Leaf(s, cp, 0x1_1002) + 3.0 * Leaf(s, cp, 0x10_0023) + 2.0 * Leaf(s, cp, 0x10_0102) + 2.0 * Leaf(s, cp, 0x100_0012) + 1.0 * Leaf(s, cp, 0x1000_0001)
  {
    Parts1Of7(s, cp, 1);
    Enumerated7From2(s, cp);
  }
  lemma Enumerated7From0(s: seq<real>, cp: seq<real>)
    requires |s| == 16 && |cp| == 16
    ensures EnumFrom(s, cp, 7, 0) == 1.0 * Leaf(s, cp, 0x77) + 6.0 * Leaf(s, cp, 0x156) + 10.0 * Leaf(s, cp, 0x235) + 4.0 * Leaf(s, cp, 0x314) + 5.0 * Leaf(s, cp, 0x1045) + 12.0 * Leaf(s, cp, 0x1124) + 3.0 * Leaf(s, cp, 0x1203) + 3.0 * Leaf(s, cp, 0x2013) + 4.0 * Leaf(s, cp, 0x1_0034) + 6.0 * Leaf(s, cp, 0x1_0113) + 2.0 * Leaf(s, cp, 0x1_1002) + 3.0 * Leaf(s, cp, 0x10_0023) + 2.0 * Leaf(s, cp, 0x10_0102) + 2.0 * Leaf(s, cp, 0x100_0012) + 1.0 * Leaf(s, cp, 0x1000_0001)
  {
    assert Expand(s, cp, 0, 7, 0) == 0.0;
    Enumerated7From1(s, cp);
  }
  lemma Enumerated7(s: seq<real>, cp: seq<real>)
    requires |s| == 16 && |cp| == 16
    ensures Enumerated(s, cp, 7) == 1.0 * Leaf(s, cp, 0x77) + 6.0 * Leaf(s, cp, 0x156) + 10.0 * Leaf(s, cp, 0x235) + 4.0 * Leaf(s, cp, 0x314) + 5.0 * Leaf(s, cp, 0x1045) + 12.0 * Leaf(s, cp, 0x1124) + 3.0 * Leaf(s, cp, 0x1203) + 3.0 * Leaf(s, cp, 0x2013) + 4.0 * Leaf(s, cp, 0x1_0034) + 6.0 * Leaf(s, cp, 0x1_0113) + 2.0 * Leaf(s, cp, 0x1_1002) + 3.0 * Leaf(s, cp, 0x10_0023) + 2.0 * Leaf(s, cp, 0x10_0102) + 2.0 * Leaf(s, cp, 0x100_0012) + 1.0 * Leaf(s, cp, 0x1000_0001)
  {
    Enumerated7From0(s, cp);
  }
  lemma Weight7Term1(s: seq<real>, cp: seq<real>)
    requires |s| == 16 && |cp| == 16
    ensures Leaf(s, cp, 0x77) == s[7] * cp[1] * cp[1] * cp[1] * cp[1] * cp[1] * cp[1] * cp[1]
  {
    RadixTable();
    LeafBase(s, cp, 7);
    LeafStep(s, cp, 0x7, 1, 0x17);
    LeafStep(s, cp, 0x17, 1, 0x27);
    LeafStep(s, cp, 0x27, 1, 0x37);
    LeafStep(s, cp, 0x37, 1, 0x47);
    LeafStep(s, cp, 0x47, 1, 0x57);
    LeafStep(s, cp, 0x57, 1, 0x67);
    LeafStep(s, cp, 0x67, 1, 0x77);
  }
  lemma Weight7Term2(s: seq<real>, cp: seq<real>)
    requires |s| == 16 && |cp| == 16
    ensures Leaf(s, cp, 0x10_0023) == s[3] * cp[1] * cp[1] * cp[5]
  {
    RadixTable();
    LeafBase(s, cp, 3);
    LeafStep(s, cp, 0x3, 1, 0x13);
    LeafStep(s, cp, 0x13, 1, 0x23);
    LeafStep(s, cp, 0x23, 5, 0x10_0023);
  }
  lemma Weight7Term3(s: seq<real>, cp: seq<real>)
    requires |s| == 16 && |cp| == 16
    ensures Leaf(s, cp, 0x1_0034) == s[4] * cp[1] * cp[1] * cp[1] * cp[4]
  {
    RadixTable();
    LeafBase(s, cp, 4);
    LeafStep(s, cp, 0x4, 1, 0x14);
    LeafStep(s, cp, 0x14, 1, 0x24);
    LeafStep(s, cp, 0x24, 1, 0x34);
    LeafStep(s, cp, 0x34, 4, 0x1_0034);
  }
  lemma Weight7Term4(s: seq<real>, cp: seq<real>)
    requires |s| == 16 && |cp| == 16
    ensures Leaf(s, cp, 0x156) == s[6] * cp[1] * cp[1] * cp[1] * cp[1] * cp[1] * cp[2]
  {
    RadixTable();
    LeafBase(s, cp, 6);
    LeafStep(s, cp, 0x6, 1, 0x16);
    LeafStep(s, cp, 0x16, 1, 0x26);
    LeafStep(s, cp, 0x26, 1, 0x36);
    LeafStep(s, cp, 0x36, 1, 0x46);
    LeafStep(s, cp, 0x46, 1, 0x56);
    LeafStep(s, cp, 0x56, 2, 0x156);
  }
  lemma Weight7Term5(s: seq<real>, cp: seq<real>)
    requires |s| == 16 && |cp| == 16
    ensures Leaf(s, cp, 0x1045) == s[5] * cp[1] * cp[1] * cp[1] * cp[1] * cp[3]
  {
    RadixTable();
    LeafBase(s, cp, 5);
    LeafStep(s, cp, 0x5, 1, 0x15);
    LeafStep(s, cp, 0x15, 1, 0x25);
    LeafStep(s, cp, 0x25, 1, 0x35);
    LeafStep(s, cp, 0x35, 1, 0x45);
    LeafStep(s, cp, 0x45, 3, 0x1045);
  }
  lemma Weight7Term6(s: seq<real>, cp: seq<real>)
    requires |s| == 16 && |cp| == 16
    ensures Leaf(s, cp, 0x314) == s[4] * cp[1] * cp[2] * cp[2] * cp[2]
  {
    RadixTable();
    LeafBase(s, cp, 4);
    LeafStep(s, cp, 0x4, 1, 0x14);
    LeafStep(s, cp, 0x14, 2, 0x114);
    LeafStep(s, cp, 0x114, 2, 0x214);
    LeafStep(s, cp, 0x214, 2, 0x314);
  }
  lemma Weight7Term7(s: seq<real>, cp: seq<real>)
    requires |s| == 16 && |cp| == 16
    ensures Leaf(s, cp, 0x1124) == s[4] * cp[1] * cp[1] * cp[2] * cp[3]
  {
    RadixTable();
    LeafBase(s, cp, 4);
    LeafStep(s, cp, 0x4, 1, 0x14);
    LeafStep(s, cp, 0x14, 1, 0x24);
    LeafStep(s, cp, 0x24, 2, 0x124);
    LeafStep(s, cp, 0x124, 3, 0x1124);
  }
  lemma Weight7Term8(s: seq<real>, cp: seq<real>)
    requires |s| == 16 && |cp| == 16
    ensures Leaf(s, cp, 0x235) == s[5] * cp[1] * cp[1] * cp[1] * cp[2] * cp[2]
  {
    RadixTable();
    LeafBase(s, cp, 5);
    LeafStep(s, cp, 0x5, 1, 0x15);
    LeafStep(s, cp, 0x15, 1, 0x25);
    LeafStep(s, cp, 0x25, 1, 0x35);
    LeafStep(s, cp, 0x35, 2, 0x135);
    LeafStep(s, cp, 0x135, 2, 0x235);
  }
  lemma Weight7Term9(s: seq<real>, cp: seq<real>)
    requires |s| == 16 && |cp| == 16
    ensures Leaf(s, cp, 0x100_0012) == s[2] * cp[1] * cp[6]
  {
    RadixTable();
    LeafBase(s, cp, 2);
    LeafStep(s, cp, 0x2, 1, 0x12);
    LeafStep(s, cp, 0x12, 6, 0x100_0012);
  }
  lemma Weight7Term10(s: seq<real>, cp: seq<real>)
    requires |s| == 16 && |cp| == 16
    ensures Leaf(s, cp, 0x1_0113) == s[3] * cp[1] * cp[2] * cp[4]
  {
    RadixTable();
    LeafBase(s, cp, 3);
    LeafStep(s, cp, 0x3, 1, 0x13);
    LeafStep(s, cp, 0x13, 2, 0x113);
    LeafStep(s, cp, 0x113, 4, 0x1_0113);
  }
  lemma Weight7Term11(s: seq<real>, cp: seq<real>)
    requires |s| == 16 && |cp| == 16
    ensures Leaf(s, cp, 0x1000_0001) == s[1] * cp[7]
  {
    RadixTable();
    LeafBase(s, cp, 1);
    LeafStep(s, cp, 0x1, 7, 0x1000_0001);
  }
  lemma Weight7Term12(s: seq<real>, cp: seq<real>)
    requires |s| == 16 && |cp| == 16
    ensures Leaf(s, cp, 0x10_0102) == s[2] * cp[2] * cp[5]
  {
    RadixTable();
    LeafBase(s, cp, 2);
    LeafStep(s, cp, 0x2, 2, 0x102);
    LeafStep(s, cp, 0x102, 5, 0x10_0102);
  }
  lemma Weight7Term13(s: seq<real>, cp: seq<real>)
    requires |s| == 16 && |cp| == 16
    ensures Leaf(s, cp, 0x1_1002) == s[2] * cp[3] * cp[4]
  {
    RadixTable();
    LeafBase(s, cp, 2);
    LeafStep(s, cp, 0x2, 3, 0x1002);
    LeafStep(s, cp, 0x1002, 4, 0x1_1002);
  }
  lemma Weight7Term14(s: seq<real>, cp: seq<real>)
    requires |s| == 16 && |cp| == 16
    ensures Leaf(s, cp, 0x1203) == s[3] * cp[2] * cp[2] * cp[3]
  {
    RadixTable();
    LeafBase(s, cp, 3);
    LeafStep(s, cp, 0x3, 2, 0x103);
    LeafStep(s, cp, 0x103, 2, 0x203);
    LeafStep(s, cp, 0x203, 3, 0x1203);
  }
  lemma Weight7Term15(s: seq<real>, cp: seq<real>)
    requires |s| == 16 && |cp| == 16
    ensures Leaf(s, cp, 0x2013) == s[3] * cp[1] * cp[3] * cp[3]
  {
    RadixTable();
    LeafBase(s, cp, 3);
    LeafStep(s, cp, 0x3, 1, 0x13);
    LeafStep(s, cp, 0x13, 3, 0x1013);
    LeafStep(s, cp, 0x1013, 3, 0x2013);
  }
  lemma Weight7IsSeries(s: seq<real>, cp: seq<real>)
    requires |s| == 16 && |cp| == 16
    ensures Weight7(s, cp) == SeriesCoefficient(s, cp, 7)
  {
    Weight7Term1(s, cp);
    Weight7Term2(s, cp);
    Weight7Term3(s, cp);
    Weight7Term4(s, cp);
    Weight7Term5(s, cp);
    Weight7Term6(s, cp);
    Weight7Term7(s, cp);
    Weight7Term8(s, cp);
    Weight7Term9(s, cp);
    Weight7Term10(s, cp);
    Weight7Term11(s, cp);
    Weight7Term12(s, cp);
    Weight7Term13(s, cp);
    Weight7Term14(s, cp);
    Weight7Term15(s, cp);
    Enumerated7(s, cp);
    SeriesIsEnumerated(s, cp, 7);
  }
  lemma Enumerated8From8(s: seq<real>, cp: seq<real>)
    requires |s| == 16 && |cp| == 16
    ensures EnumFrom(s, cp, 8, 8) == 1.0 * Leaf(s, cp, 0x88)
  {
    Parts8Of8(s, cp, 8);
    EnumFromBelow(s, cp, 8, 9);
  }
  lemma Enumerated8From7(s: seq<real>, cp: seq<real>)
    requires |s| == 16 && |cp| == 16
    ensures EnumFrom(s, cp, 8, 7) == 1.0 * Leaf(s, cp, 0x88) + 7.0 * Leaf(s, cp, 0x167)
  {
    Parts7Of8(s, cp, 7);
    Enumerated8From8(s, cp);
  }
  lemma Enumerated8From6(s: seq<real>, cp: seq<real>)
    requires |s| == 16 && |cp| == 16
    ensures EnumFrom(s, cp, 8, 6) == 1.0 * Leaf(s, cp, 0x88) + 7.0 * Leaf(s, cp, 0x167) + 15.0 * Leaf(s, cp, 0x246) + 6.0 * Leaf(s, cp, 0x1056)
  {
    Parts6Of8(s, cp, 6);
    Enumerated8From7(s, cp);
  }
  lemma Enumerated8From5(s: seq<real>, cp: seq<real>)
    requires |s| == 16 && |cp| == 16
    ensures EnumFrom(s, cp, 8, 5) == 1.0 * Leaf(s, cp, 0x88) + 7.0 * Leaf(s, cp, 0x167) + 15.0 * Leaf(s, cp, 0x246) + 10.0 * Leaf(s, cp, 0x325) + 6.0 * Leaf(s, cp, 0x1056) + 20.0 * Leaf(s, cp, 0x1135) + 5.0 * Leaf(s, cp, 0x1_0045)
  {
    Parts5Of8(s, cp, 5);
    Enumerated8From6(s, cp);
  }
  lemma Enumerated8From4(s: seq<real>, cp: seq<real>)
    requires |s| == 16 && |cp| == 16
    ensures EnumFrom(s, cp, 8, 4) == 1.0 * Leaf(s, cp, 0x88) + 7.0 * Leaf(s, cp, 0x167) + 15.0 * Leaf(s, cp, 0x246) + 10.0 * Leaf(s, cp, 0x325) + 1.0 * Leaf(s, cp, 0x404) + 6.0 * Leaf(s, cp, 0x1056) + 20.0 * Leaf(s, cp, 0x1135) + 12.0 * Leaf(s, cp, 0x1214) + 6.0 * Leaf(s, cp, 0x2024) + 5.0 * Leaf(s, cp, 0x1_0045) + 12.0 * Leaf(s, cp, 0x1_0124) + 4.0 * Leaf(s, cp, 0x10_0034)
  {
    Parts4Of8(s, cp, 4);
    Enumerated8From5(s, cp);
  }
  lemma Enumerated8From3(s: seq<real>, cp: seq<real>)
    requires |s| == 16 && |cp| == 16
    ensures EnumFrom(s, cp, 8, 3) == 1.0 * Leaf(s, cp, 0x88) + 7.0 * Leaf(s, cp, 0x167) + 15.0 * Leaf(s, cp, 0x246) + 10.0 * Leaf(s, cp, 0x325) + 1.0 * Leaf(s, cp, 0x404) + 6.0 * Leaf(s, cp, 0x1056) + 20.0 * Leaf(s, cp, 0x1135) + 12.0 * Leaf(s, cp, 0x1214) + 6.0 * Leaf(s, cp, 0x2024) + 3.0 * Leaf(s, cp, 0x2103) + 5.0 * Leaf(s, cp, 0x1_0045) + 12.0 * Leaf(s, cp, 0x1_0124) + 3.0 * Leaf(s, cp, 0x1_0203) + 6.0 * Leaf(s, cp, 0x1_1013) + 4.0 * Leaf(s, cp, 0x10_0034) + 6.0 * Leaf(s, cp, 0x10_0113) + 3.0 * Leaf(s, cp, 0x100_0023)
  {
    Parts3Of8(s, cp, 3);
    Enumerated8From4(s, cp);
  }
  lemma Enumerated8From2(s: seq<real>, cp: seq<real>)
    requires |s| == 16 && |cp| == 16
    ensures EnumFrom(s, cp, 8, 2) == 1.0 * Leaf(s, cp, 0x88) + 7.0 * Leaf(s, cp, 0x167) + 15.0 * Leaf(s, cp, 0x246) + 10.0 * Leaf(s, cp, 0x325) + 1.0 * Leaf(s, cp, 0x404) + 6.0 * Leaf(s, cp, 0x1056) + 20.0 * Leaf(s, cp, 0x1135) + 12.0 * Leaf(s, cp, 0x1214) + 6.0 * Leaf(s, cp, 0x2024) + 3.0 * Leaf(s, cp, 0x2103) + 5.0 * Leaf(s, cp, 0x1_0045) + 12.0 * Leaf(s, cp, 0x1_0124) + 3.0 * Leaf(s, cp, 0x1_0203) + 6.0 * Leaf(s, cp, 0x1_1013) + 1.0 * Leaf(s, cp, 0x2_0002) + 4.0 * Leaf(s, cp, 0x10_0034) + 6.0 * Leaf(s, cp, 0x10_0113) + 2.0 * Leaf(s, cp, 0x10_1002) + 3.0 * Leaf(s, cp, 0x100_0023) + 2.0 * Leaf(s, cp, 0x100_0102) + 2.0 * Leaf(s, cp, 0x1000_0012)
  {
    Parts2Of8(s, cp, 2);
    Enumerated8From3(s, cp);
  }
  lemma Enumerated8From1(s: seq<real>, cp: seq<real>)
    requires |s| == 16 && |cp| == 16
    ensures EnumFrom(s, cp, 8, 1) == 1.0 * Leaf(s, cp, 0x88) + 7.0 * Leaf(s, cp, 0x167) + 15.0 * Leaf(s, cp, 0x246) + 10.0 * Leaf(s, cp, 0x325) + 1.0 * Leaf(s, cp, 0x404) + 6.0 * Leaf(s, cp, 0x1056) + 20.0 * Leaf(s, cp, 0x1135) + 12.0 * Leaf(s, cp, 0x1214) + 6.0 * Leaf(s, cp, 0x2024) + 3.0 * Leaf(s, cp, 0x2103) + 5.0 * Leaf(s, cp, 0x1_0045) + 12.0 * Leaf(s, cp, 0x1_0124) + 3.0 * Leaf(s, cp, 0x1_0203) + 6.0 * Leaf(s, cp, 0x1_1013) + 1.0 * Leaf(s, cp, 0x2_0002) + 4.0 * Leaf(s, cp, 0x10_0034) + 6.0 * Leaf(s, cp, 0x10_0113) + 2.0 * Leaf(s, cp, 0x10_1002) + 3.0 * Leaf(s, cp, 0x100_0023) + 2.0 * Leaf(s, cp, 0x100_0102) + 2.0 * Leaf(s, cp, 0x1000_0012) + 1.0 * Leaf(s, cp, 0x1_0000_0001)
  {
    Parts1Of8(s, cp, 1);
    Enumerated8From2(s, cp);
  }
  lemma Enumerated8From0(s: seq<real>, cp: seq<real>)
    requires |s| == 16 && |cp| == 16
    ensures EnumFrom(s, cp, 8, 0) == 1.0 * Leaf(s, cp, 0x88) + 7.0 * Leaf(s, cp, 0x167) + 15.0 * Leaf(s, cp, 0x246) + 10.0 * Leaf(s, cp, 0x325) + 1.0 * Leaf(s, cp, 0x404) + 6.0 * Leaf(s, cp, 0x1056) + 20.0 * Leaf(s, cp, 0x1135) + 12.0 * Leaf(s, cp, 0x1214) + 6.0 * Leaf(s, cp, 0x2024) + 3.0 * Leaf(s, cp, 0x2103) + 5.0 * Leaf(s, cp, 0x1_0045) + 12.0 * Leaf(s, cp, 0x1_0124) + 3.0 * Leaf(s, cp, 0x1_0203) + 6.0 * Leaf(s, cp, 0x1_1013) + 1.0 * Leaf(s, cp, 0x2_0002) + 4.0 * Leaf(s, cp, 0x10_0034) + 6.0 * Leaf(s, cp, 0x10_0113) + 2.0 * Leaf(s, cp, 0x10_1002) + 3.0 * Leaf(s, cp, 0x100_0023) + 2.0 * Leaf(s, cp, 0x100_0102) + 2.0 * Leaf(s, cp, 0x1000_0012) + 1.0 * Leaf(s, cp, 0x1_0000_0001)
  {
    assert Expand(s, cp, 0, 8, 0) == 0.0;
    Enumerated8From1(s, cp);
  }
  lemma Enumerated8(s: seq<real>, cp: seq<real>)
    requires |s| == 16 && |cp| == 16
    ensures Enumerated(s, cp, 8) == 1.0 * Leaf(s, cp, 0x88) + 7.0 * Leaf(s, cp, 0x167) + 15.0 * Leaf(s, cp, 0x246) + 10.0 * Leaf(s, cp, 0x325) + 1.0 * Leaf(s, cp, 0x404) + 6.0 * Leaf(s, cp, 0x1056) + 20.0 * Leaf(s, cp, 0x1135) + 12.0 * Leaf(s, cp, 0x1214) + 6.0 * Leaf(s, cp, 0x2024) + 3.0 * Leaf(s, cp, 0x2103) + 5.0 * Leaf(s, cp, 0x1_0045) + 12.0 * Leaf(s, cp, 0x1_0124) + 3.0 * Leaf(s, cp, 0x1_0203) + 6.0 * Leaf(s, cp, 0x1_1013) + 1.0 * Leaf(s, cp, 0x2_0002) + 4.0 * Leaf(s, cp, 0x10_0034) + 6.0 * Leaf(s, cp, 0x10_0113) + 2.0 * Leaf(s, cp, 0x10_1002) + 3.0 * Leaf(s, cp, 0x100_0023) + 2.0 * Leaf(s, cp, 0x100_0102) + 2.0 * Leaf(s, cp, 0x1000_0012) + 1.0 * Leaf(s, cp, 0x1_0000_0001)
  {
    Enumerated8From0(s, cp);
  }
  lemma Weight8Term1(s: seq<real>, cp: seq<real>)
    requires |s| == 16 && |cp| == 16
    ensures Leaf(s, cp, 0x1135) == s[5] * cp[1] * cp[1] * cp[1] * cp[2] * cp[3]
  {
    RadixTable();
    LeafBase(s, cp, 5);
    LeafStep(s, cp, 0x5, 1, 0x15);
    LeafStep(s, cp, 0x15, 1, 0x25);
    LeafStep(s, cp, 0x25, 1, 0x35);
    LeafStep(s, cp, 0x35, 2, 0x135);
    LeafStep(s, cp, 0x135, 3, 0x1135);
  }
  lemma Weight8Term2(s: seq<real>, cp: seq<real>)
    requires |s| == 16 && |cp| == 16
    ensures Leaf(s, cp, 0x2103) == s[3] * cp[2] * cp[3] * cp[3]
  {
    RadixTable();
    LeafBase(s, cp, 3);
    LeafStep(s, cp, 0x3, 2, 0x103);
    LeafStep(s, cp, 0x103, 3, 0x1103);
    LeafStep(s, cp, 0x1103, 3, 0x2103);
  }
  lemma Weight8Term3(s: seq<real>, cp: seq<real>)
    requires |s| == 16 && |cp| == 16
    ensures Leaf(s, cp, 0x100_0023) == s[3] * cp[1] * cp[1] * cp[6]
  {
    RadixTable();
    LeafBase(s, cp, 3);
    LeafStep(s, cp, 0x3, 1, 0x13);
    LeafStep(s, cp, 0x13, 1, 0x23);
    LeafStep(s, cp, 0x23, 6, 0x100_0023);
  }
  lemma Weight8Term4(s: seq<real>, cp: seq<real>)
    requires |s| == 16 && |cp| == 16
    ensures Leaf(s, cp, 0x1_0203) == s[3] * cp[2] * cp[2] * cp[4]
  {
    RadixTable();
    LeafBase(s, cp, 3);
    LeafStep(s, cp, 0x3, 2, 0x103);
    LeafStep(s, cp, 0x103, 2, 0x203);
    LeafStep(s, cp, 0x203, 4, 0x1_0203);
  }
  lemma Weight8Term5(s: seq<real>, cp: seq<real>)
    requires |s| == 16 && |cp| == 16
    ensures Leaf(s, cp, 0x246) == s[6] * cp[1] * cp[1] * cp[1] * cp[1] * cp[2] * cp[2]
  {
    RadixTable();
    LeafBase(s, cp, 6);
    LeafStep(s, cp, 0x6, 1, 0x16);
    LeafStep(s, cp, 0x16, 1, 0x26);
    LeafStep(s, cp, 0x26, 1, 0x36);
    LeafStep(s, cp, 0x36, 1, 0x46);
    LeafStep(s, cp, 0x46, 2, 0x146);
    LeafStep(s, cp, 0x146, 2, 0x246);
  }
  lemma Weight8Term6(s: seq<real>, cp: seq<real>)
    requires |s| == 16 && |cp| == 16
    ensures Leaf(s, cp, 0x404) == s[4] * cp[2] * cp[2] * cp[2] * cp[2]
  {
    RadixTable();
    LeafBase(s, cp, 4);
    LeafStep(s, cp, 0x4, 2, 0x104);
    LeafStep(s, cp, 0x104, 2, 0x204);
    LeafStep(s, cp, 0x204, 2, 0x304);
    LeafStep(s, cp, 0x304, 2, 0x404);
  }
  lemma Weight8Term7(s: seq<real>, cp: seq<real>)
    requires |s| == 16 && |cp| == 16
    ensures Leaf(s, cp, 0x2_0002) == s[2] * cp[4] * cp[4]
  {
    RadixTable();
    LeafBase(s, cp, 2);
    LeafStep(s, cp, 0x2, 4, 0x1_0002);
    LeafStep(s, cp, 0x1_0002, 4, 0x2_0002);
  }
  lemma Weight8Term8(s: seq<real>, cp: seq<real>)
    requires |s| == 16 && |cp| == 16
    ensures Leaf(s, cp, 0x10_0034) == s[4] * cp[1] * cp[1] * cp[1] * cp[5]
  {
    RadixTable();
    LeafBase(s, cp, 4);
    LeafStep(s, cp, 0x4, 1, 0x14);
    LeafStep(s, cp, 0x14, 1, 0x24);
    LeafStep(s, cp, 0x24, 1, 0x34);
    LeafStep(s, cp, 0x34, 5, 0x10_0034);
  }
  lemma Weight8Term9(s: seq<real>, cp: seq<real>)
    requires |s| == 16 && |cp| == 16
    ensures Leaf(s, cp, 0x100_0102) == s[2] * cp[2] * cp[6]
  {
    RadixTable();
    LeafBase(s, cp, 2);
    LeafStep(s, cp, 0x2, 2, 0x102);
    LeafStep(s, cp, 0x102, 6, 0x100_0102);
  }
  lemma Weight8Term10(s: seq<real>, cp: seq<real>)
    requires |s| == 16 && |cp| == 16
    ensures Leaf(s, cp, 0x2024) == s[4] * cp[1] * cp[1] * cp[3] * cp[3]
  {
    RadixTable();
    LeafBase(s, cp, 4);
    LeafStep(s, cp, 0x4, 1, 0x14);
    LeafStep(s, cp, 0x14, 1, 0x24);
    LeafStep(s, cp, 0x24, 3, 0x1024);
    LeafStep(s, cp, 0x1024, 3, 0x2024);
  }
  lemma Weight8Term11(s: seq<real>, cp: seq<real>)
    requires |s| == 16 && |cp| == 16
    ensures Leaf(s, cp, 0x88) == s[8] * cp[1] * cp[1] * cp[1] * cp[1] * cp[1] * cp[1] * cp[1] * cp[1]
  {
    RadixTable();
    LeafBase(s, cp, 8);
    LeafStep(s, cp, 0x8, 1, 0x18);
    LeafStep(s, cp, 0x18, 1, 0x28);
    LeafStep(s, cp, 0x28, 1, 0x38);
    LeafStep(s, cp, 0x38, 1, 0x48);
    LeafStep(s, cp, 0x48, 1, 0x58);
    LeafStep(s, cp, 0x58, 1, 0x68);
    LeafStep(s, cp, 0x68, 1, 0x78);
    LeafStep(s, cp, 0x78, 1, 0x88);
  }
  lemma Weight8Term12(s: seq<real>, cp: seq<real>)
    requires |s| == 16 && |cp| == 16
    ensures Leaf(s, cp, 0x1_0000_0001) == s[1] * cp[8]
  {
    RadixTable();
    LeafBase(s, cp, 1);
    LeafStep(s, cp, 0x1, 8, 0x1_0000_0001);
  }
  lemma Weight8Term13(s: seq<real>, cp: seq<real>)
    requires |s| == 16 && |cp| == 16
    ensures Leaf(s, cp, 0x167) == s[7] * cp[1] * cp[1] * cp[1] * cp[1] * cp[1] * cp[1] * cp[2]
  {
    RadixTable();
    LeafBase(s, cp, 7);
    LeafStep(s, cp, 0x7, 1, 0x17);
    LeafStep(s, cp, 0x17, 1, 0x27);
    LeafStep(s, cp, 0x27, 1, 0x37);
    LeafStep(s, cp, 0x37, 1, 0x47);
    LeafStep(s, cp, 0x47, 1, 0x57);
    LeafStep(s, cp, 0x57, 1, 0x67);
    LeafStep(s, cp, 0x67, 2, 0x167);
  }
  lemma Weight8Term14(s: seq<real>, cp: seq<real>)
    requires |s| == 16 && |cp| == 16
    ensures Leaf(s, cp, 0x1_0124) == s[4] * cp[1] * cp[1] * cp[2] * cp[4]
  {
    RadixTable();
    LeafBase(s, cp, 4);
    LeafStep(s, cp, 0x4, 1, 0x14);
    LeafStep(s, cp, 0x14, 1, 0x24);
    LeafStep(s, cp, 0x24, 2, 0x124);
    LeafStep(s, cp, 0x124, 4, 0x1_0124);
  }
  lemma Weight8Term15(s: seq<real>, cp: seq<real>)
    requires |s| == 16 && |cp| == 16
    ensures Leaf(s, cp, 0x325) == s[5] * cp[1] * cp[1] * cp[2] * cp[2] * cp[2]
  {
    RadixTable();
    LeafBase(s, cp, 5);
    LeafStep(s, cp, 0x5, 1, 0x15);
    LeafStep(s, cp, 0x15, 1, 0x25);
    LeafStep(s, cp, 0x25, 2, 0x125);
    LeafStep(s, cp, 0x125, 2, 0x225);
    LeafStep(s, cp, 0x225, 2, 0x325);
  }
  lemma Weight8Term16(s: seq<real>, cp: seq<real>)
    requires |s| == 16 && |cp| == 16
    ensures Leaf(s, cp, 0x10_0113) == s[3] * cp[1] * cp[2] * cp[5]
  {
    RadixTable();
    LeafBase(s, cp, 3);
    LeafStep(s, cp, 0x3, 1, 0x13);
    LeafStep(s, cp, 0x13, 2, 0x113);
    LeafStep(s, cp, 0x113, 5, 0x10_0113);
  }
  lemma Weight8Term17(s: seq<real>, cp: seq<real>)
    requires |s| == 16 && |cp| == 16
    ensures Leaf(s, cp, 0x10_1002) == s[2] * cp[3] * cp[5]
  {
    RadixTable();
    LeafBase(s, cp, 2);
    LeafStep(s, cp, 0x2, 3, 0x1002);
    LeafStep(s, cp, 0x1002, 5, 0x10_1002);
  }
  lemma Weight8Term18(s: seq<real>, cp: seq<real>)
    requires |s| == 16 && |cp| == 16
    ensures Leaf(s, cp, 0x1000_0012) == s[2] * cp[1] * cp[7]
  {
    RadixTable();
    LeafBase(s, cp, 2);
    LeafStep(s, cp, 0x2, 1, 0x12);
    LeafStep(s, cp, 0x12, 7, 0x1000_0012);
  }
  lemma Weight8Term19(s: seq<real>, cp: seq<real>)
    requires |s| == 16 && |cp| == 16
    ensures Leaf(s, cp, 0x1_0045) == s[5] * cp[1] * cp[1] * cp[1] * cp[1] * cp[4]
  {
    RadixTable();
    LeafBase(s, cp, 5);
    LeafStep(s, cp, 0x5, 1, 0x15);
    LeafStep(s, cp, 0x15, 1, 0x25);
    LeafStep(s, cp, 0x25, 1, 0x35);
    LeafStep(s, cp, 0x35, 1, 0x45);
    LeafStep(s, cp, 0x45, 4, 0x1_0045);
  }
  lemma Weight8Term20(s: seq<real>, cp: seq<real>)
    requires |s| == 16 && |cp| == 16
    ensures Leaf(s, cp, 0x1056) == s[6] * cp[1] * cp[1] * cp[1] * cp[1] * cp[1] * cp[3]
  {
    RadixTable();
    LeafBase(s, cp, 6);
    LeafStep(s, cp, 0x6, 1, 0x16);
    LeafStep(s, cp, 0x16, 1, 0x26);
    LeafStep(s, cp, 0x26, 1, 0x36);
    LeafStep(s, cp, 0x36, 1, 0x46);
    LeafStep(s, cp, 0x46, 1, 0x56);
    LeafStep(s, cp, 0x56, 3, 0x1056);
  }
  lemma Weight8Term21(s: seq<real>, cp: seq<real>)
    requires |s| == 16 && |cp| == 16
    ensures Leaf(s, cp, 0x1_1013) == s[3] * cp[1] * cp[3] * cp[4]
  {
    RadixTable();
    LeafBase(s, cp, 3);
    LeafStep(s, cp, 0x3, 1, 0x13);
    LeafStep(s, cp, 0x13, 3, 0x1013);
    LeafStep(s, cp, 0x1013, 4, 0x1_1013);
  }
  lemma Weight8Term22(s: seq<real>, cp: seq<real>)
    requires |s| == 16 && |cp| == 16
    ensures Leaf(s, cp, 0x1214) == s[4] * cp[1] * cp[2] * cp[2] * cp[3]
  {
    RadixTable();
    LeafBase(s, cp, 4);
    LeafStep(s, cp, 0x4, 1, 0x14);
    LeafStep(s, cp, 0x14, 2, 0x114);
    LeafStep(s, cp, 0x114, 2, 0x214);
    LeafStep(s, cp, 0x214, 3, 0x1214);
  }
  lemma Weight8IsSeries(s: seq<real>, cp: seq<real>)
    requires |s| == 16 && |cp| == 16
    ensures Weight8(s, cp) == SeriesCoefficient(s, cp, 8)
  {
    Weight8Term1(s, cp);
    Weight8Term2(s, cp);
    Weight8Term3(s, cp);
    Weight8Term4(s, cp);
    Weight8Term5(s, cp);
    Weight8Term6(s, cp);
    Weight8Term7(s, cp);
    Weight8Term8(s, cp);
    Weight8Term9(s, cp);
    Weight8Term10(s, cp);
    Weight8Term11(s, cp);
    Weight8Term12(s, cp);
    Weight8Term13(s, cp);
    Weight8Term14(s, cp);
    Weight8Term15(s, cp);
    Weight8Term16(s, cp);
    Weight8Term17(s, cp);
    Weight8Term18(s, cp);
    Weight8Term19(s, cp);
    Weight8Term20(s, cp);
    Weight8Term21(s, cp);
    Weight8Term22(s, cp);
    Enumerated8(s, cp);
    SeriesIsEnumerated(s, cp, 8);
  }
  lemma Enumerated9From9(s: seq<real>, cp: seq<real>)
    requires |s| == 16 && |cp| == 16
    ensures EnumFrom(s, cp, 9, 9) == 1.0 * Leaf(s, cp, 0x99)
  {
    Parts9Of9(s, cp, 9);
    EnumFromBelow(s, cp, 9, 10);
  }
  lemma Enumerated9From8(s: seq<real>, cp: seq<real>)
    requires |s| == 16 && |cp| == 16
    ensures EnumFrom(s, cp, 9, 8) == 1.0 * Leaf(s, cp, 0x99) + 8.0 * Leaf(s, cp, 0x178)
  {
    Parts8Of9(s, cp, 8);
    Enumerated9From9(s, cp);
  }
  lemma Enumerated9From7(s: seq<real>, cp: seq<real>)
    requires |s| == 16 && |cp| == 16
    ensures EnumFrom(s, cp, 9, 7) == 1.0 * Leaf(s, cp, 0x99) + 8.0 * Leaf(s, cp, 0x178) + 21.0 * Leaf(s, cp, 0x257) + 7.0 * Leaf(s, cp, 0x1067)
  {
    Parts7Of9(s, cp, 7);
    Enumerated9From8(s, cp);
  }
  lemma Enumerated9From6(s: seq<real>, cp: seq<real>)
    requires |s| == 16 && |cp| == 16
    ensures EnumFrom(s, cp, 9, 6) == 1.0 * Leaf(s, cp, 0x99) + 8.0 * Leaf(s, cp, 0x178) + 21.0 * Leaf(s, cp, 0x257) + 20.0 * Leaf(s, cp, 0x336) + 7.0 * Leaf(s, cp, 0x1067) + 30.0 * Leaf(s, cp, 0x1146) + 6.0 * Leaf(s, cp, 0x1_0056)
  {
    Parts6Of9(s, cp, 6);
    Enumerated9From7(s, cp);
  }
  lemma Enumerated9From5(s: seq<real>, cp: seq<real>)
    requires |s| == 16 && |cp| == 16
    ensures EnumFrom(s, cp, 9, 5) == 1.0 * Leaf(s, cp, 0x99) + 8.0 * Leaf(s, cp, 0x178) + 21.0 * Leaf(s, cp, 0x257) + 20.0 * Leaf(s, cp, 0x336) + 5.0 * Leaf(s, cp, 0x415) + 7.0 * Leaf(s, cp, 0x1067) + 30.0 * Leaf(s, cp, 0x1146) + 30.0 * Leaf(s, cp, 0x1225) + 10.0 * Leaf(s, cp, 0x2035) + 6.0 * Leaf(s, cp, 0x1_0056) + 20.0 * Leaf(s, cp, 0x1_0135) + 5.0 * Leaf(s, cp, 0x10_0045)
  {
    Parts5Of9(s, cp, 5);
    Enumerated9From6(s, cp);
  }
  lemma Enumerated9From4(s: seq<real>, cp: seq<real>)
    requires |s| == 16 && |cp| == 16
    ensures EnumFrom(s, cp, 9, 4) == 1.0 * Leaf(s, cp, 0x99) + 8.0 * Leaf(s, cp, 0x178) + 21.0 * Leaf(s, cp, 0x257) + 20.0 * Leaf(s, cp, 0x336) + 5.0 * Leaf(s, cp, 0x415) + 7.0 * Leaf(s, cp, 0x1067) + 30.0 * Leaf(s, cp, 0x1146) + 30.0 * Leaf(s, cp, 0x1225) + 4.0 * Leaf(s, cp, 0x1304) + 10.0 * Leaf(s, cp, 0x2035) + 12.0 * Leaf(s, cp, 0x2114) + 6.0 * Leaf(s, cp, 0x1_0056) + 20.0 * Leaf(s, cp, 0x1_0135) + 12.0 * Leaf(s, cp, 0x1_0214) + 12.0 * Leaf(s, cp, 0x1_1024) + 5.0 * Leaf(s, cp, 0x10_0045) + 12.0 * Leaf(s, cp, 0x10_0124) + 4.0 * Leaf(s, cp, 0x100_0034)
  {
    Parts4Of9(s, cp, 4);
    Enumerated9From5(s, cp);
  }
  lemma Enumerated9From3(s: seq<real>, cp: seq<real>)
    requires |s| == 16 && |cp| == 16
    ensures EnumFrom(s, cp, 9, 3) == 1.0 * Leaf(s, cp, 0x99) + 8.0 * Leaf(s, cp, 0x178) + 21.0 * Leaf(s, cp, 0x257) + 20.0 * Leaf(s, cp, 0x336) + 5.0 * Leaf(s, cp, 0x415) + 7.0 * Leaf(s, cp, 0x1067) + 30.0 * Leaf(s, cp, 0x1146) + 30.0 * Leaf(s, cp, 0x1225) + 4.0 * Leaf(s, cp, 0x1304) + 10.0 * Leaf(s, cp, 0x2035) + 12.0 * Leaf(s, cp, 0x2114) + 1.0 * Leaf(s, cp, 0x3003) + 6.0 * Leaf(s, cp, 0x1_0056) + 20.0 * Leaf(s, cp, 0x1_0135) + 12.0 * Leaf(s, cp, 0x1_0214) + 12.0 * Leaf(s, cp, 0x1_1024) + 6.0 * Leaf(s, cp, 0x1_1103) + 3.0 * Leaf(s, cp, 0x2_0013) + 5.0 * Leaf(s, cp, 0x10_0045) + 12.0 * Leaf(s, cp, 0x10_0124) + 3.0 * Leaf(s, cp, 0x10_0203) + 6.0 * Leaf(s, cp, 0x10_1013) + 4.0 * Leaf(s, cp, 0x100_0034) + 6.0 * Leaf(s, cp, 0x100_0113) + 3.0 * Leaf(s, cp, 0x1000_0023)
  {
    Parts3Of9(s, cp, 3);
    Enumerated9From4(s, cp);
  }
  lemma Enumerated9From2(s: seq<real>, cp: seq<real>)
    requires |s| == 16 && |cp| == 16
    ensures EnumFrom(s, cp, 9, 2) == 1.0 * Leaf(s, cp, 0x99) + 8.0 * Leaf(s, cp, 0x178) + 21.0 * Leaf(s, cp, 0x257) + 20.0 * Leaf(s, cp, 0x336) + 5.0 * Leaf(s, cp, 0x415) + 7.0 * Leaf(s, cp, 0x1067) + 30.0 * Leaf(s, cp, 0x1146) + 30.0 * Leaf(s, cp, 0x1225) + 4.0 * Leaf(s, cp, 0x1304) + 10.0 * Leaf(s, cp, 0x2035) + 12.0 * Leaf(s, cp, 0x2114) + 1.0 * Leaf(s, cp, 0x3003) + 6.0 * Leaf(s, cp, 0x1_0056) + 20.0 * Leaf(s, cp, 0x1_0135) + 12.0 * Leaf(s, cp, 0x1_0214) + 12.0 * Leaf(s, cp, 0x1_1024) + 6.0 * Leaf(s, cp, 0x1_1103) + 3.0 * Leaf(s, cp, 0x2_0013) + 5.0 * Leaf(s, cp, 0x10_0045) + 12.0 * Leaf(s, cp, 0x10_0124) + 3.0 * Leaf(s, cp, 0x10_0203) + 6.0 * Leaf(s, cp, 0x10_1013) + 2.0 * Leaf(s, cp, 0x11_0002) + 4.0 * Leaf(s, cp, 0x100_0034) + 6.0 * Leaf(s, cp, 0x100_0113) + 2.0 * Leaf(s, cp, 0x100_1002) + 3.0 * Leaf(s, cp, 0x1000_0023) + 2.0 * Leaf(s, cp, 0x1000_0102) + 2.0 * Leaf(s, cp, 0x1_0000_0012)
  {
    Parts2Of9(s, cp, 2);
    Enumerated9From3(s, cp);
  }
  lemma Enumerated9From1(s: seq<real>, cp: seq<real>)
    requires |s| == 16 && |cp| == 16
    ensures EnumFrom(s, cp, 9, 1) == 1.0 * Leaf(s, cp, 0x99) + 8.0 * Leaf(s, cp, 0x178) + 21.0 * Leaf(s, cp, 0x257) + 20.0 * Leaf(s, cp, 0x336) + 5.0 * Leaf(s, cp, 0x415) + 7.0 * Leaf(s, cp, 0x1067) + 30.0 * Leaf(s, cp, 0x1146) + 30.0 * Leaf(s, cp, 0x1225) + 4.0 * Leaf(s, cp, 0x1304) + 10.0 * Leaf(s, cp, 0x2035) + 12.0 * Leaf(s, cp, 0x2114) + 1.0 * Leaf(s, cp, 0x3003) + 6.0 * Leaf(s, cp, 0x1_0056) + 20.0 * Leaf(s, cp, 0x1_0135) + 12.0 * Leaf(s, cp, 0x1_0214) + 12.0 * Leaf(s, cp, 0x1_1024) + 6.0 * Leaf(s, cp, 0x1_1103) + 3.0 * Leaf(s, cp, 0x2_0013) + 5.0 * Leaf(s, cp, 0x10_0045) + 12.0 * Leaf(s, cp, 0x10_0124) + 3.0 * Leaf(s, cp, 0x10_0203) + 6.0 * Leaf(s, cp, 0x10_1013) + 2.0 * Leaf(s, cp, 0x11_0002) + 4.0 * Leaf(s, cp, 0x100_0034) + 6.0 * Leaf(s, cp, 0x100_0113) + 2.0 * Leaf(s, cp, 0x100_1002) + 3.0 * Leaf(s, cp, 0x1000_0023) + 2.0 * Leaf(s, cp, 0x1000_0102) + 2.0 * Leaf(s, cp, 0x1_0000_0012) + 1.0 * Leaf(s, cp, 0x10_0000_0001)
  {
    Parts1Of9(s, cp, 1);
    Enumerated9From2(s, cp);
  }
  lemma Enumerated9From0(s: seq<real>, cp: seq<real>)
    requires |s| == 16 && |cp| == 16
    ensures EnumFrom(s, cp, 9, 0) == 1.0 * Leaf(s, cp, 0x99) + 8.0 * Leaf(s, cp, 0x178) + 21.0 * Leaf(s, cp, 0x257) + 20.0 * Leaf(s, cp, 0x336) + 5.0 * Leaf(s, cp, 0x415) + 7.0 * Leaf(s, cp, 0x1067) + 30.0 * Leaf(s, cp, 0x1146) + 30.0 * Leaf(s, cp, 0x1225) + 4.0 * Leaf(s, cp, 0x1304) + 10.0 * Leaf(s, cp, 0x2035) + 12.0 * Leaf(s, cp, 0x2114) + 1.0 * Leaf(s, cp, 0x3003) + 6.0 * Leaf(s, cp, 0x1_0056) + 20.0 * Leaf(s, cp, 0x1_0135) + 12.0 * Leaf(s, cp, 0x1_0214) + 12.0 * Leaf(s, cp, 0x1_1024) + 6.0 * Leaf(s, cp, 0x1_1103) + 3.0 * Leaf(s, cp, 0x2_0013) + 5.0 * Leaf(s, cp, 0x10_0045) + 12.0 * Leaf(s, cp, 0x10_0124) + 3.0 * Leaf(s, cp, 0x10_0203) + 6.0 * Leaf(s, cp, 0x10_1013) + 2.0 * Leaf(s, cp, 0x11_0002) + 4.0 * Leaf(s, cp, 0x100_0034) + 6.0 * Leaf(s, cp, 0x100_0113) + 2.0 * Leaf(s, cp, 0x100_1002) + 3.0 * Leaf(s, cp, 0x1000_0023) + 2.0 * Leaf(s, cp, 0x1000_0102) + 2.0 * Leaf(s, cp, 0x1_0000_0012) + 1.0 * Leaf(s, cp, 0x10_0000_0001)
  {
    assert Expand(s, cp, 0, 9, 0) == 0.0;
    Enumerated9From1(s, cp);
  }
  lemma Enumerated9(s: seq<real>, cp: seq<real>)
    requires |s| == 16 && |cp| == 16
    ensures Enumerated(s, cp, 9) == 1.0 * Leaf(s, cp, 0x99) + 8.0 * Leaf(s, cp, 0x178) + 21.0 * Leaf(s, cp, 0x257) + 20.0 * Leaf(s, cp, 0x336) + 5.0 * Leaf(s, cp, 0x415) + 7.0 * Leaf(s, cp, 0x1067) + 30.0 * Leaf(s, cp, 0x1146) + 30.0 * Leaf(s, cp, 0x1225) + 4.0 * Leaf(s, cp, 0x1304) + 10.0 * Leaf(s, cp, 0x2035) + 12.0 * Leaf(s, cp, 0x2114) + 1.0 * Leaf(s, cp, 0x3003) + 6.0 * Leaf(s, cp, 0x1_0056) + 20.0 * Leaf(s, cp, 0x1_0135) + 12.0 * Leaf(s, cp, 0x1_0214) + 12.0 * Leaf(s, cp, 0x1_1024) + 6.0 * Leaf(s, cp, 0x1_1103) + 3.0 * Leaf(s, cp, 0x2_0013) + 5.0 * Leaf(s, cp, 0x10_0045) + 12.0 * Leaf(s, cp, 0x10_0124) + 3.0 * Leaf(s, cp, 0x10_0203) + 6.0 * Leaf(s, cp, 0x10_1013) + 2.0 * Leaf(s, cp, 0x11_0002) + 4.0 * Leaf(s, cp, 0x100_0034) + 6.0 * Leaf(s, cp, 0x100_0113) + 2.0 * Leaf(s, cp, 0x100_1002) + 3.0 * Leaf(s, cp, 0x1000_0023) + 2.0 * Leaf(s, cp, 0x1000_0102) + 2.0 * Leaf(s, cp, 0x1_0000_0012) + 1.0 * Leaf(s, cp, 0x10_0000_0001)
  {
    Enumerated9From0(s, cp);
  }
  lemma Weight9Term1(s: seq<real>, cp: seq<real>)
    requires |s| == 16 && |cp| == 16
    ensures Leaf(s, cp, 0x1000_0023) == s[3] * cp[1] * cp[1] * cp[7]
  {
    RadixTable();
    LeafBase(s, cp, 3);
    LeafStep(s, cp, 0x3, 1, 0x13);
    LeafStep(s, cp, 0x13, 1, 0x23);
    LeafStep(s, cp, 0x23, 7, 0x1000_0023);
  }
  lemma Weight9Term2(s: seq<real>, cp: seq<real>)
    requires |s| == 16 && |cp| == 16
    ensures Leaf(s, cp, 0x415) == s[5] * cp[1] * cp[2] * cp[2] * cp[2] * cp[2]
  {
    RadixTable();
    LeafBase(s, cp, 5);
    LeafStep(s, cp, 0x5, 1, 0x15);
    LeafStep(s, cp, 0x15, 2, 0x115);
    LeafStep(s, cp, 0x115, 2, 0x215);
    LeafStep(s, cp, 0x215, 2, 0x315);
    LeafStep(s, cp, 0x315, 2, 0x415);
  }
  lemma Weight9Term3(s: seq<real>, cp: seq<real>)
    requires |s| == 16 && |cp| == 16
    ensures Leaf(s, cp, 0x2_0013) == s[3] * cp[1] * cp[4] * cp[4]
  {
    RadixTable();
    LeafBase(s, cp, 3);
    LeafStep(s, cp, 0x3, 1, 0x13);
    LeafStep(s, cp, 0x13, 4, 0x1_0013);
    LeafStep(s, cp, 0x1_0013, 4, 0x2_0013);
  }
  lemma Weight9Term4(s: seq<real>, cp: seq<real>)
    requires |s| == 16 && |cp| == 16
    ensures Leaf(s, cp, 0x10_0000_0001) == s[1] * cp[9]
  {
    RadixTable();
    LeafBase(s, cp, 1);
    LeafStep(s, cp, 0x1, 9, 0x10_0000_0001);
  }
  lemma Weight9Term5(s: seq<real>, cp: seq<real>)
    requires |s| == 16 && |cp| == 16
    ensures Leaf(s, cp, 0x1_1024) == s[4] * cp[1] * cp[1] * cp[3] * cp[4]
  {
    RadixTable();
    LeafBase(s, cp, 4);
    LeafStep(s, cp, 0x4, 1, 0x14);
    LeafStep(s, cp, 0x14, 1, 0x24);
    LeafStep(s, cp, 0x24, 3, 0x1024);
    LeafStep(s, cp, 0x1024, 4, 0x1_1024);
  }
  lemma Weight9Term6(s: seq<real>, cp: seq<real>)
    requires |s| == 16 && |cp| == 16
    ensures Leaf(s, cp, 0x10_0203) == s[3] * cp[2] * cp[2] * cp[5]
  {
    RadixTable();
    LeafBase(s, cp, 3);
    LeafStep(s, cp, 0x3, 2, 0x103);
    LeafStep(s, cp, 0x103, 2, 0x203);
    LeafStep(s, cp, 0x203, 5, 0x10_0203);
  }
  lemma Weight9Term7(s: seq<real>, cp: seq<real>)
    requires |s| == 16 && |cp| == 16
    ensures Leaf(s, cp, 0x336) == s[6] * cp[1] * cp[1] * cp[1] * cp[2] * cp[2] * cp[2]
  {
    RadixTable();
    LeafBase(s, cp, 6);
    LeafStep(s, cp, 0x6, 1, 0x16);
    LeafStep(s, cp, 0x16, 1, 0x26);
    LeafStep(s, cp, 0x26, 1, 0x36);
    LeafStep(s, cp, 0x36, 2, 0x136);
    LeafStep(s, cp, 0x136, 2, 0x236);
    LeafStep(s, cp, 0x236, 2, 0x336);
  }
  lemma Weight9Term8(s: seq<real>, cp: seq<real>)
    requires |s| == 16 && |cp| == 16
    ensures Leaf(s, cp, 0x3003) == s[3] * cp[3] * cp[3] * cp[3]
  {
    RadixTable();
    LeafBase(s, cp, 3);
    LeafStep(s, cp, 0x3, 3, 0x1003);
    LeafStep(s, cp, 0x1003, 3, 0x2003);
    LeafStep(s, cp, 0x2003, 3, 0x3003);
  }
  lemma Weight9Term9(s: seq<real>, cp: seq<real>)
    requires |s| == 16 && |cp| == 16
    ensures Leaf(s, cp, 0x178) == s[8] * cp[1] * cp[1] * cp[1] * cp[1] * cp[1] * cp[1] * cp[1] * cp[2]
  {
    RadixTable();
    LeafBase(s, cp, 8);
    LeafStep(s, cp, 0x8, 1, 0x18);
    LeafStep(s, cp, 0x18, 1, 0x28);
    LeafStep(s, cp, 0x28, 1, 0x38);
    LeafStep(s, cp, 0x38, 1, 0x48);
    LeafStep(s, cp, 0x48, 1, 0x58);
    LeafStep(s, cp, 0x58, 1, 0x68);
    LeafStep(s, cp, 0x68, 1, 0x78);
    LeafStep(s, cp, 0x78, 2, 0x178);
  }
  lemma Weight9Term10(s: seq<real>, cp: seq<real>)
    requires |s| == 16 && |cp| == 16
    ensures Leaf(s, cp, 0x10_0124) == s[4] * cp[1] * cp[1] * cp[2] * cp[5]
  {
    RadixTable();
    LeafBase(s, cp, 4);
    LeafStep(s, cp, 0x4, 1, 0x14);
    LeafStep(s, cp, 0x14, 1, 0x24);
    LeafStep(s, cp, 0x24, 2, 0x124);
    LeafStep(s, cp, 0x124, 5, 0x10_0124);
  }
  lemma Weight9Term11(s: seq<real>, cp: seq<real>)
    requires |s| == 16 && |cp| == 16
    ensures Leaf(s, cp, 0x1_0214) == s[4] * cp[1] * cp[2] * cp[2] * cp[4]
  {
    RadixTable();
    LeafBase(s, cp, 4);
    LeafStep(s, cp, 0x4, 1, 0x14);
    LeafStep(s, cp, 0x14, 2, 0x114);
    LeafStep(s, cp, 0x114, 2, 0x214);
    LeafStep(s, cp, 0x214, 4, 0x1_0214);
  }
  lemma Weight9Term12(s: seq<real>, cp: seq<real>)
    requires |s| == 16 && |cp| == 16
    ensures Leaf(s, cp, 0x99) == s[9] * cp[1] * cp[1] * cp[1] * cp[1] * cp[1] * cp[1] * cp[1] * cp[1] * cp[1]
  {
    RadixTable();
    LeafBase(s, cp, 9);
    LeafStep(s, cp, 0x9, 1, 0x19);
    LeafStep(s, cp, 0x19, 1, 0x29);
    LeafStep(s, cp, 0x29, 1, 0x39);
    LeafStep(s, cp, 0x39, 1, 0x49);
    LeafStep(s, cp, 0x49, 1, 0x59);
    LeafStep(s, cp, 0x59, 1, 0x69);
    LeafStep(s, cp, 0x69, 1, 0x79);
    LeafStep(s, cp, 0x79, 1, 0x89);
    LeafStep(s, cp, 0x89, 1, 0x99);
  }
  lemma Weight9Term13(s: seq<real>, cp: seq<real>)
    requires |s| == 16 && |cp| == 16
    ensures Leaf(s, cp, 0x1146) == s[6] * cp[1] * cp[1] * cp[1] * cp[1] * cp[2] * cp[3]
  {
    RadixTable();
    LeafBase(s, cp, 6);
    LeafStep(s, cp, 0x6, 1, 0x16);
    LeafStep(s, cp, 0x16, 1, 0x26);
    LeafStep(s, cp, 0x26, 1, 0x36);
    LeafStep(s, cp, 0x36, 1, 0x46);
    LeafStep(s, cp, 0x46, 2, 0x146);
    LeafStep(s, cp, 0x146, 3, 0x1146);
  }
  lemma Weight9Term14(s: seq<real>, cp: seq<real>)
    requires |s| == 16 && |cp| == 16
    ensures Leaf(s, cp, 0x2114) == s[4] * cp[1] * cp[2] * cp[3] * cp[3]
  {
    RadixTable();
    LeafBase(s, cp, 4);
    LeafStep(s, cp, 0x4, 1, 0x14);
    LeafStep(s, cp, 0x14, 2, 0x114);
    LeafStep(s, cp, 0x114, 3, 0x1114);
    LeafStep(s, cp, 0x1114, 3, 0x2114);
  }
  lemma Weight9Term15(s: seq<real>, cp: seq<real>)
    requires |s| == 16 && |cp| == 16
    ensures Leaf(s, cp, 0x100_1002) == s[2] * cp[3] * cp[6]
  {
    RadixTable();
    LeafBase(s, cp, 2);
    LeafStep(s, cp, 0x2, 3, 0x1002);
    LeafStep(s, cp, 0x1002, 6, 0x100_1002);
  }
  lemma Weight9Term16(s: seq<real>, cp: seq<real>)
    requires |s| == 16 && |cp| == 16
    ensures Leaf(s, cp, 0x1_0056) == s[6] * cp[1] * cp[1] * cp[1] * cp[1] * cp[1] * cp[4]
  {
    RadixTable();
    LeafBase(s, cp, 6);
    LeafStep(s, cp, 0x6, 1, 0x16);
    LeafStep(s, cp, 0x16, 1, 0x26);
    LeafStep(s, cp, 0x26, 1, 0x36);
    LeafStep(s, cp, 0x36, 1, 0x46);
    LeafStep(s, cp, 0x46, 1, 0x56);
    LeafStep(s, cp, 0x56, 4, 0x1_0056);
  }
  lemma Weight9Term17(s: seq<real>, cp: seq<real>)
    requires |s| == 16 && |cp| == 16
    ensures Leaf(s, cp, 0x10_0045) == s[5] * cp[1] * cp[1] * cp[1] * cp[1] * cp[5]
  {
    RadixTable();
    LeafBase(s, cp, 5);
    LeafStep(s, cp, 0x5, 1, 0x15);
    LeafStep(s, cp, 0x15, 1, 0x25);
    LeafStep(s, cp, 0x25, 1, 0x35);
    LeafStep(s, cp, 0x35, 1, 0x45);
    LeafStep(s, cp, 0x45, 5, 0x10_0045);
  }
  lemma Weight9Term18(s: seq<real>, cp: seq<real>)
    requires |s| == 16 && |cp| == 16
    ensures Leaf(s, cp, 0x11_0002) == s[2] * cp[4] * cp[5]
  {
    RadixTable();
    LeafBase(s, cp, 2);
    LeafStep(s, cp, 0x2, 4, 0x1_0002);
    LeafStep(s, cp, 0x1_0002, 5, 0x11_0002);
  }
  lemma Weight9Term19(s: seq<real>, cp: seq<real>)
    requires |s| == 16 && |cp| == 16
    ensures Leaf(s, cp, 0x1067) == s[7] * cp[1] * cp[1] * cp[1] * cp[1] * cp[1] * cp[1] * cp[3]
  {
    RadixTable();
    LeafBase(s, cp, 7);
    LeafStep(s, cp, 0x7, 1, 0x17);
    LeafStep(s, cp, 0x17, 1, 0x27);
    LeafStep(s, cp, 0x27, 1, 0x37);
    LeafStep(s, cp, 0x37, 1, 0x47);
    LeafStep(s, cp, 0x47, 1, 0x57);
    LeafStep(s, cp, 0x57, 1, 0x67);
    LeafStep(s, cp, 0x67, 3, 0x1067);
  }
  lemma Weight9Term20(s: seq<real>, cp: seq<real>)
    requires |s| == 16 && |cp| == 16
    ensures Leaf(s, cp, 0x1225) == s[5] * cp[1] * cp[1] * cp[2] * cp[2] * cp[3]
  {
    RadixTable();
    LeafBase(s, cp, 5);
    LeafStep(s, cp, 0x5, 1, 0x15);
    LeafStep(s, cp, 0x15, 1, 0x25);
    LeafStep(s, cp, 0x25, 2, 0x125);
    LeafStep(s, cp, 0x125, 2, 0x225);
    LeafStep(s, cp, 0x225, 3, 0x1225);
  }
  lemma Weight9Term21(s: seq<real>, cp: seq<real>)
    requires |s| == 16 && |cp| == 16
    ensures Leaf(s, cp, 0x100_0034) == s[4] * cp[1] * cp[1] * cp[1] * cp[6]
  {
    RadixTable();
    LeafBase(s, cp, 4);
    LeafStep(s, cp, 0x4, 1, 0x14);
    LeafStep(s, cp, 0x14, 1, 0x24);
    LeafStep(s, cp, 0x24, 1, 0x34);
    LeafStep(s, cp, 0x34, 6, 0x100_0034);
  }
  lemma Weight9Term22(s: seq<real>, cp: seq<real>)
    requires |s| == 16 && |cp| == 16
    ensures Leaf(s, cp, 0x1000_0102) == s[2] * cp[2] * cp[7]
  {
    RadixTable();
    LeafBase(s, cp, 2);
    LeafStep(s, cp, 0x2, 2, 0x102);
    LeafStep(s, cp, 0x102, 7, 0x1000_0102);
  }
  lemma Weight9Term23(s: seq<real>, cp: seq<real>)
    requires |s| == 16 && |cp| == 16
    ensures Leaf(s, cp, 0x100_0113) == s[3] * cp[1] * cp[2] * cp[6]
  {
    RadixTable();
    LeafBase(s, cp, 3);
    LeafStep(s, cp, 0x3, 1, 0x13);
    LeafStep(s, cp, 0x13, 2, 0x113);
    LeafStep(s, cp, 0x113, 6, 0x100_0113);
  }
  lemma Weight9Term24(s: seq<real>, cp: seq<real>)
    requires |s| == 16 && |cp| == 16
    ensures Leaf(s, cp, 0x1_0135) == s[5] * cp[1] * cp[1] * cp[1] * cp[2] * cp[4]
  {
    RadixTable();
    LeafBase(s, cp, 5);
    LeafStep(s, cp, 0x5, 1, 0x15);
    LeafStep(s, cp, 0x15, 1, 0x25);
    LeafStep(s, cp, 0x25, 1, 0x35);
    LeafStep(s, cp, 0x35, 2, 0x135);
    LeafStep(s, cp, 0x135, 4, 0x1_0135);
  }
  lemma Weight9Term25(s: seq<real>, cp: seq<real>)
    requires |s| == 16 && |cp| == 16
    ensures Leaf(s, cp, 0x257) == s[7] * cp[1] * cp[1] * cp[1] * cp[1] * cp[1] * cp[2] * cp[2]
  {
    RadixTable();
    LeafBase(s, cp, 7);
    LeafStep(s, cp, 0x7, 1, 0x17);
    LeafStep(s, cp, 0x17, 1, 0x27);
    LeafStep(s, cp, 0x27, 1, 0x37);
    LeafStep(s, cp, 0x37, 1, 0x47);
    LeafStep(s, cp, 0x47, 1, 0x57);
    LeafStep(s, cp, 0x57, 2, 0x157);
    LeafStep(s, cp, 0x157, 2, 0x257);
  }
  lemma Weight9Term26(s: seq<real>, cp: seq<real>)
    requires |s| == 16 && |cp| == 16
    ensures Leaf(s, cp, 0x10_1013) == s[3] * cp[1] * cp[3] * cp[5]
  {
    RadixTable();
    LeafBase(s, cp, 3);
    LeafStep(s, cp, 0x3, 1, 0x13);
    LeafStep(s, cp, 0x13, 3, 0x1013);
    LeafStep(s, cp, 0x1013, 5, 0x10_1013);
  }
  lemma Weight9Term27(s: seq<real>, cp: seq<real>)
    requires |s| == 16 && |cp| == 16
    ensures Leaf(s, cp, 0x1_0000_0012) == s[2] * cp[1] * cp[8]
  {
    RadixTable();
    LeafBase(s, cp, 2);
    LeafStep(s, cp, 0x2, 1, 0x12);
    LeafStep(s, cp, 0x12, 8, 0x1_0000_0012);
  }
  lemma Weight9Term28(s: seq<real>, cp: seq<real>)
    requires |s| == 16 && |cp| == 16
    ensures Leaf(s, cp, 0x2035) == s[5] * cp[1] * cp[1] * cp[1] * cp[3] * cp[3]
  {
    RadixTable();
    LeafBase(s, cp, 5);
    LeafStep(s, cp, 0x5, 1, 0x15);
    LeafStep(s, cp, 0x15, 1, 0x25);
    LeafStep(s, cp, 0x25, 1, 0x35);
    LeafStep(s, cp, 0x35, 3, 0x1035);
    LeafStep(s, cp, 0x1035, 3, 0x2035);
  }
  lemma Weight9Term29(s: seq<real>, cp: seq<real>)
    requires |s| == 16 && |cp| == 16
    ensures Leaf(s, cp, 0x1_1103) == s[3] * cp[2] * cp[3] * cp[4]
  {
    RadixTable();
    LeafBase(s, cp, 3);
    LeafStep(s, cp, 0x3, 2, 0x103);
    LeafStep(s, cp, 0x103, 3, 0x1103);
    LeafStep(s, cp, 0x1103, 4, 0x1_1103);
  }
  lemma Weight9Term30(s: seq<real>, cp: seq<real>)
    requires |s| == 16 && |cp| == 16
    ensures Leaf(s, cp, 0x1304) == s[4] * cp[2] * cp[2] * cp[2] * cp[3]
  {
    RadixTable();
    LeafBase(s, cp, 4);
    LeafStep(s, cp, 0x4, 2, 0x104);
    LeafStep(s, cp, 0x104, 2, 0x204);
    LeafStep(s, cp, 0x204, 2, 0x304);
    LeafStep(s, cp, 0x304, 3, 0x1304);
  }
  lemma Weight9IsSeries(s: seq<real>, cp: seq<real>)
    requires |s| == 16 && |cp| == 16
    ensures Weight9(s, cp) == SeriesCoefficient(s, cp, 9)
  {
    Weight9Term1(s, cp);
    Weight9Term2(s, cp);
    Weight9Term3(s, cp);
    Weight9Term4(s, cp);
    Weight9Term5(s, cp);
    Weight9Term6(s, cp);
    Weight9Term7(s, cp);
    Weight9Term8(s, cp);
    Weight9Term9(s, cp);
    Weight9Term10(s, cp);
    Weight9Term11(s, cp);
    Weight9Term12(s, cp);
    Weight9Term13(s, cp);
    Weight9Term14(s, cp);
    Weight9Term15(s, cp);
    Weight9Term16(s, cp);
    Weight9Term17(s, cp);
    Weight9Term18(s, cp);
    Weight9Term19(s, cp);
    Weight9Term20(s, cp);
    Weight9Term21(s, cp);
    Weight9Term22(s, cp);
    Weight9Term23(s, cp);
    Weight9Term24(s, cp);
    Weight9Term25(s, cp);
    Weight9Term26(s, cp);
    Weight9Term27(s, cp);
    Weight9Term28(s, cp);
    Weight9Term29(s, cp);
    Weight9Term30(s, cp);
    Enumerated9(s, cp);
    SeriesIsEnumerated(s, cp, 9);
  }
  lemma Enumerated10From10(s: seq<real>, cp: seq<real>)
    requires |s| == 16 && |cp| == 16
    ensures EnumFrom(s, cp, 10, 10) == 1.0 * Leaf(s, cp, 0xaa)
  {
    Parts10Of10(s, cp, 10);
    EnumFromBelow(s, cp, 10, 11);
  }
  lemma Enumerated10From9(s: seq<real>, cp: seq<real>)
    requires |s| == 16 && |cp| == 16
    ensures EnumFrom(s, cp, 10, 9) == 1.0 * Leaf(s, cp, 0xaa) + 9.0 * Leaf(s, cp, 0x189)
  {
    Parts9Of10(s, cp, 9);
    Enumerated10From10(s, cp);
  }
  lemma Enumerated10From8(s: seq<real>, cp: seq<real>)
    requires |s| == 16 && |cp| == 16
    ensures EnumFrom(s, cp, 10, 8) == 1.0 * Leaf(s, cp, 0xaa) + 9.0 * Leaf(s, cp, 0x189) + 28.0 * Leaf(s, cp, 0x268) + 8.0 * Leaf(s, cp, 0x1078)
  {
    Parts8Of10(s, cp, 8);
    Enumerated10From9(s, cp);
  }
  lemma Enumerated10From7(s: seq<real>, cp: seq<real>)
    requires |s| == 16 && |cp| == 16
    ensures EnumFrom(s, cp, 10, 7) == 1.0 * Leaf(s, cp, 0xaa) + 9.0 * Leaf(s, cp, 0x189) + 28.0 * Leaf(s, cp, 0x268) + 35.0 * Leaf(s, cp, 0x347) + 8.0 * Leaf(s, cp, 0x1078) + 42.0 * Leaf(s, cp, 0x1157) + 7.0 * Leaf(s, cp, 0x1_0067)
  {
    Parts7Of10(s, cp, 7);
    Enumerated10From8(s, cp);
  }
  lemma Enumerated10From6(s: seq<real>, cp: seq<real>)
    requires |s| == 16 && |cp| == 16
    ensures EnumFrom(s, cp, 10, 6) == 1.0 * Leaf(s, cp, 0xaa) + 9.0 * Leaf(s, cp, 0x189) + 28.0 * Leaf(s, cp, 0x268) + 35.0 * Leaf(s, cp, 0x347) + 15.0 * Leaf(s, cp, 0x426) + 8.0 * Leaf(s, cp, 0x1078) + 42.0 * Leaf(s, cp, 0x1157) + 60.0 * Leaf(s, cp, 0x1236) + 15.0 * Leaf(s, cp, 0x2046) + 7.0 * Leaf(s, cp, 0x1_0067) + 30.0 * Leaf(s, cp, 0x1_0146) + 6.0 * Leaf(s, cp, 0x10_0056)
  {
    Parts6Of10(s, cp, 6);
    Enumerated10From7(s, cp);
  }
  lemma Enumerated10From5(s: seq<real>, cp: seq<real>)
    requires |s| == 16 && |cp| == 16
    ensures EnumFrom(s, cp, 10, 5) == 1.0 * Leaf(s, cp, 0xaa) + 9.0 * Leaf(s, cp, 0x189) + 28.0 * Leaf(s, cp, 0x268) + 35.0 * Leaf(s, cp, 0x347) + 15.0 * Leaf(s, cp, 0x426) + 1.0 * Leaf(s, cp, 0x505) + 8.0 * Leaf(s, cp, 0x1078) + 42.0 * Leaf(s, cp, 0x1157) + 60.0 * Leaf(s, cp, 0x1236) + 20.0 * Leaf(s, cp, 0x1315) + 15.0 * Leaf(s, cp, 0x2046) + 30.0 * Leaf(s, cp, 0x2125) + 7.0 * Leaf(s, cp, 0x1_0067) + 30.0 * Leaf(s, cp, 0x1_0146) + 30.0 * Leaf(s, cp, 0x1_0225) + 20.0 * Leaf(s, cp, 0x1_1035) + 6.0 * Leaf(s, cp, 0x10_0056) + 20.0 * Leaf(s, cp, 0x10_0135) + 5.0 * Leaf(s, cp, 0x100_0045)
  {
    Parts5Of10(s, cp, 5);
    Enumerated10From6(s, cp);
  }
  lemma Enumerated10From4(s: seq<real>, cp: seq<real>)
    requires |s| == 16 && |cp| == 16
    ensures EnumFrom(s, cp, 10, 4) == 1.0 * Leaf(s, cp, 0xaa) + 9.0 * Leaf(s, cp, 0x189) + 28.0 * Leaf(s, cp, 0x268) + 35.0 * Leaf(s, cp, 0x347) + 15.0 * Leaf(s, cp, 0x426) + 1.0 * Leaf(s, cp, 0x505) + 8.0 * Leaf(s, cp, 0x1078) + 42.0 * Leaf(s, cp, 0x1157) + 60.0 * Leaf(s, cp, 0x1236) + 20.0 * Leaf(s, cp, 0x1315) + 15.0 * Leaf(s, cp, 0x2046) + 30.0 * Leaf(s, cp, 0x2125) + 6.0 * Leaf(s, cp, 0x2204) + 4.0 * Leaf(s, cp, 0x3014) + 7.0 * Leaf(s, cp, 0x1_0067) + 30.0 * Leaf(s, cp, 0x1_0146) + 30.0 * Leaf(s, cp, 0x1_0225) + 4.0 * Leaf(s, cp, 0x1_0304) + 20.0 * Leaf(s, cp, 0x1_1035) + 24.0 * Leaf(s, cp, 0x1_1114) + 6.0 * Leaf(s, cp, 0x2_0024) + 6.0 * Leaf(s, cp, 0x10_0056) + 20.0 * Leaf(s, cp, 0x10_0135) + 12.0 * Leaf(s, cp, 0x10_0214) + 12.0 * Leaf(s, cp, 0x10_1024) + 5.0 * Leaf(s, cp, 0x100_0045) + 12.0 * Leaf(s, cp, 0x100_0124) + 4.0 * Leaf(s, cp, 0x1000_0034)
  {
    Parts4Of10(s, cp, 4);
    Enumerated10From5(s, cp);
  }
  lemma Enumerated10From3(s: seq<real>, cp: seq<real>)
    requires |s| == 16 && |cp| == 16
    ensures EnumFrom(s, cp, 10, 3) == 1.0 * Leaf(s, cp, 0xaa) + 9.0 * Leaf(s, cp, 0x189) + 28.0 * Leaf(s, cp, 0x268) + 35.0 * Leaf(s, cp, 0x347) + 15.0 * Leaf(s, cp, 0x426) + 1.0 * Leaf(s, cp, 0x505) + 8.0 * Leaf(s, cp, 0x1078) + 42.0 * Leaf(s, cp, 0x1157) + 60.0 * Leaf(s, cp, 0x1236) + 20.0 * Leaf(s, cp, 0x1315) + 15.0 * Leaf(s, cp, 0x2046) + 30.0 * Leaf(s, cp, 0x2125) + 6.0 * Leaf(s, cp, 0x2204) + 4.0 * Leaf(s, cp, 0x3014) + 7.0 * Leaf(s, cp, 0x1_0067) + 30.0 * Leaf(s, cp, 0x1_0146) + 30.0 * Leaf(s, cp, 0x1_0225) + 4.0 * Leaf(s, cp, 0x1_0304) + 20.0 * Leaf(s, cp, 0x1_1035) + 24.0 * Leaf(s, cp, 0x1_1114) + 3.0 * Leaf(s, cp, 0x1_2003) + 6.0 * Leaf(s, cp, 0x2_0024) + 3.0 * Leaf(s, cp, 0x2_0103) + 6.0 * Leaf(s, cp, 0x10_0056) + 20.0 * Leaf(s, cp, 0x10_0135) + 12.0 * Leaf(s, cp, 0x10_0214) + 12.0 * Leaf(s, cp, 0x10_1024) + 6.0 * Leaf(s, cp, 0x10_1103) + 6.0 * Leaf(s, cp, 0x11_0013) + 5.0 * Leaf(s, cp, 0x100_0045) + 12.0 * Leaf(s, cp, 0x100_0124) + 3.0 * Leaf(s, cp, 0x100_0203) + 6.0 * Leaf(s, cp, 0x100_1013) + 4.0 * Leaf(s, cp, 0x1000_0034) + 6.0 * Leaf(s, cp, 0x1000_0113) + 3.0 * Leaf(s, cp, 0x1_0000_0023)
  {
    Parts3Of10(s, cp, 3);
    Enumerated10From4(s, cp);
  }
  lemma Enumerated10From2(s: seq<real>, cp: seq<real>)
    requires |s| == 16 && |cp| == 16
    ensures EnumFrom(s, cp, 10, 2) == 1.0 * Leaf(s, cp, 0xaa) + 9.0 * Leaf(s, cp, 0x189) + 28.0 * Leaf(s, cp, 0x268) + 35.0 * Leaf(s, cp, 0x347) + 15.0 * Leaf(s, cp, 0x426) + 1.0 * Leaf(s, cp, 0x505) + 8.0 * Leaf(s, cp, 0x1078) + 42.0 * Leaf(s, cp, 0x1157) + 60.0 * Leaf(s, cp, 0x1236) + 20.0 * Leaf(s, cp, 0x1315) + 15.0 * Leaf(s, cp, 0x2046) + 30.0 * Leaf(s, cp, 0x2125) + 6.0 * Leaf(s, cp, 0x2204) + 4.0 * Leaf(s, cp, 0x3014) + 7.0 * Leaf(s, cp, 0x1_0067) + 30.0 * Leaf(s, cp, 0x1_0146) + 30.0 * Leaf(s, cp, 0x1_0225) + 4.0 * Leaf(s, cp, 0x1_0304) + 20.0 * Leaf(s, cp, 0x1_1035) + 24.0 * Leaf(s, cp, 0x1_1114) + 3.0 * Leaf(s, cp, 0x1_2003) + 6.0 * Leaf(s, cp, 0x2_0024) + 3.0 * Leaf(s, cp, 0x2_0103) + 6.0 * Leaf(s, cp, 0x10_0056) + 20.0 * Leaf(s, cp, 0x10_0135) + 12.0 * Leaf(s, cp, 0x10_0214) + 12.0 * Leaf(s, cp, 0x10_1024) + 6.0 * Leaf(s, cp, 0x10_1103) + 6.0 * Leaf(s, cp, 0x11_0013) + 1.0 * Leaf(s, cp, 0x20_0002) + 5.0 * Leaf(s, cp, 0x100_0045) + 12.0 * Leaf(s, cp, 0x100_0124) + 3.0 * Leaf(s, cp, 0x100_0203) + 6.0 * Leaf(s, cp, 0x100_1013) + 2.0 * Leaf(s, cp, 0x101_0002) + 4.0 * Leaf(s, cp, 0x1000_0034) + 6.0 * Leaf(s, cp, 0x1000_0113) + 2.0 * Leaf(s, cp, 0x1000_1002) + 3.0 * Leaf(s, cp, 0x1_0000_0023) + 2.0 * Leaf(s, cp, 0x1_0000_0102) + 2.0 * Leaf(s, cp, 0x10_0000_0012)
  {
    Parts2Of10(s, cp, 2);
    Enumerated10From3(s, cp);
  }
  lemma Enumerated10From1(s: seq<real>, cp: seq<real>)
    requires |s| == 16 && |cp| == 16
    ensures EnumFrom(s, cp, 10, 1) == 1.0 * Leaf(s, cp, 0xaa) + 9.0 * Leaf(s, cp, 0x189) + 28.0 * Leaf(s, cp, 0x268) + 35.0 * Leaf(s, cp, 0x347) + 15.0 * Leaf(s, cp, 0x426) + 1.0 * Leaf(s, cp, 0x505) + 8.0 * Leaf(s, cp, 0x1078) + 42.0 * Leaf(s, cp, 0x1157) + 60.0 * Leaf(s, cp, 0x1236) + 20.0 * Leaf(s, cp, 0x1315) + 15.0 * Leaf(s, cp, 0x2046) + 30.0 * Leaf(s, cp, 0x2125) + 6.0 * Leaf(s, cp, 0x2204) + 4.0 * Leaf(s, cp, 0x3014) + 7.0 * Leaf(s, cp, 0x1_0067) + 30.0 * Leaf(s, cp, 0x1_0146) + 30.0 * Leaf(s, cp, 0x1_0225) + 4.0 * Leaf(s, cp, 0x1_0304) + 20.0 * Leaf(s, cp, 0x1_1035) + 24.0 * Leaf(s, cp, 0x1_1114) + 3.0 * Leaf(s, cp, 0x1_2003) + 6.0 * Leaf(s, cp, 0x2_0024) + 3.0 * Leaf(s, cp, 0x2_0103) + 6.0 * Leaf(s, cp, 0x10_0056) + 20.0 * Leaf(s, cp, 0x10_0135) + 12.0 * Leaf(s, cp, 0x10_0214) + 12.0 * Leaf(s, cp, 0x10_1024) + 6.0 * Leaf(s, cp, 0x10_1103) + 6.0 * Leaf(s, cp, 0x11_0013) + 1.0 * Leaf(s, cp, 0x20_0002) + 5.0 * Leaf(s, cp, 0x100_0045) + 12.0 * Leaf(s, cp, 0x100_0124) + 3.0 * Leaf(s, cp, 0x100_0203) + 6.0 * Leaf(s, cp, 0x100_1013) + 2.0 * Leaf(s, cp, 0x101_0002) + 4.0 * Leaf(s, cp, 0x1000_0034) + 6.0 * Leaf(s, cp, 0x1000_0113) + 2.0 * Leaf(s, cp, 0x1000_1002) + 3.0 * Leaf(s, cp, 0x1_0000_0023) + 2.0 * Leaf(s, cp, 0x1_0000_0102) + 2.0 * Leaf(s, cp, 0x10_0000_0012) + 1.0 * Leaf(s, cp, 0x100_0000_0001)
  {
    Parts1Of10(s, cp, 1);
    Enumerated10From2(s, cp);
  }
  lemma Enumerated10From0(s: seq<real>, cp: seq<real>)
    requires |s| == 16 && |cp| == 16
    ensures EnumFrom(s, cp, 10, 0) == 1.0 * Leaf(s, cp, 0xaa) + 9.0 * Leaf(s, cp, 0x189) + 28.0 * Leaf(s, cp, 0x268) + 35.0 * Leaf(s, cp, 0x347) + 15.0 * Leaf(s, cp, 0x426) + 1.0 * Leaf(s, cp, 0x505) + 8.0 * Leaf(s, cp, 0x1078) + 42.0 * Leaf(s, cp, 0x1157) + 60.0 * Leaf(s, cp, 0x1236) + 20.0 * Leaf(s, cp, 0x1315) + 15.0 * Leaf(s, cp, 0x2046) + 30.0 * Leaf(s, cp, 0x2125) + 6.0 * Leaf(s, cp, 0x2204) + 4.0 * Leaf(s, cp, 0x3014) + 7.0 * Leaf(s, cp, 0x1_0067) + 30.0 * Leaf(s, cp, 0x1_0146) + 30.0 * Leaf(s, cp, 0x1_0225) + 4.0 * Leaf(s, cp, 0x1_0304) + 20.0 * Leaf(s, cp, 0x1_1035) + 24.0 * Leaf(s, cp, 0x1_1114) + 3.0 * Leaf(s, cp, 0x1_2003) + 6.0 * Leaf(s, cp, 0x2_0024) + 3.0 * Leaf(s, cp, 0x2_0103) + 6.0 * Leaf(s, cp, 0x10_0056) + 20.0 * Leaf(s, cp, 0x10_0135) + 12.0 * Leaf(s, cp, 0x10_0214) + 12.0 * Leaf(s, cp, 0x10_1024) + 6.0 * Leaf(s, cp, 0x10_1103) + 6.0 * Leaf(s, cp, 0x11_0013) + 1.0 * Leaf(s, cp, 0x20_0002) + 5.0 * Leaf(s, cp, 0x100_0045) + 12.0 * Leaf(s, cp, 0x100_0124) + 3.0 * Leaf(s, cp, 0x100_0203) + 6.0 * Leaf(s, cp, 0x100_1013) + 2.0 * Leaf(s, cp, 0x101_0002) + 4.0 * Leaf(s, cp, 0x1000_0034) + 6.0 * Leaf(s, cp, 0x1000_0113) + 2.0 * Leaf(s, cp, 0x1000_1002) + 3.0 * Leaf(s, cp, 0x1_0000_0023) + 2.0 * Leaf(s, cp, 0x1_0000_0102) + 2.0 * Leaf(s, cp, 0x10_0000_0012) + 1.0 * Leaf(s, cp, 0x100_0000_0001)
  {
    assert Expand(s, cp, 0, 10, 0) == 0.0;
    Enumerated10From1(s, cp);
  }
  lemma Enumerated10(s: seq<real>, cp: seq<real>)
    requires |s| == 16 && |cp| == 16
    ensures Enumerated(s, cp, 10) == 1.0 * Leaf(s, cp, 0xaa) + 9.0 * Leaf(s, cp, 0x189) + 28.0 * Leaf(s, cp, 0x268) + 35.0 * Leaf(s, cp, 0x347) + 15.0 * Leaf(s, cp, 0x426) + 1.0 * Leaf(s, cp, 0x505) + 8.0 * Leaf(s, cp, 0x1078) + 42.0 * Leaf(s, cp, 0x1157) + 60.0 * Leaf(s, cp, 0x1236) + 20.0 * Leaf(s, cp, 0x1315) + 15.0 * Leaf(s, cp, 0x2046) + 30.0 * Leaf(s, cp, 0x2125) + 6.0 * Leaf(s, cp, 0x2204) + 4.0 * Leaf(s, cp, 0x3014) + 7.0 * Leaf(s, cp, 0x1_0067) + 30.0 * Leaf(s, cp, 0x1_0146) + 30.0 * Leaf(s, cp, 0x1_0225) + 4.0 * Leaf(s, cp, 0x1_0304) + 20.0 * Leaf(s, cp, 0x1_1035) + 24.0 * Leaf(s, cp, 0x1_1114) + 3.0 * Leaf(s, cp, 0x1_2003) + 6.0 * Leaf(s, cp, 0x2_0024) + 3.0 * Leaf(s, cp, 0x2_0103) + 6.0 * Leaf(s, cp, 0x10_0056) + 20.0 * Leaf(s, cp, 0x10_0135) + 12.0 * Leaf(s, cp, 0x10_0214) + 12.0 * Leaf(s, cp, 0x10_1024) + 6.0 * Leaf(s, cp, 0x10_1103) + 6.0 * Leaf(s, cp, 0x11_0013) + 1.0 * Leaf(s, cp, 0x20_0002) + 5.0 * Leaf(s, cp, 0x100_0045) + 12.0 * Leaf(s, cp, 0x100_0124) + 3.0 * Leaf(s, cp, 0x100_0203) + 6.0 * Leaf(s, cp, 0x100_1013) + 2.0 * Leaf(s, cp, 0x101_0002) + 4.0 * Leaf(s, cp, 0x1000_0034) + 6.0 * Leaf(s, cp, 0x1000_0113) + 2.0 * Leaf(s, cp, 0x1000_1002) + 3.0 * Leaf(s, cp, 0x1_0000_0023) + 2.0 * Leaf(s, cp, 0x1_0000_0102) + 2.0 * Leaf(s, cp, 0x10_0000_0012) + 1.0 * Leaf(s, cp, 0x100_0000_0001)
  {
    Enumerated10From0(s, cp);
  }
  lemma Weight10Term1(s: seq<real>, cp: seq<real>)
    requires |s| == 16 && |cp| == 16
    ensures Leaf(s, cp, 0x10_1103) == s[3] * cp[2] * cp[3] * cp[5]
  {
    RadixTable();
    LeafBase(s, cp, 3);
    LeafStep(s, cp, 0x3, 2, 0x103);
    LeafStep(s, cp, 0x103, 3, 0x1103);
    LeafStep(s, cp, 0x1103, 5, 0x10_1103);
  }
  lemma Weight10Term2(s: seq<real>, cp: seq<real>)
    requires |s| == 16 && |cp| == 16
    ensures Leaf(s, cp, 0x1000_0034) == s[4] * cp[1] * cp[1] * cp[1] * cp[7]
  {
    RadixTable();
    LeafBase(s, cp, 4);
    LeafStep(s, cp, 0x4, 1, 0x14);
    LeafStep(s, cp, 0x14, 1, 0x24);
    LeafStep(s, cp, 0x24, 1, 0x34);
    LeafStep(s, cp, 0x34, 7, 0x1000_0034);
  }
  lemma Weight10Term3(s: seq<real>, cp: seq<real>)
    requires |s| == 16 && |cp| == 16
    ensures Leaf(s, cp, 0x189) == s[9] * cp[1] * cp[1] * cp[1] * cp[1] * cp[1] * cp[1] * cp[1] * cp[1] * cp[2]
  {
    RadixTable();
    LeafBase(s, cp, 9);
    LeafStep(s, cp, 0x9, 1, 0x19);
    LeafStep(s, cp, 0x19, 1, 0x29);
    LeafStep(s, cp, 0x29, 1, 0x39);
    LeafStep(s, cp, 0x39, 1, 0x49);
    LeafStep(s, cp, 0x49, 1, 0x59);
    LeafStep(s, cp, 0x59, 1, 0x69);
    LeafStep(s, cp, 0x69, 1, 0x79);
    LeafStep(s, cp, 0x79, 1, 0x89);
    LeafStep(s, cp, 0x89, 2, 0x189);
  }
  lemma Weight10Term4(s: seq<real>, cp: seq<real>)
    requires |s| == 16 && |cp| == 16
    ensures Leaf(s, cp, 0x1_0000_0102) == s[2] * cp[2] * cp[8]
  {
    RadixTable();
    LeafBase(s, cp, 2);
    LeafStep(s, cp, 0x2, 2, 0x102);
    LeafStep(s, cp, 0x102, 8, 0x1_0000_0102);
  }
  lemma Weight10Term5(s: seq<real>, cp: seq<real>)
    requires |s| == 16 && |cp| == 16
    ensures Leaf(s, cp, 0x1078) == s[8] * cp[1] * cp[1] * cp[1] * cp[1] * cp[1] * cp[1] * cp[1] * cp[3]
  {
    RadixTable();
    LeafBase(s, cp, 8);
    LeafStep(s, cp, 0x8, 1, 0x18);
    LeafStep(s, cp, 0x18, 1, 0x28);
    LeafStep(s, cp, 0x28, 1, 0x38);
    LeafStep(s, cp, 0x38, 1, 0x48);
    LeafStep(s, cp, 0x48, 1, 0x58);
    LeafStep(s, cp, 0x58, 1, 0x68);
    LeafStep(s, cp, 0x68, 1, 0x78);
    LeafStep(s, cp, 0x78, 3, 0x1078);
  }
  lemma Weight10Term6(s: seq<real>, cp: seq<real>)
    requires |s| == 16 && |cp| == 16
    ensures Leaf(s, cp, 0x11_0013) == s[3] * cp[1] * cp[4] * cp[5]
  {
    RadixTable();
    LeafBase(s, cp, 3);
    LeafStep(s, cp, 0x3, 1, 0x13);
    LeafStep(s, cp, 0x13, 4, 0x1_0013);
    LeafStep(s, cp, 0x1_0013, 5, 0x11_0013);
  }
  lemma Weight10Term7(s: seq<real>, cp: seq<real>)
    requires |s| == 16 && |cp| == 16
    ensures Leaf(s, cp, 0xaa) == s[10] * cp[1] * cp[1] * cp[1] * cp[1] * cp[1] * cp[1] * cp[1] * cp[1] * cp[1] * cp[1]
  {
    RadixTable();
    LeafBase(s, cp, 10);
    LeafStep(s, cp, 0xa, 1, 0x1a);
    LeafStep(s, cp, 0x1a, 1, 0x2a);
    LeafStep(s, cp, 0x2a, 1, 0x3a);
    LeafStep(s, cp, 0x3a, 1, 0x4a);
    LeafStep(s, cp, 0x4a, 1, 0x5a);
    LeafStep(s, cp, 0x5a, 1, 0x6a);
    LeafStep(s, cp, 0x6a, 1, 0x7a);
    LeafStep(s, cp, 0x7a, 1, 0x8a);
    LeafStep(s, cp, 0x8a, 1, 0x9a);
    LeafStep(s, cp, 0x9a, 1, 0xaa);
  }
  lemma Weight10Term8(s: seq<real>, cp: seq<real>)
    requires |s| == 16 && |cp| == 16
    ensures Leaf(s, cp, 0x1236) == s[6] * cp[1] * cp[1] * cp[1] * cp[2] * cp[2] * cp[3]
  {
    RadixTable();
    LeafBase(s, cp, 6);
    LeafStep(s, cp, 0x6, 1, 0x16);
    LeafStep(s, cp, 0x16, 1, 0x26);
    LeafStep(s, cp, 0x26, 1, 0x36);
    LeafStep(s, cp, 0x36, 2, 0x136);
    LeafStep(s, cp, 0x136, 2, 0x236);
    LeafStep(s, cp, 0x236, 3, 0x1236);
  }
  lemma Weight10Term9(s: seq<real>, cp: seq<real>)
    requires |s| == 16 && |cp| == 16
    ensures Leaf(s, cp, 0x505) == s[5] * cp[2] * cp[2] * cp[2] * cp[2] * cp[2]
  {
    RadixTable();
    LeafBase(s, cp, 5);
    LeafStep(s, cp, 0x5, 2, 0x105);
    LeafStep(s, cp, 0x105, 2, 0x205);
    LeafStep(s, cp, 0x205, 2, 0x305);
    LeafStep(s, cp, 0x305, 2, 0x405);
    LeafStep(s, cp, 0x405, 2, 0x505);
  }
  lemma Weight10Term10(s: seq<real>, cp: seq<real>)
    requires |s| == 16 && |cp| == 16
    ensures Leaf(s, cp, 0x426) == s[6] * cp[1] * cp[1] * cp[2] * cp[2] * cp[2] * cp[2]
  {
    RadixTable();
    LeafBase(s, cp, 6);
    LeafStep(s, cp, 0x6, 1, 0x16);
    LeafStep(s, cp, 0x16, 1, 0x26);
    LeafStep(s, cp, 0x26, 2, 0x126);
    LeafStep(s, cp, 0x126, 2, 0x226);
    LeafStep(s, cp, 0x226, 2, 0x326);
    LeafStep(s, cp, 0x326, 2, 0x426);
  }
  lemma Weight10Term11(s: seq<real>, cp: seq<real>)
    requires |s| == 16 && |cp| == 16
    ensures Leaf(s, cp, 0x1000_1002) == s[2] * cp[3] * cp[7]
  {
    RadixTable();
    LeafBase(s, cp, 2);
    LeafStep(s, cp, 0x2, 3, 0x1002);
    LeafStep(s, cp, 0x1002, 7, 0x1000_1002);
  }
  lemma Weight10Term12(s: seq<real>, cp: seq<real>)
    requires |s| == 16 && |cp| == 16
    ensures Leaf(s, cp, 0x268) == s[8] * cp[1] * cp[1] * cp[1] * cp[1] * cp[1] * cp[1] * cp[2] * cp[2]
  {
    RadixTable();
    LeafBase(s, cp, 8);
    LeafStep(s, cp, 0x8, 1, 0x18);
    LeafStep(s, cp, 0x18, 1, 0x28);
    LeafStep(s, cp, 0x28, 1, 0x38);
    LeafStep(s, cp, 0x38, 1, 0x48);
    LeafStep(s, cp, 0x48, 1, 0x58);
    LeafStep(s, cp, 0x58, 1, 0x68);
    LeafStep(s, cp, 0x68, 2, 0x168);
    LeafStep(s, cp, 0x168, 2, 0x268);
  }
  lemma Weight10Term13(s: seq<real>, cp: seq<real>)
    requires |s| == 16 && |cp| == 16
    ensures Leaf(s, cp, 0x10_0135) == s[5] * cp[1] * cp[1] * cp[1] * cp[2] * cp[5]
  {
    RadixTable();
    LeafBase(s, cp, 5);
    LeafStep(s, cp, 0x5, 1, 0x15);
    LeafStep(s, cp, 0x15, 1, 0x25);
    LeafStep(s, cp, 0x25, 1, 0x35);
    LeafStep(s, cp, 0x35, 2, 0x135);
    LeafStep(s, cp, 0x135, 5, 0x10_0135);
  }
  lemma Weight10Term14(s: seq<real>, cp: seq<real>)
    requires |s| == 16 && |cp| == 16
    ensures Leaf(s, cp, 0x3014) == s[4] * cp[1] * cp[3] * cp[3] * cp[3]
  {
    RadixTable();
    LeafBase(s, cp, 4);
    LeafStep(s, cp, 0x4, 1, 0x14);
    LeafStep(s, cp, 0x14, 3, 0x1014);
    LeafStep(s, cp, 0x1014, 3, 0x2014);
    LeafStep(s, cp, 0x2014, 3, 0x3014);
  }
  lemma Weight10Term15(s: seq<real>, cp: seq<real>)
    requires |s| == 16 && |cp| == 16
    ensures Leaf(s, cp, 0x2125) == s[5] * cp[1] * cp[1] * cp[2] * cp[3] * cp[3]
  {
    RadixTable();
    LeafBase(s, cp, 5);
    LeafStep(s, cp, 0x5, 1, 0x15);
    LeafStep(s, cp, 0x15, 1, 0x25);
    LeafStep(s, cp, 0x25, 2, 0x125);
    LeafStep(s, cp, 0x125, 3, 0x1125);
    LeafStep(s, cp, 0x1125, 3, 0x2125);
  }
  lemma Weight10Term16(s: seq<real>, cp: seq<real>)
    requires |s| == 16 && |cp| == 16
    ensures Leaf(s, cp, 0x20_0002) == s[2] * cp[5] * cp[5]
  {
    RadixTable();
    LeafBase(s, cp, 2);
    LeafStep(s, cp, 0x2, 5, 0x10_0002);
    LeafStep(s, cp, 0x10_0002, 5, 0x20_0002);
  }
  lemma Weight10Term17(s: seq<real>, cp: seq<real>)
    requires |s| == 16 && |cp| == 16
    ensures Leaf(s, cp, 0x1_0000_0023) == s[3] * cp[1] * cp[1] * cp[8]
  {
    RadixTable();
    LeafBase(s, cp, 3);
    LeafStep(s, cp, 0x3, 1, 0x13);
    LeafStep(s, cp, 0x13, 1, 0x23);
    LeafStep(s, cp, 0x23, 8, 0x1_0000_0023);
  }
  lemma Weight10Term18(s: seq<real>, cp: seq<real>)
    requires |s| == 16 && |cp| == 16
    ensures Leaf(s, cp, 0x1_0067) == s[7] * cp[1] * cp[1] * cp[1] * cp[1] * cp[1] * cp[1] * cp[4]
  {
    RadixTable();
    LeafBase(s, cp, 7);
    LeafStep(s, cp, 0x7, 1, 0x17);
    LeafStep(s, cp, 0x17, 1, 0x27);
    LeafStep(s, cp, 0x27, 1, 0x37);
    LeafStep(s, cp, 0x37, 1, 0x47);
    LeafStep(s, cp, 0x47, 1, 0x57);
    LeafStep(s, cp, 0x57, 1, 0x67);
    LeafStep(s, cp, 0x67, 4, 0x1_0067);
  }
  lemma Weight10Term19(s: seq<real>, cp: seq<real>)
    requires |s| == 16 && |cp| == 16
    ensures Leaf(s, cp, 0x1_2003) == s[3] * cp[3] * cp[3] * cp[4]
  {
    RadixTable();
    LeafBase(s, cp, 3);
    LeafStep(s, cp, 0x3, 3, 0x1003);
    LeafStep(s, cp, 0x1003, 3, 0x2003);
    LeafStep(s, cp, 0x2003, 4, 0x1_2003);
  }
  lemma Weight10Term20(s: seq<real>, cp: seq<real>)
    requires |s| == 16 && |cp| == 16
    ensures Leaf(s, cp, 0x10_1024) == s[4] * cp[1] * cp[1] * cp[3] * cp[5]
  {
    RadixTable();
    LeafBase(s, cp, 4);
    LeafStep(s, cp, 0x4, 1, 0x14);
    LeafStep(s, cp, 0x14, 1, 0x24);
    LeafStep(s, cp, 0x24, 3, 0x1024);
    LeafStep(s, cp, 0x1024, 5, 0x10_1024);
  }
  lemma Weight10Term21(s: seq<real>, cp: seq<real>)
    requires |s| == 16 && |cp| == 16
    ensures Leaf(s, cp, 0x2_0103) == s[3] * cp[2] * cp[4] * cp[4]
  {
    RadixTable();
    LeafBase(s, cp, 3);
    LeafStep(s, cp, 0x3, 2, 0x103);
    LeafStep(s, cp, 0x103, 4, 0x1_0103);
    LeafStep(s, cp, 0x1_0103, 4, 0x2_0103);
  }
  lemma Weight10Term22(s: seq<real>, cp: seq<real>)
    requires |s| == 16 && |cp| == 16
    ensures Leaf(s, cp, 0x2046) == s[6] * cp[1] * cp[1] * cp[1] * cp[1] * cp[3] * cp[3]
  {
    RadixTable();
    LeafBase(s, cp, 6);
    LeafStep(s, cp, 0x6, 1, 0x16);
    LeafStep(s, cp, 0x16, 1, 0x26);
    LeafStep(s, cp, 0x26, 1, 0x36);
    LeafStep(s, cp, 0x36, 1, 0x46);
    LeafStep(s, cp, 0x46, 3, 0x1046);
    LeafStep(s, cp, 0x1046, 3, 0x2046);
  }
  lemma Weight10Term23(s: seq<real>, cp: seq<real>)
    requires |s| == 16 && |cp| == 16
    ensures Leaf(s, cp, 0x1_0146) == s[6] * cp[1] * cp[1] * cp[1] * cp[1] * cp[2] * cp[4]
  {
    RadixTable();
    LeafBase(s, cp, 6);
    LeafStep(s, cp, 0x6, 1, 0x16);
    LeafStep(s, cp, 0x16, 1, 0x26);
    LeafStep(s, cp, 0x26, 1, 0x36);
    LeafStep(s, cp, 0x36, 1, 0x46);
    LeafStep(s, cp, 0x46, 2, 0x146);
    LeafStep(s, cp, 0x146, 4, 0x1_0146);
  }
  lemma Weight10Term24(s: seq<real>, cp: seq<real>)
    requires |s| == 16 && |cp| == 16
    ensures Leaf(s, cp, 0x2204) == s[4] * cp[2] * cp[2] * cp[3] * cp[3]
  {
    RadixTable();
    LeafBase(s, cp, 4);
    LeafStep(s, cp, 0x4, 2, 0x104);
    LeafStep(s, cp, 0x104, 2, 0x204);
    LeafStep(s, cp, 0x204, 3, 0x1204);
    LeafStep(s, cp, 0x1204, 3, 0x2204);
  }
  lemma Weight10Term25(s: seq<real>, cp: seq<real>)
    requires |s| == 16 && |cp| == 16
    ensures Leaf(s, cp, 0x1315) == s[5] * cp[1] * cp[2] * cp[2] * cp[2] * cp[3]
  {
    RadixTable();
    LeafBase(s, cp, 5);
    LeafStep(s, cp, 0x5, 1, 0x15);
    LeafStep(s, cp, 0x15, 2, 0x115);
    LeafStep(s, cp, 0x115, 2, 0x215);
    LeafStep(s, cp, 0x215, 2, 0x315);
    LeafStep(s, cp, 0x315, 3, 0x1315);
  }
  lemma Weight10Term26(s: seq<real>, cp: seq<real>)
    requires |s| == 16 && |cp| == 16
    ensures Leaf(s, cp, 0x10_0214) == s[4] * cp[1] * cp[2] * cp[2] * cp[5]
  {
    RadixTable();
    LeafBase(s, cp, 4);
    LeafStep(s, cp, 0x4, 1, 0x14);
    LeafStep(s, cp, 0x14, 2, 0x114);
    LeafStep(s, cp, 0x114, 2, 0x214);
    LeafStep(s, cp, 0x214, 5, 0x10_0214);
  }
  lemma Weight10Term27(s: seq<real>, cp: seq<real>)
    requires |s| == 16 && |cp| == 16
    ensures Leaf(s, cp, 0x10_0000_0012) == s[2] * cp[1] * cp[9]
  {
    RadixTable();
    LeafBase(s, cp, 2);
    LeafStep(s, cp, 0x2, 1, 0x12);
    LeafStep(s, cp, 0x12, 9, 0x10_0000_0012);
  }
  lemma Weight10Term28(s: seq<real>, cp: seq<real>)
    requires |s| == 16 && |cp| == 16
    ensures Leaf(s, cp, 0x1_0304) == s[4] * cp[2] * cp[2] * cp[2] * cp[4]
  {
    RadixTable();
    LeafBase(s, cp, 4);
    LeafStep(s, cp, 0x4, 2, 0x104);
    LeafStep(s, cp, 0x104, 2, 0x204);
    LeafStep(s, cp, 0x204, 2, 0x304);
    LeafStep(s, cp, 0x304, 4, 0x1_0304);
  }
  lemma Weight10Term29(s: seq<real>, cp: seq<real>)
    requires |s| == 16 && |cp| == 16
    ensures Leaf(s, cp, 0x10_0056) == s[6] * cp[1] * cp[1] * cp[1] * cp[1] * cp[1] * cp[5]
  {
    RadixTable();
    LeafBase(s, cp, 6);
    LeafStep(s, cp, 0x6, 1, 0x16);
    LeafStep(s, cp, 0x16, 1, 0x26);
    LeafStep(s, cp, 0x26, 1, 0x36);
    LeafStep(s, cp, 0x36, 1, 0x46);
    LeafStep(s, cp, 0x46, 1, 0x56);
    LeafStep(s, cp, 0x56, 5, 0x10_0056);
  }
  lemma Weight10Term30(s: seq<real>, cp: seq<real>)
    requires |s| == 16 && |cp| == 16
    ensures Leaf(s, cp, 0x101_0002) == s[2] * cp[4] * cp[6]
  {
    RadixTable();
    LeafBase(s, cp, 2);
    LeafStep(s, cp, 0x2, 4, 0x1_0002);
    LeafStep(s, cp, 0x1_0002, 6, 0x101_0002);
  }
  lemma Weight10Term31(s: seq<real>, cp: seq<real>)
    requires |s| == 16 && |cp| == 16
    ensures Leaf(s, cp, 0x347) == s[7] * cp[1] * cp[1] * cp[1] * cp[1] * cp[2] * cp[2] * cp[2]
  {
    RadixTable();
    LeafBase(s, cp, 7);
    LeafStep(s, cp, 0x7, 1, 0x17);
    LeafStep(s, cp, 0x17, 1, 0x27);
    LeafStep(s, cp, 0x27, 1, 0x37);
    LeafStep(s, cp, 0x37, 1, 0x47);
    LeafStep(s, cp, 0x47, 2, 0x147);
    LeafStep(s, cp, 0x147, 2, 0x247);
    LeafStep(s, cp, 0x247, 2, 0x347);
  }
  lemma Weight10Term32(s: seq<real>, cp: seq<real>)
    requires |s| == 16 && |cp| == 16
    ensures Leaf(s, cp, 0x1_1114) == s[4] * cp[1] * cp[2] * cp[3] * cp[4]
  {
    RadixTable();
    LeafBase(s, cp, 4);
    LeafStep(s, cp, 0x4, 1, 0x14);
    LeafStep(s, cp, 0x14, 2, 0x114);
    LeafStep(s, cp, 0x114, 3, 0x1114);
    LeafStep(s, cp, 0x1114, 4, 0x1_1114);
  }
  lemma Weight10Term33(s: seq<real>, cp: seq<real>)
    requires |s| == 16 && |cp| == 16
    ensures Leaf(s, cp, 0x100_0000_0001) == s[1] * cp[10]
  {
    RadixTable();
    LeafBase(s, cp, 1);
    LeafStep(s, cp, 0x1, 10, 0x100_0000_0001);
  }
  lemma Weight10Term34(s: seq<real>, cp: seq<real>)
    requires |s| == 16 && |cp| == 16
    ensures Leaf(s, cp, 0x100_1013) == s[3] * cp[1] * cp[3] * cp[6]
  {
    RadixTable();
    LeafBase(s, cp, 3);
    LeafStep(s, cp, 0x3, 1, 0x13);
    LeafStep(s, cp, 0x13, 3, 0x1013);
    LeafStep(s, cp, 0x1013, 6, 0x100_1013);
  }
  lemma Weight10Term35(s: seq<real>, cp: seq<real>)
    requires |s| == 16 && |cp| == 16
    ensures Leaf(s, cp, 0x1000_0113) == s[3] * cp[1] * cp[2] * cp[7]
  {
    RadixTable();
    LeafBase(s, cp, 3);
    LeafStep(s, cp, 0x3, 1, 0x13);
    LeafStep(s, cp, 0x13, 2, 0x113);
    LeafStep(s, cp, 0x113, 7, 0x1000_0113);
  }
  lemma Weight10Term36(s: seq<real>, cp: seq<real>)
    requires |s| == 16 && |cp| == 16
    ensures Leaf(s, cp, 0x100_0203) == s[3] * cp[2] * cp[2] * cp[6]
  {
    RadixTable();
    LeafBase(s, cp, 3);
    LeafStep(s, cp, 0x3, 2, 0x103);
    LeafStep(s, cp, 0x103, 2, 0x203);
    LeafStep(s, cp, 0x203, 6, 0x100_0203);
  }
  lemma Weight10Term37(s: seq<real>, cp: seq<real>)
    requires |s| == 16 && |cp| == 16
    ensures Leaf(s, cp, 0x1_1035) == s[5] * cp[1] * cp[1] * cp[1] * cp[3] * cp[4]
  {
    RadixTable();
    LeafBase(s, cp, 5);
    LeafStep(s, cp, 0x5, 1, 0x15);
    LeafStep(s, cp, 0x15, 1, 0x25);
    LeafStep(s, cp, 0x25, 1, 0x35);
    LeafStep(s, cp, 0x35, 3, 0x1035);
    LeafStep(s, cp, 0x1035, 4, 0x1_1035);
  }
  lemma Weight10Term38(s: seq<real>, cp: seq<real>)
    requires |s| == 16 && |cp| == 16
    ensures Leaf(s, cp, 0x1_0225) == s[5] * cp[1] * cp[1] * cp[2] * cp[2] * cp[4]
  {
    RadixTable();
    LeafBase(s, cp, 5);
    LeafStep(s, cp, 0x5, 1, 0x15);
    LeafStep(s, cp, 0x15, 1, 0x25);
    LeafStep(s, cp, 0x25, 2, 0x125);
    LeafStep(s, cp, 0x125, 2, 0x225);
    LeafStep(s, cp, 0x225, 4, 0x1_0225);
  }
  lemma Weight10Term39(s: seq<real>, cp: seq<real>)
    requires |s| == 16 && |cp| == 16
    ensures Leaf(s, cp, 0x2_0024) == s[4] * cp[1] * cp[1] * cp[4] * cp[4]
  {
    RadixTable();
    LeafBase(s, cp, 4);
    LeafStep(s, cp, 0x4, 1, 0x14);
    LeafStep(s, cp, 0x14, 1, 0x24);
    LeafStep(s, cp, 0x24, 4, 0x1_0024);
    LeafStep(s, cp, 0x1_0024, 4, 0x2_0024);
  }
  lemma Weight10Term40(s: seq<real>, cp: seq<real>)
    requires |s| == 16 && |cp| == 16
    ensures Leaf(s, cp, 0x100_0045) == s[5] * cp[1] * cp[1] * cp[1] * cp[1] * cp[6]
  {
    RadixTable();
    LeafBase(s, cp, 5);
    LeafStep(s, cp, 0x5, 1, 0x15);
    LeafStep(s, cp, 0x15, 1, 0x25);
    LeafStep(s, cp, 0x25, 1, 0x35);
    LeafStep(s, cp, 0x35, 1, 0x45);
    LeafStep(s, cp, 0x45, 6, 0x100_0045);
  }
  lemma Weight10Term41(s: seq<real>, cp: seq<real>)
    requires |s| == 16 && |cp| == 16
    ensures Leaf(s, cp, 0x100_0124) == s[4] * cp[1] * cp[1] * cp[2] * cp[6]
  {
    RadixTable();
    LeafBase(s, cp, 4);
    LeafStep(s, cp, 0x4, 1, 0x14);
    LeafStep(s, cp, 0x14, 1, 0x24);
    LeafStep(s, cp, 0x24, 2, 0x124);
    LeafStep(s, cp, 0x124, 6, 0x100_0124);
  }
  lemma Weight10Term42(s: seq<real>, cp: seq<real>)
    requires |s| == 16 && |cp| == 16
    ensures Leaf(s, cp, 0x1157) == s[7] * cp[1] * cp[1] * cp[1] * cp[1] * cp[1] * cp[2] * cp[3]
  {
    RadixTable();
    LeafBase(s, cp, 7);
    LeafStep(s, cp, 0x7, 1, 0x17);
    LeafStep(s, cp, 0x17, 1, 0x27);
    LeafStep(s, cp, 0x27, 1, 0x37);
    LeafStep(s, cp, 0x37, 1, 0x47);
    LeafStep(s, cp, 0x47, 1, 0x57);
    LeafStep(s, cp, 0x57, 2, 0x157);
    LeafStep(s, cp, 0x157, 3, 0x1157);
  }
  lemma Weight10IsSeries(s: seq<real>, cp: seq<real>)
    requires |s| == 16 && |cp| == 16
    ensures Weight10(s, cp) == SeriesCoefficient(s, cp, 10)
  {
    Weight10Term1(s, cp);
    Weight10Term2(s, cp);
    Weight10Term3(s, cp);
    Weight10Term4(s, cp);
    Weight10Term5(s, cp);
    Weight10Term6(s, cp);
    Weight10Term7(s, cp);
    Weight10Term8(s, cp);
    Weight10Term9(s, cp);
    Weight10Term10(s, cp);
    Weight10Term11(s, cp);
    Weight10Term12(s, cp);
    Weight10Term13(s, cp);
    Weight10Term14(s, cp);
    Weight10Term15(s, cp);
    Weight10Term16(s, cp);
    Weight10Term17(s, cp);
    Weight10Term18(s, cp);
    Weight10Term19(s, cp);
    Weight10Term20(s, cp);
    Weight10Term21(s, cp);
    Weight10Term22(s, cp);
    Weight10Term23(s, cp);
    Weight10Term24(s, cp);
    Weight10Term25(s, cp);
    Weight10Term26(s, cp);
    Weight10Term27(s, cp);
    Weight10Term28(s, cp);
    Weight10Term29(s, cp);
    Weight10Term30(s, cp);
    Weight10Term31(s, cp);
    Weight10Term32(s, cp);
    Weight10Term33(s, cp);
    Weight10Term34(s, cp);
    Weight10Term35(s, cp);
    Weight10Term36(s, cp);
    Weight10Term37(s, cp);
    Weight10Term38(s, cp);
    Weight10Term39(s, cp);
    Weight10Term40(s, cp);
    Weight10Term41(s, cp);
    Weight10Term42(s, cp);
    Enumerated10(s, cp);
    SeriesIsEnumerated(s, cp, 10);
  }
  lemma Enumerated11From11(s: seq<real>, cp: seq<real>)
    requires |s| == 16 && |cp| == 16
    ensures EnumFrom(s, cp, 11, 11) == 1.0 * Leaf(s, cp, 0xbb)
  {
    Parts11Of11(s, cp, 11);
    EnumFromBelow(s, cp, 11, 12);
  }
  lemma Enumerated11From10(s: seq<real>, cp: seq<real>)
    requires |s| == 16 && |cp| == 16
    ensures EnumFrom(s, cp, 11, 10) == 1.0 * Leaf(s, cp, 0xbb) + 10.0 * Leaf(s, cp, 0x19a)
  {
    Parts10Of11(s, cp, 10);
    Enumerated11From11(s, cp);
  }
  lemma Enumerated11From9(s: seq<real>, cp: seq<real>)
    requires |s| == 16 && |cp| == 16
    ensures EnumFrom(s, cp, 11, 9) == 1.0 * Leaf(s, cp, 0xbb) + 10.0 * Leaf(s, cp, 0x19a) + 36.0 * Leaf(s, cp, 0x279) + 9.0 * Leaf(s, cp, 0x1089)
  {
    Parts9Of11(s, cp, 9);
    Enumerated11From10(s, cp);
  }
  lemma Enumerated11From8(s: seq<real>, cp: seq<real>)
    requires |s| == 16 && |cp| == 16
    ensures EnumFrom(s, cp, 11, 8) == 1.0 * Leaf(s, cp, 0xbb) + 10.0 * Leaf(s, cp, 0x19a) + 36.0 * Leaf(s, cp, 0x279) + 56.0 * Leaf(s, cp, 0x358) + 9.0 * Leaf(s, cp, 0x1089) + 56.0 * Leaf(s, cp, 0x1168) + 8.0 * Leaf(s, cp, 0x1_0078)
  {
    Parts8Of11(s, cp, 8);
    Enumerated11From9(s, cp);
  }
  lemma Enumerated11From7(s: seq<real>, cp: seq<real>)
    requires |s| == 16 && |cp| == 16
    ensures EnumFrom(s, cp, 11, 7) == 1.0 * Leaf(s, cp, 0xbb) + 10.0 * Leaf(s, cp, 0x19a) + 36.0 * Leaf(s, cp, 0x279) + 56.0 * Leaf(s, cp, 0x358) + 35.0 * Leaf(s, cp, 0x437) + 9.0 * Leaf(s, cp, 0x1089) + 56.0 * Leaf(s, cp, 0x1168) + 105.0 * Leaf(s, cp, 0x1247) + 21.0 * Leaf(s, cp, 0x2057) + 8.0 * Leaf(s, cp, 0x1_0078) + 42.0 * Leaf(s, cp, 0x1_0157) + 7.0 * Leaf(s, cp, 0x10_0067)
  {
    Parts7Of11(s, cp, 7);
    Enumerated11From8(s, cp);
  }
  lemma Enumerated11From6(s: seq<real>, cp: seq<real>)
    requires |s| == 16 && |cp| == 16
    ensures EnumFrom(s, cp, 11, 6) == 1.0 * Leaf(s, cp, 0xbb) + 10.0 * Leaf(s, cp, 0x19a) + 36.0 * Leaf(s, cp, 0x279) + 56.0 * Leaf(s, cp, 0x358) + 35.0 * Leaf(s, cp, 0x437) + 6.0 * Leaf(s, cp, 0x516) + 9.0 * Leaf(s, cp, 0x1089) + 56.0 * Leaf(s, cp, 0x1168) + 105.0 * Leaf(s, cp, 0x1247) + 60.0 * Leaf(s, cp, 0x1326) + 21.0 * Leaf(s, cp, 0x2057) + 60.0 * Leaf(s, cp, 0x2136) + 8.0 * Leaf(s, cp, 0x1_0078) + 42.0 * Leaf(s, cp, 0x1_0157) + 60.0 * Leaf(s, cp, 0x1_0236) + 30.0 * Leaf(s, cp, 0x1_1046) + 7.0 * Leaf(s, cp, 0x10_0067) + 30.0 * Leaf(s, cp, 0x10_0146) + 6.0 * Leaf(s, cp, 0x100_0056)
  {
    Parts6Of11(s, cp, 6);
    Enumerated11From7(s, cp);
  }
  lemma Enumerated11From5(s: seq<real>, cp: seq<real>)
    requires |s| == 16 && |cp| == 16
    ensures EnumFrom(s, cp, 11, 5) == 1.0 * Leaf(s, cp, 0xbb) + 10.0 * Leaf(s, cp, 0x19a) + 36.0 * Leaf(s, cp, 0x279) + 56.0 * Leaf(s, cp, 0x358) + 35.0 * Leaf(s, cp, 0x437) + 6.0 * Leaf(s, cp, 0x516) + 9.0 * Leaf(s, cp, 0x1089) + 56.0 * Leaf(s, cp, 0x1168) + 105.0 * Leaf(s, cp, 0x1247) + 60.0 * Leaf(s, cp, 0x1326) + 5.0 * Leaf(s, cp, 0x1405) + 21.0 * Leaf(s, cp, 0x2057) + 60.0 * Leaf(s, cp, 0x2136) + 30.0 * Leaf(s, cp, 0x2215) + 10.0 * Leaf(s, cp, 0x3025) + 8.0 * Leaf(s, cp, 0x1_0078) + 42.0 * Leaf(s, cp, 0x1_0157) + 60.0 * Leaf(s, cp, 0x1_0236) + 20.0 * Leaf(s, cp, 0x1_0315) + 30.0 * Leaf(s, cp, 0x1_1046) + 60.0 * Leaf(s, cp, 0x1_1125) + 10.0 * Leaf(s, cp, 0x2_0035) + 7.0 * Leaf(s, cp, 0x10_0067) + 30.0 * Leaf(s, cp, 0x10_0146) + 30.0 * Leaf(s, cp, 0x10_0225) + 20.0 * Leaf(s, cp, 0x10_1035) + 6.0 * Leaf(s, cp, 0x100_0056) + 20.0 * Leaf(s, cp, 0x100_0135) + 5.0 * Leaf(s, cp, 0x1000_0045)
  {
    Parts5Of11(s, cp, 5);
    Enumerated11From6(s, cp);
  }
  lemma Enumerated11From4(s: seq<real>, cp: seq<real>)
    requires |s| == 16 && |cp| == 16
    ensures EnumFrom(s, cp, 11, 4) == 1.0 * Leaf(s, cp, 0xbb) + 10.0 * Leaf(s, cp, 0x19a) + 36.0 * Leaf(s, cp, 0x279) + 56.0 * Leaf(s, cp, 0x358) + 35.0 * Leaf(s, cp, 0x437) + 6.0 * Leaf(s, cp, 0x516) + 9.0 * Leaf(s, cp, 0x1089) + 56.0 * Leaf(s, cp, 0x1168) + 105.0 * Leaf(s, cp, 0x1247) + 60.0 * Leaf(s, cp, 0x1326) + 5.0 * Leaf(s, cp, 0x1405) + 21.0 * Leaf(s, cp, 0x2057) + 60.0 * Leaf(s, cp, 0x2136) + 30.0 * Leaf(s, cp, 0x2215) + 10.0 * Leaf(s, cp, 0x3025) + 4.0 * Leaf(s, cp, 0x3104) + 8.0 * Leaf(s, cp, 0x1_0078) + 42.0 * Leaf(s, cp, 0x1_0157) + 60.0 * Leaf(s, cp, 0x1_0236) + 20.0 * Leaf(s, cp, 0x1_0315) + 30.0 * Leaf(s, cp, 0x1_1046) + 60.0 * Leaf(s, cp, 0x1_1125) + 12.0 * Leaf(s, cp, 0x1_1204) + 12.0 * Leaf(s, cp, 0x1_2014) + 10.0 * Leaf(s, cp, 0x2_0035) + 12.0 * Leaf(s, cp, 0x2_0114) + 7.0 * Leaf(s, cp, 0x10_0067) + 30.0 * Leaf(s, cp, 0x10_0146) + 30.0 * Leaf(s, cp, 0x10_0225) + 4.0 * Leaf(s, cp, 0x10_0304) + 20.0 * Leaf(s, cp, 0x10_1035) + 24.0 * Leaf(s, cp, 0x10_1114) + 12.0 * Leaf(s, cp, 0x11_0024) + 6.0 * Leaf(s, cp, 0x100_0056) + 20.0 * Leaf(s, cp, 0x100_0135) + 12.0 * Leaf(s, cp, 0x100_0214) + 12.0 * Leaf(s, cp, 0x100_1024) + 5.0 * Leaf(s, cp, 0x1000_0045) + 12.0 * Leaf(s, cp, 0x1000_0124) + 4.0 * Leaf(s, cp, 0x1_0000_0034)
  {
    Parts4Of11(s, cp, 4);
    Enumerated11From5(s, cp);
  }
  lemma Enumerated11From3(s: seq<real>, cp: seq<real>)
    requires |s| == 16 && |cp| == 16
    ensures EnumFrom(s, cp, 11, 3) == 1.0 * Leaf(s, cp, 0xbb) + 10.0 * Leaf(s, cp, 0x19a) + 36.0 * Leaf(s, cp, 0x279) + 56.0 * Leaf(s, cp, 0x358) + 35.0 * Leaf(s, cp, 0x437) + 6.0 * Leaf(s, cp, 0x516) + 9.0 * Leaf(s, cp, 0x1089) + 56.0 * Leaf(s, cp, 0x1168) + 105.0 * Leaf(s, cp, 0x1247) + 60.0 * Leaf(s, cp, 0x1326) + 5.0 * Leaf(s, cp, 0x1405) + 21.0 * Leaf(s, cp, 0x2057) + 60.0 * Leaf(s, cp, 0x2136) + 30.0 * Leaf(s, cp, 0x2215) + 10.0 * Leaf(s, cp, 0x3025) + 4.0 * Leaf(s, cp, 0x3104) + 8.0 * Leaf(s, cp, 0x1_0078) + 42.0 * Leaf(s, cp, 0x1_0157) + 60.0 * Leaf(s, cp, 0x1_0236) + 20.0 * Leaf(s, cp, 0x1_0315) + 30.0 * Leaf(s, cp, 0x1_1046) + 60.0 * Leaf(s, cp, 0x1_1125) + 12.0 * Leaf(s, cp, 0x1_1204) + 12.0 * Leaf(s, cp, 0x1_2014) + 10.0 * Leaf(s, cp, 0x2_0035) + 12.0 * Leaf(s, cp, 0x2_0114) + 3.0 * Leaf(s, cp, 0x2_1003) + 7.0 * Leaf(s, cp, 0x10_0067) + 30.0 * Leaf(s, cp, 0x10_0146) + 30.0 * Leaf(s, cp, 0x10_0225) + 4.0 * Leaf(s, cp, 0x10_0304) + 20.0 * Leaf(s, cp, 0x10_1035) + 24.0 * Leaf(s, cp, 0x10_1114) + 3.0 * Leaf(s, cp, 0x10_2003) + 12.0 * Leaf(s, cp, 0x11_0024) + 6.0 * Leaf(s, cp, 0x11_0103) + 3.0 * Leaf(s, cp, 0x20_0013) + 6.0 * Leaf(s, cp, 0x100_0056) + 20.0 * Leaf(s, cp, 0x100_0135) + 12.0 * Leaf(s, cp, 0x100_0214) + 12.0 * Leaf(s, cp, 0x100_1024) + 6.0 * Leaf(s, cp, 0x100_1103) + 6.0 * Leaf(s, cp, 0x101_0013) + 5.0 * Leaf(s, cp, 0x1000_0045) + 12.0 * Leaf(s, cp, 0x1000_0124) + 3.0 * Leaf(s, cp, 0x1000_0203) + 6.0 * Leaf(s, cp, 0x1000_1013) + 4.0 * Leaf(s, cp, 0x1_0000_0034) + 6.0 * Leaf(s, cp, 0x1_0000_0113) + 3.0 * Leaf(s, cp, 0x10_0000_0023)
  {
    Parts3Of11(s, cp, 3);
    Enumerated11From4(s, cp);
  }
  lemma Enumerated11From2(s: seq<real>, cp: seq<real>)
    requires |s| == 16 && |cp| == 16
    ensures EnumFrom(s, cp, 11, 2) == 1.0 * Leaf(s, cp, 0xbb) + 10.0 * Leaf(s, cp, 0x19a) + 36.0 * Leaf(s, cp, 0x279) + 56.0 * Leaf(s, cp, 0x358) + 35.0 * Leaf(s, cp, 0x437) + 6.0 * Leaf(s, cp, 0x516) + 9.0 * Leaf(s, cp, 0x1089) + 56.0 * Leaf(s, cp, 0x1168) + 105.0 * Leaf(s, cp, 0x1247) + 60.0 * Leaf(s, cp, 0x1326) + 5.0 * Leaf(s, cp, 0x1405) + 21.0 * Leaf(s, cp, 0x2057) + 60.0 * Leaf(s, cp, 0x2136) + 30.0 * Leaf(s, cp, 0x2215) + 10.0 * Leaf(s, cp, 0x3025) + 4.0 * Leaf(s, cp, 0x3104) + 8.0 * Leaf(s, cp, 0x1_0078) + 42.0 * Leaf(s, cp, 0x1_0157) + 60.0 * Leaf(s, cp, 0x1_0236) + 20.0 * Leaf(s, cp, 0x1_0315) + 30.0 * Leaf(s, cp, 0x1_1046) + 60.0 * Leaf(s, cp, 0x1_1125) + 12.0 * Leaf(s, cp, 0x1_1204) + 12.0 * Leaf(s, cp, 0x1_2014) + 10.0 * Leaf(s, cp, 0x2_0035) + 12.0 * Leaf(s, cp, 0x2_0114) + 3.0 * Leaf(s, cp, 0x2_1003) + 7.0 * Leaf(s, cp, 0x10_0067) + 30.0 * Leaf(s, cp, 0x10_0146) + 30.0 * Leaf(s, cp, 0x10_0225) + 4.0 * Leaf(s, cp, 0x10_0304) + 20.0 * Leaf(s, cp, 0x10_1035) + 24.0 * Leaf(s, cp, 0x10_1114) + 3.0 * Leaf(s, cp, 0x10_2003) + 12.0 * Leaf(s, cp, 0x11_0024) + 6.0 * Leaf(s, cp, 0x11_0103) + 3.0 * Leaf(s, cp, 0x20_0013) + 6.0 * Leaf(s, cp, 0x100_0056) + 20.0 * Leaf(s, cp, 0x100_0135) + 12.0 * Leaf(s, cp, 0x100_0214) + 12.0 * Leaf(s, cp, 0x100_1024) + 6.0 * Leaf(s, cp, 0x100_1103) + 6.0 * Leaf(s, cp, 0x101_0013) + 2.0 * Leaf(s, cp, 0x110_0002) + 5.0 * Leaf(s, cp, 0x1000_0045) + 12.0 * Leaf(s, cp, 0x1000_0124) + 3.0 * Leaf(s, cp, 0x1000_0203) + 6.0 * Leaf(s, cp, 0x1000_1013) + 2.0 * Leaf(s, cp, 0x1001_0002) + 4.0 * Leaf(s, cp, 0x1_0000_0034) + 6.0 * Leaf(s, cp, 0x1_0000_0113) + 2.0 * Leaf(s, cp, 0x1_0000_1002) + 3.0 * Leaf(s, cp, 0x10_0000_0023) + 2.0 * Leaf(s, cp, 0x10_0000_0102) + 2.0 * Leaf(s, cp, 0x100_0000_0012)
  {
    Parts2Of11(s, cp, 2);
    Enumerated11From3(s, cp);
  }
  lemma Enumerated11From1(s: seq<real>, cp: seq<real>)
    requires |s| == 16 && |cp| == 16
    ensures EnumFrom(s, cp, 11, 1) == 1.0 * Leaf(s, cp, 0xbb) + 10.0 * Leaf(s, cp, 0x19a) + 36.0 * Leaf(s, cp, 0x279) + 56.0 * Leaf(s, cp, 0x358) + 35.0 * Leaf(s, cp, 0x437) + 6.0 * Leaf(s, cp, 0x516) + 9.0 * Leaf(s, cp, 0x1089) + 56.0 * Leaf(s, cp, 0x1168) + 105.0 * Leaf(s, cp, 0x1247) + 60.0 * Leaf(s, cp, 0x1326) + 5.0 * Leaf(s, cp, 0x1405) + 21.0 * Leaf(s, cp, 0x2057) + 60.0 * Leaf(s, cp, 0x2136) + 30.0 * Leaf(s, cp, 0x2215) + 10.0 * Leaf(s, cp, 0x3025) + 4.0 * Leaf(s, cp, 0x3104) + 8.0 * Leaf(s, cp, 0x1_0078) + 42.0 * Leaf(s, cp, 0x1_0157) + 60.0 * Leaf(s, cp, 0x1_0236) + 20.0 * Leaf(s, cp, 0x1_0315) + 30.0 * Leaf(s, cp, 0x1_1046) + 60.0 * Leaf(s, cp, 0x1_1125) + 12.0 * Leaf(s, cp, 0x1_1204) + 12.0 * Leaf(s, cp, 0x1_2014) + 10.0 * Leaf(s, cp, 0x2_0035) + 12.0 * Leaf(s, cp, 0x2_0114) + 3.0 * Leaf(s, cp, 0x2_1003) + 7.0 * Leaf(s, cp, 0x10_0067) + 30.0 * Leaf(s, cp, 0x10_0146) + 30.0 * Leaf(s, cp, 0x10_0225) + 4.0 * Leaf(s, cp, 0x10_0304) + 20.0 * Leaf(s, cp, 0x10_1035) + 24.0 * Leaf(s, cp, 0x10_1114) + 3.0 * Leaf(s, cp, 0x10_2003) + 12.0 * Leaf(s, cp, 0x11_0024) + 6.0 * Leaf(s, cp, 0x11_0103) + 3.0 * Leaf(s, cp, 0x20_0013) + 6.0 * Leaf(s, cp, 0x100_0056) + 20.0 * Leaf(s, cp, 0x100_0135) + 12.0 * Leaf(s, cp, 0x100_0214) + 12.0 * Leaf(s, cp, 0x100_1024) + 6.0 * Leaf(s, cp, 0x100_1103) + 6.0 * Leaf(s, cp, 0x101_0013) + 2.0 * Leaf(s, cp, 0x110_0002) + 5.0 * Leaf(s, cp, 0x1000_0045) + 12.0 * Leaf(s, cp, 0x1000_0124) + 3.0 * Leaf(s, cp, 0x1000_0203) + 6.0 * Leaf(s, cp, 0x1000_1013) + 2.0 * Leaf(s, cp, 0x1001_0002) + 4.0 * Leaf(s, cp, 0x1_0000_0034) + 6.0 * Leaf(s, cp, 0x1_0000_0113) + 2.0 * Leaf(s, cp, 0x1_0000_1002) + 3.0 * Leaf(s, cp, 0x10_0000_0023) + 2.0 * Leaf(s, cp, 0x10_0000_0102) + 2.0 * Leaf(s, cp, 0x100_0000_0012) + 1.0 * Leaf(s, cp, 0x1000_0000_0001)
  {
    Parts1Of11(s, cp, 1);
    Enumerated11From2(s, cp);
  }
  lemma Enumerated11From0(s: seq<real>, cp: seq<real>)
    requires |s| == 16 && |cp| == 16
    ensures EnumFrom(s, cp, 11, 0) == 1.0 * Leaf(s, cp, 0xbb) + 10.0 * Leaf(s, cp, 0x19a) + 36.0 * Leaf(s, cp, 0x279) + 56.0 * Leaf(s, cp, 0x358) + 35.0 * Leaf(s, cp, 0x437) + 6.0 * Leaf(s, cp, 0x516) + 9.0 * Leaf(s, cp, 0x1089) + 56.0 * Leaf(s, cp, 0x1168) + 105.0 * Leaf(s, cp, 0x1247) + 60.0 * Leaf(s, cp, 0x1326) + 5.0 * Leaf(s, cp, 0x1405) + 21.0 * Leaf(s, cp, 0x2057) + 60.0 * Leaf(s, cp, 0x2136) + 30.0 * Leaf(s, cp, 0x2215) + 10.0 * Leaf(s, cp, 0x3025) + 4.0 * Leaf(s, cp, 0x3104) + 8.0 * Leaf(s, cp, 0x1_0078) + 42.0 * Leaf(s, cp, 0x1_0157) + 60.0 * Leaf(s, cp, 0x1_0236) + 20.0 * Leaf(s, cp, 0x1_0315) + 30.0 * Leaf(s, cp, 0x1_1046) + 60.0 * Leaf(s, cp, 0x1_1125) + 12.0 * Leaf(s, cp, 0x1_1204) + 12.0 * Leaf(s, cp, 0x1_2014) + 10.0 * Leaf(s, cp, 0x2_0035) + 12.0 * Leaf(s, cp, 0x2_0114) + 3.0 * Leaf(s, cp, 0x2_1003) + 7.0 * Leaf(s, cp, 0x10_0067) + 30.0 * Leaf(s, cp, 0x10_0146) + 30.0 * Leaf(s, cp, 0x10_0225) + 4.0 * Leaf(s, cp, 0x10_0304) + 20.0 * Leaf(s, cp, 0x10_1035) + 24.0 * Leaf(s, cp, 0x10_1114) + 3.0 * Leaf(s, cp, 0x10_2003) + 12.0 * Leaf(s, cp, 0x11_0024) + 6.0 * Leaf(s, cp, 0x11_0103) + 3.0 * Leaf(s, cp, 0x20_0013) + 6.0 * Leaf(s, cp, 0x100_0056) + 20.0 * Leaf(s, cp, 0x100_0135) + 12.0 * Leaf(s, cp, 0x100_0214) + 12.0 * Leaf(s, cp, 0x100_1024) + 6.0 * Leaf(s, cp, 0x100_1103) + 6.0 * Leaf(s, cp, 0x101_0013) + 2.0 * Leaf(s, cp, 0x110_0002) + 5.0 * Leaf(s, cp, 0x1000_0045) + 12.0 * Leaf(s, cp, 0x1000_0124) + 3.0 * Leaf(s, cp, 0x1000_0203) + 6.0 * Leaf(s, cp, 0x1000_1013) + 2.0 * Leaf(s, cp, 0x1001_0002) + 4.0 * Leaf(s, cp, 0x1_0000_0034) + 6.0 * Leaf(s, cp, 0x1_0000_0113) + 2.0 * Leaf(s, cp, 0x1_0000_1002) + 3.0 * Leaf(s, cp, 0x10_0000_0023) + 2.0 * Leaf(s, cp, 0x10_0000_0102) + 2.0 * Leaf(s, cp, 0x100_0000_0012) + 1.0 * Leaf(s, cp, 0x1000_0000_0001)
  {
    assert Expand(s, cp, 0, 11, 0) == 0.0;
    Enumerated11From1(s, cp);
  }
  lemma Enumerated11(s: seq<real>, cp: seq<real>)
    requires |s| == 16 && |cp| == 16
    ensures Enumerated(s, cp, 11) == 1.0 * Leaf(s, cp, 0xbb) + 10.0 * Leaf(s, cp, 0x19a) + 36.0 * Leaf(s, cp, 0x279) + 56.0 * Leaf(s, cp, 0x358) + 35.0 * Leaf(s, cp, 0x437) + 6.0 * Leaf(s, cp, 0x516) + 9.0 * Leaf(s, cp, 0x1089) + 56.0 * Leaf(s, cp, 0x1168) + 105.0 * Leaf(s, cp, 0x1247) + 60.0 * Leaf(s, cp, 0x1326) + 5.0 * Leaf(s, cp, 0x1405) + 21.0 * Leaf(s, cp, 0x2057) + 60.0 * Leaf(s, cp, 0x2136) + 30.0 * Leaf(s, cp, 0x2215) + 10.0 * Leaf(s, cp, 0x3025) + 4.0 * Leaf(s, cp, 0x3104) + 8.0 * Leaf(s, cp, 0x1_0078) + 42.0 * Leaf(s, cp, 0x1_0157) + 60.0 * Leaf(s, cp, 0x1_0236) + 20.0 * Leaf(s, cp, 0x1_0315) + 30.0 * Leaf(s, cp, 0x1_1046) + 60.0 * Leaf(s, cp, 0x1_1125) + 12.0 * Leaf(s, cp, 0x1_1204) + 12.0 * Leaf(s, cp, 0x1_2014) + 10.0 * Leaf(s, cp, 0x2_0035) + 12.0 * Leaf(s, cp, 0x2_0114) + 3.0 * Leaf(s, cp, 0x2_1003) + 7.0 * Leaf(s, cp, 0x10_0067) + 30.0 * Leaf(s, cp, 0x10_0146) + 30.0 * Leaf(s, cp, 0x10_0225) + 4.0 * Leaf(s, cp, 0x10_0304) + 20.0 * Leaf(s, cp, 0x10_1035) + 24.0 * Leaf(s, cp, 0x10_1114) + 3.0 * Leaf(s, cp, 0x10_2003) + 12.0 * Leaf(s, cp, 0x11_0024) + 6.0 * Leaf(s, cp, 0x11_0103) + 3.0 * Leaf(s, cp, 0x20_0013) + 6.0 * Leaf(s, cp, 0x100_0056) + 20.0 * Leaf(s, cp, 0x100_0135) + 12.0 * Leaf(s, cp, 0x100_0214) + 12.0 * Leaf(s, cp, 0x100_1024) + 6.0 * Leaf(s, cp, 0x100_1103) + 6.0 * Leaf(s, cp, 0x101_0013) + 2.0 * Leaf(s, cp, 0x110_0002) + 5.0 * Leaf(s, cp, 0x1000_0045) + 12.0 * Leaf(s, cp, 0x1000_0124) + 3.0 * Leaf(s, cp, 0x1000_0203) + 6.0 * Leaf(s, cp, 0x1000_1013) + 2.0 * Leaf(s, cp, 0x1001_0002) + 4.0 * Leaf(s, cp, 0x1_0000_0034) + 6.0 * Leaf(s, cp, 0x1_0000_0113) + 2.0 * Leaf(s, cp, 0x1_0000_1002) + 3.0 * Leaf(s, cp, 0x10_0000_0023) + 2.0 * Leaf(s, cp, 0x10_0000_0102) + 2.0 * Leaf(s, cp, 0x100_0000_0012) + 1.0 * Leaf(s, cp, 0x1000_0000_0001)
  {
    Enumerated11From0(s, cp);
  }
  lemma Weight11Term1(s: seq<real>, cp: seq<real>)
    requires |s| == 16 && |cp| == 16
    ensures Leaf(s, cp, 0x1001_0002) == s[2] * cp[4] * cp[7]
  {
    RadixTable();
    LeafBase(s, cp, 2);
    LeafStep(s, cp, 0x2, 4, 0x1_0002);
    LeafStep(s, cp, 0x1_0002, 7, 0x1001_0002);
  }
  lemma Weight11Term2(s: seq<real>, cp: seq<real>)
    requires |s| == 16 && |cp| == 16
    ensures Leaf(s, cp, 0x2057) == s[7] * cp[1] * cp[1] * cp[1] * cp[1] * cp[1] * cp[3] * cp[3]
  {
    RadixTable();
    LeafBase(s, cp, 7);
    LeafStep(s, cp, 0x7, 1, 0x17);
    LeafStep(s, cp, 0x17, 1, 0x27);
    LeafStep(s, cp, 0x27, 1, 0x37);
    LeafStep(s, cp, 0x37, 1, 0x47);
    LeafStep(s, cp, 0x47, 1, 0x57);
    LeafStep(s, cp, 0x57, 3, 0x1057);
    LeafStep(s, cp, 0x1057, 3, 0x2057);
  }
  lemma Weight11Term3(s: seq<real>, cp: seq<real>)
    requires |s| == 16 && |cp| == 16
    ensures Leaf(s, cp, 0xbb) == s[11] * cp[1] * cp[1] * cp[1] * cp[1] * cp[1] * cp[1] * cp[1] * cp[1] * cp[1] * cp[1] * cp[1]
  {
    RadixTable();
    LeafBase(s, cp, 11);
    LeafStep(s, cp, 0xb, 1, 0x1b);
    LeafStep(s, cp, 0x1b, 1, 0x2b);
    LeafStep(s, cp, 0x2b, 1, 0x3b);
    LeafStep(s, cp, 0x3b, 1, 0x4b);
    LeafStep(s, cp, 0x4b, 1, 0x5b);
    LeafStep(s, cp, 0x5b, 1, 0x6b);
    LeafStep(s, cp, 0x6b, 1, 0x7b);
    LeafStep(s, cp, 0x7b, 1, 0x8b);
    LeafStep(s, cp, 0x8b, 1, 0x9b);
    LeafStep(s, cp, 0x9b, 1, 0xab);
    LeafStep(s, cp, 0xab, 1, 0xbb);
  }
  lemma Weight11Term4(s: seq<real>, cp: seq<real>)
    requires |s| == 16 && |cp| == 16
    ensures Leaf(s, cp, 0x110_0002) == s[2] * cp[5] * cp[6]
  {
    RadixTable();
    LeafBase(s, cp, 2);
    LeafStep(s, cp, 0x2, 5, 0x10_0002);
    LeafStep(s, cp, 0x10_0002, 6, 0x110_0002);
  }
  lemma Weight11Term5(s: seq<real>, cp: seq<real>)
    requires |s| == 16 && |cp| == 16
    ensures Leaf(s, cp, 0x1_1204) == s[4] * cp[2] * cp[2] * cp[3] * cp[4]
  {
    RadixTable();
    LeafBase(s, cp, 4);
    LeafStep(s, cp, 0x4, 2, 0x104);
    LeafStep(s, cp, 0x104, 2, 0x204);
    LeafStep(s, cp, 0x204, 3, 0x1204);
    LeafStep(s, cp, 0x1204, 4, 0x1_1204);
  }
  lemma Weight11Term6(s: seq<real>, cp: seq<real>)
    requires |s| == 16 && |cp| == 16
    ensures Leaf(s, cp, 0x1_0157) == s[7] * cp[1] * cp[1] * cp[1] * cp[1] * cp[1] * cp[2] * cp[4]
  {
    RadixTable();
    LeafBase(s, cp, 7);
    LeafStep(s, cp, 0x7, 1, 0x17);
    LeafStep(s, cp, 0x17, 1, 0x27);
    LeafStep(s, cp, 0x27, 1, 0x37);
    LeafStep(s, cp, 0x37, 1, 0x47);
    LeafStep(s, cp, 0x47, 1, 0x57);
    LeafStep(s, cp, 0x57, 2, 0x157);
    LeafStep(s, cp, 0x157, 4, 0x1_0157);
  }
  lemma Weight11Term7(s: seq<real>, cp: seq<real>)
    requires |s| == 16 && |cp| == 16
    ensures Leaf(s, cp, 0x1_0000_0113) == s[3] * cp[1] * cp[2] * cp[8]
  {
    RadixTable();
    LeafBase(s, cp, 3);
    LeafStep(s, cp, 0x3, 1, 0x13);
    LeafStep(s, cp, 0x13, 2, 0x113);
    LeafStep(s, cp, 0x113, 8, 0x1_0000_0113);
  }
  lemma Weight11Term8(s: seq<real>, cp: seq<real>)
    requires |s| == 16 && |cp| == 16
    ensures Leaf(s, cp, 0x3025) == s[5] * cp[1] * cp[1] * cp[3] * cp[3] * cp[3]
  {
    RadixTable();
    LeafBase(s, cp, 5);
    LeafStep(s, cp, 0x5, 1, 0x15);
    LeafStep(s, cp, 0x15, 1, 0x25);
    LeafStep(s, cp, 0x25, 3, 0x1025);
    LeafStep(s, cp, 0x1025, 3, 0x2025);
    LeafStep(s, cp, 0x2025, 3, 0x3025);
  }
  lemma Weight11Term9(s: seq<real>, cp: seq<real>)
    requires |s| == 16 && |cp| == 16
    ensures Leaf(s, cp, 0x1000_0000_0001) == s[1] * cp[11]
  {
    RadixTable();
    LeafBase(s, cp, 1);
    LeafStep(s, cp, 0x1, 11, 0x1000_0000_0001);
  }
  lemma Weight11Term10(s: seq<real>, cp: seq<real>)
    requires |s| == 16 && |cp| == 16
    ensures Leaf(s, cp, 0x1_0315) == s[5] * cp[1] * cp[2] * cp[2] * cp[2] * cp[4]
  {
    RadixTable();
    LeafBase(s, cp, 5);
    LeafStep(s, cp, 0x5, 1, 0x15);
    LeafStep(s, cp, 0x15, 2, 0x115);
    LeafStep(s, cp, 0x115, 2, 0x215);
    LeafStep(s, cp, 0x215, 2, 0x315);
    LeafStep(s, cp, 0x315, 4, 0x1_0315);
  }
  lemma Weight11Term11(s: seq<real>, cp: seq<real>)
    requires |s| == 16 && |cp| == 16
    ensures Leaf(s, cp, 0x1_1125) == s[5] * cp[1] * cp[1] * cp[2] * cp[3] * cp[4]
  {
    RadixTable();
    LeafBase(s, cp, 5);
    LeafStep(s, cp, 0x5, 1, 0x15);
    LeafStep(s, cp, 0x15, 1, 0x25);
    LeafStep(s, cp, 0x25, 2, 0x125);
    LeafStep(s, cp, 0x125, 3, 0x1125);
    LeafStep(s, cp, 0x1125, 4, 0x1_1125);
  }
  lemma Weight11Term12(s: seq<real>, cp: seq<real>)
    requires |s| == 16 && |cp| == 16
    ensures Leaf(s, cp, 0x1_0078) == s[8] * cp[1] * cp[1] * cp[1] * cp[1] * cp[1] * cp[1] * cp[1] * cp[4]
  {
    RadixTable();
    LeafBase(s, cp, 8);
    LeafStep(s, cp, 0x8, 1, 0x18);
    LeafStep(s, cp, 0x18, 1, 0x28);
    LeafStep(s, cp, 0x28, 1, 0x38);
    LeafStep(s, cp, 0x38, 1, 0x48);
    LeafStep(s, cp, 0x48, 1, 0x58);
    LeafStep(s, cp, 0x58, 1, 0x68);
    LeafStep(s, cp, 0x68, 1, 0x78);
    LeafStep(s, cp, 0x78, 4, 0x1_0078);
  }
  lemma Weight11Term13(s: seq<real>, cp: seq<real>)
    requires |s| == 16 && |cp| == 16
    ensures Leaf(s, cp, 0x10_0225) == s[5] * cp[1] * cp[1] * cp[2] * cp[2] * cp[5]
  {
    RadixTable();
    LeafBase(s, cp, 5);
    LeafStep(s, cp, 0x5, 1, 0x15);
    LeafStep(s, cp, 0x15, 1, 0x25);
    LeafStep(s, cp, 0x25, 2, 0x125);
    LeafStep(s, cp, 0x125, 2, 0x225);
    LeafStep(s, cp, 0x225, 5, 0x10_0225);
  }
  lemma Weight11Term14(s: seq<real>, cp: seq<real>)
    requires |s| == 16 && |cp| == 16
    ensures Leaf(s, cp, 0x10_0000_0023) == s[3] * cp[1] * cp[1] * cp[9]
  {
    RadixTable();
    LeafBase(s, cp, 3);
    LeafStep(s, cp, 0x3, 1, 0x13);
    LeafStep(s, cp, 0x13, 1, 0x23);
    LeafStep(s, cp, 0x23, 9, 0x10_0000_0023);
  }
  lemma Weight11Term15(s: seq<real>, cp: seq<real>)
    requires |s| == 16 && |cp| == 16
    ensures Leaf(s, cp, 0x1326) == s[6] * cp[1] * cp[1] * cp[2] * cp[2] * cp[2] * cp[3]
  {
    RadixTable();
    LeafBase(s, cp, 6);
    LeafStep(s, cp, 0x6, 1, 0x16);
    LeafStep(s, cp, 0x16, 1, 0x26);
    LeafStep(s, cp, 0x26, 2, 0x126);
    LeafStep(s, cp, 0x126, 2, 0x226);
    LeafStep(s, cp, 0x226, 2, 0x326);
    LeafStep(s, cp, 0x326, 3, 0x1326);
  }
  lemma Weight11Term16(s: seq<real>, cp: seq<real>)
    requires |s| == 16 && |cp| == 16
    ensures Leaf(s, cp, 0x10_0000_0102) == s[2] * cp[2] * cp[9]
  {
    RadixTable();
    LeafBase(s, cp, 2);
    LeafStep(s, cp, 0x2, 2, 0x102);
    LeafStep(s, cp, 0x102, 9, 0x10_0000_0102);
  }
  lemma Weight11Term17(s: seq<real>, cp: seq<real>)
    requires |s| == 16 && |cp| == 16
    ensures Leaf(s, cp, 0x19a) == s[10] * cp[1] * cp[1] * cp[1] * cp[1] * cp[1] * cp[1] * cp[1] * cp[1] * cp[1] * cp[2]
  {
    RadixTable();
    LeafBase(s, cp, 10);
    LeafStep(s, cp, 0xa, 1, 0x1a);
    LeafStep(s, cp, 0x1a, 1, 0x2a);
    LeafStep(s, cp, 0x2a, 1, 0x3a);
    LeafStep(s, cp, 0x3a, 1, 0x4a);
    LeafStep(s, cp, 0x4a, 1, 0x5a);
    LeafStep(s, cp, 0x5a, 1, 0x6a);
    LeafStep(s, cp, 0x6a, 1, 0x7a);
    LeafStep(s, cp, 0x7a, 1, 0x8a);
    LeafStep(s, cp, 0x8a, 1, 0x9a);
    LeafStep(s, cp, 0x9a, 2, 0x19a);
  }
  lemma Weight11Term18(s: seq<real>, cp: seq<real>)
    requires |s| == 16 && |cp| == 16
    ensures Leaf(s, cp, 0x10_1035) == s[5] * cp[1] * cp[1] * cp[1] * cp[3] * cp[5]
  {
    RadixTable();
    LeafBase(s, cp, 5);
    LeafStep(s, cp, 0x5, 1, 0x15);
    LeafStep(s, cp, 0x15, 1, 0x25);
    LeafStep(s, cp, 0x25, 1, 0x35);
    LeafStep(s, cp, 0x35, 3, 0x1035);
    LeafStep(s, cp, 0x1035, 5, 0x10_1035);
  }
  lemma Weight11Term19(s: seq<real>, cp: seq<real>)
    requires |s| == 16 && |cp| == 16
    ensures Leaf(s, cp, 0x1_0000_0034) == s[4] * cp[1] * cp[1] * cp[1] * cp[8]
  {
    RadixTable();
    LeafBase(s, cp, 4);
    LeafStep(s, cp, 0x4, 1, 0x14);
    LeafStep(s, cp, 0x14, 1, 0x24);
    LeafStep(s, cp, 0x24, 1, 0x34);
    LeafStep(s, cp, 0x34, 8, 0x1_0000_0034);
  }
  lemma Weight11Term20(s: seq<real>, cp: seq<real>)
    requires |s| == 16 && |cp| == 16
    ensures Leaf(s, cp, 0x1_0236) == s[6] * cp[1] * cp[1] * cp[1] * cp[2] * cp[2] * cp[4]
  {
    RadixTable();
    LeafBase(s, cp, 6);
    LeafStep(s, cp, 0x6, 1, 0x16);
    LeafStep(s, cp, 0x16, 1, 0x26);
    LeafStep(s, cp, 0x26, 1, 0x36);
    LeafStep(s, cp, 0x36, 2, 0x136);
    LeafStep(s, cp, 0x136, 2, 0x236);
    LeafStep(s, cp, 0x236, 4, 0x1_0236);
  }
  lemma Weight11Term21(s: seq<real>, cp: seq<real>)
    requires |s| == 16 && |cp| == 16
    ensures Leaf(s, cp, 0x10_2003) == s[3] * cp[3] * cp[3] * cp[5]
  {
    RadixTable();
    LeafBase(s, cp, 3);
    LeafStep(s, cp, 0x3, 3, 0x1003);
    LeafStep(s, cp, 0x1003, 3, 0x2003);
    LeafStep(s, cp, 0x2003, 5, 0x10_2003);
  }
  lemma Weight11Term22(s: seq<real>, cp: seq<real>)
    requires |s| == 16 && |cp| == 16
    ensures Leaf(s, cp, 0x100_1103) == s[3] * cp[2] * cp[3] * cp[6]
  {
    RadixTable();
    LeafBase(s, cp, 3);
    LeafStep(s, cp, 0x3, 2, 0x103);
    LeafStep(s, cp, 0x103, 3, 0x1103);
    LeafStep(s, cp, 0x1103, 6, 0x100_1103);
  }
  lemma Weight11Term23(s: seq<real>, cp: seq<real>)
    requires |s| == 16 && |cp| == 16
    ensures Leaf(s, cp, 0x1000_0045) == s[5] * cp[1] * cp[1] * cp[1] * cp[1] * cp[7]
  {
    RadixTable();
    LeafBase(s, cp, 5);
    LeafStep(s, cp, 0x5, 1, 0x15);
    LeafStep(s, cp, 0x15, 1, 0x25);
    LeafStep(s, cp, 0x25, 1, 0x35);
    LeafStep(s, cp, 0x35, 1, 0x45);
    LeafStep(s, cp, 0x45, 7, 0x1000_0045);
  }
  lemma Weight11Term24(s: seq<real>, cp: seq<real>)
    requires |s| == 16 && |cp| == 16
    ensures Leaf(s, cp, 0x11_0103) == s[3] * cp[2] * cp[4] * cp[5]
  {
    RadixTable();
    LeafBase(s, cp, 3);
    LeafStep(s, cp, 0x3, 2, 0x103);
    LeafStep(s, cp, 0x103, 4, 0x1_0103);
    LeafStep(s, cp, 0x1_0103, 5, 0x11_0103);
  }
  lemma Weight11Term25(s: seq<real>, cp: seq<real>)
    requires |s| == 16 && |cp| == 16
    ensures Leaf(s, cp, 0x100_0000_0012) == s[2] * cp[1] * cp[10]
  {
    RadixTable();
    LeafBase(s, cp, 2);
    LeafStep(s, cp, 0x2, 1, 0x12);
    LeafStep(s, cp, 0x12, 10, 0x100_0000_0012);
  }
  lemma Weight11Term26(s: seq<real>, cp: seq<real>)
    requires |s| == 16 && |cp| == 16
    ensures Leaf(s, cp, 0x10_1114) == s[4] * cp[1] * cp[2] * cp[3] * cp[5]
  {
    RadixTable();
    LeafBase(s, cp, 4);
    LeafStep(s, cp, 0x4, 1, 0x14);
    LeafStep(s, cp, 0x14, 2, 0x114);
    LeafStep(s, cp, 0x114, 3, 0x1114);
    LeafStep(s, cp, 0x1114, 5, 0x10_1114);
  }
  lemma Weight11Term27(s: seq<real>, cp: seq<real>)
    requires |s| == 16 && |cp| == 16
    ensures Leaf(s, cp, 0x100_1024) == s[4] * cp[1] * cp[1] * cp[3] * cp[6]
  {
    RadixTable();
    LeafBase(s, cp, 4);
    LeafStep(s, cp, 0x4, 1, 0x14);
    LeafStep(s, cp, 0x14, 1, 0x24);
    LeafStep(s, cp, 0x24, 3, 0x1024);
    LeafStep(s, cp, 0x1024, 6, 0x100_1024);
  }
  lemma Weight11Term28(s: seq<real>, cp: seq<real>)
    requires |s| == 16 && |cp| == 16
    ensures Leaf(s, cp, 0x2136) == s[6] * cp[1] * cp[1] * cp[1] * cp[2] * cp[3] * cp[3]
  {
    RadixTable();
    LeafBase(s, cp, 6);
    LeafStep(s, cp, 0x6, 1, 0x16);
    LeafStep(s, cp, 0x16, 1, 0x26);
    LeafStep(s, cp, 0x26, 1, 0x36);
    LeafStep(s, cp, 0x36, 2, 0x136);
    LeafStep(s, cp, 0x136, 3, 0x1136);
    LeafStep(s, cp, 0x1136, 3, 0x2136);
  }
  lemma Weight11Term29(s: seq<real>, cp: seq<real>)
    requires |s| == 16 && |cp| == 16
    ensures Leaf(s, cp, 0x2215) == s[5] * cp[1] * cp[2] * cp[2] * cp[3] * cp[3]
  {
    RadixTable();
    LeafBase(s, cp, 5);
    LeafStep(s, cp, 0x5, 1, 0x15);
    LeafStep(s, cp, 0x15, 2, 0x115);
    LeafStep(s, cp, 0x115, 2, 0x215);
    LeafStep(s, cp, 0x215, 3, 0x1215);
    LeafStep(s, cp, 0x1215, 3, 0x2215);
  }
  lemma Weight11Term30(s: seq<real>, cp: seq<real>)
    requires |s| == 16 && |cp| == 16
    ensures Leaf(s, cp, 0x10_0067) == s[7] * cp[1] * cp[1] * cp[1] * cp[1] * cp[1] * cp[1] * cp[5]
  {
    RadixTable();
    LeafBase(s, cp, 7);
    LeafStep(s, cp, 0x7, 1, 0x17);
    LeafStep(s, cp, 0x17, 1, 0x27);
    LeafStep(s, cp, 0x27, 1, 0x37);
    LeafStep(s, cp, 0x37, 1, 0x47);
    LeafStep(s, cp, 0x47, 1, 0x57);
    LeafStep(s, cp, 0x57, 1, 0x67);
    LeafStep(s, cp, 0x67, 5, 0x10_0067);
  }
  lemma Weight11Term31(s: seq<real>, cp: seq<real>)
    requires |s| == 16 && |cp| == 16
    ensures Leaf(s, cp, 0x1_2014) == s[4] * cp[1] * cp[3] * cp[3] * cp[4]
  {
    RadixTable();
    LeafBase(s, cp, 4);
    LeafStep(s, cp, 0x4, 1, 0x14);
    LeafStep(s, cp, 0x14, 3, 0x1014);
    LeafStep(s, cp, 0x1014, 3, 0x2014);
    LeafStep(s, cp, 0x2014, 4, 0x1_2014);
  }
  lemma Weight11Term32(s: seq<real>, cp: seq<real>)
    requires |s| == 16 && |cp| == 16
    ensures Leaf(s, cp, 0x1405) == s[5] * cp[2] * cp[2] * cp[2] * cp[2] * cp[3]
  {
    RadixTable();
    LeafBase(s, cp, 5);
    LeafStep(s, cp, 0x5, 2, 0x105);
    LeafStep(s, cp, 0x105, 2, 0x205);
    LeafStep(s, cp, 0x205, 2, 0x305);
    LeafStep(s, cp, 0x305, 2, 0x405);
    LeafStep(s, cp, 0x405, 3, 0x1405);
  }
  lemma Weight11Term33(s: seq<real>, cp: seq<real>)
    requires |s| == 16 && |cp| == 16
    ensures Leaf(s, cp, 0x279) == s[9] * cp[1] * cp[1] * cp[1] * cp[1] * cp[1] * cp[1] * cp[1] * cp[2] * cp[2]
  {
    RadixTable();
    LeafBase(s, cp, 9);
    LeafStep(s, cp, 0x9, 1, 0x19);
    LeafStep(s, cp, 0x19, 1, 0x29);
    LeafStep(s, cp, 0x29, 1, 0x39);
    LeafStep(s, cp, 0x39, 1, 0x49);
    LeafStep(s, cp, 0x49, 1, 0x59);
    LeafStep(s, cp, 0x59, 1, 0x69);
    LeafStep(s, cp, 0x69, 1, 0x79);
    LeafStep(s, cp, 0x79, 2, 0x179);
    LeafStep(s, cp, 0x179, 2, 0x279);
  }
  lemma Weight11Term34(s: seq<real>, cp: seq<real>)
    requires |s| == 16 && |cp| == 16
    ensures Leaf(s, cp, 0x11_0024) == s[4] * cp[1] * cp[1] * cp[4] * cp[5]
  {
    RadixTable();
    LeafBase(s, cp, 4);
    LeafStep(s, cp, 0x4, 1, 0x14);
    LeafStep(s, cp, 0x14, 1, 0x24);
    LeafStep(s, cp, 0x24, 4, 0x1_0024);
    LeafStep(s, cp, 0x1_0024, 5, 0x11_0024);
  }
  lemma Weight11Term35(s: seq<real>, cp: seq<real>)
    requires |s| == 16 && |cp| == 16
    ensures Leaf(s, cp, 0x1247) == s[7] * cp[1] * cp[1] * cp[1] * cp[1] * cp[2] * cp[2] * cp[3]
  {
    RadixTable();
    LeafBase(s, cp, 7);
    LeafStep(s, cp, 0x7, 1, 0x17);
    LeafStep(s, cp, 0x17, 1, 0x27);
    LeafStep(s, cp, 0x27, 1, 0x37);
    LeafStep(s, cp, 0x37, 1, 0x47);
    LeafStep(s, cp, 0x47, 2, 0x147);
    LeafStep(s, cp, 0x147, 2, 0x247);
    LeafStep(s, cp, 0x247, 3, 0x1247);
  }
  lemma Weight11Term36(s: seq<real>, cp: seq<real>)
    requires |s| == 16 && |cp| == 16
    ensures Leaf(s, cp, 0x1000_0124) == s[4] * cp[1] * cp[1] * cp[2] * cp[7]
  {
    RadixTable();
    LeafBase(s, cp, 4);
    LeafStep(s, cp, 0x4, 1, 0x14);
    LeafStep(s, cp, 0x14, 1, 0x24);
    LeafStep(s, cp, 0x24, 2, 0x124);
    LeafStep(s, cp, 0x124, 7, 0x1000_0124);
  }
  lemma Weight11Term37(s: seq<real>, cp: seq<real>)
    requires |s| == 16 && |cp| == 16
    ensures Leaf(s, cp, 0x2_0114) == s[4] * cp[1] * cp[2] * cp[4] * cp[4]
  {
    RadixTable();
    LeafBase(s, cp, 4);
    LeafStep(s, cp, 0x4, 1, 0x14);
    LeafStep(s, cp, 0x14, 2, 0x114);
    LeafStep(s, cp, 0x114, 4, 0x1_0114);
    LeafStep(s, cp, 0x1_0114, 4, 0x2_0114);
  }
  lemma Weight11Term38(s: seq<real>, cp: seq<real>)
    requires |s| == 16 && |cp| == 16
    ensures Leaf(s, cp, 0x516) == s[6] * cp[1] * cp[2] * cp[2] * cp[2] * cp[2] * cp[2]
  {
    RadixTable();
    LeafBase(s, cp, 6);
    LeafStep(s, cp, 0x6, 1, 0x16);
    LeafStep(s, cp, 0x16, 2, 0x116);
    LeafStep(s, cp, 0x116, 2, 0x216);
    LeafStep(s, cp, 0x216, 2, 0x316);
    LeafStep(s, cp, 0x316, 2, 0x416);
    LeafStep(s, cp, 0x416, 2, 0x516);
  }
  lemma Weight11Term39(s: seq<real>, cp: seq<real>)
    requires |s| == 16 && |cp| == 16
    ensures Leaf(s, cp, 0x20_0013) == s[3] * cp[1] * cp[5] * cp[5]
  {
    RadixTable();
    LeafBase(s, cp, 3);
    LeafStep(s, cp, 0x3, 1, 0x13);
    LeafStep(s, cp, 0x13, 5, 0x10_0013);
    LeafStep(s, cp, 0x10_0013, 5, 0x20_0013);
  }
  lemma Weight11Term40(s: seq<real>, cp: seq<real>)
    requires |s| == 16 && |cp| == 16
    ensures Leaf(s, cp, 0x358) == s[8] * cp[1] * cp[1] * cp[1] * cp[1] * cp[1] * cp[2] * cp[2] * cp[2]
  {
    RadixTable();
    LeafBase(s, cp, 8);
    LeafStep(s, cp, 0x8, 1, 0x18);
    LeafStep(s, cp, 0x18, 1, 0x28);
    LeafStep(s, cp, 0x28, 1, 0x38);
    LeafStep(s, cp, 0x38, 1, 0x48);
    LeafStep(s, cp, 0x48, 1, 0x58);
    LeafStep(s, cp, 0x58, 2, 0x158);
    LeafStep(s, cp, 0x158, 2, 0x258);
    LeafStep(s, cp, 0x258, 2, 0x358);
  }
  lemma Weight11Term41(s: seq<real>, cp: seq<real>)
    requires |s| == 16 && |cp| == 16
    ensures Leaf(s, cp, 0x101_0013) == s[3] * cp[1] * cp[4] * cp[6]
  {
    RadixTable();
    LeafBase(s, cp, 3);
    LeafStep(s, cp, 0x3, 1, 0x13);
    LeafStep(s, cp, 0x13, 4, 0x1_0013);
    LeafStep(s, cp, 0x1_0013, 6, 0x101_0013);
  }
  lemma Weight11Term42(s: seq<real>, cp: seq<real>)
    requires |s| == 16 && |cp| == 16
    ensures Leaf(s, cp, 0x3104) == s[4] * cp[2] * cp[3] * cp[3] * cp[3]
  {
    RadixTable();
    LeafBase(s, cp, 4);
    LeafStep(s, cp, 0x4, 2, 0x104);
    LeafStep(s, cp, 0x104, 3, 0x1104);
    LeafStep(s, cp, 0x1104, 3, 0x2104);
    LeafStep(s, cp, 0x2104, 3, 0x3104);
  }
  lemma Weight11Term43(s: seq<real>, cp: seq<real>)
    requires |s| == 16 && |cp| == 16
    ensures Leaf(s, cp, 0x10_0146) == s[6] * cp[1] * cp[1] * cp[1] * cp[1] * cp[2] * cp[5]
  {
    RadixTable();
    LeafBase(s, cp, 6);
    LeafStep(s, cp, 0x6, 1, 0x16);
    LeafStep(s, cp, 0x16, 1, 0x26);
    LeafStep(s, cp, 0x26, 1, 0x36);
    LeafStep(s, cp, 0x36, 1, 0x46);
    LeafStep(s, cp, 0x46, 2, 0x146);
    LeafStep(s, cp, 0x146, 5, 0x10_0146);
  }
  lemma Weight11Term44(s: seq<real>, cp: seq<real>)
    requires |s| == 16 && |cp| == 16
    ensures Leaf(s, cp, 0x10_0304) == s[4] * cp[2] * cp[2] * cp[2] * cp[5]
  {
    RadixTable();
    LeafBase(s, cp, 4);
    LeafStep(s, cp, 0x4, 2, 0x104);
    LeafStep(s, cp, 0x104, 2, 0x204);
    LeafStep(s, cp, 0x204, 2, 0x304);
    LeafStep(s, cp, 0x304, 5, 0x10_0304);
  }
  lemma Weight11Term45(s: seq<real>, cp: seq<real>)
    requires |s| == 16 && |cp| == 16
    ensures Leaf(s, cp, 0x1000_1013) == s[3] * cp[1] * cp[3] * cp[7]
  {
    RadixTable();
    LeafBase(s, cp, 3);
    LeafStep(s, cp, 0x3, 1, 0x13);
    LeafStep(s, cp, 0x13, 3, 0x1013);
    LeafStep(s, cp, 0x1013, 7, 0x1000_1013);
  }
  lemma Weight11Term46(s: seq<real>, cp: seq<real>)
    requires |s| == 16 && |cp| == 16
    ensures Leaf(s, cp, 0x1_1046) == s[6] * cp[1] * cp[1] * cp[1] * cp[1] * cp[3] * cp[4]
  {
    RadixTable();
    LeafBase(s, cp, 6);
    LeafStep(s, cp, 0x6, 1, 0x16);
    LeafStep(s, cp, 0x16, 1, 0x26);
    LeafStep(s, cp, 0x26, 1, 0x36);
    LeafStep(s, cp, 0x36, 1, 0x46);
    LeafStep(s, cp, 0x46, 3, 0x1046);
    LeafStep(s, cp, 0x1046, 4, 0x1_1046);
  }
  lemma Weight11Term47(s: seq<real>, cp: seq<real>)
    requires |s| == 16 && |cp| == 16
    ensures Leaf(s, cp, 0x100_0056) == s[6] * cp[1] * cp[1] * cp[1] * cp[1] * cp[1] * cp[6]
  {
    RadixTable();
    LeafBase(s, cp, 6);
    LeafStep(s, cp, 0x6, 1, 0x16);
    LeafStep(s, cp, 0x16, 1, 0x26);
    LeafStep(s, cp, 0x26, 1, 0x36);
    LeafStep(s, cp, 0x36, 1, 0x46);
    LeafStep(s, cp, 0x46, 1, 0x56);
    LeafStep(s, cp, 0x56, 6, 0x100_0056);
  }
  lemma Weight11Term48(s: seq<real>, cp: seq<real>)
    requires |s| == 16 && |cp| == 16
    ensures Leaf(s, cp, 0x1168) == s[8] * cp[1] * cp[1] * cp[1] * cp[1] * cp[1] * cp[1] * cp[2] * cp[3]
  {
    RadixTable();
    LeafBase(s, cp, 8);
    LeafStep(s, cp, 0x8, 1, 0x18);
    LeafStep(s, cp, 0x18, 1, 0x28);
    LeafStep(s, cp, 0x28, 1, 0x38);
    LeafStep(s, cp, 0x38, 1, 0x48);
    LeafStep(s, cp, 0x48, 1, 0x58);
    LeafStep(s, cp, 0x58, 1, 0x68);
    LeafStep(s, cp, 0x68, 2, 0x168);
    LeafStep(s, cp, 0x168, 3, 0x1168);
  }
  lemma Weight11Term49(s: seq<real>, cp: seq<real>)
    requires |s| == 16 && |cp| == 16
    ensures Leaf(s, cp, 0x1089) == s[9] * cp[1] * cp[1] * cp[1] * cp[1] * cp[1] * cp[1] * cp[1] * cp[1] * cp[3]
  {
    RadixTable();
    LeafBase(s, cp, 9);
    LeafStep(s, cp, 0x9, 1, 0x19);
    LeafStep(s, cp, 0x19, 1, 0x29);
    LeafStep(s, cp, 0x29, 1, 0x39);
    LeafStep(s, cp, 0x39, 1, 0x49);
    LeafStep(s, cp, 0x49, 1, 0x59);
    LeafStep(s, cp, 0x59, 1, 0x69);
    LeafStep(s, cp, 0x69, 1, 0x79);
    LeafStep(s, cp, 0x79, 1, 0x89);
    LeafStep(s, cp, 0x89, 3, 0x1089);
  }
  lemma Weight11Term50(s: seq<real>, cp: seq<real>)
    requires |s| == 16 && |cp| == 16
    ensures Leaf(s, cp, 0x1_0000_1002) == s[2] * cp[3] * cp[8]
  {
    RadixTable();
    LeafBase(s, cp, 2);
    LeafStep(s, cp, 0x2, 3, 0x1002);
    LeafStep(s, cp, 0x1002, 8, 0x1_0000_1002);
  }
  lemma Weight11Term51(s: seq<real>, cp: seq<real>)
    requires |s| == 16 && |cp| == 16
    ensures Leaf(s, cp, 0x2_1003) == s[3] * cp[3] * cp[4] * cp[4]
  {
    RadixTable();
    LeafBase(s, cp, 3);
    LeafStep(s, cp, 0x3, 3, 0x1003);
    LeafStep(s, cp, 0x1003, 4, 0x1_1003);
    LeafStep(s, cp, 0x1_1003, 4, 0x2_1003);
  }
  lemma Weight11Term52(s: seq<real>, cp: seq<real>)
    requires |s| == 16 && |cp| == 16
    ensures Leaf(s, cp, 0x1000_0203) == s[3] * cp[2] * cp[2] * cp[7]
  {
    RadixTable();
    LeafBase(s, cp, 3);
    LeafStep(s, cp, 0x3, 2, 0x103);
    LeafStep(s, cp, 0x103, 2, 0x203);
    LeafStep(s, cp, 0x203, 7, 0x1000_0203);
  }
  lemma Weight11Term53(s: seq<real>, cp: seq<real>)
    requires |s| == 16 && |cp| == 16
    ensures Leaf(s, cp, 0x2_0035) == s[5] * cp[1] * cp[1] * cp[1] * cp[4] * cp[4]
  {
    RadixTable();
    LeafBase(s, cp, 5);
    LeafStep(s, cp, 0x5, 1, 0x15);
    LeafStep(s, cp, 0x15, 1, 0x25);
    LeafStep(s, cp, 0x25, 1, 0x35);
    LeafStep(s, cp, 0x35, 4, 0x1_0035);
    LeafStep(s, cp, 0x1_0035, 4, 0x2_0035);
  }
  lemma Weight11Term54(s: seq<real>, cp: seq<real>)
    requires |s| == 16 && |cp| == 16
    ensures Leaf(s, cp, 0x100_0135) == s[5] * cp[1] * cp[1] * cp[1] * cp[2] * cp[6]
  {
    RadixTable();
    LeafBase(s, cp, 5);
    LeafStep(s, cp, 0x5, 1, 0x15);
    LeafStep(s, cp, 0x15, 1, 0x25);
    LeafStep(s, cp, 0x25, 1, 0x35);
    LeafStep(s, cp, 0x35, 2, 0x135);
    LeafStep(s, cp, 0x135, 6, 0x100_0135);
  }
  lemma Weight11Term55(s: seq<real>, cp: seq<real>)
    requires |s| == 16 && |cp| == 16
    ensures Leaf(s, cp, 0x100_0214) == s[4] * cp[1] * cp[2] * cp[2] * cp[6]
  {
    RadixTable();
    LeafBase(s, cp, 4);
    LeafStep(s, cp, 0x4, 1, 0x14);
    LeafStep(s, cp, 0x14, 2, 0x114);
    LeafStep(s, cp, 0x114, 2, 0x214);
    LeafStep(s, cp, 0x214, 6, 0x100_0214);
  }
  lemma Weight11Term56(s: seq<real>, cp: seq<real>)
    requires |s| == 16 && |cp| == 16
    ensures Leaf(s, cp, 0x437) == s[7] * cp[1] * cp[1] * cp[1] * cp[2] * cp[2] * cp[2] * cp[2]
  {
    RadixTable();
    LeafBase(s, cp, 7);
    LeafStep(s, cp, 0x7, 1, 0x17);
    LeafStep(s, cp, 0x17, 1, 0x27);
    LeafStep(s, cp, 0x27, 1, 0x37);
    LeafStep(s, cp, 0x37, 2, 0x137);
    LeafStep(s, cp, 0x137, 2, 0x237);
    LeafStep(s, cp, 0x237, 2, 0x337);
    LeafStep(s, cp, 0x337, 2, 0x437);
  }
  lemma Weight11IsSeries(s: seq<real>, cp: seq<real>)
    requires |s| == 16 && |cp| == 16
    ensures Weight11(s, cp) == SeriesCoefficient(s, cp, 11)
  {
    Weight11Term1(s, cp);
    Weight11Term2(s, cp);
    Weight11Term3(s, cp);
    Weight11Term4(s, cp);
    Weight11Term5(s, cp);
    Weight11Term6(s, cp);
    Weight11Term7(s, cp);
    Weight11Term8(s, cp);
    Weight11Term9(s, cp);
    Weight11Term10(s, cp);
    Weight11Term11(s, cp);
    Weight11Term12(s, cp);
    Weight11Term13(s, cp);
    Weight11Term14(s, cp);
    Weight11Term15(s, cp);
    Weight11Term16(s, cp);
    Weight11Term17(s, cp);
    Weight11Term18(s, cp);
    Weight11Term19(s, cp);
    Weight11Term20(s, cp);
    Weight11Term21(s, cp);
    Weight11Term22(s, cp);
    Weight11Term23(s, cp);
    Weight11Term24(s, cp);
    Weight11Term25(s, cp);
    Weight11Term26(s, cp);
    Weight11Term27(s, cp);
    Weight11Term28(s, cp);
    Weight11Term29(s, cp);
    Weight11Term30(s, cp);
    Weight11Term31(s, cp);
    Weight11Term32(s, cp);
    Weight11Term33(s, cp);
    Weight11Term34(s, cp);
    Weight11Term35(s, cp);
    Weight11Term36(s, cp);
    Weight11Term37(s, cp);
    Weight11Term38(s, cp);
    Weight11Term39(s, cp);
    Weight11Term40(s, cp);
    Weight11Term41(s, cp);
    Weight11Term42(s, cp);
    Weight11Term43(s, cp);
    Weight11Term44(s, cp);
    Weight11Term45(s, cp);
    Weight11Term46(s, cp);
    Weight11Term47(s, cp);
    Weight11Term48(s, cp);
    Weight11Term49(s, cp);
    Weight11Term50(s, cp);
    Weight11Term51(s, cp);
    Weight11Term52(s, cp);
    Weight11Term53(s, cp);
    Weight11Term54(s, cp);
    Weight11Term55(s, cp);
    Weight11Term56(s, cp);
    Enumerated11(s, cp);
    SeriesIsEnumerated(s, cp, 11);
  }
  lemma Enumerated12From12(s: seq<real>, cp: seq<real>)
    requires |s| == 16 && |cp| == 16
    ensures EnumFrom(s, cp, 12, 12) == 1.0 * Leaf(s, cp, 0xcc)
  {
    Parts12Of12(s, cp, 12);
    EnumFromBelow(s, cp, 12, 13);
  }
  lemma Enumerated12From11(s: seq<real>, cp: seq<real>)
    requires |s| == 16 && |cp| == 16
    ensures EnumFrom(s, cp, 12, 11) == 1.0 * Leaf(s, cp, 0xcc) + 11.0 * Leaf(s, cp, 0x1ab)
  {
    Parts11Of12(s, cp, 11);
    Enumerated12From12(s, cp);
  }
  lemma Enumerated12From10(s: seq<real>, cp: seq<real>)
    requires |s| == 16 && |cp| == 16
    ensures EnumFrom(s, cp, 12, 10) == 1.0 * Leaf(s, cp, 0xcc) + 11.0 * Leaf(s, cp, 0x1ab) + 45.0 * Leaf(s, cp, 0x28a) + 10.0 * Leaf(s, cp, 0x109a)
  {
    Parts10Of12(s, cp, 10);
    Enumerated12From11(s, cp);
  }
  lemma Enumerated12From9(s: seq<real>, cp: seq<real>)
    requires |s| == 16 && |cp| == 16
    ensures EnumFrom(s, cp, 12, 9) == 1.0 * Leaf(s, cp, 0xcc) + 11.0 * Leaf(s, cp, 0x1ab) + 45.0 * Leaf(s, cp, 0x28a) + 84.0 * Leaf(s, cp, 0x369) + 10.0 * Leaf(s, cp, 0x109a) + 72.0 * Leaf(s, cp, 0x1179) + 9.0 * Leaf(s, cp, 0x1_0089)
  {
    Parts9Of12(s, cp, 9);
    Enumerated12From10(s, cp);
  }
  lemma Enumerated12From8(s: seq<real>, cp: seq<real>)
    requires |s| == 16 && |cp| == 16
    ensures EnumFrom(s, cp, 12, 8) == 1.0 * Leaf(s, cp, 0xcc) + 11.0 * Leaf(s, cp, 0x1ab) + 45.0 * Leaf(s, cp, 0x28a) + 84.0 * Leaf(s, cp, 0x369) + 70.0 * Leaf(s, cp, 0x448) + 10.0 * Leaf(s, cp, 0x109a) + 72.0 * Leaf(s, cp, 0x1179) + 168.0 * Leaf(s, cp, 0x1258) + 28.0 * Leaf(s, cp, 0x2068) + 9.0 * Leaf(s, cp, 0x1_0089) + 56.0 * Leaf(s, cp, 0x1_0168) + 8.0 * Leaf(s, cp, 0x10_0078)
  {
    Parts8Of12(s, cp, 8);
    Enumerated12From9(s, cp);
  }
  lemma Enumerated12From7(s: seq<real>, cp: seq<real>)
    requires |s| == 16 && |cp| == 16
    ensures EnumFrom(s, cp, 12, 7) == 1.0 * Leaf(s, cp, 0xcc) + 11.0 * Leaf(s, cp, 0x1ab) + 45.0 * Leaf(s, cp, 0x28a) + 84.0 * Leaf(s, cp, 0x369) + 70.0 * Leaf(s, cp, 0x448) + 21.0 * Leaf(s, cp, 0x527) + 10.0 * Leaf(s, cp, 0x109a) + 72.0 * Leaf(s, cp, 0x1179) + 168.0 * Leaf(s, cp, 0x1258) + 140.0 * Leaf(s, cp, 0x1337) + 28.0 * Leaf(s, cp, 0x2068) + 105.0 * Leaf(s, cp, 0x2147) + 9.0 * Leaf(s, cp, 0x1_0089) + 56.0 * Leaf(s, cp, 0x1_0168) + 105.0 * Leaf(s, cp, 0x1_0247) + 42.0 * Leaf(s, cp, 0x1_1057) + 8.0 * Leaf(s, cp, 0x10_0078) + 42.0 * Leaf(s, cp, 0x10_0157) + 7.0 * Leaf(s, cp, 0x100_0067)
  {
    Parts7Of12(s, cp, 7);
    Enumerated12From8(s, cp);
  }
  lemma Enumerated12From6(s: seq<real>, cp: seq<real>)
    requires |s| == 16 && |cp| == 16
    ensures EnumFrom(s, cp, 12, 6) == 1.0 * Leaf(s, cp, 0xcc) + 11.0 * Leaf(s, cp, 0x1ab) + 45.0 * Leaf(s, cp, 0x28a) + 84.0 * Leaf(s, cp, 0x369) + 70.0 * Leaf(s, cp, 0x448) + 21.0 * Leaf(s, cp, 0x527) + 1.0 * Leaf(s, cp, 0x606) + 10.0 * Leaf(s, cp, 0x109a) + 72.0 * Leaf(s, cp, 0x1179) + 168.0 * Leaf(s, cp, 0x1258) + 140.0 * Leaf(s, cp, 0x1337) + 30.0 * Leaf(s, cp, 0x1416) + 28.0 * Leaf(s, cp, 0x2068) + 105.0 * Leaf(s, cp, 0x2147) + 90.0 * Leaf(s, cp, 0x2226) + 20.0 * Leaf(s, cp, 0x3036) + 9.0 * Leaf(s, cp, 0x1_0089) + 56.0 * Leaf(s, cp, 0x1_0168) + 105.0 * Leaf(s, cp, 0x1_0247) + 60.0 * Leaf(s, cp, 0x1_0326) + 42.0 * Leaf(s, cp, 0x1_1057) + 120.0 * Leaf(s, cp, 0x1_1136) + 15.0 * Leaf(s, cp, 0x2_0046) + 8.0 * Leaf(s, cp, 0x10_0078) + 42.0 * Leaf(s, cp, 0x10_0157) + 60.0 * Leaf(s, cp, 0x10_0236) + 30.0 * Leaf(s, cp, 0x10_1046) + 7.0 * Leaf(s, cp, 0x100_0067) + 30.0 * Leaf(s, cp, 0x100_0146) + 6.0 * Leaf(s, cp, 0x1000_0056)
  {
    Parts6Of12(s, cp, 6);
    Enumerated12From7(s, cp);
  }
  lemma Enumerated12From5(s: seq<real>, cp: seq<real>)
    requires |s| == 16 && |cp| == 16
    ensures EnumFrom(s, cp, 12, 5) == 1.0 * Leaf(s, cp, 0xcc) + 11.0 * Leaf(s, cp, 0x1ab) + 45.0 * Leaf(s, cp, 0x28a) + 84.0 * Leaf(s, cp, 0x369) + 70.0 * Leaf(s, cp, 0x448) + 21.0 * Leaf(s, cp, 0x527) + 1.0 * Leaf(s, cp, 0x606) + 10.0 * Leaf(s, cp, 0x109a) + 72.0 * Leaf(s, cp, 0x1179) + 168.0 * Leaf(s, cp, 0x1258) + 140.0 * Leaf(s, cp, 0x1337) + 30.0 * Leaf(s, cp, 0x1416) + 28.0 * Leaf(s, cp, 0x2068) + 105.0 * Leaf(s, cp, 0x2147) + 90.0 * Leaf(s, cp, 0x2226) + 10.0 * Leaf(s, cp, 0x2305) + 20.0 * Leaf(s, cp, 0x3036) + 20.0 * Leaf(s, cp, 0x3115) + 9.0 * Leaf(s, cp, 0x1_0089) + 56.0 * Leaf(s, cp, 0x1_0168) + 105.0 * Leaf(s, cp, 0x1_0247) + 60.0 * Leaf(s, cp, 0x1_0326) + 5.0 * Leaf(s, cp, 0x1_0405) + 42.0 * Leaf(s, cp, 0x1_1057) + 120.0 * Leaf(s, cp, 0x1_1136) + 60.0 * Leaf(s, cp, 0x1_1215) + 30.0 * Leaf(s, cp, 0x1_2025) + 15.0 * Leaf(s, cp, 0x2_0046) + 30.0 * Leaf(s, cp, 0x2_0125) + 8.0 * Leaf(s, cp, 0x10_0078) + 42.0 * Leaf(s, cp, 0x10_0157) + 60.0 * Leaf(s, cp, 0x10_0236) + 20.0 * Leaf(s, cp, 0x10_0315) + 30.0 * Leaf(s, cp, 0x10_1046) + 60.0 * Leaf(s, cp, 0x10_1125) + 20.0 * Leaf(s, cp, 0x11_0035) + 7.0 * Leaf(s, cp, 0x100_0067) + 30.0 * Leaf(s, cp, 0x100_0146) + 30.0 * Leaf(s, cp, 0x100_0225) + 20.0 * Leaf(s, cp, 0x100_1035) + 6.0 * Leaf(s, cp, 0x1000_0056) + 20.0 * Leaf(s, cp, 0x1000_0135) + 5.0 * Leaf(s, cp, 0x1_0000_0045)
  {
    Parts5Of12(s, cp, 5);
    Enumerated12From6(s, cp);
  }
  lemma Enumerated12From4(s: seq<real>, cp: seq<real>)
    requires |s| == 16 && |cp| == 16
    ensures EnumFrom(s, cp, 12, 4) == 1.0 * Leaf(s, cp, 0xcc) + 11.0 * Leaf(s, cp, 0x1ab) + 45.0 * Leaf(s, cp, 0x28a) + 84.0 * Leaf(s, cp, 0x369) + 70.0 * Leaf(s, cp, 0x448) + 21.0 * Leaf(s, cp, 0x527) + 1.0 * Leaf(s, cp, 0x606) + 10.0 * Leaf(s, cp, 0x109a) + 72.0 * Leaf(s, cp, 0x1179) + 168.0 * Leaf(s, cp, 0x1258) + 140.0 * Leaf(s, cp, 0x1337) + 30.0 * Leaf(s, cp, 0x1416) + 28.0 * Leaf(s, cp, 0x2068) + 105.0 * Leaf(s, cp, 0x2147) + 90.0 * Leaf(s, cp, 0x2226) + 10.0 * Leaf(s, cp, 0x2305) + 20.0 * Leaf(s, cp, 0x3036) + 20.0 * Leaf(s, cp, 0x3115) + 1.0 * Leaf(s, cp, 0x4004) + 9.0 * Leaf(s, cp, 0x1_0089) + 56.0 * Leaf(s, cp, 0x1_0168) + 105.0 * Leaf(s, cp, 0x1_0247) + 60.0 * Leaf(s, cp, 0x1_0326) + 5.0 * Leaf(s, cp, 0x1_0405) + 42.0 * Leaf(s, cp, 0x1_1057) + 120.0 * Leaf(s, cp, 0x1_1136) + 60.0 * Leaf(s, cp, 0x1_1215) + 30.0 * Leaf(s, cp, 0x1_2025) + 12.0 * Leaf(s, cp, 0x1_2104) + 15.0 * Leaf(s, cp, 0x2_0046) + 30.0 * Leaf(s, cp, 0x2_0125) + 6.0 * Leaf(s, cp, 0x2_0204) + 12.0 * Leaf(s, cp, 0x2_1014) + 8.0 * Leaf(s, cp, 0x10_0078) + 42.0 * Leaf(s, cp, 0x10_0157) + 60.0 * Leaf(s, cp, 0x10_0236) + 20.0 * Leaf(s, cp, 0x10_0315) + 30.0 * Leaf(s, cp, 0x10_1046) + 60.0 * Leaf(s, cp, 0x10_1125) + 12.0 * Leaf(s, cp, 0x10_1204) + 12.0 * Leaf(s, cp, 0x10_2014) + 20.0 * Leaf(s, cp, 0x11_0035) + 24.0 * Leaf(s, cp, 0x11_0114) + 6.0 * Leaf(s, cp, 0x20_0024) + 7.0 * Leaf(s, cp, 0x100_0067) + 30.0 * Leaf(s, cp, 0x100_0146) + 30.0 * Leaf(s, cp, 0x100_0225) + 4.0 * Leaf(s, cp, 0x100_0304) + 20.0 * Leaf(s, cp, 0x100_1035) + 24.0 * Leaf(s, cp, 0x100_1114) + 12.0 * Leaf(s, cp, 0x101_0024) + 6.0 * Leaf(s, cp, 0x1000_0056) + 20.0 * Leaf(s, cp, 0x1000_0135) + 12.0 * Leaf(s, cp, 0x1000_0214) + 12.0 * Leaf(s, cp, 0x1000_1024) + 5.0 * Leaf(s, cp, 0x1_0000_0045) + 12.0 * Leaf(s, cp, 0x1_0000_0124) + 4.0 * Leaf(s, cp, 0x10_0000_0034)
  {
    Parts4Of12(s, cp, 4);
    Enumerated12From5(s, cp);
  }
  lemma Enumerated12From3(s: seq<real>, cp: seq<real>)
    requires |s| == 16 && |cp| == 16
    ensures EnumFrom(s, cp, 12, 3) == 1.0 * Leaf(s, cp, 0xcc) + 11.0 * Leaf(s, cp, 0x1ab) + 45.0 * Leaf(s, cp, 0x28a) + 84.0 * Leaf(s, cp, 0x369) + 70.0 * Leaf(s, cp, 0x448) + 21.0 * Leaf(s, cp, 0x527) + 1.0 * Leaf(s, cp, 0x606) + 10.0 * Leaf(s, cp, 0x109a) + 72.0 * Leaf(s, cp, 0x1179) + 168.0 * Leaf(s, cp, 0x1258) + 140.0 * Leaf(s, cp, 0x1337) + 30.0 * Leaf(s, cp, 0x1416) + 28.0 * Leaf(s, cp, 0x2068) + 105.0 * Leaf(s, cp, 0x2147) + 90.0 * Leaf(s, cp, 0x2226) + 10.0 * Leaf(s, cp, 0x2305) + 20.0 * Leaf(s, cp, 0x3036) + 20.0 * Leaf(s, cp, 0x3115) + 1.0 * Leaf(s, cp, 0x4004) + 9.0 * Leaf(s, cp, 0x1_0089) + 56.0 * Leaf(s, cp, 0x1_0168) + 105.0 * Leaf(s, cp, 0x1_0247) + 60.0 * Leaf(s, cp, 0x1_0326) + 5.0 * Leaf(s, cp, 0x1_0405) + 42.0 * Leaf(s, cp, 0x1_1057) + 120.0 * Leaf(s, cp, 0x1_1136) + 60.0 * Leaf(s, cp, 0x1_1215) + 30.0 * Leaf(s, cp, 0x1_2025) + 12.0 * Leaf(s, cp, 0x1_2104) + 15.0 * Leaf(s, cp, 0x2_0046) + 30.0 * Leaf(s, cp, 0x2_0125) + 6.0 * Leaf(s, cp, 0x2_0204) + 12.0 * Leaf(s, cp, 0x2_1014) + 1.0 * Leaf(s, cp, 0x3_0003) + 8.0 * Leaf(s, cp, 0x10_0078) + 42.0 * Leaf(s, cp, 0x10_0157) + 60.0 * Leaf(s, cp, 0x10_0236) + 20.0 * Leaf(s, cp, 0x10_0315) + 30.0 * Leaf(s, cp, 0x10_1046) + 60.0 * Leaf(s, cp, 0x10_1125) + 12.0 * Leaf(s, cp, 0x10_1204) + 12.0 * Leaf(s, cp, 0x10_2014) + 20.0 * Leaf(s, cp, 0x11_0035) + 24.0 * Leaf(s, cp, 0x11_0114) + 6.0 * Leaf(s, cp, 0x11_1003) + 6.0 * Leaf(s, cp, 0x20_0024) + 3.0 * Leaf(s, cp, 0x20_0103) + 7.0 * Leaf(s, cp, 0x100_0067) + 30.0 * Leaf(s, cp, 0x100_0146) + 30.0 * Leaf(s, cp, 0x100_0225) + 4.0 * Leaf(s, cp, 0x100_0304) + 20.0 * Leaf(s, cp, 0x100_1035) + 24.0 * Leaf(s, cp, 0x100_1114) + 3.0 * Leaf(s, cp, 0x100_2003) + 12.0 * Leaf(s, cp, 0x101_0024) + 6.0 * Leaf(s, cp, 0x101_0103) + 6.0 * Leaf(s, cp, 0x110_0013) + 6.0 * Leaf(s, cp, 0x1000_0056) + 20.0 * Leaf(s, cp, 0x1000_0135) + 12.0 * Leaf(s, cp, 0x1000_0214) + 12.0 * Leaf(s, cp, 0x1000_1024) + 6.0 * Leaf(s, cp, 0x1000_1103) + 6.0 * Leaf(s, cp, 0x1001_0013) + 5.0 * Leaf(s, cp, 0x1_0000_0045) + 12.0 * Leaf(s, cp, 0x1_0000_0124) + 3.0 * Leaf(s, cp, 0x1_0000_0203) + 6.0 * Leaf(s, cp, 0x1_0000_1013) + 4.0 * Leaf(s, cp, 0x10_0000_0034) + 6.0 * Leaf(s, cp, 0x10_0000_0113) + 3.0 * Leaf(s, cp, 0x100_0000_0023)
  {
    Parts3Of12(s, cp, 3);
    Enumerated12From4(s, cp);
  }
  lemma Enumerated12From2(s: seq<real>, cp: seq<real>)
    requires |s| == 16 && |cp| == 16
    ensures EnumFrom(s, cp, 12, 2) == 1.0 * Leaf(s, cp, 0xcc) + 11.0 * Leaf(s, cp, 0x1ab) + 45.0 * Leaf(s, cp, 0x28a) + 84.0 * Leaf(s, cp, 0x369) + 70.0 * Leaf(s, cp, 0x448) + 21.0 * Leaf(s, cp, 0x527) + 1.0 * Leaf(s, cp, 0x606) + 10.0 * Leaf(s, cp, 0x109a) + 72.0 * Leaf(s, cp, 0x1179) + 168.0 * Leaf(s, cp, 0x1258) + 140.0 * Leaf(s, cp, 0x1337) + 30.0 * Leaf(s, cp, 0x1416) + 28.0 * Leaf(s, cp, 0x2068) + 105.0 * Leaf(s, cp, 0x2147) + 90.0 * Leaf(s, cp, 0x2226) + 10.0 * Leaf(s, cp, 0x2305) + 20.0 * Leaf(s, cp, 0x3036) + 20.0 * Leaf(s, cp, 0x3115) + 1.0 * Leaf(s, cp, 0x4004) + 9.0 * Leaf(s, cp, 0x1_0089) + 56.0 * Leaf(s, cp, 0x1_0168) + 105.0 * Leaf(s, cp, 0x1_0247) + 60.0 * Leaf(s, cp, 0x1_0326) + 5.0 * Leaf(s, cp, 0x1_0405) + 42.0 * Leaf(s, cp, 0x1_1057) + 120.0 * Leaf(s, cp, 0x1_1136) + 60.0 * Leaf(s, cp, 0x1_1215) + 30.0 * Leaf(s, cp, 0x1_2025) + 12.0 * Leaf(s, cp, 0x1_2104) + 15.0 * Leaf(s, cp, 0x2_0046) + 30.0 * Leaf(s, cp, 0x2_0125) + 6.0 * Leaf(s, cp, 0x2_0204) + 12.0 * Leaf(s, cp, 0x2_1014) + 1.0 * Leaf(s, cp, 0x3_0003) + 8.0 * Leaf(s, cp, 0x10_0078) + 42.0 * Leaf(s, cp, 0x10_0157) + 60.0 * Leaf(s, cp, 0x10_0236) + 20.0 * Leaf(s, cp, 0x10_0315) + 30.0 * Leaf(s, cp, 0x10_1046) + 60.0 * Leaf(s, cp, 0x10_1125) + 12.0 * Leaf(s, cp, 0x10_1204) + 12.0 * Leaf(s, cp, 0x10_2014) + 20.0 * Leaf(s, cp, 0x11_0035) + 24.0 * Leaf(s, cp, 0x11_0114) + 6.0 * Leaf(s, cp, 0x11_1003) + 6.0 * Leaf(s, cp, 0x20_0024) + 3.0 * Leaf(s, cp, 0x20_0103) + 7.0 * Leaf(s, cp, 0x100_0067) + 30.0 * Leaf(s, cp, 0x100_0146) + 30.0 * Leaf(s, cp, 0x100_0225) + 4.0 * Leaf(s, cp, 0x100_0304) + 20.0 * Leaf(s, cp, 0x100_1035) + 24.0 * Leaf(s, cp, 0x100_1114) + 3.0 * Leaf(s, cp, 0x100_2003) + 12.0 * Leaf(s, cp, 0x101_0024) + 6.0 * Leaf(s, cp, 0x101_0103) + 6.0 * Leaf(s, cp, 0x110_0013) + 1.0 * Leaf(s, cp, 0x200_0002) + 6.0 * Leaf(s, cp, 0x1000_0056) + 20.0 * Leaf(s, cp, 0x1000_0135) + 12.0 * Leaf(s, cp, 0x1000_0214) + 12.0 * Leaf(s, cp, 0x1000_1024) + 6.0 * Leaf(s, cp, 0x1000_1103) + 6.0 * Leaf(s, cp, 0x1001_0013) + 2.0 * Leaf(s, cp, 0x1010_0002) + 5.0 * Leaf(s, cp, 0x1_0000_0045) + 12.0 * Leaf(s, cp, 0x1_0000_0124) + 3.0 * Leaf(s, cp, 0x1_0000_0203) + 6.0 * Leaf(s, cp, 0x1_0000_1013) + 2.0 * Leaf(s, cp, 0x1_0001_0002) + 4.0 * Leaf(s, cp, 0x10_0000_0034) + 6.0 * Leaf(s, cp, 0x10_0000_0113) + 2.0 * Leaf(s, cp, 0x10_0000_1002) + 3.0 * Leaf(s, cp, 0x100_0000_0023) + 2.0 * Leaf(s, cp, 0x100_0000_0102) + 2.0 * Leaf(s, cp, 0x1000_0000_0012)
  {
    Parts2Of12(s, cp, 2);
    Enumerated12From3(s, cp);
  }
  lemma Enumerated12From1(s: seq<real>, cp: seq<real>)
    requires |s| == 16 && |cp| == 16
    ensures EnumFrom(s, cp, 12, 1) == 1.0 * Leaf(s, cp, 0xcc) + 11.0 * Leaf(s, cp, 0x1ab) + 45.0 * Leaf(s, cp, 0x28a) + 84.0 * Leaf(s, cp, 0x369) + 70.0 * Leaf(s, cp, 0x448) + 21.0 * Leaf(s, cp, 0x527) + 1.0 * Leaf(s, cp, 0x606) + 10.0 * Leaf(s, cp, 0x109a) + 72.0 * Leaf(s, cp, 0x1179) + 168.0 * Leaf(s, cp, 0x1258) + 140.0 * Leaf(s, cp, 0x1337) + 30.0 * Leaf(s, cp, 0x1416) + 28.0 * Leaf(s, cp, 0x2068) + 105.0 * Leaf(s, cp, 0x2147) + 90.0 * Leaf(s, cp, 0x2226) + 10.0 * Leaf(s, cp, 0x2305) + 20.0 * Leaf(s, cp, 0x3036) + 20.0 * Leaf(s, cp, 0x3115) + 1.0 * Leaf(s, cp, 0x4004) + 9.0 * Leaf(s, cp, 0x1_0089) + 56.0 * Leaf(s, cp, 0x1_0168) + 105.0 * Leaf(s, cp, 0x1_0247) + 60.0 * Leaf(s, cp, 0x1_0326) + 5.0 * Leaf(s, cp, 0x1_0405) + 42.0 * Leaf(s, cp, 0x1_1057) + 120.0 * Leaf(s, cp, 0x1_1136) + 60.0 * Leaf(s, cp, 0x1_1215) + 30.0 * Leaf(s, cp, 0x1_2025) + 12.0 * Leaf(s, cp, 0x1_2104) + 15.0 * Leaf(s, cp, 0x2_0046) + 30.0 * Leaf(s, cp, 0x2_0125) + 6.0 * Leaf(s, cp, 0x2_0204) + 12.0 * Leaf(s, cp, 0x2_1014) + 1.0 * Leaf(s, cp, 0x3_0003) + 8.0 * Leaf(s, cp, 0x10_0078) + 42.0 * Leaf(s, cp, 0x10_0157) + 60.0 * Leaf(s, cp, 0x10_0236) + 20.0 * Leaf(s, cp, 0x10_0315) + 30.0 * Leaf(s, cp, 0x10_1046) + 60.0 * Leaf(s, cp, 0x10_1125) + 12.0 * Leaf(s, cp, 0x10_1204) + 12.0 * Leaf(s, cp, 0x10_2014) + 20.0 * Leaf(s, cp, 0x11_0035) + 24.0 * Leaf(s, cp, 0x11_0114) + 6.0 * Leaf(s, cp, 0x11_1003) + 6.0 * Leaf(s, cp, 0x20_0024) + 3.0 * Leaf(s, cp, 0x20_0103) + 7.0 * Leaf(s, cp, 0x100_0067) + 30.0 * Leaf(s, cp, 0x100_0146) + 30.0 * Leaf(s, cp, 0x100_0225) + 4.0 * Leaf(s, cp, 0x100_0304) + 20.0 * Leaf(s, cp, 0x100_1035) + 24.0 * Leaf(s, cp, 0x100_1114) + 3.0 * Leaf(s, cp, 0x100_2003) + 12.0 * Leaf(s, cp, 0x101_0024) + 6.0 * Leaf(s, cp, 0x101_0103) + 6.0 * Leaf(s, cp, 0x110_0013) + 1.0 * Leaf(s, cp, 0x200_0002) + 6.0 * Leaf(s, cp, 0x1000_0056) + 20.0 * Leaf(s, cp, 0x1000_0135) + 12.0 * Leaf(s, cp, 0x1000_0214) + 12.0 * Leaf(s, cp, 0x1000_1024) + 6.0 * Leaf(s, cp, 0x1000_1103) + 6.0 * Leaf(s, cp, 0x1001_0013) + 2.0 * Leaf(s, cp, 0x1010_0002) + 5.0 * Leaf(s, cp, 0x1_0000_0045) + 12.0 * Leaf(s, cp, 0x1_0000_0124) + 3.0 * Leaf(s, cp, 0x1_0000_0203) + 6.0 * Leaf(s, cp, 0x1_0000_1013) + 2.0 * Leaf(s, cp, 0x1_0001_0002) + 4.0 * Leaf(s, cp, 0x10_0000_0034) + 6.0 * Leaf(s, cp, 0x10_0000_0113) + 2.0 * Leaf(s, cp, 0x10_0000_1002) + 3.0 * Leaf(s, cp, 0x100_0000_0023) + 2.0 * Leaf(s, cp, 0x100_0000_0102) + 2.0 * Leaf(s, cp, 0x1000_0000_0012) + 1.0 * Leaf(s, cp, 0x1_0000_0000_0001)
  {
    Parts1Of12(s, cp, 1);
    Enumerated12From2(s, cp);
  }
  lemma Enumerated12From0(s: seq<real>, cp: seq<real>)
    requires |s| == 16 && |cp| == 16
    ensures EnumFrom(s, cp, 12, 0) == 1.0 * Leaf(s, cp, 0xcc) + 11.0 * Leaf(s, cp, 0x1ab) + 45.0 * Leaf(s, cp, 0x28a) + 84.0 * Leaf(s, cp, 0x369) + 70.0 * Leaf(s, cp, 0x448) + 21.0 * Leaf(s, cp, 0x527) + 1.0 * Leaf(s, cp, 0x606) + 10.0 * Leaf(s, cp, 0x109a) + 72.0 * Leaf(s, cp, 0x1179) + 168.0 * Leaf(s, cp, 0x1258) + 140.0 * Leaf(s, cp, 0x1337) + 30.0 * Leaf(s, cp, 0x1416) + 28.0 * Leaf(s, cp, 0x2068) + 105.0 * Leaf(s, cp, 0x2147) + 90.0 * Leaf(s, cp, 0x2226) + 10.0 * Leaf(s, cp, 0x2305) + 20.0 * Leaf(s, cp, 0x3036) + 20.0 * Leaf(s, cp, 0x3115) + 1.0 * Leaf(s, cp, 0x4004) + 9.0 * Leaf(s, cp, 0x1_0089) + 56.0 * Leaf(s, cp, 0x1_0168) + 105.0 * Leaf(s, cp, 0x1_0247) + 60.0 * Leaf(s, cp, 0x1_0326) + 5.0 * Leaf(s, cp, 0x1_0405) + 42.0 * Leaf(s, cp, 0x1_1057) + 120.0 * Leaf(s, cp, 0x1_1136) + 60.0 * Leaf(s, cp, 0x1_1215) + 30.0 * Leaf(s, cp, 0x1_2025) + 12.0 * Leaf(s, cp, 0x1_2104) + 15.0 * Leaf(s, cp, 0x2_0046) + 30.0 * Leaf(s, cp, 0x2_0125) + 6.0 * Leaf(s, cp, 0x2_0204) + 12.0 * Leaf(s, cp, 0x2_1014) + 1.0 * Leaf(s, cp, 0x3_0003) + 8.0 * Leaf(s, cp, 0x10_0078) + 42.0 * Leaf(s, cp, 0x10_0157) + 60.0 * Leaf(s, cp, 0x10_0236) + 20.0 * Leaf(s, cp, 0x10_0315) + 30.0 * Leaf(s, cp, 0x10_1046) + 60.0 * Leaf(s, cp, 0x10_1125) + 12.0 * Leaf(s, cp, 0x10_1204) + 12.0 * Leaf(s, cp, 0x10_2014) + 20.0 * Leaf(s, cp, 0x11_0035) + 24.0 * Leaf(s, cp, 0x11_0114) + 6.0 * Leaf(s, cp, 0x11_1003) + 6.0 * Leaf(s, cp, 0x20_0024) + 3.0 * Leaf(s, cp, 0x20_0103) + 7.0 * Leaf(s, cp, 0x100_0067) + 30.0 * Leaf(s, cp, 0x100_0146) + 30.0 * Leaf(s, cp, 0x100_0225) + 4.0 * Leaf(s, cp, 0x100_0304) + 20.0 * Leaf(s, cp, 0x100_1035) + 24.0 * Leaf(s, cp, 0x100_1114) + 3.0 * Leaf(s, cp, 0x100_2003) + 12.0 * Leaf(s, cp, 0x101_0024) + 6.0 * Leaf(s, cp, 0x101_0103) + 6.0 * Leaf(s, cp, 0x110_0013) + 1.0 * Leaf(s, cp, 0x200_0002) + 6.0 * Leaf(s, cp, 0x1000_0056) + 20.0 * Leaf(s, cp, 0x1000_0135) + 12.0 * Leaf(s, cp, 0x1000_0214) + 12.0 * Leaf(s, cp, 0x1000_1024) + 6.0 * Leaf(s, cp, 0x1000_1103) + 6.0 * Leaf(s, cp, 0x1001_0013) + 2.0 * Leaf(s, cp, 0x1010_0002) + 5.0 * Leaf(s, cp, 0x1_0000_0045) + 12.0 * Leaf(s, cp, 0x1_0000_0124) + 3.0 * Leaf(s, cp, 0x1_0000_0203) + 6.0 * Leaf(s, cp, 0x1_0000_1013) + 2.0 * Leaf(s, cp, 0x1_0001_0002) + 4.0 * Leaf(s, cp, 0x10_0000_0034) + 6.0 * Leaf(s, cp, 0x10_0000_0113) + 2.0 * Leaf(s, cp, 0x10_0000_1002) + 3.0 * Leaf(s, cp, 0x100_0000_0023) + 2.0 * Leaf(s, cp, 0x100_0000_0102) + 2.0 * Leaf(s, cp, 0x1000_0000_0012) + 1.0 * Leaf(s, cp, 0x1_0000_0000_0001)
  {
    assert Expand(s, cp, 0, 12, 0) == 0.0;
    Enumerated12From1(s, cp);
  }
  lemma Enumerated12(s: seq<real>, cp: seq<real>)
    requires |s| == 16 && |cp| == 16
    ensures Enumerated(s, cp, 12) == 1.0 * Leaf(s, cp, 0xcc) + 11.0 * Leaf(s, cp, 0x1ab) + 45.0 * Leaf(s, cp, 0x28a) + 84.0 * Leaf(s, cp, 0x369) + 70.0 * Leaf(s, cp, 0x448) + 21.0 * Leaf(s, cp, 0x527) + 1.0 * Leaf(s, cp, 0x606) + 10.0 * Leaf(s, cp, 0x109a) + 72.0 * Leaf(s, cp, 0x1179) + 168.0 * Leaf(s, cp, 0x1258) + 140.0 * Leaf(s, cp, 0x1337) + 30.0 * Leaf(s, cp, 0x1416) + 28.0 * Leaf(s, cp, 0x2068) + 105.0 * Leaf(s, cp, 0x2147) + 90.0 * Leaf(s, cp, 0x2226) + 10.0 * Leaf(s, cp, 0x2305) + 20.0 * Leaf(s, cp, 0x3036) + 20.0 * Leaf(s, cp, 0x3115) + 1.0 * Leaf(s, cp, 0x4004) + 9.0 * Leaf(s, cp, 0x1_0089) + 56.0 * Leaf(s, cp, 0x1_0168) + 105.0 * Leaf(s, cp, 0x1_0247) + 60.0 * Leaf(s, cp, 0x1_0326) + 5.0 * Leaf(s, cp, 0x1_0405) + 42.0 * Leaf(s, cp, 0x1_1057) + 120.0 * Leaf(s, cp, 0x1_1136) + 60.0 * Leaf(s, cp, 0x1_1215) + 30.0 * Leaf(s, cp, 0x1_2025) + 12.0 * Leaf(s, cp, 0x1_2104) + 15.0 * Leaf(s, cp, 0x2_0046) + 30.0 * Leaf(s, cp, 0x2_0125) + 6.0 * Leaf(s, cp, 0x2_0204) + 12.0 * Leaf(s, cp, 0x2_1014) + 1.0 * Leaf(s, cp, 0x3_0003) + 8.0 * Leaf(s, cp, 0x10_0078) + 42.0 * Leaf(s, cp, 0x10_0157) + 60.0 * Leaf(s, cp, 0x10_0236) + 20.0 * Leaf(s, cp, 0x10_0315) + 30.0 * Leaf(s, cp, 0x10_1046) + 60.0 * Leaf(s, cp, 0x10_1125) + 12.0 * Leaf(s, cp, 0x10_1204) + 12.0 * Leaf(s, cp, 0x10_2014) + 20.0 * Leaf(s, cp, 0x11_0035) + 24.0 * Leaf(s, cp, 0x11_0114) + 6.0 * Leaf(s, cp, 0x11_1003) + 6.0 * Leaf(s, cp, 0x20_0024) + 3.0 * Leaf(s, cp, 0x20_0103) + 7.0 * Leaf(s, cp, 0x100_0067) + 30.0 * Leaf(s, cp, 0x100_0146) + 30.0 * Leaf(s, cp, 0x100_0225) + 4.0 * Leaf(s, cp, 0x100_0304) + 20.0 * Leaf(s, cp, 0x100_1035) + 24.0 * Leaf(s, cp, 0x100_1114) + 3.0 * Leaf(s, cp, 0x100_2003) + 12.0 * Leaf(s, cp, 0x101_0024) + 6.0 * Leaf(s, cp, 0x101_0103) + 6.0 * Leaf(s, cp, 0x110_0013) + 1.0 * Leaf(s, cp, 0x200_0002) + 6.0 * Leaf(s, cp, 0x1000_0056) + 20.0 * Leaf(s, cp, 0x1000_0135) + 12.0 * Leaf(s, cp, 0x1000_0214) + 12.0 * Leaf(s, cp, 0x1000_1024) + 6.0 * Leaf(s, cp, 0x1000_1103) + 6.0 * Leaf(s, cp, 0x1001_0013) + 2.0 * Leaf(s, cp, 0x1010_0002) + 5.0 * Leaf(s, cp, 0x1_0000_0045) + 12.0 * Leaf(s, cp, 0x1_0000_0124) + 3.0 * Leaf(s, cp, 0x1_0000_0203) + 6.0 * Leaf(s, cp, 0x1_0000_1013) + 2.0 * Leaf(s, cp, 0x1_0001_0002) + 4.0 * Leaf(s, cp, 0x10_0000_0034) + 6.0 * Leaf(s, cp, 0x10_0000_0113) + 2.0 * Leaf(s, cp, 0x10_0000_1002) + 3.0 * Leaf(s, cp, 0x100_0000_0023) + 2.0 * Leaf(s, cp, 0x100_0000_0102) + 2.0 * Leaf(s, cp, 0x1000_0000_0012) + 1.0 * Leaf(s, cp, 0x1_0000_0000_0001)
  {
    Enumerated12From0(s, cp);
  }
  lemma Weight12Term1(s: seq<real>, cp: seq<real>)
    requires |s| == 16 && |cp| == 16
    ensures Leaf(s, cp, 0x1_1057) == s[7] * cp[1] * cp[1] * cp[1] * cp[1] * cp[1] * cp[3] * cp[4]
  {
    RadixTable();
    LeafBase(s, cp, 7);
    LeafStep(s, cp, 0x7, 1, 0x17);
    LeafStep(s, cp, 0x17, 1, 0x27);
    LeafStep(s, cp, 0x27, 1, 0x37);
    LeafStep(s, cp, 0x37, 1, 0x47);
    LeafStep(s, cp, 0x47, 1, 0x57);
    LeafStep(s, cp, 0x57, 3, 0x1057);
    LeafStep(s, cp, 0x1057, 4, 0x1_1057);
  }
  lemma Weight12Term2(s: seq<real>, cp: seq<real>)
    requires |s| == 16 && |cp| == 16
    ensures Leaf(s, cp, 0x1001_0013) == s[3] * cp[1] * cp[4] * cp[7]
  {
    RadixTable();
    LeafBase(s, cp, 3);
    LeafStep(s, cp, 0x3, 1, 0x13);
    LeafStep(s, cp, 0x13, 4, 0x1_0013);
    LeafStep(s, cp, 0x1_0013, 7, 0x1001_0013);
  }
  lemma Weight12Term3(s: seq<real>, cp: seq<real>)
    requires |s| == 16 && |cp| == 16
    ensures Leaf(s, cp, 0x2_1014) == s[4] * cp[1] * cp[3] * cp[4] * cp[4]
  {
    RadixTable();
    LeafBase(s, cp, 4);
    LeafStep(s, cp, 0x4, 1, 0x14);
    LeafStep(s, cp, 0x14, 3, 0x1014);
    LeafStep(s, cp, 0x1014, 4, 0x1_1014);
    LeafStep(s, cp, 0x1_1014, 4, 0x2_1014);
  }
  lemma Weight12Term4(s: seq<real>, cp: seq<real>)
    requires |s| == 16 && |cp| == 16
    ensures Leaf(s, cp, 0x20_0103) == s[3] * cp[2] * cp[5] * cp[5]
  {
    RadixTable();
    LeafBase(s, cp, 3);
    LeafStep(s, cp, 0x3, 2, 0x103);
    LeafStep(s, cp, 0x103, 5, 0x10_0103);
    LeafStep(s, cp, 0x10_0103, 5, 0x20_0103);
  }
  lemma Weight12Term5(s: seq<real>, cp: seq<real>)
    requires |s| == 16 && |cp| == 16
    ensures Leaf(s, cp, 0x10_1046) == s[6] * cp[1] * cp[1] * cp[1] * cp[1] * cp[3] * cp[5]
  {
    RadixTable();
    LeafBase(s, cp, 6);
    LeafStep(s, cp, 0x6, 1, 0x16);
    LeafStep(s, cp, 0x16, 1, 0x26);
    LeafStep(s, cp, 0x26, 1, 0x36);
    LeafStep(s, cp, 0x36, 1, 0x46);
    LeafStep(s, cp, 0x46, 3, 0x1046);
    LeafStep(s, cp, 0x1046, 5, 0x10_1046);
  }
  lemma Weight12Term6(s: seq<real>, cp: seq<real>)
    requires |s| == 16 && |cp| == 16
    ensures Leaf(s, cp, 0x1258) == s[8] * cp[1] * cp[1] * cp[1] * cp[1] * cp[1] * cp[2] * cp[2] * cp[3]
  {
    RadixTable();
    LeafBase(s, cp, 8);
    LeafStep(s, cp, 0x8, 1, 0x18);
    LeafStep(s, cp, 0x18, 1, 0x28);
    LeafStep(s, cp, 0x28, 1, 0x38);
    LeafStep(s, cp, 0x38, 1, 0x48);
    LeafStep(s, cp, 0x48, 1, 0x58);
    LeafStep(s, cp, 0x58, 2, 0x158);
    LeafStep(s, cp, 0x158, 2, 0x258);
    LeafStep(s, cp, 0x258, 3, 0x1258);
  }
  lemma Weight12Term7(s: seq<real>, cp: seq<real>)
    requires |s| == 16 && |cp| == 16
    ensures Leaf(s, cp, 0x200_0002) == s[2] * cp[6] * cp[6]
  {
    RadixTable();
    LeafBase(s, cp, 2);
    LeafStep(s, cp, 0x2, 6, 0x100_0002);
    LeafStep(s, cp, 0x100_0002, 6, 0x200_0002);
  }
  lemma Weight12Term8(s: seq<real>, cp: seq<real>)
    requires |s| == 16 && |cp| == 16
    ensures Leaf(s, cp, 0x10_0000_0113) == s[3] * cp[1] * cp[2] * cp[9]
  {
    RadixTable();
    LeafBase(s, cp, 3);
    LeafStep(s, cp, 0x3, 1, 0x13);
    LeafStep(s, cp, 0x13, 2, 0x113);
    LeafStep(s, cp, 0x113, 9, 0x10_0000_0113);
  }
  lemma Weight12Term9(s: seq<real>, cp: seq<real>)
    requires |s| == 16 && |cp| == 16
    ensures Leaf(s, cp, 0x1179) == s[9] * cp[1] * cp[1] * cp[1] * cp[1] * cp[1] * cp[1] * cp[1] * cp[2] * cp[3]
  {
    RadixTable();
    LeafBase(s, cp, 9);
    LeafStep(s, cp, 0x9, 1, 0x19);
    LeafStep(s, cp, 0x19, 1, 0x29);
    LeafStep(s, cp, 0x29, 1, 0x39);
    LeafStep(s, cp, 0x39, 1, 0x49);
    LeafStep(s, cp, 0x49, 1, 0x59);
    LeafStep(s, cp, 0x59, 1, 0x69);
    LeafStep(s, cp, 0x69, 1, 0x79);
    LeafStep(s, cp, 0x79, 2, 0x179);
    LeafStep(s, cp, 0x179, 3, 0x1179);
  }
  lemma Weight12Term10(s: seq<real>, cp: seq<real>)
    requires |s| == 16 && |cp| == 16
    ensures Leaf(s, cp, 0x1_0326) == s[6] * cp[1] * cp[1] * cp[2] * cp[2] * cp[2] * cp[4]
  {
    RadixTable();
    LeafBase(s, cp, 6);
    LeafStep(s, cp, 0x6, 1, 0x16);
    LeafStep(s, cp, 0x16, 1, 0x26);
    LeafStep(s, cp, 0x26, 2, 0x126);
    LeafStep(s, cp, 0x126, 2, 0x226);
    LeafStep(s, cp, 0x226, 2, 0x326);
    LeafStep(s, cp, 0x326, 4, 0x1_0326);
  }
  lemma Weight12Term11(s: seq<real>, cp: seq<real>)
    requires |s| == 16 && |cp| == 16
    ensures Leaf(s, cp, 0x1000_0056) == s[6] * cp[1] * cp[1] * cp[1] * cp[1] * cp[1] * cp[7]
  {
    RadixTable();
    LeafBase(s, cp, 6);
    LeafStep(s, cp, 0x6, 1, 0x16);
    LeafStep(s, cp, 0x16, 1, 0x26);
    LeafStep(s, cp, 0x26, 1, 0x36);
    LeafStep(s, cp, 0x36, 1, 0x46);
    LeafStep(s, cp, 0x46, 1, 0x56);
    LeafStep(s, cp, 0x56, 7, 0x1000_0056);
  }
  lemma Weight12Term12(s: seq<real>, cp: seq<real>)
    requires |s| == 16 && |cp| == 16
    ensures Leaf(s, cp, 0x527) == s[7] * cp[1] * cp[1] * cp[2] * cp[2] * cp[2] * cp[2] * cp[2]
  {
    RadixTable();
    LeafBase(s, cp, 7);
    LeafStep(s, cp, 0x7, 1, 0x17);
    LeafStep(s, cp, 0x17, 1, 0x27);
    LeafStep(s, cp, 0x27, 2, 0x127);
    LeafStep(s, cp, 0x127, 2, 0x227);
    LeafStep(s, cp, 0x227, 2, 0x327);
    LeafStep(s, cp, 0x327, 2, 0x427);
    LeafStep(s, cp, 0x427, 2, 0x527);
  }
  lemma Weight12Term13(s: seq<real>, cp: seq<real>)
    requires |s| == 16 && |cp| == 16
    ensures Leaf(s, cp, 0x1000_1103) == s[3] * cp[2] * cp[3] * cp[7]
  {
    RadixTable();
    LeafBase(s, cp, 3);
    LeafStep(s, cp, 0x3, 2, 0x103);
    LeafStep(s, cp, 0x103, 3, 0x1103);
    LeafStep(s, cp, 0x1103, 7, 0x1000_1103);
  }
  lemma Weight12Term14(s: seq<real>, cp: seq<real>)
    requires |s| == 16 && |cp| == 16
    ensures Leaf(s, cp, 0x10_0157) == s[7] * cp[1] * cp[1] * cp[1] * cp[1] * cp[1] * cp[2] * cp[5]
  {
    RadixTable();
    LeafBase(s, cp, 7);
    LeafStep(s, cp, 0x7, 1, 0x17);
    LeafStep(s, cp, 0x17, 1, 0x27);
    LeafStep(s, cp, 0x27, 1, 0x37);
    LeafStep(s, cp, 0x37, 1, 0x47);
    LeafStep(s, cp, 0x47, 1, 0x57);
    LeafStep(s, cp, 0x57, 2, 0x157);
    LeafStep(s, cp, 0x157, 5, 0x10_0157);
  }
  lemma Weight12Term15(s: seq<real>, cp: seq<real>)
    requires |s| == 16 && |cp| == 16
    ensures Leaf(s, cp, 0x1_1215) == s[5] * cp[1] * cp[2] * cp[2] * cp[3] * cp[4]
  {
    RadixTable();
    LeafBase(s, cp, 5);
    LeafStep(s, cp, 0x5, 1, 0x15);
    LeafStep(s, cp, 0x15, 2, 0x115);
    LeafStep(s, cp, 0x115, 2, 0x215);
    LeafStep(s, cp, 0x215, 3, 0x1215);
    LeafStep(s, cp, 0x1215, 4, 0x1_1215);
  }
  lemma Weight12Term16(s: seq<real>, cp: seq<real>)
    requires |s| == 16 && |cp| == 16
    ensures Leaf(s, cp, 0x100_2003) == s[3] * cp[3] * cp[3] * cp[6]
  {
    RadixTable();
    LeafBase(s, cp, 3);
    LeafStep(s, cp, 0x3, 3, 0x1003);
    LeafStep(s, cp, 0x1003, 3, 0x2003);
    LeafStep(s, cp, 0x2003, 6, 0x100_2003);
  }
  lemma Weight12Term17(s: seq<real>, cp: seq<real>)
    requires |s| == 16 && |cp| == 16
    ensures Leaf(s, cp, 0x3036) == s[6] * cp[1] * cp[1] * cp[1] * cp[3] * cp[3] * cp[3]
  {
    RadixTable();
    LeafBase(s, cp, 6);
    LeafStep(s, cp, 0x6, 1, 0x16);
    LeafStep(s, cp, 0x16, 1, 0x26);
    LeafStep(s, cp, 0x26, 1, 0x36);
    LeafStep(s, cp, 0x36, 3, 0x1036);
    LeafStep(s, cp, 0x1036, 3, 0x2036);
    LeafStep(s, cp, 0x2036, 3, 0x3036);
  }
  lemma Weight12Term18(s: seq<real>, cp: seq<real>)
    requires |s| == 16 && |cp| == 16
    ensures Leaf(s, cp, 0x2305) == s[5] * cp[2] * cp[2] * cp[2] * cp[3] * cp[3]
  {
    RadixTable();
    LeafBase(s, cp, 5);
    LeafStep(s, cp, 0x5, 2, 0x105);
    LeafStep(s, cp, 0x105, 2, 0x205);
    LeafStep(s, cp, 0x205, 2, 0x305);
    LeafStep(s, cp, 0x305, 3, 0x1305);
    LeafStep(s, cp, 0x1305, 3, 0x2305);
  }
  lemma Weight12Term19(s: seq<real>, cp: seq<real>)
    requires |s| == 16 && |cp| == 16
    ensures Leaf(s, cp, 0x10_0236) == s[6] * cp[1] * cp[1] * cp[1] * cp[2] * cp[2] * cp[5]
  {
    RadixTable();
    LeafBase(s, cp, 6);
    LeafStep(s, cp, 0x6, 1, 0x16);
    LeafStep(s, cp, 0x16, 1, 0x26);
    LeafStep(s, cp, 0x26, 1, 0x36);
    LeafStep(s, cp, 0x36, 2, 0x136);
    LeafStep(s, cp, 0x136, 2, 0x236);
    LeafStep(s, cp, 0x236, 5, 0x10_0236);
  }
  lemma Weight12Term20(s: seq<real>, cp: seq<real>)
    requires |s| == 16 && |cp| == 16
    ensures Leaf(s, cp, 0x3_0003) == s[3] * cp[4] * cp[4] * cp[4]
  {
    RadixTable();
    LeafBase(s, cp, 3);
    LeafStep(s, cp, 0x3, 4, 0x1_0003);
    LeafStep(s, cp, 0x1_0003, 4, 0x2_0003);
    LeafStep(s, cp, 0x2_0003, 4, 0x3_0003);
  }
  lemma Weight12Term21(s: seq<real>, cp: seq<real>)
    requires |s| == 16 && |cp| == 16
    ensures Leaf(s, cp, 0x4004) == s[4] * cp[3] * cp[3] * cp[3] * cp[3]
  {
    RadixTable();
    LeafBase(s, cp, 4);
    LeafStep(s, cp, 0x4, 3, 0x1004);
    LeafStep(s, cp, 0x1004, 3, 0x2004);
    LeafStep(s, cp, 0x2004, 3, 0x3004);
    LeafStep(s, cp, 0x3004, 3, 0x4004);
  }
  lemma Weight12Term22(s: seq<real>, cp: seq<real>)
    requires |s| == 16 && |cp| == 16
    ensures Leaf(s, cp, 0x2147) == s[7] * cp[1] * cp[1] * cp[1] * cp[1] * cp[2] * cp[3] * cp[3]
  {
    RadixTable();
    LeafBase(s, cp, 7);
    LeafStep(s, cp, 0x7, 1, 0x17);
    LeafStep(s, cp, 0x17, 1, 0x27);
    LeafStep(s, cp, 0x27, 1, 0x37);
    LeafStep(s, cp, 0x37, 1, 0x47);
    LeafStep(s, cp, 0x47, 2, 0x147);
    LeafStep(s, cp, 0x147, 3, 0x1147);
    LeafStep(s, cp, 0x1147, 3, 0x2147);
  }
  lemma Weight12Term23(s: seq<real>, cp: seq<real>)
    requires |s| == 16 && |cp| == 16
    ensures Leaf(s, cp, 0x10_1204) == s[4] * cp[2] * cp[2] * cp[3] * cp[5]
  {
    RadixTable();
    LeafBase(s, cp, 4);
    LeafStep(s, cp, 0x4, 2, 0x104);
    LeafStep(s, cp, 0x104, 2, 0x204);
    LeafStep(s, cp, 0x204, 3, 0x1204);
    LeafStep(s, cp, 0x1204, 5, 0x10_1204);
  }
  lemma Weight12Term24(s: seq<real>, cp: seq<real>)
    requires |s| == 16 && |cp| == 16
    ensures Leaf(s, cp, 0x1000_0000_0012) == s[2] * cp[1] * cp[11]
  {
    RadixTable();
    LeafBase(s, cp, 2);
    LeafStep(s, cp, 0x2, 1, 0x12);
    LeafStep(s, cp, 0x12, 11, 0x1000_0000_0012);
  }
  lemma Weight12Term25(s: seq<real>, cp: seq<real>)
    requires |s| == 16 && |cp| == 16
    ensures Leaf(s, cp, 0x109a) == s[10] * cp[1] * cp[1] * cp[1] * cp[1] * cp[1] * cp[1] * cp[1] * cp[1] * cp[1] * cp[3]
  {
    RadixTable();
    LeafBase(s, cp, 10);
    LeafStep(s, cp, 0xa, 1, 0x1a);
    LeafStep(s, cp, 0x1a, 1, 0x2a);
    LeafStep(s, cp, 0x2a, 1, 0x3a);
    LeafStep(s, cp, 0x3a, 1, 0x4a);
    LeafStep(s, cp, 0x4a, 1, 0x5a);
    LeafStep(s, cp, 0x5a, 1, 0x6a);
    LeafStep(s, cp, 0x6a, 1, 0x7a);
    LeafStep(s, cp, 0x7a, 1, 0x8a);
    LeafStep(s, cp, 0x8a, 1, 0x9a);
    LeafStep(s, cp, 0x9a, 3, 0x109a);
  }
  lemma Weight12Term26(s: seq<real>, cp: seq<real>)
    requires |s| == 16 && |cp| == 16
    ensures Leaf(s, cp, 0x448) == s[8] * cp[1] * cp[1] * cp[1] * cp[1] * cp[2] * cp[2] * cp[2] * cp[2]
  {
    RadixTable();
    LeafBase(s, cp, 8);
    LeafStep(s, cp, 0x8, 1, 0x18);
    LeafStep(s, cp, 0x18, 1, 0x28);
    LeafStep(s, cp, 0x28, 1, 0x38);
    LeafStep(s, cp, 0x38, 1, 0x48);
    LeafStep(s, cp, 0x48, 2, 0x148);
    LeafStep(s, cp, 0x148, 2, 0x248);
    LeafStep(s, cp, 0x248, 2, 0x348);
    LeafStep(s, cp, 0x348, 2, 0x448);
  }
  lemma Weight12Term27(s: seq<real>, cp: seq<real>)
    requires |s| == 16 && |cp| == 16
    ensures Leaf(s, cp, 0x11_0035) == s[5] * cp[1] * cp[1] * cp[1] * cp[4] * cp[5]
  {
    RadixTable();
    LeafBase(s, cp, 5);
    LeafStep(s, cp, 0x5, 1, 0x15);
    LeafStep(s, cp, 0x15, 1, 0x25);
    LeafStep(s, cp, 0x25, 1, 0x35);
    LeafStep(s, cp, 0x35, 4, 0x1_0035);
    LeafStep(s, cp, 0x1_0035, 5, 0x11_0035);
  }
  lemma Weight12Term28(s: seq<real>, cp: seq<real>)
    requires |s| == 16 && |cp| == 16
    ensures Leaf(s, cp, 0x1_0001_0002) == s[2] * cp[4] * cp[8]
  {
    RadixTable();
    LeafBase(s, cp, 2);
    LeafStep(s, cp, 0x2, 4, 0x1_0002);
    LeafStep(s, cp, 0x1_0002, 8, 0x1_0001_0002);
  }
  lemma Weight12Term29(s: seq<real>, cp: seq<real>)
    requires |s| == 16 && |cp| == 16
    ensures Leaf(s, cp, 0x100_0146) == s[6] * cp[1] * cp[1] * cp[1] * cp[1] * cp[2] * cp[6]
  {
    RadixTable();
    LeafBase(s, cp, 6);
    LeafStep(s, cp, 0x6, 1, 0x16);
    LeafStep(s, cp, 0x16, 1, 0x26);
    LeafStep(s, cp, 0x26, 1, 0x36);
    LeafStep(s, cp, 0x36, 1, 0x46);
    LeafStep(s, cp, 0x46, 2, 0x146);
    LeafStep(s, cp, 0x146, 6, 0x100_0146);
  }
  lemma Weight12Term30(s: seq<real>, cp: seq<real>)
    requires |s| == 16 && |cp| == 16
    ensures Leaf(s, cp, 0x1337) == s[7] * cp[1] * cp[1] * cp[1] * cp[2] * cp[2] * cp[2] * cp[3]
  {
    RadixTable();
    LeafBase(s, cp, 7);
    LeafStep(s, cp, 0x7, 1, 0x17);
    LeafStep(s, cp, 0x17, 1, 0x27);
    LeafStep(s, cp, 0x27, 1, 0x37);
    LeafStep(s, cp, 0x37, 2, 0x137);
    LeafStep(s, cp, 0x137, 2, 0x237);
    LeafStep(s, cp, 0x237, 2, 0x337);
    LeafStep(s, cp, 0x337, 3, 0x1337);
  }
  lemma Weight12Term31(s: seq<real>, cp: seq<real>)
    requires |s| == 16 && |cp| == 16
    ensures Leaf(s, cp, 0x100_0304) == s[4] * cp[2] * cp[2] * cp[2] * cp[6]
  {
    RadixTable();
    LeafBase(s, cp, 4);
    LeafStep(s, cp, 0x4, 2, 0x104);
    LeafStep(s, cp, 0x104, 2, 0x204);
    LeafStep(s, cp, 0x204, 2, 0x304);
    LeafStep(s, cp, 0x304, 6, 0x100_0304);
  }
  lemma Weight12Term32(s: seq<real>, cp: seq<real>)
    requires |s| == 16 && |cp| == 16
    ensures Leaf(s, cp, 0x2068) == s[8] * cp[1] * cp[1] * cp[1] * cp[1] * cp[1] * cp[1] * cp[3] * cp[3]
  {
    RadixTable();
    LeafBase(s, cp, 8);
    LeafStep(s, cp, 0x8, 1, 0x18);
    LeafStep(s, cp, 0x18, 1, 0x28);
    LeafStep(s, cp, 0x28, 1, 0x38);
    LeafStep(s, cp, 0x38, 1, 0x48);
    LeafStep(s, cp, 0x48, 1, 0x58);
    LeafStep(s, cp, 0x58, 1, 0x68);
    LeafStep(s, cp, 0x68, 3, 0x1068);
    LeafStep(s, cp, 0x1068, 3, 0x2068);
  }
  lemma Weight12Term33(s: seq<real>, cp: seq<real>)
    requires |s| == 16 && |cp| == 16
    ensures Leaf(s, cp, 0x2_0046) == s[6] * cp[1] * cp[1] * cp[1] * cp[1] * cp[4] * cp[4]
  {
    RadixTable();
    LeafBase(s, cp, 6);
    LeafStep(s, cp, 0x6, 1, 0x16);
    LeafStep(s, cp, 0x16, 1, 0x26);
    LeafStep(s, cp, 0x26, 1, 0x36);
    LeafStep(s, cp, 0x36, 1, 0x46);
    LeafStep(s, cp, 0x46, 4, 0x1_0046);
    LeafStep(s, cp, 0x1_0046, 4, 0x2_0046);
  }
  lemma Weight12Term34(s: seq<real>, cp: seq<real>)
    requires |s| == 16 && |cp| == 16
    ensures Leaf(s, cp, 0x28a) == s[10] * cp[1] * cp[1] * cp[1] * cp[1] * cp[1] * cp[1] * cp[1] * cp[1] * cp[2] * cp[2]
  {
    RadixTable();
    LeafBase(s, cp, 10);
    LeafStep(s, cp, 0xa, 1, 0x1a);
    LeafStep(s, cp, 0x1a, 1, 0x2a);
    LeafStep(s, cp, 0x2a, 1, 0x3a);
    LeafStep(s, cp, 0x3a, 1, 0x4a);
    LeafStep(s, cp, 0x4a, 1, 0x5a);
    LeafStep(s, cp, 0x5a, 1, 0x6a);
    LeafStep(s, cp, 0x6a, 1, 0x7a);
    LeafStep(s, cp, 0x7a, 1, 0x8a);
    LeafStep(s, cp, 0x8a, 2, 0x18a);
    LeafStep(s, cp, 0x18a, 2, 0x28a);
  }
  lemma Weight12Term35(s: seq<real>, cp: seq<real>)
    requires |s| == 16 && |cp| == 16
    ensures Leaf(s, cp, 0x1_0000_0203) == s[3] * cp[2] * cp[2] * cp[8]
  {
    RadixTable();
    LeafBase(s, cp, 3);
    LeafStep(s, cp, 0x3, 2, 0x103);
    LeafStep(s, cp, 0x103, 2, 0x203);
    LeafStep(s, cp, 0x203, 8, 0x1_0000_0203);
  }
  lemma Weight12Term36(s: seq<real>, cp: seq<real>)
    requires |s| == 16 && |cp| == 16
    ensures Leaf(s, cp, 0x1_0168) == s[8] * cp[1] * cp[1] * cp[1] * cp[1] * cp[1] * cp[1] * cp[2] * cp[4]
  {
    RadixTable();
    LeafBase(s, cp, 8);
    LeafStep(s, cp, 0x8, 1, 0x18);
    LeafStep(s, cp, 0x18, 1, 0x28);
    LeafStep(s, cp, 0x28, 1, 0x38);
    LeafStep(s, cp, 0x38, 1, 0x48);
    LeafStep(s, cp, 0x48, 1, 0x58);
    LeafStep(s, cp, 0x58, 1, 0x68);
    LeafStep(s, cp, 0x68, 2, 0x168);
    LeafStep(s, cp, 0x168, 4, 0x1_0168);
  }
  lemma Weight12Term37(s: seq<real>, cp: seq<real>)
    requires |s| == 16 && |cp| == 16
    ensures Leaf(s, cp, 0x606) == s[6] * cp[2] * cp[2] * cp[2] * cp[2] * cp[2] * cp[2]
  {
    RadixTable();
    LeafBase(s, cp, 6);
    LeafStep(s, cp, 0x6, 2, 0x106);
    LeafStep(s, cp, 0x106, 2, 0x206);
    LeafStep(s, cp, 0x206, 2, 0x306);
    LeafStep(s, cp, 0x306, 2, 0x406);
    LeafStep(s, cp, 0x406, 2, 0x506);
    LeafStep(s, cp, 0x506, 2, 0x606);
  }
  lemma Weight12Term38(s: seq<real>, cp: seq<real>)
    requires |s| == 16 && |cp| == 16
    ensures Leaf(s, cp, 0x101_0024) == s[4] * cp[1] * cp[1] * cp[4] * cp[6]
  {
    RadixTable();
    LeafBase(s, cp, 4);
    LeafStep(s, cp, 0x4, 1, 0x14);
    LeafStep(s, cp, 0x14, 1, 0x24);
    LeafStep(s, cp, 0x24, 4, 0x1_0024);
    LeafStep(s, cp, 0x1_0024, 6, 0x101_0024);
  }
  lemma Weight12Term39(s: seq<real>, cp: seq<real>)
    requires |s| == 16 && |cp| == 16
    ensures Leaf(s, cp, 0x1_0000_0124) == s[4] * cp[1] * cp[1] * cp[2] * cp[8]
  {
    RadixTable();
    LeafBase(s, cp, 4);
    LeafStep(s, cp, 0x4, 1, 0x14);
    LeafStep(s, cp, 0x14, 1, 0x24);
    LeafStep(s, cp, 0x24, 2, 0x124);
    LeafStep(s, cp, 0x124, 8, 0x1_0000_0124);
  }
  lemma Weight12Term40(s: seq<real>, cp: seq<real>)
    requires |s| == 16 && |cp| == 16
    ensures Leaf(s, cp, 0x2_0125) == s[5] * cp[1] * cp[1] * cp[2] * cp[4] * cp[4]
  {
    RadixTable();
    LeafBase(s, cp, 5);
    LeafStep(s, cp, 0x5, 1, 0x15);
    LeafStep(s, cp, 0x15, 1, 0x25);
    LeafStep(s, cp, 0x25, 2, 0x125);
    LeafStep(s, cp, 0x125, 4, 0x1_0125);
    LeafStep(s, cp, 0x1_0125, 4, 0x2_0125);
  }
  lemma Weight12Term41(s: seq<real>, cp: seq<real>)
    requires |s| == 16 && |cp| == 16
    ensures Leaf(s, cp, 0x1000_0214) == s[4] * cp[1] * cp[2] * cp[2] * cp[7]
  {
    RadixTable();
    LeafBase(s, cp, 4);
    LeafStep(s, cp, 0x4, 1, 0x14);
    LeafStep(s, cp, 0x14, 2, 0x114);
    LeafStep(s, cp, 0x114, 2, 0x214);
    LeafStep(s, cp, 0x214, 7, 0x1000_0214);
  }
  lemma Weight12Term42(s: seq<real>, cp: seq<real>)
    requires |s| == 16 && |cp| == 16
    ensures Leaf(s, cp, 0x101_0103) == s[3] * cp[2] * cp[4] * cp[6]
  {
    RadixTable();
    LeafBase(s, cp, 3);
    LeafStep(s, cp, 0x3, 2, 0x103);
    LeafStep(s, cp, 0x103, 4, 0x1_0103);
    LeafStep(s, cp, 0x1_0103, 6, 0x101_0103);
  }
  lemma Weight12Term43(s: seq<real>, cp: seq<real>)
    requires |s| == 16 && |cp| == 16
    ensures Leaf(s, cp, 0x1_0089) == s[9] * cp[1] * cp[1] * cp[1] * cp[1] * cp[1] * cp[1] * cp[1] * cp[1] * cp[4]
  {
    RadixTable();
    LeafBase(s, cp, 9);
    LeafStep(s, cp, 0x9, 1, 0x19);
    LeafStep(s, cp, 0x19, 1, 0x29);
    LeafStep(s, cp, 0x29, 1, 0x39);
    LeafStep(s, cp, 0x39, 1, 0x49);
    LeafStep(s, cp, 0x49, 1, 0x59);
    LeafStep(s, cp, 0x59, 1, 0x69);
    LeafStep(s, cp, 0x69, 1, 0x79);
    LeafStep(s, cp, 0x79, 1, 0x89);
    LeafStep(s, cp, 0x89, 4, 0x1_0089);
  }
  lemma Weight12Term44(s: seq<real>, cp: seq<real>)
    requires |s| == 16 && |cp| == 16
    ensures Leaf(s, cp, 0x10_0315) == s[5] * cp[1] * cp[2] * cp[2] * cp[2] * cp[5]
  {
    RadixTable();
    LeafBase(s, cp, 5);
    LeafStep(s, cp, 0x5, 1, 0x15);
    LeafStep(s, cp, 0x15, 2, 0x115);
    LeafStep(s, cp, 0x115, 2, 0x215);
    LeafStep(s, cp, 0x215, 2, 0x315);
    LeafStep(s, cp, 0x315, 5, 0x10_0315);
  }
  lemma Weight12Term45(s: seq<real>, cp: seq<real>)
    requires |s| == 16 && |cp| == 16
    ensures Leaf(s, cp, 0x2226) == s[6] * cp[1] * cp[1] * cp[2] * cp[2] * cp[3] * cp[3]
  {
    RadixTable();
    LeafBase(s, cp, 6);
    LeafStep(s, cp, 0x6, 1, 0x16);
    LeafStep(s, cp, 0x16, 1, 0x26);
    LeafStep(s, cp, 0x26, 2, 0x126);
    LeafStep(s, cp, 0x126, 2, 0x226);
    LeafStep(s, cp, 0x226, 3, 0x1226);
    LeafStep(s, cp, 0x1226, 3, 0x2226);
  }
  lemma Weight12Term46(s: seq<real>, cp: seq<real>)
    requires |s| == 16 && |cp| == 16
    ensures Leaf(s, cp, 0x1_0000_1013) == s[3] * cp[1] * cp[3] * cp[8]
  {
    RadixTable();
    LeafBase(s, cp, 3);
    LeafStep(s, cp, 0x3, 1, 0x13);
    LeafStep(s, cp, 0x13, 3, 0x1013);
    LeafStep(s, cp, 0x1013, 8, 0x1_0000_1013);
  }
  lemma Weight12Term47(s: seq<real>, cp: seq<real>)
    requires |s| == 16 && |cp| == 16
    ensures Leaf(s, cp, 0x100_0000_0023) == s[3] * cp[1] * cp[1] * cp[10]
  {
    RadixTable();
    LeafBase(s, cp, 3);
    LeafStep(s, cp, 0x3, 1, 0x13);
    LeafStep(s, cp, 0x13, 1, 0x23);
    LeafStep(s, cp, 0x23, 10, 0x100_0000_0023);
  }
  lemma Weight12Term48(s: seq<real>, cp: seq<real>)
    requires |s| == 16 && |cp| == 16
    ensures Leaf(s, cp, 0x100_0067) == s[7] * cp[1] * cp[1] * cp[1] * cp[1] * cp[1] * cp[1] * cp[6]
  {
    RadixTable();
    LeafBase(s, cp, 7);
    LeafStep(s, cp, 0x7, 1, 0x17);
    LeafStep(s, cp, 0x17, 1, 0x27);
    LeafStep(s, cp, 0x27, 1, 0x37);
    LeafStep(s, cp, 0x37, 1, 0x47);
    LeafStep(s, cp, 0x47, 1, 0x57);
    LeafStep(s, cp, 0x57, 1, 0x67);
    LeafStep(s, cp, 0x67, 6, 0x100_0067);
  }
  lemma Weight12Term49(s: seq<real>, cp: seq<real>)
    requires |s| == 16 && |cp| == 16
    ensures Leaf(s, cp, 0x100_0000_0102) == s[2] * cp[2] * cp[10]
  {
    RadixTable();
    LeafBase(s, cp, 2);
    LeafStep(s, cp, 0x2, 2, 0x102);
    LeafStep(s, cp, 0x102, 10, 0x100_0000_0102);
  }
  lemma Weight12Term50(s: seq<real>, cp: seq<real>)
    requires |s| == 16 && |cp| == 16
    ensures Leaf(s, cp, 0x100_1114) == s[4] * cp[1] * cp[2] * cp[3] * cp[6]
  {
    RadixTable();
    LeafBase(s, cp, 4);
    LeafStep(s, cp, 0x4, 1, 0x14);
    LeafStep(s, cp, 0x14, 2, 0x114);
    LeafStep(s, cp, 0x114, 3, 0x1114);
    LeafStep(s, cp, 0x1114, 6, 0x100_1114);
  }
  lemma Weight12Term51(s: seq<real>, cp: seq<real>)
    requires |s| == 16 && |cp| == 16
    ensures Leaf(s, cp, 0x10_0000_1002) == s[2] * cp[3] * cp[9]
  {
    RadixTable();
    LeafBase(s, cp, 2);
    LeafStep(s, cp, 0x2, 3, 0x1002);
    LeafStep(s, cp, 0x1002, 9, 0x10_0000_1002);
  }
  lemma Weight12Term52(s: seq<real>, cp: seq<real>)
    requires |s| == 16 && |cp| == 16
    ensures Leaf(s, cp, 0x10_0000_0034) == s[4] * cp[1] * cp[1] * cp[1] * cp[9]
  {
    RadixTable();
    LeafBase(s, cp, 4);
    LeafStep(s, cp, 0x4, 1, 0x14);
    LeafStep(s, cp, 0x14, 1, 0x24);
    LeafStep(s, cp, 0x24, 1, 0x34);
    LeafStep(s, cp, 0x34, 9, 0x10_0000_0034);
  }
  lemma Weight12Term53(s: seq<real>, cp: seq<real>)
    requires |s| == 16 && |cp| == 16
    ensures Leaf(s, cp, 0x1_0000_0000_0001) == s[1] * cp[12]
  {
    RadixTable();
    LeafBase(s, cp, 1);
    LeafStep(s, cp, 0x1, 12, 0x1_0000_0000_0001);
  }
  lemma Weight12Term54(s: seq<real>, cp: seq<real>)
    requires |s| == 16 && |cp| == 16
    ensures Leaf(s, cp, 0x369) == s[9] * cp[1] * cp[1] * cp[1] * cp[1] * cp[1] * cp[1] * cp[2] * cp[2] * cp[2]
  {
    RadixTable();
    LeafBase(s, cp, 9);
    LeafStep(s, cp, 0x9, 1, 0x19);
    LeafStep(s, cp, 0x19, 1, 0x29);
    LeafStep(s, cp, 0x29, 1, 0x39);
    LeafStep(s, cp, 0x39, 1, 0x49);
    LeafStep(s, cp, 0x49, 1, 0x59);
    LeafStep(s, cp, 0x59, 1, 0x69);
    LeafStep(s, cp, 0x69, 2, 0x169);
    LeafStep(s, cp, 0x169, 2, 0x269);
    LeafStep(s, cp, 0x269, 2, 0x369);
  }
  lemma Weight12Term55(s: seq<real>, cp: seq<real>)
    requires |s| == 16 && |cp| == 16
    ensures Leaf(s, cp, 0x1_2104) == s[4] * cp[2] * cp[3] * cp[3] * cp[4]
  {
    RadixTable();
    LeafBase(s, cp, 4);
    LeafStep(s, cp, 0x4, 2, 0x104);
    LeafStep(s, cp, 0x104, 3, 0x1104);
    LeafStep(s, cp, 0x1104, 3, 0x2104);
    LeafStep(s, cp, 0x2104, 4, 0x1_2104);
  }
  lemma Weight12Term56(s: seq<real>, cp: seq<real>)
    requires |s| == 16 && |cp| == 16
    ensures Leaf(s, cp, 0x2_0204) == s[4] * cp[2] * cp[2] * cp[4] * cp[4]
  {
    RadixTable();
    LeafBase(s, cp, 4);
    LeafStep(s, cp, 0x4, 2, 0x104);
    LeafStep(s, cp, 0x104, 2, 0x204);
    LeafStep(s, cp, 0x204, 4, 0x1_0204);
    LeafStep(s, cp, 0x1_0204, 4, 0x2_0204);
  }
  lemma Weight12Term57(s: seq<real>, cp: seq<real>)
    requires |s| == 16 && |cp| == 16
    ensures Leaf(s, cp, 0x1000_0135) == s[5] * cp[1] * cp[1] * cp[1] * cp[2] * cp[7]
  {
    RadixTable();
    LeafBase(s, cp, 5);
    LeafStep(s, cp, 0x5, 1, 0x15);
    LeafStep(s, cp, 0x15, 1, 0x25);
    LeafStep(s, cp, 0x25, 1, 0x35);
    LeafStep(s, cp, 0x35, 2, 0x135);
    LeafStep(s, cp, 0x135, 7, 0x1000_0135);
  }
  lemma Weight12Term58(s: seq<real>, cp: seq<real>)
    requires |s| == 16 && |cp| == 16
    ensures Leaf(s, cp, 0xcc) == s[12] * cp[1] * cp[1] * cp[1] * cp[1] * cp[1] * cp[1] * cp[1] * cp[1] * cp[1] * cp[1] * cp[1] * cp[1]
  {
    RadixTable();
    LeafBase(s, cp, 12);
    LeafStep(s, cp, 0xc, 1, 0x1c);
    LeafStep(s, cp, 0x1c, 1, 0x2c);
    LeafStep(s, cp, 0x2c, 1, 0x3c);
    LeafStep(s, cp, 0x3c, 1, 0x4c);
    LeafStep(s, cp, 0x4c, 1, 0x5c);
    LeafStep(s, cp, 0x5c, 1, 0x6c);
    LeafStep(s, cp, 0x6c, 1, 0x7c);
    LeafStep(s, cp, 0x7c, 1, 0x8c);
    LeafStep(s, cp, 0x8c, 1, 0x9c);
    LeafStep(s, cp, 0x9c, 1, 0xac);
    LeafStep(s, cp, 0xac, 1, 0xbc);
    LeafStep(s, cp, 0xbc, 1, 0xcc);
  }
  lemma Weight12Term59(s: seq<real>, cp: seq<real>)
    requires |s| == 16 && |cp| == 16
    ensures Leaf(s, cp, 0x100_1035) == s[5] * cp[1] * cp[1] * cp[1] * cp[3] * cp[6]
  {
    RadixTable();
    LeafBase(s, cp, 5);
    LeafStep(s, cp, 0x5, 1, 0x15);
    LeafStep(s, cp, 0x15, 1, 0x25);
    LeafStep(s, cp, 0x25, 1, 0x35);
    LeafStep(s, cp, 0x35, 3, 0x1035);
    LeafStep(s, cp, 0x1035, 6, 0x100_1035);
  }
  lemma Weight12Term60(s: seq<real>, cp: seq<real>)
    requires |s| == 16 && |cp| == 16
    ensures Leaf(s, cp, 0x100_0225) == s[5] * cp[1] * cp[1] * cp[2] * cp[2] * cp[6]
  {
    RadixTable();
    LeafBase(s, cp, 5);
    LeafStep(s, cp, 0x5, 1, 0x15);
    LeafStep(s, cp, 0x15, 1, 0x25);
    LeafStep(s, cp, 0x25, 2, 0x125);
    LeafStep(s, cp, 0x125, 2, 0x225);
    LeafStep(s, cp, 0x225, 6, 0x100_0225);
  }
  lemma Weight12Term61(s: seq<real>, cp: seq<real>)
    requires |s| == 16 && |cp| == 16
    ensures Leaf(s, cp, 0x10_0078) == s[8] * cp[1] * cp[1] * cp[1] * cp[1] * cp[1] * cp[1] * cp[1] * cp[5]
  {
    RadixTable();
    LeafBase(s, cp, 8);
    LeafStep(s, cp, 0x8, 1, 0x18);
    LeafStep(s, cp, 0x18, 1, 0x28);
    LeafStep(s, cp, 0x28, 1, 0x38);
    LeafStep(s, cp, 0x38, 1, 0x48);
    LeafStep(s, cp, 0x48, 1, 0x58);
    LeafStep(s, cp, 0x58, 1, 0x68);
    LeafStep(s, cp, 0x68, 1, 0x78);
    LeafStep(s, cp, 0x78, 5, 0x10_0078);
  }
  lemma Weight12Term62(s: seq<real>, cp: seq<real>)
    requires |s| == 16 && |cp| == 16
    ensures Leaf(s, cp, 0x10_1125) == s[5] * cp[1] * cp[1] * cp[2] * cp[3] * cp[5]
  {
    RadixTable();
    LeafBase(s, cp, 5);
    LeafStep(s, cp, 0x5, 1, 0x15);
    LeafStep(s, cp, 0x15, 1, 0x25);
    LeafStep(s, cp, 0x25, 2, 0x125);
    LeafStep(s, cp, 0x125, 3, 0x1125);
    LeafStep(s, cp, 0x1125, 5, 0x10_1125);
  }
  lemma Weight12Term63(s: seq<real>, cp: seq<real>)
    requires |s| == 16 && |cp| == 16
    ensures Leaf(s, cp, 0x1000_1024) == s[4] * cp[1] * cp[1] * cp[3] * cp[7]
  {
    RadixTable();
    LeafBase(s, cp, 4);
    LeafStep(s, cp, 0x4, 1, 0x14);
    LeafStep(s, cp, 0x14, 1, 0x24);
    LeafStep(s, cp, 0x24, 3, 0x1024);
    LeafStep(s, cp, 0x1024, 7, 0x1000_1024);
  }
  lemma Weight12Term64(s: seq<real>, cp: seq<real>)
    requires |s| == 16 && |cp| == 16
    ensures Leaf(s, cp, 0x3115) == s[5] * cp[1] * cp[2] * cp[3] * cp[3] * cp[3]
  {
    RadixTable();
    LeafBase(s, cp, 5);
    LeafStep(s, cp, 0x5, 1, 0x15);
    LeafStep(s, cp, 0x15, 2, 0x115);
    LeafStep(s, cp, 0x115, 3, 0x1115);
    LeafStep(s, cp, 0x1115, 3, 0x2115);
    LeafStep(s, cp, 0x2115, 3, 0x3115);
  }
  lemma Weight12Term65(s: seq<real>, cp: seq<real>)
    requires |s| == 16 && |cp| == 16
    ensures Leaf(s, cp, 0x1010_0002) == s[2] * cp[5] * cp[7]
  {
    RadixTable();
    LeafBase(s, cp, 2);
    LeafStep(s, cp, 0x2, 5, 0x10_0002);
    LeafStep(s, cp, 0x10_0002, 7, 0x1010_0002);
  }
  lemma Weight12Term66(s: seq<real>, cp: seq<real>)
    requires |s| == 16 && |cp| == 16
    ensures Leaf(s, cp, 0x1_0405) == s[5] * cp[2] * cp[2] * cp[2] * cp[2] * cp[4]
  {
    RadixTable();
    LeafBase(s, cp, 5);
    LeafStep(s, cp, 0x5, 2, 0x105);
    LeafStep(s, cp, 0x105, 2, 0x205);
    LeafStep(s, cp, 0x205, 2, 0x305);
    LeafStep(s, cp, 0x305, 2, 0x405);
    LeafStep(s, cp, 0x405, 4, 0x1_0405);
  }
  lemma Weight12Term67(s: seq<real>, cp: seq<real>)
    requires |s| == 16 && |cp| == 16
    ensures Leaf(s, cp, 0x110_0013) == s[3] * cp[1] * cp[5] * cp[6]
  {
    RadixTable();
    LeafBase(s, cp, 3);
    LeafStep(s, cp, 0x3, 1, 0x13);
    LeafStep(s, cp, 0x13, 5, 0x10_0013);
    LeafStep(s, cp, 0x10_0013, 6, 0x110_0013);
  }
  lemma Weight12Term68(s: seq<real>, cp: seq<real>)
    requires |s| == 16 && |cp| == 16
    ensures Leaf(s, cp, 0x10_2014) == s[4] * cp[1] * cp[3] * cp[3] * cp[5]
  {
    RadixTable();
    LeafBase(s, cp, 4);
    LeafStep(s, cp, 0x4, 1, 0x14);
    LeafStep(s, cp, 0x14, 3, 0x1014);
    LeafStep(s, cp, 0x1014, 3, 0x2014);
    LeafStep(s, cp, 0x2014, 5, 0x10_2014);
  }
  lemma Weight12Term69(s: seq<real>, cp: seq<real>)
    requires |s| == 16 && |cp| == 16
    ensures Leaf(s, cp, 0x1_0247) == s[7] * cp[1] * cp[1] * cp[1] * cp[1] * cp[2] * cp[2] * cp[4]
  {
    RadixTable();
    LeafBase(s, cp, 7);
    LeafStep(s, cp, 0x7, 1, 0x17);
    LeafStep(s, cp, 0x17, 1, 0x27);
    LeafStep(s, cp, 0x27, 1, 0x37);
    LeafStep(s, cp, 0x37, 1, 0x47);
    LeafStep(s, cp, 0x47, 2, 0x147);
    LeafStep(s, cp, 0x147, 2, 0x247);
    LeafStep(s, cp, 0x247, 4, 0x1_0247);
  }
  lemma Weight12Term70(s: seq<real>, cp: seq<real>)
    requires |s| == 16 && |cp| == 16
    ensures Leaf(s, cp, 0x1ab) == s[11] * cp[1] * cp[1] * cp[1] * cp[1] * cp[1] * cp[1] * cp[1] * cp[1] * cp[1] * cp[1] * cp[2]
  {
    RadixTable();
    LeafBase(s, cp, 11);
    LeafStep(s, cp, 0xb, 1, 0x1b);
    LeafStep(s, cp, 0x1b, 1, 0x2b);
    LeafStep(s, cp, 0x2b, 1, 0x3b);
    LeafStep(s, cp, 0x3b, 1, 0x4b);
    LeafStep(s, cp, 0x4b, 1, 0x5b);
    LeafStep(s, cp, 0x5b, 1, 0x6b);
    LeafStep(s, cp, 0x6b, 1, 0x7b);
    LeafStep(s, cp, 0x7b, 1, 0x8b);
    LeafStep(s, cp, 0x8b, 1, 0x9b);
    LeafStep(s, cp, 0x9b, 1, 0xab);
    LeafStep(s, cp, 0xab, 2, 0x1ab);
  }
  lemma Weight12Term71(s: seq<real>, cp: seq<real>)
    requires |s| == 16 && |cp| == 16
    ensures Leaf(s, cp, 0x1_1136) == s[6] * cp[1] * cp[1] * cp[1] * cp[2] * cp[3] * cp[4]
  {
    RadixTable();
    LeafBase(s, cp, 6);
    LeafStep(s, cp, 0x6, 1, 0x16);
    LeafStep(s, cp, 0x16, 1, 0x26);
    LeafStep(s, cp, 0x26, 1, 0x36);
    LeafStep(s, cp, 0x36, 2, 0x136);
    LeafStep(s, cp, 0x136, 3, 0x1136);
    LeafStep(s, cp, 0x1136, 4, 0x1_1136);
  }
  lemma Weight12Term72(s: seq<real>, cp: seq<real>)
    requires |s| == 16 && |cp| == 16
    ensures Leaf(s, cp, 0x1416) == s[6] * cp[1] * cp[2] * cp[2] * cp[2] * cp[2] * cp[3]
  {
    RadixTable();
    LeafBase(s, cp, 6);
    LeafStep(s, cp, 0x6, 1, 0x16);
    LeafStep(s, cp, 0x16, 2, 0x116);
    LeafStep(s, cp, 0x116, 2, 0x216);
    LeafStep(s, cp, 0x216, 2, 0x316);
    LeafStep(s, cp, 0x316, 2, 0x416);
    LeafStep(s, cp, 0x416, 3, 0x1416);
  }
  lemma Weight12Term73(s: seq<real>, cp: seq<real>)
    requires |s| == 16 && |cp| == 16
    ensures Leaf(s, cp, 0x1_2025) == s[5] * cp[1] * cp[1] * cp[3] * cp[3] * cp[4]
  {
    RadixTable();
    LeafBase(s, cp, 5);
    LeafStep(s, cp, 0x5, 1, 0x15);
    LeafStep(s, cp, 0x15, 1, 0x25);
    LeafStep(s, cp, 0x25, 3, 0x1025);
    LeafStep(s, cp, 0x1025, 3, 0x2025);
    LeafStep(s, cp, 0x2025, 4, 0x1_2025);
  }
  lemma Weight12Term74(s: seq<real>, cp: seq<real>)
    requires |s| == 16 && |cp| == 16
    ensures Leaf(s, cp, 0x11_1003) == s[3] * cp[3] * cp[4] * cp[5]
  {
    RadixTable();
    LeafBase(s, cp, 3);
    LeafStep(s, cp, 0x3, 3, 0x1003);
    LeafStep(s, cp, 0x1003, 4, 0x1_1003);
    LeafStep(s, cp, 0x1_1003, 5, 0x11_1003);
  }
  lemma Weight12Term75(s: seq<real>, cp: seq<real>)
    requires |s| == 16 && |cp| == 16
    ensures Leaf(s, cp, 0x11_0114) == s[4] * cp[1] * cp[2] * cp[4] * cp[5]
  {
    RadixTable();
    LeafBase(s, cp, 4);
    LeafStep(s, cp, 0x4, 1, 0x14);
    LeafStep(s, cp, 0x14, 2, 0x114);
    LeafStep(s, cp, 0x114, 4, 0x1_0114);
    LeafStep(s, cp, 0x1_0114, 5, 0x11_0114);
  }
  lemma Weight12Term76(s: seq<real>, cp: seq<real>)
    requires |s| == 16 && |cp| == 16
    ensures Leaf(s, cp, 0x1_0000_0045) == s[5] * cp[1] * cp[1] * cp[1] * cp[1] * cp[8]
  {
    RadixTable();
    LeafBase(s, cp, 5);
    LeafStep(s, cp, 0x5, 1, 0x15);
    LeafStep(s, cp, 0x15, 1, 0x25);
    LeafStep(s, cp, 0x25, 1, 0x35);
    LeafStep(s, cp, 0x35, 1, 0x45);
    LeafStep(s, cp, 0x45, 8, 0x1_0000_0045);
  }
  lemma Weight12Term77(s: seq<real>, cp: seq<real>)
    requires |s| == 16 && |cp| == 16
    ensures Leaf(s, cp, 0x20_0024) == s[4] * cp[1] * cp[1] * cp[5] * cp[5]
  {
    RadixTable();
    LeafBase(s, cp, 4);
    LeafStep(s, cp, 0x4, 1, 0x14);
    LeafStep(s, cp, 0x14, 1, 0x24);
    LeafStep(s, cp, 0x24, 5, 0x10_0024);
    LeafStep(s, cp, 0x10_0024, 5, 0x20_0024);
  }
  lemma Weight12IsSeries(s: seq<real>, cp: seq<real>)
    requires |s| == 16 && |cp| == 16
    ensures Weight12(s, cp) == SeriesCoefficient(s, cp, 12)
  {
    Weight12Term1(s, cp);
    Weight12Term2(s, cp);
    Weight12Term3(s, cp);
    Weight12Term4(s, cp);
    Weight12Term5(s, cp);
    Weight12Term6(s, cp);
    Weight12Term7(s, cp);
    Weight12Term8(s, cp);
    Weight12Term9(s, cp);
    Weight12Term10(s, cp);
    Weight12Term11(s, cp);
    Weight12Term12(s, cp);
    Weight12Term13(s, cp);
    Weight12Term14(s, cp);
    Weight12Term15(s, cp);
    Weight12Term16(s, cp);
    Weight12Term17(s, cp);
    Weight12Term18(s, cp);
    Weight12Term19(s, cp);
    Weight12Term20(s, cp);
    Weight12Term21(s, cp);
    Weight12Term22(s, cp);
    Weight12Term23(s, cp);
    Weight12Term24(s, cp);
    Weight12Term25(s, cp);
    Weight12Term26(s, cp);
    Weight12Term27(s, cp);
    Weight12Term28(s, cp);
    Weight12Term29(s, cp);
    Weight12Term30(s, cp);
    Weight12Term31(s, cp);
    Weight12Term32(s, cp);
    Weight12Term33(s, cp);
    Weight12Term34(s, cp);
    Weight12Term35(s, cp);
    Weight12Term36(s, cp);
    Weight12Term37(s, cp);
    Weight12Term38(s, cp);
    Weight12Term39(s, cp);
    Weight12Term40(s, cp);
    Weight12Term41(s, cp);
    Weight12Term42(s, cp);
    Weight12Term43(s, cp);
    Weight12Term44(s, cp);
    Weight12Term45(s, cp);
    Weight12Term46(s, cp);
    Weight12Term47(s, cp);
    Weight12Term48(s, cp);
    Weight12Term49(s, cp);
    Weight12Term50(s, cp);
    Weight12Term51(s, cp);
    Weight12Term52(s, cp);
    Weight12Term53(s, cp);
    Weight12Term54(s, cp);
    Weight12Term55(s, cp);
    Weight12Term56(s, cp);
    Weight12Term57(s, cp);
    Weight12Term58(s, cp);
    Weight12Term59(s, cp);
    Weight12Term60(s, cp);
    Weight12Term61(s, cp);
    Weight12Term62(s, cp);
    Weight12Term63(s, cp);
    Weight12Term64(s, cp);
    Weight12Term65(s, cp);
    Weight12Term66(s, cp);
    Weight12Term67(s, cp);
    Weight12Term68(s, cp);
    Weight12Term69(s, cp);
    Weight12Term70(s, cp);
    Weight12Term71(s, cp);
    Weight12Term72(s, cp);
    Weight12Term73(s, cp);
    Weight12Term74(s, cp);
    Weight12Term75(s, cp);
    Weight12Term76(s, cp);
    Weight12Term77(s, cp);
    Enumerated12(s, cp);
    SeriesIsEnumerated(s, cp, 12);
  }
  /** Orders whose written-out weight is proved equal to the series coefficient. */
  const ProvedOrders: nat := 12

  /** Every written-out peak weight is the z^k coefficient of the compound series. */
  lemma PeakWeightIsSeriesCoefficient(s: seq<real>, cp: seq<real>, k: nat)
    requires |s| == 16 && |cp| == 16 && 1 <= k <= ProvedOrders
    ensures PeakWeight(s, cp, k) == SeriesCoefficient(s, cp, k)
  {
    if k == 1 {
      Weight1IsSeries(s, cp);
    } else if k == 2 {
      Weight2IsSeries(s, cp);
    } else if k == 3 {
      Weight3IsSeries(s, cp);
    } else if k == 4 {
      Weight4IsSeries(s, cp);
    } else if k == 5 {
      Weight5IsSeries(s, cp);
    } else if k == 6 {
      Weight6IsSeries(s, cp);
    } else if k == 7 {
      Weight7IsSeries(s, cp);
    } else if k == 8 {
      Weight8IsSeries(s, cp);
    } else if k == 9 {
      Weight9IsSeries(s, cp);
    } else if k == 10 {
      Weight10IsSeries(s, cp);
    } else if k == 11 {
      Weight11IsSeries(s, cp);
    } else if k == 12 {
      Weight12IsSeries(s, cp);
    }
  }
  /** Without crosstalk only the one-photon-per-cell term of sc[13] survives. */
  lemma Weight13NoCrosstalk(s: seq<real>)
    requires |s| == 16
    ensures Weight13(s, NoCrosstalk) == s[13]
  { }
  /** Without crosstalk only the one-photon-per-cell term of sc[14] survives. */
  lemma Weight14NoCrosstalk(s: seq<real>)
    requires |s| == 16
    ensures Weight14(s, NoCrosstalk) == s[14]
  { }
  /** Without crosstalk only the one-photon-per-cell term of sc[15] survives. */
  lemma Weight15NoCrosstalk(s: seq<real>)
    requires |s| == 16
    ensures Weight15(s, NoCrosstalk) == s[15]
  { }
  /** Without crosstalk every written-out peak weight is the Poisson weight of its order. */
  lemma PeakWeightNoCrosstalk(s: seq<real>, k: nat)
    requires |s| == 16 && 1 <= k <= 15
    ensures PeakWeight(s, NoCrosstalk, k) == s[k]
  {
    if k <= 12 {
      PeakWeightIsSeriesCoefficient(s, NoCrosstalk, k);
      SeriesNoCrosstalk(s, k);
    } else if k == 13 {
      Weight13NoCrosstalk(s);
    } else if k == 14 {
      Weight14NoCrosstalk(s);
    } else if k == 15 {
      Weight15NoCrosstalk(s);
    }
  }
}
