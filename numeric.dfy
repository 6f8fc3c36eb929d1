/** Arithmetic helpers: absolute value, the sums and means the scanners take with
    `sum(...)` and `np.mean`, and Python's `round(x, places)`. */
module Numeric {

  function Abs(x: real): (r: real)
    ensures r >= 0.0 && (r == x || r == -x)
  {
    if x < 0.0 then -x else x
  }

  function AbsInt(x: int): (r: nat)
    ensures r == x || r == -x
  {
    if x < 0 then -x else x
  }

  function Min(a: int, b: int): int {
    if a < b then a else b
  }

  /** Sum of a sequence, peeled from the back so that a loop over a prefix extends it. */
  function Sum(s: seq<real>): real {
    if s == [] then 0.0 else Sum(s[..|s| - 1]) + s[|s| - 1]
  }

  /** Sum of a sequence of counts. */
  function SumNat(s: seq<nat>): nat {
    if s == [] then 0 else SumNat(s[..|s| - 1]) + s[|s| - 1]
  }

  /** `np.mean(s)` of a non-empty sequence. */
  function Mean(s: seq<real>): real
    requires |s| > 0
  {
    Sum(s) / (|s| as real)
  }

  function Pow10(n: nat): (r: nat)
    ensures r >= 1
  {
    if n == 0 then 1 else 10 * Pow10(n - 1)
  }

  /** The whole number nearest to `y`, ties to the even neighbour. */
  function RoundHalfEven(y: real): int {
    var n := y.Floor;
    var frac := y - n as real;
    if frac > 0.5 then n + 1
    else if frac < 0.5 then n
    else if n % 2 == 0 then n
    else n + 1
  }

  /** Python's `round(x, places)`, computed on the exact value: the nearest multiple of
      `10^-places`, ties to the even multiple. */
  function Round(x: real, places: nat): real {
    RoundAt(x, Scale(places))
  }

  /** `x` rounded to the nearest multiple of `1/m`, ties to the even multiple. */
  function RoundAt(x: real, m: real): real
    requires m > 0.0
  {
    (RoundHalfEven(x * m) as real) / m
  }

  function Scale(places: nat): (m: real)
    ensures m >= 1.0
  {
    Pow10(places) as real
  }

  lemma RoundHalfEvenMonotone(x: real, y: real)
    requires x <= y
    ensures RoundHalfEven(x) <= RoundHalfEven(y)
  {
    if x.Floor < y.Floor {
      assert RoundHalfEven(x) <= x.Floor + 1 <= y.Floor <= RoundHalfEven(y);
    }
  }

  lemma RoundHalfEvenOfInt(k: int)
    ensures RoundHalfEven(k as real) == k
  {
    assert (k as real).Floor == k;
  }

  lemma MulNonNeg(x: real, y: real, m: real)
    requires x <= y && m > 0.0
    ensures x * m <= y * m
  {
    assert (y - x) * m >= 0.0;
  }

  lemma DivNonNeg(a: real, b: real, m: real)
    requires a <= b && m > 0.0
    ensures a / m <= b / m
  {
    assert b / m - a / m == (b - a) / m;
  }

  lemma DivOfMul(a: real, m: real)
    requires m != 0.0
    ensures (a * m) / m == a
  {
  }

  /** Rounding never reverses the order of two values. */
  lemma RoundAtMonotone(x: real, y: real, m: real)
    requires x <= y && m > 0.0
    ensures RoundAt(x, m) <= RoundAt(y, m)
  {
    MulNonNeg(x, y, m);
    RoundHalfEvenMonotone(x * m, y * m);
    DivNonNeg(RoundHalfEven(x * m) as real, RoundHalfEven(y * m) as real, m);
  }

  lemma RoundMonotone(x: real, y: real, places: nat)
    requires x <= y
    ensures Round(x, places) <= Round(y, places)
  {
    RoundAtMonotone(x, y, Scale(places));
  }

  /** A value whose scaled form is the whole number `n` rounds to itself. */
  lemma RoundAtOfExact(x: real, m: real, n: int)
    requires m > 0.0 && x * m == n as real
    ensures RoundAt(x, m) == x
  {
    RoundHalfEvenOfInt(n);
    DivOfMul(x, m);
  }

  /** A whole number is already rounded. */
  lemma RoundOfInt(k: int, places: nat)
    ensures Round(k as real, places) == k as real
  {
    var m := Pow10(places);
    var scale := Scale(places);
    assert scale == m as real;
    assert (k as real) * scale == (k * m) as real;
    RoundHalfEvenOfInt(k * m);
    DivOfMul(k as real, scale);
    RoundAtOfExact(k as real, scale, k * m);
  }

  /** A value at or above the whole number `k` still is once rounded, and likewise below. */
  lemma RoundKeepsIntBound(x: real, k: int, places: nat)
    ensures x >= k as real ==> Round(x, places) >= k as real
    ensures x <= k as real ==> Round(x, places) <= k as real
  {
    RoundOfInt(k, places);
    if x >= k as real { RoundMonotone(k as real, x, places); }
    if x <= k as real { RoundMonotone(x, k as real, places); }
  }

  /** For a positive denominator, the quotient reaches `k` exactly when `v` reaches `k * d`. */
  lemma QuotientAtLeast(v: nat, d: nat, k: nat)
    requires d > 0
    ensures (v as real) / (d as real) >= k as real <==> v >= k * d
  {
    var q := (v as real) / (d as real);
    assert q * (d as real) == v as real;
    assert (k * d) as real == (k as real) * (d as real);
    if q >= k as real {
      MulNonNeg(k as real, q, d as real);
    } else {
      assert (k as real - q) * (d as real) > 0.0;
    }
  }

  /** A sum of non-negative terms is non-negative; it is zero when every term is, and
      positive when some term is. */
  lemma {:induction false} SumNonNeg(s: seq<real>)
    requires forall i :: 0 <= i < |s| ==> s[i] >= 0.0
    ensures Sum(s) >= 0.0
    ensures (forall i :: 0 <= i < |s| ==> s[i] == 0.0) ==> Sum(s) == 0.0
    ensures (exists i :: 0 <= i < |s| && s[i] > 0.0) ==> Sum(s) > 0.0
  {
    if s != [] {
      var init := s[..|s| - 1];
      SumNonNeg(init);
      if exists i :: 0 <= i < |s| && s[i] > 0.0 {
        var i :| 0 <= i < |s| && s[i] > 0.0;
        if i < |init| {
          assert init[i] == s[i];
        }
      }
    }
  }
}
