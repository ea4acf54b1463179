/** Arithmetic helpers shared by the whole scoring pipeline: `clamp`, `pos`
    and JavaScript's `Math.round`, over unbounded reals. */
module Numeric {

  function Abs(x: real): (r: real)
    ensures r >= 0.0
    ensures r == x || r == -x
  {
    if x < 0.0 then -x else x
  }

  function Min(a: real, b: real): (r: real)
    ensures r <= a && r <= b
    ensures r == a || r == b
  {
    if a <= b then a else b
  }

  function Max(a: real, b: real): (r: real)
    ensures r >= a && r >= b
    ensures r == a || r == b
  {
    if a >= b then a else b
  }

  /** `clamp(x, a, b) = max(a, min(b, x))`. When the bounds are inverted the
      lower bound wins, exactly as the nested max/min does. */
  function Clamp(x: real, a: real, b: real): (r: real)
    ensures a <= b ==> a <= r <= b
    ensures a <= x <= b ==> r == x
    ensures a <= b && x < a ==> r == a
    ensures a <= b && b < x ==> r == b
    ensures b < a ==> r == a
  {
    Max(a, Min(b, x))
  }

  /** Clamping again changes nothing. */
  lemma ClampIdempotent(x: real, a: real, b: real)
    ensures Clamp(Clamp(x, a, b), a, b) == Clamp(x, a, b)
  {
  }

  /** Clamping never reverses the order of two values. */
  lemma ClampMonotone(x: real, y: real, a: real, b: real)
    requires x <= y
    ensures Clamp(x, a, b) <= Clamp(y, a, b)
  {
  }

  /** `pos(x) = max(0, x)`: the positive part. */
  function Pos(x: real): (r: real)
    ensures r >= 0.0 && r >= x
    ensures x >= 0.0 ==> r == x
    ensures x < 0.0 ==> r == 0.0
  {
    Max(0.0, x)
  }

  /** JavaScript `Math.round`: the nearest integer, halves rounded toward
      positive infinity. */
  function Round(x: real): (r: int)
    ensures r as real - 0.5 <= x < r as real + 0.5
  {
    (x + 0.5).Floor
  }

  lemma RoundMonotone(x: real, y: real)
    requires x <= y
    ensures Round(x) <= Round(y)
  {
  }

  /** Rounding a value that lies between two integers stays between them. */
  lemma RoundInRange(x: real, lo: int, hi: int)
    requires lo as real <= x <= hi as real
    ensures lo <= Round(x) <= hi
  {
  }

  /** Rounding an integer gives it back. */
  lemma RoundOfInteger(n: int)
    ensures Round(n as real) == n
  {
  }

  // ----- sums and maxima of real sequences -----

  function Sum(vs: seq<real>): (s: real)
    ensures vs == [] ==> s == 0.0
  {
    if vs == [] then 0.0 else vs[0] + Sum(vs[1..])
  }

  /** `Math.max(...vs)` of a non-empty sequence. */
  function MaxOf(vs: seq<real>): (m: real)
    requires vs != []
    ensures forall i :: 0 <= i < |vs| ==> vs[i] <= m
    ensures m in vs
  {
    if |vs| == 1 then vs[0]
    else
      var rest := MaxOf(vs[1..]);
      assert forall i :: 1 <= i < |vs| ==> vs[i] == vs[1..][i - 1];
      if vs[0] >= rest then vs[0] else rest
  }

  /** A sum of `n` values each at most `hi` is at most `n * hi`. */
  lemma {:induction false} SumAtMost(vs: seq<real>, hi: real)
    requires forall i :: 0 <= i < |vs| ==> vs[i] <= hi
    ensures Sum(vs) <= |vs| as real * hi
  {
    if vs != [] {
      SumAtMost(vs[1..], hi);
      assert |vs| as real * hi == (|vs| - 1) as real * hi + hi;
    }
  }

  /** A sum of `n` values each at least `lo` is at least `n * lo`. */
  lemma {:induction false} SumAtLeast(vs: seq<real>, lo: real)
    requires forall i :: 0 <= i < |vs| ==> lo <= vs[i]
    ensures |vs| as real * lo <= Sum(vs)
  {
    if vs != [] {
      SumAtLeast(vs[1..], lo);
      assert |vs| as real * lo == (|vs| - 1) as real * lo + lo;
    }
  }

  /** Dividing by a positive `n` a value in [n * lo, n * hi] gives a value
      in [lo, hi]. */
  lemma QuotientBounds(s: real, n: real, lo: real, hi: real)
    requires n > 0.0 && n * lo <= s <= n * hi
    ensures lo <= s / n <= hi
  {
    assert s / n * n == s;
  }

  lemma {:induction false} SumAtLeastElement(vs: seq<real>, i: nat)
    requires i < |vs|
    requires forall j :: 0 <= j < |vs| ==> vs[j] >= 0.0
    ensures 0.0 <= vs[i] <= Sum(vs)
  {
    SumNonNegative(vs[1..]);
    if i > 0 {
      SumAtLeastElement(vs[1..], i - 1);
    }
  }

  lemma {:induction false} SumNonNegative(vs: seq<real>)
    requires forall j :: 0 <= j < |vs| ==> vs[j] >= 0.0
    ensures Sum(vs) >= 0.0
  {
    if vs != [] {
      SumNonNegative(vs[1..]);
    }
  }
}
