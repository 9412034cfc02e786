/**
 * Double-precision values as numpy and Python treat them, without rounding:
 * a finite value is an exact real, and the three special values keep their
 * IEEE-754 behaviour under +, *, /, comparison, Python's max/min and numpy's
 * sum, mean, max and min.
 */
module Floats {
  import opened Py

  datatype Float = Finite(value: real) | PosInf | NegInf | NaN

  function Add(x: Float, y: Float): (r: Float)
    ensures x.Finite? && y.Finite? ==> r == Finite(x.value + y.value)
  {
    match (x, y)
    case (NaN, _) => NaN
    case (_, NaN) => NaN
    case (PosInf, NegInf) => NaN
    case (NegInf, PosInf) => NaN
    case (PosInf, _) => PosInf
    case (_, PosInf) => PosInf
    case (NegInf, _) => NegInf
    case (_, NegInf) => NegInf
    case (Finite(a), Finite(b)) => Finite(a + b)
  }

  /** The sign of a non-NaN value: -1, 0 or 1. */
  function Sign(x: Float): int
    requires !x.NaN?
  {
    match x
    case PosInf => 1
    case NegInf => -1
    case Finite(a) => if a > 0.0 then 1 else if a < 0.0 then -1 else 0
  }

  function InfOfSign(s: int): Float
  {
    if s > 0 then PosInf else NegInf
  }

  function Mul(x: Float, y: Float): (r: Float)
    ensures x.Finite? && y.Finite? ==> r == Finite(x.value * y.value)
  {
    if x.NaN? || y.NaN? then NaN
    else if x.Finite? && y.Finite? then Finite(x.value * y.value)
    else if Sign(x) == 0 || Sign(y) == 0 then NaN
    else InfOfSign(Sign(x) * Sign(y))
  }

  /** numpy's `x / y` on float64 values: never raises, answers inf or nan. */
  function Div(x: Float, y: Float): (r: Float)
    ensures x.Finite? && y.Finite? && y.value != 0.0 ==> r == Finite(x.value / y.value)
  {
    if x.NaN? || y.NaN? then NaN
    else if x.Finite? && y.Finite? then
      if y.value != 0.0 then Finite(x.value / y.value)
      else if x.value == 0.0 then NaN
      else InfOfSign(Sign(x))
    else if x.Finite? then Finite(0.0)
    else if y.Finite? then InfOfSign(if Sign(y) < 0 then -Sign(x) else Sign(x))
    else NaN
  }

  /** `x > y`; false whenever either side is NaN. */
  predicate Gt(x: Float, y: Float)
  {
    match (x, y)
    case (NaN, _) => false
    case (_, NaN) => false
    case (PosInf, _) => y != PosInf
    case (Finite(a), Finite(b)) => a > b
    case (Finite(_), NegInf) => true
    case (_, _) => false
  }

  /** `x >= y`; false whenever either side is NaN. */
  predicate Ge(x: Float, y: Float)
  {
    Gt(x, y) || (x == y && !x.NaN?)
  }

  /** On two non-NaN values exactly one of `x > y`, `x == y`, `y > x` holds. */
  lemma Trichotomy(x: Float, y: Float)
    requires !x.NaN? && !y.NaN?
    ensures Gt(x, y) || x == y || Gt(y, x)
    ensures !(Gt(x, y) && Gt(y, x)) && !(Gt(x, y) && x == y)
  {
  }

  lemma GtTransitive(x: Float, y: Float, z: Float)
    requires Gt(x, y) && Gt(y, z)
    ensures Gt(x, z)
  {
  }

  /** Python's `max(a, b)`: the first argument unless the second is greater. */
  function PyMax(a: Float, b: Float): (r: Float)
    ensures r == a || r == b
  {
    if Gt(b, a) then b else a
  }

  /** Python's `min(a, b)`: the first argument unless the second is smaller. */
  function PyMin(a: Float, b: Float): (r: Float)
    ensures r == a || r == b
  {
    if Gt(a, b) then b else a
  }

  /**
   * `max(c, x)` with a finite constant first is never NaN and never below the
   * constant: a NaN argument loses to the constant.
   */
  lemma PyMaxFloor(c: real, x: Float)
    ensures var r := PyMax(Finite(c), x);
      Ge(r, Finite(c)) && !r.NaN?
      && (x.Finite? && x.value > c ==> r == x)
      && (x == PosInf ==> r == PosInf)
      && (x.NaN? ==> r == Finite(c))
  {
  }

  // ---------------------------------------------------------------------
  // numpy reductions over float64 arrays

  /** `np.sum(s)`: NaN as soon as a NaN or both infinities occur. */
  function NpSum(s: seq<Float>): (r: Float)
    ensures r.Finite? <==> AllFinite(s)
  {
    if s == [] then Finite(0.0)
    else
      assert forall k :: 0 <= k < |s| - 1 ==> s[..|s| - 1][k] == s[k];
      Add(NpSum(s[..|s| - 1]), s[|s| - 1])
  }

  /** `np.mean(s)`: the sum over the length; NaN for an empty array. */
  function NpMean(s: seq<Float>): (r: Float)
    ensures r.Finite? <==> |s| > 0 && AllFinite(s)
  {
    Div(NpSum(s), Finite(|s| as real))
  }

  /** `np.max(s)` for a non-empty array: NaN propagates. */
  function NpMaxOf(s: seq<Float>): Float
    requires |s| > 0
  {
    if |s| == 1 then s[0]
    else
      var m := NpMaxOf(s[..|s| - 1]);
      var x := s[|s| - 1];
      if m.NaN? || x.NaN? then NaN else if Gt(x, m) then x else m
  }

  /** `np.min(s)` for a non-empty array: NaN propagates. */
  function NpMinOf(s: seq<Float>): Float
    requires |s| > 0
  {
    if |s| == 1 then s[0]
    else
      var m := NpMinOf(s[..|s| - 1]);
      var x := s[|s| - 1];
      if m.NaN? || x.NaN? then NaN else if Gt(m, x) then x else m
  }

  /** `np.max(s)`: a ValueError on an empty array. */
  function NpMax(s: seq<Float>): (r: Result<Float>)
    ensures r.Err? <==> s == []
    ensures s != [] && AllFinite(s) ==> r == Ok(Finite(Max(Reals(s))))
  {
    if s == [] then Err(ValueError("zero-size array to reduction operation maximum which has no identity"))
    else
      if AllFinite(s) then NpMaxFinite(s); Ok(NpMaxOf(s))
      else Ok(NpMaxOf(s))
  }

  /** `np.min(s)`: a ValueError on an empty array. */
  function NpMin(s: seq<Float>): (r: Result<Float>)
    ensures r.Err? <==> s == []
    ensures s != [] && AllFinite(s) ==> r == Ok(Finite(Min(Reals(s))))
  {
    if s == [] then Err(ValueError("zero-size array to reduction operation minimum which has no identity"))
    else
      if AllFinite(s) then NpMinFinite(s); Ok(NpMinOf(s))
      else Ok(NpMinOf(s))
  }

  lemma {:induction false} NpMaxIsGreatest(s: seq<Float>)
    requires |s| > 0 && forall k :: 0 <= k < |s| ==> !s[k].NaN?
    ensures NpMaxOf(s) in s
    ensures forall k :: 0 <= k < |s| ==> Ge(NpMaxOf(s), s[k])
  {
    if |s| > 1 {
      var p := s[..|s| - 1];
      NpMaxIsGreatest(p);
      var m := NpMaxOf(p);
      var x := s[|s| - 1];
      forall k | 0 <= k < |s| ensures Ge(NpMaxOf(s), s[k]) {
        if k < |s| - 1 {
          assert s[k] == p[k];
          Trichotomy(x, m);
          if Gt(x, m) && Gt(m, s[k]) {
            GtTransitive(x, m, s[k]);
          }
        } else {
          Trichotomy(x, m);
        }
      }
    }
  }

  // ---------------------------------------------------------------------
  // Reductions over exact reals

  predicate AllFinite(s: seq<Float>)
  {
    forall k :: 0 <= k < |s| ==> s[k].Finite?
  }

  /** The exact values of an array that holds finite entries only. */
  function Reals(s: seq<Float>): (r: seq<real>)
    requires AllFinite(s)
    ensures |r| == |s| && forall k :: 0 <= k < |s| ==> s[k] == Finite(r[k])
  {
    seq(|s|, k requires 0 <= k < |s| => s[k].value)
  }

  function Floats(r: seq<real>): (s: seq<Float>)
    ensures AllFinite(s) && Reals(s) == r
  {
    seq(|r|, k requires 0 <= k < |r| => Finite(r[k]))
  }

  function Sum(s: seq<real>): real
  {
    if s == [] then 0.0 else Sum(s[..|s| - 1]) + s[|s| - 1]
  }

  function Mean(s: seq<real>): real
    requires |s| > 0
  {
    Sum(s) / |s| as real
  }

  function Max(s: seq<real>): (m: real)
    requires |s| > 0
    ensures m in s && forall k :: 0 <= k < |s| ==> s[k] <= m
  {
    if |s| == 1 then s[0]
    else
      var m := Max(s[..|s| - 1]);
      assert forall k :: 0 <= k < |s| - 1 ==> s[k] == s[..|s| - 1][k];
      if s[|s| - 1] > m then s[|s| - 1] else m
  }

  function Min(s: seq<real>): (m: real)
    requires |s| > 0
    ensures m in s && forall k :: 0 <= k < |s| ==> m <= s[k]
  {
    if |s| == 1 then s[0]
    else
      var m := Min(s[..|s| - 1]);
      assert forall k :: 0 <= k < |s| - 1 ==> s[k] == s[..|s| - 1][k];
      if s[|s| - 1] < m then s[|s| - 1] else m
  }

  lemma {:induction false} SumBounds(s: seq<real>, lo: real, hi: real)
    requires forall k :: 0 <= k < |s| ==> lo <= s[k] <= hi
    ensures |s| as real * lo <= Sum(s) <= |s| as real * hi
  {
    if s != [] {
      var p := s[..|s| - 1];
      assert forall k :: 0 <= k < |p| ==> p[k] == s[k];
      SumBounds(p, lo, hi);
      var n := |p| as real;
      assert |s| as real * lo == n * lo + lo && |s| as real * hi == n * hi + hi;
    }
  }

  /** The mean of a non-empty sample lies within any bounds of its entries. */
  lemma MeanWithin(s: seq<real>, lo: real, hi: real)
    requires |s| > 0 && forall k :: 0 <= k < |s| ==> lo <= s[k] <= hi
    ensures lo <= Mean(s) <= hi
  {
    SumBounds(s, lo, hi);
    DivBounds(Sum(s), |s| as real, lo, hi);
  }

  /** Division by a non-zero real distributes over a sum. */
  lemma DivAdd(a: real, b: real, d: real)
    requires d != 0.0
    ensures a / d + b / d == (a + b) / d
  {
  }

  /** A non-zero real over a multiple of itself. */
  lemma DivScaled(t: real, c: real)
    requires t != 0.0 && c != 0.0
    ensures t / (c * t) == 1.0 / c
  {
  }

  /** A non-zero real divided by itself is one. */
  lemma DivSelf(x: real)
    requires x != 0.0
    ensures x / x == 1.0
  {
  }

  lemma DivBounds(t: real, n: real, lo: real, hi: real)
    requires n > 0.0 && n * lo <= t <= n * hi
    ensures lo <= t / n <= hi
  {
    assert t / n - lo == (t - n * lo) / n;
    assert hi - t / n == (n * hi - t) / n;
  }

  /** On finite data numpy's sum is the exact sum. */
  lemma {:induction false} NpSumFinite(s: seq<Float>)
    requires AllFinite(s)
    ensures NpSum(s) == Finite(Sum(Reals(s)))
  {
    if s != [] {
      var p := s[..|s| - 1];
      NpSumFinite(p);
      assert Reals(s)[..|s| - 1] == Reals(p);
    }
  }

  /** On finite data numpy's maximum is the exact maximum. */
  lemma {:induction false} NpMaxFinite(s: seq<Float>)
    requires |s| > 0 && AllFinite(s)
    ensures NpMaxOf(s) == Finite(Max(Reals(s)))
  {
    if |s| > 1 {
      var p := s[..|s| - 1];
      NpMaxFinite(p);
      assert Reals(s)[..|s| - 1] == Reals(p);
    }
  }

  /** On finite data numpy's minimum is the exact minimum. */
  lemma {:induction false} NpMinFinite(s: seq<Float>)
    requires |s| > 0 && AllFinite(s)
    ensures NpMinOf(s) == Finite(Min(Reals(s)))
  {
    if |s| > 1 {
      var p := s[..|s| - 1];
      NpMinFinite(p);
      assert Reals(s)[..|s| - 1] == Reals(p);
    }
  }

  /** A single NaN makes numpy's sum NaN. */
  lemma {:induction false} NpSumNaN(s: seq<Float>, k: nat)
    requires k < |s| && s[k].NaN?
    ensures NpSum(s).NaN?
  {
    if k < |s| - 1 {
      NpSumNaN(s[..|s| - 1], k);
    }
  }
}
