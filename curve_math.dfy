/**
 * The numeric steps every response-curve builder shares: evenly spaced spend
 * points (`np.linspace`), marginal returns (`np.diff(response) / np.diff(spend)`),
 * the first point after a skip where marginal returns fall below a threshold
 * (`np.where(m[skip:] < t)[0][0] + skip`) and clamping into a band.
 */
module CurveMath {
  import opened Py
  import opened Floats

  /** `np.linspace(lo, hi, n)`: `n` points, both ends included. */
  function Linspace(lo: real, hi: real, n: nat): (s: seq<real>)
    requires n >= 2
    ensures |s| == n && s[0] == lo && s[n - 1] == hi
    ensures forall k :: 0 <= k < n ==> s[k] == lo + (hi - lo) * ((k as real) / ((n - 1) as real))
  {
    var s := seq(n, k requires 0 <= k < n => lo + (hi - lo) * ((k as real) / ((n - 1) as real)));
    var d := (n - 1) as real;
    DivSelf(d);
    assert s[n - 1] == lo + (hi - lo) * (d / d);
    s
  }

  predicate Increasing(s: seq<real>)
  {
    forall i, j :: 0 <= i < j < |s| ==> s[i] < s[j]
  }

  lemma LinspaceStep(lo: real, hi: real, n: nat, i: nat, j: nat)
    requires n >= 2 && hi > lo && i < j < n
    ensures Linspace(lo, hi, n)[i] < Linspace(lo, hi, n)[j]
  {
    var d := (n - 1) as real;
    var w := hi - lo;
    assert d >= 1.0;
    assert (i as real) / d < (j as real) / d;
    assert w * ((i as real) / d) < w * ((j as real) / d);
  }

  /** Over a non-empty range the points increase strictly from `lo` to `hi`. */
  lemma LinspaceIncreasing(lo: real, hi: real, n: nat)
    requires n >= 2 && hi > lo
    ensures Increasing(Linspace(lo, hi, n))
    ensures forall k :: 0 <= k < n ==> lo <= Linspace(lo, hi, n)[k] <= hi
  {
    var s := Linspace(lo, hi, n);
    forall i, j | 0 <= i < j < n ensures s[i] < s[j] {
      LinspaceStep(lo, hi, n, i, j);
    }
    forall k | 0 <= k < n ensures lo <= s[k] <= hi {
      if 0 < k { LinspaceStep(lo, hi, n, 0, k); }
      if k < n - 1 { LinspaceStep(lo, hi, n, k, n - 1); }
    }
  }

  /** The largest point of an increasing sequence is its last. */
  lemma MaxOfIncreasing(s: seq<real>)
    requires |s| > 0 && Increasing(s)
    ensures Max(s) == s[|s| - 1]
  {
  }

  /** `np.diff(response) / np.diff(spend)`: slope of each segment. */
  function MarginalReturns(spend: seq<real>, response: seq<real>): (m: seq<real>)
    requires |spend| == |response| > 0 && Increasing(spend)
    ensures |m| == |spend| - 1
    ensures forall j {:trigger m[j]} :: 0 <= j < |m| ==>
      m[j] * (spend[j + 1] - spend[j]) == response[j + 1] - response[j]
  {
    seq(|spend| - 1, j requires 0 <= j < |spend| - 1 =>
      (response[j + 1] - response[j]) / (spend[j + 1] - spend[j]))
  }

  /** `np.diff(response)`: the undivided differences. */
  function Differences(response: seq<real>): (d: seq<real>)
    ensures |d| == if response == [] then 0 else |response| - 1
    ensures forall j {:trigger d[j]} :: 0 <= j < |d| ==> response[j] + d[j] == response[j + 1]
  {
    if response == [] then []
    else seq(|response| - 1, j requires 0 <= j < |response| - 1 => response[j + 1] - response[j])
  }

  /**
   * The first index at or after `from` whose value is below `t`, or None when
   * every value from there on is at least `t`.
   */
  function FirstBelow(m: seq<real>, from: nat, t: real): (r: Option<nat>)
    ensures r.Some? ==> from <= r.value < |m| && m[r.value] < t
    ensures r.Some? ==> forall k :: from <= k < r.value ==> m[k] >= t
    ensures r.None? ==> forall k :: from <= k < |m| ==> m[k] >= t
    decreases |m| - from
  {
    if from >= |m| then None
    else if m[from] < t then Some(from)
    else FirstBelow(m, from + 1, t)
  }

  /** How the marginal returns of a curve fall off after the first `skip` segments. */
  datatype Saturation =
    | SaturatesAt(index: nat)   // first segment below the threshold
    | NeverSaturates            // every segment after the skip stays at or above it
    | NoPositiveReturn          // no segment at all, or the peak is not positive

  /** The point below which a marginal return counts as saturated. */
  function Threshold(m: seq<real>, ratio: real): real
    requires |m| > 0
  {
    ratio * Max(m)
  }

  /**
   * The search every curve builder runs: with a positive peak marginal return,
   * the first segment at or after `skip` whose marginal return is below
   * `ratio` times that peak.
   */
  function SaturationSearch(m: seq<real>, skip: nat, ratio: real): (r: Saturation)
    ensures r.NoPositiveReturn? <==> |m| == 0 || Max(m) <= 0.0
    ensures r.SaturatesAt? ==>
      (skip <= r.index < |m| && m[r.index] < Threshold(m, ratio)
       && forall k :: skip <= k < r.index ==> m[k] >= Threshold(m, ratio))
    ensures r.NeverSaturates? ==> forall k :: skip <= k < |m| ==> m[k] >= Threshold(m, ratio)
  {
    if |m| == 0 || Max(m) <= 0.0 then NoPositiveReturn
    else
      var j := FirstBelow(m, skip, Threshold(m, ratio));
      if j.Some? then SaturatesAt(j.value) else NeverSaturates
  }

  /** Marginal returns are searched after this many segments... */
  const SaturationSkip: nat := 5
  /** ...for the first one below this fraction of the peak. */
  const SaturationThreshold: real := 0.1
  /** The saturation point is kept within these fractions of the largest spend. */
  const SaturationMinBound: real := 0.2
  const SaturationMaxBound: real := 0.9

  /**
   * The saturation point of a curve: the spend where the first segment after
   * the skip starts whose marginal return is below a tenth of the peak; when
   * none is, `neverRatio` times the largest spend; when no segment earns a
   * positive return, `noneRatio` times it. Then clamped into 20%..90% of the
   * largest spend.
   */
  function SaturationPoint(spend: seq<real>, response: seq<real>, neverRatio: real, noneRatio: real): (p: real)
    requires |spend| == |response| > 0 && Increasing(spend)
    ensures Max(spend) >= 0.0 ==>
      SaturationMinBound * Max(spend) <= p <= SaturationMaxBound * Max(spend)
  {
    var m := MarginalReturns(spend, response);
    ClampedSaturation(spend, SaturationSearch(m, SaturationSkip, SaturationThreshold), neverRatio, noneRatio)
  }

  /** The clamped saturation point for the outcome of the search. */
  function ClampedSaturation(spend: seq<real>, search: Saturation, neverRatio: real, noneRatio: real): (p: real)
    requires |spend| > 0 && (search.SaturatesAt? ==> search.index < |spend|)
    ensures Max(spend) >= 0.0 ==>
      SaturationMinBound * Max(spend) <= p <= SaturationMaxBound * Max(spend)
  {
    var top := Max(spend);
    var raw :=
      if search.SaturatesAt? then spend[search.index]
      else if search.NeverSaturates? then top * neverRatio
      else top * noneRatio;
    Clamp(raw, top * SaturationMinBound, top * SaturationMaxBound)
  }

  /**
   * A segment after the skip whose marginal return is the first to fall
   * below a tenth of a positive peak, and whose starting spend lies inside
   * the band, is the saturation point.
   */
  lemma SaturationAtFirstFlatSegment(spend: seq<real>, response: seq<real>, neverRatio: real, noneRatio: real, j: nat)
    requires |spend| == |response| > 0 && Increasing(spend)
    requires var m := MarginalReturns(spend, response);
      SaturationSkip <= j < |m| && Max(m) > 0.0
      && m[j] < SaturationThreshold * Max(m)
      && (forall k :: SaturationSkip <= k < j ==> m[k] >= SaturationThreshold * Max(m))
    requires SaturationMinBound * Max(spend) <= spend[j] <= SaturationMaxBound * Max(spend)
    ensures SaturationPoint(spend, response, neverRatio, noneRatio) == spend[j]
  {
    var m := MarginalReturns(spend, response);
    var r := SaturationSearch(m, SaturationSkip, SaturationThreshold);
    assert r == SaturatesAt(j);
  }

  /** When the response never rises the `noneRatio` fallback applies. */
  lemma SaturationWithoutReturn(spend: seq<real>, response: seq<real>, neverRatio: real, noneRatio: real)
    requires |spend| == |response| > 1 && Increasing(spend)
    requires forall j :: 0 <= j < |spend| - 1 ==> response[j + 1] <= response[j]
    ensures SaturationPoint(spend, response, neverRatio, noneRatio)
      == ClampedSaturation(spend, NoPositiveReturn, neverRatio, noneRatio)
  {
    var m := MarginalReturns(spend, response);
    MarginalsNonPositive(spend, response);
    assert Max(m) in m;
  }

  lemma MarginalsNonPositive(spend: seq<real>, response: seq<real>)
    requires |spend| == |response| > 1 && Increasing(spend)
    requires forall j :: 0 <= j < |spend| - 1 ==> response[j + 1] <= response[j]
    ensures forall j :: 0 <= j < |spend| - 1 ==> MarginalReturns(spend, response)[j] <= 0.0
  {
    var m := MarginalReturns(spend, response);
    forall j | 0 <= j < |m| ensures m[j] <= 0.0 {
      assert spend[j] < spend[j + 1];
      NonPositiveSlope(m[j], spend[j + 1] - spend[j], response[j + 1] - response[j]);
    }
  }

  lemma NonPositiveSlope(slope: real, run: real, rise: real)
    requires run > 0.0 && slope * run == rise && rise <= 0.0
    ensures slope <= 0.0
  {
  }

  /** Python's `min(hi, max(lo, x))` on floats. */
  function Clamp(x: real, lo: real, hi: real): (r: real)
    ensures r <= hi
    ensures lo <= hi ==> lo <= r
    ensures lo <= x <= hi ==> r == x
    ensures x < lo <= hi ==> r == lo
    ensures x > hi ==> r == hi
  {
    var y := if x > lo then x else lo;
    if y < hi then y else hi
  }

  // ---------------------------------------------------------------------
  // Hill curves and scaled responses

  /** The Hill curve `s ** slope / (ec ** slope + s ** slope) * scale`, by its three parameters. */
  datatype Hill = Hill(ec: Float, slope: Float, scale: Float)

  /** Every response multiplied by the same factor. */
  function ScaledBy(response: seq<real>, c: real): (r: seq<real>)
    ensures |r| == |response| && forall k {:trigger r[k]} :: 0 <= k < |response| ==> r[k] == c * response[k]
  {
    seq(|response|, k requires 0 <= k < |response| => c * response[k])
  }

  lemma ScaleLe(c: real, a: real, b: real)
    requires c > 0.0 && a <= b
    ensures c * a <= c * b
  {
    assert c * b - c * a == c * (b - a);
  }

  lemma ScaleLt(c: real, a: real, b: real)
    requires c > 0.0 && a < b
    ensures c * a < c * b
  {
    assert c * b - c * a == c * (b - a);
  }

  /** Two values compare with each other, and with a fraction of each other, as their multiples `ca` and `cb` do. */
  lemma ScaledPair(c: real, a: real, b: real, ca: real, cb: real)
    requires c > 0.0 && ca == c * a && cb == c * b
    ensures a <= b <==> ca <= cb
    ensures a < SaturationThreshold * b <==> ca < SaturationThreshold * cb
    ensures a <= 0.0 <==> ca <= 0.0
  {
    assert SaturationThreshold * cb == c * (SaturationThreshold * b);
    if a <= b { ScaleLe(c, a, b); } else { ScaleLt(c, b, a); }
    if a < SaturationThreshold * b { ScaleLt(c, a, SaturationThreshold * b); }
    else { ScaleLe(c, SaturationThreshold * b, a); }
    if a <= 0.0 { ScaleLe(c, a, 0.0); } else { ScaleLt(c, 0.0, a); }
  }

  /**
   * Two sequences of marginal returns the saturation search cannot tell
   * apart: entries compare alike, with each other and with a tenth of each
   * other, and have the same sign.
   */
  predicate SameShape(a: seq<real>, b: seq<real>)
  {
    |a| == |b|
    && (forall j, k :: 0 <= j < |a| && 0 <= k < |a| ==>
          (a[j] <= a[k] <==> b[j] <= b[k])
          && (a[j] < SaturationThreshold * a[k] <==> b[j] < SaturationThreshold * b[k]))
    && (forall k :: 0 <= k < |a| ==> (a[k] <= 0.0 <==> b[k] <= 0.0))
  }

  /** Multiplying by a positive factor keeps the shape. */
  lemma ScaledSameShape(m: seq<real>, c: real)
    requires c > 0.0
    ensures SameShape(ScaledBy(m, c), m)
  {
    var s := ScaledBy(m, c);
    forall j, k | 0 <= j < |s| && 0 <= k < |s|
      ensures (s[j] <= s[k] <==> m[j] <= m[k])
           && (s[j] < SaturationThreshold * s[k] <==> m[j] < SaturationThreshold * m[k])
    {
      ScaledPair(c, m[j], m[k], s[j], s[k]);
    }
    forall k | 0 <= k < |s| ensures s[k] <= 0.0 <==> m[k] <= 0.0 {
      ScaledPair(c, m[k], m[k], s[k], s[k]);
    }
  }

  /** An entry that bounds every entry is the maximum. */
  lemma MaxIs(s: seq<real>, i: nat)
    requires i < |s| && forall k :: 0 <= k < |s| ==> s[k] <= s[i]
    ensures Max(s) == s[i]
  {
    var j :| 0 <= j < |s| && s[j] == Max(s);
    assert s[j] <= s[i];
  }

  /** The position of a maximum. */
  lemma MaxAt(m: seq<real>) returns (i: nat)
    requires |m| > 0
    ensures i < |m| && m[i] == Max(m)
  {
    i :| 0 <= i < |m| && m[i] == Max(m);
  }

  /** The search for the first value below a threshold answers alike on sequences that compare alike with it. */
  lemma {:induction false} FirstBelowAlike(a: seq<real>, b: seq<real>, from: nat, ta: real, tb: real)
    requires |a| == |b| && forall k :: 0 <= k < |a| ==> (a[k] < ta <==> b[k] < tb)
    ensures FirstBelow(a, from, ta) == FirstBelow(b, from, tb)
    decreases |a| - from
  {
    if from < |a| && a[from] >= ta {
      FirstBelowAlike(a, b, from + 1, ta, tb);
    }
  }

  /** The saturation search cannot tell two sequences of the same shape apart. */
  lemma SearchSameShape(a: seq<real>, b: seq<real>)
    requires SameShape(a, b)
    ensures SaturationSearch(a, SaturationSkip, SaturationThreshold) == SaturationSearch(b, SaturationSkip, SaturationThreshold)
  {
    if |a| > 0 {
      var i := MaxAt(b);
      assert forall k :: 0 <= k < |a| ==> a[k] <= a[i];
      MaxIs(a, i);
      assert Max(a) <= 0.0 <==> Max(b) <= 0.0;
      FirstBelowAlike(a, b, SaturationSkip, Threshold(a, SaturationThreshold), Threshold(b, SaturationThreshold));
    }
  }

  /** A slope over a run scales with its rise. */
  lemma SlopeScaled(c: real, rise: real, run: real, slope: real, scaled: real)
    requires run > 0.0 && slope * run == rise && scaled * run == c * rise
    ensures scaled == c * slope
  {
    assert (scaled - c * slope) * run == 0.0;
  }

  /** Scaling the responses scales every marginal return by the same factor. */
  lemma MarginalScaled(spend: seq<real>, response: seq<real>, c: real)
    requires |spend| == |response| > 0 && Increasing(spend)
    ensures MarginalReturns(spend, ScaledBy(response, c)) == ScaledBy(MarginalReturns(spend, response), c)
  {
    var m := MarginalReturns(spend, response);
    var r := ScaledBy(response, c);
    var m' := MarginalReturns(spend, r);
    var want := ScaledBy(m, c);
    forall j | 0 <= j < |m'| ensures m'[j] == want[j] {
      assert spend[j] < spend[j + 1];
      assert r[j + 1] - r[j] == c * (response[j + 1] - response[j]);
      SlopeScaled(c, response[j + 1] - response[j], spend[j + 1] - spend[j], m[j], m'[j]);
    }
  }

  /**
   * Scaling a curve's responses by a positive factor leaves its saturation
   * point where it was: the search compares marginal returns with a
   * fraction of their own peak.
   */
  lemma SaturationScaled(spend: seq<real>, response: seq<real>, c: real, neverRatio: real, noneRatio: real)
    requires |spend| == |response| > 0 && Increasing(spend) && c > 0.0
    ensures SaturationPoint(spend, ScaledBy(response, c), neverRatio, noneRatio)
         == SaturationPoint(spend, response, neverRatio, noneRatio)
  {
    var m := MarginalReturns(spend, response);
    MarginalScaled(spend, response, c);
    ScaledSameShape(m, c);
    SearchSameShape(ScaledBy(m, c), m);
  }
}
