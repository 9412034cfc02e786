/**
 * The older response-curve generator of the services package. It builds the
 * same 100-point curve as the MMM package's generator, with the constants
 * written as literals, but every helper swallows every exception: a spend
 * tensor that cannot be indexed for the channel gives the default spend
 * range instead of the fallback curve, and an unknown channel escapes as an
 * UnboundLocalError from the handler that reads the unassigned index.
 */
module LegacyCurveGenerator {
  import opened Py
  import opened Floats
  import opened Schemas
  import opened Artifact
  import opened CurveMath
  import opened CurveGenerator

  /**
   * `_get_spend_range`: twice the channel's largest spend clamped into
   * [50000, 200000]; 100000 when the model has no spend tensor and, through
   * the bare `except`, when the channel cannot be indexed or its slice is empty.
   */
  function LegacySpendRangeMax(model: Model, idx: nat): (top: real)
    ensures MinSafeSpend <= top <= MaxSafeSpend
    ensures MediaSpend(model).None? ==> top == DefaultMaxSpend
    ensures MediaSpend(model).Some? && idx >= MediaSpend(model).value.channels ==> top == DefaultMaxSpend
    ensures SpendRangeMax(model, idx).Ok? ==> top == SpendRangeMax(model, idx).value
  {
    match SpendRangeMax(model, idx)
    case Ok(t) => t
    case Err(_) => DefaultMaxSpend
  }

  /** The square-root multiplier of the older generator's simple curve, `50 + 20 idx`. */
  function LegacyMultiplier(idx: nat): (m: real)
    ensures m > PackageMultiplier(idx) > 0.0
    ensures m == (50 + 20 * idx) as real
  {
    (50 + 20 * idx) as real
  }

  /**
   * `generate_curve(channel)`: any channel not in the names raises a
   * ValueError whose handler reads the unassigned `channel_idx`, so an
   * UnboundLocalError escapes; a known channel always gets the curve over
   * the spend range, since no helper lets an exception out. Its response is
   * the same Hill curve as the package's, or `sqrt(s) * (50 + 20 idx)`.
   */
  function LegacyGenerateCurve(g: Generator, channel: Value, hill: (real, Hill) -> real, pow: (real, real) -> real): (r: Result<Curve>)
    ensures r.Err? <==> !(channel.Str? && channel.s in g.channelNames)
    ensures r.Err? ==> r.error == UnboundLocalError("channel_idx")
    ensures r.Ok? ==>
      var idx := IndexOf(g.channelNames, channel.s);
      r.value == ModelCurve(g.posterior, idx, LegacySpendRangeMax(g.model, idx), LegacyMultiplier(idx), hill, pow)
  {
    if !channel.Str? || channel.s !in g.channelNames then Err(UnboundLocalError("channel_idx"))
    else
      var idx := IndexOf(g.channelNames, channel.s);
      Ok(ModelCurve(g.posterior, idx, LegacySpendRangeMax(g.model, idx), LegacyMultiplier(idx), hill, pow))
  }

  /**
   * Every curve the older generator returns spans 0 to a top inside the safe
   * band in 100 points, has its saturation point within 20%..90% of the top,
   * an efficiency of at least 0.001, and the model's or the default adstock
   * rate.
   */
  lemma LegacyCurveShape(g: Generator, channel: Value, hill: (real, Hill) -> real, pow: (real, real) -> real)
    requires LegacyGenerateCurve(g, channel, hill, pow).Ok?
    ensures var c := LegacyGenerateCurve(g, channel, hill, pow).value;
      var idx := IndexOf(g.channelNames, channel.s);
      var top := c.spend[CurvePoints - 1];
      MinSafeSpend <= top <= MaxSafeSpend
      && c.spend == Linspace(0.0, top, CurvePoints)
      && SaturationMinBound * top <= c.saturationPoint <= SaturationMaxBound * top
      && Ge(c.efficiency, Finite(MinEfficiency))
      && c.adstockRate == AdstockRate(g.posterior, idx)
  {
    var idx := IndexOf(g.channelNames, channel.s);
    var top := LegacySpendRangeMax(g.model, idx);
    var c := ModelCurve(g.posterior, idx, top, LegacyMultiplier(idx), hill, pow);
    assert LegacyGenerateCurve(g, channel, hill, pow).value == c;
    var e := ReportedEfficiency(ChannelEfficiency(g.posterior, idx));
    assert c.spend[CurvePoints - 1] == top;
  }

  /** `(l / p) * (x * p) == x * l`: rescaling one multiplier into the other. */
  lemma Rescale(x: real, l: real, p: real, xp: real, xl: real)
    requires p > 0.0 && xp == x * p && xl == x * l
    ensures (l / p) * xp == xl
  {
    calc {
      (l / p) * xp;
      == (l / p) * (x * p);
      == x * (l / p * p);
      == { assert l / p * p == l; }
      x * l;
    }
  }

  /** The ratio of two positive multipliers is positive. */
  lemma RatioPositive(l: real, p: real)
    requires l > 0.0 && p > 0.0
    ensures l / p > 0.0
  {
  }

  /** Two different multipliers give the same product exactly at zero. */
  lemma DistinctMultipliers(x: real, l: real, p: real, xp: real, xl: real)
    requires l != p && xp == x * p && xl == x * l
    ensures xl == xp <==> x == 0.0
  {
    assert xl - xp == x * (l - p);
  }

  /**
   * Responses `x * l` and `x * p` point by point: the first is the second
   * scaled by `l / p`, and they meet exactly where `x` is zero.
   */
  lemma RescaledResponses(spend: seq<real>, ours: seq<real>, theirs: seq<real>, l: real, p: real,
                           hill: (real, Hill) -> real, pow: (real, real) -> real)
    requires p > 0.0 && l != p
    requires |spend| == |ours| == |theirs|
    requires forall k :: 0 <= k < |spend| ==>
      ours[k] == Evaluate(SqrtCurve(p), spend[k], hill, pow) && theirs[k] == Evaluate(SqrtCurve(l), spend[k], hill, pow)
    ensures theirs == ScaledBy(ours, l / p)
    ensures forall k :: 0 <= k < |spend| ==> (theirs[k] == ours[k] <==> pow(spend[k], 0.5) == 0.0)
  {
    forall k | 0 <= k < |spend|
      ensures theirs[k] == (l / p) * ours[k]
      ensures theirs[k] == ours[k] <==> pow(spend[k], 0.5) == 0.0
    {
      var x := pow(spend[k], 0.5);
      Rescale(x, l, p, ours[k], theirs[k]);
      DistinctMultipliers(x, l, p, ours[k], theirs[k]);
    }
    var scaled := ScaledBy(ours, l / p);
    assert forall k :: 0 <= k < |spend| ==> scaled[k] == theirs[k];
  }

  /**
   * Two model curves for the same channel and range that differ only in the
   * square-root multiplier share their grid, saturation point, efficiency
   * and adstock rate; with Hill parameters they are the same curve, and
   * without them one response is the other scaled by the multipliers' ratio.
   */
  lemma MultiplierOnlyScales(p: Posterior, idx: nat, top: real, l: real, m: real,
                             hill: (real, Hill) -> real, pow: (real, real) -> real)
    requires top > 0.0 && m > 0.0 && l > 0.0 && l != m
    ensures var ours := ModelCurve(p, idx, top, m, hill, pow);
      var theirs := ModelCurve(p, idx, top, l, hill, pow);
      theirs.spend == ours.spend
      && theirs.saturationPoint == ours.saturationPoint
      && theirs.efficiency == ours.efficiency
      && theirs.adstockRate == ours.adstockRate
      && (EcSlopeHill(p, idx, top).Some? ==> theirs == ours)
      && (EcSlopeHill(p, idx, top).None? ==>
            theirs.response == ScaledBy(ours.response, l / m)
            && forall k :: 0 <= k < CurvePoints ==>
                 (theirs.response[k] == ours.response[k] <==> pow(ours.spend[k], 0.5) == 0.0))
  {
    var ours := ModelCurve(p, idx, top, m, hill, pow);
    var theirs := ModelCurve(p, idx, top, l, hill, pow);
    if EcSlopeHill(p, idx, top).Some? {
      assert ResponseOf(p, idx, top, l) == ResponseOf(p, idx, top, m);
      assert theirs.response == ours.response;
    } else {
      assert ResponseOf(p, idx, top, m) == SqrtCurve(m) && ResponseOf(p, idx, top, l) == SqrtCurve(l);
      RescaledResponses(ours.spend, ours.response, theirs.response, l, m, hill, pow);
      RatioPositive(l, m);
      SaturationScaled(ours.spend, ours.response, l / m, SaturationConservative, SaturationDefault);
    }
  }

  /**
   * The two generators agree on what does not depend on the response
   * multiplier. Where the package's generator can index the spend tensor,
   * both give a known channel the same spend grid, the same saturation
   * point, efficiency and adstock rate; the same response when the
   * posterior holds Hill parameters for the channel; and otherwise the
   * older one's square-root response is the package's scaled by
   * `(50 + 20 idx) / (8 + 3 idx)`, equal only where the square root is zero.
   * Where the spend tensor cannot be indexed, the package's generator
   * answers the fallback curve and the older one the curve over the default
   * range.
   */
  lemma LegacyMatchesCurrent(g: Generator, name: string, hill: (real, Hill) -> real, pow: (real, real) -> real)
    requires name != "" && name in g.channelNames
    ensures GenerateCurve(g, Str(name), hill, pow).Ok? && LegacyGenerateCurve(g, Str(name), hill, pow).Ok?
    ensures var idx := IndexOf(g.channelNames, name);
      var ours := GenerateCurve(g, Str(name), hill, pow).value;
      var theirs := LegacyGenerateCurve(g, Str(name), hill, pow).value;
      if SpendRangeMax(g.model, idx).Ok? then
        theirs.spend == ours.spend
        && theirs.saturationPoint == ours.saturationPoint
        && theirs.efficiency == ours.efficiency
        && theirs.adstockRate == ours.adstockRate
        && (EcSlopeHill(g.posterior, idx, SpendRangeMax(g.model, idx).value).Some? ==> theirs == ours)
        && (EcSlopeHill(g.posterior, idx, SpendRangeMax(g.model, idx).value).None? ==>
              theirs.response == ScaledBy(ours.response, LegacyMultiplier(idx) / PackageMultiplier(idx))
              && forall k :: 0 <= k < CurvePoints ==>
                   (theirs.response[k] == ours.response[k] <==> pow(ours.spend[k], 0.5) == 0.0))
      else
        ours == FallbackCurve(idx, pow)
        && theirs.spend == Linspace(0.0, DefaultMaxSpend, CurvePoints)
  {
    var idx := IndexOf(g.channelNames, name);
    if SpendRangeMax(g.model, idx).Ok? {
      MultiplierOnlyScales(g.posterior, idx, SpendRangeMax(g.model, idx).value,
                           LegacyMultiplier(idx), PackageMultiplier(idx), hill, pow);
    }
  }
}
