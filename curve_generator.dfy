/**
 * The response-curve generator of the MMM package: for a known channel, 100
 * evenly spaced spend points from zero to a clamped maximum, the response at
 * each, the saturation point, the reported efficiency and the adstock rate;
 * a fixed channel-specific fallback curve when the spend data cannot be
 * indexed for the channel.
 *
 * The response is a Hill curve whose parameters come from the posterior,
 * or a square-root curve with a channel-specific multiplier when the
 * posterior has no Hill parameters for the channel. The Hill curve on
 * floats and `np.power` (which also gives `np.sqrt` as the power 0.5) are
 * taken as given functions.
 */
module CurveGenerator {
  import opened Py
  import opened Floats
  import opened Schemas
  import opened Artifact
  import opened CurveMath

  const CurvePoints: nat := 100
  const DefaultMaxSpend: real := 100000.0
  const MinSafeSpend: real := 50000.0
  const MaxSafeSpend: real := 200000.0
  const SpendMultiplier: real := 2.0
  const SaturationConservative: real := 0.7
  const SaturationDefault: real := 0.6
  const FallbackSpendMax: nat := 100000
  const FallbackSpendStep: nat := 1000
  const DefaultEfficiency: real := 1.0
  const EfficiencyIncrement: real := 0.2
  const MinEfficiency: real := 0.001
  const HillEcBase: real := 0.2
  const HillEcScale: real := 0.3
  const HillSlopeBase: real := 0.7
  const HillSlopeRoiScale: real := 0.4
  const HillSlopeChannelScale: real := 0.1
  const HillSlopeFallbackBase: real := 0.8
  const HillSlopeFallbackScale: real := 0.2
  const RoiResponseScale: real := 0.15
  const FallbackResponseScale: real := 0.3
  const FallbackBaseResponse: nat := 8
  const FallbackResponseIncrement: nat := 3

  /** What the generator keeps: the model, the channel names and the model's posterior. */
  datatype Generator = Generator(model: Model, channelNames: seq<string>, posterior: Posterior)

  /** The constructor reads `model.inference_data.posterior` and fails when it is missing. */
  function NewGenerator(model: Model, channelNames: seq<string>): (r: Result<Generator>)
    ensures r.Ok? <==> PosteriorOf(model).Ok?
    ensures r.Ok? ==> r.value == Generator(model, channelNames, PosteriorOf(model).value)
    ensures r.Err? ==> r.error.AttributeError?
  {
    match PosteriorOf(model)
    case Ok(p) => Ok(Generator(model, channelNames, p))
    case Err(e) => Err(e)
  }

  /**
   * `min(MAX_SAFE_SPEND, max(MIN_SAFE_SPEND, x))`: always inside the safe band;
   * NaN loses to the lower bound and an infinity goes to the nearer bound.
   */
  function SafeSpend(x: Float): (r: real)
    ensures MinSafeSpend <= r <= MaxSafeSpend
    ensures x.Finite? && MinSafeSpend <= x.value <= MaxSafeSpend ==> r == x.value
    ensures x.NaN? || x.NegInf? || (x.Finite? && x.value < MinSafeSpend) ==> r == MinSafeSpend
    ensures x.PosInf? || (x.Finite? && x.value > MaxSafeSpend) ==> r == MaxSafeSpend
  {
    var lifted := PyMax(Finite(MinSafeSpend), x);
    PyMaxFloor(MinSafeSpend, x);
    var capped := PyMin(Finite(MaxSafeSpend), lifted);
    assert capped.Finite?;
    capped.value
  }

  /**
   * The top of the spend range: twice the channel's largest observed spend,
   * clamped into the safe band; the default when the model has no spend
   * tensor or the channel's slice is empty. Indexing past the tensor's
   * channels is an IndexError, which is not caught here.
   */
  function SpendRangeMax(model: Model, idx: nat): (r: Result<real>)
    ensures r.Err? <==> MediaSpend(model).Some? && idx >= MediaSpend(model).value.channels
    ensures r.Err? ==> r.error.IndexError?
    ensures r.Ok? ==> MinSafeSpend <= r.value <= MaxSafeSpend
    ensures MediaSpend(model).None? ==> r == Ok(DefaultMaxSpend)
    ensures MediaSpend(model).Some? && idx < MediaSpend(model).value.channels ==>
      var t := MediaSpend(model).value;
      r == if t.geos * t.times == 0 then Ok(DefaultMaxSpend)
           else Ok(SafeSpend(Mul(NpMaxOf(ChannelSlice(t, idx)), Finite(SpendMultiplier))))
  {
    match MediaSpend(model)
    case None => Ok(DefaultMaxSpend)
    case Some(t) =>
      match ChannelPeak(t, idx)
      case Err(e) => if e.IndexError? then Err(e) else Ok(DefaultMaxSpend)
      case Ok(peak) => Ok(SafeSpend(Mul(peak, Finite(SpendMultiplier))))
  }

  /**
   * The efficiency the model gives a channel: its ROI when the posterior has
   * one for it; the default of 1.0 when the ROI vector is too short; a
   * channel-specific default when the posterior has no ROI at all.
   */
  function ChannelEfficiency(p: Posterior, idx: nat): (e: Float)
    ensures PosteriorEntry(p, "roi_m", idx).Ok? ==> e == p.dataVars["roi_m"][idx]
    ensures PosteriorEntry(p, "roi_m", idx).Err? ==> e.Finite? && e.value >= DefaultEfficiency
    ensures "roi_m" !in p.dataVars ==> e == Finite(DefaultEfficiency + EfficiencyIncrement * idx as real)
  {
    if "roi_m" in p.dataVars then
      match PosteriorEntry(p, "roi_m", idx)
      case Ok(roi) => roi
      case Err(_) => Finite(DefaultEfficiency)
    else Finite(DefaultEfficiency + EfficiencyIncrement * idx as real)
  }

  /** The reported efficiency `max(MIN_EFFICIENCY, e)`: a number, never below the floor. */
  function ReportedEfficiency(e: Float): (r: Float)
    ensures !r.NaN? && Ge(r, Finite(MinEfficiency))
    ensures e.Finite? && e.value > MinEfficiency ==> r == e
    ensures e.NaN? ==> r == Finite(MinEfficiency)
  {
    PyMaxFloor(MinEfficiency, e);
    PyMax(Finite(MinEfficiency), e)
  }

  /**
   * `0.3 + (idx * 0.05) % 0.5`, the default adstock rate, written with the
   * exact value of the remainder: it cycles through 0.30, 0.35, ..., 0.75.
   */
  function DefaultAdstock(idx: nat): (a: real)
    ensures 0.3 <= a <= 0.75
  {
    0.3 + 0.05 * (idx % 10) as real
  }

  /** Channels ten apart share the default adstock rate. */
  lemma DefaultAdstockPeriodic(idx: nat)
    ensures DefaultAdstock(idx + 10) == DefaultAdstock(idx)
    ensures idx < 10 ==> DefaultAdstock(idx) == 0.3 + 0.05 * idx as real
  {
  }

  /** The adstock rate: the posterior's `alpha_m` for the channel, else the default. */
  function AdstockRate(p: Posterior, idx: nat): (a: Float)
    ensures PosteriorEntry(p, "alpha_m", idx).Ok? ==> a == p.dataVars["alpha_m"][idx]
    ensures PosteriorEntry(p, "alpha_m", idx).Err? ==> a == Finite(DefaultAdstock(idx))
  {
    match PosteriorEntry(p, "alpha_m", idx)
    case Ok(alpha) => alpha
    case Err(_) => Finite(DefaultAdstock(idx))
  }

  /**
   * The fallback curve: spend 0, 1000, ..., 99000; response
   * `s ** (0.8 + 0.3 idx) * (8 + 3 idx) / 1000`; fixed saturation,
   * efficiency and adstock that grow with the channel index.
   */
  function FallbackCurve(idx: nat, pow: (real, real) -> real): (c: Curve)
    ensures |c.spend| == CurvePoints && |c.response| == CurvePoints
    ensures forall k :: 0 <= k < CurvePoints ==> c.spend[k] == (k * FallbackSpendStep) as real
    ensures Increasing(c.spend)
    ensures forall k :: 0 <= k < CurvePoints ==>
      c.response[k] == pow(c.spend[k], 0.8 + 0.3 * idx as real) * (8 + 3 * idx) as real / 1000.0
    ensures c.saturationPoint == (40000 + 8000 * idx) as real
    ensures c.efficiency == Finite(0.05 + 0.02 * idx as real)
    ensures c.adstockRate == Finite(0.2 + 0.1 * idx as real)
  {
    var steps := Range(FallbackSpendMax, FallbackSpendStep);
    var spend := seq(|steps|, k requires 0 <= k < |steps| => steps[k] as real);
    var shape := 0.8 + 0.3 * idx as real;
    var base := (8 + 3 * idx) as real;
    Curve(spend,
          seq(|spend|, k requires 0 <= k < |spend| => pow(spend[k], shape) * base / 1000.0),
          (40000 + 8000 * idx) as real,
          Finite(0.05 + 0.02 * idx as real),
          Finite(0.2 + 0.1 * idx as real))
  }

  /** How the response at a spend point is computed: a Hill curve, or `sqrt(s) * multiplier`. */
  datatype Response = HillCurve(params: Hill) | SqrtCurve(multiplier: real)

  /**
   * The Hill parameters read for the channel at `idx` over a spend range
   * topping out at `top`, when the posterior has both `ec_m` and `slope_m`:
   * the half-saturation spend is `top * (0.2 + 0.3 ec)`; with an ROI vector
   * the slope is `0.7 + 0.4 roi + 0.1 idx` and the curve is scaled by
   * `roi * top * 0.15`, without one the slope is `0.8 + 0.2 idx` and the
   * scale `top * 0.3`. None when a variable is missing or an index is past
   * the end of its vector, which is the IndexError the callers catch.
   */
  function EcSlopeHill(p: Posterior, idx: nat, top: real): (r: Option<Hill>)
    ensures r.Some? <==>
      PosteriorEntry(p, "ec_m", idx).Ok? && PosteriorEntry(p, "slope_m", idx).Ok?
      && ("roi_m" in p.dataVars ==> PosteriorEntry(p, "roi_m", idx).Ok?)
    ensures r.Some? ==>
      r.value.ec == Mul(Finite(top), Add(Finite(HillEcBase), Mul(p.dataVars["ec_m"][idx], Finite(HillEcScale))))
    ensures r.Some? && "roi_m" in p.dataVars ==>
      var roi := p.dataVars["roi_m"][idx];
      r.value.slope == Add(Add(Finite(HillSlopeBase), Mul(roi, Finite(HillSlopeRoiScale))),
                           Finite(idx as real * HillSlopeChannelScale))
      && r.value.scale == Mul(Mul(roi, Finite(top)), Finite(RoiResponseScale))
    ensures r.Some? && "roi_m" !in p.dataVars ==>
      r.value.slope == Finite(HillSlopeFallbackBase + idx as real * HillSlopeFallbackScale)
      && r.value.scale == Finite(top * FallbackResponseScale)
  {
    var t := Finite(top);
    if "ec_m" in p.dataVars && "slope_m" in p.dataVars then
      match (PosteriorEntry(p, "ec_m", idx), PosteriorEntry(p, "slope_m", idx))
      case (Ok(ec), Ok(_)) =>
        var adjustedEc := Mul(t, Add(Finite(HillEcBase), Mul(ec, Finite(HillEcScale))));
        if "roi_m" in p.dataVars then
          match PosteriorEntry(p, "roi_m", idx)
          case Ok(roi) =>
            Some(Hill(adjustedEc, Add(Add(Finite(HillSlopeBase), Mul(roi, Finite(HillSlopeRoiScale))),
                                      Finite(idx as real * HillSlopeChannelScale)),
                      Mul(Mul(roi, t), Finite(RoiResponseScale))))
          case Err(_) => None
        else
          Some(Hill(adjustedEc, Add(Finite(HillSlopeFallbackBase), Finite(idx as real * HillSlopeFallbackScale)),
                    Mul(t, Finite(FallbackResponseScale))))
      case _ => None
    else None
  }

  /** The square-root multiplier of this generator's simple curve, `8 + 3 idx`. */
  function PackageMultiplier(idx: nat): (m: real)
    ensures m >= FallbackBaseResponse as real
    ensures m == (FallbackBaseResponse + idx * FallbackResponseIncrement) as real
  {
    (FallbackBaseResponse + idx * FallbackResponseIncrement) as real
  }

  /**
   * The response the generator uses for the channel at `idx`: the Hill
   * curve when the posterior gives its parameters, else the square-root
   * curve with the given multiplier.
   */
  function ResponseOf(p: Posterior, idx: nat, top: real, multiplier: real): (r: Response)
    ensures r.HillCurve? <==> EcSlopeHill(p, idx, top).Some?
    ensures r.HillCurve? ==> r.params == EcSlopeHill(p, idx, top).value
    ensures r.SqrtCurve? ==> r.multiplier == multiplier
  {
    match EcSlopeHill(p, idx, top)
    case Some(h) => HillCurve(h)
    case None => SqrtCurve(multiplier)
  }

  /** The response at spend `s`. */
  function Evaluate(r: Response, s: real, hill: (real, Hill) -> real, pow: (real, real) -> real): (y: real)
    ensures r.HillCurve? ==> y == hill(s, r.params)
    ensures r.SqrtCurve? ==> y == pow(s, 0.5) * r.multiplier
  {
    match r
    case HillCurve(h) => hill(s, h)
    case SqrtCurve(m) => pow(s, 0.5) * m
  }

  /**
   * The curve built from the model for a spend range topping out at `top`:
   * 100 points from 0 to `top`, the channel's response at each (Hill or
   * square root with the given multiplier), the clamped saturation point,
   * the floored efficiency and the adstock rate.
   */
  function ModelCurve(p: Posterior, idx: nat, top: real, multiplier: real,
                      hill: (real, Hill) -> real, pow: (real, real) -> real): (c: Curve)
    requires top > 0.0
    ensures c.spend == Linspace(0.0, top, CurvePoints) && Increasing(c.spend)
    ensures |c.response| == CurvePoints
    ensures forall k :: 0 <= k < CurvePoints ==>
      c.response[k] == Evaluate(ResponseOf(p, idx, top, multiplier), c.spend[k], hill, pow)
    ensures c.saturationPoint == SaturationPoint(c.spend, c.response, SaturationConservative, SaturationDefault)
    ensures SaturationMinBound * top <= c.saturationPoint <= SaturationMaxBound * top
    ensures c.efficiency == ReportedEfficiency(ChannelEfficiency(p, idx))
    ensures c.adstockRate == AdstockRate(p, idx)
  {
    var spend := Linspace(0.0, top, CurvePoints);
    LinspaceIncreasing(0.0, top, CurvePoints);
    MaxOfIncreasing(spend);
    var shape := ResponseOf(p, idx, top, multiplier);
    var response := seq(CurvePoints, k requires 0 <= k < CurvePoints => Evaluate(shape, spend[k], hill, pow));
    Curve(spend, response,
          SaturationPoint(spend, response, SaturationConservative, SaturationDefault),
          ReportedEfficiency(ChannelEfficiency(p, idx)),
          AdstockRate(p, idx))
  }

  /**
   * The curve for the channel at `idx` of a known name: the fallback when
   * the spend slice cannot be indexed, else the model's curve over the
   * spend range.
   */
  function ChannelCurve(g: Generator, idx: nat, hill: (real, Hill) -> real, pow: (real, real) -> real): (c: Curve)
    ensures SpendRangeMax(g.model, idx).Err? ==> c == FallbackCurve(idx, pow)
    ensures SpendRangeMax(g.model, idx).Ok? ==>
      c == ModelCurve(g.posterior, idx, SpendRangeMax(g.model, idx).value, PackageMultiplier(idx), hill, pow)
  {
    match SpendRangeMax(g.model, idx)
    case Err(_) => FallbackCurve(idx, pow)
    case Ok(top) => ModelCurve(g.posterior, idx, top, PackageMultiplier(idx), hill, pow)
  }

  /**
   * `generate_curve(channel)`. A missing or non-string channel is a
   * ValueError. An unknown channel raises a ValueError inside the guarded
   * block, whose handler then reads the channel index that was never
   * assigned: an UnboundLocalError escapes. A known channel gets the curve
   * for its first position in the channel names.
   */
  function GenerateCurve(g: Generator, channel: Value, hill: (real, Hill) -> real, pow: (real, real) -> real): (r: Result<Curve>)
    ensures r.Err? && r.error.ValueError? <==> !(channel.Str? && channel.s != "")
    ensures r.Err? && r.error.UnboundLocalError? <==>
      channel.Str? && channel.s != "" && channel.s !in g.channelNames
    ensures r.Err? ==> r.error.ValueError? || r.error.UnboundLocalError?
    ensures channel.Str? && channel.s != "" && channel.s in g.channelNames ==>
      r == Ok(ChannelCurve(g, IndexOf(g.channelNames, channel.s), hill, pow))
  {
    if !channel.Truthy() || !channel.Str? then Err(ValueError("Channel must be a non-empty string"))
    else if channel.s !in g.channelNames then Err(UnboundLocalError("channel_idx"))
    else Ok(ChannelCurve(g, IndexOf(g.channelNames, channel.s), hill, pow))
  }

  /**
   * For a known channel the generator always answers: either the fallback
   * (exactly when the spend tensor has fewer channels than the index) or
   * a 100-point curve from 0 to a top inside the safe band, with its
   * saturation point at 20%..90% of the top and a positive efficiency.
   */
  lemma GenerateCurveKnownChannel(g: Generator, name: string, hill: (real, Hill) -> real, pow: (real, real) -> real)
    requires name != "" && name in g.channelNames
    ensures var r := GenerateCurve(g, Str(name), hill, pow);
      var idx := IndexOf(g.channelNames, name);
      var t := MediaSpend(g.model);
      r.Ok?
      && (r.value == FallbackCurve(idx, pow) <== t.Some? && idx >= t.value.channels)
      && (t.None? || idx < t.value.channels ==>
            exists top :: MinSafeSpend <= top <= MaxSafeSpend
              && r.value.spend == Linspace(0.0, top, CurvePoints)
              && SaturationMinBound * top <= r.value.saturationPoint <= SaturationMaxBound * top
              && Ge(r.value.efficiency, Finite(MinEfficiency)))
  {
    ChannelCurveShape(g, IndexOf(g.channelNames, name), hill, pow);
  }

  /**
   * The curve of the channel at `idx`: the fallback when the spend tensor
   * has fewer channels than the index, else a 100-point curve from 0 to a
   * top inside the safe band with its saturation point at 20%..90% of the
   * top and a positive efficiency.
   */
  lemma ChannelCurveShape(g: Generator, idx: nat, hill: (real, Hill) -> real, pow: (real, real) -> real)
    ensures var c := ChannelCurve(g, idx, hill, pow);
      var t := MediaSpend(g.model);
      (c == FallbackCurve(idx, pow) <== t.Some? && idx >= t.value.channels)
      && (t.None? || idx < t.value.channels ==>
            exists top :: MinSafeSpend <= top <= MaxSafeSpend
              && c.spend == Linspace(0.0, top, CurvePoints)
              && SaturationMinBound * top <= c.saturationPoint <= SaturationMaxBound * top
              && Ge(c.efficiency, Finite(MinEfficiency)))
  {
    var t := MediaSpend(g.model);
    if t.None? || idx < t.value.channels {
      var top := SpendRangeMax(g.model, idx).value;
      var c := ModelCurve(g.posterior, idx, top, PackageMultiplier(idx), hill, pow);
      assert ChannelCurve(g, idx, hill, pow) == c;
      assert MinSafeSpend <= top <= MaxSafeSpend && c.spend == Linspace(0.0, top, CurvePoints);
    }
  }

  // ---------------------------------------------------------------------
  // The unknown-channel path as documented

  /**
   * `generate_curve` as its documentation describes it: an unknown channel
   * is a ValueError naming the available channels.
   */
  function GenerateCurveIntended(g: Generator, channel: Value, hill: (real, Hill) -> real, pow: (real, real) -> real): (r: Result<Curve>)
    ensures r.Err? <==> !(channel.Str? && channel.s != "" && channel.s in g.channelNames)
    ensures r.Err? ==> r.error.ValueError?
    ensures r.Ok? ==> r == GenerateCurve(g, channel, hill, pow)
  {
    if channel.Str? && channel.s != "" && channel.s !in g.channelNames then
      Err(ValueError("Channel '" + channel.s + "' not found in model. Available channels: " + ListRepr(g.channelNames)))
    else GenerateCurve(g, channel, hill, pow)
  }

  /**
   * Asking for a channel the generator does not know escapes as an
   * UnboundLocalError instead of the documented ValueError.
   */
  lemma UnknownChannelEscapes(g: Generator, name: string, hill: (real, Hill) -> real, pow: (real, real) -> real)
    requires name != "" && name !in g.channelNames
    ensures GenerateCurve(g, Str(name), hill, pow) == Err(UnboundLocalError("channel_idx"))
    ensures GenerateCurveIntended(g, Str(name), hill, pow).Err?
    ensures GenerateCurveIntended(g, Str(name), hill, pow).error.ValueError?
  {
  }
}
