/**
 * The service behind the dashboard's model endpoints: it loads the model
 * file through the cached loader and answers the model's metadata, its
 * channel names, contribution data, response curves and channel summaries.
 * Each public operation turns whatever goes wrong into an MMMModelError
 * whose message names the operation and carries the original message.
 *
 * Every operation takes the outcome of loading the model; the cache around
 * the loader is `ModelCache.CachedLoader`. Within one operation every later
 * load is a cache hit and gives the same model, so the model is read once.
 * The random draws of the fallback series, of the fallback model and the
 * Hill curve evaluated on floats are given functions.
 */
module Service {
  import opened Py
  import opened Floats
  import opened Schemas
  import opened Dicts
  import opened Artifact
  import opened Contributions
  import opened Fills
  import opened CurveMath
  import CurveGenerator
  import DataProcessorLegacy

  // ---------------------------------------------------------------------
  // The fallback model built when Meridian cannot be imported

  const FallbackChannelCount: nat := 5
  const FallbackPeriods: nat := 156
  const FallbackGeos: nat := 40

  /** What the generator seeded with 42 draws: five values per parameter and the base spend. */
  datatype FallbackDraws = FallbackDraws(roi: seq<real>, ec: seq<real>, slope: seq<real>, contr: seq<real>,
                                         alpha: seq<real>, base: seq<seq<seq<real>>>)

  /** `rng.uniform(lo, hi, size=5)`. */
  predicate UniformIn(xs: seq<real>, lo: real, hi: real)
  {
    |xs| == FallbackChannelCount && forall c :: 0 <= c < |xs| ==> lo <= xs[c] < hi
  }

  /** The draws have the sizes and ranges the fallback model asks for. */
  predicate Drawn(d: FallbackDraws)
  {
    UniformIn(d.roi, 0.8, 1.8) && UniformIn(d.ec, 0.2, 0.6) && UniformIn(d.slope, 0.8, 1.4)
    && UniformIn(d.contr, 0.3, 0.8) && UniformIn(d.alpha, 0.2, 0.5)
    && |d.base| == FallbackGeos
    && (forall g :: 0 <= g < FallbackGeos ==> |d.base[g]| == FallbackPeriods)
    && (forall g, i :: 0 <= g < FallbackGeos && 0 <= i < FallbackPeriods ==> |d.base[g][i]| == FallbackChannelCount)
    && (forall g, i, c :: 0 <= g < FallbackGeos && 0 <= i < FallbackPeriods && 0 <= c < FallbackChannelCount ==>
          500.0 <= d.base[g][i][c] < 2500.0)
  }

  /** `base.cumsum(axis=1)`: each geo's and channel's base spend accumulated over time. */
  function FallbackSpend(d: FallbackDraws): (t: SpendTensor)
    requires Drawn(d)
    ensures t.geos == FallbackGeos && t.times == FallbackPeriods && t.channels == FallbackChannelCount
  {
    Tensor3(FallbackGeos, FallbackPeriods, FallbackChannelCount,
      seq(FallbackGeos, g requires 0 <= g < FallbackGeos =>
        seq(FallbackPeriods, i requires 0 <= i < FallbackPeriods =>
          seq(FallbackChannelCount, c requires 0 <= c < FallbackChannelCount =>
            Finite(Sum(seq(i + 1, k requires 0 <= k <= i => d.base[g][k][c])))))))
  }

  /** `media_spend.sum(axis=0)`: the spend summed over geos, time by channel. */
  function GeoTotal(t: SpendTensor): (m: Grid)
    ensures m.rows == t.times && m.cols == t.channels
  {
    Matrix(t.times, t.channels,
      seq(t.times, i requires 0 <= i < t.times =>
        seq(t.channels, c requires 0 <= c < t.channels => NpSum(GeoSeries(t, i, c)))))
  }

  /** `[f"Channel{i}" for i in range(n)]`. */
  function PlainChannels(n: nat): (names: seq<string>)
    ensures |names| == n && forall i :: 0 <= i < n ==> names[i] == "Channel" + NatToString(i)
  {
    seq(n, i requires 0 <= i < n => "Channel" + NatToString(i))
  }

  /**
   * The lightweight model: the five posterior parameters, the accumulated
   * spend tensor, its total over geos, media columns `Channel0`..`Channel4`,
   * five channels and 156 time periods.
   */
  function FallbackModel(d: FallbackDraws): (m: Model)
    requires Drawn(d)
    ensures MediaSpend(m) == Some(FallbackSpend(d))
  {
    var t := FallbackSpend(d);
    var posterior := Posterior(map["roi_m" := Floats.Floats(d.roi), "ec_m" := Floats.Floats(d.ec), "slope_m" := Floats.Floats(d.slope),
                                   "contr_coef" := Floats.Floats(d.contr), "alpha_m" := Floats.Floats(d.alpha)]);
    Model("_FallbackModel", "<class 'app.services.mmm_service._load_model_cached.<locals>._FallbackModel'>",
          Some(InferenceData(Some(posterior))), Some(MediaTensors(Some(t))), Some(GeoTotal(t)),
          Some(InputData(Some(Media(Some(PlainChannels(FallbackChannelCount)), None)))),
          None, Some(FallbackChannelCount), Some(FallbackPeriods))
  }

  // ---------------------------------------------------------------------
  // Channel names and model information

  const DefaultChannels: seq<string> := ["Google_Search", "Google_Display", "Facebook", "Instagram", "YouTube"]

  /**
   * `_get_channel_names()`: the names the model lists, else the five
   * defaults; a failed load is caught here too and gives the defaults.
   */
  function ChannelNames(loaded: Result<Model>): (names: seq<string>)
    ensures loaded.Err? ==> names == DefaultChannels
    ensures loaded.Ok? && ListedChannelNames(loaded.value).Some? ==> names == ListedChannelNames(loaded.value).value
    ensures loaded.Ok? && ListedChannelNames(loaded.value).None? ==> names == DefaultChannels
  {
    match loaded
    case Err(_) => DefaultChannels
    case Ok(m) =>
      match ListedChannelNames(m)
      case Some(names) => names
      case None => DefaultChannels
  }

  /** `get_channel_names()`: never raises, since the lookup it wraps catches everything. */
  function GetChannelNames(loaded: Result<Model>): (r: Result<seq<string>>)
    ensures r == Ok(ChannelNames(loaded))
  {
    Ok(ChannelNames(loaded))
  }

  /**
   * The media columns win over every other source; a model listing nothing,
   * or a model that failed to load, has the five defaults.
   */
  lemma ChannelNamesPriority(loaded: Result<Model>)
    ensures loaded.Ok? && MediaNames(loaded.value).Some? ==> ChannelNames(loaded) == MediaNames(loaded.value).value
    ensures loaded.Ok? && MediaNames(loaded.value).None? && loaded.value.modelSpec.Some?
            && loaded.value.modelSpec.value.mediaNames.Some?
            ==> ChannelNames(loaded) == loaded.value.modelSpec.value.mediaNames.value
    ensures |ChannelNames(loaded)| == 0 ==> loaded.Ok? && ListedChannelNames(loaded.value) == Some([])
  {
  }

  /** `raise MMMModelError(f"Failed to ...: {str(e)}")`, the prefix ending in ": ". */
  function Wrap(prefix: string, e: Error): Error
  {
    MMMModelError(prefix + ErrorText(e))
  }

  /**
   * `get_model_info()`: fixed metadata, the channel names and the model's
   * number of time periods (104 when it has none); a failed load is wrapped.
   */
  function ModelInfoOf(loaded: Result<Model>): (r: Result<ModelInfo>)
    ensures r.Err? <==> loaded.Err?
    ensures r.Err? ==> r.error == MMMModelError("Failed to get model info: " + ErrorText(loaded.error))
    ensures r.Ok? ==>
      r.value.channels == ChannelNames(loaded) && r.value.modelType == "Google Meridian"
      && r.value.dataSource == "real_model" && r.value.dataFrequency == "weekly"
      && r.value.totalWeeks == (if loaded.value.nTimes.Some? then loaded.value.nTimes.value else 104)
  {
    match loaded
    case Err(e) => Err(Wrap("Failed to get model info: ", e))
    case Ok(m) =>
      Ok(ModelInfo("Google Meridian", "1.0.0", "2022-01-01 to 2024-01-01", ChannelNames(loaded), "weekly",
                   if m.nTimes.Some? then m.nTimes.value else 104, "real_model"))
  }

  /** The fallback model names its channels `Channel0`..`Channel4` and reports 156 weeks. */
  lemma FallbackModelInfo(d: FallbackDraws)
    requires Drawn(d)
    ensures var loaded := Ok(FallbackModel(d));
      ChannelNames(loaded) == PlainChannels(FallbackChannelCount)
      && ChannelNames(loaded)[0] == "Channel0" && ChannelNames(loaded)[4] == "Channel4"
      && ModelInfoOf(loaded).Ok? && ModelInfoOf(loaded).value.totalWeeks == FallbackPeriods
  {
    assert NatToString(0) == "0";
    assert NatToString(4) == "4";
  }

  // ---------------------------------------------------------------------
  // Contribution data

  /**
   * The channels a call selects, as the data processors select them; an
   * unknown truthy channel is an MMMModelError here.
   */
  function Targets(names: seq<string>, channel: Option<string>): (r: Result<seq<string>>)
    ensures r.Ok? <==> DataProcessorLegacy.Targets(names, channel).Ok?
    ensures r.Ok? ==> r == DataProcessorLegacy.Targets(names, channel)
    ensures r.Err? ==> r.error == MMMModelError(UnknownChannel(channel.value))
  {
    match DataProcessorLegacy.Targets(names, channel)
    case Ok(targets) => Ok(targets)
    case Err(_) => Err(MMMModelError(UnknownChannel(channel.value)))
  }

  /** The ROI means of the posterior, an MMMModelError when it has none. */
  function RoiData(p: Posterior): (r: Result<seq<Float>>)
    ensures r.Ok? <==> "roi_m" in p.dataVars
    ensures r.Ok? ==> r.value == p.dataVars["roi_m"]
    ensures r.Err? ==> r.error == MMMModelError("No ROI data found in model posterior")
  {
    if "roi_m" !in p.dataVars then Err(MMMModelError("No ROI data found in model posterior"))
    else Ok(p.dataVars["roi_m"])
  }

  /** `model.media_tensors.media_spend`, read without a check: an AttributeError when missing. */
  function SpendTensorOf(m: Model): (r: Result<SpendTensor>)
    ensures r.Ok? <==> MediaSpend(m).Some?
    ensures r.Ok? ==> r.value == MediaSpend(m).value
    ensures r.Err? ==> r.error.AttributeError?
  {
    match m.mediaTensors
    case None => Err(AttributeError("media_tensors"))
    case Some(mt) =>
      match mt.mediaSpend
      case None => Err(AttributeError("media_spend"))
      case Some(t) => Ok(t)
  }

  /**
   * A channel's contributions: its ROI times its geo-averaged spend when
   * the index is inside both, else 156 drawn periods.
   */
  function ChannelSeries(idx: nat, roi: seq<Float>, spend: Grid, draws: (nat, nat) -> real): (s: seq<Float>)
    ensures |s| == if idx < |roi| && idx < spend.cols then spend.rows else FallbackPeriods
    ensures idx < |roi| && idx < spend.cols ==> s == DataProcessorLegacy.ChannelSeries(idx, roi, spend, draws)
    ensures !(idx < |roi| && idx < spend.cols) ==>
      AllFinite(s) && forall k :: 0 <= k < FallbackPeriods ==> s[k] == Finite(draws(idx, k))
  {
    if idx < |roi| && idx < spend.cols then Scaled(roi[idx], Column(spend, idx))
    else FallbackSeries(draws, idx, FallbackPeriods)
  }

  /** One channel's series and numpy's statistics of it, or the error those raise. */
  function Outcome(roi: seq<Float>, spend: Grid, draws: (nat, nat) -> real): nat -> ChannelOutcome
  {
    (i: nat) =>
      var s := ChannelSeries(i, roi, spend, draws);
      match NumpyStats(s)
      case Err(e) => Err(e)
      case Ok(st) => Ok((s, st))
  }

  /**
   * A channel fails exactly when its index is inside the data and there are
   * no time periods: the drawn series always has 156.
   */
  lemma OutcomeMeaning(roi: seq<Float>, spend: Grid, draws: (nat, nat) -> real, i: nat)
    ensures var o := Outcome(roi, spend, draws)(i);
      (o.Err? <==> i < |roi| && i < spend.cols && spend.rows == 0) && (o.Err? ==> o.error.ValueError?)
      && (o.Ok? ==> o.value.0 == ChannelSeries(i, roi, spend, draws) && NumpyStats(o.value.0) == Ok(o.value.1))
  {
  }

  /** The loop over the channels and the returned dictionary, from the ROI and the averaged spend on. */
  function Collected(names: seq<string>, targets: seq<string>, roi: seq<Float>, spend: Grid,
                     draws: (nat, nat) -> real): (r: Result<ContributionData>)
    ensures r.Ok? ==> r.value.data.Valid() && r.value.summary.Valid() && r.value.data.keys == r.value.summary.keys
  {
    var filled :- Fill(names, targets, Outcome(roi, spend, draws), |names|);
    FillValid(names, targets, Outcome(roi, spend, draws), |names|);
    DataProcessorLegacy.Assemble(targets, filled.0, filled.1)
  }

  /**
   * The body of `get_contribution_data(channel)` once the model is loaded:
   * the channel check, the posterior, the ROI, the spend tensor averaged
   * over geos, then the loop over the channel names.
   */
  function ContributionsOf(m: Model, channel: Option<string>, draws: (nat, nat) -> real): (r: Result<ContributionData>)
    ensures r.Ok? ==> r.value.data.Valid() && r.value.summary.Valid() && r.value.data.keys == r.value.summary.keys
  {
    var names := ChannelNames(Ok(m));
    var targets :- Targets(names, channel);
    var p :- PosteriorOf(m);
    var roi :- RoiData(p);
    var t :- SpendTensorOf(m);
    Collected(names, targets, roi, GeoMean(t), draws)
  }

  /** `get_contribution_data(channel)`: any failure, loading included, is wrapped. */
  function ContributionDataOf(loaded: Result<Model>, channel: Option<string>, draws: (nat, nat) -> real)
    : (r: Result<ContributionData>)
    ensures r.Err? ==> r.error.MMMModelError?
                       && StartsWith(r.error.msg, "Failed to get contribution data: ")
  {
    var what := "Failed to get contribution data: ";
    match loaded
    case Err(e) =>
      PrefixOf(what, ErrorText(e));
      Err(Wrap(what, e))
    case Ok(m) =>
      match ContributionsOf(m, channel, draws)
      case Err(e) =>
        PrefixOf(what, ErrorText(e));
        Err(Wrap(what, e))
      case Ok(d) => Ok(d)
  }

  lemma PrefixOf(p: string, x: string)
    ensures StartsWith(p + x, p)
  {
    assert (p + x)[..|p|] == p;
  }

  /** `get_contribution_data(channel)`, its loop run by `FillEach`. */
  method GetContributionData(loaded: Result<Model>, channel: Option<string>, draws: (nat, nat) -> real)
    returns (r: Result<ContributionData>)
    ensures r == ContributionDataOf(loaded, channel, draws)
  {
    var what := "Failed to get contribution data: ";
    if loaded.Err? {
      return Err(Wrap(what, loaded.error));
    }
    var m := loaded.value;
    var names := ChannelNames(loaded);
    var targetsR := Targets(names, channel);
    if targetsR.Err? {
      return Err(Wrap(what, targetsR.error));
    }
    var posteriorR := PosteriorOf(m);
    if posteriorR.Err? {
      return Err(Wrap(what, posteriorR.error));
    }
    var roiR := RoiData(posteriorR.value);
    if roiR.Err? {
      return Err(Wrap(what, roiR.error));
    }
    var spendR := SpendTensorOf(m);
    if spendR.Err? {
      return Err(Wrap(what, spendR.error));
    }
    var targets := targetsR.value;
    var spend := GeoMean(spendR.value);
    var f := Outcome(roiR.value, spend, draws);
    var filled := FillEach(names, targets, f);
    if filled.Err? {
      return Err(Wrap(what, filled.error));
    }
    FillValid(names, targets, f, |names|);
    var assembled := DataProcessorLegacy.Assemble(targets, filled.value.0, filled.value.1);
    if assembled.Err? {
      return Err(Wrap(what, assembled.error));
    }
    r := assembled;
  }

  /**
   * The loop fails exactly when a selected channel inside the data has no
   * time periods, with numpy's ValueError; otherwise it fills nothing
   * exactly when nothing is selected.
   */
  lemma LoopMeaning(names: seq<string>, targets: seq<string>, roi: seq<Float>, spend: Grid, draws: (nat, nat) -> real)
    ensures var r := Fill(names, targets, Outcome(roi, spend, draws), |names|);
      var some := exists i :: 0 <= i < |names| && names[i] in targets;
      var empty := exists i :: 0 <= i < |names| && names[i] in targets && i < |roi| && i < spend.cols
                               && spend.rows == 0;
      (r.Err? <==> empty) && (r.Err? ==> r.error.ValueError?)
      && (r.Ok? ==> r.value.0.Valid() && (r.value.0.keys == [] <==> !some))
  {
    LoopErrors(names, targets, roi, spend, draws);
    LoopKeys(names, targets, roi, spend, draws);
  }

  /** The loop raises, with numpy's ValueError, exactly when a selected channel inside the data has no time periods. */
  lemma LoopErrors(names: seq<string>, targets: seq<string>, roi: seq<Float>, spend: Grid, draws: (nat, nat) -> real)
    ensures var r := Fill(names, targets, Outcome(roi, spend, draws), |names|);
      var empty := exists i :: 0 <= i < |names| && names[i] in targets && i < |roi| && i < spend.cols
                               && spend.rows == 0;
      (r.Err? <==> empty) && (r.Err? ==> r.error.ValueError?)
  {
    var f := Outcome(roi, spend, draws);
    FillFails(names, targets, f, |names|);
    forall i | 0 <= i < |names| && names[i] in targets
      ensures f(i).Err? <==> i < |roi| && i < spend.cols && spend.rows == 0
    {
      OutcomeMeaning(roi, spend, draws, i);
    }
    var r := Fill(names, targets, f, |names|);
    if r.Err? {
      DataProcessorLegacy.FillErrorIs(names, targets, f, |names|);
      var i :| 0 <= i < |names| && names[i] in targets && f(i) == Err(r.error);
      OutcomeMeaning(roi, spend, draws, i);
    }
  }

  /** A loop that does not raise fills a valid dictionary, empty exactly when nothing is selected. */
  lemma LoopKeys(names: seq<string>, targets: seq<string>, roi: seq<Float>, spend: Grid, draws: (nat, nat) -> real)
    ensures var r := Fill(names, targets, Outcome(roi, spend, draws), |names|);
      var some := exists i :: 0 <= i < |names| && names[i] in targets;
      r.Ok? ==> r.value.0.Valid() && (r.value.0.keys == [] <==> !some)
  {
    var f := Outcome(roi, spend, draws);
    FillValid(names, targets, f, |names|);
    var r := Fill(names, targets, f, |names|);
    if r.Ok? {
      FillKeys(names, targets, f, |names|);
      assert names[..|names|] == names;
      if i :| 0 <= i < |names| && names[i] in targets {
        assert Selected(names, targets, names[i], |names|);
        assert names[i] in r.value.0.values;
      }
      if r.value.0.keys != [] {
        var ch := r.value.0.keys[0];
        assert ch in r.value.0.values;
        assert ch in names[..|names|] && ch in targets;
        var k :| 0 <= k < |names| && names[..|names|][k] == ch;
        assert names[k] in targets;
      }
    }
  }

  /**
   * From the ROI and the averaged spend on, the data fails exactly when a
   * selected channel inside the data has no time periods (a ValueError) or
   * nothing is selected (StopIteration).
   */
  lemma CollectedErrors(names: seq<string>, targets: seq<string>, roi: seq<Float>, spend: Grid,
                        draws: (nat, nat) -> real)
    ensures var r := Collected(names, targets, roi, spend, draws);
      var some := exists i :: 0 <= i < |names| && names[i] in targets;
      var empty := exists i :: 0 <= i < |names| && names[i] in targets && i < |roi| && i < spend.cols
                               && spend.rows == 0;
      (r.Err? <==> empty || !some)
      && (r.Err? ==> (r.error.ValueError? && empty) || (r.error == StopIteration && !some))
  {
    LoopMeaning(names, targets, roi, spend, draws);
  }

  /**
   * Contribution data fails on an unknown channel (with its MMMModelError),
   * a missing posterior or spend tensor (AttributeErrors), a missing ROI
   * (an MMMModelError), and then only on no channel names at all
   * (StopIteration) or a selected channel inside the data when there are
   * no time periods (a ValueError).
   */
  lemma ContributionErrors(m: Model, channel: Option<string>, draws: (nat, nat) -> real)
    ensures var r := ContributionsOf(m, channel, draws);
      var targets := Targets(ChannelNames(Ok(m)), channel);
      (targets.Err? ==> r == Err(targets.error))
      && (targets.Ok? && PosteriorOf(m).Err? ==> r.Err? && r.error.AttributeError?)
      && (targets.Ok? && PosteriorOf(m).Ok? && RoiData(PosteriorOf(m).value).Err? ==>
            r == Err(MMMModelError("No ROI data found in model posterior")))
      && (targets.Ok? && HasRoi(m) && MediaSpend(m).None? ==> r.Err? && r.error.AttributeError?)
      && (r.Err? && r.error.ValueError? ==> MediaSpend(m).Some? && MediaSpend(m).value.times == 0)
      && (r.Err? && r.error == StopIteration ==> ChannelNames(Ok(m)) == [])
      && (targets.Ok? && HasRoi(m) && HasSpendPeriods(m) ==> (r.Err? <==> ChannelNames(Ok(m)) == []))
  {
    var names := ChannelNames(Ok(m));
    if Targets(names, channel).Ok? && PosteriorOf(m).Ok? && RoiData(PosteriorOf(m).value).Ok? && MediaSpend(m).Some? {
      var targets := Targets(names, channel).value;
      var roi := RoiData(PosteriorOf(m).value).value;
      var spend := GeoMean(MediaSpend(m).value);
      DataProcessorLegacy.SomeSelected(names, channel);
      CollectedErrors(names, targets, roi, spend, draws);
      assert ContributionsOf(m, channel, draws) == Collected(names, targets, roi, spend, draws);
    }
  }

  /** The model has a posterior with ROI means. */
  predicate HasRoi(m: Model)
  {
    PosteriorOf(m).Ok? && RoiData(PosteriorOf(m).value).Ok?
  }

  /** The model has a spend tensor with at least one time period. */
  predicate HasSpendPeriods(m: Model)
  {
    MediaSpend(m).Some? && MediaSpend(m).value.times > 0
  }

  /** Text that ends a string occurs in it. */
  lemma ContainsSuffix(a: string, b: string)
    ensures Contains(a + b, b)
  {
    assert OccursAt(a + b, b, |a|);
  }

  /**
   * Asking for a channel the model does not have: the check's message,
   * wrapped by the operation, still says the channel was not found.
   */
  lemma UnknownChannelReported(m: Model, c: string, draws: (nat, nat) -> real)
    requires c != "" && c !in ChannelNames(Ok(m))
    ensures var r := ContributionDataOf(Ok(m), Some(c), draws);
      r == Err(MMMModelError("Failed to get contribution data: " + UnknownChannel(c)))
      && Contains(r.error.msg, "not found in model")
  {
    UnknownChannelRejected(m, c, draws);
    UnknownChannelNamed("Failed to get contribution data: ", c);
  }

  /** The message of the channel check. */
  function UnknownChannel(c: string): (msg: string)
    ensures |msg| == |c| + 29 && msg[9..|msg| - 20] == c
    ensures msg[|msg| - 18..] == "not found in model"
  {
    var tail := "' not found in model";
    var msg := "Channel '" + c + tail;
    assert msg[9..|msg| - 20] == c && msg[|msg| - 18..] == tail[2..];
    msg
  }

  /** Behind any prefix, the message still says the channel was not found. */
  lemma UnknownChannelNamed(prefix: string, c: string)
    ensures Contains(prefix + UnknownChannel(c), "not found in model")
  {
    var u := UnknownChannel(c);
    var head := prefix + u[..|u| - 18];
    assert prefix + u == head + u[|u| - 18..];
    ContainsSuffix(head, "not found in model");
  }

  /** Before anything is read from the model, an unknown channel is rejected by name. */
  lemma UnknownChannelRejected(m: Model, c: string, draws: (nat, nat) -> real)
    requires c != "" && c !in ChannelNames(Ok(m))
    ensures ContributionsOf(m, Some(c), draws) == Err(MMMModelError(UnknownChannel(c)))
  {
    assert Targets(ChannelNames(Ok(m)), Some(c)).Err?;
  }

  /** A model that failed to load gives the loader's message behind the operation's. */
  lemma LoadFailureReported(e: Error, channel: Option<string>, draws: (nat, nat) -> real)
    ensures ContributionDataOf(Err(e), channel, draws)
            == Err(MMMModelError("Failed to get contribution data: " + ErrorText(e)))
  {
  }

  /**
   * A loop over names that include every target, when it does not fail,
   * fills both dictionaries with exactly the targets, each holding the
   * series computed at the name's last position and numpy's statistics of it.
   */
  lemma LoopPayload(names: seq<string>, targets: seq<string>, roi: seq<Float>, spend: Grid, draws: (nat, nat) -> real)
    requires Fill(names, targets, Outcome(roi, spend, draws), |names|).Ok?
    requires forall ch :: ch in targets ==> ch in names
    ensures var d := Fill(names, targets, Outcome(roi, spend, draws), |names|).value;
      (forall ch :: ch in d.0.values <==> ch in targets)
      && (forall ch :: ch in targets ==>
            ch in d.1.values
            && d.0.values[ch] == ChannelSeries(LastIndex(names, ch, |names|), roi, spend, draws)
            && NumpyStats(d.0.values[ch]) == Ok(d.1.values[ch]))
  {
    var f := Outcome(roi, spend, draws);
    FillMeaning(names, targets, f, |names|);
    assert names[..|names|] == names;
    var d := Fill(names, targets, f, |names|).value;
    forall ch | ch in targets
      ensures ch in d.0.values && ch in d.1.values
        && d.0.values[ch] == ChannelSeries(LastIndex(names, ch, |names|), roi, spend, draws)
        && NumpyStats(d.0.values[ch]) == Ok(d.1.values[ch])
    {
      assert Selected(names, targets, ch, |names|);
      OutcomeMeaning(roi, spend, draws, LastIndex(names, ch, |names|));
    }
  }

  /**
   * Returned contribution data holds the channels asked for; both
   * dictionaries hold exactly those, each series is the one computed at
   * the name's last position and its statistics are numpy's; the shape is
   * the number of channels asked for by the time periods, or by the 156
   * drawn periods when the first channel lies outside the data.
   */
  lemma ContributionPayload(m: Model, channel: Option<string>, draws: (nat, nat) -> real)
    requires ContributionsOf(m, channel, draws).Ok?
    ensures var d := ContributionsOf(m, channel, draws).value;
      var names := ChannelNames(Ok(m));
      Targets(names, channel).Ok? && PosteriorOf(m).Ok? && RoiData(PosteriorOf(m).value).Ok? && MediaSpend(m).Some?
      && var roi := RoiData(PosteriorOf(m).value).value;
         var spend := GeoMean(MediaSpend(m).value);
         d.channels == Targets(names, channel).value
         && (forall ch :: ch in d.data.values <==> ch in d.channels)
         && (forall ch :: ch in d.channels ==>
               ch in d.summary.values
               && d.data.values[ch] == ChannelSeries(LastIndex(names, ch, |names|), roi, spend, draws)
               && NumpyStats(d.data.values[ch]) == Ok(d.summary.values[ch]))
         && d.shape.0 == |d.channels| && (d.shape.1 == spend.rows || d.shape.1 == FallbackPeriods)
  {
    var names := ChannelNames(Ok(m));
    var targets := Targets(names, channel).value;
    var roi := RoiData(PosteriorOf(m).value).value;
    var spend := GeoMean(MediaSpend(m).value);
    var f := Outcome(roi, spend, draws);
    LoopPayload(names, targets, roi, spend, draws);
    var filled := Fill(names, targets, f, |names|).value;
    FillValid(names, targets, f, |names|);
    assert ContributionsOf(m, channel, draws) == DataProcessorLegacy.Assemble(targets, filled.0, filled.1);
    var first := filled.0.keys[0];
    assert first in filled.0.values;
  }

  /** Without a channel filter every channel name is a key of the data. */
  lemma AllChannelsReturned(m: Model, draws: (nat, nat) -> real)
    requires ContributionsOf(m, None, draws).Ok?
    ensures var d := ContributionsOf(m, None, draws).value;
      d.channels == ChannelNames(Ok(m)) && forall ch :: ch in d.data.values <==> ch in ChannelNames(Ok(m))
  {
    ContributionPayload(m, None, draws);
  }

  // ---------------------------------------------------------------------
  // Response curves

  const CurvePoints: nat := CurveGenerator.CurvePoints
  const NeverSaturatesBase: real := 0.5
  const NoReturnBase: real := 0.4
  const RatioStep: real := 0.1

  /** The share of the top spend taken when no segment saturates, growing with the channel index. */
  function NeverSaturatesRatio(idx: nat): real
  {
    NeverSaturatesBase + RatioStep * idx as real
  }

  /** The share of the top spend taken when no segment has a positive return. */
  function NoReturnRatio(idx: nat): real
  {
    NoReturnBase + RatioStep * idx as real
  }

  /**
   * The top of the spend range: twice the channel's largest spend, clamped
   * into the safe band, or 100000 without a spend tensor. Indexing past the
   * tensor's channels and an empty slice raise, which sends the curve to
   * its fallback.
   */
  function SpendTop(m: Model, idx: nat): (r: Result<real>)
    ensures MediaSpend(m).None? ==> r == Ok(CurveGenerator.DefaultMaxSpend)
    ensures MediaSpend(m).Some? ==> (r.Err? <==> ChannelPeak(MediaSpend(m).value, idx).Err?)
    ensures r.Ok? ==> CurveGenerator.MinSafeSpend <= r.value <= CurveGenerator.MaxSafeSpend
    ensures r.Ok? ==> r == CurveGenerator.SpendRangeMax(m, idx)
  {
    match MediaSpend(m)
    case None => Ok(CurveGenerator.DefaultMaxSpend)
    case Some(t) =>
      match ChannelPeak(t, idx)
      case Err(e) => Err(e)
      case Ok(peak) => Ok(CurveGenerator.SafeSpend(Mul(peak, Finite(CurveGenerator.SpendMultiplier))))
  }

  /** `1 - x` on floats. */
  function OneMinus(x: Float): Float
  {
    Add(Finite(1.0), Mul(Finite(-1.0), x))
  }

  /**
   * The Hill parameters the posterior gives the channel at `idx` for a
   * spend range topping out at `top`: from `ec_m` and `slope_m` (scaled by
   * the ROI when there is one), else from `contr_coef`, else from the ROI
   * alone; None when none of them is there or an index is past the end,
   * which is the exception the curve builder catches.
   */
  function PosteriorHill(p: Posterior, idx: nat, top: real): (r: Option<Hill>)
    ensures "ec_m" in p.dataVars && "slope_m" in p.dataVars ==>
      (r.Some? <==> PosteriorEntry(p, "ec_m", idx).Ok? && PosteriorEntry(p, "slope_m", idx).Ok?
                    && ("roi_m" in p.dataVars ==> PosteriorEntry(p, "roi_m", idx).Ok?))
    ensures !("ec_m" in p.dataVars && "slope_m" in p.dataVars) && "contr_coef" in p.dataVars ==>
      (r.Some? <==> PosteriorEntry(p, "contr_coef", idx).Ok?)
    ensures !("ec_m" in p.dataVars && "slope_m" in p.dataVars) && "contr_coef" !in p.dataVars ==>
      (r.Some? <==> PosteriorEntry(p, "roi_m", idx).Ok?)
    ensures "ec_m" in p.dataVars && "slope_m" in p.dataVars ==> r == CurveGenerator.EcSlopeHill(p, idx, top)
  {
    var t := Finite(top);
    if "ec_m" in p.dataVars && "slope_m" in p.dataVars then CurveGenerator.EcSlopeHill(p, idx, top)
    else if "contr_coef" in p.dataVars then
      match PosteriorEntry(p, "contr_coef", idx)
      case Ok(c) =>
        Some(Hill(Mul(t, Add(Finite(0.3), Mul(Finite(0.4), OneMinus(c)))), Add(Finite(1.0), Mul(c, Finite(2.0))),
                  Mul(Mul(c, t), Finite(0.18))))
      case Err(_) => None
    else
      match PosteriorEntry(p, "roi_m", idx)
      case Ok(roi) =>
        var ratio := Div(roi, NpMaxOf(p.dataVars["roi_m"]));
        Some(Hill(Mul(t, Add(Finite(0.2), Mul(Finite(0.6), OneMinus(ratio)))), Add(Finite(0.8), Mul(roi, Finite(1.5))),
                  Mul(Mul(roi, t), Finite(0.15))))
      case Err(_) => None
  }

  /** The Hill parameters built from a channel's total contribution, normalised by a million. */
  function ContributionHill(total: Float, top: real): (h: Hill)
    ensures total.Finite? ==> h.ec.Finite? && h.slope.Finite?
    ensures !total.PosInf? ==> h.scale.Finite? && h.scale.value >= 0.0002
  {
    var relative := Div(total, Finite(1000000.0));
    Hill(Mul(Finite(top), Add(Finite(0.3), Mul(Finite(0.4), OneMinus(relative)))),
         Add(Finite(0.8), Mul(relative, Finite(1.2))),
         Mul(PyMax(Finite(1.0), total), Finite(0.0002)))
  }

  /**
   * What the guarded part of the curve builder reads before it computes the
   * curve: the posterior, the top of the spend range and the Hill
   * parameters, the last from the channel's own contribution data when the
   * posterior has none. None is an exception that sends the curve to its
   * fallback.
   */
  function CurveParts(m: Model, ch: string, idx: nat, draws: (nat, nat) -> real): (r: Option<(Posterior, real, Hill)>)
    ensures r.Some? <==>
      PosteriorOf(m).Ok? && SpendTop(m, idx).Ok?
      && (PosteriorHill(PosteriorOf(m).value, idx, SpendTop(m, idx).value).None? ==>
            ContributionsOf(m, Some(ch), draws).Ok? && ch in ContributionsOf(m, Some(ch), draws).value.summary.values)
    ensures r.Some? ==>
      r.value.0 == PosteriorOf(m).value && r.value.1 == SpendTop(m, idx).value
      && CurveGenerator.MinSafeSpend <= r.value.1 <= CurveGenerator.MaxSafeSpend
  {
    match PosteriorOf(m)
    case Err(_) => None
    case Ok(p) =>
      match SpendTop(m, idx)
      case Err(_) => None
      case Ok(top) =>
        match PosteriorHill(p, idx, top)
        case Some(h) => Some((p, top, h))
        case None =>
          match ContributionsOf(m, Some(ch), draws)
          case Err(_) => None
          case Ok(cd) =>
            if ch in cd.summary.values then Some((p, top, ContributionHill(cd.summary.values[ch].total, top)))
            else None
  }

  /**
   * The efficiency before the floor: the channel's ROI; the mean of the
   * first 20 marginal returns when the ROI vector is too short; the marginal
   * return at a third of the range when there is no ROI.
   */
  function CurveEfficiency(p: Posterior, idx: nat, marginal: seq<real>): (e: Float)
    requires |marginal| == CurvePoints - 1
    ensures PosteriorEntry(p, "roi_m", idx).Ok? ==> e == PosteriorEntry(p, "roi_m", idx).value
    ensures PosteriorEntry(p, "roi_m", idx).Err? ==> e.Finite? && Min(marginal) <= e.value <= Max(marginal)
    ensures "roi_m" !in p.dataVars ==> e == Finite(marginal[CurvePoints / 3])
    ensures "roi_m" in p.dataVars && PosteriorEntry(p, "roi_m", idx).Err? ==> e == Finite(Mean(marginal[..20]))
  {
    if "roi_m" in p.dataVars then
      match PosteriorEntry(p, "roi_m", idx)
      case Ok(roi) => roi
      case Err(_) =>
        assert forall k :: 0 <= k < 20 ==> marginal[..20][k] == marginal[k];
        MeanWithin(marginal[..20], Min(marginal), Max(marginal));
        Finite(Mean(marginal[..20]))
    else Finite(marginal[CurvePoints / 3])
  }

  /** The first adstock variable the posterior has, of `alpha_m`, `adstock_rate` and `adstock`. */
  function AdstockSource(p: Posterior): Option<string>
  {
    if "alpha_m" in p.dataVars then Some("alpha_m")
    else if "adstock_rate" in p.dataVars then Some("adstock_rate")
    else if "adstock" in p.dataVars then Some("adstock")
    else None
  }

  /** The channel's entry of that variable, else the default adstock rate. */
  function CurveAdstock(p: Posterior, idx: nat): (a: Float)
    ensures AdstockSource(p).Some? && PosteriorEntry(p, AdstockSource(p).value, idx).Ok? ==>
      a == PosteriorEntry(p, AdstockSource(p).value, idx).value
    ensures AdstockSource(p).None? || PosteriorEntry(p, AdstockSource(p).value, idx).Err? ==>
      a.Finite? && 0.3 <= a.value <= 0.75
  {
    var fallback := Finite(CurveGenerator.DefaultAdstock(idx));
    match AdstockSource(p)
    case None => fallback
    case Some(name) =>
      match PosteriorEntry(p, name, idx)
      case Ok(a) => a
      case Err(_) => fallback
  }

  /** The adstock rate agrees with the package generator's whenever `alpha_m` is there or none of the three is. */
  lemma AdstockAgreesWithPackage(p: Posterior, idx: nat)
    requires "alpha_m" in p.dataVars || AdstockSource(p).None?
    ensures CurveAdstock(p, idx) == CurveGenerator.AdstockRate(p, idx)
  {
  }

  /** The curve computed from the model: 100 spend points up to `top` and everything derived from them. */
  function BuiltCurve(p: Posterior, idx: nat, top: real, h: Hill, hill: (real, Hill) -> real): (c: Curve)
    requires top > 0.0
    ensures c.spend == Linspace(0.0, top, CurvePoints) && Increasing(c.spend) && |c.response| == CurvePoints
    ensures forall k :: 0 <= k < CurvePoints ==> c.response[k] == hill(c.spend[k], h)
  {
    var spend := Linspace(0.0, top, CurvePoints);
    LinspaceIncreasing(0.0, top, CurvePoints);
    var response := seq(CurvePoints, k requires 0 <= k < CurvePoints => hill(spend[k], h));
    Curve(spend, response,
          SaturationPoint(spend, response, NeverSaturatesRatio(idx), NoReturnRatio(idx)),
          CurveGenerator.ReportedEfficiency(CurveEfficiency(p, idx, MarginalReturns(spend, response))),
          CurveAdstock(p, idx))
  }

  /**
   * `_generate_response_curve_from_model(model, channel)`. An unknown
   * channel raises inside the guarded block and the handler then reads the
   * index that was never assigned: an UnboundLocalError. A known channel
   * gets the curve built from the model, or the fallback curve when
   * anything raises on the way.
   */
  function CurveFor(m: Model, ch: string, draws: (nat, nat) -> real, hill: (real, Hill) -> real,
                    pow: (real, real) -> real): (r: Result<Curve>)
    ensures r.Err? <==> ch !in ChannelNames(Ok(m))
    ensures r.Err? ==> r.error == UnboundLocalError("channel_idx")
  {
    var names := ChannelNames(Ok(m));
    if ch !in names then Err(UnboundLocalError("channel_idx"))
    else
      var idx := IndexOf(names, ch);
      match CurveParts(m, ch, idx, draws)
      case None => Ok(CurveGenerator.FallbackCurve(idx, pow))
      case Some(parts) => Ok(BuiltCurve(parts.0, idx, parts.1, parts.2, hill))
  }

  /**
   * For a known channel there is always a curve: the fallback exactly when
   * reading the model raised, otherwise 100 points from 0 to a top inside
   * the safe band (100000 without a spend tensor), the Hill response at
   * each, a saturation point within 20%..90% of the top, an efficiency that
   * is a number of at least 0.001 (the ROI itself when that is larger) and
   * the posterior's adstock rate when it has `alpha_m` for the channel.
   */
  lemma CurveForShape(m: Model, ch: string, draws: (nat, nat) -> real, hill: (real, Hill) -> real,
                      pow: (real, real) -> real)
    requires ch in ChannelNames(Ok(m))
    ensures var r := CurveFor(m, ch, draws, hill, pow);
      var idx := IndexOf(ChannelNames(Ok(m)), ch);
      var parts := CurveParts(m, ch, idx, draws);
      r.Ok?
      && (parts.None? ==> r.value == CurveGenerator.FallbackCurve(idx, pow))
      && (parts.Some? ==>
            var p := parts.value.0; var top := parts.value.1; var c := r.value;
            c.spend == Linspace(0.0, top, CurvePoints)
            && (MediaSpend(m).None? ==> top == CurveGenerator.DefaultMaxSpend)
            && (forall k :: 0 <= k < CurvePoints ==> c.response[k] == hill(c.spend[k], parts.value.2))
            && SaturationMinBound * top <= c.saturationPoint <= SaturationMaxBound * top
            && !c.efficiency.NaN? && Ge(c.efficiency, Finite(CurveGenerator.MinEfficiency))
            && (PosteriorEntry(p, "roi_m", idx).Ok? && p.dataVars["roi_m"][idx].Finite?
                && p.dataVars["roi_m"][idx].value > CurveGenerator.MinEfficiency
                ==> c.efficiency == p.dataVars["roi_m"][idx])
            && (PosteriorEntry(p, "alpha_m", idx).Ok? ==> c.adstockRate == p.dataVars["alpha_m"][idx]))
  {
    var idx := IndexOf(ChannelNames(Ok(m)), ch);
    var parts := CurveParts(m, ch, idx, draws);
    if parts.Some? {
      BuiltCurveShape(parts.value.0, idx, parts.value.1, parts.value.2, hill);
    }
  }

  /** The shape of a curve built from the model, by its parts. */
  lemma BuiltCurveShape(p: Posterior, idx: nat, top: real, h: Hill, hill: (real, Hill) -> real)
    requires top > 0.0
    ensures var c := BuiltCurve(p, idx, top, h, hill);
      c.spend == Linspace(0.0, top, CurvePoints)
      && (forall k :: 0 <= k < CurvePoints ==> c.response[k] == hill(c.spend[k], h))
      && SaturationMinBound * top <= c.saturationPoint <= SaturationMaxBound * top
      && !c.efficiency.NaN? && Ge(c.efficiency, Finite(CurveGenerator.MinEfficiency))
      && (PosteriorEntry(p, "roi_m", idx).Ok? && p.dataVars["roi_m"][idx].Finite?
          && p.dataVars["roi_m"][idx].value > CurveGenerator.MinEfficiency
          ==> c.efficiency == p.dataVars["roi_m"][idx])
      && (PosteriorEntry(p, "alpha_m", idx).Ok? ==> c.adstockRate == p.dataVars["alpha_m"][idx])
  {
    BuiltCurveSaturation(p, idx, top, h, hill);
    BuiltCurveReported(p, idx, top, h, hill);
  }

  /** The saturation point of a built curve lies within 20%..90% of its top. */
  lemma BuiltCurveSaturation(p: Posterior, idx: nat, top: real, h: Hill, hill: (real, Hill) -> real)
    requires top > 0.0
    ensures var c := BuiltCurve(p, idx, top, h, hill);
      SaturationMinBound * top <= c.saturationPoint <= SaturationMaxBound * top
  {
    var spend := Linspace(0.0, top, CurvePoints);
    LinspaceIncreasing(0.0, top, CurvePoints);
    MaxOfIncreasing(spend);
  }

  /** The efficiency of a built curve is floored and keeps a larger ROI; its adstock rate is `alpha_m`'s. */
  lemma BuiltCurveReported(p: Posterior, idx: nat, top: real, h: Hill, hill: (real, Hill) -> real)
    requires top > 0.0
    ensures var c := BuiltCurve(p, idx, top, h, hill);
      !c.efficiency.NaN? && Ge(c.efficiency, Finite(CurveGenerator.MinEfficiency))
      && (PosteriorEntry(p, "roi_m", idx).Ok? && p.dataVars["roi_m"][idx].Finite?
          && p.dataVars["roi_m"][idx].value > CurveGenerator.MinEfficiency
          ==> c.efficiency == p.dataVars["roi_m"][idx])
      && (PosteriorEntry(p, "alpha_m", idx).Ok? ==> c.adstockRate == p.dataVars["alpha_m"][idx])
  {
  }

  /**
   * From the fifth channel on, a curve that never saturates is pinned to
   * 90% of its top, and from the sixth on so is one without a positive
   * return: the fallback ratios reach the upper bound of the clamp.
   */
  lemma LateChannelsPinned(p: Posterior, idx: nat, top: real, h: Hill, hill: (real, Hill) -> real)
    requires top > 0.0 && idx >= 4
    ensures var c := BuiltCurve(p, idx, top, h, hill);
      var search := SaturationSearch(MarginalReturns(c.spend, c.response), SaturationSkip, SaturationThreshold);
      (search.NeverSaturates? || (search.NoPositiveReturn? && idx >= 5))
      ==> c.saturationPoint == SaturationMaxBound * top
  {
    var c := BuiltCurve(p, idx, top, h, hill);
    var spend := Linspace(0.0, top, CurvePoints);
    LinspaceIncreasing(0.0, top, CurvePoints);
    MaxOfIncreasing(spend);
    var search := SaturationSearch(MarginalReturns(c.spend, c.response), SaturationSkip, SaturationThreshold);
    assert c.saturationPoint == ClampedSaturation(spend, search, NeverSaturatesRatio(idx), NoReturnRatio(idx));
    if search.NeverSaturates? || (search.NoPositiveReturn? && idx >= 5) {
      ClampedAtTop(spend, search, NeverSaturatesRatio(idx), NoReturnRatio(idx));
    }
  }

  /** A ratio past the upper bound is clamped to it. */
  lemma ClampedAtTop(spend: seq<real>, search: Saturation, neverRatio: real, noneRatio: real)
    requires |spend| > 0 && Max(spend) > 0.0 && (search.SaturatesAt? ==> search.index < |spend|)
    requires (search.NeverSaturates? && neverRatio >= SaturationMaxBound)
             || (search.NoPositiveReturn? && noneRatio >= SaturationMaxBound)
    ensures ClampedSaturation(spend, search, neverRatio, noneRatio) == SaturationMaxBound * Max(spend)
  {
    var top := Max(spend);
    ScaledAbove(top, if search.NeverSaturates? then neverRatio else noneRatio, SaturationMaxBound);
    ScaledAbove(top, SaturationMaxBound, SaturationMinBound);
  }

  lemma ScaledAbove(top: real, ratio: real, bound: real)
    requires top > 0.0 && ratio >= bound
    ensures top * ratio >= top * bound
  {
  }

  /** The curve of the target at each position. */
  function CurveAt(m: Model, targets: seq<string>, draws: (nat, nat) -> real, hill: (real, Hill) -> real,
                   pow: (real, real) -> real): (at: nat -> Result<Curve>)
    ensures forall i: nat :: i < |targets| ==> (at(i).Err? <==> targets[i] !in ChannelNames(Ok(m)))
    ensures forall i: nat :: i >= |targets| ==> at(i).Err?
  {
    (i: nat) => if i < |targets| then CurveFor(m, targets[i], draws, hill, pow) else Err(IndexError("list index out of range"))
  }

  /** The body of `get_response_curves(channel)` once the model is loaded. */
  function CurvesOf(m: Model, channel: Option<string>, draws: (nat, nat) -> real, hill: (real, Hill) -> real,
                    pow: (real, real) -> real): (r: Result<Dict<Curve>>)
    ensures r.Ok? ==> r.value.Valid()
  {
    var targets :- Targets(ChannelNames(Ok(m)), channel);
    PutAllValid(targets, CurveAt(m, targets, draws, hill, pow), |targets|);
    PutAll(targets, CurveAt(m, targets, draws, hill, pow), |targets|)
  }

  /** `get_response_curves(channel)`: the `curves` dictionary; any failure is wrapped. */
  function ResponseCurvesOf(loaded: Result<Model>, channel: Option<string>, draws: (nat, nat) -> real,
                            hill: (real, Hill) -> real, pow: (real, real) -> real): (r: Result<Dict<Curve>>)
    ensures r.Err? ==> r.error.MMMModelError? && StartsWith(r.error.msg, "Failed to get response curves: ")
  {
    var what := "Failed to get response curves: ";
    match loaded
    case Err(e) =>
      PrefixOf(what, ErrorText(e));
      Err(Wrap(what, e))
    case Ok(m) =>
      match CurvesOf(m, channel, draws, hill, pow)
      case Err(e) =>
        PrefixOf(what, ErrorText(e));
        Err(Wrap(what, e))
      case Ok(curves) => Ok(curves)
  }

  /** `get_response_curves(channel)`, its loop run by `PutEach`. */
  method GetResponseCurves(loaded: Result<Model>, channel: Option<string>, draws: (nat, nat) -> real,
                           hill: (real, Hill) -> real, pow: (real, real) -> real) returns (r: Result<Dict<Curve>>)
    ensures r == ResponseCurvesOf(loaded, channel, draws, hill, pow)
  {
    var what := "Failed to get response curves: ";
    if loaded.Err? {
      return Err(Wrap(what, loaded.error));
    }
    var m := loaded.value;
    var targetsR := Targets(ChannelNames(loaded), channel);
    if targetsR.Err? {
      return Err(Wrap(what, targetsR.error));
    }
    var targets := targetsR.value;
    PutAllValid(targets, CurveAt(m, targets, draws, hill, pow), |targets|);
    var curves := PutEach(targets, CurveAt(m, targets, draws, hill, pow));
    if curves.Err? {
      return Err(Wrap(what, curves.error));
    }
    r := curves;
  }

  /**
   * Response curves fail only on an unknown channel; otherwise every channel
   * asked for has exactly its curve, so the builder's UnboundLocalError is
   * never reached from here.
   */
  lemma CurvesMeaning(m: Model, channel: Option<string>, draws: (nat, nat) -> real, hill: (real, Hill) -> real,
                      pow: (real, real) -> real)
    ensures var r := CurvesOf(m, channel, draws, hill, pow);
      var targets := Targets(ChannelNames(Ok(m)), channel);
      (r.Err? <==> targets.Err?)
      && (r.Err? ==> r.error == targets.error)
      && (r.Ok? ==> forall ch :: (ch in r.value.values <==> ch in targets.value)
                                 && (ch in r.value.values ==> CurveFor(m, ch, draws, hill, pow) == Ok(r.value.values[ch])))
  {
    var names := ChannelNames(Ok(m));
    if Targets(names, channel).Ok? {
      var targets := Targets(names, channel).value;
      var f := CurveAt(m, targets, draws, hill, pow);
      var g := (ch: string) => if ch in names then CurveFor(m, ch, draws, hill, pow).value else CurveGenerator.FallbackCurve(0, pow);
      forall i | 0 <= i < |targets| ensures f(i) == Ok(g(targets[i])) {
        assert targets[i] in names;
      }
      PutAllByKey(targets, f, g, |targets|);
      PutAllMembers(targets, f, |targets|);
      assert targets[..|targets|] == targets;
      var d := PutAll(targets, f, |targets|).value;
      forall ch | ch in d.values ensures CurveFor(m, ch, draws, hill, pow) == Ok(d.values[ch]) {
        assert ch in targets;
      }
    }
  }

  // ---------------------------------------------------------------------
  // Channel summary

  /** Every channel of an unfiltered call has statistics. */
  lemma AllSummarised(m: Model, draws: (nat, nat) -> real)
    requires ContributionsOf(m, None, draws).Ok?
    ensures var cd := ContributionsOf(m, None, draws).value;
      cd.channels == ChannelNames(Ok(m)) && forall ch :: ch in cd.channels ==> ch in cd.summary.values
  {
    ContributionPayload(m, None, draws);
  }

  /**
   * The body of `get_channel_summary()` once the model is loaded: the
   * unfiltered contribution data (its own failure already wrapped), the sum
   * of the totals, then the same per-channel records as the data processor
   * builds.
   */
  function SummaryOf(m: Model, draws: (nat, nat) -> real): (r: Result<Dict<ChannelSummary>>)
    ensures r.Ok? ==> r.value.Valid()
  {
    match ContributionsOf(m, None, draws)
    case Err(e) => Err(Wrap("Failed to get contribution data: ", e))
    case Ok(cd) =>
      AllSummarised(m, draws);
      SummaryUpTo(cd.channels, cd.summary, DataProcessorLegacy.SummaryEntries(TotalOf(Values(cd.summary)), m.totalSpend),
                                      |cd.channels|)
  }

  /** `get_channel_summary()`: any failure is wrapped once more. */
  function ChannelSummaryOf(loaded: Result<Model>, draws: (nat, nat) -> real): (r: Result<Dict<ChannelSummary>>)
    ensures r.Err? ==> r.error.MMMModelError? && StartsWith(r.error.msg, "Failed to get channel summary: ")
  {
    var what := "Failed to get channel summary: ";
    match loaded
    case Err(e) =>
      PrefixOf(what, ErrorText(e));
      Err(Wrap(what, e))
    case Ok(m) =>
      match SummaryOf(m, draws)
      case Err(e) =>
        PrefixOf(what, ErrorText(e));
        Err(Wrap(what, e))
      case Ok(s) => Ok(s)
  }

  /** `get_channel_summary()`, its loops run by `GetContributionData` and `PutEach`. */
  method GetChannelSummary(loaded: Result<Model>, draws: (nat, nat) -> real) returns (r: Result<Dict<ChannelSummary>>)
    ensures r == ChannelSummaryOf(loaded, draws)
  {
    var what := "Failed to get channel summary: ";
    if loaded.Err? {
      return Err(Wrap(what, loaded.error));
    }
    var m := loaded.value;
    var cdR := GetContributionData(loaded, None, draws);
    if cdR.Err? {
      return Err(Wrap(what, cdR.error));
    }
    var cd := cdR.value;
    AllSummarised(m, draws);
    var totalContribution := TotalOf(Values(cd.summary));
    var entries := EntryAt(cd.channels, cd.summary, DataProcessorLegacy.SummaryEntries(totalContribution, m.totalSpend));
    var result := PutEach(cd.channels, entries);
    if result.Err? {
      return Err(Wrap(what, result.error));
    }
    r := result;
  }

  /** A failure of the contribution data shows up behind both operations' messages. */
  lemma SummaryErrorNamesBoth(m: Model, draws: (nat, nat) -> real)
    requires ContributionsOf(m, None, draws).Err?
    ensures ChannelSummaryOf(Ok(m), draws) == Err(MMMModelError(
      "Failed to get channel summary: " + ("Failed to get contribution data: " + ErrorText(ContributionsOf(m, None, draws).error))))
  {
    var e := ContributionsOf(m, None, draws).error;
    var inner := "Failed to get contribution data: ";
    var outer := "Failed to get channel summary: ";
    assert SummaryOf(m, draws) == Err(Wrap(inner, e));
    assert ChannelSummaryOf(Ok(m), draws) == Err(Wrap(outer, Wrap(inner, e)));
    WrappedTwice(outer, inner, e);
  }

  /** Wrapping an already wrapped error puts both prefixes in front of its text. */
  lemma WrappedTwice(outer: string, inner: string, e: Error)
    ensures Wrap(outer, Wrap(inner, e)) == MMMModelError(outer + (inner + ErrorText(e)))
  {
  }

  /**
   * With distinct channel names, the summary is keyed by the names in
   * order, and when the channel totals are finite and sum to more than
   * zero, the contribution shares add up to exactly 1.
   */
  lemma SharesSumToOneWhenPositive(m: Model, draws: (nat, nat) -> real)
    requires Distinct(ChannelNames(Ok(m)))
    requires SummaryOf(m, draws).Ok?
    ensures var cd := ContributionsOf(m, None, draws).value;
      var r := SummaryOf(m, draws).value;
      var names := ChannelNames(Ok(m));
      r.keys == names
      && ((forall ch :: ch in cd.summary.values ==> cd.summary.values[ch].total.Finite?)
          && Gt(TotalOf(Values(cd.summary)), Finite(0.0)) ==>
            (forall k :: 0 <= k < |names| ==> names[k] in r.values && r.values[names[k]].contributionShare.Finite?)
            && Sum(seq(|names|, k requires 0 <= k < |names| => r.values[names[k]].contributionShare.value)) == 1.0)
  {
    AllSummarised(m, draws);
    var names := ChannelNames(Ok(m));
    var cd := ContributionsOf(m, None, draws).value;
    SummaryKeysInOrder(m, draws);
    var tc := TotalOf(Values(cd.summary));
    assert SummaryOf(m, draws) == SummaryUpTo(names, cd.summary, DataProcessorLegacy.SummaryEntries(tc, m.totalSpend), |names|);
    PutAllKeys(names, EntryAt(names, cd.summary, DataProcessorLegacy.SummaryEntries(tc, m.totalSpend)), |names|);
    assert names[..|names|] == names;
    if forall ch :: ch in cd.summary.values ==> cd.summary.values[ch].total.Finite? {
      DataProcessorLegacy.SummarySharesSumToOne(names, cd.summary, m.totalSpend);
    }
  }

  /** With distinct names and no filter, the statistics are keyed by the names in order. */
  lemma SummaryKeysInOrder(m: Model, draws: (nat, nat) -> real)
    requires Distinct(ChannelNames(Ok(m))) && ContributionsOf(m, None, draws).Ok?
    ensures ContributionsOf(m, None, draws).value.summary.keys == ChannelNames(Ok(m))
  {
    var names := ChannelNames(Ok(m));
    ContributionsReachLoop(m, None, draws);
    var f := Outcome(RoiData(PosteriorOf(m).value).value, GeoMean(MediaSpend(m).value), draws);
    FillAllKeys(names, names, f, |names|);
    FillValid(names, names, f, |names|);
    assert names[..|names|] == names;
  }

  /** Returned contribution data went through every read and then the loop over the channel names. */
  lemma ContributionsReachLoop(m: Model, channel: Option<string>, draws: (nat, nat) -> real)
    requires ContributionsOf(m, channel, draws).Ok?
    ensures Targets(ChannelNames(Ok(m)), channel).Ok? && HasRoi(m) && MediaSpend(m).Some?
    ensures var roi := RoiData(PosteriorOf(m).value).value;
      var spend := GeoMean(MediaSpend(m).value);
      var names := ChannelNames(Ok(m));
      var targets := Targets(names, channel).value;
      var filled := Fill(names, targets, Outcome(roi, spend, draws), |names|);
      filled.Ok? && filled.value.0.Valid()
      && ContributionsOf(m, channel, draws) == DataProcessorLegacy.Assemble(targets, filled.value.0, filled.value.1)
  {
    var names := ChannelNames(Ok(m));
    var targets := Targets(names, channel).value;
    var f := Outcome(RoiData(PosteriorOf(m).value).value, GeoMean(MediaSpend(m).value), draws);
    FillValid(names, targets, f, |names|);
  }


  /** The summary has a record for exactly the model's channel names. */
  lemma SummaryKeys(m: Model, draws: (nat, nat) -> real)
    requires SummaryOf(m, draws).Ok?
    ensures forall ch :: ch in SummaryOf(m, draws).value.values <==> ch in ChannelNames(Ok(m))
  {
    var names := ChannelNames(Ok(m));
    AllSummarised(m, draws);
    var cd := ContributionsOf(m, None, draws).value;
    var f := EntryAt(names, cd.summary, DataProcessorLegacy.SummaryEntries(TotalOf(Values(cd.summary)), m.totalSpend));
    PutAllMembers(names, f, |names|);
    assert names[..|names|] == names;
    assert SummaryOf(m, draws) == PutAll(names, f, |names|);
  }

  /**
   * Without a channel filter, contribution data, response curves and the
   * channel summary, when all three are returned, cover the same channels:
   * the model's channel names.
   */
  lemma SameChannelsEverywhere(loaded: Result<Model>, draws: (nat, nat) -> real, hill: (real, Hill) -> real,
                               pow: (real, real) -> real)
    requires ContributionDataOf(loaded, None, draws).Ok?
    requires ResponseCurvesOf(loaded, None, draws, hill, pow).Ok?
    requires ChannelSummaryOf(loaded, draws).Ok?
    ensures var names := ChannelNames(loaded);
      var cd := ContributionDataOf(loaded, None, draws).value;
      var curves := ResponseCurvesOf(loaded, None, draws, hill, pow).value;
      var summary := ChannelSummaryOf(loaded, draws).value;
      forall ch :: (ch in cd.data.values <==> ch in names)
                   && (ch in curves.values <==> ch in names)
                   && (ch in summary.values <==> ch in names)
  {
    var m := loaded.value;
    assert ContributionDataOf(loaded, None, draws) == ContributionsOf(m, None, draws);
    AllChannelsReturned(m, draws);
    assert ResponseCurvesOf(loaded, None, draws, hill, pow) == CurvesOf(m, None, draws, hill, pow);
    CurvesMeaning(m, None, draws, hill, pow);
    assert ChannelSummaryOf(loaded, draws) == SummaryOf(m, draws);
    SummaryKeys(m, draws);
  }

  // ---------------------------------------------------------------------
  // What the fallback model answers

  /**
   * Every channel of the fallback model has its ROI and its spend: its
   * curve is built from the Hill parameters, its efficiency is its drawn
   * ROI and its adstock rate its drawn `alpha_m`.
   */
  lemma FallbackModelCurves(d: FallbackDraws, ch: string, draws: (nat, nat) -> real, hill: (real, Hill) -> real,
                            pow: (real, real) -> real)
    requires Drawn(d) && ch in ChannelNames(Ok(FallbackModel(d)))
    ensures var m := FallbackModel(d);
      var idx := IndexOf(ChannelNames(Ok(m)), ch);
      var r := CurveFor(m, ch, draws, hill, pow);
      idx < FallbackChannelCount
      && CurveParts(m, ch, idx, draws).Some?
      && r.Ok? && r.value.efficiency == Finite(d.roi[idx]) && r.value.adstockRate == Finite(d.alpha[idx])
      && CurveGenerator.MinSafeSpend <= r.value.spend[CurvePoints - 1] <= CurveGenerator.MaxSafeSpend
  {
    var m := FallbackModel(d);
    FallbackModelInfo(d);
    var idx := IndexOf(ChannelNames(Ok(m)), ch);
    FallbackModelParts(d, idx);
    CurveForShape(m, ch, draws, hill, pow);
  }

  /** The fallback model's posterior, spend range and Hill parameters for a channel it has. */
  lemma FallbackModelParts(d: FallbackDraws, idx: nat)
    requires Drawn(d) && idx < FallbackChannelCount
    ensures var m := FallbackModel(d);
      PosteriorOf(m).Ok? && SpendTop(m, idx).Ok?
      && PosteriorHill(PosteriorOf(m).value, idx, SpendTop(m, idx).value).Some?
      && PosteriorEntry(PosteriorOf(m).value, "roi_m", idx) == Ok(Finite(d.roi[idx]))
      && PosteriorEntry(PosteriorOf(m).value, "alpha_m", idx) == Ok(Finite(d.alpha[idx]))
  {
    var m := FallbackModel(d);
    var t := FallbackSpend(d);
    assert t.geos * t.times > 0;
    var p := PosteriorOf(m).value;
    var top := SpendTop(m, idx).value;
    assert PosteriorHill(p, idx, top).Some?;
  }
}
