/**
 * The MMM package's data processor: per-channel contribution series (ROI
 * times geo-averaged spend, non-finite values replaced), their statistics
 * over finite values, and the channel summary with shares and efficiencies
 * guarded by a 1e-10 floor.
 */
module DataProcessor {
  import opened Py
  import opened Floats
  import opened Schemas
  import opened Dicts
  import opened Artifact
  import opened Contributions
  import opened Fills

  const SpendToContributionRatio: real := 1000.0
  /** The floor of the total contribution and of each total spend. */
  const MinTotal: real := 0.0000000001
  /** The ROI used when the posterior's ROI is NaN or infinite. */
  const FallbackRoi: real := 1.0

  /** The fields `__init__` sets; they are only read afterwards. */
  datatype Processor = Processor(model: Model, channelNames: seq<string>, posterior: Posterior)

  /**
   * `MMMDataProcessor(model, channel_names)`: a ValueError for a missing
   * model, an empty channel list, or a model without inference data or
   * posterior.
   */
  function NewProcessor(model: Option<Model>, channelNames: seq<string>): (r: Result<Processor>)
    ensures r.Ok? <==> model.Some? && channelNames != [] && PosteriorOf(model.value).Ok?
    ensures r.Ok? ==> r.value == Processor(model.value, channelNames, PosteriorOf(model.value).value)
    ensures r.Err? ==> r.error.ValueError?
    ensures model.None? ==> r == Err(ValueError("Model cannot be None"))
    ensures model.Some? && channelNames == [] ==> r == Err(ValueError("Channel names cannot be empty"))
  {
    if model.None? then Err(ValueError("Model cannot be None"))
    else if channelNames == [] then Err(ValueError("Channel names cannot be empty"))
    else if model.value.inferenceData.None? then Err(ValueError("Model must have inference_data attribute"))
    else if model.value.inferenceData.value.posterior.None? then
      Err(ValueError("Model inference_data must have posterior attribute"))
    else Ok(Processor(model.value, channelNames, model.value.inferenceData.value.posterior.value))
  }

  /**
   * The channel argument and the channels it selects: `None` selects every
   * channel; anything but a non-blank string, or a name the processor does
   * not know, is a ValueError.
   */
  function TargetChannels(names: seq<string>, channel: Value): (r: Result<seq<string>>)
    ensures r.Ok? <==> channel.NoneValue? || (channel.Str? && Strip(channel.s) != "" && channel.s in names)
    ensures r.Ok? ==> r.value == if channel.Str? then [channel.s] else names
    ensures r.Err? ==> r.error.ValueError?
    ensures channel.Str? && Strip(channel.s) != "" && channel.s !in names ==>
      r == Err(ValueError("Channel '" + channel.s + "' not found in model. Available channels: " + ListRepr(names)))
  {
    match channel
    case NoneValue => Ok(names)
    case NonStr(_) => Err(ValueError("Channel must be a non-empty string"))
    case Str(s) =>
      if Strip(s) == "" then Err(ValueError("Channel must be a non-empty string"))
      else if s !in names then
        Err(ValueError("Channel '" + s + "' not found in model. Available channels: " + ListRepr(names)))
      else Ok([s])
  }

  /** `_extract_roi_data`: the posterior's `roi_m`, a ValueError when it is missing or empty. */
  function RoiData(p: Posterior): (r: Result<seq<Float>>)
    ensures r.Ok? <==> "roi_m" in p.dataVars && p.dataVars["roi_m"] != []
    ensures r.Ok? ==> r.value == p.dataVars["roi_m"]
    ensures r.Err? ==> r.error.ValueError?
  {
    if "roi_m" !in p.dataVars then Err(ValueError("No ROI data found in model posterior"))
    else if p.dataVars["roi_m"] == [] then Err(ValueError("ROI data is empty"))
    else Ok(p.dataVars["roi_m"])
  }

  /**
   * `_extract_spend_data`: the spend tensor averaged over geos, a
   * ValueError when the model has no spend tensor or it is empty.
   */
  function SpendData(model: Model): (r: Result<Grid>)
    ensures r.Ok? <==> MediaSpend(model).Some? && MediaSpend(model).value.geos > 0
                       && MediaSpend(model).value.times > 0 && MediaSpend(model).value.channels > 0
    ensures r.Ok? ==> r.value == GeoMean(MediaSpend(model).value)
    ensures r.Ok? ==> r.value.rows > 0 && r.value.cols > 0
    ensures r.Err? ==> r.error.ValueError?
  {
    if model.mediaTensors.None? then Err(ValueError("Model does not have media_tensors attribute"))
    else if model.mediaTensors.value.mediaSpend.None? then
      Err(ValueError("Model media_tensors does not have media_spend attribute"))
    else
      var t := model.mediaTensors.value.mediaSpend.value;
      if t.geos * t.times * t.channels == 0 then Err(ValueError("Media spend data is empty"))
      else Ok(GeoMean(t))
  }

  /** The ROI the contributions are scaled by: 1.0 in place of NaN or an infinity. */
  function EffectiveRoi(roi: Float): (r: Float)
    ensures r.Finite?
    ensures roi.Finite? ==> r == roi
  {
    if roi.Finite? then roi else Finite(FallbackRoi)
  }

  /**
   * `_calculate_channel_contributions`: the channel's ROI times its spend
   * over time with non-finite products zeroed, or the drawn fallback series
   * when the index is past the ROI or the spend channels.
   */
  function ChannelSeries(idx: nat, roi: seq<Float>, spend: Grid, draws: (nat, nat) -> real): (s: seq<Float>)
    ensures |s| == spend.rows && AllFinite(s)
  {
    if idx < |roi| && idx < spend.cols then Sanitized(Scaled(EffectiveRoi(roi[idx]), Column(spend, idx)))
    else FallbackSeries(draws, idx, spend.rows)
  }

  /**
   * Every series has one finite value per time period. For a channel the
   * data covers, entry t is the ROI (1.0 if non-finite) times the spend, or
   * 0.0 where that spend is not finite.
   */
  lemma ChannelSeriesMeaning(idx: nat, roi: seq<Float>, spend: Grid, draws: (nat, nat) -> real)
    ensures var s := ChannelSeries(idx, roi, spend, draws);
      |s| == spend.rows && AllFinite(s)
      && (idx < |roi| && idx < spend.cols ==>
            forall t :: 0 <= t < spend.rows ==>
              s[t] == if spend.cells[t][idx].Finite?
                      then Finite(EffectiveRoi(roi[idx]).value * spend.cells[t][idx].value)
                      else Finite(0.0))
      && (!(idx < |roi| && idx < spend.cols) ==> s == FallbackSeries(draws, idx, spend.rows))
  {
    if idx < |roi| && idx < spend.cols {
      var r := EffectiveRoi(roi[idx]);
      var c := Column(spend, idx);
      var s := ChannelSeries(idx, roi, spend, draws);
      forall t | 0 <= t < spend.rows
        ensures s[t] == if spend.cells[t][idx].Finite?
                        then Finite(r.value * spend.cells[t][idx].value) else Finite(0.0)
      {
        assert c[t] == spend.cells[t][idx];
        if !c[t].Finite? {
          assert !Mul(r, c[t]).Finite?;
        }
      }
    }
  }

  /** The same computation with the zeroing done in place on a fresh array. */
  method CalculateChannelContributions(idx: nat, roi: seq<Float>, spend: Grid, draws: (nat, nat) -> real)
    returns (s: seq<Float>)
    ensures s == ChannelSeries(idx, roi, spend, draws)
  {
    if idx < |roi| && idx < spend.cols {
      var r := EffectiveRoi(roi[idx]);
      var col := Column(spend, idx);
      var a := new Float[|col|](t requires 0 <= t < |col| => Mul(r, col[t]));
      assert a[..] == Scaled(r, col);
      ZeroInvalid(a);
      s := a[..];
    } else {
      s := FallbackSeries(draws, idx, spend.rows);
    }
  }

  /** What one channel contributes to the payload: its series and their statistics. */
  function Outcome(roi: seq<Float>, spend: Grid, draws: (nat, nat) -> real): nat -> ChannelOutcome
  {
    (i: nat) => var s := ChannelSeries(i, roi, spend, draws); Ok((s, FiniteStats(s)))
  }

  /** Every channel's outcome is a finite series over the periods with its finite-value statistics. */
  lemma OutcomeMeaning(roi: seq<Float>, spend: Grid, draws: (nat, nat) -> real)
    ensures var f := Outcome(roi, spend, draws);
      forall i: nat :: f(i).Ok? && |f(i).value.0| == spend.rows && AllFinite(f(i).value.0)
        && f(i).value.1 == FiniteStats(f(i).value.0)
  {
    var f := Outcome(roi, spend, draws);
    forall i: nat
      ensures f(i).Ok? && |f(i).value.0| == spend.rows && AllFinite(f(i).value.0)
        && f(i).value.1 == FiniteStats(f(i).value.0)
    {
      ChannelSeriesMeaning(i, roi, spend, draws);
    }
  }

  /**
   * `get_contribution_data(channel)`: the selected channels, their series
   * and statistics, and the shape [number of channels asked for, length of
   * the first series]; the argument, ROI and spend errors in that order.
   */
  function ContributionDataOf(p: Processor, channel: Value, draws: (nat, nat) -> real): (r: Result<ContributionData>)
    ensures r.Ok? ==> r.value.data.Valid() && r.value.summary.Valid()
  {
    var targets :- TargetChannels(p.channelNames, channel);
    var roi :- RoiData(p.posterior);
    var spend :- SpendData(p.model);
    Payload(p.channelNames, targets, Outcome(roi, spend, draws))
  }

  /** `get_contribution_data(channel)`, its loop run by `FillEach`. */
  method GetContributionData(p: Processor, channel: Value, draws: (nat, nat) -> real)
    returns (r: Result<ContributionData>)
    ensures r == ContributionDataOf(p, channel, draws)
  {
    var targetsR := TargetChannels(p.channelNames, channel);
    if targetsR.Err? { return Err(targetsR.error); }
    var roiR := RoiData(p.posterior);
    if roiR.Err? { return Err(roiR.error); }
    var spendR := SpendData(p.model);
    if spendR.Err? { return Err(spendR.error); }
    var targets := targetsR.value;
    var filled := FillEach(p.channelNames, targets, Outcome(roiR.value, spendR.value, draws));
    FillValid(p.channelNames, targets, Outcome(roiR.value, spendR.value, draws), |p.channelNames|);
    if filled.Err? || filled.value.0.keys == [] {
      return Err(ValueError("No contribution data could be extracted"));
    }
    var data := filled.value.0;
    r := Ok(ContributionData(targets, data, filled.value.1, (|targets|, |FirstValue(data)|)));
  }

  /**
   * Contribution data fails only on the argument, the ROI or the spend, never
   * for lack of data unless the processor has no channels at all, and every
   * failure is a ValueError.
   */
  lemma ContributionDataErrors(p: Processor, channel: Value, draws: (nat, nat) -> real)
    ensures var r := ContributionDataOf(p, channel, draws);
      (r.Err? <==> TargetChannels(p.channelNames, channel).Err? || RoiData(p.posterior).Err?
                   || SpendData(p.model).Err? || p.channelNames == [])
      && (r.Err? ==> r.error.ValueError?)
  {
    if TargetChannels(p.channelNames, channel).Ok? && RoiData(p.posterior).Ok? && SpendData(p.model).Ok?
       && p.channelNames != [] {
      ContributionDataPayload(p, channel, draws);
    }
  }

  /**
   * When the argument, the ROI and the spend are usable and there are
   * channels, contribution data is returned: the keys of both dictionaries are
   * exactly the channels asked for; each series has one finite value per
   * time period and its statistics are those of the finite-value summary;
   * the shape is the number of channels asked for by the number of periods.
   */
  lemma ContributionDataPayload(p: Processor, channel: Value, draws: (nat, nat) -> real)
    requires TargetChannels(p.channelNames, channel).Ok? && RoiData(p.posterior).Ok? && SpendData(p.model).Ok?
    requires p.channelNames != []
    ensures var r := ContributionDataOf(p, channel, draws);
      r.Ok?
      && var d := r.value; var spend := SpendData(p.model).value;
         d.channels == TargetChannels(p.channelNames, channel).value
         && d.data.keys == d.summary.keys
         && (forall ch :: ch in d.data.values <==> ch in d.channels)
         && (forall ch :: ch in d.data.values ==>
               |d.data.values[ch]| == spend.rows && AllFinite(d.data.values[ch])
               && ch in d.summary.values && d.summary.values[ch] == FiniteStats(d.data.values[ch]))
         && d.shape == (|d.channels|, spend.rows)
  {
    var targets := TargetChannels(p.channelNames, channel).value;
    var roi := RoiData(p.posterior).value;
    var spend := SpendData(p.model).value;
    OutcomeMeaning(roi, spend, draws);
    FillPayload(p.channelNames, targets, Outcome(roi, spend, draws), spend.rows);
    FillValid(p.channelNames, targets, Outcome(roi, spend, draws), |p.channelNames|);
    PayloadMeaning(p.channelNames, targets, Outcome(roi, spend, draws), spend.rows);
    ContributionDataIsPayload(p, channel, draws);
  }

  /** When the argument, the ROI and the spend are usable, the payload is built from the loop's dictionaries. */
  lemma ContributionDataIsPayload(p: Processor, channel: Value, draws: (nat, nat) -> real)
    requires TargetChannels(p.channelNames, channel).Ok? && RoiData(p.posterior).Ok? && SpendData(p.model).Ok?
    ensures ContributionDataOf(p, channel, draws)
      == Payload(p.channelNames, TargetChannels(p.channelNames, channel).value,
                 Outcome(RoiData(p.posterior).value, SpendData(p.model).value, draws))
  {
  }

  /**
   * With distinct channel names, asking for one channel gives a payload
   * holding that channel alone, computed at its position.
   */
  lemma SingleChannel(p: Processor, name: string, draws: (nat, nat) -> real)
    requires Distinct(p.channelNames) && name in p.channelNames && Strip(name) != ""
    requires RoiData(p.posterior).Ok? && SpendData(p.model).Ok?
    ensures var r := ContributionDataOf(p, Str(name), draws);
      r.Ok? && r.value.channels == [name] && r.value.data.keys == [name]
      && name in r.value.data.values && r.value.data.values[name]
         == ChannelSeries(IndexOf(p.channelNames, name), RoiData(p.posterior).value, SpendData(p.model).value, draws)
  {
    var names := p.channelNames;
    var roi := RoiData(p.posterior).value;
    var spend := SpendData(p.model).value;
    var f := Outcome(roi, spend, draws);
    assert TargetChannels(names, Str(name)) == Ok([name]);
    ContributionDataIsPayload(p, Str(name), draws);
    OutcomeMeaning(roi, spend, draws);
    PayloadSingle(names, name, f);
    assert f(IndexOf(names, name)).value.0 == ChannelSeries(IndexOf(names, name), roi, spend, draws);
  }

  // ---------------------------------------------------------------------
  // Channel summary

  /** `_get_total_spend_data`: the model's total spend, `None` when absent or empty. */
  function TotalSpendData(model: Model): (r: Option<Grid>)
    ensures r.Some? ==> model.totalSpend == r && r.value.rows * r.value.cols > 0
  {
    if model.totalSpend.Some? && model.totalSpend.value.rows * model.totalSpend.value.cols == 0 then None
    else model.totalSpend
  }

  /**
   * The summary of the channel at position `i` from its statistics, the
   * floored total contribution and the total spend data: the spend taken
   * from column `i` when there is one, else a thousand times the
   * contribution; the share and efficiency divided out only above the floor.
   */
  function SummaryEntry(ch: string, i: nat, st: Stats, totalContribution: Float, spend: Option<Grid>)
    : (r: Result<ChannelSummary>)
    ensures r.Ok? ==>
      r.value.Valid() && r.value.name == ch
      && r.value.totalContribution == st.total && r.value.avgWeeklyContribution == st.mean
    ensures r.Err? ==> r.error == ValidationError("MMMChannelSummary")
  {
    var fromSpend := spend.Some? && i < spend.value.cols;
    var totalSpend :=
      if fromSpend then PyMax(Finite(MinTotal), NpSum(Column(spend.value, i)))
      else PyMax(Finite(MinTotal), Mul(st.total, Finite(SpendToContributionRatio)));
    var avgWeeklySpend :=
      if fromSpend then NpMean(Column(spend.value, i)) else Mul(st.mean, Finite(SpendToContributionRatio));
    var share := if Gt(totalContribution, Finite(MinTotal)) then Div(st.total, totalContribution) else Finite(0.0);
    var efficiency := if Gt(totalSpend, Finite(MinTotal)) then Div(st.total, totalSpend) else Finite(0.0);
    NewChannelSummary(ch, totalSpend, st.total, share, efficiency, avgWeeklySpend, st.mean)
  }

  /** The summary of a channel from its name, position and statistics, with the totals fixed. */
  function SummaryEntries(totalContribution: Float, spend: Option<Grid>): (string, nat, Stats) -> Result<ChannelSummary>
  {
    (ch: string, i: nat, st: Stats) => SummaryEntry(ch, i, st, totalContribution, spend)
  }

  /**
   * `max(1e-10, sum of the channel totals)`: never NaN and never below the
   * floor, and the sum itself when that is a finite number above the floor.
   */
  function TotalContribution(summary: Dict<Stats>): (t: Float)
    requires summary.Valid()
    ensures Ge(t, Finite(MinTotal)) && !t.NaN?
    ensures var sum := TotalOf(Values(summary)); sum.Finite? && sum.value > MinTotal ==> t == sum
  {
    PyMaxFloor(MinTotal, TotalOf(Values(summary)));
    PyMax(Finite(MinTotal), TotalOf(Values(summary)))
  }

  /** `get_channel_summary()`: contribution data for every channel, then one summary per channel. */
  function ChannelSummaryOf(p: Processor, draws: (nat, nat) -> real): (r: Result<Dict<ChannelSummary>>)
    ensures r.Ok? ==> r.value.Valid() && r.value.keys == FirstOccurrences(p.channelNames)
  {
    var cd :- ContributionDataOf(p, NoneValue, draws);
    ContributionDataErrors(p, NoneValue, draws);
    ContributionDataPayload(p, NoneValue, draws);
    var entries := SummaryEntries(TotalContribution(cd.summary), TotalSpendData(p.model));
    assert cd.channels[..|cd.channels|] == cd.channels;
    PutAllFirstOccurrences(cd.channels, EntryAt(cd.channels, cd.summary, entries), |cd.channels|);
    SummaryUpTo(cd.channels, cd.summary, entries, |cd.channels|)
  }

  /** `get_channel_summary()`, its loop run by `PutEach`. */
  method GetChannelSummary(p: Processor, draws: (nat, nat) -> real) returns (r: Result<Dict<ChannelSummary>>)
    ensures r == ChannelSummaryOf(p, draws)
  {
    var cdR := GetContributionData(p, NoneValue, draws);
    if cdR.Err? {
      return Err(cdR.error);
    }
    var cd := cdR.value;
    ContributionDataErrors(p, NoneValue, draws);
    ContributionDataPayload(p, NoneValue, draws);
    r := PutEach(cd.channels, EntryAt(cd.channels, cd.summary, SummaryEntries(TotalContribution(cd.summary), TotalSpendData(p.model))));
  }

  /**
   * Each summary entry is valid, names its channel, carries the channel's
   * total and mean contribution, and its share is the total over the summed
   * totals when those are above the floor, and 0 otherwise.
   */
  lemma SummaryEntryShare(ch: string, i: nat, st: Stats, tc: Float, spend: Option<Grid>)
    requires st.total.Finite? && st.mean.Finite? && tc.Finite?
    requires SummaryEntry(ch, i, st, tc, spend).Ok?
    ensures var e := SummaryEntry(ch, i, st, tc, spend).value;
      e.Valid() && e.name == ch && e.totalContribution == st.total && e.avgWeeklyContribution == st.mean
      && (tc.value > MinTotal ==> e.contributionShare == Finite(st.total.value / tc.value))
      && (tc.value <= MinTotal ==> e.contributionShare == Finite(0.0))
  {
  }

  /**
   * Without a spend column, an entry's spend is a thousand times its
   * contribution, so its efficiency is 0.001 whenever that spend is above
   * the floor, and 0 otherwise.
   */
  lemma SummaryEntryWithoutSpend(ch: string, i: nat, st: Stats, tc: Float, spend: Option<Grid>)
    requires st.total.Finite? && st.mean.Finite? && tc.Finite?
    requires SummaryEntry(ch, i, st, tc, spend).Ok?
    requires !(spend.Some? && i < spend.value.cols)
    ensures var e := SummaryEntry(ch, i, st, tc, spend).value;
      e.avgWeeklySpend == Finite(SpendToContributionRatio * st.mean.value)
      && (st.total.value * SpendToContributionRatio > MinTotal ==>
            e.totalSpend == Finite(SpendToContributionRatio * st.total.value)
            && e.efficiency == Finite(1.0 / SpendToContributionRatio))
      && (st.total.value * SpendToContributionRatio <= MinTotal ==> e.efficiency == Finite(0.0))
  {
    var t := st.total.value;
    if t * SpendToContributionRatio > MinTotal {
      DivScaled(t, SpendToContributionRatio);
    }
  }

  /**
   * With a finite spend column, an entry's spend is the column's sum and
   * its efficiency the total over that sum when the sum is above the floor;
   * otherwise the spend is the floor and the efficiency 0.
   */
  lemma SummaryEntryWithSpend(ch: string, i: nat, st: Stats, tc: Float, spend: Option<Grid>)
    requires st.total.Finite? && st.mean.Finite? && tc.Finite?
    requires SummaryEntry(ch, i, st, tc, spend).Ok?
    requires spend.Some? && i < spend.value.cols && AllFinite(Column(spend.value, i))
    ensures var e := SummaryEntry(ch, i, st, tc, spend).value;
      var s := Sum(Reals(Column(spend.value, i)));
      (s > MinTotal ==> e.totalSpend == Finite(s) && e.efficiency == Finite(st.total.value / s))
      && (s <= MinTotal ==> e.totalSpend == Finite(MinTotal) && e.efficiency == Finite(0.0))
  {
    NpSumFinite(Column(spend.value, i));
  }

  /** Every channel's share in the summary loop's result, from its statistics. */
  lemma SummaryShares(channels: seq<string>, summary: Dict<Stats>, tc: Float, spend: Option<Grid>)
    requires Distinct(channels) && summary.Valid() && summary.keys == channels && tc.Finite?
    requires forall ch :: ch in summary.values ==> summary.values[ch].total.Finite? && summary.values[ch].mean.Finite?
    requires SummaryUpTo(channels, summary, SummaryEntries(tc, spend), |channels|).Ok?
    ensures var r := SummaryUpTo(channels, summary, SummaryEntries(tc, spend), |channels|).value;
      forall k :: 0 <= k < |channels| ==>
        channels[k] in r.values
        && r.values[channels[k]].contributionShare
           == if tc.value > MinTotal then Finite(summary.values[channels[k]].total.value / tc.value) else Finite(0.0)
  {
    var f := EntryAt(channels, summary, SummaryEntries(tc, spend));
    PutAllDistinct(channels, f, |channels|);
    var r := SummaryUpTo(channels, summary, SummaryEntries(tc, spend), |channels|).value;
    forall k | 0 <= k < |channels|
      ensures r.values[channels[k]].contributionShare
        == if tc.value > MinTotal then Finite(summary.values[channels[k]].total.value / tc.value) else Finite(0.0)
    {
      assert f(k) == SummaryEntry(channels[k], k, summary.values[channels[k]], tc, spend);
      SummaryEntryShare(channels[k], k, summary.values[channels[k]], tc, spend);
    }
  }

  /**
   * With distinct channel names, the summary of every channel's
   * contributions is keyed by the names in order and has finite statistics.
   */
  lemma AllChannelStats(p: Processor, draws: (nat, nat) -> real)
    requires Distinct(p.channelNames) && ContributionDataOf(p, NoneValue, draws).Ok?
    ensures var cd := ContributionDataOf(p, NoneValue, draws).value;
      cd.channels == p.channelNames && cd.summary.Valid() && cd.summary.keys == p.channelNames
      && forall ch :: ch in cd.summary.values ==>
           cd.summary.values[ch].total.Finite? && cd.summary.values[ch].mean.Finite?
  {
    var names := p.channelNames;
    ContributionDataErrors(p, NoneValue, draws);
    ContributionDataPayload(p, NoneValue, draws);
    var cd := ContributionDataOf(p, NoneValue, draws).value;
    FillAllKeys(names, names, Outcome(RoiData(p.posterior).value, SpendData(p.model).value, draws), |names|);
    assert names[..|names|] == names;
    forall ch | ch in cd.summary.values
      ensures cd.summary.values[ch].total.Finite? && cd.summary.values[ch].mean.Finite?
    {
      FiniteStatsExact(cd.data.values[ch]);
    }
  }

  /**
   * The summary loop over distinct channels whose finite statistics are
   * keyed in order: every share is finite and, when the totals sum to more
   * than the floor, is the channel's total over that sum.
   */
  lemma SummaryShareValues(channels: seq<string>, summary: Dict<Stats>, spend: Option<Grid>)
    requires Distinct(channels) && summary.Valid() && summary.keys == channels
    requires forall ch :: ch in summary.values ==> summary.values[ch].total.Finite? && summary.values[ch].mean.Finite?
    requires SummaryUpTo(channels, summary, SummaryEntries(TotalContribution(summary), spend), |channels|).Ok?
    ensures var r := SummaryUpTo(channels, summary, SummaryEntries(TotalContribution(summary), spend), |channels|).value;
      var ts := Totals(Values(summary));
      forall k :: 0 <= k < |channels| ==>
        channels[k] in r.values && r.values[channels[k]].contributionShare.Finite?
        && (Gt(TotalOf(Values(summary)), Finite(MinTotal)) ==>
              Sum(ts) > MinTotal && r.values[channels[k]].contributionShare.value == ts[k] / Sum(ts))
  {
    var stats := Values(summary);
    TotalOfFinite(stats);
    PyMaxFloor(MinTotal, TotalOf(stats));
    SummaryShares(channels, summary, TotalContribution(summary), spend);
  }

  /**
   * ... so when the totals sum to more than the floor, the shares add up to
   * exactly 1.
   */
  lemma SummarySharesSumToOne(channels: seq<string>, summary: Dict<Stats>, spend: Option<Grid>)
    requires Distinct(channels) && summary.Valid() && summary.keys == channels
    requires forall ch :: ch in summary.values ==> summary.values[ch].total.Finite? && summary.values[ch].mean.Finite?
    requires SummaryUpTo(channels, summary, SummaryEntries(TotalContribution(summary), spend), |channels|).Ok?
    ensures var r := SummaryUpTo(channels, summary, SummaryEntries(TotalContribution(summary), spend), |channels|).value;
      (forall k :: 0 <= k < |channels| ==> channels[k] in r.values && r.values[channels[k]].contributionShare.Finite?)
      && (Gt(TotalOf(Values(summary)), Finite(MinTotal)) ==>
            Sum(seq(|channels|, k requires 0 <= k < |channels| => r.values[channels[k]].contributionShare.value)) == 1.0)
  {
    SummaryShareValues(channels, summary, spend);
    var r := SummaryUpTo(channels, summary, SummaryEntries(TotalContribution(summary), spend), |channels|).value;
    var ts := Totals(Values(summary));
    if Gt(TotalOf(Values(summary)), Finite(MinTotal)) {
      var shares := seq(|channels|, k requires 0 <= k < |channels| => r.values[channels[k]].contributionShare.value);
      var scaled := seq(|ts|, k requires 0 <= k < |ts| => ts[k] / Sum(ts));
      assert |shares| == |scaled|;
      forall k | 0 <= k < |shares| ensures shares[k] == scaled[k] {
      }
      assert shares == scaled;
      SharesSumToOne(ts);
    }
  }

  /**
   * With distinct channel names, whenever the channel totals sum to more
   * than the 1e-10 floor, the contribution shares of the summary add up to
   * exactly 1.
   */
  lemma SharesSumToOneWhenPositive(p: Processor, draws: (nat, nat) -> real)
    requires Distinct(p.channelNames)
    requires ChannelSummaryOf(p, draws).Ok?
    ensures var r := ChannelSummaryOf(p, draws).value;
      var names := p.channelNames;
      (forall k :: 0 <= k < |names| ==> names[k] in r.values && r.values[names[k]].contributionShare.Finite?)
      && (Gt(TotalOf(Values(ContributionDataOf(p, NoneValue, draws).value.summary)), Finite(MinTotal)) ==>
            Sum(seq(|names|, k requires 0 <= k < |names| => r.values[names[k]].contributionShare.value)) == 1.0)
  {
    AllChannelStats(p, draws);
    var cd := ContributionDataOf(p, NoneValue, draws).value;
    var spend := TotalSpendData(p.model);
    assert ChannelSummaryOf(p, draws)
      == SummaryUpTo(p.channelNames, cd.summary, SummaryEntries(TotalContribution(cd.summary), spend), |p.channelNames|);
    SummarySharesSumToOne(p.channelNames, cd.summary, spend);
  }
}
