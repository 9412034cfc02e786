/**
 * The older data processor of the service layer: contributions are the ROI
 * times the geo-averaged spend with nothing replaced, their statistics are
 * numpy's over the whole series, and the channel summary divides only by
 * totals above zero, taking a thousand times the contribution as the spend
 * when the model has no spend column for the channel.
 */
module DataProcessorLegacy {
  import opened Py
  import opened Floats
  import opened Schemas
  import opened Dicts
  import opened Artifact
  import opened Contributions
  import opened Fills

  const SpendToContributionRatio: real := 1000.0

  /** The fields `__init__` sets; they are only read afterwards. */
  datatype Processor = Processor(model: Model, channelNames: seq<string>, posterior: Posterior)

  /** `MMMDataProcessor(model, channel_names)`: reading the posterior fails when the model has none. */
  function NewProcessor(model: Model, channelNames: seq<string>): (r: Result<Processor>)
    ensures r.Ok? <==> model.inferenceData.Some? && model.inferenceData.value.posterior.Some?
    ensures r.Ok? ==> r.value.model == model && r.value.channelNames == channelNames
                      && r.value.posterior == model.inferenceData.value.posterior.value
    ensures r.Err? ==> r.error.AttributeError?
  {
    var posterior :- PosteriorOf(model);
    Ok(Processor(model, channelNames, posterior))
  }

  /**
   * The channels a call selects: a falsy channel (`None` or `""`) selects
   * every channel, any other must be one of the processor's.
   */
  function Targets(names: seq<string>, channel: Option<string>): (r: Result<seq<string>>)
    ensures r.Ok? <==> channel.None? || channel.value == "" || channel.value in names
    ensures r.Ok? && (channel.None? || channel.value == "") ==> r.value == names
    ensures r.Ok? && channel.Some? && channel.value != "" ==> r.value == [channel.value]
    ensures r.Err? ==> r == Err(ValueError("Channel '" + channel.value + "' not found in model"))
  {
    match channel
    case None => Ok(names)
    case Some(c) =>
      if c == "" then Ok(names)
      else if c !in names then Err(ValueError("Channel '" + c + "' not found in model"))
      else Ok([c])
  }

  /** `_extract_roi_data`: the posterior means of `roi_m`, a ValueError when it is missing. */
  function RoiData(p: Posterior): (r: Result<seq<Float>>)
    ensures r.Ok? <==> "roi_m" in p.dataVars
    ensures r.Ok? ==> r.value == p.dataVars["roi_m"]
    ensures r.Err? ==> r.error == ValueError("No ROI data found in model posterior")
  {
    if "roi_m" !in p.dataVars then Err(ValueError("No ROI data found in model posterior"))
    else Ok(p.dataVars["roi_m"])
  }

  /**
   * `_extract_spend_data`: the spend tensor averaged over geos, a ValueError
   * when the model has no spend tensor; an empty tensor is not refused.
   */
  function SpendData(m: Model): (r: Result<Grid>)
    ensures r.Ok? <==> MediaSpend(m).Some?
    ensures r.Ok? ==> r.value.rows == MediaSpend(m).value.times && r.value.cols == MediaSpend(m).value.channels
    ensures r.Err? ==> r.error == ValueError("No media spend data found in model")
  {
    match MediaSpend(m)
    case None => Err(ValueError("No media spend data found in model"))
    case Some(t) => Ok(GeoMean(t))
  }

  /**
   * `_calculate_channel_contributions`: the channel's ROI times its spend
   * over time, or the drawn fallback series when the index is past the ROI
   * or the spend channels.
   */
  function ChannelSeries(idx: nat, roi: seq<Float>, spend: Grid, draws: (nat, nat) -> real): (s: seq<Float>)
    ensures |s| == spend.rows
  {
    if idx < |roi| && idx < spend.cols then Scaled(roi[idx], Column(spend, idx))
    else FallbackSeries(draws, idx, spend.rows)
  }

  /**
   * For a channel the data covers, entry t of its series is the channel's
   * ROI times the mean over geos of its spend at time t; NaN and infinities
   * in the ROI or the spend are carried through, not replaced.
   */
  lemma ChannelSeriesMeaning(idx: nat, roi: seq<Float>, t: SpendTensor, draws: (nat, nat) -> real)
    requires idx < |roi| && idx < t.channels
    ensures var s := ChannelSeries(idx, roi, GeoMean(t), draws);
      |s| == t.times
      && (forall k :: 0 <= k < t.times ==> s[k] == Mul(roi[idx], NpMean(GeoSeries(t, k, idx))))
      && (roi[idx].NaN? ==> forall k :: 0 <= k < t.times ==> s[k].NaN?)
  {
    var spend := GeoMean(t);
    var s := ChannelSeries(idx, roi, spend, draws);
    forall k | 0 <= k < t.times ensures s[k] == Mul(roi[idx], NpMean(GeoSeries(t, k, idx))) {
      assert Column(spend, idx)[k] == spend.cells[k][idx];
    }
  }

  /** A channel past the ROI or the spend channels gets the drawn series. */
  lemma ChannelSeriesFallback(idx: nat, roi: seq<Float>, spend: Grid, draws: (nat, nat) -> real)
    requires !(idx < |roi| && idx < spend.cols)
    ensures var s := ChannelSeries(idx, roi, spend, draws);
      AllFinite(s) && forall k :: 0 <= k < spend.rows ==> s[k] == Finite(draws(idx, k))
  {
  }

  /** The same computation, as `roi * spend_over_time` or the drawn series. */
  method CalculateChannelContributions(idx: nat, roi: seq<Float>, spend: Grid, draws: (nat, nat) -> real)
    returns (s: seq<Float>)
    ensures s == ChannelSeries(idx, roi, spend, draws)
  {
    if idx < |roi| && idx < spend.cols {
      s := Scaled(roi[idx], Column(spend, idx));
    } else {
      s := FallbackSeries(draws, idx, spend.rows);
    }
  }

  /** What one channel contributes: its series and numpy's statistics of it, or the error those raise. */
  function Outcome(roi: seq<Float>, spend: Grid, draws: (nat, nat) -> real): nat -> ChannelOutcome
  {
    (i: nat) =>
      var s := ChannelSeries(i, roi, spend, draws);
      match NumpyStats(s)
      case Err(e) => Err(e)
      case Ok(st) => Ok((s, st))
  }

  /** A channel's outcome fails exactly when there are no time periods, and then with a ValueError. */
  lemma OutcomeMeaning(roi: seq<Float>, spend: Grid, draws: (nat, nat) -> real, i: nat)
    ensures var o := Outcome(roi, spend, draws)(i);
      (o.Err? <==> spend.rows == 0) && (o.Err? ==> o.error.ValueError?)
      && (o.Ok? ==> o.value.0 == ChannelSeries(i, roi, spend, draws) && NumpyStats(o.value.0) == Ok(o.value.1))
  {
  }

  /**
   * `get_contribution_data(channel)`: the channel check, then the ROI and
   * the spend, then the loop over the processor's channels; a loop that
   * filled nothing fails on taking the first series' length.
   */
  function ContributionDataOf(p: Processor, channel: Option<string>, draws: (nat, nat) -> real)
    : (r: Result<ContributionData>)
    ensures r.Ok? ==> r.value.data.Valid() && r.value.summary.Valid() && r.value.data.keys == r.value.summary.keys
  {
    var targets :- Targets(p.channelNames, channel);
    var roi :- RoiData(p.posterior);
    var spend :- SpendData(p.model);
    var filled :- Fill(p.channelNames, targets, Outcome(roi, spend, draws), |p.channelNames|);
    FillValid(p.channelNames, targets, Outcome(roi, spend, draws), |p.channelNames|);
    Assemble(targets, filled.0, filled.1)
  }

  /**
   * The returned dictionary: the channels asked for, the loop's two
   * dictionaries and the shape; `next(iter(...))` on an empty `data` raises
   * StopIteration.
   */
  function Assemble(targets: seq<string>, data: Dict<seq<Float>>, summary: Dict<Stats>): (r: Result<ContributionData>)
    requires data.Valid()
    ensures r.Err? <==> data.keys == []
    ensures r.Err? ==> r.error == StopIteration
    ensures r.Ok? ==> r.value.channels == targets && r.value.data == data && r.value.summary == summary
                      && r.value.shape.0 == |targets|
  {
    if data.keys == [] then Err(StopIteration)
    else Ok(ContributionData(targets, data, summary, (|targets|, |FirstValue(data)|)))
  }

  /** `get_contribution_data(channel)`, its loop run by `FillEach`. */
  method GetContributionData(p: Processor, channel: Option<string>, draws: (nat, nat) -> real)
    returns (r: Result<ContributionData>)
    ensures r == ContributionDataOf(p, channel, draws)
  {
    var targetsR := Targets(p.channelNames, channel);
    if targetsR.Err? { return Err(targetsR.error); }
    var roiR := RoiData(p.posterior);
    if roiR.Err? { return Err(roiR.error); }
    var spendR := SpendData(p.model);
    if spendR.Err? { return Err(spendR.error); }
    var targets := targetsR.value;
    var f := Outcome(roiR.value, spendR.value, draws);
    var filled := FillEach(p.channelNames, targets, f);
    if filled.Err? {
      return Err(filled.error);
    }
    FillValid(p.channelNames, targets, f, |p.channelNames|);
    r := Assemble(targets, filled.value.0, filled.value.1);
  }

  /** When the channel, the ROI and the spend are usable, a name is selected exactly when there are names. */
  lemma SomeSelected(names: seq<string>, channel: Option<string>)
    requires Targets(names, channel).Ok?
    ensures (exists i :: 0 <= i < |names| && names[i] in Targets(names, channel).value) <==> names != []
  {
    if names != [] {
      var targets := Targets(names, channel).value;
      if channel.Some? && channel.value != "" {
        var i := IndexOf(names, channel.value);
        assert names[i] in targets;
      } else {
        assert names[0] in targets;
      }
    }
  }

  /**
   * The loop over the channels fails exactly when some name is selected and
   * there are no time periods, with numpy's ValueError; otherwise it fills
   * nothing exactly when no name is selected.
   */
  lemma LoopMeaning(names: seq<string>, targets: seq<string>, roi: seq<Float>, spend: Grid, draws: (nat, nat) -> real)
    ensures var r := Fill(names, targets, Outcome(roi, spend, draws), |names|);
      var some := exists i :: 0 <= i < |names| && names[i] in targets;
      (r.Err? <==> some && spend.rows == 0) && (r.Err? ==> r.error.ValueError?)
      && (r.Ok? ==> r.value.0.Valid() && (r.value.0.keys == [] <==> !some))
  {
    var f := Outcome(roi, spend, draws);
    FillFails(names, targets, f, |names|);
    FillValid(names, targets, f, |names|);
    var r := Fill(names, targets, f, |names|);
    if i :| 0 <= i < |names| && names[i] in targets {
      OutcomeMeaning(roi, spend, draws, i);
      if r.Ok? {
        FillKeys(names, targets, f, |names|);
        assert names[..|names|] == names;
        assert Selected(names, targets, names[i], |names|);
        assert names[i] in r.value.0.values;
      }
    }
    if r.Err? {
      FillErrorIs(names, targets, f, |names|);
      var i :| 0 <= i < |names| && names[i] in targets && f(i) == Err(r.error);
      OutcomeMeaning(roi, spend, draws, i);
    } else if r.value.0.keys != [] {
      var ch := r.value.0.keys[0];
      assert ch in r.value.0.values;
      FillKeys(names, targets, f, |names|);
      assert ch in names[..|names|] && ch in targets;
      var k :| 0 <= k < |names| && names[..|names|][k] == ch;
      assert names[k] in targets;
    }
  }

  /**
   * Contribution data fails on an unknown channel, a missing ROI or spend,
   * a spend tensor without time periods (numpy's maximum of an empty
   * series), or a processor without channels (StopIteration); every failure
   * but the last is a ValueError.
   */
  lemma ContributionDataErrors(p: Processor, channel: Option<string>, draws: (nat, nat) -> real)
    ensures var r := ContributionDataOf(p, channel, draws);
      (r.Err? <==> Targets(p.channelNames, channel).Err? || RoiData(p.posterior).Err?
                   || SpendData(p.model).Err? || p.channelNames == [] || MediaSpend(p.model).value.times == 0)
      && (r.Err? ==> r.error.ValueError? || (r.error == StopIteration && p.channelNames == []))
  {
    var names := p.channelNames;
    if Targets(names, channel).Ok? && RoiData(p.posterior).Ok? && SpendData(p.model).Ok? {
      SomeSelected(names, channel);
      LoopMeaning(names, Targets(names, channel).value, RoiData(p.posterior).value, SpendData(p.model).value, draws);
    }
  }

  /** A failed loop fails with what some selected channel's computation raised. */
  lemma {:induction false} FillErrorIs<A, B>(names: seq<string>, targets: seq<string>, f: nat -> Result<(A, B)>, n: nat)
    requires n <= |names| && Fill(names, targets, f, n).Err?
    ensures exists i :: 0 <= i < n && names[i] in targets && f(i) == Err(Fill(names, targets, f, n).error)
  {
    if Fill(names, targets, f, n - 1).Err? {
      FillErrorIs(names, targets, f, n - 1);
    }
  }

  /**
   * When contribution data is returned, both dictionaries hold exactly the
   * selected names; each series is the one computed at the name's last
   * position, with one value per time period, and its statistics are
   * numpy's; the shape is the number of channels asked for by the number of
   * time periods.
   */
  lemma ContributionDataPayload(p: Processor, channel: Option<string>, draws: (nat, nat) -> real)
    requires ContributionDataOf(p, channel, draws).Ok?
    ensures var d := ContributionDataOf(p, channel, draws).value;
      var roi := RoiData(p.posterior).value; var spend := SpendData(p.model).value;
      Targets(p.channelNames, channel).Ok? && RoiData(p.posterior).Ok? && SpendData(p.model).Ok?
      && d.channels == Targets(p.channelNames, channel).value
      && (forall ch :: ch in d.data.values <==> ch in d.channels)
      && (forall ch :: ch in d.channels ==>
            ch in d.summary.values
            && d.data.values[ch] == ChannelSeries(LastIndex(p.channelNames, ch, |p.channelNames|), roi, spend, draws)
            && NumpyStats(d.data.values[ch]) == Ok(d.summary.values[ch]))
      && d.shape == (|d.channels|, spend.rows)
  {
    var names := p.channelNames;
    var targets := Targets(names, channel).value;
    var roi := RoiData(p.posterior).value;
    var spend := SpendData(p.model).value;
    LoopPayload(names, targets, roi, spend, draws);
    var filled := Fill(names, targets, Outcome(roi, spend, draws), |names|).value;
    assert ContributionDataOf(p, channel, draws) == Assemble(targets, filled.0, filled.1);
  }

  /**
   * A loop over names that include every target, when it does not fail,
   * fills both dictionaries with exactly the targets, each holding the series
   * computed at the name's last position, of one value per time period, and
   * numpy's statistics of it.
   */
  lemma LoopPayload(names: seq<string>, targets: seq<string>, roi: seq<Float>, spend: Grid, draws: (nat, nat) -> real)
    requires forall ch :: ch in targets ==> ch in names
    requires Fill(names, targets, Outcome(roi, spend, draws), |names|).Ok?
    ensures var d := Fill(names, targets, Outcome(roi, spend, draws), |names|).value;
      d.0.Valid()
      && (forall ch :: ch in d.0.values <==> ch in targets)
      && (forall ch :: ch in targets ==>
            ch in d.1.values
            && d.0.values[ch] == ChannelSeries(LastIndex(names, ch, |names|), roi, spend, draws)
            && NumpyStats(d.0.values[ch]) == Ok(d.1.values[ch]))
      && (d.0.keys != [] ==> |FirstValue(d.0)| == spend.rows)
  {
    var f := Outcome(roi, spend, draws);
    FillMeaning(names, targets, f, |names|);
    FillValid(names, targets, f, |names|);
    assert names[..|names|] == names;
    var d := Fill(names, targets, f, |names|).value;
    forall ch | ch in targets
      ensures ch in d.0.values && ch in d.1.values
        && d.0.values[ch] == ChannelSeries(LastIndex(names, ch, |names|), roi, spend, draws)
        && NumpyStats(d.0.values[ch]) == Ok(d.1.values[ch])
    {
      assert Selected(names, targets, ch, |names|);
      OutcomeMeaning(roi, spend, draws, LastIndex(names, ch, |names|));
    }
    if d.0.keys != [] {
      assert d.0.keys[0] in d.0.values;
    }
  }

  /** With distinct names and no channel asked for, the keys are the processor's names in order. */
  lemma AllChannelsInOrder(p: Processor, channel: Option<string>, draws: (nat, nat) -> real)
    requires Distinct(p.channelNames) && (channel.None? || channel.value == "")
    requires ContributionDataOf(p, channel, draws).Ok?
    ensures var d := ContributionDataOf(p, channel, draws).value;
      d.channels == p.channelNames && d.data.keys == p.channelNames && d.summary.keys == p.channelNames
  {
    var names := p.channelNames;
    var f := Outcome(RoiData(p.posterior).value, SpendData(p.model).value, draws);
    FillAllKeys(names, names, f, |names|);
    FillValid(names, names, f, |names|);
    assert names[..|names|] == names;
  }

  /**
   * With distinct names, asking for one known channel gives that channel
   * alone, its series computed at its position.
   */
  lemma SingleChannel(p: Processor, name: string, draws: (nat, nat) -> real)
    requires Distinct(p.channelNames) && name in p.channelNames && name != ""
    requires RoiData(p.posterior).Ok? && SpendData(p.model).Ok? && SpendData(p.model).value.rows > 0
    ensures var r := ContributionDataOf(p, Some(name), draws);
      r.Ok? && r.value.channels == [name] && r.value.data.keys == [name]
      && name in r.value.data.values
      && r.value.data.values[name]
         == ChannelSeries(IndexOf(p.channelNames, name), RoiData(p.posterior).value, SpendData(p.model).value, draws)
      && r.value.shape == (1, SpendData(p.model).value.rows)
  {
    var names := p.channelNames;
    var roi := RoiData(p.posterior).value;
    var spend := SpendData(p.model).value;
    var f := Outcome(roi, spend, draws);
    forall i | 0 <= i < |names| ensures f(i).Ok? {
      OutcomeMeaning(roi, spend, draws, i);
    }
    FillSingle(names, name, f);
    OutcomeMeaning(roi, spend, draws, IndexOf(names, name));
  }

  // ---------------------------------------------------------------------
  // Channel summary

  /**
   * The summary record of the channel at position `i`: the spend is the sum
   * and mean of column `i` of the total spend when there is one, else a
   * thousand times the contribution's total and mean; the share and the
   * efficiency are divided out only when the divisor is above zero.
   */
  function Summarised(ch: string, i: nat, st: Stats, totalContribution: Float, spend: Option<Grid>): (s: ChannelSummary)
    ensures s.name == ch && s.totalContribution == st.total && s.avgWeeklyContribution == st.mean
    ensures !Gt(totalContribution, Finite(0.0)) ==> s.contributionShare == Finite(0.0)
    ensures !Gt(s.totalSpend, Finite(0.0)) ==> s.efficiency == Finite(0.0)
  {
    var fromSpend := spend.Some? && i < spend.value.cols;
    var totalSpend :=
      if fromSpend then NpSum(Column(spend.value, i)) else Mul(st.total, Finite(SpendToContributionRatio));
    var avgWeeklySpend :=
      if fromSpend then NpMean(Column(spend.value, i)) else Mul(st.mean, Finite(SpendToContributionRatio));
    var share := if Gt(totalContribution, Finite(0.0)) then Div(st.total, totalContribution) else Finite(0.0);
    var efficiency := if Gt(totalSpend, Finite(0.0)) then Div(st.total, totalSpend) else Finite(0.0);
    ChannelSummary(ch, totalSpend, st.total, share, efficiency, avgWeeklySpend, st.mean)
  }

  /** `MMMChannelSummary(...)` of that record: a ValidationError when a field is out of range. */
  function SummaryEntry(ch: string, i: nat, st: Stats, totalContribution: Float, spend: Option<Grid>)
    : (r: Result<ChannelSummary>)
    ensures r.Ok? ==>
      r.value.Valid() && r.value.name == ch
      && r.value.totalContribution == st.total && r.value.avgWeeklyContribution == st.mean
    ensures r.Err? ==> r.error == ValidationError("MMMChannelSummary")
  {
    var s := Summarised(ch, i, st, totalContribution, spend);
    NewChannelSummary(s.name, s.totalSpend, s.totalContribution, s.contributionShare, s.efficiency,
                      s.avgWeeklySpend, s.avgWeeklyContribution)
  }

  /**
   * A channel's record names it and carries its total and mean
   * contribution; its share is the total over the summed totals when that
   * sum is above zero, and 0 otherwise; it is accepted exactly when its
   * fields are in range.
   */
  lemma SummaryEntryShare(ch: string, i: nat, st: Stats, tc: Float, spend: Option<Grid>)
    requires st.total.Finite? && tc.Finite?
    ensures var s := Summarised(ch, i, st, tc, spend);
      s.name == ch && s.totalContribution == st.total && s.avgWeeklyContribution == st.mean
      && (tc.value > 0.0 ==> s.contributionShare == Finite(st.total.value / tc.value))
      && (tc.value <= 0.0 ==> s.contributionShare == Finite(0.0))
      && (SummaryEntry(ch, i, st, tc, spend).Ok? <==> s.Valid())
      && (SummaryEntry(ch, i, st, tc, spend).Ok? ==> SummaryEntry(ch, i, st, tc, spend).value == s)
  {
  }

  /**
   * Without a spend column, the spend is a thousand times the contribution,
   * so the efficiency is 0.001 for a positive total and 0 otherwise.
   */
  lemma SummaryEntryWithoutSpend(ch: string, i: nat, st: Stats, tc: Float, spend: Option<Grid>)
    requires st.total.Finite? && st.mean.Finite?
    requires !(spend.Some? && i < spend.value.cols)
    ensures var s := Summarised(ch, i, st, tc, spend);
      s.totalSpend == Finite(SpendToContributionRatio * st.total.value)
      && s.avgWeeklySpend == Finite(SpendToContributionRatio * st.mean.value)
      && (st.total.value > 0.0 ==> s.efficiency == Finite(1.0 / SpendToContributionRatio))
      && (st.total.value <= 0.0 ==> s.efficiency == Finite(0.0))
  {
    var t := st.total.value;
    if t > 0.0 {
      DivScaled(t, SpendToContributionRatio);
    }
  }

  /**
   * With a finite spend column, the spend is its sum and the efficiency the
   * total over that sum when the sum is above zero, and 0 otherwise.
   */
  lemma SummaryEntryWithSpend(ch: string, i: nat, st: Stats, tc: Float, spend: Option<Grid>)
    requires st.total.Finite?
    requires spend.Some? && i < spend.value.cols && AllFinite(Column(spend.value, i))
    ensures var s := Summarised(ch, i, st, tc, spend);
      var sum := Sum(Reals(Column(spend.value, i)));
      s.totalSpend == Finite(sum)
      && (sum > 0.0 ==> s.efficiency == Finite(st.total.value / sum))
      && (sum <= 0.0 ==> s.efficiency == Finite(0.0))
  {
    NpSumFinite(Column(spend.value, i));
  }

  /** The summary of a channel from its name, position and statistics, with the totals fixed. */
  function SummaryEntries(totalContribution: Float, spend: Option<Grid>): (string, nat, Stats) -> Result<ChannelSummary>
  {
    (ch: string, i: nat, st: Stats) => SummaryEntry(ch, i, st, totalContribution, spend)
  }

  /** Every channel of an unfiltered call has statistics. */
  lemma AllSummarised(p: Processor, draws: (nat, nat) -> real)
    requires ContributionDataOf(p, None, draws).Ok?
    ensures var cd := ContributionDataOf(p, None, draws).value;
      cd.channels == p.channelNames && forall ch :: ch in cd.channels ==> ch in cd.summary.values
  {
    ContributionDataPayload(p, None, draws);
  }

  /**
   * `get_channel_summary()`: contribution data for every channel, the sum
   * of their totals, then one summary per channel.
   */
  function ChannelSummaryOf(p: Processor, draws: (nat, nat) -> real): (r: Result<Dict<ChannelSummary>>)
    ensures r.Ok? ==> r.value.Valid() && r.value.keys == FirstOccurrences(p.channelNames)
  {
    var cd :- ContributionDataOf(p, None, draws);
    AllSummarised(p, draws);
    var entries := SummaryEntries(TotalOf(Values(cd.summary)), p.model.totalSpend);
    assert cd.channels[..|cd.channels|] == cd.channels;
    PutAllFirstOccurrences(cd.channels, EntryAt(cd.channels, cd.summary, entries), |cd.channels|);
    SummaryUpTo(cd.channels, cd.summary, entries, |cd.channels|)
  }

  /** `get_channel_summary()`, its loop run by `PutEach`. */
  method GetChannelSummary(p: Processor, draws: (nat, nat) -> real) returns (r: Result<Dict<ChannelSummary>>)
    ensures r == ChannelSummaryOf(p, draws)
  {
    var cdR := GetContributionData(p, None, draws);
    if cdR.Err? {
      return Err(cdR.error);
    }
    var cd := cdR.value;
    AllSummarised(p, draws);
    var totalContribution := TotalOf(Values(cd.summary));
    r := PutEach(cd.channels, EntryAt(cd.channels, cd.summary, SummaryEntries(totalContribution, p.model.totalSpend)));
  }

  /** The summary loop over distinct channels: every channel's share from its statistics. */
  lemma SummaryShares(channels: seq<string>, summary: Dict<Stats>, tc: Float, spend: Option<Grid>)
    requires Distinct(channels) && (forall ch :: ch in channels ==> ch in summary.values) && tc.Finite?
    requires forall ch :: ch in summary.values ==> summary.values[ch].total.Finite?
    requires SummaryUpTo(channels, summary, SummaryEntries(tc, spend), |channels|).Ok?
    ensures var r := SummaryUpTo(channels, summary, SummaryEntries(tc, spend), |channels|).value;
      r.keys == channels
      && forall k :: 0 <= k < |channels| ==>
        channels[k] in r.values
        && r.values[channels[k]].contributionShare
           == if tc.value > 0.0 then Finite(summary.values[channels[k]].total.value / tc.value) else Finite(0.0)
  {
    var f := EntryAt(channels, summary, SummaryEntries(tc, spend));
    PutAllDistinct(channels, f, |channels|);
    assert channels[..|channels|] == channels;
    var r := SummaryUpTo(channels, summary, SummaryEntries(tc, spend), |channels|).value;
    forall k | 0 <= k < |channels|
      ensures r.values[channels[k]].contributionShare
        == if tc.value > 0.0 then Finite(summary.values[channels[k]].total.value / tc.value) else Finite(0.0)
    {
      assert f(k) == SummaryEntry(channels[k], k, summary.values[channels[k]], tc, spend);
      SummaryEntryShare(channels[k], k, summary.values[channels[k]], tc, spend);
    }
  }

  /**
   * The summary loop over distinct channels whose statistics are keyed in
   * order: when the totals are finite and sum to more than zero, the shares
   * add up to exactly 1.
   */
  lemma SummarySharesSumToOne(channels: seq<string>, summary: Dict<Stats>, spend: Option<Grid>)
    requires Distinct(channels) && summary.Valid() && summary.keys == channels
    requires forall ch :: ch in summary.values ==> summary.values[ch].total.Finite?
    requires SummaryUpTo(channels, summary, SummaryEntries(TotalOf(Values(summary)), spend), |channels|).Ok?
    ensures var r := SummaryUpTo(channels, summary, SummaryEntries(TotalOf(Values(summary)), spend), |channels|).value;
      r.keys == channels
      && (Gt(TotalOf(Values(summary)), Finite(0.0)) ==>
            (forall k :: 0 <= k < |channels| ==>
               channels[k] in r.values && r.values[channels[k]].contributionShare.Finite?)
            && Sum(seq(|channels|, k requires 0 <= k < |channels| => r.values[channels[k]].contributionShare.value))
            == 1.0)
  {
    var stats := Values(summary);
    var tc := TotalOf(stats);
    TotalOfFinite(stats);
    SummaryShares(channels, summary, tc, spend);
    var r := SummaryUpTo(channels, summary, SummaryEntries(tc, spend), |channels|).value;
    if Gt(tc, Finite(0.0)) {
      SharesFromTotals(channels, summary, r, Totals(stats));
    }
  }

  /** Shares that are each channel's total over the sum of the totals add up to 1. */
  lemma SharesFromTotals(channels: seq<string>, summary: Dict<Stats>, r: Dict<ChannelSummary>, ts: seq<real>)
    requires summary.Valid() && summary.keys == channels
    requires forall ch :: ch in summary.values ==> summary.values[ch].total.Finite?
    requires ts == Totals(Values(summary)) && Sum(ts) != 0.0
    requires forall k :: 0 <= k < |channels| ==>
      channels[k] in r.values
      && r.values[channels[k]].contributionShare == Finite(summary.values[channels[k]].total.value / Sum(ts))
    ensures Sum(seq(|channels|, k requires 0 <= k < |channels| => r.values[channels[k]].contributionShare.value))
            == 1.0
  {
    var shares := seq(|channels|, k requires 0 <= k < |channels| => r.values[channels[k]].contributionShare.value);
    forall k | 0 <= k < |ts| ensures shares[k] == ts[k] / Sum(ts) {
      assert Values(summary)[k] == summary.values[channels[k]];
    }
    assert shares == seq(|ts|, k requires 0 <= k < |ts| => ts[k] / Sum(ts));
    SharesSumToOne(ts);
  }

  /**
   * With distinct channel names, the summary is keyed by the names in
   * order, and when the channel totals are finite and sum to more than
   * zero, the contribution shares add up to exactly 1.
   */
  lemma SharesSumToOneWhenPositive(p: Processor, draws: (nat, nat) -> real)
    requires Distinct(p.channelNames)
    requires ChannelSummaryOf(p, draws).Ok?
    ensures var cd := ContributionDataOf(p, None, draws).value;
      var r := ChannelSummaryOf(p, draws).value;
      var names := p.channelNames;
      r.keys == names
      && ((forall ch :: ch in cd.summary.values ==> cd.summary.values[ch].total.Finite?)
          && Gt(TotalOf(Values(cd.summary)), Finite(0.0)) ==>
            (forall k :: 0 <= k < |names| ==> names[k] in r.values && r.values[names[k]].contributionShare.Finite?)
            && Sum(seq(|names|, k requires 0 <= k < |names| => r.values[names[k]].contributionShare.value)) == 1.0)
  {
    AllSummarised(p, draws);
    AllChannelsInOrder(p, None, draws);
    var names := p.channelNames;
    var cd := ContributionDataOf(p, None, draws).value;
    var tc := TotalOf(Values(cd.summary));
    assert ChannelSummaryOf(p, draws) == SummaryUpTo(names, cd.summary, SummaryEntries(tc, p.model.totalSpend), |names|);
    PutAllKeys(names, EntryAt(names, cd.summary, SummaryEntries(tc, p.model.totalSpend)), |names|);
    assert names[..|names|] == names;
    if forall ch :: ch in cd.summary.values ==> cd.summary.values[ch].total.Finite? {
      SummarySharesSumToOne(names, cd.summary, p.model.totalSpend);
    }
  }

  /**
   * On a finite series the statistics are exact with `min <= mean <= max`;
   * unlike the newer processor, a NaN ROI is not replaced, so the channel's
   * mean and total come out NaN.
   */
  lemma NaNRoiPropagates(idx: nat, roi: seq<Float>, t: SpendTensor, draws: (nat, nat) -> real)
    requires idx < |roi| && idx < t.channels && t.times > 0 && roi[idx].NaN?
    ensures var s := ChannelSeries(idx, roi, GeoMean(t), draws);
      NumpyStats(s).Ok? && NumpyStats(s).value.mean.NaN? && NumpyStats(s).value.total.NaN?
  {
    ChannelSeriesMeaning(idx, roi, t, draws);
    var s := ChannelSeries(idx, roi, GeoMean(t), draws);
    assert s[0].NaN?;
    NumpyStatsMeaning(s);
  }
}
