/**
 * What both data processors and the service share: a channel's contribution
 * series (ROI times its geo-averaged spend, or drawn noise when the channel
 * cannot be indexed), the statistics of a series, the loop that fills the
 * `data` and `summary` dictionaries channel by channel, and the sum of the
 * channel totals that contribution shares divide by.
 */
module Contributions {
  import opened Py
  import opened Floats
  import opened Schemas
  import opened Dicts
  import opened Fills

  /**
   * `np.random.normal(1000, 200, n)` for channel `idx`: the draws are given,
   * `draws(idx, t)` being the t-th value drawn for that channel.
   */
  function FallbackSeries(draws: (nat, nat) -> real, idx: nat, n: nat): (s: seq<Float>)
    ensures |s| == n && AllFinite(s)
    ensures forall t :: 0 <= t < n ==> s[t] == Finite(draws(idx, t))
  {
    seq(n, t requires 0 <= t < n => Finite(draws(idx, t)))
  }

  /** `roi * spend_over_time`, element by element. */
  function Scaled(roi: Float, col: seq<Float>): (s: seq<Float>)
    ensures |s| == |col| && forall t :: 0 <= t < |col| ==> s[t] == Mul(roi, col[t])
  {
    seq(|col|, t requires 0 <= t < |col| => Mul(roi, col[t]))
  }

  // ---------------------------------------------------------------------
  // The channel summary loop

  /** The summary built for the channel at each position of `channels`. */
  function EntryAt(channels: seq<string>, summary: Dict<Stats>, entry: (string, nat, Stats) -> Result<ChannelSummary>)
    : nat -> Result<ChannelSummary>
    requires forall ch :: ch in channels ==> ch in summary.values
  {
    (i: nat) =>
      if i < |channels| then entry(channels[i], i, summary.values[channels[i]])
      else Err(IndexError("list index out of range"))
  }

  /** The `result` dictionary after the loop has run over the first `n` channels, or its first error. */
  function SummaryUpTo(channels: seq<string>, summary: Dict<Stats>, entry: (string, nat, Stats) -> Result<ChannelSummary>,
                       n: nat): (r: Result<Dict<ChannelSummary>>)
    requires n <= |channels| && forall ch :: ch in channels ==> ch in summary.values
    ensures r.Ok? ==> r.value.Valid()
  {
    PutAllValid(channels, EntryAt(channels, summary, entry), n);
    PutAll(channels, EntryAt(channels, summary, entry), n)
  }

  // ---------------------------------------------------------------------
  // Replacing non-finite contributions

  /** The series with every NaN and infinity replaced by 0.0. */
  function Sanitized(s: seq<Float>): (r: seq<Float>)
    ensures |r| == |s| && AllFinite(r)
    ensures forall t :: 0 <= t < |s| && s[t].Finite? ==> r[t] == s[t]
    ensures forall t :: 0 <= t < |s| && !s[t].Finite? ==> r[t] == Finite(0.0)
  {
    seq(|s|, t requires 0 <= t < |s| => if s[t].Finite? then s[t] else Finite(0.0))
  }

  /** A series with only finite entries is left as it is, so sanitising twice changes nothing more. */
  lemma SanitizedFixesFinite(s: seq<Float>)
    ensures AllFinite(s) ==> Sanitized(s) == s
    ensures Sanitized(Sanitized(s)) == Sanitized(s)
  {
  }

  /** `contributions[np.isnan(c) | np.isinf(c)] = 0.0`, in place. */
  method ZeroInvalid(a: array<Float>)
    modifies a
    ensures a[..] == Sanitized(old(a[..]))
  {
    var t := 0;
    while t < a.Length
      invariant 0 <= t <= a.Length
      invariant forall k :: 0 <= k < t ==> a[k] == Sanitized(old(a[..]))[k]
      invariant forall k :: t <= k < a.Length ==> a[k] == old(a[k])
    {
      if !a[t].Finite? {
        a[t] := Finite(0.0);
      }
      t := t + 1;
    }
  }

  // ---------------------------------------------------------------------
  // Statistics of a series

  /** `c[~(np.isnan(c) | np.isinf(c))]`: the finite entries, in order. */
  function FiniteOnly(s: seq<Float>): (r: seq<Float>)
    ensures AllFinite(r) && |r| <= |s|
    ensures forall x :: x in r <==> x in s && x.Finite?
  {
    if s == [] then []
    else
      var p := s[..|s| - 1];
      assert s == p + [s[|s| - 1]];
      FiniteOnly(p) + (if s[|s| - 1].Finite? then [s[|s| - 1]] else [])
  }

  lemma {:induction false} FiniteOnlyOfFinite(s: seq<Float>)
    requires AllFinite(s)
    ensures FiniteOnly(s) == s
  {
    if s != [] {
      var p := s[..|s| - 1];
      FiniteOnlyOfFinite(p);
      assert s == p + [s[|s| - 1]];
    }
  }

  function Zeros(): Stats
  {
    Stats(Finite(0.0), Finite(0.0), Finite(0.0), Finite(0.0))
  }

  /**
   * `_calculate_summary_stats` of the MMM package: all four statistics are
   * 0.0 for an empty series or one without a finite entry; otherwise they are
   * numpy's mean, sum, max and min of the finite entries.
   */
  function FiniteStats(s: seq<Float>): (st: Stats)
    ensures st.mean.Finite? && st.total.Finite? && st.max.Finite? && st.min.Finite?
    ensures st.min.value <= st.mean.value <= st.max.value
  {
    var v := FiniteOnly(s);
    if |s| == 0 || |v| == 0 then Zeros()
    else
      var r := Reals(v);
      NpSumFinite(v);
      NpMaxFinite(v);
      NpMinFinite(v);
      MeanWithin(r, Min(r), Max(r));
      Stats(NpMean(v), NpSum(v), NpMaxOf(v), NpMinOf(v))
  }

  /**
   * The statistics ignore NaN and infinities: they are exact, the minimum
   * and maximum bound every finite entry and enclose the mean, and the total
   * is the sum of the finite entries.
   */
  lemma FiniteStatsExact(s: seq<Float>)
    ensures var st := FiniteStats(s);
      st.mean.Finite? && st.total.Finite? && st.max.Finite? && st.min.Finite?
      && st.min.value <= st.mean.value <= st.max.value
      && (FiniteOnly(s) == [] ==> st == Zeros())
      && (FiniteOnly(s) != [] ==> st.total.value == Sum(Reals(FiniteOnly(s))))
      && (forall t :: 0 <= t < |s| && s[t].Finite? ==> st.min.value <= s[t].value <= st.max.value)
  {
    var v := FiniteOnly(s);
    if |s| != 0 && |v| != 0 {
      var r := Reals(v);
      NpSumFinite(v);
      NpMaxFinite(v);
      NpMinFinite(v);
      MeanWithin(r, Min(r), Max(r));
      assert NpMean(v) == Finite(Mean(r));
      forall t | 0 <= t < |s| && s[t].Finite?
        ensures Min(r) <= s[t].value <= Max(r)
      {
        FiniteEntryBounded(s, t);
      }
    }
  }

  /** A finite entry lies between the least and greatest finite entries. */
  lemma FiniteEntryBounded(s: seq<Float>, t: nat)
    requires t < |s| && s[t].Finite?
    ensures FiniteOnly(s) != []
    ensures var r := Reals(FiniteOnly(s)); Min(r) <= s[t].value <= Max(r)
  {
    var v := FiniteOnly(s);
    assert s[t] in v;
    var k :| 0 <= k < |v| && v[k] == s[t];
    assert Reals(v)[k] == s[t].value;
  }

  /**
   * `_calculate_summary_stats` of the older processor: numpy's mean, sum,
   * max and min of the whole series, a ValueError from `np.max` when it is
   * empty; NaN and infinities propagate.
   */
  function NumpyStats(s: seq<Float>): (r: Result<Stats>)
    ensures r.Err? <==> s == []
    ensures r.Err? ==> r.error.ValueError?
  {
    match NpMax(s)
    case Err(e) => Err(e)
    case Ok(m) => Ok(Stats(NpMean(s), NpSum(s), m, NpMinOf(s)))
  }

  /**
   * On a non-empty finite series numpy's statistics are exact, so
   * `min <= mean <= max`; a single NaN entry makes the mean and total NaN.
   */
  lemma NumpyStatsMeaning(s: seq<Float>)
    requires s != []
    ensures AllFinite(s) ==>
      var st := NumpyStats(s).value; var r := Reals(s);
      st == Stats(Finite(Mean(r)), Finite(Sum(r)), Finite(Max(r)), Finite(Min(r)))
      && Min(r) <= Mean(r) <= Max(r)
    ensures (exists t :: 0 <= t < |s| && s[t].NaN?) ==>
      NumpyStats(s).value.mean.NaN? && NumpyStats(s).value.total.NaN?
  {
    if AllFinite(s) {
      var r := Reals(s);
      NpSumFinite(s);
      NpMaxFinite(s);
      NpMinFinite(s);
      MeanWithin(r, Min(r), Max(r));
    }
    if t :| 0 <= t < |s| && s[t].NaN? {
      NpSumNaN(s, t);
    }
  }

  // ---------------------------------------------------------------------
  // Filling the dictionaries channel by channel

  /** What computing one channel gave: its series and statistics, or what it raised. */
  type ChannelOutcome = Result<(seq<Float>, Stats)>

  /**
   * Selecting a non-empty list of known names, when every computation
   * succeeds with a finite series of length `len` and its finite-value
   * statistics, fills both dictionaries with exactly the selected names,
   * each holding such a series and its statistics.
   */
  lemma FillPayload(names: seq<string>, targets: seq<string>, f: nat -> ChannelOutcome, len: nat)
    requires targets != [] && forall t :: t in targets ==> t in names
    requires forall i :: 0 <= i < |names| ==>
      f(i).Ok? && |f(i).value.0| == len && AllFinite(f(i).value.0) && f(i).value.1 == FiniteStats(f(i).value.0)
    ensures var r := Fill(names, targets, f, |names|);
      r.Ok? && r.value.0.keys != []
      && (forall ch :: ch in r.value.0.values <==> ch in targets)
      && (forall ch :: ch in r.value.0.values ==>
            |r.value.0.values[ch]| == len && AllFinite(r.value.0.values[ch])
            && ch in r.value.1.values && r.value.1.values[ch] == FiniteStats(r.value.0.values[ch]))
  {
    FillMeaning(names, targets, f, |names|);
    FillValid(names, targets, f, |names|);
    assert names[..|names|] == names;
    var r := Fill(names, targets, f, |names|);
    assert Selected(names, targets, targets[0], |names|);
    assert targets[0] in r.value.0.values;
    forall ch | ch in targets ensures ch in r.value.0.values {
      assert Selected(names, targets, ch, |names|);
    }
    forall ch | ch in r.value.0.values
      ensures |r.value.0.values[ch]| == len && AllFinite(r.value.0.values[ch])
        && ch in r.value.1.values && r.value.1.values[ch] == FiniteStats(r.value.0.values[ch])
    {
      var i := LastIndex(names, ch, |names|);
    }
  }

  /**
   * The payload the loop's dictionaries give: a ValueError when nothing was
   * filled, else the channels asked for, both dictionaries and the shape
   * [number of channels asked for, length of the first series].
   */
  function Payload(names: seq<string>, targets: seq<string>, f: nat -> ChannelOutcome): (r: Result<ContributionData>)
    ensures r.Ok? ==> r.value.data.Valid() && r.value.summary.Valid()
  {
    var filled := Fill(names, targets, f, |names|);
    FillValid(names, targets, f, |names|);
    if filled.Err? || filled.value.0.keys == [] then Err(ValueError("No contribution data could be extracted"))
    else
      var data := filled.value.0;
      Ok(ContributionData(targets, data, filled.value.1, (|targets|, |FirstValue(data)|)))
  }

  /**
   * Under the conditions of `FillPayload`, the payload holds the channels
   * asked for and the loop's two dictionaries, and its shape is the number
   * of channels asked for by `len`.
   */
  lemma PayloadMeaning(names: seq<string>, targets: seq<string>, f: nat -> ChannelOutcome, len: nat)
    requires targets != [] && forall t :: t in targets ==> t in names
    requires forall i :: 0 <= i < |names| ==>
      f(i).Ok? && |f(i).value.0| == len && AllFinite(f(i).value.0) && f(i).value.1 == FiniteStats(f(i).value.0)
    ensures var filled := Fill(names, targets, f, |names|);
      filled.Ok?
      && Payload(names, targets, f) == Ok(ContributionData(targets, filled.value.0, filled.value.1, (|targets|, len)))
  {
    FillPayload(names, targets, f, len);
    FillValid(names, targets, f, |names|);
    var d := Fill(names, targets, f, |names|).value.0;
    assert d.keys[0] in d.values;
  }

  /**
   * Asking for one of distinct names, when computing never raises, gives a
   * payload holding that name alone, with the series computed at its position.
   */
  lemma PayloadSingle(names: seq<string>, name: string, f: nat -> ChannelOutcome)
    requires Distinct(names) && name in names
    requires forall i :: 0 <= i < |names| ==> f(i).Ok?
    ensures var r := Payload(names, [name], f);
      r.Ok? && r.value.channels == [name] && r.value.data.keys == [name]
      && name in r.value.data.values && r.value.data.values[name] == f(IndexOf(names, name)).value.0
  {
    FillSingle(names, name, f);
    FillValid(names, [name], f, |names|);
  }

  /** When every selected channel's series has length `len`, so does every series in `data`. */
  lemma FillLengths(names: seq<string>, targets: seq<string>, f: nat -> ChannelOutcome, n: nat, len: nat)
    requires n <= |names|
    requires forall i :: 0 <= i < n && names[i] in targets && f(i).Ok? ==> |f(i).value.0| == len
    ensures var r := Fill(names, targets, f, n);
      r.Ok? ==> forall ch :: ch in r.value.0.values ==> |r.value.0.values[ch]| == len
  {
    FillMeaning(names, targets, f, n);
  }

  // ---------------------------------------------------------------------
  // Contribution shares

  /** `sum(s["total"] for s in summary.values())`, starting from 0. */
  function TotalOf(stats: seq<Stats>): (t: Float)
    ensures (forall k :: 0 <= k < |stats| ==> stats[k].total.Finite?) ==> t.Finite?
  {
    if stats == [] then Finite(0.0) else Add(TotalOf(stats[..|stats| - 1]), stats[|stats| - 1].total)
  }

  /** The exact totals of a list of statistics whose totals are all finite. */
  function Totals(stats: seq<Stats>): (ts: seq<real>)
    requires forall k :: 0 <= k < |stats| ==> stats[k].total.Finite?
    ensures |ts| == |stats| && forall k :: 0 <= k < |stats| ==> ts[k] == stats[k].total.value
  {
    seq(|stats|, k requires 0 <= k < |stats| => stats[k].total.value)
  }

  /** With finite totals, Python's sum is their exact sum. */
  lemma {:induction false} TotalOfFinite(stats: seq<Stats>)
    requires forall k :: 0 <= k < |stats| ==> stats[k].total.Finite?
    ensures TotalOf(stats) == Finite(Sum(Totals(stats)))
  {
    if stats != [] {
      var p := stats[..|stats| - 1];
      TotalOfFinite(p);
      assert Totals(stats)[..|stats| - 1] == Totals(p);
    }
  }

  lemma {:induction false} SumScaled(ts: seq<real>, d: real)
    requires d != 0.0
    ensures Sum(seq(|ts|, k requires 0 <= k < |ts| => ts[k] / d)) == Sum(ts) / d
  {
    if ts != [] {
      var p := ts[..|ts| - 1];
      SumScaled(p, d);
      var q := seq(|ts|, k requires 0 <= k < |ts| => ts[k] / d);
      var qp := seq(|p|, k requires 0 <= k < |p| => p[k] / d);
      assert q[..|ts| - 1] == qp;
      assert Sum(q) == Sum(qp) + ts[|ts| - 1] / d;
      assert Sum(ts) == Sum(p) + ts[|ts| - 1];
      DivAdd(Sum(p), ts[|ts| - 1], d);
    }
  }

  /** Each channel's total over the sum of all totals: the shares add up to 1. */
  lemma SharesSumToOne(ts: seq<real>)
    requires Sum(ts) != 0.0
    ensures Sum(seq(|ts|, k requires 0 <= k < |ts| => ts[k] / Sum(ts))) == 1.0
  {
    var d := Sum(ts);
    SumScaled(ts, d);
    DivSelf(d);
  }
}
