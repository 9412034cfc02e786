/**
 * The rule-based insights and recommendations of the export endpoint: the
 * channels of the channel summary are ranked by efficiency; the best one is
 * praised and recommended for more budget, the worst one is flagged when its
 * efficiency is below 1, a budget shift is suggested when at least two
 * channels beat 1.2 times the mean efficiency, and every other channel above
 * the mean gets a "maintain" or "increase" recommendation.
 */
module Insights {
  import opened Py
  import opened Floats
  import opened Schemas

  /** One `(name, summary)` item of the channel summary. */
  datatype ChannelRow = ChannelRow(name: string, efficiency: real, totalContribution: real, contributionShare: real)

  /** The two fields read from a channel's response curve. */
  datatype CurveInfo = CurveInfo(saturationPoint: real, adstockRate: real)

  datatype Insight =
    | TopPerformer(channel: string, efficiency: real, saturationPoint: real)
    | NeedsOptimization(channel: string, efficiency: real, saturationPoint: real)
    | BudgetShift(channels: seq<string>)
  {
    /** The insight's `type` field. */
    function Kind(): string
    {
      match this
      case TopPerformer(_, _, _) => "success"
      case NeedsOptimization(_, _, _) => "warning"
      case BudgetShift(_) => "info"
    }
  }

  datatype Recommendation = Recommendation(channel: string, action: string, impact: string,
                                           currentEfficiency: real, saturationPoint: real)

  // ---------------------------------------------------------------------
  // Ranking: `sorted(channels, key=efficiency, reverse=True)`, a stable sort

  /** Non-increasing efficiency. */
  predicate SortedDesc(s: seq<ChannelRow>)
  {
    forall i, j :: 0 <= i < j < |s| ==> s[i].efficiency >= s[j].efficiency
  }

  /**
   * Places `x`, which came before every element of `s` in the input, ahead
   * of the first element it is not less efficient than.
   */
  function Insert(x: ChannelRow, s: seq<ChannelRow>): (r: seq<ChannelRow>)
    ensures |r| == |s| + 1 && multiset(r) == multiset(s) + multiset{x}
  {
    if s == [] || x.efficiency >= s[0].efficiency then [x] + s
    else
      assert s == [s[0]] + s[1..];
      [s[0]] + Insert(x, s[1..])
  }

  function SortByEfficiency(xs: seq<ChannelRow>): (r: seq<ChannelRow>)
    ensures |r| == |xs| && multiset(r) == multiset(xs)
  {
    if xs == [] then []
    else
      assert xs == [xs[0]] + xs[1..];
      Insert(xs[0], SortByEfficiency(xs[1..]))
  }

  lemma {:induction false} InsertSorted(x: ChannelRow, s: seq<ChannelRow>)
    requires SortedDesc(s)
    ensures SortedDesc(Insert(x, s))
  {
    if s != [] && x.efficiency < s[0].efficiency {
      InsertSorted(x, s[1..]);
      var r := Insert(x, s[1..]);
      forall k | 0 <= k < |r| ensures s[0].efficiency >= r[k].efficiency {
        assert r[k] in multiset(r);
        assert r[k] == x || r[k] in multiset(s[1..]);
        if r[k] != x {
          var m :| 0 <= m < |s[1..]| && s[1..][m] == r[k];
          assert s[m + 1] == r[k];
        }
      }
    }
  }

  /** The ranking is in non-increasing efficiency and holds the same rows. */
  lemma {:induction false} SortSorted(xs: seq<ChannelRow>)
    ensures SortedDesc(SortByEfficiency(xs))
  {
    if xs != [] {
      SortSorted(xs[1..]);
      InsertSorted(xs[0], SortByEfficiency(xs[1..]));
    }
  }

  /** The first row of greatest efficiency. */
  function TopIndex(xs: seq<ChannelRow>): (i: nat)
    requires xs != []
    ensures i < |xs|
    ensures forall k :: 0 <= k < |xs| ==> xs[k].efficiency <= xs[i].efficiency
    ensures forall k :: 0 <= k < i ==> xs[k].efficiency < xs[i].efficiency
  {
    if |xs| == 1 then 0
    else
      var t := 1 + TopIndex(xs[1..]);
      assert forall k :: 1 <= k < |xs| ==> xs[k] == xs[1..][k - 1];
      if xs[0].efficiency >= xs[t].efficiency then 0 else t
  }

  /** The last row of least efficiency. */
  function BottomIndex(xs: seq<ChannelRow>): (i: nat)
    requires xs != []
    ensures i < |xs|
    ensures forall k :: 0 <= k < |xs| ==> xs[i].efficiency <= xs[k].efficiency
    ensures forall k :: i < k < |xs| ==> xs[i].efficiency < xs[k].efficiency
  {
    if |xs| == 1 then 0
    else
      var b := 1 + BottomIndex(xs[1..]);
      assert forall k :: 1 <= k < |xs| ==> xs[k] == xs[1..][k - 1];
      if xs[0].efficiency < xs[b].efficiency then 0 else b
  }

  /** The last row after inserting: `x` when it is below the current last row. */
  lemma {:induction false} InsertLast(x: ChannelRow, s: seq<ChannelRow>)
    requires s != [] && SortedDesc(s)
    ensures var r := Insert(x, s);
      r[|r| - 1] == (if x.efficiency < s[|s| - 1].efficiency then x else s[|s| - 1])
  {
    if x.efficiency < s[0].efficiency {
      assert Insert(x, s) == [s[0]] + Insert(x, s[1..]);
      if |s| == 1 {
        assert Insert(x, s) == [s[0], x];
      } else {
        assert s[1..][|s| - 2] == s[|s| - 1];
        InsertLast(x, s[1..]);
      }
    }
  }

  /** The stable ranking starts with the first most efficient row. */
  lemma {:induction false} SortHead(xs: seq<ChannelRow>)
    requires xs != []
    ensures SortByEfficiency(xs)[0] == xs[TopIndex(xs)]
  {
    if |xs| > 1 {
      SortHead(xs[1..]);
    }
  }

  /** The stable ranking ends with the last least efficient row. */
  lemma {:induction false} SortLast(xs: seq<ChannelRow>)
    requires xs != []
    ensures var s := SortByEfficiency(xs);
      s[|s| - 1] == xs[BottomIndex(xs)]
  {
    if |xs| > 1 {
      var rest := xs[1..];
      var s := SortByEfficiency(rest);
      SortLast(rest);
      SortSorted(rest);
      InsertLast(xs[0], s);
      var b := 1 + BottomIndex(rest);
      assert xs[b] == rest[b - 1] == s[|s| - 1];
      assert SortByEfficiency(xs) == Insert(xs[0], s);
      if xs[0].efficiency < xs[b].efficiency {
        assert BottomIndex(xs) == 0;
      } else {
        assert BottomIndex(xs) == b;
      }
    }
  }

  // ---------------------------------------------------------------------
  // Statistics

  function Names(rows: seq<ChannelRow>): (r: seq<string>)
    ensures |r| == |rows| && forall k :: 0 <= k < |r| ==> r[k] == rows[k].name
  {
    seq(|rows|, k requires 0 <= k < |rows| => rows[k].name)
  }

  function Efficiencies(rows: seq<ChannelRow>): (r: seq<real>)
    ensures |r| == |rows| && forall k :: 0 <= k < |r| ==> r[k] == rows[k].efficiency
  {
    seq(|rows|, k requires 0 <= k < |rows| => rows[k].efficiency)
  }

  function Contributions(rows: seq<ChannelRow>): (r: seq<real>)
    ensures |r| == |rows| && forall k :: 0 <= k < |r| ==> r[k] == rows[k].totalContribution
  {
    seq(|rows|, k requires 0 <= k < |rows| => rows[k].totalContribution)
  }

  /** `sum(efficiency) / len(channels)`: division by zero for no channels. */
  function AverageEfficiency(rows: seq<ChannelRow>): (r: Result<real>)
    ensures r.Err? <==> rows == []
    ensures r.Err? ==> r.error == ZeroDivisionError
    ensures r.Ok? ==> r.value == Mean(Efficiencies(rows))
  {
    if rows == [] then Err(ZeroDivisionError) else Ok(Sum(Efficiencies(rows)) / |rows| as real)
  }

  /** `[ch for ch, data in channels if data.efficiency > avg * 1.2]`, in input order. */
  function HighPerformers(rows: seq<ChannelRow>, avg: real): (r: seq<string>)
    ensures |r| <= |rows|
    ensures forall n :: n in r <==> exists k :: 0 <= k < |rows| && rows[k].name == n && rows[k].efficiency > avg * 1.2
  {
    if rows == [] then []
    else
      var p := rows[..|rows| - 1];
      var last := rows[|rows| - 1];
      var rest := HighPerformers(p, avg);
      assert forall k :: 0 <= k < |p| ==> p[k] == rows[k];
      if last.efficiency > avg * 1.2 then rest + [last.name] else rest
  }

  /** `response_curves['curves'][channel]`: a KeyError for a channel without a curve. */
  function CurveOf(curves: map<string, CurveInfo>, channel: string): (r: Result<CurveInfo>)
    ensures r.Ok? <==> channel in curves
    ensures r.Ok? ==> r.value == curves[channel]
    ensures r.Err? ==> r.error == KeyError(channel)
  {
    if channel in curves then Ok(curves[channel]) else Err(KeyError(channel))
  }

  // ---------------------------------------------------------------------
  // Recommendations for the remaining channels

  function RecommendedChannels(recs: seq<Recommendation>): (r: seq<string>)
    ensures |r| == |recs| && forall k :: 0 <= k < |r| ==> r[k] == recs[k].channel
  {
    seq(|recs|, k requires 0 <= k < |recs| => recs[k].channel)
  }

  /** "maintain" below 1.3 times the mean, "increase" from there on. */
  function FollowupAction(efficiency: real, avg: real): string
  {
    if efficiency < avg * 1.3 then "maintain" else "increase"
  }

  /**
   * The loop over the first `n` channels: a channel not yet recommended
   * whose efficiency beats the mean is recommended with its curve's
   * saturation point; a missing curve ends the loop with a KeyError.
   */
  function Followups(rows: seq<ChannelRow>, avg: real, curves: map<string, CurveInfo>,
                     seed: seq<Recommendation>, n: nat): (r: Result<seq<Recommendation>>)
    requires n <= |rows|
    ensures r.Ok? ==> seed <= r.value && |r.value| <= |seed| + n
    ensures r.Err? ==> r.error.KeyError? && r.error.key !in curves
  {
    if n == 0 then Ok(seed)
    else
      var prev :- Followups(rows, avg, curves, seed, n - 1);
      var row := rows[n - 1];
      if row.name in RecommendedChannels(prev) || !(row.efficiency > avg) then Ok(prev)
      else
        var curve :- CurveOf(curves, row.name);
        Ok(prev + [Recommendation(row.name, FollowupAction(row.efficiency, avg), "medium",
                                  row.efficiency, curve.saturationPoint)])
  }

  /** The loop that appends the follow-up recommendations. */
  method AddFollowups(rows: seq<ChannelRow>, avg: real, curves: map<string, CurveInfo>,
                      seed: seq<Recommendation>) returns (r: Result<seq<Recommendation>>)
    ensures r == Followups(rows, avg, curves, seed, |rows|)
  {
    var recs := seed;
    var i := 0;
    while i < |rows|
      invariant 0 <= i <= |rows|
      invariant Followups(rows, avg, curves, seed, i) == Ok(recs)
    {
      var row := rows[i];
      if row.name !in RecommendedChannels(recs) && row.efficiency > avg {
        var curve := CurveOf(curves, row.name);
        if curve.Err? {
          FollowupsErrorPersists(rows, avg, curves, seed, i + 1, |rows|);
          return Err(curve.error);
        }
        recs := recs + [Recommendation(row.name, FollowupAction(row.efficiency, avg), "medium",
                                       row.efficiency, curve.value.saturationPoint)];
      }
      i := i + 1;
    }
    r := Ok(recs);
  }

  /** Once a curve is missing, the loop's outcome is that KeyError. */
  lemma {:induction false} FollowupsErrorPersists(rows: seq<ChannelRow>, avg: real, curves: map<string, CurveInfo>,
                                                  seed: seq<Recommendation>, i: nat, n: nat)
    requires i <= n <= |rows| && Followups(rows, avg, curves, seed, i).Err?
    ensures Followups(rows, avg, curves, seed, n) == Followups(rows, avg, curves, seed, i)
  {
    if i < n {
      FollowupsErrorPersists(rows, avg, curves, seed, i, n - 1);
    }
  }

  /** `r` is `seed` followed by recommendations for channels among `visited`. */
  predicate Appended(seed: seq<Recommendation>, r: seq<Recommendation>, visited: seq<string>)
  {
    |seed| <= |r| && r[..|seed|] == seed
    && forall j :: |seed| <= j < |r| ==> r[j].channel in visited
  }

  /**
   * The loop only appends to the seed, and only channels among those it has
   * visited.
   */
  lemma {:induction false} FollowupsExtend(rows: seq<ChannelRow>, avg: real, curves: map<string, CurveInfo>,
                                           seed: seq<Recommendation>, n: nat)
    requires n <= |rows|
    ensures var r := Followups(rows, avg, curves, seed, n);
      r.Ok? ==> Appended(seed, r.value, Names(rows)[..n])
  {
    if n > 0 {
      FollowupsExtend(rows, avg, curves, seed, n - 1);
      var prev := Followups(rows, avg, curves, seed, n - 1);
      var r := Followups(rows, avg, curves, seed, n);
      if prev.Ok? && r.Ok? {
        forall j | |seed| <= j < |prev.value| ensures prev.value[j].channel in Names(rows)[..n] {
          var c := prev.value[j].channel;
          assert c in Names(rows)[..n - 1];
          var i :| 0 <= i < n - 1 && Names(rows)[..n - 1][i] == c;
          assert Names(rows)[..n][i] == c;
        }
        if r.value != prev.value {
          assert Names(rows)[..n][n - 1] == rows[n - 1].name;
        }
      }
    }
  }

  /** The follow-ups after the seed are those the loop's rule selects among the first `n` channels. */
  predicate Selected(rows: seq<ChannelRow>, avg: real, seed: seq<Recommendation>, r: seq<Recommendation>, n: nat)
    requires n <= |rows| && |seed| <= |r|
  {
    forall k :: 0 <= k < n ==>
      (rows[k].name in RecommendedChannels(r[|seed|..]) <==>
         rows[k].name !in RecommendedChannels(seed) && rows[k].efficiency > avg)
  }

  /**
   * With distinct channel names, the loop recommends, in input order, each
   * channel not named by the seed whose efficiency beats the mean, and no
   * channel twice.
   */
  lemma {:induction false} FollowupsMeaning(rows: seq<ChannelRow>, avg: real, curves: map<string, CurveInfo>,
                                            seed: seq<Recommendation>, n: nat)
    requires n <= |rows| && Distinct(Names(rows))
    ensures var r := Followups(rows, avg, curves, seed, n);
      r.Ok? ==> |seed| <= |r.value| && Selected(rows, avg, seed, r.value, n)
  {
    FollowupsExtend(rows, avg, curves, seed, n);
    if n > 0 {
      FollowupsMeaning(rows, avg, curves, seed, n - 1);
      FollowupsExtend(rows, avg, curves, seed, n - 1);
      var prev := Followups(rows, avg, curves, seed, n - 1);
      var r := Followups(rows, avg, curves, seed, n);
      if prev.Ok? && r.Ok? {
        FollowupsSelectStep(rows, avg, curves, seed, n);
      }
    }
  }

  /** One pass of the loop, on the loop's own lists, keeps the selection exact. */
  lemma FollowupsSelectStep(rows: seq<ChannelRow>, avg: real, curves: map<string, CurveInfo>,
                            seed: seq<Recommendation>, n: nat)
    requires 0 < n <= |rows| && Distinct(Names(rows))
    requires Followups(rows, avg, curves, seed, n - 1).Ok? && Followups(rows, avg, curves, seed, n).Ok?
    requires Appended(seed, Followups(rows, avg, curves, seed, n - 1).value, Names(rows)[..n - 1])
    requires Selected(rows, avg, seed, Followups(rows, avg, curves, seed, n - 1).value, n - 1)
    ensures var q := Followups(rows, avg, curves, seed, n).value;
      |seed| <= |q| && Selected(rows, avg, seed, q, n)
  {
    FollowupsStep(rows, avg, curves, seed, n);
    MeaningStep(rows, avg, seed, Followups(rows, avg, curves, seed, n - 1).value,
                Followups(rows, avg, curves, seed, n).value, n);
  }

  /** One pass of the loop either keeps the list or appends the visited channel, when new and above the mean. */
  lemma FollowupsStep(rows: seq<ChannelRow>, avg: real, curves: map<string, CurveInfo>,
                      seed: seq<Recommendation>, n: nat)
    requires 0 < n <= |rows|
    requires Followups(rows, avg, curves, seed, n - 1).Ok? && Followups(rows, avg, curves, seed, n).Ok?
    ensures var p := Followups(rows, avg, curves, seed, n - 1).value;
      var q := Followups(rows, avg, curves, seed, n).value;
      (q == p && (rows[n - 1].name in RecommendedChannels(p) || !(rows[n - 1].efficiency > avg)))
      || (|q| == |p| + 1 && q[..|p|] == p && q[|p|].channel == rows[n - 1].name
          && rows[n - 1].name !in RecommendedChannels(p) && rows[n - 1].efficiency > avg)
  {
    var p := Followups(rows, avg, curves, seed, n - 1).value;
    var q := Followups(rows, avg, curves, seed, n).value;
    if q != p {
      assert q[..|p|] == p;
    }
  }

  /** One pass of the loop keeps the selection exact. */
  lemma MeaningStep(rows: seq<ChannelRow>, avg: real, seed: seq<Recommendation>,
                    p: seq<Recommendation>, q: seq<Recommendation>, n: nat)
    requires 0 < n <= |rows| && Distinct(Names(rows))
    requires Appended(seed, p, Names(rows)[..n - 1])
    requires Selected(rows, avg, seed, p, n - 1)
    requires
      (q == p && (rows[n - 1].name in RecommendedChannels(p) || !(rows[n - 1].efficiency > avg)))
      || (|q| == |p| + 1 && q[..|p|] == p && q[|p|].channel == rows[n - 1].name
          && rows[n - 1].name !in RecommendedChannels(p) && rows[n - 1].efficiency > avg)
    ensures |seed| <= |q| && Selected(rows, avg, seed, q, n)
  {
    var row := rows[n - 1];
    NameFresh(rows, n);
    FollowupsFresh(p, seed, Names(rows)[..n - 1], row.name);
    if q != p {
      assert q == p + [q[|p|]];
      FollowupsAppend(p, seed, q[|p|]);
    }
  }

  /** With distinct names, the `n`-th channel's name is not among the earlier ones. */
  lemma NameFresh(rows: seq<ChannelRow>, n: nat)
    requires 0 < n <= |rows| && Distinct(Names(rows))
    ensures rows[n - 1].name !in Names(rows)[..n - 1]
    ensures forall k :: 0 <= k < n - 1 ==> rows[k].name != rows[n - 1].name
  {
    DistinctLastFresh(Names(rows), n);
    forall k | 0 <= k < n - 1 ensures rows[k].name != rows[n - 1].name {
      assert Names(rows)[k] == Names(rows)[..n - 1][k];
    }
  }

  /** A channel the loop has not visited is recommended only if the seed names it. */
  lemma FollowupsFresh(p: seq<Recommendation>, seed: seq<Recommendation>, visited: seq<string>, name: string)
    requires |seed| <= |p| && p[..|seed|] == seed
    requires forall j :: |seed| <= j < |p| ==> p[j].channel in visited
    requires name !in visited
    ensures name !in RecommendedChannels(p[|seed|..])
    ensures name in RecommendedChannels(p) <==> name in RecommendedChannels(seed)
  {
    assert p == seed + p[|seed|..];
    assert RecommendedChannels(p) == RecommendedChannels(seed) + RecommendedChannels(p[|seed|..]);
  }

  /** Appending one recommendation appends its channel after the seed's. */
  lemma FollowupsAppend(p: seq<Recommendation>, seed: seq<Recommendation>, added: Recommendation)
    requires |seed| <= |p|
    ensures (p + [added])[|seed|..] == p[|seed|..] + [added]
    ensures RecommendedChannels((p + [added])[|seed|..]) == RecommendedChannels(p[|seed|..]) + [added.channel]
  {
    assert (p + [added])[|seed|..] == p[|seed|..] + [added];
  }

  /** Appending only channels not yet named keeps the recommended channels distinct. */
  lemma {:induction false} FollowupsDistinct(rows: seq<ChannelRow>, avg: real, curves: map<string, CurveInfo>,
                                             seed: seq<Recommendation>, n: nat)
    requires n <= |rows| && Distinct(RecommendedChannels(seed))
    ensures var r := Followups(rows, avg, curves, seed, n);
      r.Ok? ==> Distinct(RecommendedChannels(r.value))
  {
    if n > 0 {
      FollowupsDistinct(rows, avg, curves, seed, n - 1);
      var prev := Followups(rows, avg, curves, seed, n - 1);
      var r := Followups(rows, avg, curves, seed, n);
      if prev.Ok? && r.Ok? && r.value != prev.value {
        var added := r.value[|r.value| - 1];
        assert RecommendedChannels(r.value) == RecommendedChannels(prev.value) + [added.channel];
      }
    }
  }

  /**
   * Every follow-up beats the mean, has impact "medium", the action its
   * efficiency calls for and its channel's saturation point.
   */
  lemma {:induction false} FollowupsShape(rows: seq<ChannelRow>, avg: real, curves: map<string, CurveInfo>,
                                          seed: seq<Recommendation>, n: nat)
    requires n <= |rows|
    ensures var r := Followups(rows, avg, curves, seed, n);
      r.Ok? ==>
        |seed| <= |r.value|
        && forall j :: |seed| <= j < |r.value| ==>
             r.value[j].currentEfficiency > avg && r.value[j].impact == "medium"
             && r.value[j].action == FollowupAction(r.value[j].currentEfficiency, avg)
             && r.value[j].channel in curves
             && r.value[j].saturationPoint == curves[r.value[j].channel].saturationPoint
  {
    if n > 0 {
      FollowupsShape(rows, avg, curves, seed, n - 1);
    }
  }

  /** The loop fails only on a visited channel without a curve, and never when all have one. */
  lemma {:induction false} FollowupsErrorKey(rows: seq<ChannelRow>, avg: real, curves: map<string, CurveInfo>,
                                             seed: seq<Recommendation>, n: nat)
    requires n <= |rows|
    ensures var r := Followups(rows, avg, curves, seed, n);
      (r.Err? ==> r.error.KeyError? && r.error.key !in curves
                  && exists k :: 0 <= k < n && rows[k].name == r.error.key)
      && ((forall k :: 0 <= k < n ==> rows[k].name in curves) ==> r.Ok?)
  {
    if n > 0 {
      FollowupsErrorKey(rows, avg, curves, seed, n - 1);
    }
  }

  // ---------------------------------------------------------------------
  // Insights and recommendations

  /** What the rules produce, with the mean efficiency and the high performers. */
  datatype Advice = Advice(insights: seq<Insight>, recommendations: seq<Recommendation>,
                           average: real, highPerformers: seq<string>)

  /**
   * The first insights and recommendations: the top row, then the bottom
   * row when its efficiency is below 1; each reads its channel's curve.
   */
  function OpenWith(top: ChannelRow, under: ChannelRow, curves: map<string, CurveInfo>)
    : (r: Result<(seq<Insight>, seq<Recommendation>)>)
    ensures r.Ok? <==> top.name in curves && (under.efficiency < 1.0 ==> under.name in curves)
    ensures r.Err? ==> r.error.KeyError? && r.error.key !in curves
    ensures r.Ok? ==>
      |r.value.0| == |r.value.1| == (if under.efficiency < 1.0 then 2 else 1)
      && r.value.1[0].channel == top.name && r.value.1[0].action == "increase"
  {
    var topCurve :- CurveOf(curves, top.name);
    var insights := [TopPerformer(top.name, top.efficiency, topCurve.saturationPoint)];
    var recs := [Recommendation(top.name, "increase", "high", top.efficiency, topCurve.saturationPoint)];
    if under.efficiency < 1.0 then
      var underCurve :- CurveOf(curves, under.name);
      Ok((insights + [NeedsOptimization(under.name, under.efficiency, underCurve.saturationPoint)],
          recs + [Recommendation(under.name, "optimize", "medium", under.efficiency, underCurve.saturationPoint)]))
    else Ok((insights, recs))
  }

  /** The opening steps on the head and the last row of the ranking. */
  function Opening(rows: seq<ChannelRow>, curves: map<string, CurveInfo>): Result<(seq<Insight>, seq<Recommendation>)>
    requires rows != []
  {
    var ranked := SortByEfficiency(rows);
    OpenWith(ranked[0], ranked[|ranked| - 1], curves)
  }

  /**
   * The rules as a whole: no channels is a division by zero (the mean), a
   * channel without a curve where one is read is a KeyError.
   */
  function AdviceOf(rows: seq<ChannelRow>, curves: map<string, CurveInfo>): (r: Result<Advice>)
    ensures r.Ok? ==>
      rows != [] && r.value.insights != [] && r.value.recommendations != []
      && r.value.recommendations[0].channel == SortByEfficiency(rows)[0].name
  {
    if rows == [] then Err(ZeroDivisionError)
    else
      var opening :- Opening(rows, curves);
      var avg := Sum(Efficiencies(rows)) / |rows| as real;
      var high := HighPerformers(rows, avg);
      var insights := if |high| >= 2 then opening.0 + [BudgetShift(high[..2])] else opening.0;
      var recs :- Followups(rows, avg, curves, opening.1, |rows|);
      Ok(Advice(insights, recs, avg, high))
  }

  /** The top and bottom steps of the rules, appending as they go. */
  method OpenAdvice(rows: seq<ChannelRow>, curves: map<string, CurveInfo>)
    returns (r: Result<(seq<Insight>, seq<Recommendation>)>)
    requires rows != []
    ensures r == Opening(rows, curves)
  {
    var ranked := SortByEfficiency(rows);
    var top := ranked[0];
    var topCurve := CurveOf(curves, top.name);
    if topCurve.Err? {
      return Err(topCurve.error);
    }
    var insights := [TopPerformer(top.name, top.efficiency, topCurve.value.saturationPoint)];
    var recs := [Recommendation(top.name, "increase", "high", top.efficiency, topCurve.value.saturationPoint)];
    var under := ranked[|ranked| - 1];
    if under.efficiency < 1.0 {
      var underCurve := CurveOf(curves, under.name);
      if underCurve.Err? {
        return Err(underCurve.error);
      }
      insights := insights + [NeedsOptimization(under.name, under.efficiency, underCurve.value.saturationPoint)];
      recs := recs + [Recommendation(under.name, "optimize", "medium", under.efficiency,
                                     underCurve.value.saturationPoint)];
    }
    r := Ok((insights, recs));
  }

  /**
   * The endpoint's rules. With no channels the top and bottom steps are
   * skipped and the mean divides by zero.
   */
  method BuildAdvice(rows: seq<ChannelRow>, curves: map<string, CurveInfo>) returns (r: Result<Advice>)
    ensures r == AdviceOf(rows, curves)
  {
    if |rows| == 0 {
      return Err(ZeroDivisionError);
    }
    var opening := OpenAdvice(rows, curves);
    if opening.Err? {
      return Err(opening.error);
    }
    var insights := opening.value.0;
    var avg := Sum(Efficiencies(rows)) / |rows| as real;
    var high := HighPerformers(rows, avg);
    if |high| >= 2 {
      insights := insights + [BudgetShift(high[..2])];
    }
    var followed := AddFollowups(rows, avg, curves, opening.value.1);
    if followed.Err? {
      return Err(followed.error);
    }
    r := Ok(Advice(insights, followed.value, avg, high));
  }

  /** With two rows or more, the first most and the last least efficient rows differ. */
  lemma TopBottomDiffer(xs: seq<ChannelRow>)
    requires |xs| >= 2
    ensures TopIndex(xs) != BottomIndex(xs)
  {
    var i := TopIndex(xs);
    var j := BottomIndex(xs);
    if i > 0 {
      assert xs[0].efficiency < xs[i].efficiency;
      assert xs[j].efficiency <= xs[0].efficiency;
    } else {
      assert xs[1].efficiency <= xs[0].efficiency;
    }
  }

  /**
   * The ranking's head is the first most efficient row and its last row
   * the last least efficient one.
   */
  lemma OpeningRows(rows: seq<ChannelRow>, curves: map<string, CurveInfo>)
    requires rows != []
    ensures Opening(rows, curves) == OpenWith(rows[TopIndex(rows)], rows[BottomIndex(rows)], curves)
  {
    SortHead(rows);
    SortLast(rows);
    RankedEnds(SortByEfficiency(rows), rows[TopIndex(rows)], rows[BottomIndex(rows)], curves);
  }

  lemma RankedEnds(ranked: seq<ChannelRow>, t: ChannelRow, b: ChannelRow, curves: map<string, CurveInfo>)
    requires ranked != [] && ranked[0] == t && ranked[|ranked| - 1] == b
    ensures OpenWith(ranked[0], ranked[|ranked| - 1], curves) == OpenWith(t, b, curves)
  {
  }

  /**
   * No channels is a division by zero; otherwise the only failure is a
   * channel without a curve, and there is none when every channel has one.
   */
  lemma AdviceErrors(rows: seq<ChannelRow>, curves: map<string, CurveInfo>)
    ensures rows == [] ==> AdviceOf(rows, curves) == Err(ZeroDivisionError)
    ensures rows != [] && AdviceOf(rows, curves).Err? ==>
      var e := AdviceOf(rows, curves).error;
      e.KeyError? && e.key !in curves && exists k :: 0 <= k < |rows| && rows[k].name == e.key
    ensures rows != [] && (forall k :: 0 <= k < |rows| ==> rows[k].name in curves) ==> AdviceOf(rows, curves).Ok?
  {
    if rows != [] {
      OpeningRows(rows, curves);
      OpenedErrors(rows[TopIndex(rows)], rows[BottomIndex(rows)], curves);
      AdviceSteps(rows, curves);
      if Opening(rows, curves).Ok? {
        var avg := Sum(Efficiencies(rows)) / |rows| as real;
        FollowupsErrorKey(rows, avg, curves, Opening(rows, curves).value.1, |rows|);
      }
    }
  }

  /** With channels, the rules fail exactly when the opening steps or the follow-up loop fail. */
  lemma AdviceSteps(rows: seq<ChannelRow>, curves: map<string, CurveInfo>)
    requires rows != []
    ensures Opening(rows, curves).Err? ==> AdviceOf(rows, curves) == Err(Opening(rows, curves).error)
    ensures Opening(rows, curves).Ok? ==>
      var f := Followups(rows, Sum(Efficiencies(rows)) / |rows| as real, curves, Opening(rows, curves).value.1, |rows|);
      AdviceOf(rows, curves).Ok? == f.Ok? && (f.Err? ==> AdviceOf(rows, curves) == Err(f.error))
  {
  }

  /**
   * The insights: the top performer, the bottom one when its efficiency is
   * below 1, and the budget shift between the first two high performers
   * when there are two; so one to three of them.
   */
  lemma AdviceInsights(rows: seq<ChannelRow>, curves: map<string, CurveInfo>)
    ensures AdviceOf(rows, curves).Ok? ==>
      var a := AdviceOf(rows, curves).value;
      rows != [] && a.average == Mean(Efficiencies(rows))
      && a.highPerformers == HighPerformers(rows, a.average)
      && var t := rows[TopIndex(rows)];
      var b := rows[BottomIndex(rows)];
      t.name in curves && (b.efficiency < 1.0 ==> b.name in curves)
      && a.insights ==
           [TopPerformer(t.name, t.efficiency, curves[t.name].saturationPoint)]
           + (if b.efficiency < 1.0 then [NeedsOptimization(b.name, b.efficiency, curves[b.name].saturationPoint)]
              else [])
           + (if |a.highPerformers| >= 2 then [BudgetShift(a.highPerformers[..2])] else [])
      && 1 <= |a.insights| <= 3
  {
    if rows != [] && AdviceOf(rows, curves).Ok? {
      OpeningRows(rows, curves);
      OpenedShape(rows[TopIndex(rows)], rows[BottomIndex(rows)], curves);
    }
  }

  /** A successful outcome's recommendations are the follow-up loop's, seeded by the opening steps. */
  lemma AdviceFollows(rows: seq<ChannelRow>, curves: map<string, CurveInfo>)
    ensures AdviceOf(rows, curves).Ok? ==>
      var a := AdviceOf(rows, curves).value;
      rows != [] && Opening(rows, curves).Ok?
      && a.average == Sum(Efficiencies(rows)) / |rows| as real
      && Followups(rows, a.average, curves, Opening(rows, curves).value.1, |rows|) == Ok(a.recommendations)
  {
  }

  /**
   * The recommendations open with "increase" for the top row, then
   * "optimize" for the bottom row when its efficiency is below 1.
   */
  lemma AdviceLeadingRecommendations(rows: seq<ChannelRow>, curves: map<string, CurveInfo>)
    ensures AdviceOf(rows, curves).Ok? ==>
      var recs := AdviceOf(rows, curves).value.recommendations;
      rows != []
      && var t := rows[TopIndex(rows)];
      var b := rows[BottomIndex(rows)];
      var s := if b.efficiency < 1.0 then 2 else 1;
      t.name in curves && (b.efficiency < 1.0 ==> b.name in curves)
      && s <= |recs|
      && recs[..s] ==
           [Recommendation(t.name, "increase", "high", t.efficiency, curves[t.name].saturationPoint)]
           + (if b.efficiency < 1.0
              then [Recommendation(b.name, "optimize", "medium", b.efficiency, curves[b.name].saturationPoint)]
              else [])
  {
    AdviceFollows(rows, curves);
    if AdviceOf(rows, curves).Ok? {
      OpeningRows(rows, curves);
      var t := rows[TopIndex(rows)];
      var b := rows[BottomIndex(rows)];
      var seed := Opening(rows, curves).value.1;
      OpenedShape(t, b, curves);
      var avg := AdviceOf(rows, curves).value.average;
      var recs := AdviceOf(rows, curves).value.recommendations;
      FollowupsExtend(rows, avg, curves, seed, |rows|);
      assert recs[..|seed|] == seed;
      assert |seed| == if b.efficiency < 1.0 then 2 else 1;
    }
  }

  /** The opening steps' output when they succeed. */
  lemma OpenedShape(t: ChannelRow, b: ChannelRow, curves: map<string, CurveInfo>)
    ensures OpenWith(t, b, curves).Ok? ==>
      t.name in curves && (b.efficiency < 1.0 ==> b.name in curves)
      && OpenWith(t, b, curves).value.0 ==
           [TopPerformer(t.name, t.efficiency, curves[t.name].saturationPoint)]
           + (if b.efficiency < 1.0 then [NeedsOptimization(b.name, b.efficiency, curves[b.name].saturationPoint)]
              else [])
      && OpenWith(t, b, curves).value.1 ==
           [Recommendation(t.name, "increase", "high", t.efficiency, curves[t.name].saturationPoint)]
           + (if b.efficiency < 1.0
              then [Recommendation(b.name, "optimize", "medium", b.efficiency, curves[b.name].saturationPoint)]
              else [])
  {
  }

  /** The opening steps fail only on a missing curve of the top or the flagged bottom row. */
  lemma OpenedErrors(t: ChannelRow, b: ChannelRow, curves: map<string, CurveInfo>)
    ensures OpenWith(t, b, curves).Err? <==> t.name !in curves || (b.efficiency < 1.0 && b.name !in curves)
    ensures OpenWith(t, b, curves).Err? ==>
      OpenWith(t, b, curves).error == KeyError(if t.name !in curves then t.name else b.name)
  {
  }

  /**
   * After the opening ones, with distinct channel names, each channel not
   * already named whose efficiency beats the mean is recommended, with
   * impact "medium" and the action its efficiency calls for, and no other.
   */
  lemma AdviceFollowupRecommendations(rows: seq<ChannelRow>, curves: map<string, CurveInfo>)
    requires Distinct(Names(rows))
    ensures AdviceOf(rows, curves).Ok? ==>
      var a := AdviceOf(rows, curves).value;
      var recs := a.recommendations;
      rows != []
      && var s := if rows[BottomIndex(rows)].efficiency < 1.0 then 2 else 1;
      s <= |recs|
      && (forall k :: 0 <= k < |rows| ==>
            (rows[k].name in RecommendedChannels(recs[s..]) <==>
               rows[k].name !in RecommendedChannels(recs[..s]) && rows[k].efficiency > a.average))
      && forall j :: s <= j < |recs| ==>
           recs[j].currentEfficiency > a.average && recs[j].impact == "medium"
           && recs[j].action == FollowupAction(recs[j].currentEfficiency, a.average)
           && recs[j].channel in curves
           && recs[j].saturationPoint == curves[recs[j].channel].saturationPoint
  {
    AdviceFollows(rows, curves);
    if AdviceOf(rows, curves).Ok? {
      OpeningRows(rows, curves);
      var seed := Opening(rows, curves).value.1;
      var avg := AdviceOf(rows, curves).value.average;
      FollowupsExtend(rows, avg, curves, seed, |rows|);
      FollowupsMeaning(rows, avg, curves, seed, |rows|);
      FollowupsShape(rows, avg, curves, seed, |rows|);
    }
  }

  /** With two channels or more and distinct names, no channel is recommended twice. */
  lemma AdviceNoDuplicates(rows: seq<ChannelRow>, curves: map<string, CurveInfo>)
    requires |rows| >= 2 && Distinct(Names(rows))
    ensures AdviceOf(rows, curves).Ok? ==> Distinct(RecommendedChannels(AdviceOf(rows, curves).value.recommendations))
  {
    AdviceFollows(rows, curves);
    if AdviceOf(rows, curves).Ok? {
      OpeningRows(rows, curves);
      TopBottomDiffer(rows);
      var t := TopIndex(rows);
      var b := BottomIndex(rows);
      assert Names(rows)[t] == rows[t].name && Names(rows)[b] == rows[b].name;
      OpenedDistinct(rows[t], rows[b], curves);
      var avg := AdviceOf(rows, curves).value.average;
      FollowupsDistinct(rows, avg, curves, Opening(rows, curves).value.1, |rows|);
    }
  }

  /** The opening recommendations name distinct channels when the top and bottom rows do. */
  lemma OpenedDistinct(t: ChannelRow, b: ChannelRow, curves: map<string, CurveInfo>)
    requires t.name != b.name
    ensures OpenWith(t, b, curves).Ok? ==> Distinct(RecommendedChannels(OpenWith(t, b, curves).value.1))
  {
    OpenedShape(t, b, curves);
  }

  /**
   * A single channel below efficiency 1 is both the top and the bottom row,
   * so it is recommended twice: to increase and to optimize.
   */
  lemma AdviceSingleChannel(x: ChannelRow, curves: map<string, CurveInfo>)
    requires x.efficiency < 1.0 && x.name in curves
    ensures AdviceOf([x], curves).Ok?
    ensures var recs := AdviceOf([x], curves).value.recommendations;
      |recs| >= 2 && recs[0].channel == x.name && recs[0].action == "increase"
      && recs[1].channel == x.name && recs[1].action == "optimize"
      && !Distinct(RecommendedChannels(recs))
  {
    AdviceErrors([x], curves);
    OpeningRows([x], curves);
    var avg := Sum(Efficiencies([x])) / 1 as real;
    var seed := Opening([x], curves).value.1;
    FollowupsExtend([x], avg, curves, seed, 1);
  }

  // ---------------------------------------------------------------------
  // The export payload

  datatype ExportMetadata = ExportMetadata(generatedAt: string, modelType: string, trainingPeriod: string,
                                           dataSource: string, totalWeeks: int, channelsAnalyzed: nat)

  datatype ChannelPerformance = ChannelPerformance(efficiency: real, totalContribution: real, contributionShare: real,
                                                   saturationPoint: real, adstockRate: real)

  datatype SummaryStatistics = SummaryStatistics(totalChannels: nat, averageEfficiency: real,
                                                 bestPerformer: Option<string>, bestEfficiency: Option<real>,
                                                 totalContribution: real, highPerformers: seq<string>)

  datatype InsightsData = InsightsData(metadata: ExportMetadata, modelInfo: ModelInfo,
                                       performance: map<string, ChannelPerformance>,
                                       insights: seq<Insight>, recommendations: seq<Recommendation>,
                                       summary: SummaryStatistics)

  /**
   * The per-channel performance table, one entry per channel with its
   * curve's saturation point and adstock rate; the first channel without a
   * curve is a KeyError.
   */
  function Performance(rows: seq<ChannelRow>, curves: map<string, CurveInfo>)
    : (r: Result<map<string, ChannelPerformance>>)
    ensures r.Ok? <==> forall k :: 0 <= k < |rows| ==> rows[k].name in curves
    ensures r.Ok? ==> r.value.Keys == (set k | 0 <= k < |rows| :: rows[k].name)
    ensures r.Err? ==> r.error.KeyError? && r.error.key !in curves
  {
    if rows == [] then Ok(map[])
    else
      var row := rows[|rows| - 1];
      var prev :- Performance(rows[..|rows| - 1], curves);
      var curve :- CurveOf(curves, row.name);
      Ok(prev[row.name := ChannelPerformance(row.efficiency, row.totalContribution, row.contributionShare,
                                             curve.saturationPoint, curve.adstockRate)])
  }

  /** Every failure inside the endpoint becomes an HTTP 500 naming it. */
  function Failed(e: Error): Error
  {
    HttpException(500, "Failed to generate insights data: " + ErrorText(e))
  }

  /**
   * The payload from the channel summary, the model information, the
   * response curves and the current time, or the first failure.
   */
  function Gather(summary: Result<seq<ChannelRow>>, info: Result<ModelInfo>,
                  curves: Result<map<string, CurveInfo>>, now: string): (r: Result<InsightsData>)
    ensures summary.Err? ==> r == Err(summary.error)
    ensures r.Ok? ==>
      summary.Ok? && info.Ok? && curves.Ok? && summary.value != [] && r.value.recommendations != []
      && r.value.recommendations[0].channel == SortByEfficiency(summary.value)[0].name
      && r.value.summary.totalChannels == |summary.value| && r.value.metadata.channelsAnalyzed == |info.value.channels|
  {
    var rows :- summary;
    var model :- info;
    var table :- curves;
    var advice :- AdviceOf(rows, table);
    var performance :- Performance(rows, table);
    var ranked := SortByEfficiency(rows);
    var best := if ranked != [] then Some(ranked[0]) else None;
    Ok(InsightsData(
         ExportMetadata(now, model.modelType, model.trainingPeriod, model.dataSource, model.totalWeeks,
                        |model.channels|),
         model, performance, advice.insights, advice.recommendations,
         SummaryStatistics(|rows|, advice.average,
                           if best.Some? then Some(best.value.name) else None,
                           if best.Some? then Some(best.value.efficiency) else None,
                           Sum(Contributions(rows)), advice.highPerformers)))
  }

  function InsightsOf(summary: Result<seq<ChannelRow>>, info: Result<ModelInfo>,
                      curves: Result<map<string, CurveInfo>>, now: string): (r: Result<InsightsData>)
    ensures r.Err? ==> r.error.HttpException? && r.error.status == 500
    ensures r.Err? ==> "Failed to generate insights data: " <= r.error.detail
  {
    match Gather(summary, info, curves, now)
    case Ok(data) => Ok(data)
    case Err(e) => Err(Failed(e))
  }

  /**
   * `generate_insights_data`: reads the summary, the model information and
   * the curves, applies the rules and assembles the payload; any failure is
   * re-raised as an HTTP 500.
   */
  method GenerateInsightsData(summary: Result<seq<ChannelRow>>, info: Result<ModelInfo>,
                              curves: Result<map<string, CurveInfo>>, now: string) returns (r: Result<InsightsData>)
    ensures r == InsightsOf(summary, info, curves, now)
  {
    if summary.Err? {
      return Err(Failed(summary.error));
    }
    if info.Err? {
      return Err(Failed(info.error));
    }
    if curves.Err? {
      return Err(Failed(curves.error));
    }
    var rows := summary.value;
    var model := info.value;
    var table := curves.value;
    var totalContribution := Sum(Contributions(rows));
    var ranked := SortByEfficiency(rows);
    var advice := BuildAdvice(rows, table);
    if advice.Err? {
      return Err(Failed(advice.error));
    }
    var performance := Performance(rows, table);
    if performance.Err? {
      return Err(Failed(performance.error));
    }
    var best: Option<string> := None;
    var bestEfficiency: Option<real> := None;
    if ranked != [] {
      best := Some(ranked[0].name);
      bestEfficiency := Some(ranked[0].efficiency);
    }
    r := Ok(InsightsData(
           ExportMetadata(now, model.modelType, model.trainingPeriod, model.dataSource, model.totalWeeks,
                          |model.channels|),
           model, performance.value, advice.value.insights, advice.value.recommendations,
           SummaryStatistics(|rows|, advice.value.average, best, bestEfficiency, totalContribution,
                             advice.value.highPerformers)));
  }

  /**
   * The endpoint answers exactly when every input is available, there is at
   * least one channel and every channel has a curve; any failure is a 500.
   */
  lemma InsightsSucceed(summary: Result<seq<ChannelRow>>, info: Result<ModelInfo>,
                        curves: Result<map<string, CurveInfo>>, now: string)
    ensures var r := InsightsOf(summary, info, curves, now);
      (r.Ok? <==> summary.Ok? && info.Ok? && curves.Ok? && summary.value != []
                  && forall k :: 0 <= k < |summary.value| ==> summary.value[k].name in curves.value)
      && (r.Err? ==> r.error.HttpException? && r.error.status == 500)
  {
    if summary.Ok? && curves.Ok? {
      AdviceErrors(summary.value, curves.value);
    }
  }

  /** No channels: the mean divides by zero and the endpoint answers 500. */
  lemma InsightsNoChannels(info: ModelInfo, curves: map<string, CurveInfo>, now: string)
    ensures InsightsOf(Ok([]), Ok(info), Ok(curves), now)
            == Err(HttpException(500, "Failed to generate insights data: division by zero"))
  {
    AdviceErrors([], curves);
    assert Gather(Ok([]), Ok(info), Ok(curves), now) == Err(ZeroDivisionError);
    assert "Failed to generate insights data: " + "division by zero"
           == "Failed to generate insights data: division by zero";
  }

  /**
   * The summary statistics: the channel count, the mean efficiency, the
   * first most efficient channel, the total contribution and the high
   * performers; the metadata counts the model's channels.
   */
  lemma InsightsSummary(summary: Result<seq<ChannelRow>>, info: Result<ModelInfo>,
                        curves: Result<map<string, CurveInfo>>, now: string)
    ensures var r := InsightsOf(summary, info, curves, now);
      r.Ok? ==>
        var rows := summary.value;
        var stats := r.value.summary;
        summary.Ok? && info.Ok? && curves.Ok? && rows != []
        && stats.totalChannels == |rows|
        && stats.averageEfficiency == Mean(Efficiencies(rows))
        && stats.bestPerformer == Some(rows[TopIndex(rows)].name)
        && stats.bestEfficiency == Some(rows[TopIndex(rows)].efficiency)
        && stats.totalContribution == Sum(Contributions(rows))
        && stats.highPerformers == HighPerformers(rows, stats.averageEfficiency)
        && r.value.metadata.generatedAt == now
        && r.value.metadata.channelsAnalyzed == |info.value.channels|
        && r.value.performance.Keys == (set k | 0 <= k < |rows| :: rows[k].name)
        && r.value.insights == AdviceOf(rows, curves.value).value.insights
        && r.value.recommendations == AdviceOf(rows, curves.value).value.recommendations
  {
    if InsightsOf(summary, info, curves, now).Ok? {
      SortHead(summary.value);
      AdviceInsights(summary.value, curves.value);
    }
  }
}
