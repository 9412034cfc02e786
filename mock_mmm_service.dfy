/**
 * The MMM service test double: it counts the calls of each public method,
 * can pretend the model is not loaded, keeps a list of channels without
 * repeats, and serves random contribution and summary figures (given here
 * as draws) and a fixed saturating response curve per channel.
 */
module MockMMM {
  import opened Py
  import opened Floats
  import opened Schemas

  const DefaultChannels: seq<string> := ["Google_Search", "Google_Display", "Facebook", "Instagram", "YouTube"]

  /** The mock curve's saturation point. */
  const MockSaturation: int := 50000

  /**
   * `spend / (1 + spend / 50000) * 1000`: never more than 1000 per unit of
   * spend, and always below 1000 times the saturation point.
   */
  function MockResponse(spend: nat): (r: real)
    ensures 0.0 <= r <= spend as real * 1000.0
    ensures r < MockSaturation as real * 1000.0
  {
    var x := spend as real;
    var c := MockSaturation as real;
    var d := 1.0 + x / c;
    assert x / d <= x by { DivMonotone(x, d, x, 1.0); }
    assert x / d < c by {
      assert x == c * (d - 1.0);
      assert x / d == c - c / d;
    }
    (x / d) * 1000.0
  }

  /** The mock response grows with spend from zero. */
  lemma MockResponseMonotone(s1: nat, s2: nat)
    requires s1 <= s2
    ensures 0.0 <= MockResponse(s1) <= MockResponse(s2)
  {
    var c := MockSaturation as real;
    var x1 := s1 as real;
    var x2 := s2 as real;
    var a := 1.0 + x1 / c;
    var b := 1.0 + x2 / c;
    assert x1 * b == x1 + x1 * x2 / c;
    assert x2 * a == x2 + x1 * x2 / c;
    DivMonotone(x1, a, x2, b);
  }

  /** `p / a <= q / b` follows from cross-multiplying with positive denominators. */
  lemma DivMonotone(p: real, a: real, q: real, b: real)
    requires a > 0.0 && b > 0.0 && 0.0 <= p && p * b <= q * a
    ensures 0.0 <= p / a <= q / b
  {
    assert p / a == (p * b) / (a * b);
    assert q / b == (q * a) / (a * b);
  }

  /** One channel's mock curve. */
  datatype MockCurve = MockCurve(spend: seq<nat>, response: seq<real>, saturationPoint: int, efficiency: real)

  /**
   * `_generate_mock_response_curves` for one channel: spend `0, 5000, …,
   * 95000`, the mock response at each, saturation at 50000 and the
   * efficiency of the last point.
   */
  method GenerateMockCurve() returns (c: MockCurve)
    ensures |c.spend| == 20 && |c.response| == 20
    ensures forall k :: 0 <= k < 20 ==> c.spend[k] == 5000 * k && c.response[k] == MockResponse(c.spend[k])
    ensures c.saturationPoint == MockSaturation
    ensures c.efficiency == c.response[19] / 95000.0
    ensures c.response[0] == 0.0
    ensures forall i, j :: 0 <= i <= j < 20 ==> c.response[i] <= c.response[j]
  {
    var spendPoints: seq<nat> := Range(100000, 5000);
    var responsePoints: seq<real> := [];
    var i := 0;
    while i < |spendPoints|
      invariant 0 <= i <= |spendPoints| && |responsePoints| == i
      invariant forall k :: 0 <= k < i ==> responsePoints[k] == MockResponse(spendPoints[k])
    {
      responsePoints := responsePoints + [MockResponse(spendPoints[i])];
      i := i + 1;
    }
    var last := spendPoints[|spendPoints| - 1];
    var efficiency := if last > 0 then responsePoints[|responsePoints| - 1] / last as real else 0.0;
    c := MockCurve(spendPoints, responsePoints, MockSaturation, efficiency);
    forall i, j | 0 <= i <= j < 20 ensures c.response[i] <= c.response[j] {
      MockResponseMonotone(5000 * i, 5000 * j);
    }
  }

  /** `list.remove(x)`: drops the first occurrence. */
  function RemoveFirst(xs: seq<string>, x: string): (r: seq<string>)
    requires x in xs
    ensures |r| == |xs| - 1
    ensures r == xs[..IndexOf(xs, x)] + xs[IndexOf(xs, x) + 1..]
  {
    var i := IndexOf(xs, x);
    xs[..i] + xs[i + 1..]
  }

  /** Removing from a list without repeats leaves every other element and no repeats. */
  lemma RemoveFirstDistinct(xs: seq<string>, x: string)
    requires Distinct(xs) && x in xs
    ensures Distinct(RemoveFirst(xs, x))
    ensures forall y :: y in RemoveFirst(xs, x) <==> y in xs && y != x
  {
    var i := IndexOf(xs, x);
    var r := RemoveFirst(xs, x);
    assert forall k :: 0 <= k < |r| ==> r[k] == (if k < i then xs[k] else xs[k + 1]);
    forall y | y in xs && y != x ensures y in r {
      var k :| 0 <= k < |xs| && xs[k] == y;
      assert k != i;
      if k < i { assert r[k] == y; } else { assert r[k - 1] == y; }
    }
  }

  /** The sum of every channel's series, in channel order. */
  function TotalOf(channels: seq<string>, data: map<string, seq<real>>): real
    requires forall c :: c in channels ==> c in data
  {
    if channels == [] then 0.0
    else TotalOf(channels[..|channels| - 1], data) + Sum(data[channels[|channels| - 1]])
  }

  /** The number of weekly periods every mock series covers. */
  const MockWeeks: nat := 52

  /** The random figures the mock data is built from. */
  datatype Draws = Draws(series: string -> seq<real>, summary: string -> ChannelSummary)

  /** Every drawn series is one figure per mock week. */
  ghost predicate Weekly(draws: Draws)
  {
    forall c :: |draws.series(c)| == MockWeeks
  }

  datatype StatusInfo = StatusInfo(lastModified: string, fileSizeMb: real)

  datatype ModelStatus = ModelStatus(status: string, message: string, fileExists: bool, modelInfo: Option<StatusInfo>)

  /** A single channel's contribution answer. */
  datatype ChannelContribution = ChannelContribution(channel: string, data: seq<real>, totalContribution: real, timePeriods: nat)

  /** The answer of the contribution getter: one channel or the whole payload. */
  datatype ContributionAnswer =
    | OneChannel(one: ChannelContribution)
    | AllChannels(data: map<string, seq<real>>, timePeriods: nat, channels: seq<string>, totalContribution: real)

  datatype CurveAnswer =
    | OneCurve(channel: string, curve: MockCurve)
    | AllCurves(curves: map<string, MockCurve>, channels: seq<string>)

  const NotLoaded: Error := MMMModelError("Model not loaded")

  function NotFound(channel: string): Error
  {
    MMMModelError("Channel '" + channel + "' not found in model")
  }

  class MockMMMService {
    var simulateModelLoaded: bool
    var channels: seq<string>
    var callCount: map<string, nat>
    var contributionData: map<string, seq<real>>
    var curve: MockCurve
    var channelSummary: map<string, ChannelSummary>

    /** The channel list has no repeats and the mock data covers it. */
    ghost predicate Valid()
      reads this
    {
      Distinct(channels)
      && (forall c :: c in channels <==> c in contributionData)
      && (forall c :: c in channels <==> c in channelSummary)
      && (forall c :: c in contributionData ==> |contributionData[c]| == MockWeeks)
      && |curve.spend| == 20 && |curve.response| == 20
    }

    /** The data the generators build for the current channels. */
    ghost predicate Generated(draws: Draws)
      reads this
    {
      contributionData == (map c | c in channels :: draws.series(c))
      && channelSummary == (map c | c in channels :: draws.summary(c).(name := c))
    }

    constructor (simulateModelLoaded: bool, draws: Draws)
      requires Weekly(draws)
      ensures Valid() && Generated(draws)
      ensures this.simulateModelLoaded == simulateModelLoaded
      ensures channels == DefaultChannels && callCount == map[]
    {
      this.simulateModelLoaded := simulateModelLoaded;
      channels := DefaultChannels;
      callCount := map[];
      contributionData := map c | c in DefaultChannels :: draws.series(c);
      channelSummary := map c | c in DefaultChannels :: draws.summary(c).(name := c);
      new;
      curve := GenerateMockCurve();
    }

    /** `get_call_count`: a method not called since the last clear reads 0. */
    function GetCallCount(name: string): (c: nat)
      reads this
      ensures name !in callCount ==> c == 0
      ensures name in callCount ==> c == callCount[name]
    {
      if name in callCount then callCount[name] else 0
    }

    /** `_track_call`: one more call of `name`, no other count changes. */
    method TrackCall(name: string)
      modifies this
      ensures callCount == old(callCount)[name := old(GetCallCount(name)) + 1]
      ensures GetCallCount(name) == old(GetCallCount(name)) + 1
      ensures forall other :: other != name ==> GetCallCount(other) == old(GetCallCount(other))
      ensures simulateModelLoaded == old(simulateModelLoaded) && channels == old(channels)
      ensures contributionData == old(contributionData) && curve == old(curve)
      ensures channelSummary == old(channelSummary)
    {
      callCount := callCount[name := GetCallCount(name) + 1];
    }

    /** `get_model_status`: reports the loaded flag. */
    method GetModelStatus() returns (s: ModelStatus)
      modifies this
      ensures callCount == old(callCount)["get_model_status" := old(GetCallCount("get_model_status")) + 1]
      ensures simulateModelLoaded == old(simulateModelLoaded) && channels == old(channels)
      ensures contributionData == old(contributionData) && curve == old(curve)
      ensures channelSummary == old(channelSummary)
      ensures s.fileExists == simulateModelLoaded && (s.status == "loaded" <==> simulateModelLoaded)
      ensures s.status == (if simulateModelLoaded then "loaded" else "not_found")
      ensures s.modelInfo.Some? <==> simulateModelLoaded
    {
      TrackCall("get_model_status");
      s := if simulateModelLoaded
        then ModelStatus("loaded", "Model loaded successfully", true, Some(StatusInfo("2024-01-01T00:00:00Z", 25.6)))
        else ModelStatus("not_found", "Model file not found", false, None);
    }

    /** `get_model_info`: the fixed description, or the not-loaded error. */
    method GetModelInfo() returns (r: Result<ModelInfo>)
      requires Valid()
      modifies this
      ensures Valid() && callCount == old(callCount)["get_model_info" := old(GetCallCount("get_model_info")) + 1]
      ensures simulateModelLoaded == old(simulateModelLoaded) && channels == old(channels)
      ensures contributionData == old(contributionData) && curve == old(curve)
      ensures channelSummary == old(channelSummary)
      ensures !simulateModelLoaded ==> r == Err(NotLoaded)
      ensures simulateModelLoaded ==>
        r == Ok(ModelInfo("Google Meridian (Mock)", "1.0.0-mock", "2023-01-01 to 2023-12-31", channels,
                          "weekly", MockWeeks, "mock_data"))
    {
      TrackCall("get_model_info");
      if !simulateModelLoaded {
        return Err(NotLoaded);
      }
      r := Ok(ModelInfo("Google Meridian (Mock)", "1.0.0-mock", "2023-01-01 to 2023-12-31", channels,
                        "weekly", MockWeeks, "mock_data"));
    }

    /** `get_channel_names`: a copy of the channel list, which has no repeats. */
    method GetChannelNames() returns (r: Result<seq<string>>)
      requires Valid()
      modifies this
      ensures Valid() && callCount == old(callCount)["get_channel_names" := old(GetCallCount("get_channel_names")) + 1]
      ensures simulateModelLoaded == old(simulateModelLoaded) && channels == old(channels)
      ensures contributionData == old(contributionData) && curve == old(curve)
      ensures channelSummary == old(channelSummary)
      ensures !simulateModelLoaded ==> r == Err(NotLoaded)
      ensures simulateModelLoaded ==> r == Ok(channels) && Distinct(r.value)
    {
      TrackCall("get_channel_names");
      if !simulateModelLoaded {
        return Err(NotLoaded);
      }
      r := Ok(channels);
    }

    /**
     * `get_contribution_data`: a named channel's series with its sum and
     * length, or the whole payload; an unknown named channel is an error.
     */
    method GetContributionData(channel: Option<string>) returns (r: Result<ContributionAnswer>)
      requires Valid()
      modifies this
      ensures Valid()
      ensures callCount == old(callCount)["get_contribution_data" := old(GetCallCount("get_contribution_data")) + 1]
      ensures simulateModelLoaded == old(simulateModelLoaded) && channels == old(channels)
      ensures contributionData == old(contributionData) && curve == old(curve)
      ensures channelSummary == old(channelSummary)
      ensures !simulateModelLoaded ==> r == Err(NotLoaded)
      ensures simulateModelLoaded && channel.Some? && channel.value != "" && channel.value !in channels ==>
        r == Err(NotFound(channel.value))
      ensures simulateModelLoaded && channel.Some? && channel.value != "" && channel.value in channels ==>
        var series := contributionData[channel.value];
        r == Ok(OneChannel(ChannelContribution(channel.value, series, Sum(series), |series|)))
        && |series| == MockWeeks
      ensures simulateModelLoaded && (channel.None? || channel.value == "") ==>
        r == Ok(AllChannels(contributionData, MockWeeks, channels, TotalOf(channels, contributionData)))
    {
      TrackCall("get_contribution_data");
      if !simulateModelLoaded {
        return Err(NotLoaded);
      }
      if channel.Some? && channel.value != "" && channel.value !in channels {
        return Err(NotFound(channel.value));
      }
      if channel.Some? && channel.value != "" {
        var series := contributionData[channel.value];
        return Ok(OneChannel(ChannelContribution(channel.value, series, Sum(series), |series|)));
      }
      r := Ok(AllChannels(contributionData, MockWeeks, channels, TotalOf(channels, contributionData)));
    }

    /** `get_response_curves`: a named channel's curve or every channel's; an unknown named channel is an error. */
    method GetResponseCurves(channel: Option<string>) returns (r: Result<CurveAnswer>)
      requires Valid()
      modifies this
      ensures Valid()
      ensures callCount == old(callCount)["get_response_curves" := old(GetCallCount("get_response_curves")) + 1]
      ensures simulateModelLoaded == old(simulateModelLoaded) && channels == old(channels)
      ensures contributionData == old(contributionData) && curve == old(curve)
      ensures channelSummary == old(channelSummary)
      ensures !simulateModelLoaded ==> r == Err(NotLoaded)
      ensures simulateModelLoaded && channel.Some? && channel.value != "" && channel.value !in channels ==>
        r == Err(NotFound(channel.value))
      ensures simulateModelLoaded && channel.Some? && channel.value != "" && channel.value in channels ==>
        r == Ok(OneCurve(channel.value, curve))
      ensures simulateModelLoaded && (channel.None? || channel.value == "") ==>
        r.Ok? && r.value.AllCurves? && r.value.channels == channels
        && (forall c :: c in r.value.curves <==> c in channels)
        && (forall c :: c in r.value.curves ==> r.value.curves[c] == curve)
    {
      TrackCall("get_response_curves");
      if !simulateModelLoaded {
        return Err(NotLoaded);
      }
      if channel.Some? && channel.value != "" && channel.value !in channels {
        return Err(NotFound(channel.value));
      }
      if channel.Some? && channel.value != "" {
        return Ok(OneCurve(channel.value, curve));
      }
      r := Ok(AllCurves(map c | c in channels :: curve, channels));
    }

    /** `get_channel_summary`: the summary of every channel. */
    method GetChannelSummary() returns (r: Result<map<string, ChannelSummary>>)
      requires Valid()
      modifies this
      ensures Valid()
      ensures callCount == old(callCount)["get_channel_summary" := old(GetCallCount("get_channel_summary")) + 1]
      ensures simulateModelLoaded == old(simulateModelLoaded) && channels == old(channels)
      ensures contributionData == old(contributionData) && curve == old(curve)
      ensures channelSummary == old(channelSummary)
      ensures !simulateModelLoaded ==> r == Err(NotLoaded)
      ensures simulateModelLoaded ==> r == Ok(channelSummary) && forall c :: c in r.value <==> c in channels
    {
      TrackCall("get_channel_summary");
      if !simulateModelLoaded {
        return Err(NotLoaded);
      }
      r := Ok(channelSummary);
    }

    /** `set_model_loaded`. */
    method SetModelLoaded(loaded: bool)
      modifies this
      ensures simulateModelLoaded == loaded && channels == old(channels) && callCount == old(callCount)
      ensures contributionData == old(contributionData) && curve == old(curve)
      ensures channelSummary == old(channelSummary)
    {
      simulateModelLoaded := loaded;
    }

    /** Rebuilds the mock data for the current channels from fresh draws. */
    method Regenerate(draws: Draws)
      requires Weekly(draws)
      modifies this
      requires Distinct(channels)
      ensures Valid() && Generated(draws)
      ensures simulateModelLoaded == old(simulateModelLoaded) && channels == old(channels)
      ensures callCount == old(callCount)
    {
      contributionData := map c | c in channels :: draws.series(c);
      channelSummary := map c | c in channels :: draws.summary(c).(name := c);
      curve := GenerateMockCurve();
    }

    /** `add_channel`: appends a new name and rebuilds the data; a known name changes nothing. */
    method AddChannel(name: string, draws: Draws)
      requires Valid() && Weekly(draws)
      modifies this
      ensures Valid() && simulateModelLoaded == old(simulateModelLoaded) && callCount == old(callCount)
      ensures name in old(channels) ==>
        channels == old(channels) && contributionData == old(contributionData)
        && channelSummary == old(channelSummary) && curve == old(curve)
      ensures name !in old(channels) ==> channels == old(channels) + [name] && Generated(draws)
    {
      if name !in channels {
        channels := channels + [name];
        Regenerate(draws);
      }
    }

    /** `remove_channel`: drops a known name and rebuilds the data; an unknown name changes nothing. */
    method RemoveChannel(name: string, draws: Draws)
      requires Valid() && Weekly(draws)
      modifies this
      ensures Valid() && simulateModelLoaded == old(simulateModelLoaded) && callCount == old(callCount)
      ensures name !in old(channels) ==>
        channels == old(channels) && contributionData == old(contributionData)
        && channelSummary == old(channelSummary) && curve == old(curve)
      ensures name in old(channels) ==>
        channels == RemoveFirst(old(channels), name) && name !in channels && Generated(draws)
        && forall c :: c in channels <==> c in old(channels) && c != name
    {
      if name in channels {
        RemoveFirstDistinct(channels, name);
        channels := RemoveFirst(channels, name);
        Regenerate(draws);
      }
    }

    /** `clear_call_count`. */
    method ClearCallCount()
      modifies this
      ensures callCount == map[] && simulateModelLoaded == old(simulateModelLoaded) && channels == old(channels)
      ensures contributionData == old(contributionData) && curve == old(curve)
      ensures channelSummary == old(channelSummary)
      ensures forall name :: GetCallCount(name) == 0
    {
      callCount := map[];
    }
  }
}
