/**
 * The records the services hand back: the per-channel summary and model
 * metadata (validated on construction as the Pydantic schemas do), the
 * statistics of one contribution series, the contribution payload and one
 * response curve.
 */
module Schemas {
  import opened Py
  import opened Floats
  import opened Dicts

  /** `x >= 0` as a field constraint checks it: NaN fails, +inf passes. */
  predicate NonNegative(x: Float)
  {
    Ge(x, Finite(0.0))
  }

  /** `x <= 1`: NaN and +inf fail. */
  predicate AtMostOne(x: Float)
  {
    Ge(Finite(1.0), x)
  }

  datatype ChannelSummary = ChannelSummary(
    name: string,
    totalSpend: Float,
    totalContribution: Float,
    contributionShare: Float,
    efficiency: Float,
    avgWeeklySpend: Float,
    avgWeeklyContribution: Float)
  {
    /** The field constraints of the summary schema. */
    predicate Valid()
    {
      NonNegative(totalSpend) && NonNegative(totalContribution)
      && NonNegative(contributionShare) && AtMostOne(contributionShare)
      && NonNegative(efficiency) && NonNegative(avgWeeklySpend)
      && NonNegative(avgWeeklyContribution)
    }
  }

  /**
   * Building a channel summary: a ValidationError unless every amount is
   * non-negative and the share lies in [0, 1].
   */
  function NewChannelSummary(
    name: string, totalSpend: Float, totalContribution: Float, share: Float,
    efficiency: Float, avgWeeklySpend: Float, avgWeeklyContribution: Float): (r: Result<ChannelSummary>)
    ensures r.Ok? ==> r.value.Valid()
    ensures r.Ok? ==> r.value == ChannelSummary(name, totalSpend, totalContribution, share,
                                                efficiency, avgWeeklySpend, avgWeeklyContribution)
    ensures r.Err? ==> r.error == ValidationError("MMMChannelSummary")
    ensures r.Err? ==> !ChannelSummary(name, totalSpend, totalContribution, share, efficiency,
                                       avgWeeklySpend, avgWeeklyContribution).Valid()
  {
    var s := ChannelSummary(name, totalSpend, totalContribution, share, efficiency,
                            avgWeeklySpend, avgWeeklyContribution);
    if s.Valid() then Ok(s) else Err(ValidationError("MMMChannelSummary"))
  }

  datatype ModelInfo = ModelInfo(
    modelType: string,
    version: string,
    trainingPeriod: string,
    channels: seq<string>,
    dataFrequency: string,
    totalWeeks: int,
    dataSource: string)

  /** The mean, total, maximum and minimum of one channel's contributions. */
  datatype Stats = Stats(mean: Float, total: Float, max: Float, min: Float)

  /** The contribution payload: channels asked for, series and statistics per channel, shape. */
  datatype ContributionData = ContributionData(
    channels: seq<string>,
    data: Dict<seq<Float>>,
    summary: Dict<Stats>,
    shape: (nat, nat))

  /** One response curve as the curve builders return it. */
  datatype Curve = Curve(
    spend: seq<real>,
    response: seq<real>,
    saturationPoint: real,
    efficiency: Float,
    adstockRate: Float)
}
