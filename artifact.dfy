/**
 * What the services read from a loaded Meridian model object: the posterior
 * (per-channel means of each parameter), the geo x time x channel media spend
 * tensor, the optional time x channel total spend, and the attributes channel
 * names are taken from. An attribute the object lacks is `None`.
 */
module Artifact {
  import opened Py
  import opened Floats

  /** A geo x time x channel array. */
  datatype Tensor3 = Tensor3(geos: nat, times: nat, channels: nat, cells: seq<seq<seq<Float>>>)

  predicate Shaped3(t: Tensor3)
  {
    |t.cells| == t.geos
    && (forall g :: 0 <= g < t.geos ==> |t.cells[g]| == t.times)
    && (forall g, i :: 0 <= g < t.geos && 0 <= i < t.times ==> |t.cells[g][i]| == t.channels)
  }

  type SpendTensor = t: Tensor3 | Shaped3(t) witness Tensor3(0, 0, 0, [])

  /** A rows x columns array. */
  datatype Matrix = Matrix(rows: nat, cols: nat, cells: seq<seq<Float>>)

  predicate Shaped2(m: Matrix)
  {
    |m.cells| == m.rows && forall i :: 0 <= i < m.rows ==> |m.cells[i]| == m.cols
  }

  type Grid = m: Matrix | Shaped2(m) witness Matrix(0, 0, [])

  /** `m[:, c]` (also written `m[..., c]`). */
  function Column(m: Grid, c: nat): (col: seq<Float>)
    requires c < m.cols
    ensures |col| == m.rows && forall i :: 0 <= i < m.rows ==> col[i] == m.cells[i][c]
  {
    seq(m.rows, i requires 0 <= i < m.rows => m.cells[i][c])
  }

  /** The values of one time and channel across the geos. */
  function GeoSeries(t: SpendTensor, i: nat, c: nat): (s: seq<Float>)
    requires i < t.times && c < t.channels
    ensures |s| == t.geos && forall g :: 0 <= g < t.geos ==> s[g] == t.cells[g][i][c]
  {
    seq(t.geos, g requires 0 <= g < t.geos => t.cells[g][i][c])
  }

  /** `np.mean(media_spend, axis=0)`: a time x channel average over geos. */
  function GeoMean(t: SpendTensor): (m: Grid)
    ensures m.rows == t.times && m.cols == t.channels
    ensures forall i, c :: 0 <= i < t.times && 0 <= c < t.channels ==>
      m.cells[i][c] == NpMean(GeoSeries(t, i, c))
  {
    Matrix(t.times, t.channels,
      seq(t.times, i requires 0 <= i < t.times =>
        seq(t.channels, c requires 0 <= c < t.channels => NpMean(GeoSeries(t, i, c)))))
  }

  function Flatten(rows: seq<seq<Float>>): seq<Float>
  {
    if rows == [] then [] else rows[0] + Flatten(rows[1..])
  }

  lemma {:induction false} FlattenLength(rows: seq<seq<Float>>, n: nat)
    requires forall k :: 0 <= k < |rows| ==> |rows[k]| == n
    ensures |Flatten(rows)| == |rows| * n
  {
    if rows != [] {
      FlattenLength(rows[1..], n);
      assert |rows| * n == n + (|rows| - 1) * n;
    }
  }

  /** `media_spend[:, :, c]`, geo by geo. */
  function ChannelSlice(t: SpendTensor, c: nat): (s: seq<Float>)
    requires c < t.channels
    ensures |s| == t.geos * t.times
  {
    var rows := seq(t.geos, g requires 0 <= g < t.geos =>
      seq(t.times, i requires 0 <= i < t.times => t.cells[g][i][c]));
    FlattenLength(rows, t.times);
    Flatten(rows)
  }

  /**
   * `np.max(media_spend[:, :, c])`: an IndexError for a channel the tensor
   * does not have, a ValueError when there are no geos or no times.
   */
  function ChannelPeak(t: SpendTensor, c: nat): (r: Result<Float>)
    ensures r.Err? && r.error.IndexError? <==> c >= t.channels
    ensures r.Err? && r.error.ValueError? <==> c < t.channels && t.geos * t.times == 0
  {
    if c >= t.channels then
      Err(IndexError("index " + NatToString(c) + " is out of bounds for axis 2 with size " + NatToString(t.channels)))
    else NpMax(ChannelSlice(t, c))
  }

  // ---------------------------------------------------------------------
  // The model object

  /** Posterior means per channel, keyed by variable name (`roi_m`, `alpha_m`, ...). */
  datatype Posterior = Posterior(dataVars: map<string, seq<Float>>)
  datatype InferenceData = InferenceData(posterior: Option<Posterior>)
  datatype MediaTensors = MediaTensors(mediaSpend: Option<SpendTensor>)
  datatype Media = Media(columns: Option<seq<string>>, coords: Option<map<string, seq<string>>>)
  datatype InputData = InputData(media: Option<Media>)
  datatype ModelSpec = ModelSpec(mediaNames: Option<seq<string>>)

  datatype Model = Model(
    className: string,
    typeName: string,
    inferenceData: Option<InferenceData>,
    mediaTensors: Option<MediaTensors>,
    totalSpend: Option<Grid>,
    inputData: Option<InputData>,
    modelSpec: Option<ModelSpec>,
    nMediaChannels: Option<int>,
    nTimes: Option<int>)

  /** `model.media_tensors.media_spend` when both attributes exist. */
  function MediaSpend(m: Model): (r: Option<SpendTensor>)
    ensures r.Some? <==> m.mediaTensors.Some? && m.mediaTensors.value.mediaSpend.Some?
    ensures r.Some? ==> r == m.mediaTensors.value.mediaSpend
  {
    if m.mediaTensors.Some? then m.mediaTensors.value.mediaSpend else None
  }

  /** `model.inference_data.posterior`, an AttributeError when either is missing. */
  function PosteriorOf(m: Model): (r: Result<Posterior>)
    ensures r.Ok? <==> m.inferenceData.Some? && m.inferenceData.value.posterior.Some?
  {
    match m.inferenceData
    case None => Err(AttributeError("inference_data"))
    case Some(d) =>
      match d.posterior
      case None => Err(AttributeError("posterior"))
      case Some(p) => Ok(p)
  }

  /**
   * `float(posterior[name].mean(dim=['chain', 'draw']).values[idx])`: a
   * KeyError for a missing variable, an IndexError past its end.
   */
  function PosteriorEntry(p: Posterior, name: string, idx: nat): (r: Result<Float>)
    ensures r.Ok? <==> name in p.dataVars && idx < |p.dataVars[name]|
    ensures r.Ok? ==> r.value == p.dataVars[name][idx]
  {
    if name !in p.dataVars then Err(KeyError(name))
    else if idx >= |p.dataVars[name]| then Err(IndexError("index out of bounds"))
    else Ok(p.dataVars[name][idx])
  }

  /** `[f"Channel_{i}" for i in range(n)]`. */
  function NumberedChannels(n: int): (names: seq<string>)
    ensures |names| == if n < 0 then 0 else n
    ensures forall i :: 0 <= i < |names| ==> names[i] == "Channel_" + NatToString(i)
  {
    if n <= 0 then [] else NumberedChannels(n - 1) + ["Channel_" + NatToString(n - 1)]
  }

  /**
   * The channel names the model itself provides, in the order both loaders
   * try them: media columns, the `media_channel` coordinate, the model
   * specification's media names, then numbered names for `n_media_channels`.
   */
  function ListedChannelNames(m: Model): (r: Option<seq<string>>)
    ensures r.None? <==> (MediaNames(m).None? && m.nMediaChannels.None?
                          && (m.modelSpec.None? || m.modelSpec.value.mediaNames.None?))
  {
    match MediaNames(m)
    case Some(names) => Some(names)
    case None =>
      if m.modelSpec.Some? && m.modelSpec.value.mediaNames.Some? then Some(m.modelSpec.value.mediaNames.value)
      else if m.nMediaChannels.Some? then Some(NumberedChannels(m.nMediaChannels.value))
      else None
  }

  /** Names from `input_data.media`: its columns, else its `media_channel` coordinate. */
  function MediaNames(m: Model): (r: Option<seq<string>>)
    ensures r.Some? <==>
      m.inputData.Some? && m.inputData.value.media.Some?
      && (m.inputData.value.media.value.columns.Some?
          || (m.inputData.value.media.value.coords.Some? && "media_channel" in m.inputData.value.media.value.coords.value))
    ensures r.Some? && m.inputData.value.media.value.columns.Some? ==> r == m.inputData.value.media.value.columns
  {
    if m.inputData.Some? && m.inputData.value.media.Some? then
      var media := m.inputData.value.media.value;
      if media.columns.Some? then Some(media.columns.value)
      else if media.coords.Some? && "media_channel" in media.coords.value then
        Some(media.coords.value["media_channel"])
      else None
    else None
  }

  /** The sources are tried strictly in order: an earlier one always wins. */
  lemma ListedChannelNamesPriority(m: Model)
    ensures m.inputData.Some? && m.inputData.value.media.Some? && m.inputData.value.media.value.columns.Some?
      ==> ListedChannelNames(m) == m.inputData.value.media.value.columns
    ensures MediaNames(m).None? && m.modelSpec.Some? && m.modelSpec.value.mediaNames.Some?
      ==> ListedChannelNames(m) == m.modelSpec.value.mediaNames
    ensures (MediaNames(m).None? && m.nMediaChannels.Some?
             && (m.modelSpec.None? || m.modelSpec.value.mediaNames.None?))
      ==> ListedChannelNames(m) == Some(NumberedChannels(m.nMediaChannels.value))
  {
  }
}
