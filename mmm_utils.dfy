/**
 * The older model loader used by the first API: it never fails to load,
 * falling back on the generated mock data for a mock flag, a missing file,
 * a missing Meridian package or any load error, and it answers model
 * information, channel names, contribution data and response curves from
 * whatever it loaded, a Meridian model object or a dictionary.
 *
 * Dictionary data is read through Python's `in`, `[]` and `len` on a small
 * universe of values; the Meridian object is a record of the attributes the
 * loader probes for.
 */
module MmmUtils {
  import opened Py
  import opened Floats
  import opened Dicts
  import CurveMath

  // ---------------------------------------------------------------------
  // The values a loaded dictionary holds

  /** A Python value as far as the loader reads it. */
  datatype Val =
    | Text(s: string)
    | Flag(b: bool)
    | Number(x: real)
    | List(items: seq<Val>)
    | Table(d: Dict<Val>)
    | Frame(columns: seq<Val>, rows: nat)
    | Array(rows: nat, cols: nat)
    | Opaque(typeName: string)

  /** A list of strings. */
  function Names(names: seq<string>): (v: Val)
    ensures v.List? && |v.items| == |names| && forall i :: 0 <= i < |names| ==> v.items[i] == Text(names[i])
  {
    List(seq(|names|, i requires 0 <= i < |names| => Text(names[i])))
  }

  /** `len(v)`. */
  function Len(v: Val): (r: Result<nat>)
    ensures r.Err? <==> v.Flag? || v.Number? || v.Opaque?
  {
    match v
    case Text(s) => Ok(|s|)
    case List(items) => Ok(|items|)
    case Table(d) => Ok(|d.keys|)
    case Frame(_, rows) => Ok(rows)
    case Array(rows, _) => Ok(rows)
    case _ => Err(TypeError("object has no len()"))
  }

  /** `k in v`: a key of a dictionary, an item of a list, a substring, a column of a data frame. */
  function Member(k: string, v: Val): (r: Result<bool>)
    ensures v.Table? ==> r == Ok(k in v.d.values)
    ensures v.List? ==> r == Ok(Text(k) in v.items)
    ensures r.Err? <==> v.Flag? || v.Number? || v.Opaque?
  {
    match v
    case Table(d) => Ok(k in d.values)
    case List(items) => Ok(Text(k) in items)
    case Text(s) => Ok(Contains(s, k))
    case Frame(columns, _) => Ok(Text(k) in columns)
    case Array(_, _) => Ok(false)
    case _ => Err(TypeError("argument is not iterable"))
  }

  /** `v[k]`: only dictionaries and data frames take a string index. */
  function Item(v: Val, k: string): (r: Result<Val>)
    ensures v.Table? && k in v.d.values ==> r == Ok(v.d.values[k])
    ensures r.Ok? ==> v.Table? || v.Frame?
  {
    match v
    case Table(d) => if k in d.values then Ok(d.values[k]) else Err(KeyError(k))
    case Frame(_, _) => Ok(Opaque("Series"))
    case Array(_, _) => Err(IndexError("only integers, slices, ellipsis, numpy.newaxis and integer or boolean arrays are valid indices"))
    case _ => Err(TypeError("indices must be integers"))
  }

  /** The column labels pandas takes from `columns=v`: what iterating `v` yields. */
  function Labels(v: Val): (r: Result<seq<Val>>)
    ensures v.List? ==> r == Ok(v.items)
  {
    match v
    case List(items) => Ok(items)
    case Text(s) => Ok(seq(|s|, i requires 0 <= i < |s| => Text([s[i]])))
    case Table(d) => Ok(Names(d.keys).items)
    case Frame(columns, _) => Ok(columns)
    case Array(_, _) => Err(TypeError("unhashable type: 'numpy.ndarray'"))
    case _ => Err(TypeError("object is not iterable"))
  }

  // ---------------------------------------------------------------------
  // What the loader may hold

  /** The Meridian input data: its `media_names`, and its `media` with or without `columns`. */
  datatype InputAttrs = InputAttrs(mediaNames: Option<seq<string>>, media: Option<Option<seq<string>>>)

  /**
   * The `adstock_hill_media` attribute. An array of two or more dimensions
   * is indexed by channel and parameter: `rows` and `cols` are its first two
   * extents, and a cell holds what `float(hill_params[i, j])` gives, None
   * when that raises (in a deeper array, a cell that is not a single
   * number). Anything without a `shape`, or with at most one dimension, is
   * `NoMatrixShape`.
   */
  datatype HillArray = HillArray(rows: nat, cols: nat, cells: seq<seq<Option<real>>>) | NoMatrixShape

  /** `float(hill_params[i, j])` succeeds on this array. */
  predicate CellReadable(h: HillArray, i: nat, j: nat)
    requires h.HillArray?
  {
    j < h.cols && i < |h.cells| && j < |h.cells[i]| && h.cells[i][j].Some?
  }

  /** The attributes the loader probes a model object for. */
  datatype ObjectAttrs = ObjectAttrs(
    inputData: Option<InputAttrs>,
    mediaNames: Option<seq<string>>,
    nMediaChannels: Option<int>,
    predictResponseCurves: bool,
    adstockHillMedia: Option<HillArray>,
    hillSaturation: bool,
    attributes: seq<string>)

  /** The loaded data: a dictionary, or an object with its type's text and name. */
  datatype ModelData = DictData(d: Dict<Val>) | Object(typeText: string, typeName: string, attrs: ObjectAttrs)

  /**
   * The loader's test for a Meridian model: the lowered text of its type
   * contains "meridian". A dictionary never passes; an object whose type
   * text spells "meridian" or "Meridian" always does.
   */
  predicate IsMeridian(data: ModelData): (b: bool)
    ensures b ==> data.Object?
    ensures data.Object? && (Contains(data.typeText, "meridian") || Contains(data.typeText, "Meridian")) ==> b
  {
    data.Object? &&
      (LowerContains(data.typeText, "meridian");
       LowerContains(data.typeText, "Meridian");
       MeridianLowered();
       Contains(Lower(data.typeText), "meridian"))
  }

  /** Both spellings of the name lower to "meridian". */
  lemma MeridianLowered()
    ensures Lower("meridian") == "meridian" && Lower("Meridian") == "meridian"
  {
    assert Lower("Meridian")[0] == 'm';
    assert forall k :: 1 <= k < 8 ==> Lower("Meridian")[k] == "meridian"[k];
  }

  /** The ten channels of the mock data. */
  const MockChannels: seq<string> :=
    ["Google_Search", "Google_Display", "Facebook", "Instagram", "YouTube", "TV", "Radio", "Print", "Email",
     "Direct_Mail"]

  /** A dictionary with the given keys, in order, and values. */
  function TableOf(keys: seq<string>, vals: seq<Val>): (v: Val)
    requires |keys| == |vals|
    ensures v.Table? && v.d.keys == keys
    ensures forall i :: 0 <= i < |keys| ==> keys[i] in v.d.values
  {
    if keys == [] then Table(Dict([], map[]))
    else
      var init := TableOf(keys[..|keys| - 1], vals[..|vals| - 1]);
      Table(Dict(keys, init.d.values[keys[|keys| - 1] := vals[|vals| - 1]]))
  }

  /**
   * The mock data: model information naming the ten channels, weekly spend
   * and contributions with a column per channel, and the generated curves,
   * summary and fit, which are given.
   */
  function MockData(weeks: nat, curves: Val, summary: Val, fit: Val): (data: ModelData)
    ensures data.DictData? && data.d.keys == ["model_info", "spend_data", "contribution_data", "response_curves",
                                              "channel_summary", "model_fit"]
    ensures forall i :: 0 <= i < |data.d.keys| ==> data.d.keys[i] in data.d.values
  {
    var info := TableOf(["model_type", "version", "training_period", "channels", "data_frequency", "total_weeks"],
                        [Text("Google Meridian MMM"), Text("mock_v1.0"), Text("2022-01-01 to 2023-12-31"),
                         Names(MockChannels), Text("weekly"), Number(weeks as real)]);
    var frame := Frame(Names(MockChannels).items, weeks);
    DictData(TableOf(["model_info", "spend_data", "contribution_data", "response_curves", "channel_summary",
                      "model_fit"], [info, frame, frame, curves, summary, fit]).d)
  }

  // ---------------------------------------------------------------------
  // Loading

  /** What `load_mmm` does with an existing file. */
  datatype Attempt = Loads(data: ModelData) | ImportFails | Raises(msg: string)

  /**
   * The data `load_model` keeps: the model file's contents only when mock
   * data is not asked for, the file exists and loading it succeeds; the
   * mock data in every other case, so loading never raises.
   */
  function LoadedData(useMockData: bool, fileExists: bool, attempt: Attempt, mock: ModelData): (data: ModelData)
    ensures data != mock ==> !useMockData && fileExists && attempt.Loads? && data == attempt.data
    ensures !useMockData && fileExists && attempt.Loads? ==> data == attempt.data
  {
    if useMockData || !fileExists then mock
    else match attempt
      case Loads(data) => data
      case ImportFails => mock
      case Raises(_) => mock
  }

  // ---------------------------------------------------------------------
  // Channel names

  /** `[f"Channel_{i+1}" for i in range(n)]`: numbered from 1, none for a negative count. */
  function OneBasedChannels(n: int): (names: seq<string>)
    ensures |names| == if n < 0 then 0 else n
    ensures forall i :: 0 <= i < |names| ==> names[i] == "Channel_" + NatToString(i + 1)
  {
    if n <= 0 then [] else seq(n, i requires 0 <= i < n => "Channel_" + NatToString(i + 1))
  }

  /**
   * The names a Meridian object gives: its input data's media names or
   * media columns, then its own media names, then numbered channels; None
   * when it has none of them.
   */
  function ObjectChannels(a: ObjectAttrs): (r: Option<seq<string>>)
    ensures r.None? <==>
      (a.inputData.None? || (a.inputData.value.mediaNames.None?
                             && (a.inputData.value.media.None? || a.inputData.value.media.value.None?)))
      && a.mediaNames.None? && a.nMediaChannels.None?
  {
    if a.inputData.Some? && a.inputData.value.mediaNames.Some? then a.inputData.value.mediaNames
    else if a.inputData.Some? && a.inputData.value.mediaNames.None? && a.inputData.value.media.Some?
            && a.inputData.value.media.value.Some? then a.inputData.value.media.value
    else if a.mediaNames.Some? then a.mediaNames
    else if a.nMediaChannels.Some? then Some(OneBasedChannels(a.nMediaChannels.value))
    else None
  }

  /**
   * The channels of dictionary data, tried in order: the model
   * information's `channels`, then `channels`, `media_names`, the columns
   * of `spend_data`, the columns of `media_data` other than the date and
   * the target (or its keys); the mock channels otherwise. Reading a
   * malformed entry raises.
   */
  function DictChannels(d: Dict<Val>): (r: Result<Val>)
    ensures "model_info" !in d.values || d.values["model_info"].Table? ==> r.Ok?
    ensures r.Err? ==> r.error.TypeError?
  {
    var infoHas :- if "model_info" in d.values then Member("channels", d.values["model_info"]) else Ok(false);
    if infoHas then Item(d.values["model_info"], "channels")
    else if "channels" in d.values then Ok(d.values["channels"])
    else if "media_names" in d.values then Ok(d.values["media_names"])
    else if "spend_data" in d.values then
      match d.values["spend_data"]
      case Frame(columns, _) => Ok(List(columns))
      case _ => Ok(Names(MockChannels))
    else if "media_data" in d.values then
      match d.values["media_data"]
      case Frame(columns, _) => Ok(List(WithoutDateAndTarget(columns)))
      case Table(m) => Ok(Names(m.keys))
      case _ => Ok(Names(MockChannels))
    else Ok(Names(MockChannels))
  }

  /** The columns other than `date` and `target`, in order. */
  function WithoutDateAndTarget(columns: seq<Val>): (r: seq<Val>)
    ensures forall c :: c in r <==> c in columns && c != Text("date") && c != Text("target")
    ensures |r| <= |columns|
  {
    if columns == [] then []
    else
      var last := columns[|columns| - 1];
      WithoutDateAndTarget(columns[..|columns| - 1])
      + (if last != Text("date") && last != Text("target") then [last] else [])
  }

  /** `get_media_channels()` on the loaded data. */
  function MediaChannels(data: ModelData): (r: Result<Val>)
    ensures data.Object? ==> r.Ok? && r.value.List?
    ensures data.Object? && !(IsMeridian(data) && ObjectChannels(data.attrs).Some?) ==> r == Ok(Names(MockChannels))
    ensures IsMeridian(data) && ObjectChannels(data.attrs).Some? ==> r == Ok(Names(ObjectChannels(data.attrs).value))
  {
    match data
    case Object(_, _, a) =>
      if IsMeridian(data) && ObjectChannels(a).Some? then Ok(Names(ObjectChannels(a).value)) else Ok(Names(MockChannels))
    case DictData(d) => DictChannels(d)
  }

  /** The channel names of a Meridian object, as strings. */
  function MeridianNames(a: ObjectAttrs): (names: seq<string>)
    ensures |names| > 0 || ObjectChannels(a).Some?
  {
    if ObjectChannels(a).Some? then ObjectChannels(a).value else MockChannels
  }

  /**
   * Dictionary data is searched in a fixed order: the model information's
   * channel list wins, then `channels`, then `media_names`, then the
   * columns of `spend_data`; data with none of the keys has the mock
   * channels.
   */
  lemma DictChannelsPriority(d: Dict<Val>)
    ensures "model_info" in d.values && d.values["model_info"].Table? && "channels" in d.values["model_info"].d.values
            ==> DictChannels(d) == Ok(d.values["model_info"].d.values["channels"])
    ensures "model_info" !in d.values && "channels" in d.values ==> DictChannels(d) == Ok(d.values["channels"])
    ensures "model_info" !in d.values && "channels" !in d.values && "media_names" in d.values
            ==> DictChannels(d) == Ok(d.values["media_names"])
    ensures "model_info" !in d.values && "channels" !in d.values && "media_names" !in d.values
            && "spend_data" in d.values && d.values["spend_data"].Frame?
            ==> DictChannels(d) == Ok(List(d.values["spend_data"].columns))
    ensures "model_info" !in d.values && "channels" !in d.values && "media_names" !in d.values
            && "spend_data" !in d.values && "media_data" !in d.values
            ==> DictChannels(d) == Ok(Names(MockChannels))
  {
  }

  /** The media data's date and target columns are never channels. */
  lemma MediaDataColumnsExcluded(d: Dict<Val>)
    requires forall k :: k in ["model_info", "channels", "media_names", "spend_data"] ==> k !in d.values
    requires "media_data" in d.values && d.values["media_data"].Frame?
    ensures DictChannels(d).Ok? && DictChannels(d).value.List?
    ensures Text("date") !in DictChannels(d).value.items && Text("target") !in DictChannels(d).value.items
    ensures forall c :: c in d.values["media_data"].columns && c != Text("date") && c != Text("target")
              ==> c in DictChannels(d).value.items
  {
  }

  // ---------------------------------------------------------------------
  // Model information

  const CommonKeys: seq<string> := ["trace", "media_data", "channels", "contribution", "response_curves"]

  /** The keys among `keys` the dictionary has, in order. */
  function Found(keys: seq<string>, d: Dict<Val>): (r: seq<string>)
    ensures forall k :: k in r <==> k in keys && k in d.values
    ensures |r| <= |keys|
  {
    if keys == [] then []
    else Found(keys[..|keys| - 1], d) + (if keys[|keys| - 1] in d.values then [keys[|keys| - 1]] else [])
  }

  /** The names in `attrs` not starting with an underscore, in order. */
  function Public(attrs: seq<string>): (r: seq<string>)
    ensures forall a :: a in r <==> a in attrs && !StartsWith(a, "_")
    ensures |r| <= |attrs|
  {
    if attrs == [] then []
    else Public(attrs[..|attrs| - 1]) + (if !StartsWith(attrs[|attrs| - 1], "_") then [attrs[|attrs| - 1]] else [])
  }

  /** `d.update(...)` for a run of assignments. */
  function Update(d: Dict<Val>, keys: seq<string>, vals: seq<Val>): (r: Dict<Val>)
    requires |keys| == |vals|
    ensures forall i :: 0 <= i < |keys| ==> keys[i] in r.values
    ensures forall k :: k in d.values ==> k in r.values
    ensures forall k :: k in r.values && k !in keys ==> k in d.values && r.values[k] == d.values[k]
  {
    if keys == [] then d
    else
      var init := Update(d, keys[..|keys| - 1], vals[..|vals| - 1]);
      Put(init, keys[|keys| - 1], vals[|vals| - 1])
  }

  /** The last value assigned to a key in a run of assignments. */
  lemma {:induction false} UpdateLast(d: Dict<Val>, keys: seq<string>, vals: seq<Val>, i: nat)
    requires |keys| == |vals| && i < |keys| && forall j :: i < j < |keys| ==> keys[j] != keys[i]
    ensures Update(d, keys, vals).values[keys[i]] == vals[i]
  {
    if i < |keys| - 1 {
      UpdateLast(d, keys[..|keys| - 1], vals[..|vals| - 1], i);
    }
  }

  /**
   * `get_model_info()` on the loaded data: a Meridian model is described by
   * its channels and first ten public attributes; dictionary data with
   * model information is that information tagged as mock data; other
   * dictionary data is tagged as a pickled dictionary with the common keys
   * it has; anything else is of an unknown source. Model information that
   * is not a dictionary cannot be copied and updated.
   */
  function ModelInfo(data: ModelData, path: string, sizeMb: real): (r: Result<Dict<Val>>)
    ensures r.Err? <==> data.DictData? && "model_info" in data.d.values && !data.d.values["model_info"].Table?
    ensures r.Err? ==> r.error == AttributeError("update")
    ensures r.Ok? ==> "file_path" in r.value.values && "data_source" in r.value.values && "is_real_model" in r.value.values
  {
    match data
    case Object(_, typeName, a) =>
      if IsMeridian(data) then
        var channels := MeridianNames(a);
        var attrs := Public(a.attributes);
        var keys := ["file_path", "file_size_mb", "data_type", "data_source", "is_real_model", "n_channels",
                     "channels", "model_version", "available_attributes"];
        assert keys[0] == "file_path" && keys[3] == "data_source" && keys[4] == "is_real_model";
        Ok(TableOf(keys,
                   [Text(path), Number(sizeMb), Text(typeName), Text("real_meridian_model"), Flag(true),
                    Number(|channels| as real), Names(channels), Text("Google Meridian"),
                    Names(attrs[..if |attrs| < 10 then |attrs| else 10])]).d)
      else
        var keys := ["file_path", "data_type", "data_source", "is_real_model", "error"];
        assert keys[0] == "file_path" && keys[2] == "data_source" && keys[3] == "is_real_model";
        Ok(TableOf(keys,
                   [Text(path), Text(typeName), Text("unknown"), Flag(false), Text("Unsupported model data type")]).d)
    case DictData(d) =>
      if "model_info" in d.values then
        match d.values["model_info"]
        case Table(info) =>
          var keys := ["file_path", "data_source", "data_keys", "data_type", "is_real_model"];
          assert keys[0] == "file_path" && keys[1] == "data_source" && keys[4] == "is_real_model";
          Ok(Update(info, keys,
                    [Text(path), Text("mock"), Names(d.keys), Text("dict"), Flag(false)]))
        case _ => Err(AttributeError("update"))
      else
        var keys := ["file_path", "file_size_mb", "data_keys", "data_type", "data_source", "is_real_model",
                     "mmm_keys_found"];
        assert keys[0] == "file_path" && keys[4] == "data_source" && keys[5] == "is_real_model";
        Ok(TableOf(keys,
                   [Text(path), Number(sizeMb), Names(d.keys), Text("dict"), Text("pickle_dict"), Flag(false),
                    Names(Found(CommonKeys, d))]).d)
  }

  /** The source tag and real-model flag of a report. */
  predicate Tagged(r: Dict<Val>, source: string, isReal: bool)
  {
    "data_source" in r.values && r.values["data_source"] == Text(source)
    && "is_real_model" in r.values && r.values["is_real_model"] == Flag(isReal)
  }

  /**
   * Every report says where its data came from: a Meridian model is the
   * real model, dictionary data with model information is mock data (and
   * keeps every entry of that information it does not overwrite), other
   * dictionary data is a pickled dictionary and anything else is unknown;
   * only a Meridian model is real.
   */
  lemma ModelInfoSource(data: ModelData, path: string, sizeMb: real)
    ensures var r := ModelInfo(data, path, sizeMb);
      (r.Err? <==> data.DictData? && "model_info" in data.d.values && !data.d.values["model_info"].Table?)
      && (IsMeridian(data) ==> Tagged(r.value, "real_meridian_model", true))
      && (data.Object? && !IsMeridian(data) ==> Tagged(r.value, "unknown", false))
      && (data.DictData? && "model_info" !in data.d.values ==> Tagged(r.value, "pickle_dict", false))
      && (r.Ok? && data.DictData? && "model_info" in data.d.values ==>
            Tagged(r.value, "mock", false)
            && forall k :: k in data.d.values["model_info"].d.values && k !in InfoUpdates
                 ==> k in r.value.values && r.value.values[k] == data.d.values["model_info"].d.values[k])
  {
    match data
    case Object(_, typeName, a) =>
      if IsMeridian(data) {
        MeridianInfoTagged(typeName, a, path, sizeMb);
      } else {
        var keys := ["file_path", "data_type", "data_source", "is_real_model", "error"];
        var vals := [Text(path), Text(typeName), Text("unknown"), Flag(false), Text("Unsupported model data type")];
        TableAt(keys, vals, 2);
        TableAt(keys, vals, 3);
      }
    case DictData(d) =>
      if "model_info" in d.values {
        if d.values["model_info"].Table? {
          var vals := [Text(path), Text("mock"), Names(d.keys), Text("dict"), Flag(false)];
          UpdateLast(d.values["model_info"].d, InfoUpdates, vals, 1);
          UpdateLast(d.values["model_info"].d, InfoUpdates, vals, 4);
        }
      } else {
        PickleInfoTagged(d, path, sizeMb);
      }
  }

  lemma MeridianInfoTagged(typeName: string, a: ObjectAttrs, path: string, sizeMb: real)
    ensures var channels := MeridianNames(a);
      var attrs := Public(a.attributes);
      var keys := ["file_path", "file_size_mb", "data_type", "data_source", "is_real_model", "n_channels",
                   "channels", "model_version", "available_attributes"];
      var vals := [Text(path), Number(sizeMb), Text(typeName), Text("real_meridian_model"), Flag(true),
                   Number(|channels| as real), Names(channels), Text("Google Meridian"),
                   Names(attrs[..if |attrs| < 10 then |attrs| else 10])];
      Tagged(TableOf(keys, vals).d, "real_meridian_model", true)
  {
    var channels := MeridianNames(a);
    var attrs := Public(a.attributes);
    var keys := ["file_path", "file_size_mb", "data_type", "data_source", "is_real_model", "n_channels",
                 "channels", "model_version", "available_attributes"];
    var vals := [Text(path), Number(sizeMb), Text(typeName), Text("real_meridian_model"), Flag(true),
                 Number(|channels| as real), Names(channels), Text("Google Meridian"),
                 Names(attrs[..if |attrs| < 10 then |attrs| else 10])];
    TableAt(keys, vals, 3);
    TableAt(keys, vals, 4);
  }

  lemma PickleInfoTagged(d: Dict<Val>, path: string, sizeMb: real)
    ensures var keys := ["file_path", "file_size_mb", "data_keys", "data_type", "data_source", "is_real_model",
                         "mmm_keys_found"];
      var vals := [Text(path), Number(sizeMb), Names(d.keys), Text("dict"), Text("pickle_dict"), Flag(false),
                   Names(Found(CommonKeys, d))];
      Tagged(TableOf(keys, vals).d, "pickle_dict", false)
  {
    var keys := ["file_path", "file_size_mb", "data_keys", "data_type", "data_source", "is_real_model",
                 "mmm_keys_found"];
    var vals := [Text(path), Number(sizeMb), Names(d.keys), Text("dict"), Text("pickle_dict"), Flag(false),
                 Names(Found(CommonKeys, d))];
    TableAt(keys, vals, 4);
    TableAt(keys, vals, 5);
  }

  /** The keys the mock branch overwrites. */
  const InfoUpdates: seq<string> := ["file_path", "data_source", "data_keys", "data_type", "is_real_model"]

  /** A key of a dictionary built from distinct keys holds its own value. */
  lemma {:induction false} TableAt(keys: seq<string>, vals: seq<Val>, i: nat)
    requires |keys| == |vals| && i < |keys| && forall j :: i < j < |keys| ==> keys[j] != keys[i]
    ensures TableOf(keys, vals).d.values[keys[i]] == vals[i]
  {
    if i < |keys| - 1 {
      TableAt(keys[..|keys| - 1], vals[..|vals| - 1], i);
    }
  }

  // ---------------------------------------------------------------------
  // Contribution data

  /** The periods of the synthetic contributions built for a Meridian model. */
  const SyntheticPeriods: nat := 52
  const ContributionKeys: seq<string> := ["contribution", "media_contribution", "contributions"]

  /**
   * The loop over the contribution keys from position `k` on: a data frame
   * is returned as it is; an array with a column per channel becomes a data
   * frame labelled by the channels; anything else is skipped.
   */
  function ContributionFrom(d: Dict<Val>, k: nat): (r: Result<Option<Val>>)
    requires k <= |ContributionKeys|
    ensures r.Ok? && r.value.Some? ==> r.value.value.Frame?
    decreases |ContributionKeys| - k
  {
    if k == |ContributionKeys| then Ok(None)
    else
      var key := ContributionKeys[k];
      if key !in d.values then ContributionFrom(d, k + 1)
      else match d.values[key]
        case Frame(_, _) => Ok(Some(d.values[key]))
        case Array(rows, cols) =>
          var channels :- DictChannels(d);
          var n :- Len(channels);
          if n > 0 && cols == n then
            var labels :- Labels(channels);
            if |labels| != cols then Err(ValueError("Shape of passed values does not match the columns"))
            else Ok(Some(Frame(labels, rows)))
          else ContributionFrom(d, k + 1)
        case _ => ContributionFrom(d, k + 1)
  }

  /**
   * The columns of the synthetic contributions: the loop assigns each
   * channel's weekly series to `data[channel]`, so a repeated channel
   * name overwrites its earlier series and the frame has one column per
   * distinct name, in the order of first appearance.
   */
  function SyntheticColumns(names: seq<string>): (columns: seq<string>)
    ensures columns == FirstOccurrences(names)
  {
    var series := (i: nat) => Ok(SyntheticPeriods);
    PutAllByKey(names, series, _ => SyntheticPeriods, |names|);
    PutAllFirstOccurrences(names, series, |names|);
    assert names[..|names|] == names;
    PutAll(names, series, |names|).value.keys
  }

  /**
   * `get_contribution_data()` on the loaded data: synthetic weekly
   * contributions, a column per channel, for a Meridian model with
   * channels; the stored contribution data frame of dictionary data, else
   * the first contribution entry that is or becomes one; None otherwise.
   */
  function ContributionData(data: ModelData): (r: Result<Option<Val>>)
    ensures data.Object? ==> r.Ok?
    ensures r.Ok? && r.value.Some? ==> r.value.value.Frame?
  {
    match data
    case Object(_, _, a) =>
      if IsMeridian(data) && |MeridianNames(a)| > 0 then Ok(Some(Frame(Names(SyntheticColumns(MeridianNames(a))).items, SyntheticPeriods)))
      else Ok(None)
    case DictData(d) =>
      if "contribution_data" in d.values && d.values["contribution_data"].Frame? then
        Ok(Some(d.values["contribution_data"]))
      else ContributionFrom(d, 0)
  }

  /**
   * A Meridian model with channels has contributions, 52 weeks for each
   * distinct channel name: the columns are the channel names without
   * repeats, each name appearing once, in the order of first appearance,
   * and exactly the channel names when those have no repeats. An object
   * that is not a Meridian model has none; dictionary data with a
   * contribution data frame gives it back unchanged.
   */
  lemma ContributionDataMeaning(data: ModelData)
    ensures IsMeridian(data) ==>
      ContributionData(data) == if MeridianNames(data.attrs) == [] then Ok(None)
                                else Ok(Some(Frame(Names(FirstOccurrences(MeridianNames(data.attrs))).items, SyntheticPeriods)))
    ensures IsMeridian(data) && MeridianNames(data.attrs) != [] ==>
      var columns := ContributionData(data).value.value.columns;
      (forall i, j :: 0 <= i < j < |columns| ==> columns[i] != columns[j])
      && (forall n :: Text(n) in columns <==> n in MeridianNames(data.attrs))
      && (Distinct(MeridianNames(data.attrs)) ==> columns == Names(MeridianNames(data.attrs)).items)
    ensures data.Object? && !IsMeridian(data) ==> ContributionData(data) == Ok(None)
    ensures data.DictData? && "contribution_data" in data.d.values && data.d.values["contribution_data"].Frame?
            ==> ContributionData(data) == Ok(Some(data.d.values["contribution_data"]))
  {
    if IsMeridian(data) && MeridianNames(data.attrs) != [] {
      var names := MeridianNames(data.attrs);
      var unique := FirstOccurrences(names);
      var columns := Names(unique).items;
      forall n ensures Text(n) in columns <==> n in names {
        if Text(n) in columns {
          var i :| 0 <= i < |columns| && columns[i] == Text(n);
          assert unique[i] == n;
        }
        if n in names {
          var i :| 0 <= i < |unique| && unique[i] == n;
          assert columns[i] == Text(n);
        }
      }
      if Distinct(names) {
        FirstOccurrencesOfDistinct(names);
      }
    }
  }

  // ---------------------------------------------------------------------
  // Response curves

  /** One curve as this loader builds it. */
  datatype CurveRecord = CurveRecord(spend: seq<real>, response: seq<real>, saturationPoint: real, efficiency: real)

  /** The answer of `get_response_curves()`: nothing, a stored entry, or curves built for a Meridian model. */
  datatype CurvesAnswer = NoCurves | Stored(v: Val) | Built(curves: Dict<CurveRecord>)

  const CurveSpendMax: real := 100000.0
  const CurveGridPoints: nat := 21
  const CurveGridStep: real := 5000.0

  /** `np.linspace(0, 100000, 21)`. */
  function SpendGrid(): (s: seq<real>)
    ensures |s| == CurveGridPoints && forall k :: 0 <= k < CurveGridPoints ==> s[k] == CurveGridStep * k as real
  {
    CurveMath.Linspace(0.0, CurveSpendMax, CurveGridPoints)
  }

  /**
   * `spend * efficiency * (spend / (saturation + spend))`: 0 at no spend,
   * and for a non-negative efficiency never more than the linear response
   * `spend * efficiency`.
   */
  function RationalResponse(s: real, efficiency: real, saturation: real): (r: real)
    requires saturation > 0.0 && s >= 0.0
    ensures s == 0.0 ==> r == 0.0
    ensures efficiency >= 0.0 ==> 0.0 <= r <= s * efficiency
  {
    if s == 0.0 then 0.0
    else
      var f := s / (saturation + s);
      assert 0.0 <= f <= 1.0;
      assert efficiency >= 0.0 ==> s * efficiency * f <= s * efficiency by {
        if efficiency >= 0.0 {
          assert s * efficiency >= 0.0;
        }
      }
      s * efficiency * f
  }

  /** A curve with a rational response on the spend grid, reporting its own saturation and efficiency. */
  function RationalCurve(efficiency: real, saturation: real): (c: CurveRecord)
    requires saturation > 0.0
    ensures c.spend == SpendGrid() && |c.response| == CurveGridPoints
    ensures c.saturationPoint == saturation && c.efficiency == efficiency
  {
    var spend := SpendGrid();
    CurveRecord(spend, seq(CurveGridPoints, k requires 0 <= k < CurveGridPoints => RationalResponse(spend[k], efficiency, saturation)),
                saturation, efficiency)
  }

  /** The response grows with spend when the efficiency is not negative. */
  lemma RationalGrows(a: real, b: real, efficiency: real, saturation: real)
    requires saturation > 0.0 && 0.0 <= a <= b && efficiency >= 0.0
    ensures RationalResponse(a, efficiency, saturation) <= RationalResponse(b, efficiency, saturation)
  {
    if a > 0.0 {
      RationalOrdered(a, b, efficiency, saturation);
    }
  }

  /** The rational response formula, ordered along spend for positive spend. */
  lemma RationalOrdered(a: real, b: real, efficiency: real, saturation: real)
    requires saturation > 0.0 && 0.0 < a <= b && efficiency >= 0.0
    ensures a * efficiency * (a / (saturation + a)) <= b * efficiency * (b / (saturation + b))
  {
    var fa := a / (saturation + a);
    var fb := b / (saturation + b);
    SaturationFractionsOrdered(a, b, saturation);
    ProductsOrdered(a, fa, b, fb);
    ProductsOrdered(a * fa, efficiency, b * fb, efficiency);
    assert a * efficiency * fa == a * fa * efficiency;
    assert b * efficiency * fb == b * fb * efficiency;
  }

  /** The saturation fraction `s / (saturation + s)` is non-negative and grows with spend. */
  lemma SaturationFractionsOrdered(a: real, b: real, saturation: real)
    requires saturation > 0.0 && 0.0 <= a <= b
    ensures 0.0 <= a / (saturation + a) <= b / (saturation + b)
  {
    CrossOrdered(a, b, saturation);
    FractionsOrdered(a, saturation + a, b, saturation + b);
    ScaledUp(a, saturation + a);
  }

  lemma CrossOrdered(a: real, b: real, c: real)
    requires c > 0.0 && 0.0 <= a <= b
    ensures a * (c + b) <= b * (c + a)
  {
    assert a * (c + b) == a * c + a * b;
    assert b * (c + a) == b * c + a * b;
    ProductsOrdered(a, c, b, c);
  }

  lemma ScaledUp(x: real, y: real)
    requires 0.0 <= x && y > 0.0
    ensures 0.0 <= x / y
  {
  }

  lemma FractionsOrdered(x: real, y: real, u: real, v: real)
    requires y > 0.0 && v > 0.0 && x * v <= u * y
    ensures x / y <= u / v
  {
    assert x / y == (x * v) / (y * v);
    assert u / v == (u * y) / (y * v);
  }

  lemma ProductsOrdered(x: real, y: real, u: real, v: real)
    requires 0.0 <= x <= u && 0.0 <= y <= v
    ensures x * y <= u * v
  {
    assert x * y <= u * y;
    assert u * y <= u * v;
  }

  /**
   * The final derived curves: starting from zero, their response never
   * falls along the spend grid, and they report the rational curve's own
   * saturation point and efficiency.
   */
  lemma {:induction false} RationalCurveShape(efficiency: real, saturation: real)
    requires saturation > 0.0 && efficiency >= 0.0
    ensures var c := RationalCurve(efficiency, saturation);
      c.response[0] == 0.0 && forall k :: 0 < k < CurveGridPoints ==> c.response[k - 1] <= c.response[k]
  {
    var c := RationalCurve(efficiency, saturation);
    forall k | 0 < k < CurveGridPoints ensures c.response[k - 1] <= c.response[k] {
      RationalGrows(c.spend[k - 1], c.spend[k], efficiency, saturation);
    }
  }

  /** The final curve of the channel at position `i`. */
  function FinalCurve(i: nat): (c: CurveRecord)
    ensures c == RationalCurve(0.65 + 0.05 * i as real, 40000.0 + 12000.0 * i as real)
  {
    RationalCurve(0.65 + 0.05 * i as real, 40000.0 + 12000.0 * i as real)
  }

  /** The curve derived from the channel's position alone when the model has no curve parameters. */
  function StructureCurve(i: nat): (c: CurveRecord)
    ensures c == RationalCurve(0.6 + (i % 5) as real * 0.08, 30000.0 + (i % 7) as real * 10000.0)
  {
    RationalCurve(0.6 + (i % 5) as real * 0.08, 30000.0 + (i % 7) as real * 10000.0)
  }

  /**
   * The Hill parameters `alpha` and `gamma` for the channel at `i`, None
   * when reading them raises: the defaults 2.0 and 0.5 without an indexable
   * array or past its rows, otherwise the channel's first cell and, when
   * there is a second column, its second.
   */
  function HillParameters(a: ObjectAttrs, i: nat): (r: Option<(real, real)>)
    ensures a.adstockHillMedia.None? || a.adstockHillMedia.value.NoMatrixShape? ==> r == Some((2.0, 0.5))
    ensures a.adstockHillMedia.Some? && a.adstockHillMedia.value.HillArray? ==>
      var h := a.adstockHillMedia.value;
      (h.rows <= i ==> r == Some((2.0, 0.5)))
      && (h.rows > i ==>
            (r.Some? <==> CellReadable(h, i, 0) && (h.cols > 1 ==> CellReadable(h, i, 1)))
            && (r.Some? ==> r.value.0 == h.cells[i][0].value
                            && r.value.1 == (if h.cols > 1 then h.cells[i][1].value else 0.5)))
  {
    match a.adstockHillMedia
    case None => Some((2.0, 0.5))
    case Some(NoMatrixShape) => Some((2.0, 0.5))
    case Some(h) =>
      if h.rows <= i then Some((2.0, 0.5))
      else if !CellReadable(h, i, 0) || (h.cols > 1 && !CellReadable(h, i, 1)) then None
      else Some((h.cells[i][0].value, if h.cols > 1 then h.cells[i][1].value else 0.5))
  }

  /**
   * The spend at the first segment whose gain is below a tenth of the
   * largest gain, else 70% of the top of the grid.
   */
  function HillSaturation(spend: seq<real>, response: seq<real>): (p: real)
    requires |spend| == |response| == CurveGridPoints
    ensures p in spend || p == spend[CurveGridPoints - 1] * 0.7
  {
    var marginal := CurveMath.Differences(response);
    match CurveMath.FirstBelow(marginal, 0, Max(marginal) * 0.1)
    case Some(k) => spend[k]
    case None => spend[CurveGridPoints - 1] * 0.7
  }

  /**
   * The curve from the Hill parameters of the channel at `i` of `n`: the
   * spend times the Hill saturation at half-point `gamma * 50000`, scaled up
   * for later channels; its efficiency is the mean response per unit spent.
   */
  function HillCurve(alpha: real, gamma: real, i: nat, n: nat, hill: (real, real, real) -> real): (c: CurveRecord)
    requires n > 0
    ensures c.spend == SpendGrid() && |c.response| == CurveGridPoints
  {
    var spend := SpendGrid();
    var scale := 0.5 + 0.5 * (i + 1) as real / n as real;
    var response := seq(CurveGridPoints, k requires 0 <= k < CurveGridPoints =>
                          if spend[k] == 0.0 then 0.0 else spend[k] * hill(spend[k], alpha, gamma * 50000.0) * scale);
    CurveRecord(spend, response, HillSaturation(spend, response),
                Mean(seq(CurveGridPoints - 1, k requires 0 <= k < CurveGridPoints - 1 => response[k + 1] / spend[k + 1])))
  }

  const FlatGain: real := 0.01
  const PredictedSaturationDefault: real := 50000.0
  const PredictedEfficiencyDefault: real := 0.75

  /**
   * What the model's `predict_response_curves` gave for one channel: the
   * series stored under the channel's name, and whether the result also
   * exposes the channel as an attribute (a dictionary never does).
   */
  datatype Prediction = Prediction(series: seq<real>, hasAttribute: bool)

  /**
   * `np.argmax(np.diff(r) < 0.01)`: the first segment gaining less than
   * 0.01, or 0 when no segment does.
   */
  function FlatSegment(r: seq<real>): (k: nat)
    requires |r| > 1
    ensures k < |r| - 1
    ensures (exists j :: 0 <= j < |r| - 1 && r[j + 1] - r[j] < FlatGain) ==>
      r[k + 1] - r[k] < FlatGain && forall j :: 0 <= j < k ==> r[j + 1] - r[j] >= FlatGain
    ensures (forall j :: 0 <= j < |r| - 1 ==> r[j + 1] - r[j] >= FlatGain) ==> k == 0
  {
    var d := CurveMath.Differences(r);
    assert forall j {:trigger r[j]} :: 0 <= j < |d| ==> d[j] == r[j + 1] - r[j];
    match CurveMath.FirstBelow(d, 0, FlatGain)
    case Some(k) => k
    case None => 0
  }

  /**
   * `np.mean(r[1:] / spend_range[1:])` over the grid after zero: with the
   * grid's 21 points each response is divided by its own spend, with two
   * points the one-point tail is broadcast over the whole grid.
   */
  function PerUnitEfficiency(r: seq<real>): (e: real)
    requires |r| == 2 || |r| == CurveGridPoints
    ensures (forall k :: 0 <= k < |r| ==> r[k] >= 0.0) ==> e >= 0.0
    ensures |r| == CurveGridPoints && (forall k :: 0 <= k < |r| ==> r[k] == r[1] * k as real) ==>
      e == r[1] / CurveGridStep
  {
    var q := PerUnitReturns(r);
    NonNegativeReturns(r, q);
    ProportionalReturns(r, q);
    Mean(q)
  }

  /** Each response after zero divided by the grid spend it answers. */
  function PerUnitReturns(r: seq<real>): (q: seq<real>)
    requires |r| == 2 || |r| == CurveGridPoints
    ensures |q| == CurveGridPoints - 1
    ensures forall k :: 0 <= k < |q| ==>
      q[k] == (if |r| == 2 then r[1] else r[k + 1]) / (CurveGridStep * (k + 1) as real)
  {
    if |r| == 2 then
      seq(CurveGridPoints - 1, k requires 0 <= k < CurveGridPoints - 1 => r[1] / (CurveGridStep * (k + 1) as real))
    else
      seq(CurveGridPoints - 1, k requires 0 <= k < CurveGridPoints - 1 => r[k + 1] / (CurveGridStep * (k + 1) as real))
  }

  lemma NonNegativeReturns(r: seq<real>, q: seq<real>)
    requires |r| == 2 || |r| == CurveGridPoints
    requires q == PerUnitReturns(r)
    ensures (forall k :: 0 <= k < |r| ==> r[k] >= 0.0) ==> Mean(q) >= 0.0
  {
    if forall k :: 0 <= k < |r| ==> r[k] >= 0.0 {
      MeanWithin(q, 0.0, Max(q));
    }
  }

  lemma ProportionalReturns(r: seq<real>, q: seq<real>)
    requires |r| == 2 || |r| == CurveGridPoints
    requires q == PerUnitReturns(r)
    ensures |r| == CurveGridPoints && (forall k :: 0 <= k < |r| ==> r[k] == r[1] * k as real) ==>
      Mean(q) == r[1] / CurveGridStep
  {
    if |r| == CurveGridPoints && (forall k :: 0 <= k < |r| ==> r[k] == r[1] * k as real) {
      var c := r[1] / CurveGridStep;
      forall k | 0 <= k < |q| ensures q[k] == c {
        var n := (k + 1) as real;
        assert q[k] == r[k + 1] / (CurveGridStep * n);
        CancelFactor(r[k + 1], r[1], CurveGridStep, n);
      }
      MeanWithin(q, c, c);
    }
  }

  /** A common non-zero factor cancels from a quotient. */
  lemma CancelFactor(x: real, a: real, b: real, n: real)
    requires b != 0.0 && n != 0.0 && x == a * n
    ensures x / (b * n) == a / b
  {
  }

  /**
   * The curve recorded for a channel from the model's prediction: the
   * 21-point grid; the predicted series as the response when the result
   * has the channel as an attribute, else an empty response; for a series
   * of more than one point, the grid spend at its first flat segment and
   * the mean response per unit spent over the grid after zero; 50000 and
   * 0.75 otherwise. A series of any other length than two or the grid's
   * cannot be divided by the grid, and the channel is skipped.
   */
  function PredictedCurve(p: Prediction): (c: Option<CurveRecord>)
    ensures c.Some? <==> |p.series| <= 2 || |p.series| == CurveGridPoints
    ensures c.Some? ==> c.value.spend == SpendGrid()
    ensures c.Some? ==> c.value.response == if p.hasAttribute then p.series else []
    ensures c.Some? && |p.series| <= 1 ==>
      c.value.saturationPoint == PredictedSaturationDefault && c.value.efficiency == PredictedEfficiencyDefault
    ensures c.Some? && |p.series| > 1 ==>
      c.value.saturationPoint == CurveGridStep * FlatSegment(p.series) as real
      && c.value.efficiency == PerUnitEfficiency(p.series)
  {
    var spend := SpendGrid();
    var r := p.series;
    var response := if p.hasAttribute then r else [];
    if |r| <= 1 then Some(CurveRecord(spend, response, PredictedSaturationDefault, PredictedEfficiencyDefault))
    else if |r| != 2 && |r| != CurveGridPoints then None
    else Some(CurveRecord(spend, response, spend[FlatSegment(r)], PerUnitEfficiency(r)))
  }


  /** The curves collected from position 0 up to `n`, skipping the channels whose curve raised. */
  function Gather(names: seq<string>, f: nat -> Option<CurveRecord>, n: nat): (r: Dict<CurveRecord>)
    requires n <= |names|
    ensures r.Valid()
    ensures forall k :: k in r.values <==> exists i :: 0 <= i < n && names[i] == k && f(i).Some?
  {
    if n == 0 then EmptyDict()
    else
      var init := Gather(names, f, n - 1);
      match f(n - 1)
      case None => init
      case Some(c) =>
        PutValid(init, names[n - 1], c);
        Put(init, names[n - 1], c)
  }

  /**
   * The curves built for a Meridian model with the given channels: the
   * model's own predictions when it can predict, the Hill-parameter curves
   * when it has Hill parameters, the curves derived from the channel
   * positions otherwise; when that leaves no curve, the final derived
   * curves for every channel.
   */
  function MeridianCurves(names: seq<string>, a: ObjectAttrs, predicted: string -> Option<Prediction>,
                          hill: (real, real, real) -> real): (r: Dict<CurveRecord>)
    requires |names| > 0
    ensures r.Valid() && forall k :: k in r.values ==> k in names
  {
    var curves :=
      if a.predictResponseCurves then Gather(names, PredictedAt(names, predicted), |names|)
      else if a.adstockHillMedia.Some? || a.hillSaturation then
        Gather(names, (i: nat) =>
          if i < |names| then
            match HillParameters(a, i)
            case None => None
            case Some(p) => Some(HillCurve(p.0, p.1, i, |names|, hill))
          else None, |names|)
      else Gather(names, (i: nat) => Some(StructureCurve(i)), |names|);
    if curves.keys != [] then curves
    else Gather(names, (i: nat) => Some(FinalCurve(i)), |names|)
  }

  /**
   * `get_response_curves()` on the loaded data: curves built for a Meridian
   * model with channels; for dictionary data the entry under
   * `response_curves`, `curves`, `saturation_curves` or
   * `response_functions`, the first present; nothing otherwise.
   */
  function ResponseCurves(data: ModelData, predicted: string -> Option<Prediction>,
                          hill: (real, real, real) -> real): (r: CurvesAnswer)
    ensures data.DictData? ==>
      (r.Stored? <==> exists k :: k in CurveKeys && k in data.d.values)
      && (r.Stored? ==> r.v == data.d.values[FirstKey(CurveKeys, data.d)])
    ensures data.Object? && !IsMeridian(data) ==> r == NoCurves
  {
    match data
    case Object(_, _, a) =>
      if IsMeridian(data) && |MeridianNames(a)| > 0 then Built(MeridianCurves(MeridianNames(a), a, predicted, hill))
      else NoCurves
    case DictData(d) =>
      if exists k :: k in CurveKeys && k in d.values then Stored(d.values[FirstKey(CurveKeys, d)])
      else NoCurves
  }

  const CurveKeys: seq<string> := ["response_curves", "curves", "saturation_curves", "response_functions"]

  /** The first of `keys` the dictionary has. */
  function FirstKey(keys: seq<string>, d: Dict<Val>): (k: string)
    requires exists k :: k in keys && k in d.values
    ensures k in keys && k in d.values
  {
    PresentAt(keys, d);
    keys[FirstPresent(keys, d, 0)]
  }

  lemma PresentAt(keys: seq<string>, d: Dict<Val>)
    requires exists k :: k in keys && k in d.values
    ensures exists j :: 0 <= j < |keys| && keys[j] in d.values
  {
    var k :| k in keys && k in d.values;
    var j :| 0 <= j < |keys| && keys[j] == k;
  }

  /** The position of the first of `keys` from `from` on that the dictionary has. */
  function FirstPresent(keys: seq<string>, d: Dict<Val>, from: nat): (i: nat)
    requires exists j :: from <= j < |keys| && keys[j] in d.values
    ensures from <= i < |keys| && keys[i] in d.values
    ensures forall j :: from <= j < i ==> keys[j] !in d.values
    decreases |keys| - from
  {
    if keys[from] in d.values then from else FirstPresent(keys, d, from + 1)
  }

  /** A dictionary with `response_curves` answers that entry, whatever else it holds. */
  lemma StoredCurvesPriority(d: Dict<Val>, predicted: string -> Option<Prediction>, hill: (real, real, real) -> real)
    ensures "response_curves" in d.values ==> ResponseCurves(DictData(d), predicted, hill) == Stored(d.values["response_curves"])
    ensures "response_curves" !in d.values && "curves" in d.values
            ==> ResponseCurves(DictData(d), predicted, hill) == Stored(d.values["curves"])
    ensures (forall k :: k in CurveKeys ==> k !in d.values) ==> ResponseCurves(DictData(d), predicted, hill) == NoCurves
  {
  }

  /**
   * A Meridian model always answers with a curve for some of its channels;
   * one without curve parameters answers for every channel with the curve
   * derived from its position.
   */
  lemma MeridianCurvesCover(names: seq<string>, a: ObjectAttrs, predicted: string -> Option<Prediction>,
                            hill: (real, real, real) -> real)
    requires |names| > 0
    ensures MeridianCurves(names, a, predicted, hill).keys != []
    ensures !a.predictResponseCurves && a.adstockHillMedia.None? && !a.hillSaturation ==>
      forall k :: k in MeridianCurves(names, a, predicted, hill).values <==> k in names
  {
    var r := MeridianCurves(names, a, predicted, hill);
    var final := (i: nat) => Some(FinalCurve(i));
    assert final(0).Some?;
    assert names[0] in Gather(names, final, |names|).values;
    if !a.predictResponseCurves && a.adstockHillMedia.None? && !a.hillSaturation {
      var f := (i: nat) => Some(StructureCurve(i));
      assert f(0).Some?;
      assert names[0] in Gather(names, f, |names|).values;
      forall k | k in names ensures k in r.values {
        var i :| 0 <= i < |names| && names[i] == k;
        assert f(i).Some?;
      }
    }
  }

  /**
   * The Hill-parameter curve starts at zero and its saturation point is a
   * spend of the grid, never above its top.
   */
  lemma HillCurveShape(alpha: real, gamma: real, i: nat, n: nat, hill: (real, real, real) -> real)
    requires n > 0
    ensures var c := HillCurve(alpha, gamma, i, n, hill);
      c.response[0] == 0.0 && 0.0 <= c.saturationPoint <= CurveSpendMax
  {
    var c := HillCurve(alpha, gamma, i, n, hill);
    var spend := SpendGrid();
    assert c.saturationPoint in spend || c.saturationPoint == spend[CurveGridPoints - 1] * 0.7;
  }

  /** Every key of `m` holds the curve `g` gives it. */
  ghost predicate OwnCurves(m: map<string, CurveRecord>, g: string -> Option<CurveRecord>)
  {
    forall k :: k in m ==> g(k) == Some(m[k])
  }

  /** The curve computed at each of the first `n` positions depends only on the channel there. */
  ghost predicate ByChannel(names: seq<string>, f: nat -> Option<CurveRecord>, g: string -> Option<CurveRecord>, n: nat)
    requires n <= |names|
  {
    forall i :: 0 <= i < n ==> f(i) == g(names[i])
  }

  /**
   * When the curve computed at each position depends only on the channel
   * there, every channel collected holds its own curve.
   */
  lemma {:induction false} GatherByKey(names: seq<string>, f: nat -> Option<CurveRecord>,
                                       g: string -> Option<CurveRecord>, n: nat)
    requires n <= |names| && ByChannel(names, f, g, n)
    ensures OwnCurves(Gather(names, f, n).values, g)
  {
    if n > 0 {
      assert ByChannel(names, f, g, n - 1);
      GatherByKey(names, f, g, n - 1);
      var init := Gather(names, f, n - 1);
      if f(n - 1).Some? {
        var c := f(n - 1).value;
        assert g(names[n - 1]) == Some(c);
        assert Gather(names, f, n).values == init.values[names[n - 1] := c];
        OwnValues(init.values, names[n - 1], c, g);
      } else {
        assert Gather(names, f, n) == init;
      }
    } else {
      assert Gather(names, f, n).values == map[];
    }
  }

  /** Storing a key's own value keeps every key of a map holding its own value. */
  lemma OwnValues(m: map<string, CurveRecord>, key: string, c: CurveRecord, g: string -> Option<CurveRecord>)
    requires g(key) == Some(c) && OwnCurves(m, g)
    ensures OwnCurves(m[key := c], g)
  {
  }



  /** The curve a channel gets from its prediction, if the prediction can be made and recorded. */
  function PredictedFor(predicted: string -> Option<Prediction>, k: string): (c: Option<CurveRecord>)
    ensures c.Some? <==> predicted(k).Some? && PredictedCurve(predicted(k).value).Some?
    ensures c.Some? ==> c == PredictedCurve(predicted(k).value)
  {
    match predicted(k)
    case None => None
    case Some(p) => PredictedCurve(p)
  }

  /**
   * The curves collected from the predictions, one position at a time:
   * the curve at each position is the one its channel's prediction gives.
   */
  function PredictedAt(names: seq<string>, predicted: string -> Option<Prediction>): (f: nat -> Option<CurveRecord>)
    ensures ByChannel(names, f, k => PredictedFor(predicted, k), |names|)
  {
    (i: nat) => if i < |names| then PredictedFor(predicted, names[i]) else None
  }

  /**
   * A Meridian model that can predict, and for which at least one channel's
   * prediction gives a curve, answers with exactly the channels whose
   * prediction gives a curve, each with the curve recorded from its own
   * prediction; from a dictionary result, which never has the channel as
   * an attribute, every response is empty.
   */
  lemma MeridianPredictedCurves(names: seq<string>, a: ObjectAttrs, predicted: string -> Option<Prediction>,
                                hill: (real, real, real) -> real)
    requires |names| > 0 && a.predictResponseCurves
    requires exists i :: 0 <= i < |names| && PredictedFor(predicted, names[i]).Some?
    ensures var r := MeridianCurves(names, a, predicted, hill);
      (forall k :: k in r.values <==> k in names && PredictedFor(predicted, k).Some?)
      && (forall k :: k in r.values ==>
            Some(r.values[k]) == PredictedCurve(predicted(k).value) && r.values[k].spend == SpendGrid())
      && (forall k :: k in r.values && !predicted(k).value.hasAttribute ==> r.values[k].response == [])
  {
    var f := PredictedAt(names, predicted);
    var curves := Gather(names, f, |names|);
    PredictedGathered(names, predicted);
    assert MeridianCurves(names, a, predicted, hill) == curves;
  }

  /** What the predictions gather: their channels, each with its own recorded curve. */
  lemma PredictedGathered(names: seq<string>, predicted: string -> Option<Prediction>)
    requires exists i :: 0 <= i < |names| && PredictedFor(predicted, names[i]).Some?
    ensures var r := Gather(names, PredictedAt(names, predicted), |names|);
      r.keys != []
      && (forall k :: k in r.values <==> k in names && PredictedFor(predicted, k).Some?)
      && (forall k :: k in r.values ==> Some(r.values[k]) == PredictedFor(predicted, k))
  {
    PredictedMembers(names, predicted);
    GatherByKey(names, PredictedAt(names, predicted), k => PredictedFor(predicted, k), |names|);
  }

  /** The predictions gather exactly the channels whose prediction gives a curve, at least one. */
  lemma PredictedMembers(names: seq<string>, predicted: string -> Option<Prediction>)
    requires exists i :: 0 <= i < |names| && PredictedFor(predicted, names[i]).Some?
    ensures var r := Gather(names, PredictedAt(names, predicted), |names|);
      r.keys != [] && forall k :: k in r.values <==> k in names && PredictedFor(predicted, k).Some?
  {
    var f := PredictedAt(names, predicted);
    var r := Gather(names, f, |names|);
    forall k ensures k in r.values <==> k in names && PredictedFor(predicted, k).Some? {
      if k in r.values {
        var i :| 0 <= i < |names| && names[i] == k && f(i).Some?;
        assert f(i) == PredictedFor(predicted, k);
      }
      if k in names && PredictedFor(predicted, k).Some? {
        var i :| 0 <= i < |names| && names[i] == k;
        assert f(i) == PredictedFor(predicted, k);
      }
    }
    var i0 :| 0 <= i0 < |names| && PredictedFor(predicted, names[i0]).Some?;
    assert names[i0] in r.values;
    assert names[i0] in r.keys;
  }

  // ---------------------------------------------------------------------
  // The loader

  /** `MMMModelLoader`: the configuration it was built with and the data it has loaded, if any. */
  class ModelLoader {
    const path: string
    const useMockData: bool
    /** Whether the model file exists, its size in megabytes, and what loading it does. */
    const fileExists: bool
    const sizeMb: real
    const attempt: Attempt
    /** What `generate_mock_mmm_data()` returns. */
    const mock: ModelData
    var modelData: Option<ModelData>

    constructor (path: string, useMockData: bool, fileExists: bool, sizeMb: real, attempt: Attempt, mock: ModelData)
      ensures this.path == path && this.useMockData == useMockData && this.fileExists == fileExists
      ensures this.sizeMb == sizeMb && this.attempt == attempt && this.mock == mock
      ensures modelData.None?
    {
      this.path := path;
      this.useMockData := useMockData;
      this.fileExists := fileExists;
      this.sizeMb := sizeMb;
      this.attempt := attempt;
      this.mock := mock;
      modelData := None;
    }

    /** `load_model()`: never raises; keeps and returns what it loaded. */
    method LoadModel() returns (data: ModelData)
      modifies this
      ensures data == LoadedData(useMockData, fileExists, attempt, mock)
      ensures modelData == Some(data)
    {
      if useMockData {
        modelData := Some(mock);
        return mock;
      }
      if !fileExists {
        modelData := Some(mock);
        return mock;
      }
      match attempt {
        case Loads(d) =>
          data := d;
        case ImportFails =>
          data := mock;
        case Raises(_) =>
          data := mock;
      }
      modelData := Some(data);
    }

    /**
     * The data a getter works on: what is kept, else what loading keeps,
     * which is the mock data unless the model file really loads.
     */
    function Current(): (data: ModelData)
      reads this
      ensures modelData.Some? ==> data == modelData.value
      ensures modelData.None? && data != mock ==>
        !useMockData && fileExists && attempt.Loads? && data == attempt.data
    {
      if modelData.Some? then modelData.value else LoadedData(useMockData, fileExists, attempt, mock)
    }

    /** Every getter loads first when nothing is kept, and keeps what it loaded. */
    method Ensure() returns (data: ModelData)
      modifies this
      ensures data == old(Current()) && modelData == Some(data)
    {
      if modelData.None? {
        data := LoadModel();
      } else {
        data := modelData.value;
      }
    }

    /** `get_model_info()`. */
    method GetModelInfo() returns (r: Result<Dict<Val>>)
      modifies this
      ensures modelData == Some(old(Current()))
      ensures r == ModelInfo(old(Current()), path, if fileExists then sizeMb else 0.0)
    {
      var data := Ensure();
      r := ModelInfo(data, path, if fileExists then sizeMb else 0.0);
    }

    /** `get_media_channels()`. */
    method GetMediaChannels() returns (r: Result<Val>)
      modifies this
      ensures modelData == Some(old(Current()))
      ensures r == MediaChannels(old(Current()))
    {
      var data := Ensure();
      r := MediaChannels(data);
    }

    /** `get_contribution_data()`. */
    method GetContributionData() returns (r: Result<Option<Val>>)
      modifies this
      ensures modelData == Some(old(Current()))
      ensures r == ContributionData(old(Current()))
    {
      var data := Ensure();
      r := ContributionData(data);
    }

    /** `get_response_curves()`. */
    method GetResponseCurves(predicted: string -> Option<Prediction>, hill: (real, real, real) -> real)
      returns (r: CurvesAnswer)
      modifies this
      ensures modelData == Some(old(Current()))
      ensures r == ResponseCurves(old(Current()), predicted, hill)
    {
      var data := Ensure();
      r := ResponseCurves(data, predicted, hill);
    }
  }

  /**
   * A loader asked for mock data answers from the mock data whatever the
   * file holds: the ten mock channels, model information tagged as mock
   * data, the mock contribution frame and the mock curves.
   */
  lemma MockLoaderAnswers(path: string, fileExists: bool, sizeMb: real, attempt: Attempt, weeks: nat,
                          curves: Val, summary: Val, fit: Val, predicted: string -> Option<Prediction>,
                          hill: (real, real, real) -> real)
    ensures var data := LoadedData(true, fileExists, attempt, MockData(weeks, curves, summary, fit));
      MediaChannels(data) == Ok(Names(MockChannels))
      && ModelInfo(data, path, sizeMb).Ok? && Tagged(ModelInfo(data, path, sizeMb).value, "mock", false)
      && ContributionData(data) == Ok(Some(Frame(Names(MockChannels).items, weeks)))
      && ResponseCurves(data, predicted, hill) == Stored(curves)
  {
    var data := MockData(weeks, curves, summary, fit);
    MockEntries(weeks, curves, summary, fit);
    assert MediaChannels(data) == Ok(Names(MockChannels));
    ModelInfoSource(data, path, sizeMb);
    assert "response_curves" in CurveKeys && "response_curves" in data.d.values;
  }

  /** The entries of the mock data the getters read. */
  lemma MockEntries(weeks: nat, curves: Val, summary: Val, fit: Val)
    ensures var d := MockData(weeks, curves, summary, fit).d;
      "model_info" in d.values && "contribution_data" in d.values && "response_curves" in d.values
      && d.values["model_info"].Table? && "channels" in d.values["model_info"].d.values && d.values["model_info"].d.values["channels"] == Names(MockChannels)
      && d.values["contribution_data"] == Frame(Names(MockChannels).items, weeks)
      && d.values["response_curves"] == curves
  {
    var keys := ["model_info", "spend_data", "contribution_data", "response_curves", "channel_summary", "model_fit"];
    var frame := Frame(Names(MockChannels).items, weeks);
    var infoKeys := ["model_type", "version", "training_period", "channels", "data_frequency", "total_weeks"];
    var infoVals := [Text("Google Meridian MMM"), Text("mock_v1.0"), Text("2022-01-01 to 2023-12-31"),
                     Names(MockChannels), Text("weekly"), Number(weeks as real)];
    var vals := [TableOf(infoKeys, infoVals), frame, frame, curves, summary, fit];
    var d := MockData(weeks, curves, summary, fit).d;
    assert d.keys[0] in d.values && d.keys[2] in d.values && d.keys[3] in d.values;
    TableAt(keys, vals, 0);
    TableAt(keys, vals, 2);
    TableAt(keys, vals, 3);
    TableAt(infoKeys, infoVals, 3);
  }
}
