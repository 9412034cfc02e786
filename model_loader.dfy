/**
 * The model-loading helpers next to the cached loader: reading channel names
 * off a model, cleaning a list of channel names, and describing a model.
 * The two module constants the helpers fall back on (the default channel
 * names and the required model attributes) are never defined, so every
 * branch that reads them fails with a NameError.
 */
module ModelLoader {
  import opened Py
  import opened Artifact

  // ---------------------------------------------------------------------
  // Channel names

  /** The NameError raised by a branch that reads the missing default channel list. */
  const NoDefaults := NameError("DEFAULT_CHANNEL_NAMES")

  /**
   * `extract_channel_names`: the names the model provides, tried in the
   * usual order; with none of them the default list is read, which fails.
   */
  function ExtractChannelNames(m: Model): (r: Result<seq<string>>)
    ensures r.Ok? <==> ListedChannelNames(m).Some?
    ensures r.Ok? ==> r.value == ListedChannelNames(m).value
    ensures r.Err? ==> r.error == NoDefaults
  {
    match ListedChannelNames(m)
    case Some(names) => Ok(names)
    case None => Err(NoDefaults)
  }

  /** The cleaned name at position `i`: the stripped string, or `Channel{i}` for a non-string or a blank one. */
  function CleanName(channel: Value, i: nat): (name: string)
    ensures channel.Str? && Strip(channel.s) != "" ==> name == Strip(channel.s)
    ensures !(channel.Str? && Strip(channel.s) != "") ==> name == "Channel" + NatToString(i)
  {
    if channel.Str? && Strip(channel.s) != "" then Strip(channel.s)
    else "Channel" + NatToString(i)
  }

  /** A cleaned name is non-blank and has no whitespace at either end. */
  lemma CleanNameStripped(channel: Value, i: nat)
    ensures var name := CleanName(channel, i);
      name != "" && Strip(name) == name
  {
    var name := CleanName(channel, i);
    if channel.Str? && Strip(channel.s) != "" {
      assert name == Strip(channel.s);
      StripIdempotent(channel.s);
    } else {
      assert name == "Channel" + NatToString(i);
      PlaceholderStripped(i);
    }
  }

  /** `Channel{i}` has no whitespace at either end. */
  lemma PlaceholderStripped(i: nat)
    ensures Strip("Channel" + NatToString(i)) == "Channel" + NatToString(i)
  {
    var s := "Channel" + NatToString(i);
    var d := NatToString(i);
    assert s[|s| - 1] == d[|d| - 1];
    NotSpace(d[|d| - 1]);
    assert s[0] == 'C';
    StripUnchanged(s);
  }

  /**
   * `validate_channel_names`: an empty list reads the missing defaults;
   * otherwise each entry is cleaned in place of its position.
   */
  function Validated(channels: seq<Value>): (r: Result<seq<string>>)
    ensures r.Err? <==> channels == []
    ensures r.Err? ==> r.error == NoDefaults
    ensures r.Ok? ==>
      |r.value| == |channels|
      && forall i :: 0 <= i < |channels| ==> r.value[i] == CleanName(channels[i], i)
  {
    if channels == [] then Err(NoDefaults)
    else Ok(seq(|channels|, i requires 0 <= i < |channels| => CleanName(channels[i], i)))
  }

  /** The loop of `validate_channel_names`, appending one cleaned name per entry. */
  method ValidateChannelNames(channels: seq<Value>) returns (r: Result<seq<string>>)
    ensures r == Validated(channels)
  {
    if channels == [] {
      return Err(NoDefaults);
    }
    var validated: seq<string> := [];
    for i := 0 to |channels|
      invariant Cleaned(validated, channels, i)
    {
      var channel := channels[i];
      var name;
      if !channel.Str? {
        name := "Channel" + NatToString(i);
      } else if Strip(channel.s) == "" {
        name := "Channel" + NatToString(i);
      } else {
        name := Strip(channel.s);
      }
      CleanedStep(validated, channels, i, name);
      validated := validated + [name];
    }
    CleanedAll(validated, channels);
    r := Ok(validated);
  }

  /** `validated` holds the cleaned names of the first `i` entries. */
  predicate Cleaned(validated: seq<string>, channels: seq<Value>, i: nat)
  {
    i <= |channels| && |validated| == i
    && forall k :: 0 <= k < i ==> validated[k] == CleanName(channels[k], k)
  }

  lemma CleanedStep(validated: seq<string>, channels: seq<Value>, i: nat, name: string)
    requires Cleaned(validated, channels, i) && i < |channels| && name == CleanName(channels[i], i)
    ensures Cleaned(validated + [name], channels, i + 1)
  {
  }

  lemma CleanedAll(validated: seq<string>, channels: seq<Value>)
    requires channels != [] && Cleaned(validated, channels, |channels|)
    ensures Validated(channels) == Ok(validated)
  {
    var v := Validated(channels).value;
    forall k | 0 <= k < |v| ensures v[k] == validated[k] {
    }
    assert v == validated;
  }

  /** The strings of a list of names, as the validator receives them. */
  function AsValues(names: seq<string>): (vs: seq<Value>)
    ensures |vs| == |names| && forall i :: 0 <= i < |names| ==> vs[i] == Str(names[i])
  {
    seq(|names|, i requires 0 <= i < |names| => Str(names[i]))
  }

  /** Cleaning a cleaned list changes nothing: its names are non-blank and already stripped. */
  lemma ValidatedIdempotent(channels: seq<Value>)
    requires channels != []
    ensures Validated(AsValues(Validated(channels).value)) == Validated(channels)
  {
    var names := Validated(channels).value;
    var again := Validated(AsValues(names)).value;
    forall i | 0 <= i < |names| ensures again[i] == names[i] {
      CleanNameIdempotent(channels[i], i);
    }
    assert again == names;
  }

  /** A cleaned name cleans to itself at the same position. */
  lemma CleanNameIdempotent(channel: Value, i: nat)
    ensures CleanName(Str(CleanName(channel, i)), i) == CleanName(channel, i)
  {
    CleanNameStripped(channel, i);
  }

  // ---------------------------------------------------------------------
  // Model information

  /** The dictionary `get_model_info` answers with. */
  datatype ModelReport = ModelReport(modelType: string, hasRequiredAttributes: bool,
                                     missingAttributes: seq<string>, channelCount: nat,
                                     attributes: seq<string>, error: Option<string>)

  /**
   * The model type from the class name and `str(type(model))`: a fallback
   * class first, then anything naming Meridian, else the class name.
   */
  function ModelType(className: string, typeText: string): (t: string)
    ensures Contains(className, "Fallback") ==> t == "Fallback MMM Model"
    ensures !Contains(className, "Fallback")
            && (Contains(className, "Meridian") || Contains(Lower(typeText), "meridian"))
            ==> t == "Google Meridian"
    ensures !Contains(className, "Fallback") && !Contains(className, "Meridian")
            && !Contains(Lower(typeText), "meridian")
            ==> t == className
  {
    if Contains(className, "Fallback") then "Fallback MMM Model"
    else if Contains(className, "Meridian") || Contains(Lower(typeText), "meridian") then "Google Meridian"
    else className
  }

  /** The text of the NameError raised on reading the missing attribute list. */
  const NoRequiredAttributes := "name 'REQUIRED_MODEL_ATTRIBUTES' is not defined"

  /**
   * `get_model_info` as written: None is a TypeError; otherwise the model
   * type is set, and reading the undefined attribute list raises at once,
   * which the handler records, so the attribute lists stay empty and the
   * channel count stays 0.
   */
  function GetModelInfo(model: Option<Model>): (r: Result<ModelReport>)
    ensures model.None? <==> r.Err?
    ensures r.Err? ==> r.error == TypeError("Model cannot be None")
  {
    match model
    case None => Err(TypeError("Model cannot be None"))
    case Some(m) =>
      Ok(ModelReport(ModelType(m.className, m.typeName), true, [], 0, [], Some(NoRequiredAttributes)))
  }

  /**
   * Whatever channels the model lists, the report as written counts none
   * and carries the NameError.
   */
  lemma ModelInfoCountsNoChannels(m: Model)
    ensures GetModelInfo(Some(m)).Ok?
    ensures var report := GetModelInfo(Some(m)).value;
      report.channelCount == 0 && report.attributes == [] && report.missingAttributes == []
      && report.error == Some(NoRequiredAttributes)
      && report.modelType == ModelType(m.className, m.typeName)
  {
  }

  /** A model listing three channels for which the report as written counts zero. */
  lemma ModelInfoCountExample()
    ensures var m := Model("Meridian", "<class 'meridian.model.model.Meridian'>", None, None, None, None, None,
                           Some(3), None);
      |ExtractChannelNames(m).value| == 3 && GetModelInfo(Some(m)).value.channelCount == 0
  {
    var m := Model("Meridian", "<class 'meridian.model.model.Meridian'>", None, None, None, None, None,
                   Some(3), None);
    assert ListedChannelNames(m) == Some(NumberedChannels(3));
  }

  /** The attributes among `names` that the model has, in order. */
  function Present(names: seq<string>, has: set<string>): (r: seq<string>)
    ensures forall a :: a in r <==> a in names && a in has
    ensures |r| <= |names|
  {
    if names == [] then []
    else Present(names[..|names| - 1], has)
         + (if names[|names| - 1] in has then [names[|names| - 1]] else [])
  }

  /** The attributes among `names` that the model lacks, in order. */
  function Absent(names: seq<string>, has: set<string>): (r: seq<string>)
    ensures forall a :: a in r <==> a in names && a !in has
    ensures |r| <= |names|
  {
    if names == [] then []
    else Absent(names[..|names| - 1], has)
         + (if names[|names| - 1] !in has then [names[|names| - 1]] else [])
  }

  /** Every listed attribute is either present or missing, never both. */
  lemma {:induction false} PresentAbsentSplit(names: seq<string>, has: set<string>)
    ensures multiset(Present(names, has)) + multiset(Absent(names, has)) == multiset(names)
  {
    if names != [] {
      var init := names[..|names| - 1];
      PresentAbsentSplit(init, has);
      assert names == init + [names[|names| - 1]];
    }
  }

  /**
   * `get_model_info` with the two attribute lists supplied: the loop sorts
   * every listed attribute into present or missing, `has_required_attributes`
   * says whether every required one is present, and the channel count is
   * the number of extracted names, or 0 when extraction fails.
   */
  method GetModelInfoIntended(model: Option<Model>, has: set<string>, required: seq<string>, optional: seq<string>)
    returns (r: Result<ModelReport>)
    ensures model.None? <==> r.Err?
    ensures r.Err? ==> r.error == TypeError("Model cannot be None")
    ensures r.Ok? ==>
      var m := model.value;
      r.value.modelType == ModelType(m.className, m.typeName)
      && r.value.attributes == Present(required + optional, has)
      && r.value.missingAttributes == Absent(required + optional, has)
      && (r.value.hasRequiredAttributes <==> forall a :: a in required ==> a in has)
      && r.value.channelCount == (if ListedChannelNames(m).Some? then |ListedChannelNames(m).value| else 0)
      && r.value.error.None?
  {
    if model.None? {
      return Err(TypeError("Model cannot be None"));
    }
    var m := model.value;
    var modelType := ModelType(m.className, m.typeName);
    var all := required + optional;
    var present: seq<string> := [];
    var missing: seq<string> := [];
    for i := 0 to |all|
      invariant present == Present(all[..i], has)
      invariant missing == Absent(all[..i], has)
    {
      assert all[..i + 1][..i] == all[..i];
      if all[i] in has {
        present := present + [all[i]];
      } else {
        missing := missing + [all[i]];
      }
    }
    assert all[..|all|] == all;
    var hasRequired := forall a :: a in required ==> a in has;
    var channels := ExtractChannelNames(m);
    var count := if channels.Ok? then |channels.value| else 0;
    r := Ok(ModelReport(modelType, hasRequired, missing, count, present, None));
  }
}
