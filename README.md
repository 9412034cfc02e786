# Marketing-mix analytics engine, modelled in Dafny

This project models the analytics engine of the marketing analytics dashboard's API and proves properties of it. The engine takes a loaded Google Meridian marketing-mix model (MMM) and turns it into:

- per-channel contribution series and their statistics;
- channel summaries with contribution shares and efficiencies;
- response curves with saturation points, efficiencies and adstock rates;
- the rule-based insights and recommendations of the export endpoint.

Models are loaded through single-slot caches. The loaders fall back on a synthetic model when the Meridian package is not installed, or on mock data in the older loader. Three in-memory test doubles (users, authentication and the MMM service) keep state of their own and are modelled as classes.

The modules follow the program's files:

| module | models |
|---|---|
| `Service` | the model service (`mmm_service.py`): fallback model, channel names, contribution data, response curves, channel summary |
| `ModelCache` | `lru_cache(maxsize=1)` around `_load_model_cached` and `load_mmm_model`, whose bodies are the same `LoadModel` |
| `ModelLoader` | the package's channel-name extraction and validation, and `get_model_info` |
| `CurveGenerator`, `LegacyCurveGenerator`, `CurveMath` | the two response-curve generators and the saturation search they share with the service |
| `DataProcessor`, `DataProcessorLegacy`, `Contributions`, `Fills` | the two data processors, with the series, statistics and fill loop they share |
| `Insights` | `generate_insights_data` of the export endpoint |
| `MmmUtils` | the older `MMMModelLoader` of the first API |
| `MockUsers`, `MockAuth`, `MockMMM` | the three test doubles |
| `Artifact`, `Schemas`, `Floats`, `Dicts`, `Py` | the loaded model object, the returned records, IEEE doubles without rounding, insertion-ordered dictionaries, and the parts of Python's runtime the code relies on |

Numbers are exact reals. Tensor and posterior entries are `Float` values: finite, ±infinity or NaN. These keep the special cases that Python's `max`/`min` and numpy's reductions treat differently. The response of a curve at a spend point is a given real, so the guards on marginal returns see finite values only (see Service.BuiltCurve under "## Left out").

The following are parameters of the model:

- the random draws, such as the fallback series, the fallback model and the mock figures;
- the response of a Hill or power curve at a spend point;
- the outcome of loading a file.

## Model

| member | source | states |
|---|---|---|
| Service.FallbackSpend | apps/api/app/services/mmm_service.py:101-105 | the fallback spend tensor has 40 geos, 156 periods and 5 channels, and each entry is the running sum of that geo's and channel's base spend up to the period |
| Service.GeoTotal | apps/api/app/services/mmm_service.py:108 | the total spend has one row per period and one column per channel, each the sum over the geos |
| Service.PlainChannels | apps/api/app/services/mmm_service.py:117 | the fallback model's columns are `Channel0` … `Channel{n-1}` |
| Service.FallbackModel | apps/api/app/services/mmm_service.py:77-119 | the fallback model's spend tensor is the accumulated base spend |
| Service.FallbackModelInfo | apps/api/app/services/mmm_service.py:77-156 | the fallback model names its channels `Channel0` … `Channel4`, and its model information reports 156 weeks |
| Service.ChannelNames | apps/api/app/services/mmm_service.py:330-360 | a model that failed to load, or lists no names, has the five default channels; otherwise the names the model lists |
| Service.GetChannelNames | apps/api/app/services/mmm_service.py:162-168 | asking for the channel names never fails, because the lookup it wraps catches everything |
| Service.ChannelNamesPriority | apps/api/app/services/mmm_service.py:336-351 | media columns win over every other source, the specification's names come next, and an empty list arises only from a model that lists no names |
| Service.ModelInfoOf | apps/api/app/services/mmm_service.py:132-160 | the call fails exactly when loading failed, with MMMModelError("Failed to get model info: " + the loader's message); otherwise the fixed metadata with the channel names and the model's number of periods, 104 when it has none |
| Service.Targets | apps/api/app/services/mmm_service.py:180-204 | the selected channels are the data processor's selection, and an unknown non-empty channel is MMMModelError("Channel '…' not found in model") |
| Service.RoiData | apps/api/app/services/mmm_service.py:188-191 | ROI means are found exactly when the posterior has `roi_m`; otherwise MMMModelError("No ROI data found in model posterior") |
| Service.SpendTensorOf | apps/api/app/services/mmm_service.py:194-198 | the spend tensor is read exactly when the model has one; otherwise an AttributeError |
| Service.ChannelSeries | apps/api/app/services/mmm_service.py:210-229 | inside the ROI and the spend data a channel's series is the ROI times its averaged spend (as in the data processor); outside, it is 156 finite drawn values |
| Service.OutcomeMeaning | apps/api/app/services/mmm_service.py:210-235 | computing a channel fails exactly when its index is inside the data and there are no periods, with numpy's ValueError; otherwise its series and numpy's statistics of it |
| Service.Collected | apps/api/app/services/mmm_service.py:201-242 | returned data and summary dictionaries are well formed and share their keys; what they hold is stated by `CollectedErrors` and `LoopPayload` |
| Service.ContributionsOf | apps/api/app/services/mmm_service.py:176-242 | returned data and summary dictionaries are well formed and share their keys; what they hold is stated by `ContributionErrors` and `ContributionPayload` |
| Service.ContributionDataOf | apps/api/app/services/mmm_service.py:170-246 | every failure, loading included, is an MMMModelError whose message starts "Failed to get contribution data: " |
| Service.GetContributionData | apps/api/app/services/mmm_service.py:170-246 | the loop over the channel names computes `ContributionDataOf` |
| Service.LoopMeaning | apps/api/app/services/mmm_service.py:206-235 | the loop fails exactly when a selected channel inside the data has no periods, with a ValueError; otherwise it fills nothing exactly when nothing is selected |
| Service.LoopErrors | apps/api/app/services/mmm_service.py:206-235 | the loop raises exactly when a selected channel inside the data has no time periods, and what it raises is numpy's ValueError |
| Service.LoopKeys | apps/api/app/services/mmm_service.py:206-235 | a loop that does not raise fills a valid dictionary that is empty exactly when no channel name is selected |
| Service.CollectedErrors | apps/api/app/services/mmm_service.py:206-241 | from the ROI on, the data fails exactly when a selected channel has no periods (ValueError) or nothing is selected (StopIteration from the shape) |
| Service.ContributionErrors | apps/api/app/services/mmm_service.py:176-241 | contribution data fails on an unknown channel, a missing posterior or spend tensor (AttributeError), a missing ROI (MMMModelError), and otherwise only on no channel names or no periods; with ROI and periods it fails exactly when there are no names |
| Service.UnknownChannelReported | apps/api/app/services/mmm_service.py:180-246 | an unknown channel is reported as "Failed to get contribution data: Channel '…' not found in model", which still says "not found in model" |
| Service.UnknownChannelRejected | apps/api/app/services/mmm_service.py:180-181 | an unknown channel is rejected by name before anything is read from the model |
| Service.UnknownChannel | apps/api/app/services/mmm_service.py:181 | the message holds the channel name between "Channel '" and "' not found in model", and ends with "not found in model" |
| Service.UnknownChannelNamed | apps/api/app/services/mmm_service.py:181 | behind any prefix the message still says "not found in model" |
| Service.LoadFailureReported | apps/api/app/services/mmm_service.py:177-246 | a failed load is reported behind the operation's prefix with the loader's own message |
| Service.LoopPayload | apps/api/app/services/mmm_service.py:206-235 | a successful loop fills both dictionaries with exactly the targets; each series is the one computed at the channel's last position and its statistics are numpy's |
| Service.ContributionPayload | apps/api/app/services/mmm_service.py:176-242 | returned data lists the channels asked for; both dictionaries hold exactly those; each series and its statistics are the computed ones; the shape is the number of channels by the periods (or the 156 drawn periods) |
| Service.AllChannelsReturned | apps/api/app/services/mmm_service.py:204-242 | without a filter, the returned channels are the model's channel names and every one of them has data |
| Service.SpendTop | apps/api/app/services/mmm_service.py:384-393 | without a spend tensor the top is 100000; with one it fails exactly when the channel's peak cannot be read; any top lies in [50000, 200000] and equals the package generator's |
| Service.PosteriorHill | apps/api/app/services/mmm_service.py:399-457 | Hill parameters come from `ec_m` and `slope_m` when both exist, else from `contr_coef`, else from `roi_m`; they exist exactly when the entries that branch reads are inside their vectors; the `ec_m`/`slope_m` branch gives the package generator's parameters |
| Service.CurveParts | apps/api/app/services/mmm_service.py:381-473 | the curve's inputs are read exactly when the posterior and the spend top are readable and, without posterior Hill parameters, the channel's own contribution data is; the top then lies in the safe band |
| Service.AdstockAgreesWithPackage | apps/api/app/services/mmm_service.py:517-531 | the adstock rate equals the package generator's whenever `alpha_m` exists or none of the three adstock variables does |
| Service.ContributionHill | apps/api/app/services/mmm_service.py:461-473 | Hill parameters from the channel's total contribution over a million: a finite total gives a finite half-saturation spend and slope, and any total short of +infinity gives a finite scale of at least 0.0002 (`max(1.0, total) * 0.0002`) |
| Service.CurveEfficiency | apps/api/app/services/mmm_service.py:500-514 | the efficiency before the floor is the channel's ROI when it can be read; without `roi_m` it is the marginal return at index `len(spend_points) // 3` (33 of 99, so the first-10 mean is never reached); when `roi_m` exists but the channel's entry cannot be read it is the mean of the first 20 marginal returns; in both fallbacks a finite value between the least and the greatest marginal return |
| Service.CurveAdstock | apps/api/app/services/mmm_service.py:516-532 | the adstock rate is the channel's entry of the first of `alpha_m`, `adstock_rate`, `adstock` the posterior has; without one, or past the end of its vector, the default `0.3 + (0.05 idx) % 0.5`, which lies in [0.3, 0.75] |
| Service.BuiltCurve | apps/api/app/services/mmm_service.py:396-540 | a built curve has 100 increasing spend points from 0 to the top and, at each, the given Hill response (finite by construction; see Left out) |
| Service.CurveFor | apps/api/app/services/mmm_service.py:362-557 | the curve builder fails exactly for an unknown channel, with an UnboundLocalError for the index its handler reads |
| Service.CurveForShape | apps/api/app/services/mmm_service.py:373-557 | a known channel always gets a curve: the fallback exactly when reading the model raised; otherwise 100 points from 0 to the top (100000 without spend data), the Hill response at each, a saturation point within 20%–90% of the top, an efficiency of at least 0.001 (the ROI when larger) and the posterior's `alpha_m` as adstock rate |
| Service.BuiltCurveShape | apps/api/app/services/mmm_service.py:396-540 | the same shape facts for a curve built from given parts |
| Service.BuiltCurveSaturation | apps/api/app/services/mmm_service.py:478-498 | a built curve's saturation point lies within 20%..90% of its top |
| Service.BuiltCurveReported | apps/api/app/services/mmm_service.py:500-539 | a built curve's efficiency is at least 0.001 and never NaN, equals the ROI when that is finite and larger, and its adstock rate is `alpha_m`'s entry when there is one |
| Service.LateChannelsPinned | apps/api/app/services/mmm_service.py:488-498 | from the fifth channel on, a curve that never saturates is pinned at 90% of its top, and from the sixth on so is one without a positive return |
| Service.ClampedAtTop | apps/api/app/services/mmm_service.py:496-498 | a fallback ratio past 0.9 is clamped to 90% of the top |
| Service.CurvesOf | apps/api/app/services/mmm_service.py:265-272 | returned curves form a well-formed dictionary |
| Service.CurveAt | apps/api/app/services/mmm_service.py:265-269 | the curve computed at a position fails exactly when the target there is not one of the model's channel names, and past the targets there is no curve |
| Service.ResponseCurvesOf | apps/api/app/services/mmm_service.py:248-276 | every failure is an MMMModelError whose message starts "Failed to get response curves: " |
| Service.GetResponseCurves | apps/api/app/services/mmm_service.py:248-276 | the loop over the targets computes `ResponseCurvesOf` |
| Service.CurvesMeaning | apps/api/app/services/mmm_service.py:258-272 | response curves fail exactly on an unknown channel, with its error; otherwise they hold exactly the channels asked for, each with its built curve, so the builder's UnboundLocalError is never reached |
| Service.AllSummarised | apps/api/app/services/mmm_service.py:287-298 | the unfiltered contribution data lists the channel names, and each has statistics |
| Service.SummaryOf | apps/api/app/services/mmm_service.py:285-320 | a returned summary is a well-formed dictionary |
| Service.ChannelSummaryOf | apps/api/app/services/mmm_service.py:278-324 | every failure is an MMMModelError whose message starts "Failed to get channel summary: " |
| Service.GetChannelSummary | apps/api/app/services/mmm_service.py:278-324 | the loops compute `ChannelSummaryOf` |
| Service.SummaryErrorNamesBoth | apps/api/app/services/mmm_service.py:287-324 | a failure of the contribution data is reported behind both operations' prefixes |
| Service.SharesSumToOneWhenPositive | apps/api/app/services/mmm_service.py:292-318 | with distinct channel names the summary is keyed by the names in order, and when the totals are finite and sum to more than zero, the contribution shares add up to exactly 1 |
| Service.SummaryKeysInOrder | apps/api/app/services/mmm_service.py:206-224 | with distinct names and no filter, the statistics are keyed by the names in order |
| Service.ContributionsReachLoop | apps/api/app/services/mmm_service.py:176-242 | returned contribution data went through the channel check, the ROI and the spend read, and then a successful loop whose dictionaries it returns |
| Service.SummaryKeys | apps/api/app/services/mmm_service.py:297-318 | the summary has a record for exactly the model's channel names |
| Service.SameChannelsEverywhere | apps/api/app/services/mmm_service.py:170-324 | without a filter, contribution data, response curves and the channel summary cover the same channels: the model's channel names |
| Service.FallbackModelCurves | apps/api/app/services/mmm_service.py:373-540 | every channel of the fallback model (lines 77-119) has its curve built from the Hill parameters, its drawn ROI as efficiency, its drawn `alpha_m` as adstock rate and a top in the safe band |
| Service.FallbackModelParts | apps/api/app/services/mmm_service.py:86-116 | for each of its channels the fallback model has a posterior, a spend range and Hill parameters from `ec_m` and `slope_m`; its ROI and `alpha_m` entries are the drawn values |
| ModelLoader.ExtractChannelNames | apps/api/app/services/mmm/mmm_model_loader.py:62-96 | the names are the first source the model provides (media columns, the `media_channel` coordinate, the specification's media names, numbered names); without any, reading the undefined default list is a NameError |
| ModelLoader.CleanName | apps/api/app/services/mmm/mmm_model_loader.py:114-122 | a string entry with non-blank content becomes its stripped text; a non-string or blank entry becomes `Channel{i}` |
| ModelLoader.CleanNameStripped | apps/api/app/services/mmm/mmm_model_loader.py:114-122 | every cleaned name is non-blank and has no surrounding whitespace |
| ModelLoader.Validated | apps/api/app/services/mmm/mmm_model_loader.py:99-127 | an empty list reads the undefined defaults (NameError); otherwise the result has one cleaned name per entry, at the same position, so the count never changes |
| ModelLoader.ValidateChannelNames | apps/api/app/services/mmm/mmm_model_loader.py:99-127 | the loop appending one cleaned name per entry computes `Validated` |
| ModelLoader.ValidatedIdempotent | apps/api/app/services/mmm/mmm_model_loader.py:99-127 | validating an already validated list changes nothing |
| ModelLoader.CleanNameIdempotent | apps/api/app/services/mmm/mmm_model_loader.py:114-122 | a cleaned name cleans to itself at the same position |
| ModelLoader.ModelType | apps/api/app/services/mmm/mmm_model_loader.py:153-160 | a class name containing "Fallback" gives "Fallback MMM Model"; otherwise one containing "Meridian", or a type text containing "meridian" in lower case, gives "Google Meridian"; otherwise the class name |
| ModelLoader.GetModelInfo | apps/api/app/services/mmm/mmm_model_loader.py:130-190 | None is a TypeError("Model cannot be None"); any model gets a report, even though the undefined attribute list makes the body raise |
| ModelLoader.ModelInfoCountsNoChannels | apps/api/app/services/mmm/mmm_model_loader.py:143-188 | as written, every report has the model type, empty attribute lists, a channel count of 0 and the NameError text |
| ModelLoader.ModelInfoCountExample | apps/api/app/services/mmm/mmm_model_loader.py:163-184 | a Meridian model listing three channels is reported with a channel count of 0 |
| ModelLoader.Present | apps/api/app/services/mmm/mmm_model_loader.py:167-169 | the present list holds exactly the listed attributes the model has |
| ModelLoader.Absent | apps/api/app/services/mmm/mmm_model_loader.py:167-171 | the missing list holds exactly the listed attributes the model lacks |
| ModelLoader.PresentAbsentSplit | apps/api/app/services/mmm/mmm_model_loader.py:167-171 | the present and missing lists together are a permutation of the listed attributes |
| ModelLoader.GetModelInfoIntended | apps/api/app/services/mmm/mmm_model_loader.py:130-190 | with the two attribute lists supplied: None is the TypeError; the report has the model type, the present and missing attributes in order, `has_required_attributes` exactly when every required one is present, the number of extracted names (0 when extraction fails) and no error |
| Artifact.Column | apps/api/app/services/mmm_service.py:302 | `total_spend[:, c]` has one entry per time, the entry of column c |
| Artifact.GeoSeries | apps/api/app/services/mmm/mmm_data_processor.py:192 | the values of one time and channel across the geos: one per geo, each the tensor's cell |
| Artifact.GeoMean | apps/api/app/services/mmm/mmm_data_processor.py:192 | `np.mean(media_spend, axis=0)` is a time x channel array whose every entry is the mean over the geos |
| Artifact.ChannelSlice | apps/api/app/services/mmm/mmm_curve_generator.py:127 | `media_spend[:, :, c]` holds one value per geo and time |
| Artifact.ChannelPeak | apps/api/app/services/mmm/mmm_curve_generator.py:127-128 | the maximum of a channel's spend is an IndexError exactly for a channel past the tensor's last, and a ValueError exactly when the tensor has no geos or no times |
| Artifact.PosteriorOf | apps/api/app/services/mmm/mmm_curve_generator.py:71 | the posterior is found exactly when the model has inference data holding one; otherwise an AttributeError |
| Artifact.PosteriorEntry | apps/api/app/services/mmm/mmm_curve_generator.py:143-144 | a channel's posterior mean is found exactly when the variable exists and the index is inside it, and it is that entry |
| Artifact.NumberedChannels | apps/api/app/services/mmm/mmm_model_loader.py:86-88 | `n` names `Channel_0` … `Channel_{n-1}`, none for a negative `n` |
| Artifact.ListedChannelNames | apps/api/app/services/mmm/mmm_model_loader.py:74-88 | names are found exactly when the model has media names, specification names or a channel count |
| Artifact.ListedChannelNamesPriority | apps/api/app/services/mmm/mmm_model_loader.py:74-88 | the sources are tried strictly in order: media columns win, then the specification's names, then numbered names |
| Artifact.MediaSpend | apps/api/app/services/mmm/mmm_curve_generator.py:125-126 | `model.media_tensors.media_spend` is read exactly when both attributes exist, and is that tensor |
| Artifact.MediaNames | apps/api/app/services/mmm/mmm_model_loader.py:74-80 | names come from `input_data.media` exactly when it has columns or a `media_channel` coordinate; columns win |
| ModelCache.CurrSize | apps/api/app/services/mmm_service.py:22 | the single-slot cache holds at most one entry, and none exactly when the slot is empty |
| ModelCache.Call | apps/api/app/services/mmm_service.py:22-23 | every call counts one hit or one miss, and a loader that raises leaves the slot as it was |
| ModelCache.CachedValueReturned | apps/api/app/services/mmm_service.py:22-23 | once a call for a path returned a value, the next call for that path returns the same value as a hit, whatever the loader would do |
| ModelCache.FailureRetried | apps/api/app/services/mmm_service.py:22-23 | a raising loader is not cached: the next call for the path is a miss again and answers what the loader answers then |
| ModelCache.ClearForcesReload | apps/api/tests/unit/test_mmm_caching.py:146-176 | after the cache is cleared, the next call is a miss and answers what the loader answers |
| ModelCache.RunCounts | apps/api/app/services/mmm_service.py:22-23 | over any sequence of calls, hits plus misses grow by the number of calls |
| ModelCache.RunOnCachedKey | apps/api/app/services/mmm_service.py:22-23 | once the slot holds a path, any number of calls for it are all hits |
| ModelCache.Run | apps/api/app/services/mmm_service.py:22-23 | a run of calls never lowers the hit and miss counts, and leaves in the slot either what was there or the key and value of one of its successful loads |
| ModelCache.LoadsOnce | apps/api/app/services/mmm/mmm_model_loader.py:22-23 | repeated calls for one path whose first load succeeds run the loader at most once, and not at all when it was cached |
| ModelCache.ModelObject.constructor | apps/api/app/services/mmm_service.py:38-40 | the loaded object carries the model the loader returned |
| ModelCache.LoadModel | apps/api/app/services/mmm_service.py:23-123 | a missing file is MMMModelError("MMM model file not found at …"); a failing load is MMMModelError("Failed to load MMM model: …"); a successful load returns its model and a missing Meridian package the fallback model |
| ModelCache.CachedLoader.constructor | apps/api/app/services/mmm_service.py:22 | the cache starts empty with both counters at 0 |
| ModelCache.CachedLoader.Load | apps/api/app/services/mmm_service.py:22-123 | a hit returns the cached object itself and counts a hit; a miss runs the loader and returns a new object holding its model, or its error; the new state is the cache's `Call` |
| ModelCache.CachedLoader.Clear | apps/api/tests/unit/test_mmm_caching.py:154-159 | clearing empties the slot and resets both counters |
| ModelCache.CachedLoader.Info | apps/api/app/services/mmm_service.py:22 | the reported size is at most 1 |
| CurveGenerator.NewGenerator | apps/api/app/services/mmm/mmm_curve_generator.py:68-71 | a generator is made exactly when the model has a posterior, and it keeps the model, the names and the posterior; otherwise an AttributeError |
| CurveGenerator.SafeSpend | apps/api/app/services/mmm/mmm_curve_generator.py:129 | the clamped spend always lies within [50000, 200000], and a value already inside is kept; NaN and values below go to the lower bound, values above to the upper |
| CurveGenerator.SpendRangeMax | apps/api/app/services/mmm/mmm_curve_generator.py:122-136 | the top of the range lies in the safe band and is 100000 without a spend tensor; an index past the tensor's channels is an IndexError, which the helper does not catch; otherwise it is twice the channel's peak, clamped |
| CurveGenerator.ChannelEfficiency | apps/api/app/services/mmm/mmm_curve_generator.py:208-217 | a channel's efficiency is its ROI when the posterior has one for it; otherwise it is at least 1.0, and it is 1.0 + 0.2·idx when the posterior has no ROI at all |
| CurveGenerator.ReportedEfficiency | apps/api/app/services/mmm/mmm_curve_generator.py:111 | `max(0.001, e)` is never NaN or below 0.001; it keeps any e above the floor and maps NaN to the floor |
| CurveGenerator.DefaultAdstock | apps/api/app/services/mmm/mmm_curve_generator.py:225-228 | the default adstock rate lies within [0.3, 0.75] |
| CurveGenerator.DefaultAdstockPeriodic | apps/api/app/services/mmm/mmm_curve_generator.py:225-228 | channels ten apart share the default rate, which is 0.3 + 0.05·idx for the first ten |
| CurveGenerator.EcSlopeHill | apps/api/app/services/mmm/mmm_curve_generator.py:142-164 | Hill parameters exist exactly when `ec_m`, `slope_m` and (if present) `roi_m` can be read at the channel; the half-saturation spend is `top * (0.2 + 0.3 ec)`; with an ROI the slope is `0.7 + 0.4 roi + 0.1 idx` and the scale `roi * top * 0.15`, without one `0.8 + 0.2 idx` and `top * 0.3` |
| CurveGenerator.PackageMultiplier | apps/api/app/services/mmm/mmm_curve_generator.py:179-182 | the square-root multiplier of the package's simple curve is `8 + 3 idx`, at least 8 |
| CurveGenerator.ResponseOf | apps/api/app/services/mmm/mmm_curve_generator.py:138-177 | the response is the Hill curve exactly when the posterior gives its parameters, with those parameters; otherwise the square root with the given multiplier |
| CurveGenerator.Evaluate | apps/api/app/services/mmm/mmm_curve_generator.py:160-182 | a Hill response at a spend point is the Hill function there; a square-root response is `s ** 0.5` times the multiplier |
| CurveGenerator.AdstockRate | apps/api/app/services/mmm/mmm_curve_generator.py:219-228 | the adstock rate is the posterior's `alpha_m` for the channel, else the default |
| CurveGenerator.FallbackCurve | apps/api/app/services/mmm/mmm_curve_generator.py:230-244 | the fallback curve has spend points 0, 1000, …, 99000 and the power-law response at each; its saturation point, efficiency and adstock rate grow linearly with the index |
| CurveGenerator.ModelCurve | apps/api/app/services/mmm/mmm_curve_generator.py:96-206 | the model curve has 100 increasing points from 0 to the top; the response at each point is the Hill curve when the posterior gives `ec_m` and `slope_m`, else the square root times the given multiplier; its saturation point is the search's, within 20%..90% of the top; its efficiency is the floored ROI and its adstock rate the posterior's |
| CurveGenerator.ChannelCurve | apps/api/app/services/mmm/mmm_curve_generator.py:93-120 | the curve is the fallback exactly when the spend range raises; otherwise it is the model curve over that range |
| CurveGenerator.GenerateCurve | apps/api/app/services/mmm/mmm_curve_generator.py:73-120 | a missing, non-string or empty channel is a ValueError; an unknown channel escapes as an UnboundLocalError; a known channel gets the curve at its first position |
| CurveGenerator.GenerateCurveKnownChannel | apps/api/app/services/mmm/mmm_curve_generator.py:89-120 | a known channel always gets a curve: the fallback exactly when the spend tensor has too few channels, otherwise 100 points from 0 to a top in the safe band, with a saturation point at 20%..90% of the top and a positive efficiency |
| CurveGenerator.ChannelCurveShape | apps/api/app/services/mmm/mmm_curve_generator.py:93-120 | the same shape, stated for the channel at a given index |
| CurveGenerator.GenerateCurveIntended | apps/api/app/services/mmm/mmm_curve_generator.py:73-91 | as documented: exactly the channels that are missing, empty or unknown are refused, always with a ValueError; a known channel gets the same curve as the code gives it |
| CurveGenerator.UnknownChannelEscapes | apps/api/app/services/mmm/mmm_curve_generator.py:89-117 | an unknown channel escapes as an UnboundLocalError, while the documented behaviour refuses it with a ValueError |
| LegacyCurveGenerator.LegacySpendRangeMax | apps/api/app/services/mmm_curve_generator.py:63-76 | the older top of the range is always in the safe band; it is 100000 without a spend tensor or an indexable channel, and otherwise agrees with the package's |
| LegacyCurveGenerator.LegacyMultiplier | apps/api/app/services/mmm_curve_generator.py:116-118 | the square-root multiplier of the older simple curve is `50 + 20 idx`, larger than the package's `8 + 3 idx` |
| LegacyCurveGenerator.LegacyGenerateCurve | apps/api/app/services/mmm_curve_generator.py:23-61 | only a known string channel gets a curve; any other escapes as an UnboundLocalError; a known channel gets the model curve over the older spend range, whose fallback response is `sqrt(s) * (50 + 20 idx)` |
| LegacyCurveGenerator.LegacyCurveShape | apps/api/app/services/mmm_curve_generator.py:39-161 | every returned curve spans 0 to a top in the safe band in 100 points, with its saturation point at 20%..90% of the top, an efficiency of at least 0.001, and the model's or the default adstock rate |
| LegacyCurveGenerator.RescaledResponses | apps/api/app/services/mmm_curve_generator.py:116-118 | two square-root responses with different multipliers over the same spend points: one is the other scaled by the ratio of the multipliers, and they agree exactly where the square root is zero |
| LegacyCurveGenerator.MultiplierOnlyScales | apps/api/app/services/mmm_curve_generator.py:78-118 | two model curves that differ only in the square-root multiplier share grid, saturation point, efficiency and adstock rate; with Hill parameters they are equal, without them one response is the other scaled |
| LegacyCurveGenerator.LegacyMatchesCurrent | apps/api/app/services/mmm_curve_generator.py:63-118 | where the spend tensor can be indexed, both generators give a known channel the same spend grid, saturation point, efficiency and adstock rate; with Hill parameters the same curve; otherwise the older square-root response is the package's scaled by `(50 + 20 idx) / (8 + 3 idx)`, equal only where the square root is zero; where the tensor cannot be indexed, the package answers the fallback curve and the older generator the curve over the default range |
| CurveMath.Linspace | apps/api/app/services/mmm/mmm_curve_generator.py:97 | `np.linspace` gives n points from lo to hi inclusive, evenly spaced |
| CurveMath.LinspaceStep | apps/api/app/services/mmm/mmm_curve_generator.py:97 | over a non-empty range, a later point is larger |
| CurveMath.LinspaceIncreasing | apps/api/app/services/mmm/mmm_curve_generator.py:97 | over a non-empty range, the points increase strictly and stay within [lo, hi] |
| CurveMath.MaxOfIncreasing | apps/api/app/services/mmm/mmm_curve_generator.py:147-201 | the largest spend point of an increasing range is its last |
| CurveMath.MarginalReturns | apps/api/app/services/mmm/mmm_curve_generator.py:187 | `np.diff(response) / np.diff(spend)`: one slope per segment |
| CurveMath.Differences | apps/api/app/services/mmm/mmm_curve_generator.py:187 | `np.diff` gives one difference per step, and each point plus its difference is the next point |
| CurveMath.FirstBelow | apps/api/app/services/mmm/mmm_curve_generator.py:191-194 | the index found is the first at or after the start whose value is below the threshold; None means no value from there on is below it |
| CurveMath.SaturationSearch | apps/api/app/services/mmm/mmm_curve_generator.py:189-198 | the search reports no positive return exactly when the peak marginal return is not positive; a reported segment is the first after the skip below a tenth of the peak |
| CurveMath.SaturationPoint | apps/api/app/services/mmm/mmm_curve_generator.py:184-206 | the saturation point always lies within 20%..90% of the largest spend |
| CurveMath.ClampedSaturation | apps/api/app/services/mmm/mmm_curve_generator.py:192-202 | each outcome of the search, clamped into 20%..90% of the largest spend |
| CurveMath.SaturationAtFirstFlatSegment | apps/api/app/services/mmm/mmm_curve_generator.py:189-202 | the first flat segment after the skip, when its spend lies within the band, is the saturation point |
| CurveMath.SaturationWithoutReturn | apps/api/app/services/mmm/mmm_curve_generator.py:197-202 | a response that never rises gets the no-return ratio of the largest spend, clamped |
| CurveMath.ScaledBy | apps/api/app/services/mmm/mmm_curve_generator.py:160-164 | every response multiplied by the same factor, keeping the length |
| CurveMath.MarginalScaled | apps/api/app/services/mmm/mmm_curve_generator.py:189 | scaling the responses scales every marginal return `np.diff(r) / np.diff(s)` by the same factor |
| CurveMath.ScaledSameShape | apps/api/app/services/mmm/mmm_curve_generator.py:191-199 | multiplying by a positive factor keeps which returns are positive and which fall below a tenth of the peak |
| CurveMath.SearchSameShape | apps/api/app/services/mmm/mmm_curve_generator.py:191-199 | the saturation search answers alike on two return sequences of the same shape |
| CurveMath.SaturationScaled | apps/api/app/services/mmm/mmm_curve_generator.py:184-206 | scaling a curve's responses by a positive factor leaves its saturation point where it was |
| CurveMath.MarginalsNonPositive | apps/api/app/services/mmm/mmm_curve_generator.py:189-201 | responses that never rise give marginal returns that are all at most zero |
| CurveMath.Clamp | apps/api/app/services/mmm/mmm_curve_generator.py:129-202 | `min(hi, max(lo, x))` lies in [lo, hi], keeps any x inside, and maps values outside to the nearer bound |
| DataProcessor.NewProcessor | apps/api/app/services/mmm/mmm_data_processor.py:28-40 | a processor is made exactly for a model, a non-empty channel list and a posterior; each failure is a ValueError, with the source's messages for a missing model and an empty list |
| DataProcessor.TargetChannels | apps/api/app/services/mmm/mmm_data_processor.py:56-67 | `None` selects every channel, and a known non-blank name selects itself alone; any other argument is a ValueError |
| DataProcessor.RoiData | apps/api/app/services/mmm/mmm_data_processor.py:160-173 | the ROI means are returned exactly when `roi_m` is present and non-empty; otherwise a ValueError |
| DataProcessor.SpendData | apps/api/app/services/mmm/mmm_data_processor.py:175-203 | the spend averaged over geos is returned, non-empty, exactly when the model has a spend tensor with geos; otherwise a ValueError |
| DataProcessor.EffectiveRoi | apps/api/app/services/mmm/mmm_data_processor.py:217-221 | the ROI used is always finite, and is the channel's own ROI when that is finite |
| DataProcessor.ChannelSeriesMeaning | apps/api/app/services/mmm/mmm_data_processor.py:205-237 | a channel's series has one finite value per period: the (effective) ROI times the spend, or 0.0 where that product is not finite |
| DataProcessor.ChannelSeries | apps/api/app/services/mmm/mmm_data_processor.py:205-237 | every channel series has one finite value per time period |
| DataProcessor.CalculateChannelContributions | apps/api/app/services/mmm/mmm_data_processor.py:205-237 | zeroing the invalid products in place on a fresh array yields the channel's series |
| DataProcessor.OutcomeMeaning | apps/api/app/services/mmm/mmm_data_processor.py:71-267 | every channel's outcome is a finite series over the periods, with its finite-value statistics |
| DataProcessor.ContributionDataOf | apps/api/app/services/mmm/mmm_data_processor.py:42-96 | returned contribution data has well-formed dictionaries |
| DataProcessor.GetContributionData | apps/api/app/services/mmm/mmm_data_processor.py:42-96 | the loop over the channel names computes `ContributionDataOf` |
| DataProcessor.ContributionDataErrors | apps/api/app/services/mmm/mmm_data_processor.py:42-96 | contribution data fails exactly when the argument, the ROI or the spend fails, or there are no channels; every failure is a ValueError |
| DataProcessor.ContributionDataPayload | apps/api/app/services/mmm/mmm_data_processor.py:67-89 | otherwise both dictionaries are keyed by exactly the channels asked for; each series is finite with one value per period and carries its finite-value statistics; the shape is the number of channels by the number of periods |
| DataProcessor.ContributionDataIsPayload | apps/api/app/services/mmm/mmm_data_processor.py:67-89 | a successful call returns the payload built from the loop's two dictionaries |
| DataProcessor.SingleChannel | apps/api/app/services/mmm/mmm_data_processor.py:56-89 | with distinct names, asking for one channel gives that channel alone, computed at its position |
| DataProcessor.TotalSpendData | apps/api/app/services/mmm/mmm_data_processor.py:269-279 | a total spend that is present is returned only when it is non-empty |
| DataProcessor.TotalContribution | apps/api/app/services/mmm/mmm_data_processor.py:111 | the floored total contribution is never NaN and never below 1e-10, and is the summed totals when those are a finite number above the floor |
| DataProcessor.GetChannelSummary | apps/api/app/services/mmm/mmm_data_processor.py:98-158 | the summary loop computes `ChannelSummaryOf` |
| DataProcessor.ChannelSummaryOf | apps/api/app/services/mmm/mmm_data_processor.py:98-158 | a returned summary is a well-formed dictionary keyed by the channel names, each once, in the order of first appearance |
| DataProcessor.SummaryEntry | apps/api/app/services/mmm/mmm_data_processor.py:120-149 | a summary record is valid and carries the channel's name, total and weekly mean; the only failure is the record's own validation error |
| DataProcessor.SummaryEntryShare | apps/api/app/services/mmm/mmm_data_processor.py:120-145 | each entry names its channel and carries the channel's total and mean; its share is the total over the floored sum when that sum is above 1e-10, else 0 |
| DataProcessor.SummaryEntryWithoutSpend | apps/api/app/services/mmm/mmm_data_processor.py:124-139 | without a spend column, the spend is 1000 times the contribution, so the efficiency is 0.001 above the floor and 0 otherwise |
| DataProcessor.SummaryEntryWithSpend | apps/api/app/services/mmm/mmm_data_processor.py:120-139 | with a finite spend column, the spend is the column's sum and the efficiency is the total over it when above the floor; otherwise the spend is the floor and the efficiency 0 |
| DataProcessor.SummaryShares | apps/api/app/services/mmm/mmm_data_processor.py:116-145 | in the loop's result, every channel's share is given by its own statistics |
| DataProcessor.AllChannelStats | apps/api/app/services/mmm/mmm_data_processor.py:108-111 | with distinct names, the statistics of every channel are keyed in order and finite |
| DataProcessor.SummaryShareValues | apps/api/app/services/mmm/mmm_data_processor.py:111-134 | every share is finite, and is the channel's total over the summed totals when those exceed the floor |
| DataProcessor.SummarySharesSumToOne | apps/api/app/services/mmm/mmm_data_processor.py:111-134 | when the totals exceed the floor, the shares in the loop's result add up to exactly 1 |
| DataProcessor.SharesSumToOneWhenPositive | apps/api/app/services/mmm/mmm_data_processor.py:98-151 | with distinct names, whenever the totals exceed 1e-10, the summary's contribution shares add up to exactly 1 |
| DataProcessorLegacy.NewProcessor | apps/api/app/services/mmm_data_processor.py:19-22 | a processor is made exactly when the model has a posterior, and it keeps the model and the names; otherwise an AttributeError |
| DataProcessorLegacy.Targets | apps/api/app/services/mmm_data_processor.py:35-43 | a falsy channel selects every name, and a known one selects itself alone; any other is a ValueError naming the channel |
| DataProcessorLegacy.RoiData | apps/api/app/services/mmm_data_processor.py:113-118 | the ROI means are returned exactly when `roi_m` is present; otherwise the ValueError "No ROI data found in model posterior" |
| DataProcessorLegacy.SpendData | apps/api/app/services/mmm_data_processor.py:120-129 | the geo-averaged spend, time by channel, is returned exactly when the model has a spend tensor; otherwise a ValueError |
| DataProcessorLegacy.ChannelSeries | apps/api/app/services/mmm_data_processor.py:131-140 | a channel's series has one value per time period |
| DataProcessorLegacy.ChannelSeriesMeaning | apps/api/app/services/mmm_data_processor.py:133-136 | for a channel the data covers, each entry is the ROI times the geo mean of the spend, with NaN and infinities carried through |
| DataProcessorLegacy.ChannelSeriesFallback | apps/api/app/services/mmm_data_processor.py:137-140 | a channel past the ROI or the spend channels gets the drawn series |
| DataProcessorLegacy.CalculateChannelContributions | apps/api/app/services/mmm_data_processor.py:131-140 | the method computes the channel's series |
| DataProcessorLegacy.OutcomeMeaning | apps/api/app/services/mmm_data_processor.py:47-149 | a channel's outcome fails exactly when there are no time periods, and then with a ValueError |
| DataProcessorLegacy.ContributionDataOf | apps/api/app/services/mmm_data_processor.py:24-64 | returned data has well-formed dictionaries with the same keys |
| DataProcessorLegacy.Assemble | apps/api/app/services/mmm_data_processor.py:55-60 | the result fails with StopIteration exactly when nothing was filled; otherwise it holds the channels asked for and the loop's dictionaries |
| DataProcessorLegacy.GetContributionData | apps/api/app/services/mmm_data_processor.py:24-64 | the loop over the channel names computes `ContributionDataOf` |
| DataProcessorLegacy.SomeSelected | apps/api/app/services/mmm_data_processor.py:43-48 | when the argument is accepted, some name is selected exactly when there are names |
| DataProcessorLegacy.LoopMeaning | apps/api/app/services/mmm_data_processor.py:47-53 | the loop fails exactly when a name is selected and there are no time periods, with numpy's ValueError; otherwise it fills nothing exactly when no name is selected |
| DataProcessorLegacy.ContributionDataErrors | apps/api/app/services/mmm_data_processor.py:24-64 | contribution data fails on an unknown channel, a missing ROI or spend, an empty time axis, or no channels; every failure is a ValueError except the last, which is StopIteration |
| DataProcessorLegacy.FillErrorIs | apps/api/app/services/mmm_data_processor.py:47-53 | a failed loop fails with what some selected channel's computation raised |
| DataProcessorLegacy.ContributionDataPayload | apps/api/app/services/mmm_data_processor.py:43-60 | returned data holds exactly the selected names; each series is the one computed at the name's last position, with one value per period and numpy's statistics; the shape is the number of channels by the number of periods |
| DataProcessorLegacy.LoopPayload | apps/api/app/services/mmm_data_processor.py:47-53 | a loop that does not fail fills both dictionaries with exactly the targets, each holding the series computed at its last position and numpy's statistics of it |
| DataProcessorLegacy.AllChannelsInOrder | apps/api/app/services/mmm_data_processor.py:43-60 | with distinct names and no channel asked for, the keys are the processor's names in order |
| DataProcessorLegacy.SingleChannel | apps/api/app/services/mmm_data_processor.py:35-60 | with distinct names, asking for one known channel gives that channel alone, computed at its position |
| DataProcessorLegacy.SummaryEntryShare | apps/api/app/services/mmm_data_processor.py:96-103 | a record names its channel and carries its total and mean; the share is the total over the summed totals when that sum is above zero, else 0; the record is accepted exactly when its fields are in range |
| DataProcessorLegacy.SummaryEntryWithoutSpend | apps/api/app/services/mmm_data_processor.py:93-102 | without a spend column, the spend is 1000 times the contribution, so the efficiency is 0.001 for a positive total and 0 otherwise |
| DataProcessorLegacy.SummaryEntryWithSpend | apps/api/app/services/mmm_data_processor.py:88-102 | with a finite spend column, the spend is its sum and the efficiency is the total over that sum when positive, else 0 |
| DataProcessorLegacy.Summarised | apps/api/app/services/mmm_data_processor.py:88-105 | the record carries the channel's name, total and weekly mean; the share is 0 unless the total contribution is above zero, and the efficiency is 0 unless the spend is |
| DataProcessorLegacy.SummaryEntry | apps/api/app/services/mmm_data_processor.py:97-105 | a built record is valid and carries the channel's name, total and mean contribution; a record out of range is a ValidationError |
| DataProcessorLegacy.AllSummarised | apps/api/app/services/mmm_data_processor.py:76-84 | every channel of an unfiltered call has statistics |
| DataProcessorLegacy.GetChannelSummary | apps/api/app/services/mmm_data_processor.py:66-111 | the summary loop computes `ChannelSummaryOf` |
| DataProcessorLegacy.ChannelSummaryOf | apps/api/app/services/mmm_data_processor.py:66-111 | a returned summary is a well-formed dictionary keyed by the channel names, each once, in the order of first appearance |
| DataProcessorLegacy.SummaryShares | apps/api/app/services/mmm_data_processor.py:84-105 | in the loop's result, every channel's share is given by its own statistics |
| DataProcessorLegacy.SummarySharesSumToOne | apps/api/app/services/mmm_data_processor.py:79-101 | with finite totals summing to more than zero, the shares add up to exactly 1 |
| DataProcessorLegacy.SharesFromTotals | apps/api/app/services/mmm_data_processor.py:79-101 | shares equal to each total over the sum of the totals add up to 1 |
| DataProcessorLegacy.SharesSumToOneWhenPositive | apps/api/app/services/mmm_data_processor.py:66-107 | with distinct names, the summary is keyed by the names in order; with finite totals summing to more than zero, the shares add up to exactly 1 |
| DataProcessorLegacy.NaNRoiPropagates | apps/api/app/services/mmm_data_processor.py:133-149 | a NaN ROI is not replaced, so the channel's mean and total come out NaN |
| Contributions.FallbackSeries | apps/api/app/services/mmm/mmm_data_processor.py:236-237 | the fallback series has the requested length, and its entries are the drawn values, all finite |
| Contributions.Scaled | apps/api/app/services/mmm/mmm_data_processor.py:223 | `roi * spend_over_time` multiplies every entry by the ROI and keeps the length |
| Contributions.Sanitized | apps/api/app/services/mmm/mmm_data_processor.py:225-229 | the cleaned series keeps its length and every finite entry, and has 0.0 in place of each NaN or infinity |
| Contributions.SanitizedFixesFinite | apps/api/app/services/mmm/mmm_data_processor.py:225-229 | a finite series is left as it is, so cleaning twice changes nothing more |
| Contributions.ZeroInvalid | apps/api/app/services/mmm/mmm_data_processor.py:226-229 | zeroing the invalid entries of the array in place leaves the cleaned series |
| Contributions.FiniteOnly | apps/api/app/services/mmm/mmm_data_processor.py:251 | the filtered entries are exactly the finite entries of the series |
| Contributions.FiniteOnlyOfFinite | apps/api/app/services/mmm/mmm_data_processor.py:251 | filtering a finite series changes nothing |
| Contributions.FiniteStats | apps/api/app/services/mmm/mmm_data_processor.py:239-267 | the four statistics are always finite, and the minimum is at most the mean, which is at most the maximum |
| Contributions.FiniteStatsExact | apps/api/app/services/mmm/mmm_data_processor.py:239-267 | the package's statistics are finite; all four are 0.0 without a finite entry; otherwise the total is the sum of the finite entries, and min and max bound the mean and every finite entry |
| Contributions.FiniteEntryBounded | apps/api/app/services/mmm/mmm_data_processor.py:251-266 | a finite entry lies between the least and greatest finite entries |
| Contributions.NumpyStats | apps/api/app/services/mmm_data_processor.py:142-149 | the older statistics fail exactly on an empty series, with the ValueError of `np.max` |
| Contributions.NumpyStatsMeaning | apps/api/app/services/mmm_data_processor.py:142-149 | on a finite series the older statistics are the exact mean, sum, max and min, with min ≤ mean ≤ max; one NaN entry makes the mean and total NaN |
| Contributions.FillPayload | apps/api/app/services/mmm/mmm_data_processor.py:71-77 | when every channel computes a finite series of one length and its statistics, the loop fills both dictionaries with exactly the selected channels, each holding such a series and its statistics |
| Contributions.Payload | apps/api/app/services/mmm/mmm_data_processor.py:79-89 | a returned payload has well-formed dictionaries |
| Contributions.PayloadMeaning | apps/api/app/services/mmm/mmm_data_processor.py:67-89 | under the same conditions the payload lists the channels asked for, holds the loop's two dictionaries, and its shape is the number of channels by the series length |
| Contributions.PayloadSingle | apps/api/app/services/mmm/mmm_data_processor.py:56-89 | asking for one of distinct names gives a payload with that name alone and the series computed at its position |
| Contributions.FillLengths | apps/api/app/services/mmm/mmm_data_processor.py:71-88 | when every selected channel's series has one length, so does every series in the data |
| Contributions.TotalOf | apps/api/app/services/mmm/mmm_data_processor.py:111 | the sum of finite totals is finite |
| Contributions.TotalOfFinite | apps/api/app/services/mmm/mmm_data_processor.py:111 | with finite totals, Python's `sum` is their exact sum |
| Contributions.SharesSumToOne | apps/api/app/services/mmm/mmm_data_processor.py:130-134 | each total divided by the sum of all totals: the shares add up to 1 |
| Contributions.SummaryUpTo | apps/api/app/services/mmm/mmm_data_processor.py:116-149 | the summary dictionary stays well formed as the loop fills it |
| Contributions.Totals | apps/api/app/services/mmm/mmm_data_processor.py:111 | the exact totals, one per channel, each the channel's finite total |
| Fills.FillValid | apps/api/app/services/mmm/mmm_data_processor.py:68-77 | both dictionaries stay well formed and share their keys in the same order |
| Fills.FillStep | apps/api/app/services/mmm/mmm_data_processor.py:71-77 | one turn skips an unselected name, stops with the error of a failing computation, and otherwise assigns both values to the name |
| Fills.FillEach | apps/api/app/services/mmm/mmm_data_processor.py:71-77 | the loop over all names computes `Fill` |
| Fills.FillTurn | apps/api/app/services/mmm/mmm_data_processor.py:72-77 | one turn of the loop computes the next `Fill` state |
| Fills.FillErrorPersists | apps/api/app/services/mmm/mmm_data_processor.py:71-77 | once a computation has raised, the loop ends with that error |
| Fills.LastIndex | apps/api/app/services/mmm/mmm_data_processor.py:71-77 | the last position holding a name is the assignment that wins |
| Fills.FillFails | apps/api/app/services/mmm/mmm_data_processor.py:71-77 | the loop raises exactly when computing some selected channel raises |
| Fills.FillKeys | apps/api/app/services/mmm/mmm_data_processor.py:71-77 | when the loop does not raise, the keys are exactly the selected names |
| Fills.FillValues | apps/api/app/services/mmm/mmm_data_processor.py:71-77 | each key holds what was computed at its last position |
| Fills.FillMeaning | apps/api/app/services/mmm/mmm_data_processor.py:71-77 | the loop raises exactly when a selected computation raises; otherwise both dictionaries hold exactly the selected names, each with what was computed at its last position |
| Fills.FillAllKeys | apps/api/app/services/mmm/mmm_data_processor.py:67-77 | with distinct names, all selected, the keys are the names in order |
| Fills.FillSingleKeys | apps/api/app/services/mmm/mmm_data_processor.py:67-77 | selecting one of distinct names, the keys are that name once it has been reached |
| Fills.FillSingle | apps/api/app/services/mmm/mmm_data_processor.py:67-77 | selecting one of distinct names gives dictionaries holding that name alone, computed at its position |
| Schemas.NewChannelSummary | apps/api/app/services/mmm/mmm_data_processor.py:141-145 | a summary record is built exactly when it is valid, with every amount non-negative and the share within [0, 1]; otherwise a ValidationError |
| Insights.Insert | apps/api/app/api/v1/export.py:32 | inserting into the ranking adds exactly one row, so the ranking stays a permutation of its input |
| Insights.SortByEfficiency | apps/api/app/api/v1/export.py:32 | `sorted(..., key=efficiency, reverse=True)` is a permutation of the channels |
| Insights.InsertSorted | apps/api/app/api/v1/export.py:32 | insertion keeps the ranking non-increasing in efficiency |
| Insights.SortSorted | apps/api/app/api/v1/export.py:32 | the ranking is non-increasing in efficiency |
| Insights.TopIndex | apps/api/app/api/v1/export.py:32-33 | the top index holds a greatest efficiency, and every earlier row is strictly less efficient (Python's stable sort keeps the first) |
| Insights.BottomIndex | apps/api/app/api/v1/export.py:32-34 | the bottom index holds a least efficiency, and every later row is strictly more efficient |
| Insights.InsertLast | apps/api/app/api/v1/export.py:32-34 | after an insertion, the last row is the inserted row when it is less efficient than the old last row, and the old last row otherwise |
| Insights.SortHead | apps/api/app/api/v1/export.py:32-33 | the top performer is the first most efficient channel in input order |
| Insights.SortLast | apps/api/app/api/v1/export.py:32-34 | the under-performer is the last least efficient channel in input order |
| Insights.Names | apps/api/app/api/v1/export.py:28 | the names of the channel rows, in order |
| Insights.Efficiencies | apps/api/app/api/v1/export.py:83 | the efficiencies of the channel rows, in order |
| Insights.Contributions | apps/api/app/api/v1/export.py:29 | the total contributions of the channel rows, in order |
| Insights.AverageEfficiency | apps/api/app/api/v1/export.py:83 | the mean efficiency is a division by zero exactly when there are no channels, and otherwise the mean |
| Insights.HighPerformers | apps/api/app/api/v1/export.py:84 | a channel is a high performer exactly when its efficiency exceeds 1.2 times the mean |
| Insights.CurveOf | apps/api/app/api/v1/export.py:49-131 | a curve is read exactly for a channel that has one; otherwise a KeyError naming the channel |
| Insights.RecommendedChannels | apps/api/app/api/v1/export.py:96 | `[r['channel'] for r in recommendations]`, in order |
| Insights.AddFollowups | apps/api/app/api/v1/export.py:95-105 | the follow-up loop computes the `Followups` specification |
| Insights.FollowupsErrorPersists | apps/api/app/api/v1/export.py:95-105 | once a curve is missing, the loop's outcome is that KeyError |
| Insights.FollowupsExtend | apps/api/app/api/v1/export.py:95-105 | the loop only appends, and only channels it has visited |
| Insights.FollowupsMeaning | apps/api/app/api/v1/export.py:95-105 | with distinct names, the loop recommends, in input order, exactly the channels not named by the seed whose efficiency beats the mean |
| Insights.FollowupsSelectStep | apps/api/app/api/v1/export.py:95-105 | one pass of the loop keeps the selection exact |
| Insights.FollowupsStep | apps/api/app/api/v1/export.py:96-105 | one pass either keeps the list or appends the visited channel, when it is new and above the mean |
| Insights.MeaningStep | apps/api/app/api/v1/export.py:96-105 | one pass keeps the selection exact, stated on the lists |
| Insights.NameFresh | apps/api/app/api/v1/export.py:95 | with distinct names, the channel a pass visits was not visited before |
| Insights.FollowupsFresh | apps/api/app/api/v1/export.py:96 | a channel the loop has not visited is recommended only if the seed names it |
| Insights.FollowupsAppend | apps/api/app/api/v1/export.py:98 | appending a recommendation appends its channel |
| Insights.FollowupsDistinct | apps/api/app/api/v1/export.py:96-98 | the loop never recommends a channel that is already named, so the names stay distinct |
| Insights.FollowupsShape | apps/api/app/api/v1/export.py:97-105 | every follow-up beats the mean, has impact "medium", "maintain" below 1.3 times the mean and "increase" from there on, and its channel's saturation point |
| Insights.FollowupsErrorKey | apps/api/app/api/v1/export.py:104 | the loop fails only on a visited channel without a curve, and never when all have one |
| Insights.Followups | apps/api/app/api/v1/export.py:95-105 | the follow-up loop only appends to the recommendations it was given, at most one per channel; its only failure is a KeyError for a channel without a curve |
| Insights.OpenAdvice | apps/api/app/api/v1/export.py:41-80 | the top and bottom steps compute the opening specification |
| Insights.OpenWith | apps/api/app/api/v1/export.py:41-80 | the opening rows succeed exactly when the top channel has a curve and, if the bottom one is below efficiency 1, so does it; they hold one insight and recommendation per row read (2 when the bottom is below 1, else 1), the first to increase the top channel; a failure is a KeyError for a missing curve |
| Insights.BuildAdvice | apps/api/app/api/v1/export.py:32-105 | the rules compute `AdviceOf` |
| Insights.AdviceOf | apps/api/app/api/v1/export.py:32-105 | advice exists only for some channels, with insights and recommendations, the first recommendation for the channel of highest efficiency |
| Insights.TopBottomDiffer | apps/api/app/api/v1/export.py:32-34 | with two rows or more, the first most efficient row and the last least efficient one are different rows |
| Insights.OpeningRows | apps/api/app/api/v1/export.py:32-34 | the ranking's head is the first most efficient row, and its last row the last least efficient one |
| Insights.RankedEnds | apps/api/app/api/v1/export.py:33-80 | the opening steps depend only on the two end rows |
| Insights.AdviceErrors | apps/api/app/api/v1/export.py:49-104 | no channels gives a division by zero; otherwise the only failure is a missing curve, and there is none when every channel has one |
| Insights.AdviceSteps | apps/api/app/api/v1/export.py:41-105 | with channels, the rules fail exactly when the opening steps or the follow-up loop fail |
| Insights.AdviceInsights | apps/api/app/api/v1/export.py:37-92 | the insights are the top performer's success, then the warning when the bottom efficiency is below 1, then the shift between the first two high performers when there are two: one to three of them |
| Insights.AdviceFollows | apps/api/app/api/v1/export.py:95-105 | a successful outcome's recommendations are the follow-up loop's output, seeded by the opening ones |
| Insights.AdviceLeadingRecommendations | apps/api/app/api/v1/export.py:52-80 | the recommendations open with "increase"/"high" for the top channel, then "optimize"/"medium" for the bottom one when its efficiency is below 1 |
| Insights.OpenedShape | apps/api/app/api/v1/export.py:41-80 | the opening steps' insights and recommendations when they succeed |
| Insights.OpenedErrors | apps/api/app/api/v1/export.py:49-79 | the opening steps fail only on a missing curve of the top row or the flagged bottom row |
| Insights.AdviceFollowupRecommendations | apps/api/app/api/v1/export.py:95-105 | after the opening ones, with distinct names, every channel not yet named whose efficiency beats the mean is recommended, with impact "medium" and its action, and no other channel is |
| Insights.AdviceNoDuplicates | apps/api/app/api/v1/export.py:41-105 | with two channels or more and distinct names, no channel is recommended twice |
| Insights.OpenedDistinct | apps/api/app/api/v1/export.py:52-80 | the opening recommendations name distinct channels when the top and bottom rows differ |
| Insights.AdviceSingleChannel | apps/api/app/api/v1/export.py:32-80 | a single channel below efficiency 1 is both top and bottom, so it is recommended twice: to increase and to optimize |
| Insights.Performance | apps/api/app/api/v1/export.py:125-134 | the performance table has one entry per channel with its curve's fields; the first channel without a curve is a KeyError |
| Insights.GenerateInsightsData | apps/api/app/api/v1/export.py:19-148 | the endpoint computes `InsightsOf` |
| Insights.InsightsSucceed | apps/api/app/api/v1/export.py:21-148 | the endpoint answers exactly when every input is available, there is a channel, and every channel has a curve; every failure is an HTTP 500 |
| Insights.InsightsNoChannels | apps/api/app/api/v1/export.py:83-148 | with no channels the mean divides by zero and the endpoint answers 500 |
| Insights.InsightsSummary | apps/api/app/api/v1/export.py:107-145 | the summary statistics are the channel count, the mean efficiency, the first most efficient channel, the total contribution and the high performers; the metadata counts the model's channels |
| Insights.Gather | apps/api/app/api/v1/export.py:19-143 | a failure of the channel summary is passed on; a payload needs all three inputs, some channels and a recommendation, the first for the most efficient channel, and counts the summary's channels and the model's |
| Insights.InsightsOf | apps/api/app/api/v1/export.py:19-148 | every failure is an HTTP 500 whose detail starts "Failed to generate insights data: " |
| MmmUtils.Names | apps/api/mmm_utils.py:200-213 | a list of strings holds exactly the given names, in order |
| MmmUtils.Len | apps/api/mmm_utils.py:303 | `len(v)` raises exactly on a boolean, a number or an opaque value |
| MmmUtils.Member | apps/api/mmm_utils.py:221-297 | `k in v` is a key test on a dictionary and an item test on a list; it raises exactly on a boolean, a number or an opaque value |
| MmmUtils.Item | apps/api/mmm_utils.py:222-297 | `v[k]` is the stored value of a dictionary key, and only dictionaries and data frames accept a string index |
| MmmUtils.Labels | apps/api/mmm_utils.py:304 | `columns=v` takes a list's items as its labels |
| MmmUtils.TableOf | apps/api/mmm_mock_data.py:101-121 | the dictionary literal has the given keys, in order, and every key is present |
| MmmUtils.MockData | apps/api/mmm_mock_data.py:10-123 | the mock data has the keys of the source, in order, and every key is present |
| MmmUtils.LoadedData | apps/api/mmm_utils.py:30-69 | loading keeps the file's contents only when mock data is not asked for, the file exists and loading succeeds; in every other case it keeps the mock data, so loading never raises |
| MmmUtils.IsMeridian | apps/api/mmm_utils.py:126 | the lowered type text contains "meridian": a dictionary never passes, and an object whose type text spells "meridian" or "Meridian" always does |
| MmmUtils.MeridianLowered | apps/api/mmm_utils.py:126 | both spellings of the name lower to "meridian" |
| MmmUtils.OneBasedChannels | apps/api/mmm_utils.py:211-213 | `Channel_1` … `Channel_n`, and none for a negative count |
| MmmUtils.ObjectChannels | apps/api/mmm_utils.py:194-214 | a Meridian object gives its names from the input data's media names or media columns, then its own media names, then numbered channels; None when it has none of them |
| MmmUtils.WithoutDateAndTarget | apps/api/mmm_utils.py:236 | exactly the columns other than `date` and `target`, in order |
| MmmUtils.MediaChannels | apps/api/mmm_utils.py:184-241 | an object always answers a list: a Meridian object's names when it has some, and the mock channels otherwise |
| MmmUtils.MeridianNames | apps/api/mmm_utils.py:194-214 | a Meridian object with no channel names of its own still gets numbered ones |
| MmmUtils.DictChannelsPriority | apps/api/mmm_utils.py:220-241 | dictionary data is searched in a fixed order: the model information's channels win, then `channels`, then `media_names`, then the spend columns; data with none of these keys gets the mock channels |
| MmmUtils.DictChannels | apps/api/mmm_utils.py:220-241 | the channels of dictionary data are found whenever its model information is absent or a dictionary; any failure is a TypeError |
| MmmUtils.MediaDataColumnsExcluded | apps/api/mmm_utils.py:233-236 | the media data's `date` and `target` columns are never channels, and every other column is |
| MmmUtils.Found | apps/api/mmm_utils.py:168-170 | the common keys found are exactly those the dictionary has, in order |
| MmmUtils.Public | apps/api/mmm_utils.py:140 | exactly the attribute names that do not start with an underscore, in order |
| MmmUtils.Update | apps/api/mmm_utils.py:149-155 | `dict.update` adds every assigned key and keeps every other entry unchanged |
| MmmUtils.UpdateLast | apps/api/mmm_utils.py:149-155 | a key holds the last value assigned to it |
| MmmUtils.ModelInfoSource | apps/api/mmm_utils.py:116-182 | every report says where its data came from: a Meridian model is the real model; dictionary data with model information is mock data and keeps every entry it does not overwrite; other dictionary data is a pickled dictionary; anything else is unknown. Only a Meridian model is real |
| MmmUtils.ModelInfo | apps/api/mmm_utils.py:116-182 | model information fails exactly for dictionary data whose `model_info` is not a dictionary, with the AttributeError of `update`; otherwise it reports the file path, the data source and whether the model is real |
| MmmUtils.MeridianInfoTagged | apps/api/mmm_utils.py:126-143 | a Meridian report has the file path, the size, the type name, the channels and their count, and the first ten public attributes |
| MmmUtils.PickleInfoTagged | apps/api/mmm_utils.py:157-170 | a pickled dictionary's report lists its keys and the common MMM keys it has |
| MmmUtils.ContributionFrom | apps/api/mmm_utils.py:295-304 | the loop over the contribution keys answers only data frames |
| MmmUtils.ContributionData | apps/api/mmm_utils.py:243-306 | contribution data of an object never raises, and whatever it answers is a data frame |
| MmmUtils.ContributionDataMeaning | apps/api/mmm_utils.py:253-292 | a Meridian model with channels has 52 weeks of contributions with one column per distinct channel name, in the order of first appearance (a repeated name overwrites its earlier column), and exactly the channel names when they have no repeats; an object that is not a Meridian model has none; dictionary data with a contribution data frame returns it unchanged |
| MmmUtils.SyntheticColumns | apps/api/mmm_utils.py:265-281 | the synthetic frame has one column per distinct channel name, in the order of first appearance |
| MmmUtils.SpendGrid | apps/api/mmm_utils.py:339-450 | `np.linspace(0, 100000, 21)`: 21 points, 5000 apart |
| MmmUtils.RationalCurve | apps/api/mmm_utils.py:449-469 | the curve is on the spend grid and reports its own saturation point and efficiency |
| MmmUtils.RationalResponse | apps/api/mmm_utils.py:418-423 | the derived response is 0 at no spend and, for a non-negative efficiency, between 0 and the linear response `spend * efficiency` |
| MmmUtils.RationalGrows | apps/api/mmm_utils.py:424-460 | with a non-negative efficiency, the rational response does not fall as spend grows |
| MmmUtils.RationalOrdered | apps/api/mmm_utils.py:418-423 | for positive spend the derived response formula never falls as spend grows |
| MmmUtils.SaturationFractionsOrdered | apps/api/mmm_utils.py:421 | the saturation factor `spend / (saturation_point + spend)` is non-negative and grows with spend |
| MmmUtils.RationalCurveShape | apps/api/mmm_utils.py:449-469 | the final derived curves start at zero, never fall along the grid, and report their own saturation point and efficiency |
| MmmUtils.FinalCurve | apps/api/mmm_utils.py:449-469 | the final curve of channel i has efficiency 0.65 + 0.05·i and saturation 40000 + 12000·i |
| MmmUtils.StructureCurve | apps/api/mmm_utils.py:407-435 | the curve derived from position i has efficiency 0.6 + 0.08·(i mod 5) and saturation 30000 + 10000·(i mod 7) |
| MmmUtils.HillParameters | apps/api/mmm_utils.py:359-372 | without an array of two or more dimensions, or for a channel past its rows, the parameters are the defaults 2.0 and 0.5; otherwise they are read exactly when the channel's first cell and (with a second column) its second cell convert to numbers, and are those numbers, with `gamma` 0.5 for a single column |
| MmmUtils.HillSaturation | apps/api/mmm_utils.py:386-393 | the saturation point is a spend on the grid, or 70% of the grid's top |
| MmmUtils.HillCurve | apps/api/mmm_utils.py:373-397 | the Hill curve is on the spend grid with one response per point |
| MmmUtils.Gather | apps/api/mmm_utils.py:336-435 | the curves gathered are exactly those of the channels whose curve did not raise |
| MmmUtils.ResponseCurves | apps/api/mmm_utils.py:308-487 | dictionary data answers the first stored entry of the curve keys; an object that is not a Meridian model answers nothing |
| MmmUtils.FirstKey | apps/api/mmm_utils.py:483-485 | the key answered is one of the curve keys, and the dictionary has it |
| MmmUtils.FirstPresent | apps/api/mmm_utils.py:483-485 | the first curve key the dictionary has, with no earlier key present |
| MmmUtils.StoredCurvesPriority | apps/api/mmm_utils.py:477-487 | `response_curves` wins over the other curve keys, then `curves`; a dictionary with none of them answers nothing |
| MmmUtils.MeridianCurvesCover | apps/api/mmm_utils.py:318-471 | a Meridian model always answers some curve; one without curve parameters answers every channel with its derived curve |
| MmmUtils.HillCurveShape | apps/api/mmm_utils.py:373-397 | the Hill curve starts at zero, and its saturation point is a spend on the grid no greater than its top |
| MmmUtils.FlatSegment | apps/api/mmm_utils.py:348 | `np.argmax(np.diff(r) < 0.01)`: the first segment gaining less than 0.01 when there is one, else 0 |
| MmmUtils.PredictedCurve | apps/api/mmm_utils.py:339-350 | a prediction is recorded exactly when it has at most two points or the grid's 21; the spend is the 21-point grid; the response is the series when the result has the channel as an attribute, else empty; a longer series saturates at the grid spend of its first flat segment and has as efficiency the mean response per unit over the grid after zero; a series of at most one point gets 50000 and 0.75 |
| MmmUtils.PredictedFor | apps/api/mmm_utils.py:336-353 | a channel gets a curve from its prediction exactly when the prediction is made and recorded, and it is that recorded curve |
| MmmUtils.PredictedAt | apps/api/mmm_utils.py:336-353 | the curve collected at each position is the one its channel's prediction gives |
| MmmUtils.PerUnitEfficiency | apps/api/mmm_utils.py:349 | the mean response per unit spent over the grid after zero is non-negative for a non-negative series, and a series proportional to spend has its slope as its efficiency |
| MmmUtils.PerUnitReturns | apps/api/mmm_utils.py:349 | each response after zero divided by its grid spend, the two-point tail broadcast over the grid |
| MmmUtils.NonNegativeReturns | apps/api/mmm_utils.py:349 | non-negative responses give a non-negative mean per unit |
| MmmUtils.ProportionalReturns | apps/api/mmm_utils.py:349 | responses proportional to spend give their slope as the mean per unit |
| MmmUtils.MeridianCurves | apps/api/mmm_utils.py:318-471 | the curves of a Meridian model form a well-formed dictionary keyed by channel names only |
| MmmUtils.MeridianPredictedCurves | apps/api/mmm_utils.py:333-353 | a model that can predict, with some channel's prediction recorded, answers exactly the channels whose prediction is recorded, each with its own curve on the 21-point grid; without the channel attribute the response is empty |
| MmmUtils.PredictedGathered | apps/api/mmm_utils.py:336-353 | the gathered predictions are not empty, hold exactly the channels whose prediction is recorded, and each holds its own curve |
| MmmUtils.PredictedMembers | apps/api/mmm_utils.py:336-353 | the gathered predictions hold exactly the channels whose prediction is recorded, at least one |
| MmmUtils.GatherByKey | apps/api/mmm_utils.py:336-353 | when the curve computed at each position depends only on the channel there, every channel collected holds its own curve |
| MmmUtils.ModelLoader.constructor | apps/api/mmm_utils.py:19-28 | the loader keeps its configuration and has loaded nothing |
| MmmUtils.ModelLoader.LoadModel | apps/api/mmm_utils.py:30-69 | loading keeps and returns `LoadedData` |
| MmmUtils.ModelLoader.Ensure | apps/api/mmm_utils.py:121-314 | every getter first loads when nothing is kept, and keeps what it loaded |
| MmmUtils.ModelLoader.Current | apps/api/mmm_utils.py:121-123 | a getter works on the kept data when there is some; otherwise on what loading keeps, which is the mock data unless the model file really loads |
| MmmUtils.ModelLoader.GetModelInfo | apps/api/mmm_utils.py:116-182 | `get_model_info` answers `ModelInfo` of the kept data, with size 0 when the file is missing |
| MmmUtils.ModelLoader.GetMediaChannels | apps/api/mmm_utils.py:184-241 | `get_media_channels` answers `MediaChannels` of the kept data |
| MmmUtils.ModelLoader.GetContributionData | apps/api/mmm_utils.py:243-306 | `get_contribution_data` answers `ContributionData` of the kept data |
| MmmUtils.ModelLoader.GetResponseCurves | apps/api/mmm_utils.py:308-487 | `get_response_curves` answers `ResponseCurves` of the kept data |
| MmmUtils.MockLoaderAnswers | apps/api/mmm_utils.py:39-306 | a loader asked for mock data answers from the mock data, whatever the file holds: the ten mock channels, information tagged as mock, the mock contribution frame and the mock curves |
| MmmUtils.MockEntries | apps/api/mmm_mock_data.py:101-121 | the entries of the mock data that the getters read |
| MockUsers.NewUser | apps/api/tests/mocks/mock_user_service.py:16-26 | a new user keeps every field it is given, and its role is "admin" exactly when it is built as an admin, "user" otherwise |
| MockUsers.Updated | apps/api/tests/mocks/mock_user_service.py:124-138 | an update replaces the e-mail only when a non-empty different one is given, the name only when a non-empty one is given, the active flag only when one is given; id, admin flag, role and password never change; an empty update changes nothing |
| MockUsers.ActiveUsers | apps/api/tests/mocks/mock_user_service.py:85-86 | the filtered listing holds exactly the active users of the listing and is no longer than it |
| MockUsers.InOrderCovers | apps/api/tests/mocks/mock_user_service.py:83 | listing the users in insertion order lists every stored user and nothing else, each stored under its own id |
| MockUsers.MockUserService.constructor | apps/api/tests/mocks/mock_user_service.py:36-63 | a fresh store holds the admin with id 1 and the regular user with id 2, both e-mails indexed, and hands out id 3 next |
| MockUsers.MockUserService.EmailsUnique | apps/api/tests/mocks/mock_user_service.py:99-100 | no two stored users share an e-mail, the invariant the e-mail index keeps |
| MockUsers.MockUserService.GetUserById | apps/api/tests/mocks/mock_user_service.py:65-67 | a user is found exactly when the id is stored, and it is the stored user |
| MockUsers.MockUserService.GetUserByEmail | apps/api/tests/mocks/mock_user_service.py:69-74 | a user is found exactly when some stored user holds the e-mail, and the found user holds it and is stored under its id |
| MockUsers.MockUserService.Listed | apps/api/tests/mocks/mock_user_service.py:83-86 | the listing holds every stored user, or every active one, and nothing else |
| MockUsers.MockUserService.GetUsers | apps/api/tests/mocks/mock_user_service.py:76-88 | a page holds at most `limit` users, is the slice of the listing from `skip`, and holds only stored users that pass the active filter |
| MockUsers.MockUserService.CountIsListing | apps/api/tests/mocks/mock_user_service.py:76-94 | one page from 0 as long as the count lists every matching user |
| MockUsers.MockUserService.GetUsersCount | apps/api/tests/mocks/mock_user_service.py:90-94 | the count is the length of the unpaged listing for the same filter, and never more than the stored users |
| MockUsers.MockUserService.OrderCount | apps/api/tests/mocks/mock_user_service.py:83 | the insertion order lists as many ids as there are stored users |
| MockUsers.MockUserService.CreateUser | apps/api/tests/mocks/mock_user_service.py:96-115 | a known e-mail is a ValueError and changes nothing; otherwise the new user gets the next id, is stored and indexed, can be found by id and by e-mail, and the next id moves on; the store stays consistent |
| MockUsers.MockUserService.UpdateUser | apps/api/tests/mocks/mock_user_service.py:117-140 | a missing id gives None and changes nothing; an e-mail held by another user is a ValueError and changes nothing; otherwise the stored user becomes `Updated` and the index follows an e-mail change |
| MockUsers.MockUserService.ChangeEmail | apps/api/tests/mocks/mock_user_service.py:129-132 | the old e-mail leaves the index, the new one points at the user, and the user's e-mail is the new one |
| MockUsers.MockUserService.DeleteUser | apps/api/tests/mocks/mock_user_service.py:142-154 | the answer says whether the id was stored; the user and its e-mail are removed and nothing else changes; a missing id changes nothing |
| MockUsers.MockUserService.SetActive | apps/api/tests/mocks/mock_user_service.py:156-172 | the answer says whether the id was stored; only that user's active flag changes |
| MockUsers.MockUserService.DeactivateUser | apps/api/tests/mocks/mock_user_service.py:156-163 | False for a missing id; otherwise the user becomes inactive and nothing else changes |
| MockUsers.MockUserService.ActivateUser | apps/api/tests/mocks/mock_user_service.py:165-172 | False for a missing id; otherwise the user becomes active and nothing else changes |
| MockUsers.MockUserService.ClearUsers | apps/api/tests/mocks/mock_user_service.py:175-179 | the store is empty and ids restart at 1 |
| MockUsers.MockUserService.AddTestUser | apps/api/tests/mocks/mock_user_service.py:181-190 | a full name outside 1 to 100 characters is a validation error of the request and changes nothing; a known e-mail is the store's ValueError and changes nothing; otherwise the created user is stored with the requested admin flag while its role stays "user", the e-mail is indexed to its id and the id is appended to the listing order, so it is found by e-mail and by id |
| MockUsers.MakeUserCreate | apps/api/app/schemas/user.py:11-22 | a creation request is built exactly when the full name has 1 to 100 characters and the password 8 to 100, keeping the given fields; otherwise it is a validation error |
| MockAuth.TokenUserId | apps/api/tests/mocks/mock_auth_service.py:89-103 | a token names a user only when it starts with `mock_token_` (and its third `_`-separated field reads as an integer) |
| MockAuth.TokenParts | apps/api/tests/mocks/mock_auth_service.py:64-94 | a token whose word has no underscore splits at `_` into its word, `token`, the user id and the count, so the third field is the id |
| MockAuth.TokenSplit | apps/api/tests/mocks/mock_auth_service.py:64-94 | pieces without underscores, joined as the token f-string joins them, split back into exactly those pieces |
| MockAuth.Token | apps/api/tests/mocks/mock_auth_service.py:64-131 | every token starts with its word followed by `_token_` |
| MockAuth.MockToken | apps/api/tests/mocks/mock_auth_service.py:64-99 | the user id read out of a mock token is the id it was issued for |
| MockAuth.MockTokenNamesId | apps/api/tests/mocks/mock_auth_service.py:64-99 | the token built with the word `mock` starts with `mock_token_` and its third field reads back as its id |
| MockAuth.RefreshToken | apps/api/tests/mocks/mock_auth_service.py:89-111 | a refresh token never names a user, since it does not start with `mock_token_` |
| MockAuth.TokensDiffer | apps/api/tests/mocks/mock_auth_service.py:64-130 | tokens issued at different counts differ, whatever their word and user id |
| MockAuth.MockAuthService.constructor | apps/api/tests/mocks/mock_auth_service.py:21-28 | the password table holds the three fixed entries and no token has been issued |
| MockAuth.MockAuthService.AuthenticateUser | apps/api/tests/mocks/mock_auth_service.py:30-49 | a user is answered exactly when a stored user has the e-mail, is active and the password equals its table entry (or `test_password` without one); the answer is that stored user |
| MockAuth.MockAuthService.Login | apps/api/tests/mocks/mock_auth_service.py:51-81 | a failed check is an AuthenticationError("Invalid email or password") and issues nothing; otherwise exactly one token `mock_token_{id}_{k}` is logged, with k the number issued before, and returned as a bearer token with the user's id, e-mail, full name, role, active flag and the fixed creation time 2024-01-01T00:00:00 |
| MockAuth.MockAuthService.Issue | apps/api/tests/mocks/mock_auth_service.py:64-131 | the token counted from the tokens issued so far is appended to the log |
| MockAuth.MockAuthService.GetCurrentUserFromToken | apps/api/tests/mocks/mock_auth_service.py:83-103 | a user is answered exactly when the token names a stored active user, and it is that user |
| MockAuth.MockAuthService.RefreshTokenFor | apps/api/tests/mocks/mock_auth_service.py:105-113 | `refresh_token_{id}_{k}` is logged and returned, and no lookup accepts it |
| MockAuth.MockAuthService.SetValidPassword | apps/api/tests/mocks/mock_auth_service.py:116-118 | the e-mail's expected password becomes the given one; the log is unchanged |
| MockAuth.MockAuthService.ClearTokens | apps/api/tests/mocks/mock_auth_service.py:120-122 | the log is empty and the passwords are unchanged |
| MockAuth.MockAuthService.GetGeneratedTokens | apps/api/tests/mocks/mock_auth_service.py:124-126 | the log is returned, and its tokens are pairwise distinct |
| MockAuth.MockAuthService.CreateMockTokenForUser | apps/api/tests/mocks/mock_auth_service.py:128-132 | a mock token counted from the log is logged and returned; for an active stored user, reading it back gives that user |
| MockAuth.MockAuthService.TokensDistinct | apps/api/tests/mocks/mock_auth_service.py:64-130 | the tokens issued since the last clear are pairwise distinct, because each carries its own count |
| MockMMM.MockResponseMonotone | apps/api/tests/mocks/mock_mmm_service.py:153-156 | the mock response `spend / (1 + spend / 50000) * 1000` is non-negative and grows with spend |
| MockMMM.MockResponse | apps/api/tests/mocks/mock_mmm_service.py:153-156 | the mock response is non-negative, never more than 1000 per unit of spend and always below 1000 times the 50000 saturation point |
| MockMMM.GenerateMockCurve | apps/api/tests/mocks/mock_mmm_service.py:147-163 | a channel's mock curve has the 20 spend points 0, 5000, …, 95000, the mock response at each, saturation point 50000 and the last point's response per unit of spend as efficiency; the response starts at 0 and never decreases |
| MockMMM.RemoveFirst | apps/api/tests/mocks/mock_mmm_service.py:206 | `list.remove` drops exactly the first occurrence and keeps the rest in order |
| MockMMM.RemoveFirstDistinct | apps/api/tests/mocks/mock_mmm_service.py:196-206 | removing a name from a list without repeats leaves every other name, drops that one, and adds no repeats |
| MockMMM.MockMMMService.constructor | apps/api/tests/mocks/mock_mmm_service.py:19-27 | the service starts with the five default channels, no call counted, the given loaded flag and mock data generated for those channels, 52 weekly figures each |
| MockMMM.MockMMMService.TrackCall | apps/api/tests/mocks/mock_mmm_service.py:29-214 | the named method's count goes up by one (from 0 when absent) and no other count or field changes |
| MockMMM.MockMMMService.GetCallCount | apps/api/tests/mocks/mock_mmm_service.py:212-214 | a method not called since the last clear reads 0, any other its stored count, which is never negative |
| MockMMM.MockMMMService.GetModelStatus | apps/api/tests/mocks/mock_mmm_service.py:33-42 | the call is counted; the status is "loaded" with file information exactly when the model is simulated as loaded, "not_found" without it otherwise |
| MockMMM.MockMMMService.GetModelInfo | apps/api/tests/mocks/mock_mmm_service.py:44-60 | the call is counted; not loaded is MMMModelError("Model not loaded"); otherwise the fixed mock description listing the current channels |
| MockMMM.MockMMMService.GetChannelNames | apps/api/tests/mocks/mock_mmm_service.py:62-70 | the call is counted; not loaded is the error; otherwise the channel list, which has no repeats |
| MockMMM.MockMMMService.GetContributionData | apps/api/tests/mocks/mock_mmm_service.py:72-141 | the call is counted; not loaded is the error; an unknown named channel is MMMModelError("Channel '…' not found in model"); a known one gets its series with its sum and length; no (or an empty) name gets every series, 52 periods, the channels and the sum over all channels |
| MockMMM.MockMMMService.GetResponseCurves | apps/api/tests/mocks/mock_mmm_service.py:95-168 | the call is counted; not loaded and unknown channels are the same errors; a known channel gets the mock curve; otherwise every channel, and only the channels, map to the mock curve |
| MockMMM.MockMMMService.GetChannelSummary | apps/api/tests/mocks/mock_mmm_service.py:116-187 | the call is counted; not loaded is the error; otherwise the summary, keyed by exactly the current channels |
| MockMMM.MockMMMService.SetModelLoaded | apps/api/tests/mocks/mock_mmm_service.py:190-192 | only the loaded flag changes |
| MockMMM.MockMMMService.Regenerate | apps/api/tests/mocks/mock_mmm_service.py:199-201 | the mock data is rebuilt from the draws, 52 weekly figures each, for exactly the current channels |
| MockMMM.MockMMMService.AddChannel | apps/api/tests/mocks/mock_mmm_service.py:194-201 | a known name changes nothing; a new one is appended and the data is rebuilt; the list stays free of repeats |
| MockMMM.MockMMMService.RemoveChannel | apps/api/tests/mocks/mock_mmm_service.py:203-210 | an unknown name changes nothing; a known one is removed, every other channel stays, and the data is rebuilt |
| MockMMM.MockMMMService.ClearCallCount | apps/api/tests/mocks/mock_mmm_service.py:216-218 | every method's count reads 0 afterwards and nothing else changes |
| Dicts.EmptyDict | apps/api/app/services/mmm/mmm_data_processor.py:108 | `{}` is a well-formed dictionary without keys |
| Dicts.PutValid | apps/api/app/services/mmm/mmm_data_processor.py:145 | `d[k] = v` keeps the keys distinct and in step with the values |
| Dicts.Values | apps/api/app/services/mmm/mmm_data_processor.py:111 | `d.values()` lists the value of each key, in key order |
| Dicts.FirstValue | apps/api/app/services/mmm_data_processor.py:58 | `next(iter(d.values()))` is the value of the first key |
| Dicts.PutEach | apps/api/app/services/mmm/mmm_data_processor.py:116-145 | the loop `for i, k in enumerate(keys): d[k] = f(i)` computes `PutAll`, giving up at the first error |
| Dicts.PutAllStep | apps/api/app/services/mmm/mmm_data_processor.py:116-145 | one turn of the loop stops with the error raised at that position, or assigns the value computed there |
| Dicts.PutAllValid | apps/api/app/services/mmm/mmm_data_processor.py:116-145 | the dictionary the loop fills stays well formed |
| Dicts.PutAllErrorPersists | apps/api/app/services/mmm/mmm_data_processor.py:116-145 | once the loop has raised, it ends with that error |
| Dicts.PutAllKeys | apps/api/app/services/mmm/mmm_data_processor.py:116-145 | with distinct keys, the keys of the result are the keys visited, in order |
| Dicts.PutAllValues | apps/api/app/services/mmm/mmm_data_processor.py:116-145 | with distinct keys, every visited key holds the value computed at its position |
| Dicts.PutAllDistinct | apps/api/app/services/mmm/mmm_data_processor.py:116-145 | with distinct keys, the result holds every key in order, each with the value computed at its position |
| Dicts.PutAllMembers | apps/api/app/services/mmm_service.py:266-271 | the dictionary the loop fills holds exactly the keys visited |
| Dicts.PutAllByKey | apps/api/app/services/mmm_service.py:266-271 | when the value depends only on the key and never raises, the loop succeeds and every key holds its value, repeated keys included |
| Dicts.FirstOccurrences | apps/api/app/services/mmm/mmm_data_processor.py:116-141 | the distinct keys in the order of first occurrence: no repeats, and exactly the elements of the list |
| Dicts.FirstOccurrencesOfDistinct | apps/api/app/services/mmm/mmm_data_processor.py:116-141 | a list without repeats is its own list of first occurrences |
| Dicts.PutAllFirstOccurrences | apps/api/app/services/mmm/mmm_data_processor.py:116-141 | whatever the repeats, the dictionary the loop fills has each key once, in the order of its first visit |
| Floats.Add | apps/api/app/services/mmm/mmm_data_processor.py:111 | float addition is exact on finite values |
| Floats.Mul | apps/api/app/services/mmm/mmm_data_processor.py:223 | float multiplication is exact on finite values |
| Floats.Div | apps/api/app/services/mmm/mmm_data_processor.py:133-138 | numpy division is exact on finite values with a non-zero divisor, and never raises |
| Floats.Trichotomy | apps/api/app/services/mmm/mmm_data_processor.py:132-137 | on two non-NaN values exactly one of `>`, `==` and `<` holds |
| Floats.GtTransitive | apps/api/app/services/mmm/mmm_data_processor.py:132-137 | `>` is transitive on floats |
| Floats.PyMax | apps/api/app/services/mmm/mmm_data_processor.py:111-125 | Python's `max(a, b)` is one of its arguments |
| Floats.PyMin | apps/api/app/services/mmm/mmm_curve_generator.py:129 | Python's `min(a, b)` is one of its arguments |
| Floats.PyMaxFloor | apps/api/app/services/mmm/mmm_data_processor.py:111-125 | `max(c, x)` with a finite constant first is never NaN and never below the constant |
| Floats.NpMaxIsGreatest | apps/api/app/services/mmm_data_processor.py:147 | `np.max` is an entry of the array that is at least every entry |
| Floats.Reals | apps/api/app/services/mmm/mmm_data_processor.py:251 | the exact values of a finite array |
| Floats.Floats | apps/api/app/services/mmm/mmm_data_processor.py:251 | an exact sequence as a finite array, which reads back unchanged |
| Floats.Max | apps/api/app/services/mmm/mmm_data_processor.py:265 | the maximum of a non-empty sequence is one of its entries and bounds every entry |
| Floats.Min | apps/api/app/services/mmm/mmm_data_processor.py:266 | the minimum of a non-empty sequence is one of its entries and is bounded by every entry |
| Floats.SumBounds | apps/api/app/services/mmm/mmm_data_processor.py:263-264 | the sum of entries bounded by [lo, hi] lies within n·lo and n·hi |
| Floats.MeanWithin | apps/api/app/services/mmm/mmm_data_processor.py:263 | the mean of a non-empty sample lies within any bounds of its entries |
| Floats.DivAdd | apps/api/app/services/mmm/mmm_data_processor.py:133 | division by a non-zero real distributes over a sum |
| Floats.DivScaled | apps/api/app/services/mmm/mmm_data_processor.py:127-138 | t / (c·t) is 1 / c for a non-zero t |
| Floats.DivSelf | apps/api/app/services/mmm/mmm_data_processor.py:133 | a non-zero real divided by itself is one |
| Floats.DivBounds | apps/api/app/services/mmm/mmm_data_processor.py:263 | bounds on t / n from bounds on t |
| Floats.NpSumFinite | apps/api/app/services/mmm/mmm_data_processor.py:264 | on finite data numpy's sum is the exact sum |
| Floats.NpMaxFinite | apps/api/app/services/mmm/mmm_data_processor.py:265 | on finite data numpy's maximum is the exact maximum |
| Floats.NpMinFinite | apps/api/app/services/mmm/mmm_data_processor.py:266 | on finite data numpy's minimum is the exact minimum |
| Floats.NpSumNaN | apps/api/app/services/mmm_data_processor.py:146 | a single NaN makes numpy's sum NaN |
| Floats.NpSum | apps/api/app/services/mmm/mmm_data_processor.py:264 | `np.sum` is finite exactly when every entry is |
| Floats.NpMean | apps/api/app/services/mmm/mmm_data_processor.py:263 | `np.mean` is finite exactly when the array is non-empty and every entry is finite |
| Floats.NpMax | apps/api/app/services/mmm/mmm_data_processor.py:265 | `np.max` fails exactly on an empty array; on finite entries it is their maximum |
| Floats.NpMin | apps/api/app/services/mmm/mmm_data_processor.py:266 | `np.min` fails exactly on an empty array; on finite entries it is their minimum |
| Py.LStrip | apps/api/app/services/mmm/mmm_data_processor.py:57 | the leading whitespace is removed: the result is a suffix that starts with a non-space |
| Py.RStrip | apps/api/app/services/mmm/mmm_data_processor.py:57 | the trailing whitespace is removed: the result is a prefix that ends with a non-space |
| Py.StripShape | apps/api/app/services/mmm/mmm_data_processor.py:57 | the stripped string starts and ends with a non-space and occurs in the input |
| Py.StripEnds | apps/api/app/services/mmm/mmm_data_processor.py:57 | the stripped string starts and ends with a non-space |
| Py.StripOccurs | apps/api/app/services/mmm/mmm_data_processor.py:57 | the stripped string is the input after its leading whitespace |
| Py.Strip | apps/api/app/services/mmm/mmm_data_processor.py:57 | `s.strip()` is no longer than s, and empty exactly when s is all whitespace, which is what `not channel.strip()` tests |
| Py.StripUnchanged | apps/api/app/services/mmm/mmm_model_loader.py:118-122 | a string without surrounding whitespace is its own strip |
| Py.StripIdempotent | apps/api/app/services/mmm/mmm_model_loader.py:118-122 | stripping twice is stripping once |
| Py.DigitChar | apps/api/tests/mocks/mock_auth_service.py:96 | a digit's character is a decimal digit |
| Py.DigitValue | apps/api/tests/mocks/mock_auth_service.py:96 | a digit character's value is below 10 and maps back to the character |
| Py.NatToString | apps/api/tests/mocks/mock_auth_service.py:96 | `str(n)` is a non-empty run of digits with no leading zero |
| Py.DigitsOfNat | apps/api/tests/mocks/mock_auth_service.py:96 | the digits of n read back as n |
| Py.ParseInt | apps/api/tests/mocks/mock_auth_service.py:96 | `int(s)` succeeds exactly on an optionally signed run of ASCII digits with surrounding whitespace; otherwise a ValueError with Python's message (other Unicode digits and underscores are under Left out) |
| Py.NotSpace | apps/api/tests/mocks/mock_auth_service.py:96 | digits and the minus sign are not whitespace |
| Py.SignedDigitsOfNat | apps/api/tests/mocks/mock_auth_service.py:96 | the digits of n read back as n |
| Py.SignedDigitsOfNegative | apps/api/tests/mocks/mock_auth_service.py:96 | a minus sign and the digits of m read back as -m |
| Py.ParseIntUnstripped | apps/api/tests/mocks/mock_auth_service.py:96 | without surrounding whitespace, `int(s)` reads s itself |
| Py.IntToStringDigits | apps/api/tests/mocks/mock_auth_service.py:96 | `str(i)` reads back as i and has no surrounding whitespace |
| Py.ParseIntOfIntToString | apps/api/tests/mocks/mock_auth_service.py:96 | `int(str(i)) == i` for every integer |
| Py.Split | apps/api/tests/mocks/mock_auth_service.py:94 | `s.split(sep)` never gives an empty list |
| Py.SplitNoSep | apps/api/tests/mocks/mock_auth_service.py:94 | a string without the separator splits into itself alone |
| Py.SplitCons | apps/api/tests/mocks/mock_auth_service.py:94 | splitting a field, a separator and the rest peels the field off |
| Py.ErrorText | apps/api/app/services/mmm_service.py:123-324 | `str(e)` of an exception raised with a message is that message; for a missing key, attribute, name or unbound local the text quotes it in single quotes |
| Py.Quoting | apps/api/app/services/mmm_service.py:123-324 | the built text contains the name in single quotes |
| Py.ReprQuote | apps/api/app/services/mmm/mmm_data_processor.py:60 | `repr` quotes a string with double quotes exactly when it holds a single quote and no double quote, and with single quotes otherwise |
| Py.StrRepr | apps/api/app/services/mmm/mmm_data_processor.py:60 | `repr(s)` starts and ends with the quote chosen for s |
| Py.UnescapeEscaped | apps/api/app/services/mmm/mmm_data_processor.py:60 | reading the escapes back gives the string: backslashes, the quote, newlines, carriage returns and tabs are escaped without loss |
| Py.PlainRepr | apps/api/app/services/mmm/mmm_data_processor.py:60 | a string free of quotes, backslashes, newlines, carriage returns and tabs is written as itself in single quotes |
| Py.ListRepr | apps/api/app/services/mmm/mmm_data_processor.py:60 | `str(names)` is bracketed and is `[]` exactly for no names; each name is written as its `repr`, comma-separated |
| Py.LowerContains | apps/api/mmm_utils.py:126 | a word found in a string is found, lowered, in the lowered string |
| Py.Lower | apps/api/app/services/mmm/mmm_model_loader.py:157 | an ASCII lowering: it keeps the length, leaves no upper-case ASCII letter and changes no other character |
| Py.SliceBound | apps/api/tests/mocks/mock_user_service.py:88 | a normalised slice bound lies within [0, n] |
| Py.Slice | apps/api/tests/mocks/mock_user_service.py:88 | a slice is no longer than the sequence |
| Py.SliceWindow | apps/api/tests/mocks/mock_user_service.py:88 | `s[skip:skip + limit]` is the window of that size starting at skip, cut off at the end |
| Py.Range | apps/api/app/services/mmm/mmm_curve_generator.py:232 | `range(0, stop, step)` is every multiple of the step below stop, in order |
| Py.IndexOf | apps/api/app/services/mmm/mmm_curve_generator.py:93 | `xs.index(x)` is the first position of x |
| Py.DistinctLastFresh | apps/api/app/services/mmm/mmm_data_processor.py:71 | in a sequence without repeats, an element does not occur before its position |

## Left out

- Floating-point rounding and overflow: finite values are exact reals. The file size in megabytes is a given number, without `round(..., 2)` and without `stat()`.
- Real powers, square roots and the Hill curve `s**slope / (ec**slope + s**slope)` are given functions (`hill`, `pow`), and so is the Hill fraction of the older loader. The series `predict_response_curves` returns for a channel is a parameter (`predicted`); the curve record built from it (grid, response, saturation point, efficiency) is modelled. Everything computed from these results is modelled, for the finite values these functions give.
- Random numbers are given draws: `np.random.normal` fallback series, the seeded fallback model, the values of `mmm_mock_data.py` and the mock service's random figures. The synthetic contributions the older loader builds for a Meridian object are modelled by their shape (52 weeks per channel), not their sine and noise values.
- Service: one draws function serves every fallback series of one call. Nested calls made while building a curve therefore see the same draws as the outer call.
- Service: within one operation every further `_load_model` is a cache hit that returns the same model. The model is loaded once per operation, and the hits these inner calls add to the counters are not modelled.
- Service: the square-root "final fallback" of `_generate_response_curve_from_model` is not modelled. It cannot be reached, because returned contribution data always has a `summary`.
- Loading itself (`meridian.load_mmm`, `pickle`, the `sys.modules` patching of `_load_with_fallback`) is a given outcome: loaded data, ImportError or an exception with a message.
- Attribute probing (`hasattr`, `getattr`, `'meridian' in str(type(...))`) is modelled by records with optional fields. The attributes of a model object are only those the loaders probe for. Each AttributeError is identified by the attribute name, not by Python's full message.
- MmmUtils.ModelInfo: model information that is not a dictionary fails as the AttributeError of `.update`. An `adstock_hill_media` array whose cells are too short for the channel counts as raising.
- MmmUtils.ModelLoader: `print` output is not modelled, and neither is any logging output elsewhere.
- MockUsers: users are values. A caller that mutates a returned `MockUser` object and so changes the store through aliasing is not modelled.
- MockMMM: the channel list is a value. Aliasing between the list handed out and the one kept is not modelled.
- MockMMM: `simulate_error` has an empty body and is not modelled.
- MockMMM: the draws are required to give 52 weekly figures per channel, as the source's `random.uniform` over `range(52)` does; draws of another length are not considered.
- Service.BuiltCurve: the Hill response at a spend point is a given finite real, whatever the Hill parameters. In numpy, parameters that are NaN or infinite, or a negative slope, make the responses NaN or infinite. Examples are an `ec` from `roi / np.max(...)` when the mean ROIs have maximum 0 (mmm_service.py:451), or a negative slope from an ROI below about −0.53, where `0**slope` is infinite (:452-454). `np.max(marginal_returns) > 0` is then False, and the saturation point is pinned at `max_spend * (0.4 + 0.1·idx)` before clamping (:482, :493). Neither these non-finite responses nor that pinned saturation point is modelled. The same holds for CurveForShape and FallbackModelCurves, which build on it.
- CurveGenerator.ModelCurve: the Hill and square-root responses are given finite reals in the same way. The NaN or infinite responses that non-finite posterior parameters cause in numpy, and the `SATURATION_DEFAULT` point that `_find_saturation_point` then takes, are not modelled.
- Py.ParseInt: only the ASCII digits `0`-`9` are digits. Python's `int()` also accepts every Unicode decimal digit (for example the Arabic-Indic `١`) and single underscores between digits. A token whose id field is written in such digits therefore names no user in the model, while the source reads its id. Underscores cannot reach `int()` in the token reader, which splits on `_` first.
- Lower: only ASCII letters are lowered. Python's Unicode case mapping of other characters is not modelled, so a type name that spells "meridian" with non-ASCII capitals is not recognised.
- MockUsers.MockUserService.AddTestUser: the e-mail is not validated. Pydantic's `EmailStr` check (an e-mail grammar and domain rules, with normalisation of the address) is not modelled, so an address it would reject is passed to the store; only the full-name and password lengths of `UserCreate` are checked.
- ListRepr: `repr` escapes only backslashes, the chosen quote, newlines, carriage returns and tabs. The `\xNN`/`\uNNNN` escapes Python writes for other non-printable characters are not modelled.
- ErrorText: the text of an AttributeError leaves out the object's type name, which Python writes first (`'<type>' object has no attribute '…'`). The messages built from it keep their prefixes and the attribute name. A ValidationError is written `validation error for <model>`, not pydantic's text (`1 validation error for UserCreate`, then the field and the reason); no message built from it is stated beyond its prefix.
- Insights: the descriptions contain efficiencies formatted with `:.2f`. The model keeps the numbers and does not build the formatted text. The CSV, JSON and text formatters of the export endpoint are not modelled, because they depend on float format strings.
- Concurrency: `lru_cache` gives no single-flight guarantee. Only sequential hits, misses and clears are modelled.
- `mmm/mmm_fallback_model.py` (`create_fallback_model`) is not part of this model. The package loader's ImportError branch returns it as a given model.
- The HTTP routes, security, database and configuration code are not part of this model.

## Findings

| source | as written | input that shows it | evidently intended | confidence | as-written member | corrected member |
|---|---|---|---|---|---|---|
| apps/api/app/services/mmm/mmm_curve_generator.py:89-120 | an unknown channel raises ValueError inside the `try`; the handler formats `channel_idx`, which was never assigned, so an UnboundLocalError escapes | `generate_curve("Unknown")` on a generator whose channel names do not include "Unknown" | the documented ValueError naming the available channels | not executed | CurveGenerator.UnknownChannelEscapes | CurveGenerator.GenerateCurveIntended |
| apps/api/app/services/mmm/mmm_model_loader.py:163-184 | `get_model_info` reads the undefined `REQUIRED_MODEL_ATTRIBUTES` before it counts channels; the handler records the NameError, so the report always has `channel_count` 0 and empty attribute lists | a model object with `n_media_channels == 3` | the attribute lists sorted into present and missing, and `channel_count` equal to the number of extracted names | not executed | ModelLoader.ModelInfoCountExample | ModelLoader.GetModelInfoIntended |
