# Gatan microscopy MCP tools: a Dafny model

The Gatan Microscopy Suite MCP server exposes an electron microscope to a
tool-calling client. Each tool is an `async` Python function that returns a
result dictionary, the envelope `{"success": bool, "error": str, ...}`,
where "error" appears on failure. This project models the tools whose
behaviour is decided by their own code:

- the helper `get_current_image`, which no client can call directly, and
  the instrument tools of the server (`acquire_image`,
  `analyze_diffraction_pattern`, `set_microscope_parameters`,
  `get_4d_stem_data`);
- the 4D-STEM processing dispatch;
- the three live-stream tools;
- the experiment-workflow validator;
- the simulated AI focus loop and feature identification.

Modules, one per part of the source:

- `Envelopes` (envelopes.dfy): the `Value` type of dictionary entries,
  `Envelope = map<string, Value>`, and `Option` for an omitted argument.
  It also holds the Python text formatting the tools use: `str` of an int,
  `str` of a list of names, and `", ".join`.
- `Server` (server.dfy): the image helper and the server tools. The vendor
  call `DM.GetFrontImage()` is an oracle. The members that read an image
  (`GetCurrentImage`, `AcquireImage`, `AnalyzeDiffractionPattern`, and
  `AiIdentifyFeatures` in `FeatureIdentification`) receive its outcome as
  an `ImageFetch`: the image's rows and columns, or the message of the
  exception it raised. `SetMicroscopeParameters` and `Get4dStemData` read
  no image.
- `StemProcessing` (stem_processing.dfy): `process_4d_stem_data`. Opening
  the dataset is an oracle as well: it opens or raises.
- `LiveStreaming` (live_streaming.dfy): `start_live_stream`,
  `get_stream_frame`, `stop_stream`.
- `ExperimentWorkflows` (experiment_workflows.dfy): the workflow catalog
  and `run_experiment_workflow`.
- `AssistedFocus` (assisted_focus.dfy): `ai_assisted_focus`.
- `FeatureIdentification` (feature_identification.dfy):
  `ai_identify_features`.

How the Python becomes Dafny:

- Arguments that the server framework fills from the declared defaults are
  `Option`s. `None` means the caller omitted the argument.
- Random draws are inputs: `uuid4` stream ids, `time.time()`, the focus
  draws and the feature draws.
- Loops that build lists (the missing-parameter check, the focus loop, the
  feature loops) are methods with loop invariants. The missing-parameter
  loop (`MissingParams`), the focus loop (`FocusLoop`), the interface point
  loop (`TracePoints`) and the feature collection (`CollectFeatures`) are
  proved equal to a specification function, and the properties are proved
  about that function. The particle, defect and interface loops
  (`DetectParticles`, `DetectDefects`, `DetectInterfaces`) instead state
  the i-th record of their result directly in their postconditions.
- Dictionary literals that are only returned are functions.

The stream tools keep no session table. Rates and durations are not
checked for positivity, each frame number is drawn afresh, and polling or
stopping any id, stopped or unknown, succeeds. The stream id is drawn when
a stream starts and is only echoed afterwards. There is likewise no tool
registry or dispatcher object: registration and default filling belong to
the FastMCP library.

## Model

| member | source | states |
|---|---|---|
| `Server.GetCurrentImage` | gms_mcp_server.py:25-39 | success exactly when the image source yields an array; width is the column count and height the row count; an exception becomes `{success: False, error: <message>}` and nothing else |
| `Server.AcquireImage` | gms_mcp_server.py:43-65 | the image envelope, all its entries kept, plus `mode` and `exposure_time` (defaults "TEM" and 0.1); the tags are added to a failure envelope too, and success is that of the image read |
| `Server.AnalyzeDiffractionPattern` | gms_mcp_server.py:68-91 | a failed image read is returned unchanged; on success the image envelope sits under `image_data` beside four d-spacings and four intensities of a crystalline pattern |
| `Server.SetMicroscopeParameters` | gms_mcp_server.py:94-125 | always succeeds and echoes exactly voltage, spot size and camera length, None for an omitted one; spot sizes outside 1-11 are accepted |
| `Server.Get4dStemData` | gms_mcp_server.py:128-150 | succeeds with dimensions [64, 64, 256, 256] for every dataset path |
| `StemProcessing.Process4dStemData` | advanced_features.py:9-72 | a failed dataset open gives its message; otherwise success exactly for `virtual_detector` and `strain_mapping`; inner/outer angle default to 0 and 30 and reference point to [32, 32], supplied values are echoed and other keys dropped; any other type fails with `Unknown processing type: <type>` |
| `LiveStreaming.StartLiveStream` | advanced_features.py:79-113 | succeeds for every argument, non-positive rates included; echoes the id, type, rate and duration (defaults camera, 10.0, 60.0) with status "started" and the start message |
| `LiveStreaming.GetStreamFrame` | advanced_features.py:116-143 | succeeds for every id with a 256 x 256 frame, echoing the id, the drawn frame number and the timestamp |
| `LiveStreaming.StopStream` | advanced_features.py:146-167 | succeeds with status "stopped" for every id, so stopping twice succeeds both times |
| `ExperimentWorkflows.Find` | advanced_features.py:193-214 | a name is found exactly when it is one of the catalog's names, and what is found carries that name |
| `ExperimentWorkflows.MissingParams` | advanced_features.py:218-221 | the checking loop computes `Missing`: the required names absent from the parameters |
| `ExperimentWorkflows.MissingAppend` | advanced_features.py:219-221 | checking one more required name appends it exactly when it is not supplied |
| `ExperimentWorkflows.MissingMembership` | advanced_features.py:217-221 | a name is missing exactly when it is required and not supplied |
| `ExperimentWorkflows.MissingIsSubsequence` | advanced_features.py:218-221 | the missing names keep the order of the required list |
| `ExperimentWorkflows.ExtraKeysIgnored` | advanced_features.py:219-221 | adding keys that are not required never changes what is missing |
| `ExperimentWorkflows.NothingMissing` | advanced_features.py:223-228 | nothing is missing exactly when every required name is supplied |
| `ExperimentWorkflows.RunExperimentWorkflow` | advanced_features.py:174-245 | an unknown name fails (`success` False) with `Unknown workflow: <name>` and lists the three names in catalog order; a known workflow succeeds exactly when every required key is present; otherwise the failure (`success` False) names the missing keys in required order and carries the full required list; on success the parameters (empty when omitted) are echoed with status "completed" |
| `ExperimentWorkflows.EelsWithoutParameters` | advanced_features.py:198-201 | `eels_spectrum_imaging` with no parameters misses scan_size_x, scan_size_y and exposure_time, in that order |
| `AssistedFocus.Improve` | advanced_features.py:277 | a step's new quality is the old one plus the gain when that sum is at most 1.0, and exactly 1.0 otherwise; it never exceeds the sum or 1.0 |
| `AssistedFocus.FocusLoop` | advanced_features.py:271-289 | the loop produces exactly the steps and final quality of the recursive specification `Steps` / `FinalQuality` |
| `AssistedFocus.StepsBounded` | advanced_features.py:287-289 | at most ten steps are taken |
| `AssistedFocus.StepsChain` | advanced_features.py:274-285 | the first step starts at the starting quality and the last ends at the final one (no steps: final = start); each step starts below the threshold where the previous one ended, ends at or below 1.0, and uses its own draws |
| `AssistedFocus.StopsEarlyOnlyAtThreshold` | advanced_features.py:274-289 | a final quality below the threshold means all ten steps were taken |
| `AssistedFocus.FinalQualityLowerBound` | advanced_features.py:274-289 | with gains of at least 0.05, each step left raises the final quality by 0.05 up to 1.0, unless the threshold stops the loop first |
| `AssistedFocus.DefaultThresholdReached` | advanced_features.py:252-289 | with the drawn ranges (start at least 0.3, gains at least 0.05), any threshold up to the default 0.8 is reached, so the status is "optimal_focus" |
| `AssistedFocus.UnreachableThreshold` | advanced_features.py:274-289 | a threshold above 1.0 is never reached from below it: all ten steps are taken |
| `AssistedFocus.AiAssistedFocus` | advanced_features.py:252-300 | succeeds; `initial_quality` is always the starting quality; the steps (at most ten) and final quality are those of the loop; status is "optimal_focus" exactly when the final quality reaches the threshold (default 0.8); the target area is echoed |
| `FeatureIdentification.Clamp` | advanced_features.py:373-374 | `min(max(v, 0), hi)` lies in [0, hi] and is v when v is already there |
| `FeatureIdentification.TracedPoints` | advanced_features.py:363-375 | an interface has one point per drawn offset, each within [0, width] x [0, height] |
| `FeatureIdentification.DetectParticles` | advanced_features.py:331-338 | one particle per draw; the i-th has id i and the i-th draw's values |
| `FeatureIdentification.DetectDefects` | advanced_features.py:347-354 | one defect per draw; the i-th has id i and the i-th draw's values |
| `FeatureIdentification.TracePoints` | advanced_features.py:371-375 | the point loop computes `TracedPoints` |
| `FeatureIdentification.DetectInterfaces` | advanced_features.py:363-382 | the i-th interface has id i, the i-th draw's type and confidence and its traced points; every point of every interface is inside the image bounds |
| `FeatureIdentification.Features` | advanced_features.py:324-384 | `features` has a key for exactly the requested kinds among particles, defects and interfaces; each is a list with one record per draw, and the i-th record's id is i |
| `FeatureIdentification.SummaryParts` | advanced_features.py:390 | the summary has one "<count> <tag>" part per requested tag, in request order |
| `FeatureIdentification.SummaryReportsCounts` | advanced_features.py:390 | a requested kind is reported with its number of draws, any other tag with 0 |
| `FeatureIdentification.CollectFeatures` | advanced_features.py:324-384 | the detection part builds exactly `Features` |
| `FeatureIdentification.AiIdentifyFeatures` | advanced_features.py:303-393 | a failed image read is returned unchanged; otherwise success with the requested tags (default particles, defects, interfaces), the `Features` for the image size and the summary line |
| `Envelopes.NatToString` | advanced_features.py:390 | `str` of a count is a non-empty string of decimal digits without a leading zero |
| `Envelopes.NatToStringRoundTrip` | advanced_features.py:390 | reading that text back as a decimal number gives the count |

## Left out

- gms_claude_integration.py is not part of this model. It holds process plumbing: launching the server, an alert, a global flag and a sleep loop.
- `run_live_analysis` is not part of this model. Its only computation is `int(duration_seconds * 10)` on a float.
- Pixel payloads are not modelled. The `data` entries of `get_current_image` and `get_stream_frame` (`tolist()` of an array) are omitted.
- Some human-readable texts are not modelled: the `result_summary` of `process_4d_stem_data` and the `summary` inside a completed workflow's `results`. They embed Python's `str` of arbitrary values, such as floats and dictionaries in insertion order, and `Value`'s `map` has no order. Every other entry of those envelopes is modelled.
- `Envelopes.ReprList` writes a name as `'name'`. This is Python's `repr` only for strings without quotes, backslashes or unprintable characters. It is only applied to the catalog's parameter names, which qualify.
- The ranges of the random draws are not imposed on the inputs: `randint(5, 20)` particles, `uniform(0.3, 0.6)` starting quality, and so on. Two lemmas take some of them as requirements: `AssistedFocus.FinalQualityLowerBound` assumes every gain is at least 0.05, the lower end of `uniform(0.05, 0.15)`, and `AssistedFocus.DefaultThresholdReached` assumes that and a starting quality of at least 0.3. It also treats qualities as exact reals: in floating point, ten gains of exactly 0.05 from exactly 0.3 may fall just short of 0.8.
- `numpy.random.randint(0, 0)` raises for an image with zero rows or columns. The source would turn that into a failure envelope. The model takes the draws as given and does not model that raise.
- The `except Exception` clauses of tools whose bodies cannot raise in the model are not modelled: `acquire_image` after its image read, `analyze_diffraction_pattern` after its image read, `set_microscope_parameters`, `get_4d_stem_data`, the stream tools, the workflow tool, and the focus tool.
- Exceptions inside `get_current_image` are one oracle outcome, whatever raised them.
- The dataset handle that `DM.OpenDataSource` returns is not modelled, since it is never used. Only whether the open raised matters.
- `async`/`await`, tool registration by `@mcp.tool`, and the JSON transport are not modelled. Each tool is one sequential call.
- An argument passed explicitly as `None`, as opposed to omitted, is not modelled, except for `parameters`, where both mean an empty dictionary.
