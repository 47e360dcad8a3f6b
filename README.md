# LGD batch processor: a Dafny model

This project models `lgd_processor.py`. That file finds the GLDAS CLSM daily land-water file for each date and takes the anomaly of the summed water-storage variables against a background mean. It then samples the two GRACE-FO satellite orbits, keeps the passes over the study region, and hands the track and the flattened anomaly grid to a line-of-sight gravity difference (LGD) integrator. Each date's results are saved, and `main` runs every date of a list against one background grid.

The numerical work is done by collaborators that are not part of this model:
- the GLDAS reader and the background mean;
- the orbit loader;
- the region filter;
- the LGD integrator;
- the result writer and the file-existence test.

Each becomes a function field of `Pipeline.Collaborators`. All but the existence test return an `Outcomes.Outcome`, a value or a raise. The existence test, `fileExists`, returns a bool, since `os.path.exists` answers False rather than raising. The model states what the file itself decides:
- the file name for a date;
- the composite dictionary keys;
- the anomaly, the meshgrid and its flattening;
- stride sampling of the orbits, the probe array and index selection;
- the order in which a date can be dropped;
- the totals the batch loop keeps.

Modules follow the parts of the file:

| file | module | part of `lgd_processor.py` |
|---|---|---|
| `outcomes.dfy` | `Outcomes` | `Option`, and `Outcome` for a call that returns or raises |
| `filename.dfy` | `GldasFilename` | `get_gldas_filename`: `strptime("%Y-%m-%d")`, `strftime("A%Y%m%d")`, `os.path.join` |
| `keys.dfy` | `CompositeKey` | the default variable list, `"+".join(var_list)` and the `"mean_"` background key |
| `grid.dfy` | `Grid` | `np.squeeze`, the anomaly `(daily - bg) * 1e-3`, `meshgrid` and `flatten` |
| `track.dfy` | `Track` | `[::interval]`, the probe `column_stack`, selection by one index set, column extraction |
| `pipeline.dfy` | `Pipeline` | `process_single_date` as a chain of steps, with the trace of collaborator calls it makes |
| `pipeline_properties.dfy` | `PipelineProperties` | each way a date ends, and the full success path |
| `batch.dfy` | `Batch` | `main`: the background step and the loop over the dates (a method with loop invariants) |
| `batch_properties.dfy` | `BatchProperties` | what `success_count`, `results_summary` and the saves amount to |

Every per-date run returns a `DateRun`, which is a result together with the list of collaborator calls it made. Calls are numbered by stage (`Pipeline.StageOf`), and `Pipeline.CallsMade` gives how many calls each outcome makes. The contracts `|calls| == CallsMade(result)` and "call `i` is of stage `i`" therefore say that a date dropped at one step never reaches a later one.

The result is one of three kinds:
- `Skipped(reason)` is a `return None, None`.
- `Succeeded(lats, lgd)` is the normal return.
- `Crashed(reason)` is an exception the file does not catch. It propagates out of `main` and ends the batch.

Exceptions not caught (`Crashed`):
- `strptime` (line 11) raises on a bad date; it is called at line 39, outside any `try`.
- Indexing `ds['lat']` and `ds['lon']` (line 55) raises when either is absent.
- A stride of zero (lines 96-97) raises.
- An empty orbit, or two sampled orbits of different lengths, make `column_stack` or the `[:, 0]` slice raise (line 100).
- The region filter itself raises (line 102).
- An index is out of range (lines 116-117).
- A single index makes `np.squeeze` yield a one-dimensional track, whose `[:, 0]` raises (lines 120-121).
- `compute_track_lgd` (line 125) and `save_results` (line 134) raise; neither call is inside a `try`.

The docstring of `process_single_date` (line 34) says that `(None, None)` is returned on failure. The model follows the code as written: the failures listed above raise instead of returning.

## Model

| member | source | states |
|---|---|---|
| GldasFilename.ParseMonth | lgd_processor.py:11 | `%m` accepts a month from 1 to 12 only |
| GldasFilename.MatchDay | lgd_processor.py:11 | `%d` takes one or two characters and yields a day from 1 to 31 |
| GldasFilename.ParseDate | lgd_processor.py:11 | a date string that `strptime` accepts denotes a real calendar date: year 1 to 9999, month 1 to 12, leap years respected |
| GldasFilename.ParseCanonical | lgd_processor.py:11 | a `YYYY-MM-DD` string parses exactly when its fields form a valid date, and then to those fields |
| GldasFilename.ParseUnpadded | lgd_processor.py:11 | `"2020-6-4"` is accepted, as `strptime` accepts unpadded month and day |
| GldasFilename.ParsePadded | lgd_processor.py:11 | `"2020-06-04"` parses to 4 June 2020 |
| GldasFilename.NonexistentDayRejected | lgd_processor.py:11 | `"2021-02-29"` raises, so no file name is produced |
| GldasFilename.Padded | lgd_processor.py:12 | strftime's zero padding yields exactly the width asked for, all digits |
| GldasFilename.PaddedValue | lgd_processor.py:12 | a padded number reads back as the same number |
| GldasFilename.PaddedOfDigits | lgd_processor.py:12 | re-padding a digit string's value to its own width gives the string back |
| GldasFilename.PaddedExamples | lgd_processor.py:12 | 2020, 6 and 4 print as `2020`, `06` and `04` |
| GldasFilename.DatePart | lgd_processor.py:12 | `A%Y%m%d` is an `A` and eight digits; for a valid date the digits read back as its year, month and day |
| GldasFilename.DatePartExample | lgd_processor.py:12 | 4 June 2020 prints as `A20200604` |
| GldasFilename.FileName | lgd_processor.py:13 | every file name has the same length: prefix, nine date characters, suffix |
| GldasFilename.FileNameLayout | lgd_processor.py:13 | the prefix `GLDAS_CLSM025_DA1_D.`, the date part and the suffix `.022.nc4` sit at fixed positions of every file name |
| GldasFilename.ParseOfCanonicalDate | lgd_processor.py:11-12 | the `YYYY-MM-DD` form of any valid date parses back to that date |
| GldasFilename.JoinPath | lgd_processor.py:14 | the joined path ends with the file name; for a relative name it is the root, a `/` unless the root is empty or already ends in one, and the name |
| GldasFilename.GetGldasFilename | lgd_processor.py:8-14 | a file name is produced exactly when the date parses |
| GldasFilename.FilenameOfCanonical | lgd_processor.py:8-14 | for a valid `YYYY-MM-DD` date the path is the root joined with `GLDAS_CLSM025_DA1_D.A` + the date with its dashes removed + `.022.nc4` |
| GldasFilename.UnpaddedDateSameFile | lgd_processor.py:8-14 | `"2020-6-4"` and `"2020-06-04"` name the same file, the prefix + `A20200604` + the suffix |
| GldasFilename.FileNameInjective | lgd_processor.py:12-13 | distinct valid dates give distinct file names |
| CompositeKey.VariableNames | lgd_processor.py:45 | the configured variable list, or `["GWS_tavg"]` when none is configured |
| CompositeKey.Join | lgd_processor.py:60 | the empty list joins to the empty string; otherwise the key's length is the names' total length plus one per gap between neighbours (its content is stated by `CompositeKey.JoinAppend` and `CompositeKey.SplitJoin`) |
| CompositeKey.DailyKey | lgd_processor.py:60 | one variable is its own key; a longer list gives a key of the names' total length plus one `+` per gap |
| CompositeKey.Split | lgd_processor.py:60 | the reference inverse of the join: at least one part, none containing `+` |
| CompositeKey.JoinAppend | lgd_processor.py:60 | joining two non-empty lists is joining each and putting a `+` between them |
| CompositeKey.SplitJoin | lgd_processor.py:60 | splitting the daily key at `+` gives back the variable list, in order and with repeats |
| CompositeKey.DailyKeyInjective | lgd_processor.py:60 | for names without `+`, two lists give the same key if and only if they are equal |
| CompositeKey.KeyExamples | lgd_processor.py:60 | one variable is its own key, two are joined with `+`, and the default list's key is `GWS_tavg` |
| CompositeKey.BackgroundKey | lgd_processor.py:208 | the background key is `mean_` followed by the daily key |
| CompositeKey.BackgroundKeyMatchesDaily | lgd_processor.py:208 | two background keys agree if and only if the daily keys do |
| CompositeKey.BackgroundKeyExample | lgd_processor.py:208 | the two-variable configuration's background key is `mean_GWS_tavg+SoilMoist_RZ_tavg` |
| Grid.DropOnes | lgd_processor.py:68 | dropping the length-1 dimensions keeps the element count, leaves none of length 1, and keeps every other dimension length that occurs |
| Grid.DropOnesAppend | lgd_processor.py:68 | the surviving dimensions keep their order: dropping from a concatenation drops from each part |
| Grid.DropOnesSingle | lgd_processor.py:68 | a single dimension survives exactly when it is not 1 |
| Grid.DropOnesIdempotent | lgd_processor.py:68 | a shape without length-1 dimensions is unchanged |
| Grid.DropOnesExample | lgd_processor.py:68 | the shape `(1, 600, 1440)` squeezes to `(600, 1440)` |
| Grid.DropOnesMiddleExample | lgd_processor.py:68 | the shape `(600, 1, 1440)` squeezes to `(600, 1440)` |
| Grid.Squeeze | lgd_processor.py:68 | `np.squeeze` keeps the data in order, leaves no dimension of length 1, and keeps every other dimension length that occurs; its shape is `Grid.DropOnes` of the input shape, so the order of the kept axes follows from `Grid.DropOnesAppend` and `Grid.DropOnesSingle` |
| Grid.SqueezeIdempotent | lgd_processor.py:213 | squeezing twice is squeezing once |
| Grid.Anomaly | lgd_processor.py:77 | the anomaly keeps the shape, and each element times 1000 is the daily value minus the background value |
| Grid.AnomalyCell | lgd_processor.py:71-77 | cell `(i, j)` of the anomaly is `(daily[i][j] - bg[i][j]) * 0.001` |
| Grid.MeshLat | lgd_processor.py:56 | the latitude mesh has one entry per grid cell, rows×cols |
| Grid.MeshLon | lgd_processor.py:56 | the longitude mesh has one entry per grid cell, rows×cols |
| Grid.MeshLatAt | lgd_processor.py:56 | the flattened latitude mesh holds `lat[i]` at flat index `i*ncols + j` |
| Grid.MeshLonAt | lgd_processor.py:56 | the flattened longitude mesh holds `lon[j]` at flat index `i*ncols + j` |
| Grid.Flatten | lgd_processor.py:80-82 | `g_h` is the grid's row-major data, and `g_lat` and `g_lon` have length rows×cols |
| Grid.FlattenAt | lgd_processor.py:55-82 | all three flat sequences have length rows×cols, and index `i*ncols + j` holds `h[i][j]`, `lat[i]` and `lon[j]` |
| Track.Stride | lgd_processor.py:96-97 | `[::k]` never has more points than the orbit |
| Track.StrideHead | lgd_processor.py:96-97 | a non-empty orbit's sample starts with its first point, and `[::1]` is the whole orbit |
| Track.StrideCovers | lgd_processor.py:96-97 | a stride-`k` sample of a non-empty orbit has as many points as it takes to cover it in steps of `k` |
| Track.StrideLength | lgd_processor.py:96-97 | a stride-`k` sample has `ceil(n/k)` points |
| Track.StrideAt | lgd_processor.py:96-97 | point `i` of a stride-`k` sample is point `i*k` of the orbit |
| Track.Reverse | lgd_processor.py:96-97 | the reversed orbit has the same length, point `i` being point `n-1-i` |
| Track.Slice | lgd_processor.py:96-97 | `[::step]` raises exactly when the step is 0 |
| Track.SliceForward | lgd_processor.py:96-97 | for a positive step, the slice has `ceil(n/step)` points and point `i` is `orig[i*step]` |
| Track.SliceBackward | lgd_processor.py:96-97 | for a negative step, the slice runs from the end backwards in steps of `-step` |
| Track.SliceAligned | lgd_processor.py:95-97 | both satellites sampled with one stride give equal lengths, and sample `i` of each comes from epoch `i*interval` |
| Track.StrideFiveExample | lgd_processor.py:95-97 | twelve epochs at the configured stride 5 give epochs 0, 5 and 10 |
| Track.Probe | lgd_processor.py:100 | probe row `k` is S1's longitude and S2's latitude at sample `k` |
| Track.Epoch | lgd_processor.py:116-117 | a numpy index from `-n` to `n-1` names epoch `i`, or `n+i` when negative |
| Track.Take | lgd_processor.py:116-117 | `pos[indices]` has one point per index, point `m` being the sample at the epoch index `m` names |
| Track.SelectTracks | lgd_processor.py:116-117 | selection fails exactly when some index is out of range; otherwise both tracks have one point per index, and point `m` of each comes from the same epoch |
| Track.Lats | lgd_processor.py:120-121 | `track[:, 1]` is the latitude of every point, in order |
| Track.Lons | lgd_processor.py:120-121 | `track[:, 0]` is the longitude of every point, in order |
| Track.Heights | lgd_processor.py:120-121 | `track[:, 2]` is the height of every point, in order |
| Pipeline.TrackFields | lgd_processor.py:120-121 | the six calculator fields are the longitude, latitude and height columns of both tracks: point `m` of each track is recovered from them |
| Pipeline.DailyField | lgd_processor.py:54-82 | missing `lat`/`lon` raises; otherwise a missing key or a shape mismatch skips, each if and only if it occurs; otherwise the field is the flattened anomaly of the squeezed daily grid |
| Pipeline.SampleOrbits | lgd_processor.py:94-100 | each way sampling ends holds exactly when its cause does: a zero interval raises; an empty slice raises; slices of different lengths raise; otherwise it goes on with the two `[::interval]` slices |
| Pipeline.SelectPass | lgd_processor.py:111-121 | each way selection ends holds exactly when its cause does: `None` or no indices skips; an out-of-range index raises; a single in-range index raises; at least two in-range indices go on, with both tracks selected by them |
| Pipeline.IntegrateAndSave | lgd_processor.py:119-136 | the integrator gets both tracks as calculator fields, S1's latitudes and longitudes, the flattened field and the cutoff. Its exception raises; otherwise a failed save raises and a successful save succeeds, each exactly then. A success returns S1's latitudes and the integrator's series, and saves both with S1's longitudes and heights for the date |
| Pipeline.TrackStages | lgd_processor.py:84-136 | from the orbit step on, calls follow in stage order, and a success feeds the flattened field to the integrator |
| Pipeline.AfterRead | lgd_processor.py:54-136 | after a read, calls follow in stage order, with the orbit loaded for the date and results saved for the date |
| Pipeline.ProcessFile | lgd_processor.py:40-136 | the existence check comes first, and the read, if made, is of that file with the configured variables |
| Pipeline.ProcessSingleDate | lgd_processor.py:27-136 | a run makes exactly the calls its outcome allows, in stage order. A bad date raises before any call. The file checked and read is the date's GLDAS file. A success has at least two track points, and what it returns is what was integrated and saved |
| PipelineProperties.MissingFileSkips | lgd_processor.py:40-42 | a missing file skips the date after the existence check alone, so the reader is never invoked |
| PipelineProperties.ReadErrorSkips | lgd_processor.py:47-52 | a reader exception skips the date, and nothing after the read is called |
| PipelineProperties.MissingKeySkips | lgd_processor.py:62-65 | a missing composite key skips the date, and nothing after the read is called |
| PipelineProperties.ShapeMismatchSkips | lgd_processor.py:71-73 | a daily/background shape mismatch skips the date, and nothing after the read is called |
| PipelineProperties.MissingCoordinatesCrash | lgd_processor.py:55 | a dataset without `lat` raises out of the date |
| PipelineProperties.OrbitErrorSkips | lgd_processor.py:85-92 | an orbit loader exception skips the date, and the filter is never called |
| PipelineProperties.FilterErrorCrashes | lgd_processor.py:102-109 | a region-filter exception is not caught: the date raises, and the filter call is the last call made |
| PipelineProperties.StagesFilterRaised | lgd_processor.py:94-109 | with the orbits sampled, a raising filter ends the track stages right after the filter call |
| PipelineProperties.NoValidPassSkips | lgd_processor.py:111-113 | `None` or empty indices skip the date, and the integrator is never called |
| PipelineProperties.ComputeErrorCrashes | lgd_processor.py:125-130 | an integrator exception is not caught: the date raises |
| PipelineProperties.ReadsThrough | lgd_processor.py:39-52 | with the file present and read, the date's run is what follows the read |
| PipelineProperties.FieldGoes | lgd_processor.py:54-82 | coordinates, key and shape in order give the flattened anomaly field |
| PipelineProperties.OrbitsGo | lgd_processor.py:94-100 | a non-zero stride with non-empty slices of equal length goes on with those slices |
| PipelineProperties.PassGoes | lgd_processor.py:111-117 | at least two in-range indices go on with both selected tracks |
| PipelineProperties.StagesReach | lgd_processor.py:84-121 | with the orbits sampled and a usable pass, the track stages end in the integrator after the orbit and filter calls |
| PipelineProperties.ReachesIntegrator | lgd_processor.py:39-121 | a date whose file, grid, orbits and pass are all usable reaches the integrator after exactly four calls |
| PipelineProperties.SaveErrorCrashes | lgd_processor.py:133-134 | a `save_results` exception is not caught: the date raises after the save call |
| PipelineProperties.SuccessPath | lgd_processor.py:39-136 | stated on the inputs: when the file exists and reads, the key and shape fit, the orbits sample to equal non-empty tracks, the filter returns at least two in-range indices, and integrator and writer return, the date succeeds with S1's latitudes and the LGD series. The six calls are listed in full: the integrator gets both tracks and the flattened anomaly, and the save gets latitude, longitude, LGD and height. The tracks have one point per index, both from the same epoch |
| PipelineProperties.TrackPointOrigin | lgd_processor.py:95-117 | with a positive stride, point `m` of each selected track is orbit epoch `e*interval`, the same `e` for both satellites |
| Batch.Background | lgd_processor.py:197-220 | the background grid exists exactly when the mean returns and holds the `mean_` key, and it is the squeezed entry |
| Batch.Runs | lgd_processor.py:226-228 | one run per date (`Batch.RunsAt` gives run `j`) |
| Batch.RunsAt | lgd_processor.py:226-228 | run `j` is `process_single_date` of date `j` |
| Batch.RunsOf | lgd_processor.py:226-228 | a per-date step gives one run per date |
| Batch.RunsOfStep | lgd_processor.py:226-228 | the step the loop calls, `process_single_date` with the calculator, the background and the configuration fixed, gives the batch's runs |
| Batch.NoCrashAll | lgd_processor.py:226-228 | the loop's crash-free condition holds exactly when no run raised |
| Batch.NoCrashAt | lgd_processor.py:226-228 | in a crash-free list, no run raised |
| Batch.SuccessCount | lgd_processor.py:223-231 | `success_count` is at most the number of dates, and 0 when none succeeds |
| Batch.Summarize | lgd_processor.py:229-231 | `results_summary` has at most one entry per date processed |
| Batch.AllCalls | lgd_processor.py:226-228 | the batch's call trace is empty exactly when every run's is |
| Batch.Processed | lgd_processor.py:226-228 | the loop gets through every date when none raises, and otherwise stops just after the first that raises |
| Batch.CrashIsFirst | lgd_processor.py:226-228 | the first date that raises is the last one processed |
| Batch.CrashExit | lgd_processor.py:226-228 | at the date that raises, the count and the summary stay as they were |
| Batch.Extend | lgd_processor.py:229-231 | one more date adds one to the count and stores its series only when it succeeds |
| Batch.RunBatch | lgd_processor.py:188-231 | a failed background step ends `main` before any date is processed. Otherwise the count, the summary and the calls are those of the dates processed, and the batch completes exactly when no date raises |
| Batch.ProcessDates | lgd_processor.py:223-231 | for any per-date step, the loop's count, summary and call trace equal the totals of the dates up to the first that raises, and it completes exactly when none raises |
| BatchProperties.SuccessCountIsSucceededDates | lgd_processor.py:229-230 | `success_count` is the number of successful dates, repeats included |
| BatchProperties.SummaryKeys | lgd_processor.py:229-231 | the keys of `results_summary` are exactly the dates whose run succeeded |
| BatchProperties.SummaryOrigin | lgd_processor.py:229-231 | every entry of `results_summary` is the series of a successful run of that date |
| BatchProperties.SucceededDateIndex | lgd_processor.py:226-231 | every successful date is one of the listed dates |
| BatchProperties.SummaryValue | lgd_processor.py:231 | a successful date maps to the series of its last successful run |
| BatchProperties.SummaryValueDistinct | lgd_processor.py:231 | with distinct dates, each successful date maps to its own series |
| BatchProperties.StoreAddsKey | lgd_processor.py:231 | storing one entry adds at most one key, and exactly one for a new date |
| BatchProperties.NotInPrefixSummary | lgd_processor.py:229-231 | with distinct dates, the last date is not yet in the summary of the runs before it |
| BatchProperties.SummarySize | lgd_processor.py:229-231 | `results_summary` has at most `success_count` entries, and exactly that many when no date repeats |
| BatchProperties.RepeatedDate | lgd_processor.py:229-231 | a date listed twice that succeeds twice counts 2 but is stored once, with the second series |
| BatchProperties.SavedDaysAppend | lgd_processor.py:134 | the saves of two traces placed end to end are the saves of each, in order |
| BatchProperties.SavedDaysOfStaged | lgd_processor.py:133-134 | in a stage-ordered trace, only the sixth call can be a save |
| BatchProperties.CallsMadeBound | lgd_processor.py:125-134 | only a success, or a save that raises, reaches the save call |
| BatchProperties.SavedDaysOfTrace | lgd_processor.py:133-136 | a run that does not raise saves exactly when it succeeds, and saves for its own date |
| BatchProperties.SavedDaysOfRun | lgd_processor.py:133-136 | a date's run saves results for that date exactly when it succeeds, unless it raises |
| BatchProperties.SavedDaysOfBatch | lgd_processor.py:226-231 | over dates processed without an exception, results are saved once per successful date, in list order, as many times as `success_count` |

## Left out

- File-system effects are left out: creating the output directory, writing the `.npz` file (lines 17-24), and testing the GLDAS file's existence. They are collaborator functions whose results are parameters (`fileExists`, `saveResults`).
- The internals of the collaborators from other modules are not modelled. These are `read_clsm_var`, `calculate_vars_mean_by_date_range`, `load_orbit`, `compute_track_lgd` and `filter_complete_tracks_passing_region`. Each may return any value or raise; `S05plot_lgd_ra_cwt_filter` and `clsm2lgd` are not part of this model.
- `print` diagnostics and the `time.time()` timing (lines 124, 131) have no effect on results and are left out. So is the `np.nanmean` shown for the background (line 216).
- Floating point is modelled as exact reals. The `1e-3` scaling is the real 0.001, and rounding is not modelled.
- `Grid.Squeeze` models `np.squeeze` on the shape only: it keeps the data and drops the dimensions of length 1. dtype and views are not modelled.
- The six track fields set on the shared `TrackLGDCalculator` object (lines 120-121) are modelled as a value, `Pipeline.CalcTracks`, that is handed to `computeLgd` as its first argument, because `compute_track_lgd` is a method of that object and may read them; S1's columns are also passed explicitly, as the code does. The update in place and the object's constructor (line 186) are not modelled.
- Collaborators are modelled as functions of their arguments. This assumes that the calculator carries no state from one date to the next other than the track fields above, and that the file system does not change during a batch: testing or reading the same path gives the same answer each time, and writing a result does not change later reads.
- The configuration literals and the date list in `main` (lines 141-181) are not modelled: the configuration and the dates are parameters. Also left out:
  - the entries this file reads only to pass them on to a collaborator: the GROOPS workspace (line 88), the region bounds, latitude limit and orbit direction (lines 104-108) and `n_max` (line 186). They are taken to be bound into the collaborator functions;
  - the final summary print (lines 233-235).
- `GldasFilename.Padded`: `%Y` is modelled as a four-digit zero-padded year. For years below 1000 strftime's output depends on the platform C library and the Python version: CPython on glibc has printed `999` rather than `0999`. This affects `GldasFilename.FilenameOfCanonical` for such years only.
- `GldasFilename.JoinPath` models `os.path.join` as POSIX `posixpath.join`. Windows `ntpath` drive and backslash handling is not modelled.
- `GldasFilename.ParseDate` accepts ASCII digits only. CPython's `strptime` regular expressions also match other Unicode decimal digits, and those are not modelled.
- `Pipeline.IntegrateAndSave` places no length condition on the LGD series the integrator returns, because the source checks none.
- The region filter's `tracks` result (line 102) is never used by the file, so `filterRegion` returns only the indices.
- The indices are modelled as a flat list of integers. Index arrays of other shapes, which `np.squeeze` would reshape further, are not modelled.
- Concurrency does not arise: the loop is sequential.
- `BatchProperties.SummarySize`: `success_count` equals the number of entries in `results_summary` only when no date is listed twice. With a repeated date the code counts every success but stores one entry, as `BatchProperties.RepeatedDate` shows, so the lemma states `<=` in general and equality for distinct dates.
- `BatchProperties.SavedDaysOfBatch`: stated for dates processed without an exception. When `save_results` raises, the failed save is in the trace for a date that did not succeed.
