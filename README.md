# OpenSarToolkit pipeline core, modelled in Dafny

This project models the core of the OpenSarToolkit (OST). OST turns
Sentinel-1 radar scenes into analysis-ready data (ARD) by driving the ESA
SNAP graph tool (`gpt`), GDAL and numpy. The model covers these parts:

- **Scene identifiers.** Decoding a Sentinel-1 scene identifier: mission,
  beam, product type, polarisations, dates, absolute and relative orbit,
  download path and ASF data-pool URL (`S1Scene`).
- **Single scenes.** The `create_ard` decisions of a single scene:
  product-type check, DEM switch outside SRTM coverage, output prefix, and
  the retry loop of the SLC branch (`S1Scene.Sentinel1Scene`).
- **Search and download.** The Copernicus hub helpers (`Scihub`): query
  strings, result paging, the resumable, retried download and the batch
  download. The ASF search string (`AsfSearch`).
- **Projects.** Project set-up and the batch project's stage gating
  (`Project`).
- **GRD scenes.** The GRD chain (`GrdToArd`): import, slice assembly and
  subset, calibration, multi-looking, speckle filtering, terrain
  flattening, dB conversion, terrain correction, layover/shadow mask and
  the final move and marker. The in-place border-noise removal on a 2-D
  array (`GrdBorder`). The GRD batch: grouping scenes into acquisition
  units, retries, time series, timescans and mosaics (`GrdBatch`).
- **SLC bursts.** The SNAP wrappers (`CommonWrappers`, `SlcWrappers`),
  the per-burst chain (`BurstToArd`), the burst batch worker split
  (`BurstBatch`) and the burst time-series, timescan and mosaic steps
  (`BurstTs`).
- **Time series and rasters.** The time series of one product and
  polarisation (`ArdToTs`). The raster helpers (`Raster`): tiled value
  replacement, binary erosion, timescan VRT renumbering and the metric
  stretch tables.

The external world is a class `Host.Machine`. It holds the set of existing
paths, the text of the marker files and the log of graph-tool commands.
A tool oracle gives each command's exit code by attempt number, so retry
decorators become loops over attempts.

Five more modules support the model:
- `Dates`: `strptime`/`strftime` for the formats the pipeline uses.
- `TextOrder`: Python's string ordering and `sorted`.
- `Strings`: `split`, slices, `replace` and number formatting.
- `Errors`: the exceptions as a `Result` type.
- `PythonSemantics`: operand types of `+` and argument binding of calls.

Each state-changing operation is a method over `Host.Machine` or over
arrays. Where the effect is fixed by the code alone, its `ensures` ties
the new state to a specification function, and lemmas prove the promised
properties about that function: order of the stages, markers written only
after success, round trips and retry bounds. Where the effect depends on
what an external tool writes, the `ensures` bound the new state instead:
which products may appear, which are removed, and which are kept.
Where a defect is listed under "## Findings", the pipeline members follow
the corrected behaviour, and the as-written member named there states
what the code does.

## Model

| member | source | states |
|---|---|---|
| S1Scene.Mission | ost/s1/s1scene.py:60-65 | S1A has orbit offset 73 and S1B 27; any other mission has none |
| S1Scene.RelOrbit | ost/s1/s1scene.py:67-68 | the relative orbit `((abs - offset) % 175) + 1` always lies in 1..175 |
| S1Scene.SameTrack | ost/s1/s1scene.py:67-68 | two absolute orbits of one satellite share a relative orbit iff they differ by a multiple of 175 |
| S1Scene.ModInjective | ost/s1/s1scene.py:67-68 | within one cycle distinct orbits have distinct relative orbits |
| S1Scene.Polarisations | ost/s1/s1scene.py:71-91 | the polarisation list of each accepted mode; any other mode raises ValueError |
| S1Scene.PolarisationsAreChannels | ost/s1/s1scene.py:71-91 | every polarisation is one of HH, HV, VV, VH, at most two, never repeated |
| S1Scene.AcquisitionMode | ost/s1/s1scene.py:94-101 | the names of the IW, SM, EW and WV beams; other beams leave the attribute unset |
| S1Scene.ProductTypeName | ost/s1/s1scene.py:104-111 | the names of the GRD, SLC, OCN and RAW products; others leave the attribute unset |
| S1Scene.Parse | ost/s1/s1scene.py:37-111 | each attribute is a fixed (clamped) slice of the identifier; an identifier too short for `[10]` or `[12]`, with an unknown mission or polarisation mode, or a non-numeric orbit raises (the corrected behaviour for the data take id; see Findings ost/s1/s1scene.py:50) |
| S1Scene.Info | ost/s1/s1scene.py:125-157 | the summary holds the ten attributes; an unset acquisition mode or product name raises AttributeError |
| S1Scene.Positions | ost/s1/s1scene.py:38-55 | each field of a well-formed identifier sits at its fixed position |
| S1Scene.ParseCompose | ost/s1/s1scene.py:37-68 | decoding an identifier written from its fields gives the fields back, and the relative orbit of its absolute orbit |
| S1Scene.TestSceneParsed | tests/test_s1scene.py:5-21 | the test scene decodes with relative orbit 138 for S1A orbit 002660 |
| S1Scene.TestSceneInfo | tests/test_s1scene.py:5-20 | the summary of the test scene is exactly the dictionary the test expects |
| S1Scene.DataTakeId | ost/s1/s1scene.py:50 | the data take is the six characters after the absolute orbit and its separator |
| S1Scene.DataTakeTruncated | ost/s1/s1scene.py:50 | the slice `[57:62]` as written yields "02F64" for the test scene's "002F64" |
| S1Scene.DownloadFields | ost/s1/s1scene.py:192-201 | the download path's fields below the directory are `SAR/<type>/<year>/<month>/<day>/<id>.zip` |
| S1Scene.SplitBelow | ost/s1/s1scene.py:193-200 | a path joined below a directory splits into the directory's fields followed by the joined ones |
| S1Scene.DownloadLayout | ost/s1/s1scene.py:192-212 | the archive and its `.downloaded` marker lie below `SAR/<type>/<year>/<month>/<day>`, named after the scene |
| S1Scene.DownloadPathsDistinct | ost/s1/s1scene.py:192-212 | scenes with different identifiers have different download paths and markers |
| S1Scene.GetPath | ost/s1/s1scene.py:203-222 | the download path iff a directory is given and the marker exists there; otherwise FileNotFoundError |
| S1Scene.AsfSegment | ost/s1/s1scene.py:540-543 | `SLC`, or `GRD_<resolution><first letter of the mode>` for GRD; any other type leaves it unbound |
| S1Scene.AsfMission | ost/s1/s1scene.py:535-538 | `SA` for S1A and `SB` for S1B; any other mission leaves it unbound |
| S1Scene.AsfUrl | ost/s1/s1scene.py:531-547 | `https://datapool.asf.alaska.edu/<segment>/<mission>/<id>.zip`, or UnboundLocalError |
| S1Scene.AsfUrlLayout | ost/s1/s1scene.py:545-546 | the URL is the host, segment, mission code and archive, and nothing else |
| S1Scene.AsfUrlOfParsed | ost/s1/s1scene.py:531-547 | every decoded GRD or SLC scene has a URL; other product types have none |
| S1Scene.TemplateName | ost/s1/s1scene.py:550-562 | the template is `<type>.<ard type>.json` lower-cased with '-' turned into '_' |
| S1Scene.TemplateNormalised | ost/s1/s1scene.py:557-559 | the template depends on the names only up to case and the choice of '-' or '_' |
| S1Scene.InitialOutputs | ost/s1/s1scene.py:604-610 | empty lists for SLC, empty paths for GRD; any other product type raises TypeError |
| S1Scene.SubsetCenterLat | ost/s1/s1scene.py:612-615 | the centre latitude of a subset lies midway between its bounds |
| S1Scene.SubsetLatitude | ost/s1/s1scene.py:615-631 | a subset inside one latitude band is outside SRTM coverage iff its centre is, while its height decides nothing |
| S1Scene.CenterLatOf | ost/s1/s1scene.py:768-800 | only a `.zip` or `.SAFE` path yields its footprint latitude; any other leaves the manifest unbound (NameError) |
| S1Scene.ListText | ost/s1/s1scene.py:622 | the printed form of a list ends in `]` |
| S1Scene.SlcCenterLatAsWritten | ost/s1/s1scene.py:618-624 | handing the whole SLC file list to `_get_center_lat` always raises NameError |
| S1Scene.SceneCenterLat | ost/s1/s1scene.py:618-624 | the centre latitude from the first file, for either product type; an empty list raises IndexError |
| S1Scene.DemSwitch | ost/s1/s1scene.py:625-630 | outside ±59 degrees the single-scene elevation model becomes `ASTER 1sec GDEM`, and nothing else changes |
| S1Scene.DemSwitchReachesGeocoding | ost/s1/s1scene.py:625-630 | as written the terrain correction keeps the template's model at 60 degrees; with the switch it gets ASTER exactly outside coverage |
| S1Scene.GrdPrefix | ost/s1/s1scene.py:632-637 | the prefix is the given one or `<id>_<ARD product type>`, with no space left |
| S1Scene.GrdPrefixIdempotent | ost/s1/s1scene.py:637 | the prefix of a prefix is itself |
| S1Scene.Halve | ost/s1/s1scene.py:703 | `int(w / 2)` truncates toward zero |
| S1Scene.WorkersHalved | ost/s1/s1scene.py:703 | attempt k runs with floor(w0 / 2^k) workers |
| S1Scene.RetryBursts | ost/s1/s1scene.py:689-707 | the loop stops at the first successful attempt or after the last allowed one; every earlier attempt failed, and each ran with the halved worker count |
| S1Scene.BurstsCallAsWritten | ost/s1/s1scene.py:695-700 | the keyword `config_dict=` does not bind to `bursts_to_ards(burst_gdf, config_file, ...)`: every attempt raises TypeError |
| S1Scene.BurstsCallFixed | ost/s1/burst_batch.py:26-31 | the call with `config_file=` binds |
| S1Scene.Sentinel1Scene.constructor | ost/s1/s1scene.py:37-123 | the scene object holds the decoded scene and its template's parameters, with no ARD yet |
| S1Scene.Sentinel1Scene.CreateArd | ost/s1/s1scene.py:586-710 | `create_ard`: a missing archive raises FileNotFoundError, a type other than GRD or SLC TypeError; GRD and SLC dispatch to their branches after the DEM switch; nothing is left below the scratch directory, and a failed run writes no marker (the corrected behaviour; see Findings ost/s1/s1scene.py:615, 618-624, 625-630 and 695-700) |
| S1Scene.Sentinel1Scene.SlcArd | ost/s1/s1scene.py:658-707 | the SLC branch succeeds iff the archive is found; a missing archive raises FileNotFoundError and changes nothing; on success the scratch tree is removed (the path set is exactly the old one without it, the markers those that remain), no tool runs, and the retry loop's outcome is kept |
| S1Scene.Sentinel1Scene.GrdArd | ost/s1/s1scene.py:632-656 | the GRD branch runs the GRD chain under the prefix; a success records the `_BS` product with its marker; a failure raises IndexError, TypeError, RuntimeError, FileNotFoundError or GPTRuntimeError and writes no marker; nothing is left below the scratch directory |
| Scihub.LastHref | ost/helpers/scihub.py:84-90 | the href of the last link with the relation, none iff no link has it |
| Scihub.NextPage | ost/helpers/scihub.py:70-95 | the next page is the last `next` link, and exists iff there is one and the `last` link differs from the `self` link |
| Scihub.SatelliteName | ost/helpers/scihub.py:109-116 | Sentinel-1, -2, -3 or -5 by the first of the digits 1, 2, 3, 5 the name contains, in that order; otherwise the name unchanged |
| Scihub.CreateSatelliteString | ost/helpers/scihub.py:98-118 | the clause is `platformname:` followed by the satellite name |
| Scihub.SatelliteNameIdempotent | ost/helpers/scihub.py:109-116 | naming a satellite name again changes nothing |
| Scihub.Sentinel1Platform | ost/helpers/scihub.py:109-118 | every mission the scene decoder accepts searches the platform Sentinel-1 |
| Scihub.RangeSplit | ost/helpers/scihub.py:164-166 | a range clause splits into `<name>:[<a>`, `TO`, `<b>]` |
| Scihub.TwoRanges | ost/helpers/scihub.py:164-166 | the time clause splits into the words of its two ranges around `AND` |
| Scihub.ParseToiWords | ost/helpers/scihub.py:162-166 | the time clause's words determine start and end |
| Scihub.ToiRoundTrip | ost/helpers/scihub.py:146-168 | the start and end dates are read back from the time clause |
| Scihub.ThreeClauses | ost/helpers/scihub.py:188-192 | the specs clause splits into its three clauses around `AND` |
| Scihub.ClauseValue | ost/helpers/scihub.py:188-190 | a clause's value is read back after its key |
| Scihub.SpecsRoundTrip | ost/helpers/scihub.py:171-192 | product type, polarisation and beam are read back from the specs clause |
| Scihub.RangeRoundTrip | ost/helpers/scihub.py:295 | the first byte and the total length are read back from the Range header |
| Scihub.RangeFields | ost/helpers/scihub.py:295 | `<a>-<b>` of two digit strings splits into `a` and `b` |
| Scihub.Resume | ost/helpers/scihub.py:272-295 | a status other than 200 raises ValueError; the archive is complete iff its size reaches the announced length; otherwise the rest is asked for |
| Scihub.ResumeRange | ost/helpers/scihub.py:286-295 | a partial archive asks for the bytes from its size to the announced length |
| Scihub.ArchiveMarker | ost/helpers/scihub.py:332 | the marker a download writes ends in `.downloaded` and differs from the archive |
| Scihub.AttemptEffect | ost/helpers/scihub.py:269-333 | one attempt raises ValueError on a bad status or DownloadError on a corrupt archive; on success the archive is at least as long as announced, and the marker is written when something was fetched; only the archive and its marker change |
| Scihub.RetryRequests | ost/helpers/scihub.py:234 | the retry decorator makes at least one and at most seven requests, all seven when it fails, with the last attempt's error |
| Scihub.RetrySuccess | ost/helpers/scihub.py:234-333 | a successful download ends with status 200 and a complete archive |
| Scihub.RetryTouches | ost/helpers/scihub.py:234-333 | the retried download changes only the archive and its marker |
| Scihub.CompleteNotFetched | ost/helpers/scihub.py:291-292 | a complete archive succeeds at once without touching anything |
| Scihub.DownloadArea.constructor | ost/helpers/scihub.py:235 | the download area starts with the given files and no request made |
| Scihub.DownloadArea.Attempt | ost/helpers/scihub.py:235-333 | one attempt makes one request and has the effect `AttemptEffect` |
| Scihub.DownloadArea.S1Download | ost/helpers/scihub.py:234-333 | `s1_download` under `@retry(tries=7)` has exactly the effect of `Retry` |
| Scihub.UuidOf | ost/helpers/scihub.py:356-357 | the uuid of the first inventory row with the identifier; IndexError iff there is none |
| Scihub.Collect | ost/helpers/scihub.py:350-366 | the download list succeeds iff every row does, and is the rows' tasks in order |
| Scihub.Steps | ost/helpers/scihub.py:351-366 | one step per inventory row, each queueing at most one task |
| Scihub.StepsAt | ost/helpers/scihub.py:351-366 | the k-th step is the k-th row's |
| Scihub.RunAll | ost/helpers/scihub.py:368-376 | running the tasks in order: on success every task was downloaded, each with one to seven requests; a failure is the download's error |
| Scihub.QueueRow | ost/helpers/scihub.py:352-366 | the loop body computes one row's step |
| Scihub.QueueDownloads | ost/helpers/scihub.py:348-366 | the loop builds exactly the download list `Queue` |
| Scihub.QueueAll | ost/helpers/scihub.py:351-366 | the list after all rows is `Queue` |
| Scihub.QueueNext | ost/helpers/scihub.py:351-366 | one more row of the list |
| Scihub.CollectFailure | ost/helpers/scihub.py:351-366 | once a row has raised, the list fails whatever follows |
| Scihub.RunDownloads | ost/helpers/scihub.py:368-376 | the download loop has exactly the effect of `RunAll` |
| Scihub.RunFailure | ost/helpers/scihub.py:370-376 | once a task has raised, the batch fails whatever follows |
| Scihub.BatchDownloadAsWritten | ost/helpers/scihub.py:336-386 | `batch_download` as written has exactly the effect of `BatchAsWritten` |
| Scihub.BatchDownload | ost/helpers/scihub.py:336-386 | `batch_download` as intended has exactly the effect of `BatchOutcome` |
| Scihub.ScenePaths | ost/s1/s1scene.py:192-201 | the archive and the marker of a scene below the download directory |
| Scihub.MarkerNotChecked | ost/helpers/scihub.py:332-362 | the marker a download writes is `<archive stem>.downloaded`, never the `<archive>.downloaded` the batch looks for |
| Scihub.CompletedSceneRequeued | ost/helpers/scihub.py:362-366 | a scene carrying only the written marker is queued again as written, and skipped with the intended marker |
| Scihub.RowTask | ost/helpers/scihub.py:352-366 | a queued task carries the row's uuid and the scene's archive path |
| Scihub.QueuedTasks | ost/helpers/scihub.py:351-366 | every queued task comes from a row of the inventory |
| Scihub.RowSkipped | ost/helpers/scihub.py:362-363 | a scene with its marker is not queued |
| Scihub.MarkedScenesSkipped | ost/helpers/scihub.py:336-380 | with every scene marked, the intended batch succeeds and changes nothing |
| Scihub.NothingQueued | ost/helpers/scihub.py:368-380 | an empty download list succeeds at once |
| Scihub.BatchDownloadSucceeds | ost/helpers/scihub.py:336-386 | the intended batch succeeds iff the list builds and every download succeeds |
| Scihub.BatchAsWrittenSucceeds | ost/helpers/scihub.py:336-386 | as written the batch succeeds iff moreover no row was skipped |
| Scihub.SkippedSceneFails | ost/helpers/scihub.py:378-386 | as written, a skipped scene makes the count fall short and the batch raise DownloadError |
| Scihub.BatchErrors | ost/helpers/scihub.py:336-386 | the intended batch raises only IndexError, ValueError, AttributeError or DownloadError |
| AsfSearch.QueryPolarisation | ost/helpers/asf_search.py:28-33 | the three `if`s in turn: `VV,VH` and `*` become `VV%2BVH`, `HH,HV` becomes `HH%2BHV`, anything else is kept |
| AsfSearch.QueryFormIdempotent | ost/helpers/asf_search.py:26-33 | bringing product type and polarisation to query form a second time changes nothing |
| AsfSearch.SpecsRoundTrip | ost/helpers/asf_search.py:9-40 | the specs string splits into exactly the three `key=value` parameters and reads back as the product type (GRD expanded), polarisation (in query form) and beam |
| AsfSearch.ToiRoundTrip | ost/helpers/asf_search.py:91-111 | the time-of-interest string is two parameters from which start and end date are read back, with the fixed `T00:00:01Z`/`T23:59:00Z` times |
| AsfSearch.EscapeSpaces | ost/helpers/asf_search.py:59 | the escaped area holds no space, holds `&` exactly when the area does, and is no shorter |
| AsfSearch.EscapeRoundTrip | ost/helpers/asf_search.py:59 | an area without `%` is recovered from its escaped form |
| AsfSearch.QueryFields | ost/helpers/asf_search.py:43-63 | the query's `&`-fields are the platform, the specs' fields, the escaped area's fields, the time's fields and the output format, in that order |
| AsfSearch.QueryLayout | ost/helpers/asf_search.py:43-63 | a query of this module's specs and time and an area without `&` has eight fields; the area is the fifth, and the settings and dates read back from fields 2-4 and 6-7 |
| AsfSearch.QueryParts | ost/helpers/asf_search.py:43-63 | where the three specs fields and two time fields sit among the query's eight fields |
| Project.NewGeneric | ost/Project.py:29-149 | the project is created iff both dates are `YYYY-MM-DD` and a given data mount exists; a bad date raises ValueError, a missing mount NotADirectoryError; the dates are kept |
| Project.PrintedDatesAccepted | ost/Project.py:32 | the default end date, today printed as `%Y-%m-%d`, is always accepted |
| Project.DefaultDirs | ost/Project.py:62-98 | without given directories, the download, inventory, processing and temporary directories are four distinct directories of the project directory |
| Project.NewSentinel1 | ost/Project.py:157-252 | the Sentinel-1 project is created iff the generic one is and product type, beam mode and polarisation are among the accepted values; otherwise ValueError |
| Project.NewBatch | ost/Project.py:477-561 | the batch project keeps the Sentinel-1 project's error, raises ValueError for any further rejection, and keeps the ARD type |
| Project.BatchAccepted | ost/Project.py:477-540 | the batch project is created iff the product type is GRD or SLC with one of its ARD types, and the beam mode is IW |
| Project.WorkersShareCpus | ost/Project.py:508-521 | one of the two worker counts is 1 and the other is the processor count: GRD gives the processors to the graph tool, SLC to the burst executor |
| Project.UpdateSettles | ost/Project.py:574-588 | after an update the ARD type is the one in the parameters, and updating again changes nothing |
| Project.UpdateKeepsEdits | ost/Project.py:577-579 | edited parameters of the same ARD type are kept; a changed type reloads that type's template |
| Project.StagesGating | ost/Project.py:643-668 | time series run iff time series or timescans are asked for, timescans iff asked for, the mosaics only together with what they mosaic; each stage once, time series before timescans |
| Project.Runs | ost/Project.py:643-668 | one run per stage, in order, with the worker count |
| Project.GeocodedOutsideCoverage | ost/Project.py:697-701 | outside ±59 degrees the geocoding becomes `ellipsoid` and nothing else changes |
| Project.BatchProject.constructor | ost/Project.py:550-556 | the batch project starts with its ARD type's template parameters and an empty run log |
| Project.BatchProject.UpdateArdParameters | ost/Project.py:574-588 | the ARD type and parameters become `Updated`, and the configuration holds the parameters |
| Project.BatchProject.Schedule | ost/Project.py:643-668 | the run log grows by one run per gated stage, in order; the parameters stay |
| Project.BatchProject.GrdsToArd | ost/Project.py:617-668 | the parameters are updated, then the processing directory is cleared when overwriting, the batch runs and the gated stages follow (the corrected behaviour; see Findings ost/s1/grd_batch.py:210-212) |
| Project.BatchProject.GrdsToArdAsWritten | ost/Project.py:617-641 | as written: the parameters are updated and the processing directory cleared when overwriting; then the GRD batch raises KeyError on `executor_type`, so neither the batch nor any gated stage is logged |
| Project.GrdBatchKeyMissing | ost/Project.py:139-149 | the project's configuration dictionary holds `processing` and `gpt_max_workers` but not `executor_type`, so looking that key up raises KeyError |
| Project.BatchProject.BurstsToArds | ost/Project.py:670-759 | the temporary directory is cleared, the geocoding switched outside coverage, the parameters updated, then the burst batch and the gated stages run with the burst workers (the corrected behaviour; see Findings ost/Project.py:714-758) |
| Project.BatchProject.BurstsToArdsAsWritten | ost/Project.py:670-719 | as written: the temporary directory (and, when starting over, the processing directory) is cleared, the geocoding switched and the parameters updated; then the burst batch raises TypeError, so no stage is logged |
| Project.BurstBatchAsWritten | ost/Project.py:714-758 | the burst batch function exists but rejects the dictionary it is handed with TypeError; none of the four later burst routines exists in that module (AttributeError) |
| Project.BurstGeocoding | ost/Project.py:697-706 | the ellipsoid switch survives the update when the ARD type is unchanged; a changed type reloads the template and drops it |
| GrdToArd.FrameImport | ost/s1/grd_to_ard.py:373-414 | the orbit and thermal-noise graph on `2 * cpu_count` threads with the input, the polarisations and the output, retried three times, raising GPTRuntimeError on a non-zero exit code |
| GrdToArd.FrameImportSubset | ost/s1/grd_to_ard.py:417-471 | the subsetting import graph with the input, the WKT region, the polarisations and the output, on `2 * cpu_count` threads, retried three times |
| GrdToArd.SliceAssembly | ost/s1/grd_to_ard.py:473-507 | the SliceAssembly operator over all imported frames, always with the default polarisation list, on `2 * cpu_count` threads |
| GrdToArd.SubsetGeoregion | ost/s1/grd_to_ard.py:547-583 | the Subset operator keeping the metadata, with the geographic region, from one input to the output |
| GrdToArd.ImportPlanShape | ost/s1/grd_to_ard.py:65-130 | the import runs import graphs only; a Subset stage runs iff several scenes are assembled and the region is truthy; the subsetting import iff one scene is imported with a region (even an empty one) |
| GrdToArd.CalibrateTo | ost/s1/grd_to_ard.py:156-163 | GTC-sigma0 calibrates to sigma0, GTC-gamma0 to gamma0, RTC-gamma0 to beta0, each iff; every other product type is a TypeError |
| GrdToArd.MultiLookFactor | ost/s1/grd_to_ard.py:188-190 | multi-looking runs iff the resolution is at least 20 m; the factor is the resolution divided by ten, truncated, so at least 2 |
| GrdToArd.StepOp | ost/s1/grd_to_ard.py:154-335 | no chain stage runs an import tool |
| GrdToArd.StepOpInjective | ost/s1/grd_to_ard.py:154-335 | different stages of the chain run different tools |
| GrdToArd.Plan | ost/s1/grd_to_ard.py:154-335 | calibration always runs first and terrain correction always last |
| GrdToArd.Planned | ost/s1/grd_to_ard.py:154-335 | among the first `j` candidate stages, at most `j` run |
| GrdToArd.PlannedFirst | ost/s1/grd_to_ard.py:154-185 | calibration, which has no condition, is the first stage that runs |
| GrdToArd.PlannedMembers | ost/s1/grd_to_ard.py:188-300 | a stage runs among the first `j` candidates iff it is one of them and its setting enables it |
| GrdToArd.PlannedRanked | ost/s1/grd_to_ard.py:154-335 | the stages that run keep the order of sections 3 to 9 |
| GrdToArd.PlanGating | ost/s1/grd_to_ard.py:188-300 | each optional stage runs iff its setting asks for it (resolution >= 20, create_ls_mask, remove_speckle, RTC-gamma0, to_db), and the stages run in the fixed order of the chain, each at most once |
| GrdToArd.Ops | ost/s1/grd_to_ard.py:154-335 | one tool per stage that runs |
| GrdToArd.DoneIsPlanned | ost/s1/grd_to_ard.py:154-335 | after the first `j` sections the tools that ran are the import tools followed by those of the stages planned so far |
| GrdToArd.DoneAll | ost/s1/grd_to_ard.py:154-335 | after the last section the tools that ran are the imports followed by the whole plan |
| GrdToArd.DoneGrows | ost/s1/grd_to_ard.py:154-335 | what has run only grows from section to section |
| GrdToArd.DonePrefix | ost/s1/grd_to_ard.py:154-335 | what has run extends the import and is a prefix of the whole chain |
| GrdToArd.LastEnabled | ost/s1/grd_to_ard.py:154-335 | the last enabled section before `j`, or -1 |
| GrdToArd.DoneLast | ost/s1/grd_to_ard.py:154-335 | the tool that ran last is an import or that of the last enabled section |
| GrdToArd.LastNotNext | ost/s1/grd_to_ard.py:154-335 | the tool that ran last is never that of the next section, so a retried call and a new stage are told apart |
| GrdToArd.Advance | ost/s1/grd_to_ard.py:154-335 | an enabled section adds its tool to what has run; a disabled one adds nothing |
| GrdToArd.MarkerNotProduct | ost/s1/grd_to_ard.py:357-358 | the `.processed` marker lies outside every product |
| GrdToArd.LsCleanupApart | ost/s1/grd_to_ard.py:361-365 | the mask cleanup as written never removes the backscatter product |
| GrdToArd.LsCleanupMissesMask | ost/s1/grd_to_ard.py:362-365 | with an output directory named `.dim`, the cleanup as written removes `/a_LS` and leaves the mask product in place |
| GrdToArd.ProductsShorter | ost/s1/grd_to_ard.py:362-365 | products whose prefixes differ by more than one character in length share no file |
| GrdToArd.LsCleanupPrefix | ost/s1/grd_to_ard.py:362-365 | the cleanup of the mask product removes exactly the prefix whose header is `outFinalLs` |
| GrdToArd.BorderPols | ost/s1/grd_to_ard.py:134-144 | a polarisation's border noise is removed iff it is one of VV, VH, HH, HV and its intensity image is found exactly once |
| GrdToArd.ChainStage | ost/s1/grd_to_ard.py:165-184 | one stage: the tool is logged; a raised error propagates with nothing deleted; on exit code 0 the input product is deleted and `<out>.dim` is next; on another code the input and the output are deleted before GPTRuntimeError |
| GrdToArd.ImportFrames | ost/s1/grd_to_ard.py:66-77 | each scene is frame-imported (the graph is logged once); nothing is removed, and every new path belongs to some scene's `<temp>/<basename[:-5]>_imported`; a failure raises GPTRuntimeError (the wrapper raises, so the exit-code delete after it is never reached) |
| GrdToArd.AssembleSlices | ost/s1/grd_to_ard.py:79-98 | the imported frames are assembled into `<temp>/<fid>_imported` and only that product and the subset are added; a failed assembly raises GPTRuntimeError and removes nothing; once assembled, the frames are gone; on success with a subset, the assembly is gone too |
| GrdToArd.DeleteFrames | ost/s1/grd_to_ard.py:89-91 | each frame's header path with every `.dim` removed is deleted, nothing else |
| GrdToArd.SubsetAssembly | ost/s1/grd_to_ard.py:100-112 | the assembly is subset to the region; a failed subset raises GPTRuntimeError and removes nothing; only the subset product is added and only the assembly removed, which is gone after a success |
| GrdToArd.ImportScenes | ost/s1/grd_to_ard.py:61-130 | the tools that ran are a prefix of the import plan, all of it on success; an empty file list is an IndexError with nothing run |
| GrdToArd.ApartFromLs | ost/s1/grd_to_ard.py:218-244 | no temporary product whose suffix does not end in `S` is the mask product `<out>/<fid>_LS` |
| GrdToArd.LayoverShadowStep | ost/s1/grd_to_ard.py:217-244 | the mask graph is logged; on success the mask is at `<out>/<fid>_LS` and gone from the scratch directory; `ls_mask` itself raises RuntimeError, which removes nothing, or FileNotFoundError; only the two mask products can lose paths, so the mask's input is kept |
| GrdToArd.StepSuffix | ost/s1/grd_to_ard.py:165-318 | every temporary product name is non-empty and does not end in `S` |
| GrdToArd.RunStep | ost/s1/grd_to_ard.py:154-335 | one section runs its own tool into `<temp>/<fid><suffix>`, leaving the mask product in place, and fails only with GPTRuntimeError |
| GrdToArd.TempStage | ost/s1/grd_to_ard.py:247-314 | a stage between temporary products logs its tool and leaves the mask product in place |
| GrdToArd.Section | ost/s1/grd_to_ard.py:154-335 | section `j` runs iff enabled, adding its tool to what has run, and passes its product on; a disabled section passes its input on |
| GrdToArd.Chain | ost/s1/grd_to_ard.py:154-335 | sections 3 to 9 run the plan's tools in order, all of them on success, and yield `<temp>/<fid>_bs.dim` |
| GrdToArd.ChainHead | ost/s1/grd_to_ard.py:154-244 | sections 3 to 5 run their enabled tools in order |
| GrdToArd.MaskSection | ost/s1/grd_to_ard.py:216-244 | the mask runs iff create_ls_mask |
| GrdToArd.CalibrateAndLook | ost/s1/grd_to_ard.py:154-214 | calibration, then multi-looking iff the resolution is at least 20 m |
| GrdToArd.ChainTail | ost/s1/grd_to_ard.py:246-335 | sections 6 to 9 run their enabled tools in order; the mask product stays in place |
| GrdToArd.SpeckleAndFlatten | ost/s1/grd_to_ard.py:246-296 | speckle filtering iff remove_speckle, terrain flattening iff RTC-gamma0 |
| GrdToArd.ScaleAndGeocode | ost/s1/grd_to_ard.py:298-335 | dB conversion iff to_db, then terrain correction into `<temp>/<fid>_bs` |
| GrdToArd.GeocodedApart | ost/s1/grd_to_ard.py:318-353 | the geocoded product is never the final product |
| GrdToArd.Finish | ost/s1/grd_to_ard.py:337-369 | success iff the geocoded product exists; then it replaces `<out>/<fid>_BS`, the `.processed` marker holds its text, the result is `(0, <out>/<fid>_BS.dim, vector or None)`, and the mask product is gone when no vector came out of it (the corrected behaviour; see Findings ost/s1/grd_to_ard.py:362-365) |
| GrdToArd.ImportPhase | ost/s1/grd_to_ard.py:58-152 | the import runs its plan; a found product matches `<fid>_imported*dim`; `None` only when neither import product exists; border noise only without a truthy subset; an empty list is an IndexError |
| GrdToArd.ToArd | ost/s1/grd_to_ard.py:22-369 | the tools run in the order of the import plan and then the chain's plan, all of them for a produced ARD; an empty scene returns `(0, None, None)` after the import; the marker is written only together with the final product; errors are IndexError, TypeError, RuntimeError, FileNotFoundError or GPTRuntimeError (the corrected behaviour; see Findings ost/s1/grd_to_ard.py:362-365) |
| GrdBorder.Snap | ost/s1/grd_to_ard.py:616-622 | the band read into a grid holds the array's rows, columns and pixels |
| GrdBorder.ColSumAgree | ost/s1/grd_to_ard.py:629 | the column mean depends only on the column's pixels |
| GrdBorder.DenseAgree | ost/s1/grd_to_ard.py:629 | whether a column counts as data depends only on its pixels |
| GrdBorder.LeftWindowDense | ost/s1/grd_to_ard.py:621-629 | a copy of the left 3000 columns has the same data columns as the band |
| GrdBorder.RightWindowDense | ost/s1/grd_to_ard.py:656-663 | a copy of the right 3000 columns has the same data columns as the band's last 3000 |
| GrdBorder.FirstDense | ost/s1/grd_to_ard.py:624-630 | the first data column at or after `x` (or 3000): every column before it is noise |
| GrdBorder.LeftWritten | ost/s1/grd_to_ard.py:624-644 | `cols_left` is 3000 iff no left column holds data; otherwise `min(x + 150, 3000) - 1` for the first data column `x` |
| GrdBorder.LastDense | ost/s1/grd_to_ard.py:661-664 | the last data column of the right window scanning down to column 1; column 0 is never examined |
| GrdBorder.RightStart | ost/s1/grd_to_ard.py:661-678 | `cols_right` is 0 iff no right column from 1 on holds data; otherwise `max(x - 150, 0) + 1` for the last data column `x` |
| GrdBorder.LeftWrittenAgree | ost/s1/grd_to_ard.py:624-644 | the left scan depends only on which columns hold data |
| GrdBorder.RightStartAgree | ost/s1/grd_to_ard.py:661-678 | the right scan depends only on which columns hold data |
| GrdBorder.ZeroCols | ost/s1/grd_to_ard.py:630-636 | the columns `lo .. hi-1` become zero and every other pixel is kept |
| GrdBorder.RightCleared | ost/s1/grd_to_ard.py:656-686 | after the right pass, exactly the columns from `cols - 3000 + max(cols_right, 1)` on are zero; the rest is kept |
| GrdBorder.BorderOnlyBlanks | ost/s1/grd_to_ard.py:587-687 | border removal never changes a pixel except to zero |
| GrdBorder.LeftEdge | ost/s1/grd_to_ard.py:621-651 | with `x` the first data column, exactly the columns before `min(x + 150, 3000) - 1` are zero after the left pass |
| GrdBorder.LeftEdgeAllNoise | ost/s1/grd_to_ard.py:621-651 | when no left column holds data, the whole left window is zero |
| GrdBorder.RightEdge | ost/s1/grd_to_ard.py:656-686 | with `x` the last data column of the right window, exactly the columns from `cols - 3000 + max(x - 150, 0) + 1` on are zero |
| GrdBorder.RightEdgeAllNoise | ost/s1/grd_to_ard.py:656-686 | when no right column from 1 on holds data, every column from `cols - 2999` on is zero |
| GrdBorder.ReadWindow | ost/s1/grd_to_ard.py:621-622 | `ReadAsArray(off, 0, 3000, rows)` returns a fresh copy of the 3000 columns from `off` |
| GrdBorder.WriteWindow | ost/s1/grd_to_ard.py:651 | `WriteArray` writes columns `lo .. hi-1` of the window to the band at `off + lo` and changes nothing else |
| GrdBorder.BlankColumn | ost/s1/grd_to_ard.py:630 | `fill(0)` zeroes one column and nothing else |
| GrdBorder.ScanLeft | ost/s1/grd_to_ard.py:624-644 | returns `cols_left` as `LeftWritten` of the window and leaves exactly the columns up to it zeroed |
| GrdBorder.ScanRight | ost/s1/grd_to_ard.py:661-678 | returns `cols_right` as `RightStart` of the window and leaves exactly the columns from `max(cols_right, 1)` on zeroed |
| GrdBorder.LeftPass | ost/s1/grd_to_ard.py:621-651 | the band after the left half is the left-cleared band |
| GrdBorder.ClearedRightWindow | ost/s1/grd_to_ard.py:656-678 | the right window read from the band and scanned: zero from `max(cols_right, 1)` on, the band's pixels before |
| GrdBorder.RightPass | ost/s1/grd_to_ard.py:656-686 | the band after the right half is the right-cleared band |
| GrdBorder.RemoveBorder | ost/s1/grd_to_ard.py:587-687 | `_grd_remove_border` in place: the band becomes `BorderRemoved` of its old contents, the right scan reading what the left pass wrote |
| GrdBatch.FirstIndex | ost/s1/grd_batch.py:39-47 | the position of the first occurrence of `x`, or the length when there is none |
| GrdBatch.FirstIndexPrefix | ost/s1/grd_batch.py:39-47 | a first occurrence inside a prefix is the first occurrence overall |
| GrdBatch.Unique | ost/s1/grd_batch.py:39-47 | `unique()` lists each value of the column exactly once, in the order of first appearance |
| GrdBatch.TrackColumn | ost/s1/grd_batch.py:39 | the tracks of the column are exactly those of the rows |
| GrdBatch.DateColumn | ost/s1/grd_batch.py:46-47 | the dates of a track are exactly those of its rows |
| GrdBatch.Ids | ost/s1/grd_batch.py:53-55 | the identifiers of a track and date are exactly those of its rows |
| GrdBatch.CreateProcessingDict | ost/s1/grd_batch.py:30-64 | `_create_processing_dict`: for each distinct track, in order, the identifier lists of its distinct dates, in order |
| GrdBatch.RowGrouped | ost/s1/grd_batch.py:30-64 | every row lands in the list of its own track and date, whose positions exist and are unique |
| GrdBatch.GroupSound | ost/s1/grd_batch.py:30-64 | every listed identifier comes from a row of that list's track and date |
| GrdBatch.ListsToProcess | ost/s1/grd_batch.py:203-209 | one `(track, scenes)` pair per acquisition, tracks in dictionary order |
| GrdBatch.UnitOrigin | ost/s1/grd_batch.py:207-209 | each unit is one acquisition of one track |
| GrdBatch.UnitOfInventory | ost/s1/grd_batch.py:203-209 | a unit holds at least one scene, so `list_of_scenes[0]` never fails, and all its scenes are rows of its track and one date |
| GrdBatch.AcquisitionOfInventory | ost/s1/grd_batch.py:46-58 | the `j`-th acquisition of a track is non-empty and all its scenes were acquired on its `j`-th date |
| GrdBatch.BsFileIsDim | ost/s1/grd_batch.py:120-121 | the product `<file_id>_BS` is the file `<file_id>_BS.dim` |
| GrdBatch.UnitMarkerLayout | ost/s1/grd_batch.py:117-126 | a unit's marker lies in `<processing_dir>/<track>/<date>/.processed` |
| GrdBatch.UnitMarkersDistinct | ost/s1/grd_batch.py:117-126 | units of different tracks or dates have different markers, so one unit's marker never makes another skip |
| GrdBatch.StartDate | ost/s1/grd_batch.py:115 | an empty scene list is an IndexError; otherwise the start date exists iff the first scene id parses |
| GrdBatch.ScenePath | ost/s1/grd_batch.py:161-164 | a scene's path is its download path, when the id parses, a download directory is given and the archive exists; a parse error propagates |
| GrdBatch.Assigned | ost/s1/grd_batch.py:131-189 | the rows of the unit's scenes take the unit's outputs; every other row keeps its own |
| GrdBatch.AssignRows | ost/s1/grd_batch.py:176-180 | the loop over rows and scenes writes exactly `Assigned` |
| GrdBatch.SkipUnit | ost/s1/grd_batch.py:126-142 | a processed acquisition: nothing runs, and the rows of its scenes get the product and mask paths iff those files exist; a scene that does not parse fails it |
| GrdBatch.RunUnit | ost/s1/grd_batch.py:159-180 | the scene paths are located (a failure stops before any tool runs), `grd_to_ard` runs, and the rows get its product and mask; a product implies the unit's marker |
| GrdBatch.ExecuteUnit | ost/s1/grd_batch.py:68-190 | `_execute_grd_batch`: a bad first scene fails before anything runs; an existing marker means nothing runs and the outputs found are recorded; a product recorded is `<dir>/<file_id>_BS.dim` with its marker |
| GrdBatch.RetriedUnit | ost/s1/grd_batch.py:67-68 | `retry(tries=4)`: one to four attempts, four when the last one fails |
| GrdBatch.Merged | ost/s1/grd_batch.py:228-233 | the merge keeps the number of rows |
| GrdBatch.MergedUnitRows | ost/s1/grd_batch.py:228-233 | a row of one of the unit's scenes ends up with the unit's outputs; a row merely claimed by case-insensitive substring takes the copy's value; every other row keeps its own |
| GrdBatch.Inventory.Merge | ost/s1/grd_batch.py:228-233 | the in-place merge leaves the outputs `Merged`: every claimed row takes the copy (the corrected behaviour; see Findings ost/s1/grd_batch.py:228-235) |
| GrdBatch.FirstClaimed | ost/s1/grd_batch.py:228-230 | the first row one of the unit's scenes claims: no row before it is claimed |
| GrdBatch.Inventory.MergeAsWritten | ost/s1/grd_batch.py:226-235 | as written: with an `out_tif` column in the copy the merge is `Merged`; without one, the first claimed row takes the copy and the read of `out_tif` raises KeyError, which ends the merge |
| GrdBatch.MergeStopsAtFirstRow | ost/s1/grd_batch.py:228-235 | without an `out_tif` column, a unit claiming two rows leaves the later one with its old output; with the column that row takes the copy |
| GrdBatch.OuterWorkers | ost/s1/grd_batch.py:210 | `int(cpu_count / 4)`, which is 0 iff there are fewer than four processors |
| GrdBatch.UnclaimedBefore | ost/s1/grd_batch.py:226-235 | a row no unit up to `k` claims is claimed by none before `k` nor by unit `k` |
| GrdBatch.GrdToArdBatch | ost/s1/grd_batch.py:193-236 | `grd_to_ard_batch`: without `executor_type` in the configuration it raises KeyError and changes nothing; otherwise the worker count is `int(cpu_count/4)`, only units of the inventory fail, and rows no unit claims keep their outputs (the merge is the corrected one; see Findings ost/s1/grd_batch.py:228-235) |
| GrdBatch.TrackLayersDated | ost/s1/grd_batch.py:353-360 | every `*bs.<pol>.tif` layer name has a second dot-separated field |
| GrdBatch.PolTimescans | ost/s1/grd_batch.py:336-374 | every timescan of a track is for one of the polarisations, is due (marker absent, stack present) and carries its layers' dates |
| GrdBatch.TimescanPlan | ost/s1/grd_batch.py:326-374 | every timescan of the plan is for a track of the list and a due polarisation |
| GrdBatch.PolTimescansComplete | ost/s1/grd_batch.py:336-374 | every due polarisation of a track gets its timescan |
| GrdBatch.TimescanPlanComplete | ost/s1/grd_batch.py:326-374 | every due track and polarisation gets its timescan |
| GrdBatch.ScanDates | ost/s1/grd_batch.py:358-360 | the dates are the second dot-separated field of each base name, in order |
| GrdBatch.Timescan | ost/s1/grd_batch.py:343-374 | one timescan of a track's stack and polarisation, with the run's rescaling, metrics and outlier removal, and dated by the track's sorted layers |
| GrdBatch.TrackTimescans | ost/s1/grd_batch.py:336-374 | the polarisation loop of one track produces exactly `PolTimescans` |
| GrdBatch.TimeseriesToTimescan | ost/s1/grd_batch.py:309-374 | `timeseries_to_timescan` produces exactly the plan over the inventory's tracks; every job carries the configured metrics and outlier removal, and rescales iff the output type is not float32 |
| GrdBatch.LayerFilesAsWritten | ost/s1/grd_batch.py:399-403 | as written, the `'Mosaic' not in file` filter keeps only candidates whose whole path lacks "Mosaic" |
| GrdBatch.LayerFiles | ost/s1/grd_batch.py:399-403 | the layer files are candidates |
| GrdBatch.MosaicsNotLayers | ost/s1/grd_batch.py:399-403 | the mosaics in `Mosaic/Timeseries` are never taken as layers, whatever the processing directory is called |
| GrdBatch.OtherLayersKept | ost/s1/grd_batch.py:399-403 | a layer of any directory other than `Mosaic` is kept, whatever the processing directory is called |
| GrdBatch.MosaicDirLosesLayers | ost/s1/grd_batch.py:399-403 | a processing directory whose path mentions "Mosaic" loses every layer to the filter as written |
| GrdBatch.LayerFilesDated | ost/s1/grd_batch.py:410-412 | every layer's base name has a second `_` field |
| GrdBatch.DatesOf | ost/s1/grd_batch.py:410-412 | layers give at least one date |
| GrdBatch.LayerDates | ost/s1/grd_batch.py:410-412 | a layer with files has at least one date |
| GrdBatch.LayerName | ost/s1/grd_batch.py:410-425 | a mosaic name exists iff the layer has files; otherwise `sorted([])[0]` is an IndexError |
| GrdBatch.LayerNameDates | ost/s1/grd_batch.py:415-425 | the name's dates are the least and greatest layer dates in text order, both the least when there is one time step; `<i>_<start>_bs_<p>.tif` when they are equal, else `<i>.<start>-<end>_bs_<p>.tif` |
| GrdBatch.PlanLayers | ost/s1/grd_batch.py:398-441 | the layer loop succeeds iff every name does (else the error of one), and lists one out-file per layer, in order |
| GrdBatch.PlanLayersJobs | ost/s1/grd_batch.py:427-441 | every layer whose marker is absent gets its mosaic |
| GrdBatch.PlanLayersJob | ost/s1/grd_batch.py:427-441 | the `k`-th layer with its marker absent gets its mosaic |
| GrdBatch.PlanLayersMarked | ost/s1/grd_batch.py:427-441 | a mosaic is computed only for a layer whose marker is absent |
| GrdBatch.Layers | ost/s1/grd_batch.py:398-441 | the layers succeed iff every layer has files; the failure is an IndexError |
| GrdBatch.PlanLayersStop | ost/s1/grd_batch.py:398-420 | once a name fails, the loop stops there with its error |
| GrdBatch.PlanLayersStep | ost/s1/grd_batch.py:398-441 | one more layer appends its out-file, and its mosaic when not marked |
| GrdBatch.LayerCount | ost/s1/grd_batch.py:390-393 | the count fails iff there are no tracks (`tracks[0]`), with an IndexError |
| GrdBatch.TsMosaicPlan | ost/s1/grd_batch.py:389-449 | with no tracks and some polarisation the plan is an IndexError; every failure is an IndexError |
| GrdBatch.TsMosaicListed | ost/s1/grd_batch.py:432-449 | every VRT lists at least one layer, and every mosaic computed is listed in a VRT |
| GrdBatch.TsMosaicVrt | ost/s1/grd_batch.py:389-449 | each polarisation with layers gets a VRT of all its layers' outputs, marked ones included |
| GrdBatch.TsMosaicStop | ost/s1/grd_batch.py:389-420 | a failing polarisation fails the whole plan |
| GrdBatch.ListedDates | ost/s1/grd_batch.py:410-412 | the dates read from a listing are exactly the dates of its layers |
| GrdBatch.MosaicLayer | ost/s1/grd_batch.py:399-425 | the loop body computes the layer's name |
| GrdBatch.MosaicLayers | ost/s1/grd_batch.py:397-441 | the layer loop produces exactly `Layers` |
| GrdBatch.MosaicTimeseries | ost/s1/grd_batch.py:377-449 | `mosaic_timeseries` produces exactly the plan over the four polarisations (the corrected behaviour; see Findings ost/s1/grd_batch.py:399-403) |
| GrdBatch.MosaicPolarisations | ost/s1/grd_batch.py:389-449 | the polarisation loop produces exactly `TsMosaicPlan` |
| GrdBatch.MosaicPolarisation | ost/s1/grd_batch.py:390-449 | one polarisation adds nothing without layers, otherwise its mosaics and VRT |
| GrdBatch.RemoveFirst | ost/s1/grd_batch.py:461 | `list.remove` takes away exactly one occurrence |
| GrdBatch.MetricsAsWritten | ost/s1/grd_batch.py:460-466 | as written, `harmonics` or `percentiles` raise AttributeError at `extent`; otherwise the metrics are unchanged |
| GrdBatch.ReplaceMetricCount | ost/s1/grd_batch.py:460-466 | the replacement removes one `x` and adds the extra metrics when `x` occurs, and changes nothing otherwise |
| GrdBatch.ExpandKeeps | ost/s1/grd_batch.py:460-466 | every other metric is kept |
| GrdBatch.ExpandHarmonics | ost/s1/grd_batch.py:460-462 | `harmonics` yields amplitude, phase and residuals |
| GrdBatch.ExpandPercentiles | ost/s1/grd_batch.py:464-466 | `percentiles` yields p95 and p5 |
| GrdBatch.ExpandDistinct | ost/s1/grd_batch.py:460-466 | a list naming each metric once names neither expanded metric afterwards |
| GrdBatch.MetricMosaics | ost/s1/grd_batch.py:474-501 | every timescan mosaic of a polarisation is for a due metric: found in at least two tracks and not marked |
| GrdBatch.TscanPlan | ost/s1/grd_batch.py:474-501 | every timescan mosaic is for a due polarisation and metric |
| GrdBatch.MetricMosaicsComplete | ost/s1/grd_batch.py:474-501 | every due metric of a polarisation gets its mosaic |
| GrdBatch.TscanPlanComplete | ost/s1/grd_batch.py:474-501 | every layer in at least two tracks and not marked gets its mosaic |
| GrdBatch.PolarMosaics | ost/s1/grd_batch.py:474-501 | the metric loop produces exactly `MetricMosaics` |
| GrdBatch.MosaicTimescan | ost/s1/grd_batch.py:452-501 | `mosaic_timescan` produces exactly the plan over VV, HH, VH, HV and the expanded metrics (the corrected behaviour; see Findings ost/s1/grd_batch.py:460-466) |
| GrdBatch.TimescanPolarisations | ost/s1/grd_batch.py:474-501 | the polarisation loop produces exactly `TscanPlan` |
| CommonWrappers.CalibrationFlags | ost/generic/common_wrappers.py:17-24 | each band flag is `true` exactly for its own target (beta0, gamma0, sigma0) and `false` otherwise |
| CommonWrappers.CalibrationFlagsExactlyOne | ost/generic/common_wrappers.py:17-24 | exactly one band is requested for a known target, none for any other |
| CommonWrappers.Calibration | ost/generic/common_wrappers.py:14-50 | the Calibration operator with the three band flags from the target, source and target product; returns the exit code |
| CommonWrappers.MultiLook | ost/generic/common_wrappers.py:53-79 | the Multilook operator with the azimuth and range looks; returns the exit code |
| CommonWrappers.SpeckleParams | ost/generic/common_wrappers.py:103-129 | the speckle filter passes eleven parameters, all named from the filter settings |
| CommonWrappers.SpeckleFilterCall | ost/generic/common_wrappers.py:82-143 | the Speckle-Filter operator with those eleven parameters, retried three times and raising GPTRuntimeError |
| CommonWrappers.LinearToDb | ost/generic/common_wrappers.py:146-180 | the LinearToFromdB operator without parameters, retried three times and raising GPTRuntimeError |
| CommonWrappers.DemParams | ost/generic/common_wrappers.py:190-203 | the elevation model is passed as four parameters |
| CommonWrappers.TerrainFlattening | ost/generic/common_wrappers.py:183-220 | the only wrapper run once: the four DEM parameters, overlap 0.1 and oversampling 1.5, raising GPTRuntimeError on failure |
| CommonWrappers.TerrainCorrection | ost/generic/common_wrappers.py:223-288 | the Terrain-Correction operator with the four DEM parameters, the pixel spacing and the lower-cased EGM flag, retried three times |
| CommonWrappers.LsMask | ost/generic/common_wrappers.py:291-335 | the layover/shadow graph at twice the ARD resolution with nearest-neighbour resampling, raising RuntimeError rather than GPTRuntimeError |
| CommonWrappers.CreateStack | ost/generic/common_wrappers.py:338-369 | the H-A-Alpha stacking graph with band pattern `<pattern>.*` iff a pattern is given, otherwise the polarisation stacking graph |
| CommonWrappers.MtSpeckleFilter | ost/generic/common_wrappers.py:372-420 | the multi-temporal speckle filter with the eleven filter parameters, retried three times |
| SlcWrappers.ImportPolars | ost/s1/slc_wrappers.py:35-42 | the imported polarisations hold no space; without coherence they are the backscatter list; with coherence the longer of the two lists, ties going to backscatter |
| SlcWrappers.BurstImport | ost/s1/slc_wrappers.py:35-63 | the import graph with `2 * gpt_max_workers` threads and the input, polarisations, swath, burst and output parameters, retried three times |
| SlcWrappers.PolSpeckleParams | ost/s1/slc_wrappers.py:114-120 | the polarimetric speckle filter passes seven parameters |
| SlcWrappers.HaAlpha | ost/s1/slc_wrappers.py:99-136 | the speckle-filtering graph with the seven filter parameters after input and output iff `remove_pol_speckle`; otherwise the plain graph with input and output only |
| SlcWrappers.LookFactors | ost/s1/slc_wrappers.py:188-189 | at most one azimuth look and five times as many range looks: (1, 5) from 10 m on, (0, 0) below |
| SlcWrappers.SlcCalibration | ost/s1/slc_wrappers.py:183-251 | succeeds exactly for the three product types, each with its own graph; the DEM parameters are passed iff `RTC-gamma0`; any other type raises TypeError |
| SlcWrappers.Coreg | ost/s1/slc_wrappers.py:289-305 | back-geocoding of master and slave into the target with `maskOutAreaWithoutElevation=false` |
| SlcWrappers.Coreg2 | ost/s1/slc_wrappers.py:343-360 | the co-registration graph with master, slave and output parameters |
| SlcWrappers.Coherence | ost/s1/slc_wrappers.py:394-411 | the coherence graph with the coherence bands (spaces removed), both windows, input and output |
| SlcWrappers.SlcResult | ost/s1/slc_wrappers.py:64-83 | a wrapper returns `<outfile>.dim` exactly when its run succeeded, and otherwise raises the run's error |
| SlcWrappers.RunSlc | ost/s1/slc_wrappers.py:13-83 | the command is run until it succeeds, at most three times; the result is the product path or GPTRuntimeError |
| BurstToArd.ToProduce | ost/s1/burst_to_ard.py:327-345 | a family is to be produced exactly when it is requested (coherence: requested and a slave file exists) and its `.pol`/`.bs`/`.coh.processed` marker is absent |
| BurstToArd.CalibrationOp | ost/s1/slc_wrappers.py:192-251 | a calibration graph exists exactly for `RTC-gamma0`, `GTC-gamma0` and `GTC-sigma0` |
| BurstToArd.PlanFamilies | ost/s1/burst_to_ard.py:341-406 | each family's first tool is in the burst's plan iff the family is produced; the import tool iff some family is due and the master import is missing or coherence runs |
| BurstToArd.MarkedNotRerun | ost/s1/burst_to_ard.py:371-381 | a family whose marker was present runs none of its tools, anywhere in what the call ran |
| BurstToArd.Decompose | ost/s1/burst_to_ard.py:49-52 | the decomposition writes at most its product, logs the decomposition graph, and fails only with GPTRuntimeError |
| BurstToArd.Geocode | ost/s1/burst_to_ard.py:64-67 | terrain correction writes at most its product, logs `Terrain-Correction`, fails only with GPTRuntimeError |
| BurstToArd.Calibrate | ost/s1/burst_to_ard.py:112-114 | an unsupported product type raises TypeError and changes nothing; otherwise the calibration graph is logged and only GPTRuntimeError is raised |
| BurstToArd.Despeckle | ost/s1/burst_to_ard.py:127-130 | the speckle filter writes at most its product and logs `Speckle-Filter` |
| BurstToArd.ScaleToDb | ost/s1/burst_to_ard.py:149 | dB scaling writes at most its product and logs `LinearToFromdB` |
| BurstToArd.LayoverShadow | ost/s1/burst_to_ard.py:192 | the layover/shadow mask writes at most its product, logs its graph, and fails only with RuntimeError |
| BurstToArd.PolSteps | ost/s1/burst_to_ard.py:37-80 | decomposition then geocoding inside the scratch directory; on success the result is moved to `<out>/<prefix>_pol` and only then the marker written |
| BurstToArd.PolarimetricLayers | ost/s1/burst_to_ard.py:16-80 | on success exactly the `_pol` product and the `.pol.processed` marker are added; on failure no marker and nothing beyond the `_pol` product changes; the scratch directory is gone; tools run in plan order |
| BurstToArd.BsRadiometry | ost/s1/burst_to_ard.py:103-155 | calibration, then optional speckle filter and dB scaling, each deleting its input; returns the last product's name; unsupported product type raises TypeError with nothing run |
| BurstToArd.RadiometryOpsSplit | ost/s1/burst_to_ard.py:103-155 | the radiometric tools are calibration followed by the optional filters, and prefixes of the filters extend to prefixes of the whole |
| BurstToArd.BsFilters | ost/s1/burst_to_ard.py:116-155 | the optional speckle filter and dB scaling each consume and delete the product before them, all inside the scratch directory |
| BurstToArd.BsSpeckle | ost/s1/burst_to_ard.py:116-136 | the speckle filter runs iff `remove_speckle`, replacing the calibrated product by `_speckle_import` |
| BurstToArd.BsGeocoding | ost/s1/burst_to_ard.py:157-205 | geocoding, optional mask and their moves, then the `.bs.processed` marker, written only when all passed |
| BurstToArd.BsProducts | ost/s1/burst_to_ard.py:157-201 | the geocoded product is moved to `<out>/<prefix>_bs`, then the mask (when requested) to `<out>/<prefix>_LS`, both from the same radiometric input |
| BurstToArd.BsTerrain | ost/s1/burst_to_ard.py:157-179 | terrain correction into the scratch `_bs` product, then its move to the output directory |
| BurstToArd.BsMask | ost/s1/burst_to_ard.py:181-201 | the layover/shadow mask into the scratch `_LS` product, then its move to the output directory |
| BurstToArd.BsScratch | ost/s1/burst_to_ard.py:99-201 | the family's scratch products lie below the scratch directory and the radiometric and geocoded ones differ |
| BurstToArd.BsSteps | ost/s1/burst_to_ard.py:99-205 | the whole backscatter family inside the scratch directory: outputs and marker on success, no marker on failure, tools in plan order |
| BurstToArd.BackscatterLayers | ost/s1/burst_to_ard.py:83-214 | on success exactly the backscatter outputs (with the mask iff requested) and the `.bs.processed` marker are added; an unsupported product type raises TypeError and changes nothing; the scratch directory is gone |
| BurstToArd.CoRegister | ost/s1/burst_to_ard.py:247-250 | co-registration of slave onto master writes at most its product and logs `Back-Geocoding` |
| BurstToArd.EstimateCoherence | ost/s1/burst_to_ard.py:268 | the coherence estimate writes at most its product and logs the coherence graph |
| BurstToArd.CohStack | ost/s1/burst_to_ard.py:238-271 | co-registration, deletion of the master import, coherence estimate, deletion of the stack |
| BurstToArd.CohGeocode | ost/s1/burst_to_ard.py:273-305 | geocoding of the coherence product, its deletion, the move to `<out>/<prefix>_coh` and then the marker |
| BurstToArd.CohSteps | ost/s1/burst_to_ard.py:235-305 | the whole coherence family inside the scratch directory, tools in plan order, marker only on success |
| BurstToArd.CoherenceLayers | ost/s1/burst_to_ard.py:217-305 | on success the master import is gone and exactly the `_coh` product and `.coh.processed` marker are added; the scratch directory is gone |
| BurstToArd.ImportMaster | ost/s1/burst_to_ard.py:351-367 | no import runs when `<temp>/<prefix>_import.dim` exists; otherwise the import runs once and a failed import is deleted and raises GPTRuntimeError |
| BurstToArd.FamilyPassed | ost/s1/burst_to_ard.py:76-80 | a family's marker is written only with its outputs on disk, so every marker present is backed by its products |
| BurstToArd.FamilyFailed | ost/s1/burst_to_ard.py:37-80 | a failed family writes no marker and touches only its own outputs, keeping the burst's progress |
| BurstToArd.PolStep | ost/s1/burst_to_ard.py:371-374 | the polarimetric family keeps the burst's progress, adds only its marker, and runs its tools in plan order |
| BurstToArd.BsStep | ost/s1/burst_to_ard.py:376-379 | the backscatter family keeps the burst's progress, adds only its marker, and runs its tools in plan order |
| BurstToArd.ClearedFrame | ost/s1/burst_to_ard.py:396-398 | emptying the temporary directory keeps every result and marker outside it |
| BurstToArd.ImportSlave | ost/s1/burst_to_ard.py:387-398 | the slave import runs once; when it fails the temporary directory is emptied and GPTRuntimeError raised |
| BurstToArd.CohLayersStep | ost/s1/burst_to_ard.py:400-403 | the coherence layers from master and slave imports keep the burst's progress and add only the `.coh` marker |
| BurstToArd.CohStep | ost/s1/burst_to_ard.py:381-403 | slave import then coherence layers; on success the `.coh` marker is present and the master import gone |
| BurstToArd.PolIfDue | ost/s1/burst_to_ard.py:371-374 | the polarimetric family runs iff it is due; its tools, or none, in plan order |
| BurstToArd.BsIfDue | ost/s1/burst_to_ard.py:376-379 | the backscatter family runs iff it is due; its tools, or none, in plan order |
| BurstToArd.FirstFamilies | ost/s1/burst_to_ard.py:371-379 | polarimetric then backscatter, each when due; no marker besides theirs is added, and on success both due markers are present |
| BurstToArd.LastFamily | ost/s1/burst_to_ard.py:381-406 | the coherence family when due, otherwise the deletion of the master import; either way the master import is gone on success |
| BurstToArd.RunFamilies | ost/s1/burst_to_ard.py:371-406 | the families run in the order polarimetric, backscatter, coherence; on success every due marker is present and the master import gone (the corrected behaviour; see Findings ost/s1/burst_to_ard.py:214 and 361-364) |
| BurstToArd.ProduceFamilies | ost/s1/burst_to_ard.py:347-406 | the master import (unless on disk) and then the due families, the tools run being a prefix of the burst's plan, the whole plan on success (the corrected behaviour; see Findings ost/s1/burst_to_ard.py:214, 361-364 and 365-367) |
| BurstToArd.Outputs | ost/s1/burst_to_ard.py:408-423 | each returned header is present iff its family is requested (the mask with the backscatter), whatever ran |
| BurstToArd.OutputsNamed | ost/s1/burst_to_ard.py:408-423 | each returned header names its family's output product; the mask header is among the outputs only when a mask is made |
| BurstToArd.ProduceBurst | ost/s1/burst_to_ard.py:308-423 | nothing runs when every requested family is marked; otherwise the tools run are a prefix of the plan (all of it on success), every due marker is set on success, and the returned headers are those of the settings (the corrected behaviour; see Findings ost/s1/burst_to_ard.py:214, 361-364 and 365-367) |
| BurstToArd.SlcCallsAsWritten | ost/s1/burst_to_ard.py:361-364 | the calls of `burst_import` (361-364), `ha_alpha` (49-52), `calibration` (112-114), `coreg` (247-250) and `coherence` (268) as written do not bind and raise TypeError |
| BurstToArd.SlcCallsIntended | ost/s1/slc_wrappers.py:14-21 | each wrapper called with its own parameters binds |
| BurstToArd.ImportCheckAsWritten | ost/s1/burst_to_ard.py:365-367 | the returned path string compared with 0 is always unequal, so as written every import is treated as failed |
| BurstToArd.ReturnPathAsWritten | ost/s1/burst_to_ard.py:214 | a path plus the string `.dim` raises TypeError |
| BurstBatch.TruncDiv | ost/s1/burst_batch.py:45 | `int(a / b)` fails exactly on a zero divisor, with ZeroDivisionError; it is the floor quotient for non-negative operands and never positive when the signs differ |
| BurstBatch.TuneWorkers | ost/s1/burst_batch.py:44-45 | a single requested worker is widened to `int(cpus / gpt_max_workers)` exactly when `gpt_max_workers < cpus`; otherwise the request stands |
| BurstBatch.TunedWorkersFit | ost/s1/burst_batch.py:44-45 | in the widened case at least one unit runs, the units' threads fit in the CPUs, and one more unit would not fit |
| BurstBatch.ZeroThreads | ost/s1/burst_batch.py:44-45 | a `gpt_max_workers` of 0 below the CPU count raises ZeroDivisionError |
| BurstBatch.Dispatch | ost/s1/burst_batch.py:49-54 | the batch succeeds iff every burst's task succeeds; otherwise it raises the error of the first failing task, all before it having passed |
| BurstBatch.BurstsToArds | ost/s1/burst_batch.py:26-54 | a failing worker rule raises its error; otherwise the batch succeeds iff every burst succeeds, with the tuned worker count |
| ArdToTs.ToDb | ost/generic/ard_to_ts.py:65-71 | dB conversion happens iff the single-scene ARD does not already convert, the product is backscatter and the time-series ARD asks for it |
| ArdToTs.StackCall | ost/generic/ard_to_ts.py:85-102 | the stacking call reads the comma-joined, quoted file list; an H-A-Alpha band is selected by band pattern, any other polarisation by the polarisation parameter |
| ArdToTs.StackSource | ost/generic/ard_to_ts.py:82-121 | the product read from: IndexError for no input, the first input for one or two, else the (filtered or unfiltered) stack in the temporary directory |
| ArdToTs.Stack | ost/generic/ard_to_ts.py:82-121 | stacking (and filtering, deleting the unfiltered stack) runs only for more than two inputs, and on success leaves exactly the scratch products of `StackSource` |
| ArdToTs.Filter | ost/generic/ard_to_ts.py:139 | `glob('*.img')` keeps exactly the entries that are band images, and no more of them than the listing has |
| ArdToTs.FilterAppend | ost/generic/ard_to_ts.py:139 | listing order is kept: a listing extended by one entry filters to the old result extended by that entry exactly when it is a band image |
| ArdToTs.HitIndex | ost/generic/ard_to_ts.py:155-159 | the position of the first entry matching `*<a>*<b>*img`, no earlier entry matching |
| ArdToTs.FirstHit | ost/generic/ard_to_ts.py:155-159 | `list(glob(...))[0]` is an IndexError iff nothing matches, and otherwise the first match |
| ArdToTs.BandDate | ost/generic/ard_to_ts.py:190-193 | a band's date, when it parses, is a valid calendar date |
| ArdToTs.PairDate | ost/generic/ard_to_ts.py:137-145 | a coherence band's master or slave date, when it parses, is a valid calendar date |
| ArdToTs.SingleDate | ost/generic/ard_to_ts.py:195-198 | a single product's date, when it parses, is a valid calendar date |
| ArdToTs.SortedDates | ost/generic/ard_to_ts.py:137-145 | the sort fails iff some file does not parse, with that file's error, and otherwise yields the parsed dates in chronological order, as a permutation |
| ArdToTs.Printed | ost/generic/ard_to_ts.py:148-149 | each date printed in turn with the format |
| ArdToTs.ReformatPrinted | ost/generic/ard_to_ts.py:162-163 | re-reading a `%d%b%Y` string and printing it in another format gives the date in that format |
| ArdToTs.Zip | ost/generic/ard_to_ts.py:152 | `zip` pairs the k-th elements, as many as the shorter list |
| ArdToTs.LastDot | ost/generic/ard_to_ts.py:191 | the last dot of a name, or -1 when there is none |
| ArdToTs.StretchOf | ost/generic/ard_to_ts.py:127-133 | the stretch range is looked up under the band for an H-A-Alpha band and under the product otherwise; a KeyError for any other product |
| ArdToTs.Collect | ost/generic/ard_to_ts.py:152-249 | a conversion loop: the done steps are those of the items in order, all of them or all before the first raising one |
| ArdToTs.CollectStops | ost/generic/ard_to_ts.py:152-249 | once an item has raised, the later items change nothing |
| ArdToTs.CollectStep | ost/generic/ard_to_ts.py:152-249 | one more item of a loop that has not raised |
| ArdToTs.NumberedFile | ost/generic/ard_to_ts.py:166-168 | an output is numbered `i+1` with two digits in the output directory |
| ArdToTs.DatedStep | ost/generic/ard_to_ts.py:203-249 | a stacked series' k-th conversion reads the first matching band and writes `<k+1>_<YYYYMMDD>_<product>_<pol>.tif` |
| ArdToTs.PairConversion | ost/generic/ard_to_ts.py:152-185 | a coherence series' k-th conversion reads the band of the date pair and writes `<k+1>.<yymmdd>.<yymmdd>.<product>.<pol>.tif` |
| ArdToTs.SeriesMasking | ost/generic/ard_to_ts.py:65-71 | the layers are masked with the series' extent and the time-series output data type, and converted to dB iff the single-scene ARD does not already convert, the product is backscatter and the time-series ARD asks for it |
| ArdToTs.MaskCalls | ost/generic/ard_to_ts.py:172-182 | one masking call per conversion, in order; every call describes its band, as the coherence call does explicitly and the other call (ost/generic/ard_to_ts.py:238-245) by `description`'s default |
| ArdToTs.Outputs | ost/generic/ard_to_ts.py:185 | the outputs are the conversions' files, in order |
| ArdToTs.OutSet | ost/generic/ard_to_ts.py:185 | the set of the conversions' files |
| ArdToTs.ConvertAll | ost/generic/ard_to_ts.py:152-249 | the loop computes `Collect`, writes exactly the done outputs and logs one masking call each |
| ArdToTs.ConversionWritten | ost/generic/ard_to_ts.py:172-185 | what one more conversion adds to the files, markers and call log |
| ArdToTs.OutSetAppend | ost/generic/ard_to_ts.py:185 | appending a conversion adds its file |
| ArdToTs.MaskCallsAppend | ost/generic/ard_to_ts.py:172-182 | appending a conversion appends its masking call |
| ArdToTs.FirstRejected | ost/generic/ard_to_ts.py:253-257 | the first output with a non-zero check code, all before it passing; none iff all pass |
| ArdToTs.CheckOutputs | ost/generic/ard_to_ts.py:253-257 | the first rejected output is deleted and its code returned; 0 and nothing changed when all pass |
| ArdToTs.CollectNumbered | ost/generic/ard_to_ts.py:166-168 | every output of the loop is numbered by its position |
| ArdToTs.NumberedDistinct | ost/generic/ard_to_ts.py:166-168 | the outputs are pairwise distinct files |
| ArdToTs.PairBands | ost/generic/ard_to_ts.py:135-185 | the coherence branch computes `PairPlan` and writes exactly its outputs |
| ArdToTs.DatedBands | ost/generic/ard_to_ts.py:188-249 | the stacked branch computes `DatedPlan` and writes exactly its outputs |
| ArdToTs.SingleBands | ost/generic/ard_to_ts.py:194-249 | the single-product branch computes `SinglePlan`: no band of the polarisation returns None |
| ArdToTs.Bands | ost/generic/ard_to_ts.py:135-249 | the conversion branch by product and count computes `BandPlan`; a date error stops before anything is written |
| ArdToTs.UnnumberedApart | ost/generic/ard_to_ts.py:51-52 | the marker and the VRT are none of the numbered outputs |
| ArdToTs.Series | ost/generic/ard_to_ts.py:74-249 | the temporary-directory block: stacking then conversions; on leaving, only the outputs remain added, and the call log ends with one masking call per conversion (exactly those for at most two inputs) |
| ArdToTs.ScratchLeft | ost/generic/ard_to_ts.py:74 | dropping the scratch stacks leaves the earlier paths and the outputs |
| ArdToTs.ScratchProducts | ost/generic/ard_to_ts.py:78-79 | the scratch stacks lie in the fresh temporary directory and are none of the earlier paths |
| ArdToTs.OutputsApart | ost/generic/ard_to_ts.py:166-168 | the outputs lie outside the temporary directory |
| ArdToTs.PlanError | ost/generic/ard_to_ts.py:74-249 | the plan raises iff it fails before or inside the conversion loop |
| ArdToTs.Finish | ost/generic/ard_to_ts.py:253-271 | the first rejected output is deleted and its code returned; otherwise the marker is written and the VRT built over the outputs |
| ArdToTs.ArdToTimeseries | ost/generic/ard_to_ts.py:14-271 | `ard_to_ts`: an already processed series returns at once and changes nothing; otherwise the result and the files are those of the plan, and the call log ends with the plan's masking calls under `SeriesMasking` of the configuration followed by the VRT when the marker is written (exactly that for at most two inputs), or a stacking error with nothing changed |
| ArdToTs.CheckSeries | ost/generic/ard_to_ts.py:74-271 | after the temporary-directory block: the series' error or nothing for a missing band with no change; otherwise the first rejected output deleted with its code, or the marker and the VRT written and the VRT call logged |
| ArdToTs.Conclude | ost/generic/ard_to_ts.py:74-271 | the result, the files and the call log in terms of the plan |
| ArdToTs.ConcludeCalls | ost/generic/ard_to_ts.py:172-271 | the call log ends with the plan's masking calls and, when the marker is written, the VRT call; exactly that for at most two inputs |
| ArdToTs.LayoutApart | ost/generic/ard_to_ts.py:51-52 | the marker and the VRT are distinct from every output |
| ArdToTs.DatedSteps | ost/generic/ard_to_ts.py:200-249 | each stacked conversion carries the k-th date in `%Y%m%d` and is numbered k+1 |
| ArdToTs.DatedPlanOf | ost/generic/ard_to_ts.py:188-249 | the stacked plan once its dates are read |
| ArdToTs.DatedChronological | ost/generic/ard_to_ts.py:188-249 | a stacked series writes its outputs in date order: the k-th output, numbered k+1, carries the k-th of the sorted dates |
| ArdToTs.PairSteps | ost/generic/ard_to_ts.py:148-185 | each coherence conversion carries the k-th master and slave dates in `%y%m%d` |
| ArdToTs.PairPlanOf | ost/generic/ard_to_ts.py:135-185 | the coherence plan once both date lists are read |
| ArdToTs.PairsChronological | ost/generic/ard_to_ts.py:137-185 | the k-th output pairs the k-th master date with the k-th slave date, each list sorted on its own |
| ArdToTs.MarkerOnlyWhenPassed | ost/generic/ard_to_ts.py:253-261 | the marker is written exactly when every conversion ran and every output passed its check |
| ArdToTs.RejectedKeepsOthers | ost/generic/ard_to_ts.py:253-257 | a rejected output is the only file deleted: the others stay, and neither marker nor VRT is written |
| ArdToTs.RemoveOne | ost/generic/ard_to_ts.py:256 | deleting one of several distinct new outputs leaves the others |
| BurstTs.PathGlob | ost/s1/burst_ts.py:34 | `dir.glob(pattern)` finds exactly the existing paths below `dir` whose parts match the pattern's parts |
| BurstTs.PathMatchName | ost/s1/burst_ts.py:200 | the base name of a match matches the pattern's last part |
| BurstTs.MarkerFiles | ost/s1/burst_ts.py:368-371 | `rglob('*.processed')` finds exactly the existing files below the burst directory ending in `.processed` |
| BurstTs.SumPermutation | ost/s1/burst_ts.py:368-375 | the count of "empty" lines does not depend on the order the listing gives |
| BurstTs.SumUniform | ost/s1/burst_ts.py:370-375 | when every marker has `c` such lines, the count is `c` times the number of markers |
| BurstTs.EmptyDirCases | ost/s1/burst_ts.py:366-378 | a directory without markers counts as empty; one whose every marker has exactly one "empty" line is empty; one with markers none of which mentions "empty" is not |
| BurstTs.CountLines | ost/s1/burst_ts.py:373-375 | the lines of one marker mentioning "empty", counted line by line |
| BurstTs.BurstdirIsEmpty | ost/s1/burst_ts.py:366-378 | `_burstdir_is_empty`: empty iff the number of "empty" lines over all markers equals the number of markers |
| BurstTs.ConcatResultValue | ost/s1/burst_ts.py:174-226 | a loop of steps succeeds iff every step does, and then yields their concatenation; otherwise it raises one step's error |
| BurstTs.ConcatResultStop | ost/s1/burst_ts.py:174-226 | once a step fails, the whole loop fails with its error |
| BurstTs.ExtentScenes | ost/s1/burst_ts.py:34-37 | the extent's images lie below the burst directory and are not layover layers |
| BurstTs.ExtentPlanJobs | ost/s1/burst_ts.py:26-45 | every burst whose directory is not empty gets its extent, and no other |
| BurstTs.ExtentsOfBurst | ost/s1/burst_ts.py:29-45 | the loop body yields the burst's extent unless its directory is empty |
| BurstTs.CreateExtents | ost/s1/burst_ts.py:21-45 | `_create_extents`: exactly the extent plan over the distinct bursts, in order of appearance |
| BurstTs.PairsMembers | ost/s1/burst_ts.py:97 | `itertools.product` of the product types and polarisations lists exactly their combinations |
| BurstTs.BurstTsJobsMembers | ost/s1/burst_ts.py:93-127 | within a non-empty burst a time series is computed for exactly the pairs with images there |
| BurstTs.PairListJobs | ost/s1/burst_ts.py:97-127 | the pair loop computes a time series for exactly the pairs with images |
| BurstTs.TsPlanJobs | ost/s1/burst_ts.py:84-127 | a time series is computed for exactly the non-empty bursts and the pairs with images there |
| BurstTs.TimeseriesOfPair | ost/s1/burst_ts.py:99-127 | one pair: its time series over the sorted product headers, unless it has no images |
| BurstTs.BurstTimeseries | ost/s1/burst_ts.py:97-127 | the pair loop of one burst yields exactly the pairs' jobs |
| BurstTs.TimeseriesOfBurst | ost/s1/burst_ts.py:92-127 | the burst loop body yields nothing for an empty burst |
| BurstTs.CreateTimeseries | ost/s1/burst_ts.py:84-127 | `_create_timeseries`: exactly the time-series plan over the distinct bursts |
| BurstTs.ArdsToTimeseries | ost/s1/burst_ts.py:130-147 | `ards_to_timeseries`: the extent plan, then the time-series plan, over the same distinct bursts |
| BurstTs.ScanDate | ost/s1/burst_ts.py:201-203 | `name.split('.')[1][:6]` exists iff the name holds a dot, and is at most six characters without a dot |
| BurstTs.SettingsOf | ost/s1/burst_ts.py:166-170 | dB iff either ARD asks for it; conversion iff the output type is not float32 |
| BurstTs.ScalingProducts | ost/s1/burst_ts.py:14-18 | of the eleven products exactly the first four are backscatter and take the dB and conversion settings |
| BurstTs.ToDbAsWritten | ost/s1/burst_ts.py:166-167 | as written, `to_db` is bound (to True) iff either ARD asks for dB |
| BurstTs.ScalingAsWritten | ost/s1/burst_ts.py:209-212 | as written, the scaling fails with NameError iff the prefix mentions `bs.` while `to_db` is unbound |
| BurstTs.ScalingAsWrittenIgnoresBackscatter | ost/s1/burst_ts.py:206-212 | the prefix `<burst>/Timescan/bs_VV` never mentions `bs.`, so backscatter is never scaled, unless the burst directory itself does |
| BurstTs.ScalingAsWrittenUnbound | ost/s1/burst_ts.py:166-212 | with a burst directory mentioning `bs.` and no ARD asking for dB, every product's timescan raises NameError |
| BurstTs.ProductTscan | ost/s1/burst_ts.py:186-222 | a product not due yields nothing; a due one yields one timescan step; the only failure is an IndexError from a dotless name |
| BurstTs.ProductTscanDates | ost/s1/burst_ts.py:200-222 | a due product gets its timescan, dated by its sorted layers, iff every layer name holds a dot |
| BurstTs.ScanDates | ost/s1/burst_ts.py:201-203 | the dates exist iff every name holds a dot, and are read in order |
| BurstTs.BurstTscanSteps | ost/s1/burst_ts.py:178-226 | within a non-empty burst that succeeds, the timescans are exactly those of the products due, and the VRT comes last |
| BurstTs.ProductSteps | ost/s1/burst_ts.py:184-222 | the product loop yields exactly the timescans of the products due |
| BurstTs.ProductStepDue | ost/s1/burst_ts.py:184-222 | a due product has its timescan among the steps |
| BurstTs.ProductStepFrom | ost/s1/burst_ts.py:184-222 | every step is the timescan of a due product |
| BurstTs.TscanStepOf | ost/s1/burst_ts.py:186-222 | a step of a product's timescan is that product's job, and the product is due |
| BurstTs.TscanPlanBursts | ost/s1/burst_ts.py:174-226 | a successful timescan run consists of the steps of its bursts |
| BurstTs.ProductTimescan | ost/s1/burst_ts.py:184-222 | the product loop body yields exactly `ProductTscan` |
| BurstTs.BurstTimescans | ost/s1/burst_ts.py:184-222 | the product loop yields exactly the concatenation of the products' steps |
| BurstTs.TimescanOfBurst | ost/s1/burst_ts.py:175-226 | the burst loop body yields exactly `BurstTscan` |
| BurstTs.TimeseriesToTimescan | ost/s1/burst_ts.py:152-226 | `timeseries_to_timescan` with the scaling decided by the product (the corrected behaviour; see Findings): exactly the timescan plan over the distinct bursts and the eleven products |
| BurstTs.LayerCount | ost/s1/burst_ts.py:249-254 | the count fails iff there are no bursts (`bursts[0]`), with an IndexError |
| BurstTs.TsLayerFilesAsWritten | ost/s1/burst_ts.py:264-270 | as written, the filter keeps only candidates whose whole path lacks "Mosaic" |
| BurstTs.MosaicDirDropsLayers | ost/s1/burst_ts.py:264-270 | a processing directory mentioning "Mosaic" loses every layer to the filter as written |
| BurstTs.TsLayerFiles | ost/s1/burst_ts.py:264-270 | the layer files are candidates |
| BurstTs.MosaicsNotLayers | ost/s1/burst_ts.py:264-270 | the mosaics in `Mosaic/Timeseries` are never taken as layers, whatever the processing directory is called |
| BurstTs.OtherLayersKept | ost/s1/burst_ts.py:264-270 | a layer of any directory other than `Mosaic` is kept |
| BurstTs.CandidateFields | ost/s1/burst_ts.py:264-282 | a candidate's base name has at least three dot-separated fields |
| BurstTs.DatesOf | ost/s1/burst_ts.py:275-282 | the dates are exactly those of the layers, coherence layers reading `<f2>_<f1>` |
| BurstTs.LayerDates | ost/s1/burst_ts.py:275-282 | a layer with files has at least one date |
| BurstTs.TsLayerName | ost/s1/burst_ts.py:285-297 | a mosaic name exists iff the layer has files; otherwise `sorted([])[0]` is an IndexError |
| BurstTs.TsLayerNameDates | ost/s1/burst_ts.py:285-297 | the name carries the least and greatest dates of its layers: `<ii>.<start>.<product>.tif` when equal, else `<ii>.<start>-<end>.<product>.tif` |
| BurstTs.SortSetSpan | ost/s1/burst_ts.py:285 | the ends of a sorted set are its least and greatest elements |
| BurstTs.TsLayersSucceed | ost/s1/burst_ts.py:261-311 | the layer loop completes iff every layer has files, and otherwise raises IndexError |
| BurstTs.LayerStep | ost/s1/burst_ts.py:264-311 | one layer succeeds iff it has files; its failure is an IndexError |
| BurstTs.TsLayersJobs | ost/s1/burst_ts.py:261-311 | the jobs of the layer loop are those of its layers |
| BurstTs.LayerStepJob | ost/s1/burst_ts.py:300-311 | a layer's job is its mosaic when its marker is absent |
| BurstTs.ProductMosaic | ost/s1/burst_ts.py:246-313 | a product fails iff there are no bursts, or it has more than one layer and some layer has no files; the failure is an IndexError |
| BurstTs.ProductMosaicJobs | ost/s1/burst_ts.py:246-313 | the jobs of a product are its unmarked layers `1..count` when count > 1, each mosaicking the layer's files under its name |
| BurstTs.TsMosaic | ost/s1/burst_ts.py:246-313 | the loop over products fails iff some product does, with an IndexError |
| BurstTs.TsMosaicProducts | ost/s1/burst_ts.py:246-316 | a successful plan's jobs and VRTs are those of its products, and every product's are in it |
| BurstTs.TsMosaicVrts | ost/s1/burst_ts.py:310-313 | every VRT lists exactly the mosaics computed for its product: a marked layer is left out of it |
| BurstTs.ListedDates | ost/s1/burst_ts.py:275-282 | the dates read from a listing are exactly the dates of its layers |
| BurstTs.MosaicLayerName | ost/s1/burst_ts.py:264-297 | the layer loop body computes `TsLayerName` |
| BurstTs.MosaicLayer | ost/s1/burst_ts.py:264-311 | the layer loop body yields exactly `LayerStep` |
| BurstTs.MosaicLayers | ost/s1/burst_ts.py:260-311 | the layer loop yields exactly `TsLayers` |
| BurstTs.MosaicOfProduct | ost/s1/burst_ts.py:249-313 | the product loop body yields exactly `ProductMosaic` |
| BurstTs.MosaicProducts | ost/s1/burst_ts.py:246-313 | the product loop yields exactly `TsMosaic` |
| BurstTs.ProjectProcessingDir | ost/s1/burst_ts.py:234-236 | `['project']['processing_dir']` of the project file: found iff the file has a `project` section holding `processing_dir`, otherwise KeyError |
| BurstTs.WrittenProjectFileFails | ost/s1/burst_ts.py:234-236 | the project file a project writes has `processing_dir` at the top level and no `project` section, so the lookup as written raises KeyError |
| BurstTs.MosaicTimeseriesAsWritten | ost/s1/burst_ts.py:229-316 | as written: KeyError when the project file lacks `['project']['processing_dir']`, otherwise the plan over the directory found there |
| BurstTs.MosaicTimeseries | ost/s1/burst_ts.py:229-316 | `mosaic_timeseries`: the processing directory is the configuration's `processing_dir`; exactly the plan over the distinct bursts and the eleven products (the corrected behaviour; see Findings ost/s1/burst_ts.py:234-236 and ost/s1/burst_ts.py:264-270) |
| BurstTs.TscanMosaicJobs | ost/s1/burst_ts.py:338-360 | exactly the product and metric pairs found in some burst and not marked get their mosaic |
| BurstTs.TscanMosaicReadsOwnOutput | ost/s1/burst_ts.py:340-342 | the timescan layers are not filtered: a mosaic left by an earlier run matches the pattern and is read as an input |
| BurstTs.ProductTscanMosaic | ost/s1/burst_ts.py:338-360 | the metric loop of one product yields exactly its mosaics |
| BurstTs.TscanMosaics | ost/s1/burst_ts.py:338-360 | the loop over products and metrics yields exactly `TscanMosaicPlan` |
| BurstTs.MosaicTimescanOutcome | ost/s1/burst_ts.py:319-363 | the step succeeds iff the metrics name neither `harmonics` nor `percentiles` and the VRT call binds, and then yields the plan |
| BurstTs.MosaicTimescanAsWrittenFails | ost/s1/burst_ts.py:326-363 | as written `mosaic_timescan` never completes: AttributeError at `extent` or TypeError at `create_tscan_vrt([dir, cfg])` |
| BurstTs.TscanVrtCallBinds | ost/helpers/raster.py:245 | `create_tscan_vrt(dir, cfg)` binds; `create_tscan_vrt([dir, cfg])` is a TypeError |
| BurstTs.MosaicTimescan | ost/s1/burst_ts.py:319-363 | `mosaic_timescan` as intended: the mosaics over the eleven products and the expanded metrics, then the VRT of the mosaic directory |
| Raster.CoverCountConcat | ost/helpers/raster.py:38-49 | the tiles of two lists cover a cell as often as each list does, added |
| Raster.RowTilesCover | ost/helpers/raster.py:45-49 | the blocks of one row band cover each of its cells from column `x` on exactly once and nothing else |
| Raster.TilesFromCover | ost/helpers/raster.py:38-49 | the row bands from row `y` on cover each of their cells exactly once and nothing else |
| Raster.TilesPartition | ost/helpers/raster.py:38-49 | the blocks partition the band: every cell lies in exactly one block and no block reaches outside |
| Raster.ReplaceTile | ost/helpers/raster.py:51-56 | one block read, masked and written back: its cells at or below the value take the new value, every other cell keeps its own |
| Raster.ReplaceRow | ost/helpers/raster.py:45-56 | one row band walked in blocks, the last cut at the edge: exactly the band's cells are masked |
| Raster.ReplaceValue | ost/helpers/raster.py:24-56 | `replace_value`: a zero block size is a ValueError from `range`; otherwise the blocks visited are exactly the tiling, and every cell at or below the value takes the new value while every other cell keeps its own |
| Raster.WindowMin | ost/helpers/raster.py:517-522 | the minimum of the 3x3 window is set iff all nine cells are |
| Raster.WindowEroded | ost/helpers/raster.py:508-522 | the window of the padded band at `(row, col)` is the neighbourhood of `(row, col)` in the band |
| Raster.Pad | ost/helpers/raster.py:496-508 | a fresh grid two larger each way, unset except for the band copied one in from the edge |
| Raster.BinaryErosion | ost/helpers/raster.py:480-523 | `np_binary_erosion`: a ValueError unless there is exactly one band; otherwise a fresh rows x cols grid whose cell is set iff the whole 3x3 neighbourhood is set |
| Raster.ErodedBorder | ost/helpers/raster.py:503-523 | the outer rows and columns of an erosion are never set |
| Raster.ErodedSubset | ost/helpers/raster.py:517-522 | erosion only removes cells |
| Raster.Dotted | ost/helpers/raster.py:255-259 | the names `product.metric` of one product, one per metric |
| Raster.LayerNames | ost/helpers/raster.py:255-259 | `itertools.product(products, metrics)` as layer names: exactly the pairs `p.q` |
| Raster.RenumberConsecutive | ost/helpers/raster.py:260-275 | the renamed files are numbered 01, 02, ... without gaps, the `k`-th carrying the `k`-th renamed layer |
| Raster.Present | ost/helpers/raster.py:264-266 | the layer names whose file exists, in order |
| Raster.LayerNotNumbered | ost/helpers/raster.py:261-271 | a layer file never coincides with a numbered file when its name does not start with a digit |
| Raster.LayerFileInjective | ost/helpers/raster.py:261 | different layer names have different files |
| Raster.RenumberKeeps | ost/helpers/raster.py:255-275 | renaming other layers leaves the file of a layer not yet reached where it was |
| Raster.RenumberSources | ost/helpers/raster.py:255-275 | with distinct names not starting with a digit, the numbered layers are exactly those present at the start, in loop order: none is missed |
| Raster.LayerNamesStart | ost/helpers/raster.py:250-259 | a layer name starts with its product's first character |
| Raster.TscanProductsStartWithLetter | ost/helpers/raster.py:250-252 | no timescan product starts with a digit |
| Raster.RenumberSnoc | ost/helpers/raster.py:260-275 | one more layer: its file, when still there, is moved to the next number |
| Raster.RenameLayer | ost/helpers/raster.py:264-275 | the layer file is moved to number `k` iff it exists; nothing else changes |
| Raster.RenameLayers | ost/helpers/raster.py:258-275 | the renaming loop: its out-files and the new directory are those of `Renumber` |
| Raster.CreateTscanVrt | ost/helpers/raster.py:245-281 | `create_tscan_vrt`: the layers of the eleven products and the metrics found are renumbered, and `Timescan.vrt` is built from exactly the renumbered files |
| Raster.LookupNone | ost/helpers/raster.py:322-324 | `get_min`/`get_max` return None iff no key of the table occurs in the file name |
| Raster.Table | ost/helpers/raster.py:314-318 | the table pairs the keys with their bounds, in order |
| Raster.LookupKeys | ost/helpers/raster.py:312-336 | whether a file has a bound depends only on the table's keys |
| Raster.NoMinKeyAsWritten | ost/helpers/raster.py:314-318 | as written, a name without `b`, `c`, `A` and `pol.Entropy` matches no minimum key |
| Raster.LookupFirst | ost/helpers/raster.py:320-336 | the first key in dictionary order that occurs in the name gives the bound |
| Raster.EntropyNameExample | ost/helpers/raster.py:316 | `pol_Entropy.tif` is such an entropy layer name |
| Raster.EntropyBoundsAsWritten | ost/helpers/raster.py:312-336 | as written, an entropy layer has the maximum 0.8 but no minimum |
| Raster.EntropyBounds | ost/helpers/raster.py:312-324 | with the key corrected to `pol_Entropy`, an entropy layer has the minimum 0.1 |
| Raster.MinMaxSameKeys | ost/helpers/raster.py:312-336 | with the corrected key, a file has a minimum iff it has a maximum |
| Dates.Strptime | ost/generic/ard_to_ts.py:137-144 | parsing yields only dates that exist; no match, left-over text or a non-existent day is a ValueError |
| Dates.MatchSeq | ost/generic/ard_to_ts.py:137-144 | a match reads one value per directive and consumes no more than the text |
| Dates.MatchFormatted | ost/generic/ard_to_ts.py:148-149 | matching a format against its own output, whatever follows, reads back every printed value and consumes exactly the printed text |
| Dates.StrptimeStrftime | ost/generic/ard_to_ts.py:137-149 | parsing what `strftime` printed gives the date back, for `%d%b%Y`, `%Y%m%d` and `%Y-%m-%d` and every four-digit year |
| Dates.AbbrFound | ost/generic/ard_to_ts.py:138 | `%b` reads each month's own abbreviation back as that month |
| DateOrder.NotAfterTotal | ost/generic/ard_to_ts.py:137-146 | any two dates are ordered one way or the other |
| DateOrder.Insert | ost/generic/ard_to_ts.py:137-146 | inserting into a sorted list keeps it sorted and adds exactly that date |
| DateOrder.Sort | ost/generic/ard_to_ts.py:137-146 | `sorted` of dates is in chronological order and a permutation of its input |
| TextOrder.LessEqTotal | ost/s1/grd_batch.py:292-297 | any two strings are ordered one way or the other |
| TextOrder.LessEqTrans | ost/s1/grd_batch.py:292-297 | string order is transitive |
| TextOrder.LessEqAntisym | ost/s1/grd_batch.py:292-297 | strings ordered both ways are equal |
| TextOrder.Insert | ost/s1/grd_batch.py:292-297 | inserting into a sorted list keeps it sorted and adds exactly that string |
| TextOrder.Sort | ost/s1/grd_batch.py:292-297 | `sorted` of strings is ascending and a permutation of its input |
| TextOrder.SortedEnds | ost/s1/grd_batch.py:416 | the first element of a sorted list is its least and the last its greatest |
| TextOrder.SortedUnique | ost/s1/burst_ts.py:103-118 | two sorted lists with the same elements are equal, so `sorted` does not depend on the listing order |
| TextOrder.LeastExists | ost/s1/burst_ts.py:118 | a non-empty set of names has a least element |
| TextOrder.SortSet | ost/s1/burst_ts.py:118 | `sorted` of a directory listing holds each name once, in ascending order |
| TextOrder.SortSetMultiset | ost/s1/burst_ts.py:118 | `sorted` of a listing is a permutation of the listing |
| TextOrder.SortedBounds | ost/s1/burst_ts.py:285 | `sorted(l)[0]` and `sorted(l)[-1]` are the least and greatest of the distinct elements of `l` |
| PythonSemantics.Add | ost/s1/burst_to_ard.py:209-214 | `+` adds two integers or concatenates two strings; any other operands, a path among them, raise TypeError |
| PythonSemantics.Call | ost/s1/burst_to_ard.py:361-364 | a call raises TypeError iff its arguments do not bind to the parameters |
| PythonSemantics.TooManyPositional | ost/s1/burst_to_ard.py:361-364 | more positional arguments than parameters never bind |
| PythonSemantics.UnknownKeyword | ost/s1/burst_to_ard.py:112-114 | a keyword naming no parameter never binds |
| Host.Attempts | ost/generic/common_wrappers.py:14 | the retry decorator runs a command until it exits with 0 or the tries are spent: every earlier run failed, and stopping early means the last run succeeded |
| Host.Outcome | ost/generic/common_wrappers.py:41-50 | a wrapper raises iff the exit code is non-zero and it is one that raises; otherwise it returns the code |
| Host.StageFailsOnlyAfterAllTries | ost/generic/common_wrappers.py:82-143 | a wrapper returning its code runs once and never raises; one that raises does so iff all tries exit non-zero |
| Host.Glob | ost/s1/grd_to_ard.py:81 | the matches are exactly the existing paths of the directory with the prefix and suffix |
| Host.Listing | ost/s1/grd_to_ard.py:81-82 | a listing holds each existing match exactly once |
| Host.ReplaceProduct | ost/s1/grd_to_ard.py:353-354 | moving a product over another replaces its two paths when the source exists; FileNotFoundError otherwise |
| Host.Machine.constructor | ost/generic/common_wrappers.py:41 | the host starts with the given files, no marker and an empty call log |
| Host.Machine.Run | ost/generic/common_wrappers.py:41 | one run of the graph tool is logged, returns the tool's exit code and may leave the output product |
| Host.Machine.RunRetrying | ost/generic/common_wrappers.py:14-50 | a retried run logs one call per attempt, as many as `Attempts`, and returns the last exit code |
| Host.Machine.Stage | ost/generic/common_wrappers.py:82-143 | a wrapper logs its runs and returns `StageResult` |
| Host.Machine.DeleteProduct | ost/s1/grd_to_ard.py:74 | `delete_dimap` removes the product's `.dim` and `.data` and nothing else |
| Host.Machine.MoveProduct | ost/s1/grd_to_ard.py:243-244 | moving `.dim` then `.data`: both move when present; a missing `.dim` raises FileNotFoundError with nothing moved |
| Host.Machine.WriteMarker | ost/s1/grd_to_ard.py:357-358 | writing a marker adds it with its text |
| Host.Machine.Write | ost/generic/ard_to_ts.py:172-182 | a tool writing one file adds it and logs the call |
| Host.Machine.Rename | ost/helpers/raster.py:245-281 | renaming moves the file and its text, FileNotFoundError when it is missing |
| Host.Machine.Unlink | ost/generic/ard_to_ts.py:256 | unlinking removes exactly the one file |
| Host.Machine.RemoveTree | ost/generic/ard_to_ts.py:74 | leaving a temporary directory removes everything below it |
| Host.Machine.ClearFolder | ost/Project.py:685 | clearing a folder removes everything below it and keeps the folder |
| Host.DropScratch | ost/generic/ard_to_ts.py:74 | leaving the temporary directory removes exactly the scratch products below it |
| Host.StageInOrder | ost/s1/grd_to_ard.py:154-184 | a stage run inside a chain only adds its own runs to the log and at most its own product |
| Strings.Slice | ost/s1/s1scene.py:38-55 | a slice `s[i:j]` is clamped to the string and is the exact substring when in range |
| Strings.At | ost/s1/s1scene.py:42-43 | indexing `s[i]` is IndexError past the end |
| Strings.Split | ost/generic/ard_to_ts.py:138 | `str.split` always yields at least one field |
| Strings.SplitJoin | ost/generic/ard_to_ts.py:138 | splitting separator-free fields joined by the separator gives them back |
| Strings.JoinSplit | ost/generic/ard_to_ts.py:138 | joining the fields of a split gives the string back |
| Strings.Field | ost/generic/ard_to_ts.py:138 | the k-th field exists iff there are more than k fields, and holds no separator |
| Strings.LastField | ost/generic/ard_to_ts.py:191 | the last field holds no separator |
| Strings.ReplaceChar | ost/s1/s1scene.py:637 | `replace(' ', '_')` replaces exactly the spaces and keeps the length |
| Strings.Lower | ost/s1/s1scene.py:557-559 | `lower()` maps each character |
| Strings.RemoveAll | ost/s1/grd_to_ard.py:362-365 | `replace(pat, '')` removes every occurrence and never lengthens the string |
| Strings.Pad2 | ost/generic/ard_to_ts.py:167 | `{n:02d}` is all digits, reads back as `n`, and has two digits below 100 |
| Strings.Pad2Injective | ost/generic/ard_to_ts.py:167 | distinct numbers have distinct padded forms |
| Strings.NatToString | ost/s1/s1scene.py:139 | `str(n)` is a digit string that reads back as `n` |
| Strings.ParseNatToString | ost/s1/s1scene.py:67 | `int(str(n)) == n` |
| Strings.Contains | ost/s1/burst_ts.py:209 | `needle in hay` iff the needle occurs at some position |
| BurstTs.WildLiteral | ost/s1/burst_ts.py:34 | a glob pattern without `*` matches only itself |
| BurstTs.WildPrefix | ost/s1/burst_ts.py:34 | a pattern starting with a literal matches iff the name starts with it and the rest matches |
| BurstTs.WildSuffix | ost/s1/burst_ts.py:34 | a pattern ending with a literal matches only names ending with it |
| BurstTs.WildAny | ost/s1/burst_ts.py:340 | `*` matches every name |
| BurstTs.MosaicPathMatches | ost/s1/burst_ts.py:340-342 | a timescan mosaic matches the timescan glob pattern |
| BurstTs.DatesListed | ost/s1/burst_ts.py:275-282 | the dates read from a listing are those of its files |
| BurstTs.Outfiles | ost/s1/burst_ts.py:310 | the mosaic outputs, in order |
| GrdBatch.Inventory.constructor | ost/s1/grd_batch.py:193-209 | the inventory holds the rows and one output record per row |

## Left out

- External tools (SNAP's `gpt`, `ls_to_vector`, GDAL and rasterio I/O): each call is logged as a command on `Host.Machine`, and its exit code and outputs come from a tool oracle. The timing and back-off of the `retry` decorator are not modelled; only the number of attempts is.
- `ost/helpers/helpers.py` is not part of this model. `run_command`, `delete_dimap`, `move_dimap` and `check_out_tiff` are modelled through `Host.Machine` operations on a set of paths.
- `ards_to_timeseries` in `ost/s1/grd_batch.py:239-306` is not modelled: per-track extents, layover/shadow masks and the dispatch of `ard_to_ts` read rasters and polygons. `ArdToTs` models the per-product step it dispatches.
- ArdToTs.ArdToTimeseries: with more than two inputs the stacking runs sit in the log between the old log and the masking calls. Their number depends on the retries, so the contract states only that the log keeps the old one and ends with the masking calls and the VRT. `ArdToTs.Stack` states the stacking runs.
- `_grd_subset` in `ost/s1/grd_to_ard.py:511-545` is not modelled: it is a pixel-window subset that the processing chain never calls.
- The VRT-building step of `mosaic_timescan` in `ost/s1/grd_batch.py`: building the VRT is raster I/O. As written, the step also passes `proc_file` where a dictionary is expected.
- `_create_mt_ls_mask` in `ost/s1/burst_ts.py:48-81` is not modelled: nothing in the pipeline calls it.
- The subset-coverage decision in `ost/s1/grd_batch.py:79-112` is not modelled: it depends on polygon areas. Whether a subset applies is an input.
- Polygon geometry (shapely `loads`, `bounds`, centroids and footprints). The latitudes these yield are inputs: the subset bounds, and the footprint latitude read by `_get_center_lat` from the manifest.
- `_burst_database` and the `scihub_*` and annotation methods of `Sentinel1Scene`: network access and XML geolocation. `info()` is modelled by `S1Scene.Info`; only its printing is left out.
- `create_rgb` and the other visualisation code: floating-point arrays and plots.
- `check_ard_parameters` and the JSON reading of the ARD templates. Each template is a parameter of the functions that use it.
- `Path.resolve`, `mkdir` and JSON dumps in the project constructors. Directories are members of the path set; resolving is the identity.
- `os.cpu_count()` returning None is not modelled: the CPU count is a positive input.
- `create_aoi_str` and `urllib.request.quote` in `create_query`. The area-of-interest string is an input, and quoting is taken to leave it unchanged.
- The uuid lookup over the network in `ost/helpers/scihub.py`. The uuid of each scene is an input.
- The streaming body of `s1_download` (chunks, progress bar, zip check). One attempt's outcome comes from an oracle.
- Executor concurrency (`godale` `Executor`, `as_completed`). Dispatch is sequential, and the results are collected without an order guarantee.
- `set_external_dem` in `ost/Project.py:590-615` is not modelled: it reads the DEM with rasterio. It also calls `Path.eixtst` at line 593, which raises AttributeError.
- The config path string that `ost/s1/burst_batch.py:52` passes where `burst_to_ard` expects a dictionary is abstracted: the model hands over the configuration itself.
- The `metrics.extent` calls at `ost/s1/grd_batch.py:462` and `ost/s1/burst_ts.py:328` are modelled as written only in the as-written members under Findings. The corrected members use `metrics + [...]`.
- `is` comparisons of strings (`ost/generic/common_wrappers.py:19-24`, `ost/s1/burst_ts.py:102`) are modelled as equality. CPython's interning makes them agree for the literals involved.
- Search, refine, download and plot methods of `Project`, and interactive input of credentials.
- Logging and messages.
- GrdBorder.RemoveBorder: bands narrower than 3000 columns are excluded (`requires img.Length1 >= WINDOW`), because GDAL's window read raises for them and the model does not cover that error path.
- GrdBatch.GrdToArdBatch: its own contract does not state the merged per-unit values. `MergedUnitRows` states them. It merges with the corrected `Inventory.Merge`; `Inventory.MergeAsWritten` and `MergeStopsAtFirstRow` state the code's merge, which stops at the missing `out_tif` column.
- GrdBatch.OuterWorkers and GrdBatch.GrdToArdBatch: an outer worker count of 0 (fewer than four processors) is not treated as an error; the model runs every unit. The godale `Executor` is not part of this model, so whether it accepts `max_workers=0` is not decided here.
- GrdBatch.Merged, GrdBatch.MergedUnitRows and GrdBatch.Inventory.Merge: the corrected merge. As written, the read of `out_tif` at `ost/s1/grd_batch.py:233` raises KeyError when the unit's copy has no such column; `GrdBatch.MergedAsWritten` and `GrdBatch.MergeStopsAtFirstRow` state it.
- Project.BatchProject.GrdsToArd: hands the batch a configuration holding `executor_type`. `Project.BatchProject.GrdsToArdAsWritten` and `Project.GrdBatchKeyMissing` state what the code does.
- BurstBatch.BurstsToArds: returns the tuned worker count so that the contract can state it; the source returns None.
- BurstToArd.BackscatterLayers: the `ls_to_vector` conversion of the mask (`ost/s1/burst_to_ard.py:208-210`) is not logged. It runs after the marker is written, on the temporary `_LS` path that was already moved, and as written `out_ls + '.dim'` adds a string to a `Path`, as line 214 does.
- BurstToArd.ImportCheckAsWritten and BurstToArd.ReturnPathAsWritten: they state the Python semantics of one expression, not a run of the chain.
- S1Scene.Sentinel1Scene.CreateArd: follows the corrected subset centre, SLC centre latitude, DEM switch and burst call. The as-written behaviour is stated by S1Scene.SubsetLatitude, S1Scene.SlcCenterLatAsWritten, S1Scene.DemSwitchReachesGeocoding and S1Scene.BurstsCallAsWritten.
- S1Scene.Sentinel1Scene.GrdArd: the new path set is bounded rather than given. The GRD chain's products come from the tool oracle, so the contract states the product and marker on success, no marker on failure and an empty scratch directory.
- S1Scene.Parse and Strings.ParseNat: the orbit is read as plain ASCII digits. Python's `int()` also accepts surrounding whitespace, a sign and `_` between digits; identifiers whose orbit field holds these are rejected by the model but accepted by the source.
- Scihub.ParseRange: reads the `Range` positions with `Strings.ParseNat`, with the same restriction to plain digits.
- GrdToArd.Finish and GrdToArd.ToArd: remove the failed mask with the corrected `GrdToArd.LsCleanupPrefix`. `GrdToArd.LsCleanupMissesMask` states what the code removes.
- GrdBatch.MosaicTimeseries: built on the corrected `GrdBatch.LayerFiles`, of which `GrdBatch.MosaicsNotLayers` and `GrdBatch.OtherLayersKept` prove the intended filter. `GrdBatch.MosaicDirLosesLayers` states what the code's filter drops.
- BurstTs.MosaicTimeseries: built on the corrected filter, and reads the configuration's `processing_dir`. `BurstTs.MosaicDirDropsLayers` states what the code's filter drops; `BurstTs.MosaicTimeseriesAsWritten` and `BurstTs.WrittenProjectFileFails` state the code's lookup of `['project']['processing_dir']`, which raises KeyError on the project file a project writes.
- BurstToArd.ProduceBurst, BurstToArd.ProduceFamilies and BurstToArd.RunFamilies: run the corrected chain (calls that bind, the import check, the `.dim` path). `BurstToArd.SlcCallsAsWritten`, `BurstToArd.ImportCheckAsWritten` and `BurstToArd.ReturnPathAsWritten` state what the code does.
- Project.BatchProject.BurstsToArds: follows the corrected routing. `Project.BatchProject.BurstsToArdsAsWritten` and `Project.BurstBatchAsWritten` state what the code does. `prepare_burst_inventory`, which the burst batch calls before opening its configuration, is not part of this model.
- SlcWrappers.SlcResult and SlcWrappers.RunSlc: the returned path appends `.dim` to the output name, while the source's `with_suffix('.dim')` replaces an existing suffix. The two differ only for a base name holding a dot.
- GrdBatch.MosaicTimescan: expands the metrics with the corrected `metrics + [...]`, where the source's `metrics.extent` raises AttributeError (`GrdBatch.MetricsAsWritten` states it); the VRT-building step is left out.
- GrdBatch.ExecuteUnit and GrdBatch.RunUnit: the `to_tif` path is not modelled (the `out_tif` column and the `ard_to_rgb` conversion in `ost/s1/grd_batch.py:106-107, 144-158, 181-189`). The conversion is raster I/O.
- GrdBorder.RemoveBorder and Raster.ReplaceValue: pixels are integers. The source computes column means with `np.mean` in float32 (`ost/s1/grd_to_ard.py:629, 663`) and may write NaN (`ost/helpers/raster.py:54`). Rounding and NaN are not modelled.
- Polarisation strings: the project stores them with spaces (`'VV VH'`), while the catalogue modules map the comma forms (`'VV,VH'`). Each module is modelled with the forms it handles itself.

## Findings

| source | as written | input that shows it | evidently intended | confidence | as-written member | corrected member |
|---|---|---|---|---|---|---|
| ost/s1/grd_to_ard.py:362-365 | the failed layover mask is removed with `replace('.dim', '')`, which strips every `.dim` in the path | output directory `o.dim`, scene prefix `a`: the path `o/a_LS` is removed and the mask `o.dim/a_LS` stays | strip only the trailing `.dim` | high (not executed) | GrdToArd.LsCleanupMissesMask | GrdToArd.LsCleanupPrefix |
| ost/s1/burst_to_ard.py:361-364 | the calls of `burst_import`, `ha_alpha`, `calibration` and `coreg` pass arguments that do not bind to the signatures in `ost/s1/slc_wrappers.py` | any burst | the call binds each argument to the parameter of that name | high (not executed) | BurstToArd.SlcCallsAsWritten | BurstToArd.SlcCallsIntended |
| ost/s1/burst_to_ard.py:365-367 | the returned path string is compared with `!= 0`, which always holds | any successful import | fail only when the import fails | high (not executed) | BurstToArd.ImportCheckAsWritten | BurstToArd.ImportMaster |
| ost/s1/burst_to_ard.py:214 | `out_tc + '.dim'` adds a string to a `Path` | any burst whose backscatter chain succeeds | return the path of the `.dim` product | high (not executed) | BurstToArd.ReturnPathAsWritten | BurstToArd.BackscatterLayers |
| ost/s1/s1scene.py:50 | the data take id is sliced as `[57:62]` | the test scene gives "02F64" for "002F64" | six characters, `[56:62]` | high (not executed) | S1Scene.DataTakeTruncated | S1Scene.DataTakeId |
| ost/s1/s1scene.py:625-630 | the DEM switch writes the top-level key `dem` | centre latitude 60 | terrain correction uses the ASTER DEM outside SRTM coverage | high (not executed) | S1Scene.DemSwitchReachesGeocoding | S1Scene.DemSwitch |
| ost/s1/s1scene.py:615 | the subset's centre latitude is its height | a subset from 10 to 70 degrees north | centre = mean of the two bounds | high (not executed) | S1Scene.SubsetLatitude | S1Scene.SubsetCenterLat |
| ost/s1/s1scene.py:618-624 | the whole SLC file list goes to `_get_center_lat` | any SLC scene without a subset | pass one file, as for GRD | high (not executed) | S1Scene.SlcCenterLatAsWritten | S1Scene.SceneCenterLat |
| ost/s1/s1scene.py:695-700 | `bursts_to_ards` is called with the keyword `config_dict=` | any SLC scene | bind the configuration to `config_file` | high (not executed) | S1Scene.BurstsCallAsWritten | S1Scene.BurstsCallFixed |
| ost/s1/grd_batch.py:399-403 | the `'Mosaic'` filter tests the full path | a processing directory whose path contains "Mosaic" | exclude only the mosaic output directory | medium (not executed) | GrdBatch.MosaicDirLosesLayers | GrdBatch.OtherLayersKept |
| ost/s1/grd_batch.py:460-466 | the metrics list is extended with `metrics.extent` | harmonics or percentiles configured | `metrics.extend` (or `+`) | high (not executed) | GrdBatch.MetricsAsWritten | GrdBatch.ExpandHarmonics |
| ost/helpers/raster.py:312-336 | `get_min` looks up the key `'pol.Entropy'` | an entropy layer | the key `'pol_Entropy'`, matching `get_max` | high (not executed) | Raster.EntropyBoundsAsWritten | Raster.EntropyBounds |
| ost/helpers/scihub.py:362-366 | the batch checks the marker `<path>.downloaded`, while `s1_download` writes `<path without .zip>.downloaded` | a scene downloaded in an earlier run | check the marker that the download writes | high (not executed) | Scihub.CompletedSceneRequeued | Scihub.MarkedScenesSkipped |
| ost/helpers/scihub.py:378-386 | the count of downloaded scenes is compared with the size of the whole inventory | an inventory with one scene already downloaded | compare with the number of scenes queued | high (not executed) | Scihub.SkippedSceneFails | Scihub.BatchDownloadSucceeds |
| ost/s1/burst_ts.py:166-212 | `to_db` is bound at 166-167 only when either ARD asks for dB, and read at 209-210 when the timescan prefix contains `bs.`; that prefix `<burst>/Timescan/bs_<pol>` contains `bs.` only when the burst directory does (`BurstTs.ScalingAsWrittenIgnoresBackscatter`: backscatter is never scaled) | a burst directory mentioning `bs.` with no dB request | decide dB and scaling per backscatter product | high (not executed) | BurstTs.ScalingAsWrittenUnbound | BurstTs.ScalingProducts |
| ost/s1/burst_ts.py:264-270 | the `'Mosaic'` filter tests the full path | a processing directory whose path contains "Mosaic" | exclude only the mosaic output directory | medium (not executed) | BurstTs.MosaicDirDropsLayers | BurstTs.OtherLayersKept |
| ost/s1/burst_ts.py:326-363 | `metrics.extent`, and `create_tscan_vrt([dir, cfg])` with one list argument | any timescan mosaic | extend the list, and pass the two arguments | high (not executed) | BurstTs.MosaicTimescanAsWrittenFails | BurstTs.MosaicTimescan |
| ost/Project.py:714-758 | the burst batch is handed `self.config_dict`, a dictionary, which `open` at `ost/s1/burst_batch.py:40` rejects; the later stages call four functions that `ost/s1/burst_batch.py` does not define | any burst project | hand over the configuration file, and call the time-series routines of `ost/s1/burst_ts.py` | high (not executed) | Project.BatchProject.BurstsToArdsAsWritten | Project.BatchProject.BurstsToArds |
| ost/s1/grd_batch.py:210-212 | the batch reads `config_dict['executor_type']`, a key the project never puts in its dictionary (`ost/Project.py:139-149, 544-545`) | any GRD project | give the configuration an `executor_type`, as the project's attribute at `ost/Project.py:502` | high (not executed) | Project.BatchProject.GrdsToArdAsWritten | Project.BatchProject.GrdsToArd |
| ost/s1/grd_batch.py:228-235 | the merge reads `temp_inv.at[i, 'out_tif']` for every claimed row, but with `to_tif` off a unit run in this call never creates that column; the KeyError after the first claimed row is swallowed at 234-235 | a two-scene acquisition processed with `to_tif` off, on an inventory without an `out_tif` column | every row of the unit takes its outputs | medium (not executed) | GrdBatch.MergeStopsAtFirstRow | GrdBatch.MergedUnitRows |
| ost/s1/burst_ts.py:234-236 | the processing directory is read as `['project']['processing_dir']` of the project file, which is the dump of the project's configuration and has no `project` section | any burst project mosaicking its time series | read `processing_dir`, as `ost/s1/burst_ts.py:160` and `323` do | high (not executed) | BurstTs.WrittenProjectFileFails | BurstTs.MosaicTimeseries |
