/** The project classes: argument checks of `Generic`, `Sentinel1` and
  * `Sentinel1Batch`, the worker split between the graph tool and the
  * executor, the ARD template and its reloading, and which phases of the
  * GRD and burst pipelines run for a set of flags. */
module Project {
  import opened Errors
  import opened Strings
  import Dates
  import Config
  import Host
  import S1Scene
  import opened PythonSemantics

  // ------------------------------------------------------------ Generic

  /** A directory argument counts only when it is given and not empty. */
  predicate Given(dir: Option<string>)
  {
    dir.Some? && dir.value != ""
  }

  /** A sub-directory of the project unless one is given. */
  function DirOr(dir: Option<string>, projectDir: string, name: string): string
  {
    if Given(dir) then dir.value else Host.PathJoin(projectDir, name)
  }

  /** The arguments of `Generic.__init__`. */
  datatype GenericArgs = GenericArgs(
    projectDir: string, aoi: string, start: string, end: string,
    downloadDir: Option<string>, inventoryDir: Option<string>,
    processingDir: Option<string>, tempDir: Option<string>, dataMount: Option<string>)

  /** A project's directories, area and period of interest. */
  datatype Generic = Generic(
    projectDir: string, downloadDir: string, inventoryDir: string,
    processingDir: string, tempDir: string, dataMount: Option<string>,
    aoi: string, start: string, end: string)

  /** `datetime.strptime(s, '%Y-%m-%d')` succeeds. */
  predicate IsoDate(s: string)
  {
    Dates.Strptime(s, Dates.ISO).Success?
  }

  /** `Generic.__init__`: the start date, then the end date, must be
    * `YYYY-MM-DD` (ValueError), and a given data mount must exist
    * (NotADirectoryError). `existing` holds the paths on disk. */
  function NewGeneric(a: GenericArgs, existing: set<string>): (r: Result<Generic>)
    ensures r.Success? <==> IsoDate(a.start) && IsoDate(a.end) && (Given(a.dataMount) ==> a.dataMount.value in existing)
    ensures !(IsoDate(a.start) && IsoDate(a.end)) ==> r == Failure(ValueError)
    ensures IsoDate(a.start) && IsoDate(a.end) && r.Failure? ==> r.error == NotADirectoryError
    ensures r.Success? ==> r.value.start == a.start && r.value.end == a.end
    ensures r.Success? ==> (r.value.dataMount.Some? <==> Given(a.dataMount))
  {
    if !IsoDate(a.start) then Failure(ValueError)
    else if !IsoDate(a.end) then Failure(ValueError)
    else if Given(a.dataMount) && a.dataMount.value !in existing then Failure(NotADirectoryError)
    else
      var mount := if Given(a.dataMount) then a.dataMount else None;
      Success(Generic(
        a.projectDir,
        DirOr(a.downloadDir, a.projectDir, "download"),
        DirOr(a.inventoryDir, a.projectDir, "inventory"),
        DirOr(a.processingDir, a.projectDir, "processing"),
        DirOr(a.tempDir, a.projectDir, "temp"),
        mount, a.aoi, a.start, a.end))
  }

  /** Every date `strftime('%Y-%m-%d')` prints with a four-digit year is an
    * accepted start or end date. */
  lemma PrintedDatesAccepted(d: Dates.Date)
    requires Dates.Valid(d) && 1000 <= d.year
    ensures IsoDate(Dates.Strftime(d, Dates.ISO))
  {
    Dates.StrptimeStrftime(d, Dates.ISO);
  }

  /** Without directory arguments the four working directories are
    * distinct sub-directories of the project directory. */
  lemma DefaultDirs(a: GenericArgs, existing: set<string>)
    requires NewGeneric(a, existing).Success?
    requires !Given(a.downloadDir) && !Given(a.inventoryDir) && !Given(a.processingDir) && !Given(a.tempDir)
    ensures var g := NewGeneric(a, existing).value;
      |{g.downloadDir, g.inventoryDir, g.processingDir, g.tempDir}| == 4
      && StartsWith(g.downloadDir, a.projectDir + "/") && StartsWith(g.tempDir, a.projectDir + "/")
  {
    var g := NewGeneric(a, existing).value;
    var p := a.projectDir;
    assert |g.downloadDir| == |p| + 9 && |g.inventoryDir| == |p| + 10;
    assert |g.processingDir| == |p| + 11 && |g.tempDir| == |p| + 5;
    assert g.downloadDir[..|p| + 1] == p + "/";
    assert g.tempDir[..|p| + 1] == p + "/";
  }

  // ------------------------------------------------------------ Sentinel1

  const PRODUCT_TYPES: seq<string> := ["*", "RAW", "SLC", "GRD"]
  const BEAM_MODES: seq<string> := ["*", "IW", "EW", "SM"]
  const POLARISATIONS: seq<string> := ["*", "VV", "VH", "HV", "HH", "VV VH", "HH HV"]

  /** A Sentinel-1 project: the generic settings and the search filters. */
  datatype Sentinel1 = Sentinel1(generic: Generic, productType: string, beamMode: string, polarisation: string)

  /** `Sentinel1.__init__`: after the generic checks, the product type, the
    * beam mode and the polarisation must each be one of the listed values
    * (ValueError, checked in that order). */
  function NewSentinel1(a: GenericArgs, existing: set<string>, productType: string, beamMode: string,
                        polarisation: string): (r: Result<Sentinel1>)
    ensures r.Success? <==>
      NewGeneric(a, existing).Success? && productType in PRODUCT_TYPES && beamMode in BEAM_MODES
      && polarisation in POLARISATIONS
    ensures NewGeneric(a, existing).Failure? ==> r == Failure(NewGeneric(a, existing).error)
    ensures NewGeneric(a, existing).Success? && r.Failure? ==> r.error == ValueError
    ensures r.Success? ==> r.value == Sentinel1(NewGeneric(a, existing).value, productType, beamMode, polarisation)
  {
    var g :- NewGeneric(a, existing);
    if productType !in PRODUCT_TYPES then Failure(ValueError)
    else if beamMode !in BEAM_MODES then Failure(ValueError)
    else if polarisation !in POLARISATIONS then Failure(ValueError)
    else Success(Sentinel1(g, productType, beamMode, polarisation))
  }

  // ------------------------------------------------------------ Sentinel1Batch

  const GRD_ARD_TYPES: seq<string> := ["CEOS", "Earth-Engine", "OST-GTC", "OST-RTC"]
  const SLC_ARD_TYPES: seq<string> := ["OST-GTC", "OST-RTC", "OST-COH", "OST-RTCCOH", "OST-POL", "OST-ALL"]

  /** A batch project's settings: the Sentinel-1 settings, the ARD type and
    * the worker counts of the graph tool and of the executor. */
  datatype BatchSettings = BatchSettings(s1: Sentinel1, ardType: string, gptMaxWorkers: nat, godaleMaxWorkers: nat)

  /** The ARD types a product type can be processed to; none for other
    * product types. */
  function ArdTypes(productType: string): seq<string>
  {
    if productType == "GRD" then GRD_ARD_TYPES
    else if productType == "SLC" then SLC_ARD_TYPES
    else []
  }

  /** `Sentinel1Batch.__init__` up to the template: GRD runs `cpus` graph
    * tool workers in one executor process, SLC one graph tool worker in
    * `cpus` processes; the ARD type must suit the product type, other
    * product types are refused, and so is every beam mode but IW. */
  function NewBatch(a: GenericArgs, existing: set<string>, productType: string, beamMode: string,
                    polarisation: string, ardType: string, cpus: nat): (r: Result<BatchSettings>)
    ensures NewSentinel1(a, existing, productType, beamMode, polarisation).Failure? ==>
      r == Failure(NewSentinel1(a, existing, productType, beamMode, polarisation).error)
    ensures NewSentinel1(a, existing, productType, beamMode, polarisation).Success? && r.Failure? ==>
      r.error == ValueError
    ensures r.Success? ==>
      r.value.s1 == NewSentinel1(a, existing, productType, beamMode, polarisation).value && r.value.ardType == ardType
    ensures r.Success? && productType == "GRD" ==> r.value.gptMaxWorkers == cpus && r.value.godaleMaxWorkers == 1
    ensures r.Success? && productType == "SLC" ==> r.value.gptMaxWorkers == 1 && r.value.godaleMaxWorkers == cpus
  {
    var s1 :- NewSentinel1(a, existing, productType, beamMode, polarisation);
    if productType == "GRD" then
      if ardType !in GRD_ARD_TYPES then Failure(ValueError)
      else if beamMode != "IW" then Failure(ValueError)
      else Success(BatchSettings(s1, ardType, cpus, 1))
    else if productType == "SLC" then
      if ardType !in SLC_ARD_TYPES then Failure(ValueError)
      else if beamMode != "IW" then Failure(ValueError)
      else Success(BatchSettings(s1, ardType, 1, cpus))
    else Failure(ValueError)
  }

  /** A batch project is accepted exactly when the dates and the data mount
    * are, the product type is GRD or SLC, the beam mode IW, the
    * polarisation a listed one and the ARD type one for the product type:
    * the search-only values `*`, `RAW`, `EW` and `SM` are refused. */
  lemma BatchAccepted(a: GenericArgs, existing: set<string>, productType: string, beamMode: string,
                      polarisation: string, ardType: string, cpus: nat)
    ensures NewBatch(a, existing, productType, beamMode, polarisation, ardType, cpus).Success? <==>
      NewGeneric(a, existing).Success? && productType in {"GRD", "SLC"} && beamMode == "IW"
      && polarisation in POLARISATIONS && ardType in ArdTypes(productType)
  {
    assert "GRD" in PRODUCT_TYPES && "SLC" in PRODUCT_TYPES && "IW" in BEAM_MODES;
  }

  /** The two worker counts share the processors: one of them is 1 and their
    * product is the processor count. */
  lemma WorkersShareCpus(a: GenericArgs, existing: set<string>, productType: string, beamMode: string,
                         polarisation: string, ardType: string, cpus: nat)
    requires NewBatch(a, existing, productType, beamMode, polarisation, ardType, cpus).Success?
    ensures var b := NewBatch(a, existing, productType, beamMode, polarisation, ardType, cpus).value;
      b.gptMaxWorkers * b.godaleMaxWorkers == cpus && (b.gptMaxWorkers == 1 || b.godaleMaxWorkers == 1)
  {
    BatchAccepted(a, existing, productType, beamMode, polarisation, ardType, cpus);
  }

  // ------------------------------------------------------------ ARD parameters

  /** The ARD templates shipped with the toolkit, by file name. */
  type Templates = string -> Config.Processing

  /** Every template of a product type names its own ARD type. */
  ghost predicate SelfNamed(templates: Templates, productType: string)
  {
    forall a :: templates(S1Scene.TemplateName(productType, a)).single.ardType == a
  }

  /** `update_ard_parameters` on the ARD type and the parameters: a changed
    * `single_ARD.type` becomes the project's ARD type and its template
    * replaces the parameters. */
  function Updated(templates: Templates, productType: string, ardType: string, params: Config.Processing)
    : (string, Config.Processing)
  {
    var t := params.single.ardType;
    if ardType != t then (t, templates(S1Scene.TemplateName(productType, t))) else (ardType, params)
  }

  /** After an update the project's ARD type is the type the parameters
    * named; with self-named templates the parameters name it too, and a
    * second update changes nothing. */
  lemma UpdateSettles(templates: Templates, productType: string, ardType: string, params: Config.Processing)
    requires SelfNamed(templates, productType)
    ensures Updated(templates, productType, ardType, params).0 == params.single.ardType
    ensures Updated(templates, productType, ardType, params).1.single.ardType == params.single.ardType
    ensures var (t, p) := Updated(templates, productType, ardType, params);
      Updated(templates, productType, t, p) == (t, p)
  {
    var t := params.single.ardType;
    if ardType != t {
      assert templates(S1Scene.TemplateName(productType, t)).single.ardType == t;
    }
  }

  /** The parameters keep what was changed by hand as long as the ARD type
    * stays; a changed type discards it for the new type's template. */
  lemma UpdateKeepsEdits(templates: Templates, productType: string, ardType: string, params: Config.Processing)
    ensures params.single.ardType == ardType ==> Updated(templates, productType, ardType, params) == (ardType, params)
    ensures params.single.ardType != ardType ==>
      Updated(templates, productType, ardType, params).1
        == templates(S1Scene.TemplateName(productType, params.single.ardType))
  {
  }

  // ------------------------------------------------------------ phases

  /** The batch routines a project runs. */
  datatype Stage = ArdBatch | Timeseries | Timescan | MosaicTimeseries | MosaicTimescan

  /** A step of a pipeline run: emptying a directory, or a batch routine
    * with the executor's worker count when one is passed. */
  datatype Phase = Clean(dir: string) | Run(stage: Stage, workers: Option<int>)

  /** The batch routines in order: ARD first, the time series when a time
    * series or a timescan is asked for, the timescan, the time-series
    * mosaic when mosaics and time series are asked for, and (where the
    * pipeline has one) the timescan mosaic when mosaics and timescans are. */
  function Stages(timeseries: bool, timescan: bool, mosaic: bool, timescanMosaic: bool): seq<Stage>
  {
    [ArdBatch]
      + (if timeseries || timescan then [Timeseries] else [])
      + (if timescan then [Timescan] else [])
      + (if mosaic && timeseries then [MosaicTimeseries] else [])
      + (if timescanMosaic && mosaic && timescan then [MosaicTimescan] else [])
  }

  /** Which routines run, each at most once, and a timescan only after the
    * time series it is computed from. */
  lemma StagesGating(timeseries: bool, timescan: bool, mosaic: bool, timescanMosaic: bool)
    ensures var r := Stages(timeseries, timescan, mosaic, timescanMosaic);
      (Timeseries in r <==> timeseries || timescan)
      && (Timescan in r <==> timescan)
      && (MosaicTimeseries in r <==> mosaic && timeseries)
      && (MosaicTimescan in r <==> timescanMosaic && mosaic && timescan)
      && (forall i, j :: 0 <= i < j < |r| ==> r[i] != r[j])
      && (forall i, j :: 0 <= i < |r| && 0 <= j < |r| && r[i] == Timeseries && r[j] == Timescan ==> i < j)
  {
    var r := Stages(timeseries, timescan, mosaic, timescanMosaic);
    var a := (if timeseries || timescan then [Timeseries] else []);
    var b := (if timescan then [Timescan] else []);
    var c := (if mosaic && timeseries then [MosaicTimeseries] else []);
    var d := (if timescanMosaic && mosaic && timescan then [MosaicTimescan] else []);
    assert r == [ArdBatch] + a + b + c + d;
    forall i, j | 0 <= i < |r| && 0 <= j < |r| && r[i] == Timeseries && r[j] == Timescan ensures i < j {
      assert i == 1;
    }
  }

  /** The phases of `grds_to_ard`: the processing directory emptied when
    * starting over, then the routines, without an executor worker count. */
  function GrdPhases(processingDir: string, timeseries: bool, timescan: bool, mosaic: bool, overwrite: bool)
    : seq<Phase>
  {
    (if overwrite then [Clean(processingDir)] else [])
      + Runs(Stages(timeseries, timescan, mosaic, false), None)
  }

  /** The phases of `bursts_to_ards`: the scratch directory always emptied,
    * the processing directory when starting over, then the routines, each
    * with the same worker count. */
  function BurstPhases(tempDir: string, processingDir: string, workers: int, timeseries: bool, timescan: bool,
                       mosaic: bool, overwrite: bool): seq<Phase>
  {
    [Clean(tempDir)] + (if overwrite then [Clean(processingDir)] else [])
      + Runs(Stages(timeseries, timescan, mosaic, true), Some(workers))
  }

  function Runs(stages: seq<Stage>, workers: Option<int>): (r: seq<Phase>)
    ensures |r| == |stages|
    ensures forall k :: 0 <= k < |r| ==> r[k] == Run(stages[k], workers)
  {
    seq(|stages|, k requires 0 <= k < |stages| => Run(stages[k], workers))
  }

  lemma RunsSnoc(stages: seq<Stage>, st: Stage, workers: Option<int>)
    ensures Runs(stages + [st], workers) == Runs(stages, workers) + [Run(st, workers)]
  {
  }

  /** `bursts_to_ards`'s worker count: the executor's, when it is set. */
  function BurstWorkers(godaleMaxWorkers: int, maxWorkers: int): int
  {
    if godaleMaxWorkers != 0 then godaleMaxWorkers else maxWorkers
  }

  /** Outside the elevation model's coverage (latitude beyond 59 degrees
    * north or south) terrain correction uses the ellipsoid. */
  function Geocoded(params: Config.Processing, centerLat: real): (r: Config.Processing)
  {
    if centerLat > 59.0 || centerLat < -59.0 then
      params.(single := params.single.(geocoding := "ellipsoid"))
    else params
  }

  /** Geocoding becomes `ellipsoid` exactly outside the coverage, and
    * nothing else changes. */
  lemma GeocodedOutsideCoverage(params: Config.Processing, centerLat: real)
    ensures var r := Geocoded(params, centerLat);
      r.timeseries == params.timeseries && r.single.ardType == params.single.ardType
      && (r.single == params.single.(geocoding := r.single.geocoding))
      && (r.single.geocoding == "ellipsoid" <==> centerLat > 59.0 || centerLat < -59.0 || params.single.geocoding == "ellipsoid")
  {
  }

  // ------------------------------------------------------------ the batch project

  /** A `Sentinel1Batch` project as its processing methods change it: the
    * ARD type and parameters, `config_dict['processing']` (absent until the
    * first update), and the phases run so far. */
  class BatchProject {
    const settings: BatchSettings
    const templates: Templates
    var ardType: string
    var ardParameters: Config.Processing
    var configProcessing: Option<Config.Processing>
    var log: seq<Phase>

    /** The end of `Sentinel1Batch.__init__`: the template of the product
      * and ARD type is loaded. */
    constructor (s: BatchSettings, t: Templates)
      ensures settings == s && templates == t && ardType == s.ardType
      ensures ardParameters == t(S1Scene.TemplateName(s.s1.productType, s.ardType))
      ensures configProcessing == None && log == []
    {
      settings := s;
      templates := t;
      ardType := s.ardType;
      ardParameters := t(S1Scene.TemplateName(s.s1.productType, s.ardType));
      configProcessing := None;
      log := [];
    }

    /** `update_ard_parameters`. */
    method UpdateArdParameters()
      modifies this
      ensures (ardType, ardParameters)
        == Updated(templates, settings.s1.productType, old(ardType), old(ardParameters))
      ensures configProcessing == Some(ardParameters) && log == old(log)
    {
      if ardType != ardParameters.single.ardType {
        ardType := ardParameters.single.ardType;
        ardParameters := templates(S1Scene.TemplateName(settings.s1.productType, ardType));
      }
      configProcessing := Some(ardParameters);
    }

    /** The batch routines of a pipeline run, one `if` each. */
    method Schedule(timeseries: bool, timescan: bool, mosaic: bool, timescanMosaic: bool, workers: Option<int>)
      modifies this
      ensures log == old(log) + Runs(Stages(timeseries, timescan, mosaic, timescanMosaic), workers)
      ensures ardType == old(ardType) && ardParameters == old(ardParameters)
      ensures configProcessing == old(configProcessing)
    {
      ghost var acc := [ArdBatch];
      log := log + [Run(ArdBatch, workers)];
      assert log == old(log) + Runs(acc, workers);
      if timeseries || timescan {
        RunsSnoc(acc, Timeseries, workers);
        acc := acc + [Timeseries];
        log := log + [Run(Timeseries, workers)];
      }
      assert log == old(log) + Runs(acc, workers);
      if timescan {
        RunsSnoc(acc, Timescan, workers);
        acc := acc + [Timescan];
        log := log + [Run(Timescan, workers)];
      }
      assert log == old(log) + Runs(acc, workers);
      if mosaic && timeseries {
        RunsSnoc(acc, MosaicTimeseries, workers);
        acc := acc + [MosaicTimeseries];
        log := log + [Run(MosaicTimeseries, workers)];
      }
      assert log == old(log) + Runs(acc, workers);
      if timescanMosaic && mosaic && timescan {
        RunsSnoc(acc, MosaicTimescan, workers);
        acc := acc + [MosaicTimescan];
        log := log + [Run(MosaicTimescan, workers)];
      }
      assert acc == Stages(timeseries, timescan, mosaic, timescanMosaic);
    }

    /** `grds_to_ard` as written: the parameters are updated and the
      * processing directory emptied when starting over; then the GRD batch
      * looks up `config_dict['executor_type']`, a key the project never
      * sets, and raises KeyError before any unit or later routine runs
      * (see `GrdBatchKeyMissing`). The stage flags play no part. */
    method GrdsToArdAsWritten(overwrite: bool) returns (r: Result<()>)
      modifies this
      ensures r == Failure(KeyError)
      ensures (ardType, ardParameters)
        == Updated(templates, settings.s1.productType, old(ardType), old(ardParameters))
      ensures configProcessing == Some(ardParameters)
      ensures log == old(log) + (if overwrite then [Clean(settings.s1.generic.processingDir)] else [])
    {
      UpdateArdParameters();
      if overwrite {
        log := log + [Clean(settings.s1.generic.processingDir)];
      }
      // `grd_batch.grd_to_ard_batch(..., config_dict=self.config_dict, ...)`
      r := Subscript(Config.PROJECT_CONFIG_KEYS, "executor_type");
    }

    /** `grds_to_ard` as intended: the batch is handed a configuration
      * holding `executor_type` (`Config.ConfigDict`), so it runs, and the
      * gated routines follow. */
    method GrdsToArd(timeseries: bool, timescan: bool, mosaic: bool, overwrite: bool)
      modifies this
      ensures (ardType, ardParameters)
        == Updated(templates, settings.s1.productType, old(ardType), old(ardParameters))
      ensures configProcessing == Some(ardParameters)
      ensures log == old(log) + GrdPhases(settings.s1.generic.processingDir, timeseries, timescan, mosaic, overwrite)
    {
      UpdateArdParameters();
      if overwrite {
        log := log + [Clean(settings.s1.generic.processingDir)];
      }
      Schedule(timeseries, timescan, mosaic, false, None);
    }

    /** `bursts_to_ards` as written. The scratch directory is emptied (and
      * the processing directory when starting over), the geocoding switched
      * outside coverage and the parameters updated; then the ARD batch is
      * handed `config_dict`, a dictionary, where it opens a configuration
      * file, and raises TypeError before any routine completes (see
      * `BurstBatchAsWritten`). */
    method BurstsToArdsAsWritten(overwrite: bool, centerLat: real) returns (r: Result<()>)
      modifies this
      ensures r == Failure(TypeError)
      ensures (ardType, ardParameters)
        == Updated(templates, settings.s1.productType, old(ardType), Geocoded(old(ardParameters), centerLat))
      ensures configProcessing == Some(ardParameters)
      ensures log == old(log) + [Clean(settings.s1.generic.tempDir)]
                   + (if overwrite then [Clean(settings.s1.generic.processingDir)] else [])
    {
      log := log + [Clean(settings.s1.generic.tempDir)];
      if overwrite {
        log := log + [Clean(settings.s1.generic.processingDir)];
      }
      if centerLat > 59.0 || centerLat < -59.0 {
        ardParameters := ardParameters.(single := ardParameters.single.(geocoding := "ellipsoid"));
      }
      UpdateArdParameters();
      // `burst_batch.bursts_to_ards(self.burst_inventory, self.config_dict, ...)`
      r := Open(DictValue);
    }

    /** `bursts_to_ards` as intended: the ARD batch is handed the
      * configuration file and the later routines are those of the burst
      * time-series module, so the run log ends with the gated stages;
      * `centerLat` is the latitude of the area's centroid. */
    method BurstsToArds(timeseries: bool, timescan: bool, mosaic: bool, overwrite: bool, maxWorkers: int,
                        centerLat: real)
      modifies this
      ensures (ardType, ardParameters)
        == Updated(templates, settings.s1.productType, old(ardType), Geocoded(old(ardParameters), centerLat))
      ensures configProcessing == Some(ardParameters)
      ensures log == old(log) + BurstPhases(settings.s1.generic.tempDir, settings.s1.generic.processingDir,
                                            BurstWorkers(settings.godaleMaxWorkers, maxWorkers),
                                            timeseries, timescan, mosaic, overwrite)
    {
      var workers := maxWorkers;
      if settings.godaleMaxWorkers != 0 {
        workers := settings.godaleMaxWorkers;
      }
      ghost var log0 := log;
      ghost var cleans := [Clean(settings.s1.generic.tempDir)]
        + (if overwrite then [Clean(settings.s1.generic.processingDir)] else []);
      log := log + [Clean(settings.s1.generic.tempDir)];
      if overwrite {
        log := log + [Clean(settings.s1.generic.processingDir)];
      }
      assert log == log0 + cleans;
      if centerLat > 59.0 || centerLat < -59.0 {
        ardParameters := ardParameters.(single := ardParameters.single.(geocoding := "ellipsoid"));
      }
      UpdateArdParameters();
      Schedule(timeseries, timescan, mosaic, true, Some(workers));
      ConcatAssoc(log0, cleans, Runs(Stages(timeseries, timescan, mosaic, true), Some(workers)));
    }
  }

  /** The top-level names of the burst batch module: what it imports and
    * the one function it defines. */
  const BURST_BATCH_NAMES: set<string> := {"os", "json", "itertools", "logging", "mp", "Path", "Executor",
    "ras", "prepare_burst_inventory", "burst_to_ard", "ard_to_ts", "ts_extent", "ts_ls_mask", "timescan",
    "mosaic", "logger", "PRODUCT_LIST", "bursts_to_ards"}

  /** The routines the burst project calls on that module after the ARD batch. */
  const BURST_STAGE_NAMES: seq<string> := ["ards_to_timeseries", "timeseries_to_timescan", "mosaic_timeseries",
    "mosaic_timescan"]

  /** As written, the burst project's pipeline cannot get past its first
    * routine: the ARD batch exists but opens the dictionary it is handed,
    * which raises TypeError, and none of the four later routines exists in
    * the module, so each would raise AttributeError. */
  lemma BurstBatchAsWritten()
    ensures GetAttr(BURST_BATCH_NAMES, "bursts_to_ards").Success? && Open(DictValue) == Failure(TypeError)
    ensures forall n :: n in BURST_STAGE_NAMES ==> GetAttr(BURST_BATCH_NAMES, n) == Failure(AttributeError)
  {
  }

  /** The project's dictionary holds the keys the GRD batch reads for its
    * units, but not the `executor_type` it reads to build its executor. */
  lemma GrdBatchKeyMissing()
    ensures Subscript(Config.PROJECT_CONFIG_KEYS, "executor_type") == Failure(KeyError)
    ensures Subscript(Config.PROJECT_CONFIG_KEYS, "processing").Success?
    ensures Subscript(Config.PROJECT_CONFIG_KEYS, "gpt_max_workers").Success?
  {
  }

  /** A burst run outside the coverage geocodes on the ellipsoid unless a
    * changed ARD type reloads its template, which drops the setting. */
  lemma BurstGeocoding(templates: Templates, productType: string, ardType: string, params: Config.Processing,
                       centerLat: real)
    ensures var (t, p) := Updated(templates, productType, ardType, Geocoded(params, centerLat));
      (params.single.ardType == ardType ==>
         (p.single.geocoding == "ellipsoid" <==>
            centerLat > 59.0 || centerLat < -59.0 || params.single.geocoding == "ellipsoid"))
      && (params.single.ardType != ardType ==> p == templates(S1Scene.TemplateName(productType, params.single.ardType)))
  {
    GeocodedOutsideCoverage(params, centerLat);
  }
}
