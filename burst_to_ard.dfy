/** Processing of one SLC burst into analysis-ready products: the master
  * burst is imported once, then each requested product family
  * (polarimetric decomposition, backscatter, interferometric coherence)
  * that does not yet carry its completion marker in the burst's output
  * directory is produced in a fresh temporary directory, moved to the
  * output directory and marked as processed. */
module BurstToArd {
  import opened Errors
  import opened Strings
  import opened Host
  import opened Config
  import opened CommonWrappers
  import opened SlcWrappers
  import opened PythonSemantics

  /** One row of the burst inventory, as the processing reads it. A missing
    * slave file (the end of a time series) is the empty string. */
  datatype Burst = Burst(
    outDirectory: string, masterPrefix: string, fileLocation: string,
    burstNr: string, swathId: string,
    slavePrefix: string, slaveFile: string, slaveBurstNr: string)

  const POL_MARKER := ".pol.processed"
  const BS_MARKER := ".bs.processed"
  const COH_MARKER := ".coh.processed"

  /** The product families this call produces. */
  datatype Families = Families(pol: bool, bs: bool, coh: bool)

  /** Coherence is wanted when requested and the burst has a slave. */
  predicate WantsCoherence(ard: SingleArd, b: Burst)
  {
    ard.coherence && b.slaveFile != ""
  }

  /** The requested families whose marker is missing from `outDir`. */
  function ToProduce(ard: SingleArd, coherence: bool, paths: set<string>, outDir: string): (f: Families)
    ensures f.pol <==> ard.hAAlpha && PathJoin(outDir, POL_MARKER) !in paths
    ensures f.bs <==> ard.backscatter && PathJoin(outDir, BS_MARKER) !in paths
    ensures f.coh <==> coherence && PathJoin(outDir, COH_MARKER) !in paths
  {
    Families(ard.hAAlpha && PathJoin(outDir, POL_MARKER) !in paths,
      ard.backscatter && PathJoin(outDir, BS_MARKER) !in paths,
      coherence && PathJoin(outDir, COH_MARKER) !in paths)
  }

  predicate AnyFamily(f: Families)
  {
    f.pol || f.bs || f.coh
  }

  // ---------------------------------------------------------------- plans

  /** The decomposition graph, with or without polarimetric speckle
    * filtering. */
  function DecompositionOp(ard: SingleArd): string
  {
    if ard.removePolSpeckle then HAALPHA_SPK_GRAPH else HAALPHA_GRAPH
  }

  /** The tools the polarimetric family runs, in order. */
  function PolOps(ard: SingleArd): seq<string>
  {
    [DecompositionOp(ard), "Terrain-Correction"]
  }

  /** The calibration graph for a product type; none for an unsupported
    * type. */
  function CalibrationOp(productType: string): (op: Option<string>)
    ensures op.Some? <==> productType in {"RTC-gamma0", "GTC-gamma0", "GTC-sigma0"}
  {
    if productType == "RTC-gamma0" then Some(RTC_GRAPH)
    else if productType == "GTC-gamma0" then Some(GTC_GAMMA_GRAPH)
    else if productType == "GTC-sigma0" then Some(GTC_SIGMA_GRAPH)
    else None
  }

  /** The radiometric part of the backscatter family: calibration, then the
    * optional speckle filter and dB scaling. */
  function RadiometryOps(ard: SingleArd, cal: string): seq<string>
  {
    [cal] + (if ard.removeSpeckle then ["Speckle-Filter"] else [])
      + (if ard.toDb then ["LinearToFromdB"] else [])
  }

  /** The geometric part of the backscatter family: geocoding, then the
    * optional layover/shadow mask. */
  function GeocodingOps(ard: SingleArd): seq<string>
  {
    ["Terrain-Correction"] + (if ard.createLsMask then [LS_GRAPH] else [])
  }

  /** The tools the backscatter family runs, in order: nothing at all for an
    * unsupported product type. */
  function BsOps(ard: SingleArd): seq<string>
  {
    match CalibrationOp(ard.productType)
    case None => []
    case Some(cal) => RadiometryOps(ard, cal) + GeocodingOps(ard)
  }

  /** The tools the coherence family runs, in order. */
  const COH_OPS: seq<string> := ["Back-Geocoding", COHERENCE_GRAPH, "Terrain-Correction"]

  /** The tools one burst runs, in order: the master import unless it is on
    * disk already, then the families to produce, the coherence family
    * beginning with the slave import. */
  function BurstPlan(ard: SingleArd, f: Families, imported: bool): seq<string>
  {
    if !AnyFamily(f) then []
    else
      (if imported then [] else [IMPORT_GRAPH])
      + (if f.pol then PolOps(ard) else [])
      + (if f.bs then BsOps(ard) else [])
      + (if f.coh then [IMPORT_GRAPH] + COH_OPS else [])
  }

  /** The first tool of each family is run by no other family. */
  lemma FirstToolsApart(ard: SingleArd)
    ensures DecompositionOp(ard) !in BsOps(ard) + [IMPORT_GRAPH] + COH_OPS
    ensures "Back-Geocoding" !in [IMPORT_GRAPH] + PolOps(ard) + BsOps(ard)
    ensures CalibrationOp(ard.productType).Some?
      ==> CalibrationOp(ard.productType).value !in [IMPORT_GRAPH] + PolOps(ard) + COH_OPS
    ensures IMPORT_GRAPH !in PolOps(ard) + BsOps(ard) + COH_OPS
  {
  }

  /** Each family's first tool belongs to the plan exactly when the family
    * is produced, and the import tool exactly when an import is due. */
  lemma PlanFamilies(ard: SingleArd, f: Families, imported: bool)
    ensures DecompositionOp(ard) in BurstPlan(ard, f, imported) <==> f.pol
    ensures "Back-Geocoding" in BurstPlan(ard, f, imported) <==> f.coh
    ensures CalibrationOp(ard.productType).Some?
      ==> (CalibrationOp(ard.productType).value in BurstPlan(ard, f, imported) <==> f.bs)
    ensures IMPORT_GRAPH in BurstPlan(ard, f, imported) <==> AnyFamily(f) && (!imported || f.coh)
  {
    var plan := BurstPlan(ard, f, imported);
    var imp := if imported then [] else [IMPORT_GRAPH];
    var pol := if f.pol then PolOps(ard) else [];
    var bs := if f.bs then BsOps(ard) else [];
    var coh := if f.coh then [IMPORT_GRAPH] + COH_OPS else [];
    FirstToolsApart(ard);
    if AnyFamily(f) {
      assert plan == imp + pol + bs + coh;
      assert forall x :: x in plan <==> x in imp || x in pol || x in bs || x in coh;
    }
  }

  /** A family whose marker was present before the call runs none of its
    * tools: not its first tool, anywhere in what ran. */
  lemma MarkedNotRerun(ard: SingleArd, f: Families, imported: bool, done: seq<string>)
    requires IsPrefix(done, LoggedAll([], BurstPlan(ard, f, imported)))
    ensures !f.pol ==> DecompositionOp(ard) !in done
    ensures !f.coh ==> "Back-Geocoding" !in done
    ensures !f.bs && CalibrationOp(ard.productType).Some? ==> CalibrationOp(ard.productType).value !in done
  {
    var plan := BurstPlan(ard, f, imported);
    var all := LoggedAll([], plan);
    PlanFamilies(ard, f, imported);
    forall op | op in done
      ensures op in plan
    {
      assert op in all by {
        var j :| 0 <= j < |done| && done[j] == op;
        assert all[j] == op;
      }
      LoggedAllMembers([], plan, op);
    }
  }

  // ------------------------------------------------------------- families

  /** `temp` is a directory made fresh for one family, apart from `outDir`:
    * nothing is at or below it yet. */
  predicate FreshScratch(paths: set<string>, temp: string, outDir: string)
  {
    Outside(temp, paths) && Separate(temp, outDir)
  }

  // --------------------------------------------------------------- stages

  /** `ha_alpha` writing `out`. */
  method Decompose(m: Machine, infile: string, out: string, config: ConfigDict, ghost start: nat)
    returns (r: Result<int>)
    requires m.Valid() && start <= |m.calls|
    modifies m
    ensures m.Valid() && m.markers == old(m.markers) && |m.calls| >= |old(m.calls)|
    ensures old(m.paths) <= m.paths <= old(m.paths) + Product(out)
    ensures Order(m.calls, start) == Logged(Order(old(m.calls), start), DecompositionOp(config.processing.single))
    ensures r.Failure? ==> r.error.GptRuntimeError?
  {
    r := StageInOrder(m, HaAlpha(infile, out, config), start);
  }

  /** `terrain_correction` writing `out`, at the ARD resolution with the
    * ARD elevation model. */
  method Geocode(m: Machine, infile: string, out: string, config: ConfigDict, ghost start: nat)
    returns (r: Result<int>)
    requires m.Valid() && start <= |m.calls|
    modifies m
    ensures m.Valid() && m.markers == old(m.markers) && |m.calls| >= |old(m.calls)|
    ensures old(m.paths) <= m.paths <= old(m.paths) + Product(out)
    ensures Order(m.calls, start) == Logged(Order(old(m.calls), start), "Terrain-Correction")
    ensures r.Failure? ==> r.error.GptRuntimeError?
  {
    var ard := config.processing.single;
    r := StageInOrder(m, TerrainCorrection(infile, out, ard.resolution, ard.dem, config.gptMaxWorkers), start);
  }

  /** `calibration` of an SLC burst writing `out`: an unsupported product
    * type raises TypeError before anything runs. */
  method Calibrate(m: Machine, infile: string, out: string, config: ConfigDict, ghost start: nat)
    returns (r: Result<int>)
    requires m.Valid() && start <= |m.calls|
    modifies m
    ensures m.Valid() && m.markers == old(m.markers) && |m.calls| >= |old(m.calls)|
    ensures old(m.paths) <= m.paths <= old(m.paths) + Product(out)
    ensures var op := CalibrationOp(config.processing.single.productType);
      (op.None? ==> r == Failure(TypeError) && m.calls == old(m.calls) && m.paths == old(m.paths))
      && (op.Some? ==>
            Order(m.calls, start) == Logged(Order(old(m.calls), start), op.value)
            && (r.Failure? ==> r.error.GptRuntimeError?))
  {
    var w := SlcCalibration(infile, out, config);
    if w.Failure? {
      return Failure(w.error);
    }
    r := StageInOrder(m, w.value, start);
  }

  /** `speckle_filter` with the ARD filter settings, writing `out`. */
  method Despeckle(m: Machine, infile: string, out: string, config: ConfigDict, ghost start: nat)
    returns (r: Result<int>)
    requires m.Valid() && start <= |m.calls|
    modifies m
    ensures m.Valid() && m.markers == old(m.markers) && |m.calls| >= |old(m.calls)|
    ensures old(m.paths) <= m.paths <= old(m.paths) + Product(out)
    ensures Order(m.calls, start) == Logged(Order(old(m.calls), start), "Speckle-Filter")
    ensures r.Failure? ==> r.error.GptRuntimeError?
  {
    r := StageInOrder(m, SpeckleFilterCall(infile, out, config.processing.single.speckleFilter, config.gptMaxWorkers), start);
  }

  /** `linear_to_db` writing `out`. */
  method ScaleToDb(m: Machine, infile: string, out: string, config: ConfigDict, ghost start: nat)
    returns (r: Result<int>)
    requires m.Valid() && start <= |m.calls|
    modifies m
    ensures m.Valid() && m.markers == old(m.markers) && |m.calls| >= |old(m.calls)|
    ensures old(m.paths) <= m.paths <= old(m.paths) + Product(out)
    ensures Order(m.calls, start) == Logged(Order(old(m.calls), start), "LinearToFromdB")
    ensures r.Failure? ==> r.error.GptRuntimeError?
  {
    r := StageInOrder(m, LinearToDb(infile, out, config.gptMaxWorkers), start);
  }

  /** `ls_mask` writing `out`: raises RuntimeError when it keeps failing. */
  method LayoverShadow(m: Machine, infile: string, out: string, config: ConfigDict, ghost start: nat)
    returns (r: Result<int>)
    requires m.Valid() && start <= |m.calls|
    modifies m
    ensures m.Valid() && m.markers == old(m.markers) && |m.calls| >= |old(m.calls)|
    ensures old(m.paths) <= m.paths <= old(m.paths) + Product(out)
    ensures Order(m.calls, start) == Logged(Order(old(m.calls), start), LS_GRAPH)
    ensures r.Failure? ==> r.error == RuntimeError
  {
    r := StageInOrder(m, LsMask(infile, out, config.processing.single, config.gptMaxWorkers), start);
  }

  /** The products made in a scratch directory lie below it. */
  lemma ScratchProducts(temp: string, a: string, b: string)
    ensures Below(temp, Product(PathJoin(temp, a)) + Product(PathJoin(temp, b)))
    ensures forall p :: p in Product(PathJoin(temp, a)) + Product(PathJoin(temp, b)) ==> IsProductPath(p)
  {
    ProductBelow(temp, a);
    ProductBelow(temp, b);
    ProductPaths(PathJoin(temp, a));
    ProductPaths(PathJoin(temp, b));
  }

  /** Paths from before a scratch directory was made are none of the
    * products made in it. */
  lemma FreshApart(temp: string, paths: set<string>, name: string)
    requires Outside(temp, paths)
    ensures paths !! Product(PathJoin(temp, name))
  {
    ProductBelow(temp, name);
  }

  /** A family's output product and marker lie outside a scratch directory
    * separate from the output directory. */
  lemma OutputsOutside(outDir: string, name: string, marker: string, temp: string)
    requires Separate(temp, outDir)
    ensures Outside(temp, Product(PathJoin(outDir, name)) + {PathJoin(outDir, marker)})
  {
    ProductOutside(outDir, name, temp);
    ProductOutside(outDir, marker, temp);
  }

  /** Running a tool only extends the order of stages. */
  lemma LoggedGrows(done: seq<string>, op: string)
    ensures IsPrefix(done, Logged(done, op))
  {
  }

  /** The polarimetric family's plan, stage by stage. */
  lemma PolPlan(d0: seq<string>, ard: SingleArd)
    ensures var d1 := Logged(d0, DecompositionOp(ard));
      LoggedAll(d0, PolOps(ard)) == Logged(d1, "Terrain-Correction")
      && IsPrefix(d0, d1) && IsPrefix(d1, Logged(d1, "Terrain-Correction"))
  {
    var ops := PolOps(ard);
    assert LoggedAll(d0, ops[..1]) == Logged(d0, DecompositionOp(ard)) by {
      assert |ops[..1][..0]| == 0;
    }
    LoggedGrows(d0, DecompositionOp(ard));
    LoggedGrows(Logged(d0, DecompositionOp(ard)), "Terrain-Correction");
  }

  /** The decomposition and its geocoding, inside the scratch directory
    * `temp`, then the move of the result to `<outDir>/<prefix>_pol` and its
    * marker. */
  method PolSteps(m: Machine, importFile: string, outDir: string, prefix: string, config: ConfigDict,
    temp: string, ghost start: nat) returns (r: Result<()>)
    requires m.Valid() && start <= |m.calls| && FreshScratch(m.paths, temp, outDir)
    modifies m
    ensures m.Valid() && |m.calls| >= |old(m.calls)|
    ensures var d0, done := Order(old(m.calls), start), Order(m.calls, start);
      var d1 := Logged(d0, DecompositionOp(config.processing.single));
      done == d1 || done == Logged(d1, "Terrain-Correction")
    ensures r.Success? ==>
      Order(m.calls, start) == Logged(Logged(Order(old(m.calls), start), DecompositionOp(config.processing.single)), "Terrain-Correction")
    ensures var dest, marker := PathJoin(outDir, prefix + "_pol"), PathJoin(outDir, POL_MARKER);
      var scratch := Product(PathJoin(temp, prefix + "_h")) + Product(PathJoin(temp, prefix + "_pol"));
      if r.Success? then
        old(m.paths) + Product(dest) + {marker} <= m.paths <= old(m.paths) + Product(dest) + {marker} + scratch
        && m.markers == old(m.markers)[marker := MARKER_TEXT]
      else
        old(m.paths) - Product(dest) <= m.paths <= old(m.paths) + Product(dest) + scratch
        && m.markers == old(m.markers)
    ensures r.Failure? ==> r.error.GptRuntimeError? || r.error == FileNotFoundError
  {
    var ard := config.processing.single;
    ghost var d0 := Order(m.calls, start);
    var outHaa := PathJoin(temp, prefix + "_h");
    var s := Decompose(m, importFile, outHaa, config, start);
    if s.Failure? {
      return Failure(s.error);
    }
    var outHtc := PathJoin(temp, prefix + "_pol");
    s := Geocode(m, Dim(outHaa), outHtc, config, start);
    if s.Failure? {
      return Failure(s.error);
    }
    var dest := PathJoin(outDir, prefix + "_pol");
    SameNameApart(temp, outDir, prefix + "_pol");
    FreshApart(temp, old(m.paths), prefix + "_pol");
    var mv := ReplaceProduct(m, outHtc, dest);
    if mv.Failure? {
      return Failure(mv.error);
    }
    MarkerPathNotProduct(outDir, POL_MARKER);
    m.WriteMarker(PathJoin(outDir, POL_MARKER), MARKER_TEXT);
    r := Success(());
  }

  /** `create_polarimetric_layers`: the decomposed and geocoded burst
    * replaces `<outDir>/<prefix>_pol` and the `.pol.processed` marker is
    * written; the scratch directory is gone afterwards, and nothing else
    * changes. */
  method PolarimetricLayers(m: Machine, importFile: string, outDir: string, prefix: string, config: ConfigDict,
    temp: string, ghost start: nat) returns (r: Result<()>)
    requires m.Valid() && start <= |m.calls| && FreshScratch(m.paths, temp, outDir)
    modifies m
    ensures m.Valid() && |m.calls| >= |old(m.calls)|
    ensures var d0, done := Order(old(m.calls), start), Order(m.calls, start);
      var plan := LoggedAll(d0, PolOps(config.processing.single));
      IsPrefix(d0, done) && IsPrefix(done, plan) && (r.Success? ==> done == plan)
    ensures var dest, marker := PathJoin(outDir, prefix + "_pol"), PathJoin(outDir, POL_MARKER);
      if r.Success? then
        m.paths == old(m.paths) + Product(dest) + {marker} && m.markers == old(m.markers)[marker := MARKER_TEXT]
      else
        old(m.paths) - Product(dest) <= m.paths <= old(m.paths) + Product(dest) && m.markers == old(m.markers)
    ensures r.Failure? ==> r.error.GptRuntimeError? || r.error == FileNotFoundError
  {
    var dest, marker := PathJoin(outDir, prefix + "_pol"), PathJoin(outDir, POL_MARKER);
    PolPlan(Order(m.calls, start), config.processing.single);
    r := PolSteps(m, importFile, outDir, prefix, config, temp, start);
    ghost var scratch := Product(PathJoin(temp, prefix + "_h")) + Product(PathJoin(temp, prefix + "_pol"));
    ScratchProducts(temp, prefix + "_h", prefix + "_pol");
    OutputsOutside(outDir, prefix + "_pol", POL_MARKER, temp);
    ScratchApart(old(m.paths), Product(dest) + {marker}, m.paths, scratch, temp);
    DropScratch(m, temp, scratch);
  }

  /** The name of the radiometric product in the scratch directory:
    * calibrated, then speckle filtered, then dB scaled, each optional step
    * renaming it. */
  function RadiometrySuffix(ard: SingleArd): string
  {
    if ard.toDb then "_cal_db" else if ard.removeSpeckle then "_speckle_import" else "_cal"
  }

  /** Every product the radiometric steps may make in the scratch
    * directory. */
  function RadiometryScratch(temp: string, prefix: string): set<string>
  {
    Product(PathJoin(temp, prefix + "_cal")) + Product(PathJoin(temp, prefix + "_speckle_import"))
      + Product(PathJoin(temp, prefix + "_cal_db"))
  }

  /** Calibration of the imported burst, then the optional speckle filter
    * and dB scaling, each consuming (and deleting) the product before it,
    * all inside the scratch directory `temp`; the result names the last
    * product. */
  method BsRadiometry(m: Machine, importFile: string, prefix: string, config: ConfigDict,
    temp: string, ghost start: nat) returns (r: Result<string>, ghost ran: seq<string>)
    requires m.Valid() && start <= |m.calls| && Outside(temp, m.paths)
    modifies m
    ensures m.Valid() && m.markers == old(m.markers) && |m.calls| >= |old(m.calls)|
    ensures old(m.paths) <= m.paths <= old(m.paths) + RadiometryScratch(temp, prefix)
    ensures Order(m.calls, start) == LoggedAll(Order(old(m.calls), start), ran)
    ensures var ard := config.processing.single; var op := CalibrationOp(ard.productType);
      (op.None? ==> r == Failure(TypeError) && m.calls == old(m.calls) && m.paths == old(m.paths) && ran == [])
      && (op.Some? ==>
            IsPrefix(ran, RadiometryOps(ard, op.value))
            && (r.Success? ==> ran == RadiometryOps(ard, op.value))
            && (r.Failure? ==> r.error.GptRuntimeError?))
    ensures r.Success? ==> r.value == PathJoin(temp, prefix + RadiometrySuffix(config.processing.single))
  {
    var ard := config.processing.single;
    ghost var d0 := Order(m.calls, start);
    var op := CalibrationOp(ard.productType);
    ProductBelow(temp, prefix + "_cal");
    var out := PathJoin(temp, prefix + "_cal");
    var s := Calibrate(m, importFile, out, config, start);
    ran := [];
    if op.None? {
      return Failure(s.error), ran;
    }
    ran := [op.value];
    assert LoggedAll(d0, ran) == Logged(d0, op.value) by {
      assert |ran[..0]| == 0;
    }
    RadiometryOpsSplit(ard, op.value);
    if s.Failure? {
      return Failure(s.error), ran;
    }
    ghost var ran2;
    r, ran2 := BsFilters(m, prefix, config, temp, old(m.paths), start);
    LoggedAllConcat(d0, ran, ran2);
    ran := ran + ran2;
  }

  /** The radiometric tools are the calibration followed by the filters;
    * a prefix of the filters' tools extends to a prefix of them. */
  lemma RadiometryOpsSplit(ard: SingleArd, cal: string)
    ensures RadiometryOps(ard, cal) == [cal] + FilterOps(ard)
    ensures forall ran :: IsPrefix(ran, FilterOps(ard)) ==> IsPrefix([cal] + ran, RadiometryOps(ard, cal))
  {
    forall ran | IsPrefix(ran, FilterOps(ard)) ensures IsPrefix([cal] + ran, RadiometryOps(ard, cal)) {
      assert ([cal] + FilterOps(ard))[..|[cal] + ran|] == [cal] + FilterOps(ard)[..|ran|];
    }
  }

  /** The tools of the optional speckle filter and dB scaling. */
  function FilterOps(ard: SingleArd): seq<string>
  {
    (if ard.removeSpeckle then ["Speckle-Filter"] else []) + (if ard.toDb then ["LinearToFromdB"] else [])
  }

  /** The optional speckle filter and dB scaling of the calibrated product
    * `<temp>/<prefix>_cal`, each consuming (and deleting) the product
    * before it; the result names the last product. */
  method BsFilters(m: Machine, prefix: string, config: ConfigDict, temp: string, ghost base: set<string>,
    ghost start: nat) returns (r: Result<string>, ghost ran: seq<string>)
    requires m.Valid() && start <= |m.calls| && Outside(temp, base)
    requires base <= m.paths <= base + Product(PathJoin(temp, prefix + "_cal"))
    modifies m
    ensures m.Valid() && m.markers == old(m.markers) && |m.calls| >= |old(m.calls)|
    ensures base <= m.paths <= base + RadiometryScratch(temp, prefix)
    ensures Order(m.calls, start) == LoggedAll(Order(old(m.calls), start), ran)
    ensures IsPrefix(ran, FilterOps(config.processing.single))
    ensures r.Success? ==> ran == FilterOps(config.processing.single)
    ensures r.Success? ==> r.value == PathJoin(temp, prefix + RadiometrySuffix(config.processing.single))
    ensures r.Failure? ==> r.error.GptRuntimeError?
  {
    var ard := config.processing.single;
    ghost var d0 := Order(m.calls, start);
    r, ran := BsSpeckle(m, prefix, config, temp, base, start);
    if r.Failure? || !ard.toDb {
      return;
    }
    var db := PathJoin(temp, prefix + "_cal_db");
    var s := ScaleToDb(m, Dim(r.value), db, config, start);
    LoggedAllSnoc(d0, ran, "LinearToFromdB");
    ran := ran + ["LinearToFromdB"];
    if s.Failure? {
      return Failure(s.error), ran;
    }
    FreshApart(temp, base, prefix + "_cal");
    FreshApart(temp, base, prefix + "_speckle_import");
    m.DeleteProduct(r.value);
    r := Success(db);
  }

  /** The optional speckle filter of the calibrated product
    * `<temp>/<prefix>_cal` into `<temp>/<prefix>_speckle_import`, which
    * then replaces it; the result names the product kept. */
  method BsSpeckle(m: Machine, prefix: string, config: ConfigDict, temp: string, ghost base: set<string>,
    ghost start: nat) returns (r: Result<string>, ghost ran: seq<string>)
    requires m.Valid() && start <= |m.calls| && Outside(temp, base)
    requires base <= m.paths <= base + Product(PathJoin(temp, prefix + "_cal"))
    modifies m
    ensures m.Valid() && m.markers == old(m.markers) && |m.calls| >= |old(m.calls)|
    ensures base <= m.paths
      <= base + Product(PathJoin(temp, prefix + "_cal")) + Product(PathJoin(temp, prefix + "_speckle_import"))
    ensures Order(m.calls, start) == LoggedAll(Order(old(m.calls), start), ran)
    ensures ran == if config.processing.single.removeSpeckle then ["Speckle-Filter"] else []
    ensures r.Success? ==> r.value == PathJoin(temp, prefix + if config.processing.single.removeSpeckle then "_speckle_import" else "_cal")
    ensures r.Failure? ==> r.error.GptRuntimeError?
  {
    var out := PathJoin(temp, prefix + "_cal");
    ran := [];
    if !config.processing.single.removeSpeckle {
      return Success(out), ran;
    }
    ghost var d0 := Order(m.calls, start);
    var spk := PathJoin(temp, prefix + "_speckle_import");
    var s := Despeckle(m, Dim(out), spk, config, start);
    ran := ["Speckle-Filter"];
    assert LoggedAll(d0, ran) == Logged(d0, "Speckle-Filter") by {
      assert |ran[..0]| == 0;
    }
    if s.Failure? {
      return Failure(s.error), ran;
    }
    FreshApart(temp, base, prefix + "_cal");
    m.DeleteProduct(out);
    r := Success(spk);
  }

  /** The backscatter family's products in the output directory: the
    * geocoded backscatter and, when requested, the layover/shadow mask. */
  function BsOutputs(ard: SingleArd, outDir: string, prefix: string): set<string>
  {
    Product(PathJoin(outDir, prefix + "_bs"))
      + (if ard.createLsMask then Product(PathJoin(outDir, prefix + "_LS")) else {})
  }

  /** Every product the geocoding steps may make in the scratch directory. */
  function GeocodingScratch(temp: string, prefix: string): set<string>
  {
    Product(PathJoin(temp, prefix + "_bs")) + Product(PathJoin(temp, prefix + "_LS"))
  }

  /** The backscatter family's scratch products lie below the scratch
    * directory, and the radiometric and geocoding ones are different
    * products. */
  lemma BsScratch(temp: string, prefix: string)
    ensures Below(temp, RadiometryScratch(temp, prefix) + GeocodingScratch(temp, prefix))
    ensures forall p :: p in RadiometryScratch(temp, prefix) + GeocodingScratch(temp, prefix) ==> IsProductPath(p)
    ensures RadiometryScratch(temp, prefix) !! GeocodingScratch(temp, prefix)
  {
    ScratchProducts(temp, prefix + "_cal", prefix + "_speckle_import");
    ScratchProducts(temp, prefix + "_cal_db", prefix + "_bs");
    ScratchProducts(temp, prefix + "_LS", prefix + "_LS");
    NamesApart(temp, prefix, "_cal", "_bs");
    NamesApart(temp, prefix, "_cal", "_LS");
    NamesApart(temp, prefix, "_speckle_import", "_bs");
    NamesApart(temp, prefix, "_speckle_import", "_LS");
    NamesApart(temp, prefix, "_cal_db", "_bs");
    NamesApart(temp, prefix, "_cal_db", "_LS");
  }

  /** Products in one directory whose name suffixes end differently are
    * different products. */
  lemma NamesApart(temp: string, prefix: string, a: string, b: string)
    requires |a| > 0 && |b| > 0 && a[|a| - 1] != b[|b| - 1]
    ensures Product(PathJoin(temp, prefix + a)) !! Product(PathJoin(temp, prefix + b))
  {
    var x, y := PathJoin(temp, prefix + a), PathJoin(temp, prefix + b);
    assert x[|x| - 1] == a[|a| - 1] && y[|y| - 1] == b[|b| - 1];
    ProductsApart(x, y, 0);
  }

  /** The family's products from the radiometric product `input`, then the
    * `.bs.processed` marker. */
  method BsGeocoding(m: Machine, input: string, outDir: string, prefix: string, config: ConfigDict,
    temp: string, ghost start: nat) returns (r: Result<()>, ghost ran: seq<string>)
    requires m.Valid() && start <= |m.calls| && Separate(temp, outDir) && m.paths !! GeocodingScratch(temp, prefix)
    modifies m
    ensures m.Valid() && |m.calls| >= |old(m.calls)|
    ensures Order(m.calls, start) == LoggedAll(Order(old(m.calls), start), ran)
    ensures IsPrefix(ran, GeocodingOps(config.processing.single))
    ensures r.Success? ==> ran == GeocodingOps(config.processing.single)
    ensures var outs, marker := BsOutputs(config.processing.single, outDir, prefix), PathJoin(outDir, BS_MARKER);
      var scratch := GeocodingScratch(temp, prefix);
      if r.Success? then
        old(m.paths) + outs + {marker} <= m.paths <= old(m.paths) + outs + {marker} + scratch
        && m.markers == old(m.markers)[marker := MARKER_TEXT]
      else
        old(m.paths) - outs <= m.paths <= old(m.paths) + outs + scratch
        && m.markers == old(m.markers)
    ensures r.Failure? ==>
      r.error.GptRuntimeError? || r.error == FileNotFoundError || (r.error == RuntimeError && config.processing.single.createLsMask)
  {
    r, ran := BsProducts(m, input, outDir, prefix, config, temp, start);
    if r.Success? {
      MarkerPathNotProduct(outDir, BS_MARKER);
      m.WriteMarker(PathJoin(outDir, BS_MARKER), MARKER_TEXT);
    }
  }

  /** Geocoding of the radiometric product `input` and its move to
    * `<outDir>/<prefix>_bs`, then the optional layover/shadow mask (from the
    * same input) and its move to `<outDir>/<prefix>_LS`. */
  method BsProducts(m: Machine, input: string, outDir: string, prefix: string, config: ConfigDict,
    temp: string, ghost start: nat) returns (r: Result<()>, ghost ran: seq<string>)
    requires m.Valid() && start <= |m.calls| && Separate(temp, outDir) && m.paths !! GeocodingScratch(temp, prefix)
    modifies m
    ensures m.Valid() && m.markers == old(m.markers) && |m.calls| >= |old(m.calls)|
    ensures Order(m.calls, start) == LoggedAll(Order(old(m.calls), start), ran)
    ensures IsPrefix(ran, GeocodingOps(config.processing.single))
    ensures r.Success? ==> ran == GeocodingOps(config.processing.single)
    ensures var outs := BsOutputs(config.processing.single, outDir, prefix);
      var scratch := GeocodingScratch(temp, prefix);
      if r.Success? then old(m.paths) + outs <= m.paths <= old(m.paths) + outs + scratch
      else old(m.paths) - outs <= m.paths <= old(m.paths) + outs + scratch
    ensures r.Failure? ==>
      r.error.GptRuntimeError? || r.error == FileNotFoundError || (r.error == RuntimeError && config.processing.single.createLsMask)
  {
    var ard := config.processing.single;
    ghost var d0 := Order(m.calls, start);
    ghost var dest := Product(PathJoin(outDir, prefix + "_bs"));
    r := BsTerrain(m, input, outDir, prefix, config, temp, start);
    ran := ["Terrain-Correction"];
    assert LoggedAll(d0, ran) == Logged(d0, "Terrain-Correction") by {
      assert |ran[..0]| == 0;
    }
    if r.Failure? {
      return;
    }
    if ard.createLsMask {
      OutputsOutside(outDir, prefix + "_bs", BS_MARKER, temp);
      FreshApart(temp, dest, prefix + "_LS");
      NamesApart(temp, prefix, "_bs", "_LS");
      r := BsMask(m, input, outDir, prefix, config, temp, start);
      LoggedAllSnoc(d0, ran, LS_GRAPH);
      ran := ran + [LS_GRAPH];
    }
  }

  /** Terrain correction of `input` into `<temp>/<prefix>_bs`, then its
    * move to `<outDir>/<prefix>_bs`. */
  method BsTerrain(m: Machine, input: string, outDir: string, prefix: string, config: ConfigDict,
    temp: string, ghost start: nat) returns (r: Result<()>)
    requires m.Valid() && start <= |m.calls| && Separate(temp, outDir)
    requires m.paths !! Product(PathJoin(temp, prefix + "_bs"))
    modifies m
    ensures m.Valid() && m.markers == old(m.markers) && |m.calls| >= |old(m.calls)|
    ensures Order(m.calls, start) == Logged(Order(old(m.calls), start), "Terrain-Correction")
    ensures var out, tmp := Product(PathJoin(outDir, prefix + "_bs")), Product(PathJoin(temp, prefix + "_bs"));
      if r.Success? then old(m.paths) + out <= m.paths <= old(m.paths) + out + tmp
      else old(m.paths) - out <= m.paths <= old(m.paths) + out + tmp
    ensures r.Failure? ==> r.error.GptRuntimeError? || r.error == FileNotFoundError
  {
    var outTc := PathJoin(temp, prefix + "_bs");
    var s := Geocode(m, Dim(input), outTc, config, start);
    if s.Failure? {
      return Failure(s.error);
    }
    SameNameApart(temp, outDir, prefix + "_bs");
    r := ReplaceProduct(m, outTc, PathJoin(outDir, prefix + "_bs"));
  }

  /** The layover/shadow mask of `input` into `<temp>/<prefix>_LS`, then
    * its move to `<outDir>/<prefix>_LS`. */
  method BsMask(m: Machine, input: string, outDir: string, prefix: string, config: ConfigDict,
    temp: string, ghost start: nat) returns (r: Result<()>)
    requires m.Valid() && start <= |m.calls| && Separate(temp, outDir)
    requires m.paths !! Product(PathJoin(temp, prefix + "_LS"))
    modifies m
    ensures m.Valid() && m.markers == old(m.markers) && |m.calls| >= |old(m.calls)|
    ensures Order(m.calls, start) == Logged(Order(old(m.calls), start), LS_GRAPH)
    ensures var out, tmp := Product(PathJoin(outDir, prefix + "_LS")), Product(PathJoin(temp, prefix + "_LS"));
      if r.Success? then old(m.paths) + out <= m.paths <= old(m.paths) + out + tmp
      else old(m.paths) - out <= m.paths <= old(m.paths) + out + tmp
    ensures r.Failure? ==> r.error == RuntimeError || r.error == FileNotFoundError
  {
    var outLs := PathJoin(temp, prefix + "_LS");
    var s := LayoverShadow(m, Dim(input), outLs, config, start);
    if s.Failure? {
      return Failure(s.error);
    }
    SameNameApart(temp, outDir, prefix + "_LS");
    r := ReplaceProduct(m, outLs, PathJoin(outDir, prefix + "_LS"));
  }

  /** Every product the backscatter family may make in its scratch
    * directory. */
  function BsScratchProducts(temp: string, prefix: string): set<string>
  {
    RadiometryScratch(temp, prefix) + GeocodingScratch(temp, prefix)
  }

  /** The backscatter family's outputs and marker lie outside a scratch
    * directory separate from the output directory. */
  lemma BsOutputsOutside(temp: string, outDir: string, prefix: string, ard: SingleArd)
    requires Separate(temp, outDir)
    ensures Outside(temp, BsOutputs(ard, outDir, prefix) + {PathJoin(outDir, BS_MARKER)})
  {
    OutputsOutside(outDir, prefix + "_bs", BS_MARKER, temp);
    ProductOutside(outDir, prefix + "_LS", temp);
  }

  /** Where the backscatter family's products lie: its scratch products
    * below the scratch directory, apart from the paths that were there and
    * from the family's outputs, so that dropping the scratch directory
    * leaves exactly the rest. */
  lemma BsFrame(before: set<string>, mid: set<string>, temp: string, outDir: string, prefix: string, ard: SingleArd)
    requires Outside(temp, before) && Separate(temp, outDir)
    requires mid <= before + BsOutputs(ard, outDir, prefix) + {PathJoin(outDir, BS_MARKER)} + BsScratchProducts(temp, prefix)
    ensures var scratch := BsScratchProducts(temp, prefix);
      Below(temp, scratch) && (forall p :: p in scratch ==> IsProductPath(p))
      && Outside(temp, mid - scratch)
      && (before + BsOutputs(ard, outDir, prefix) + {PathJoin(outDir, BS_MARKER)}) !! scratch
  {
    BsScratch(temp, prefix);
    BsOutputsOutside(temp, outDir, prefix, ard);
    ScratchApart(before, BsOutputs(ard, outDir, prefix) + {PathJoin(outDir, BS_MARKER)}, mid, BsScratchProducts(temp, prefix), temp);
  }

  /** The backscatter family's steps inside the scratch directory `temp`:
    * the radiometric steps, then geocoding, the mask, the moves and the
    * marker. */
  method BsSteps(m: Machine, importFile: string, outDir: string, prefix: string, config: ConfigDict,
    temp: string, ghost start: nat) returns (r: Result<string>, ghost ran: seq<string>)
    requires m.Valid() && start <= |m.calls| && FreshScratch(m.paths, temp, outDir)
    modifies m
    ensures m.Valid() && |m.calls| >= |old(m.calls)|
    ensures Order(m.calls, start) == LoggedAll(Order(old(m.calls), start), ran)
    ensures IsPrefix(ran, BsOps(config.processing.single))
    ensures r.Success? ==> ran == BsOps(config.processing.single)
    ensures CalibrationOp(config.processing.single.productType).None? ==>
      r == Failure(TypeError) && m.calls == old(m.calls) && m.paths == old(m.paths)
    ensures var outs, marker := BsOutputs(config.processing.single, outDir, prefix), PathJoin(outDir, BS_MARKER);
      var scratch := BsScratchProducts(temp, prefix);
      if r.Success? then
        old(m.paths) + outs + {marker} <= m.paths <= old(m.paths) + outs + {marker} + scratch
        && m.markers == old(m.markers)[marker := MARKER_TEXT]
      else
        old(m.paths) - outs <= m.paths <= old(m.paths) + outs + scratch
        && m.markers == old(m.markers)
    ensures r.Success? ==> r.value == Dim(PathJoin(temp, prefix + "_bs"))
    ensures r.Failure? ==>
      r.error.GptRuntimeError? || r.error == TypeError || r.error == FileNotFoundError
      || (r.error == RuntimeError && config.processing.single.createLsMask)
  {
    var ard := config.processing.single;
    ghost var d0 := Order(m.calls, start);
    BsScratch(temp, prefix);
    var rad;
    rad, ran := BsRadiometry(m, importFile, prefix, config, temp, start);
    if rad.Failure? {
      if CalibrationOp(ard.productType).Some? {
        assert BsOps(ard) == RadiometryOps(ard, CalibrationOp(ard.productType).value) + GeocodingOps(ard);
      }
      return Failure(rad.error), ran;
    }
    FreshApart(temp, old(m.paths), prefix + "_bs");
    FreshApart(temp, old(m.paths), prefix + "_LS");
    var geo, ran2 := BsGeocoding(m, rad.value, outDir, prefix, config, temp, start);
    LoggedAllConcat(d0, ran, ran2);
    ran := ran + ran2;
    if geo.Failure? {
      return Failure(geo.error), ran;
    }
    r := Success(Dim(PathJoin(temp, prefix + "_bs")));
  }

  /** `create_backscatter_layers`: the calibrated (optionally speckle
    * filtered and dB scaled) and geocoded burst replaces
    * `<outDir>/<prefix>_bs`, the layover/shadow mask, when requested,
    * replaces `<outDir>/<prefix>_LS`, and the `.bs.processed` marker is
    * written; the scratch directory is gone afterwards, and nothing else
    * changes. An unsupported product type raises TypeError and changes
    * nothing. */
  method BackscatterLayers(m: Machine, importFile: string, outDir: string, prefix: string, config: ConfigDict,
    temp: string, ghost start: nat) returns (r: Result<string>)
    requires m.Valid() && start <= |m.calls| && FreshScratch(m.paths, temp, outDir)
    modifies m
    ensures m.Valid() && |m.calls| >= |old(m.calls)|
    ensures var d0, done := Order(old(m.calls), start), Order(m.calls, start);
      var plan := LoggedAll(d0, BsOps(config.processing.single));
      IsPrefix(d0, done) && IsPrefix(done, plan) && (r.Success? ==> done == plan)
    ensures CalibrationOp(config.processing.single.productType).None? ==>
      r == Failure(TypeError) && m.calls == old(m.calls) && m.paths == old(m.paths) && m.markers == old(m.markers)
    ensures var outs, marker := BsOutputs(config.processing.single, outDir, prefix), PathJoin(outDir, BS_MARKER);
      if r.Success? then
        m.paths == old(m.paths) + outs + {marker} && m.markers == old(m.markers)[marker := MARKER_TEXT]
      else
        old(m.paths) - outs <= m.paths <= old(m.paths) + outs && m.markers == old(m.markers)
    ensures r.Success? ==> r.value == Dim(PathJoin(temp, prefix + "_bs"))
    ensures r.Failure? ==>
      r.error.GptRuntimeError? || r.error == TypeError || r.error == FileNotFoundError
      || (r.error == RuntimeError && config.processing.single.createLsMask)
  {
    var ard := config.processing.single;
    ghost var d0 := Order(m.calls, start);
    ghost var scratch := BsScratchProducts(temp, prefix);
    ghost var ran;
    r, ran := BsSteps(m, importFile, outDir, prefix, config, temp, start);
    PlanUnderway(d0, ran, BsOps(ard));
    BsFrame(old(m.paths), m.paths, temp, outDir, prefix, ard);
    DropScratch(m, temp, scratch);
  }

  // ------------------------------------------------------------ coherence

  /** `coreg` of the slave import onto the master import, writing `out`. */
  method CoRegister(m: Machine, master: string, slave: string, out: string, config: ConfigDict, ghost start: nat)
    returns (r: Result<int>)
    requires m.Valid() && start <= |m.calls|
    modifies m
    ensures m.Valid() && m.markers == old(m.markers) && |m.calls| >= |old(m.calls)|
    ensures old(m.paths) <= m.paths <= old(m.paths) + Product(out)
    ensures Order(m.calls, start) == Logged(Order(old(m.calls), start), "Back-Geocoding")
    ensures r.Failure? ==> r.error.GptRuntimeError?
  {
    r := StageInOrder(m, Coreg(master, slave, out, config), start);
  }

  /** `coherence` of a co-registered stack, writing `out`. */
  method EstimateCoherence(m: Machine, infile: string, out: string, config: ConfigDict, ghost start: nat)
    returns (r: Result<int>)
    requires m.Valid() && start <= |m.calls|
    modifies m
    ensures m.Valid() && m.markers == old(m.markers) && |m.calls| >= |old(m.calls)|
    ensures old(m.paths) <= m.paths <= old(m.paths) + Product(out)
    ensures Order(m.calls, start) == Logged(Order(old(m.calls), start), COHERENCE_GRAPH)
    ensures r.Failure? ==> r.error.GptRuntimeError?
  {
    r := StageInOrder(m, Coherence(infile, out, config), start);
  }

  /** Every product the coherence family may make in its scratch directory. */
  function CohScratch(temp: string, prefix: string): set<string>
  {
    Product(PathJoin(temp, prefix + "_coreg")) + Product(PathJoin(temp, prefix + "_coherence"))
      + Product(PathJoin(temp, prefix + "_coh"))
  }

  /** Co-registration of the slave import onto the master import, whose
    * product is deleted afterwards, then the coherence estimate of the
    * stack, whose product is deleted afterwards; the result names the
    * coherence product. */
  method CohStack(m: Machine, masterImport: string, slaveImport: string, prefix: string, config: ConfigDict,
    temp: string, ghost start: nat) returns (r: Result<string>, ghost ran: seq<string>)
    requires m.Valid() && start <= |m.calls| && Outside(temp, m.paths)
    modifies m
    ensures m.Valid() && m.markers == old(m.markers) && |m.calls| >= |old(m.calls)|
    ensures Order(m.calls, start) == LoggedAll(Order(old(m.calls), start), ran)
    ensures ran == ["Back-Geocoding"] || ran == ["Back-Geocoding", COHERENCE_GRAPH]
    ensures r.Success? ==> ran == ["Back-Geocoding", COHERENCE_GRAPH]
    ensures var coreg, coh := PathJoin(temp, prefix + "_coreg"), PathJoin(temp, prefix + "_coherence");
      old(m.paths) - Product(masterImport) <= m.paths <= old(m.paths) + Product(coreg) + Product(coh)
      && (r.Success? ==> m.paths <= old(m.paths) - Product(masterImport) + Product(coh))
    ensures r.Success? ==> r.value == PathJoin(temp, prefix + "_coherence")
    ensures r.Failure? ==> r.error.GptRuntimeError?
  {
    ghost var d0 := Order(m.calls, start);
    var coreg := PathJoin(temp, prefix + "_coreg");
    var s := CoRegister(m, Dim(masterImport), Dim(slaveImport), coreg, config, start);
    ran := ["Back-Geocoding"];
    assert LoggedAll(d0, ran) == Logged(d0, "Back-Geocoding") by {
      assert |ran[..0]| == 0;
    }
    if s.Failure? {
      return Failure(s.error), ran;
    }
    m.DeleteProduct(masterImport);
    var coh := PathJoin(temp, prefix + "_coherence");
    s := EstimateCoherence(m, Dim(coreg), coh, config, start);
    LoggedAllSnoc(d0, ran, COHERENCE_GRAPH);
    ran := ran + [COHERENCE_GRAPH];
    if s.Failure? {
      return Failure(s.error), ran;
    }
    FreshApart(temp, old(m.paths), prefix + "_coreg");
    m.DeleteProduct(coreg);
    r := Success(coh);
  }

  /** Geocoding of the coherence product `<temp>/<prefix>_coherence`, which
    * is deleted afterwards, the move of the result to `<outDir>/<prefix>_coh`
    * and the `.coh.processed` marker. */
  method CohGeocode(m: Machine, outDir: string, prefix: string, config: ConfigDict,
    temp: string, ghost start: nat) returns (r: Result<()>)
    requires m.Valid() && start <= |m.calls| && Separate(temp, outDir)
    requires m.paths !! Product(PathJoin(temp, prefix + "_coh"))
    modifies m
    ensures m.Valid() && |m.calls| >= |old(m.calls)|
    ensures Order(m.calls, start) == Logged(Order(old(m.calls), start), "Terrain-Correction")
    ensures var input, dest := Product(PathJoin(temp, prefix + "_coherence")), Product(PathJoin(outDir, prefix + "_coh"));
      var marker, tmp := PathJoin(outDir, COH_MARKER), Product(PathJoin(temp, prefix + "_coh"));
      if r.Success? then
        m.paths == old(m.paths) - input + dest + {marker} && m.markers == old(m.markers)[marker := MARKER_TEXT]
      else
        old(m.paths) - input - dest <= m.paths <= old(m.paths) + dest + tmp && m.markers == old(m.markers)
    ensures r.Failure? ==> r.error.GptRuntimeError? || r.error == FileNotFoundError
  {
    var input := PathJoin(temp, prefix + "_coherence");
    var outTc := PathJoin(temp, prefix + "_coh");
    var s := Geocode(m, Dim(input), outTc, config, start);
    if s.Failure? {
      return Failure(s.error);
    }
    m.DeleteProduct(input);
    SameNameApart(temp, outDir, prefix + "_coh");
    r := ReplaceProduct(m, outTc, PathJoin(outDir, prefix + "_coh"));
    if r.Failure? {
      return;
    }
    MarkerPathNotProduct(outDir, COH_MARKER);
    m.WriteMarker(PathJoin(outDir, COH_MARKER), MARKER_TEXT);
  }

  /** The coherence family's steps inside the scratch directory `temp`. */
  method CohSteps(m: Machine, masterImport: string, slaveImport: string, outDir: string, prefix: string,
    config: ConfigDict, temp: string, ghost start: nat) returns (r: Result<()>, ghost ran: seq<string>)
    requires m.Valid() && start <= |m.calls| && FreshScratch(m.paths, temp, outDir)
    modifies m
    ensures m.Valid() && |m.calls| >= |old(m.calls)|
    ensures Order(m.calls, start) == LoggedAll(Order(old(m.calls), start), ran)
    ensures IsPrefix(ran, COH_OPS) && (r.Success? ==> ran == COH_OPS)
    ensures var dest, marker := Product(PathJoin(outDir, prefix + "_coh")), PathJoin(outDir, COH_MARKER);
      var scratch := CohScratch(temp, prefix);
      if r.Success? then
        m.paths == old(m.paths) - Product(masterImport) + (dest + {marker})
        && m.markers == old(m.markers)[marker := MARKER_TEXT]
      else
        old(m.paths) - Product(masterImport) - dest <= m.paths <= old(m.paths) + dest + scratch
        && m.markers == old(m.markers)
    ensures r.Failure? ==> r.error.GptRuntimeError? || r.error == FileNotFoundError
  {
    ghost var d0 := Order(m.calls, start);
    var stack;
    stack, ran := CohStack(m, masterImport, slaveImport, prefix, config, temp, start);
    if stack.Failure? {
      return Failure(stack.error), ran;
    }
    ghost var mid := m.paths;
    FreshApart(temp, old(m.paths), prefix + "_coh");
    FreshApart(temp, old(m.paths), prefix + "_coherence");
    NamesApart(temp, prefix, "_coherence", "_coh");
    r := CohGeocode(m, outDir, prefix, config, temp, start);
    LoggedAllSnoc(d0, ran, "Terrain-Correction");
    ran := ran + ["Terrain-Correction"];
    ghost var coh, dest := Product(PathJoin(temp, prefix + "_coherence")), Product(PathJoin(outDir, prefix + "_coh"));
    if r.Success? {
      GeocodedBounds(old(m.paths), Product(masterImport), coh, dest + {PathJoin(outDir, COH_MARKER)}, mid, m.paths);
    } else {
      FailedBounds(old(m.paths), Product(masterImport), coh, dest, Product(PathJoin(temp, prefix + "_coh")),
        CohScratch(temp, prefix), mid, m.paths);
    }
  }

  /** The paths after the coherence product (made fresh, after the master
    * import was deleted) gave way to the family's outputs. */
  lemma GeocodedBounds(before: set<string>, imported: set<string>, coh: set<string>, added: set<string>,
    mid: set<string>, after: set<string>)
    requires before !! coh && before - imported <= mid <= before - imported + coh
    requires after == mid - coh + added
    ensures after == before - imported + added
  {
  }

  /** The bounds on the paths left by a failed geocoding step. */
  lemma FailedBounds(before: set<string>, imported: set<string>, coh: set<string>, dest: set<string>,
    tmp: set<string>, scratch: set<string>, mid: set<string>, after: set<string>)
    requires before !! coh && coh <= scratch && tmp <= scratch
    requires before - imported <= mid <= before + scratch
    requires mid - coh - dest <= after <= mid + dest + tmp
    ensures before - imported - dest <= after <= before + dest + scratch
  {
  }

  /** The coherence family's scratch products lie below the scratch
    * directory, apart from the paths that were there and from the family's
    * output and marker. */
  lemma CohFrame(before: set<string>, mid: set<string>, temp: string, outDir: string, prefix: string)
    requires Outside(temp, before) && Separate(temp, outDir)
    requires mid <= before + Product(PathJoin(outDir, prefix + "_coh")) + {PathJoin(outDir, COH_MARKER)} + CohScratch(temp, prefix)
    ensures var scratch := CohScratch(temp, prefix);
      Below(temp, scratch) && (forall p :: p in scratch ==> IsProductPath(p))
      && Outside(temp, mid - scratch)
      && (before + Product(PathJoin(outDir, prefix + "_coh")) + {PathJoin(outDir, COH_MARKER)}) !! scratch
  {
    ScratchProducts(temp, prefix + "_coreg", prefix + "_coherence");
    ScratchProducts(temp, prefix + "_coh", prefix + "_coh");
    OutputsOutside(outDir, prefix + "_coh", COH_MARKER, temp);
    ScratchApart(before, Product(PathJoin(outDir, prefix + "_coh")) + {PathJoin(outDir, COH_MARKER)}, mid,
      CohScratch(temp, prefix), temp);
  }

  /** `create_coherence_layers`: the slave import is co-registered onto the
    * master import (whose product is deleted), the coherence of the stack
    * is estimated and geocoded, the result replaces `<outDir>/<prefix>_coh`
    * and the `.coh.processed` marker is written; the scratch directory is
    * gone afterwards, and nothing else changes. */
  method CoherenceLayers(m: Machine, masterImport: string, slaveImport: string, outDir: string, prefix: string,
    config: ConfigDict, temp: string, ghost start: nat) returns (r: Result<()>)
    requires m.Valid() && start <= |m.calls| && FreshScratch(m.paths, temp, outDir)
    modifies m
    ensures m.Valid() && |m.calls| >= |old(m.calls)|
    ensures var d0, done := Order(old(m.calls), start), Order(m.calls, start);
      var plan := LoggedAll(d0, COH_OPS);
      IsPrefix(d0, done) && IsPrefix(done, plan) && (r.Success? ==> done == plan)
    ensures var dest, marker := Product(PathJoin(outDir, prefix + "_coh")), PathJoin(outDir, COH_MARKER);
      if r.Success? then
        m.paths == old(m.paths) - Product(masterImport) + dest + {marker}
        && m.markers == old(m.markers)[marker := MARKER_TEXT]
      else
        old(m.paths) - Product(masterImport) - dest <= m.paths <= old(m.paths) + dest
        && m.markers == old(m.markers)
    ensures r.Failure? ==> r.error.GptRuntimeError? || r.error == FileNotFoundError
  {
    ghost var d0 := Order(m.calls, start);
    ghost var scratch := CohScratch(temp, prefix);
    ghost var ran;
    r, ran := CohSteps(m, masterImport, slaveImport, outDir, prefix, config, temp, start);
    PlanUnderway(d0, ran, COH_OPS);
    CohFrame(old(m.paths), m.paths, temp, outDir, prefix);
    DropScratch(m, temp, scratch);
  }

  // ------------------------------------------------------------ one burst

  /** The master import of a burst, in the temporary directory. */
  function MasterImport(config: ConfigDict, b: Burst): string
  {
    PathJoin(config.tempDir, b.masterPrefix + "_import")
  }

  /** The slave import of a burst, in the temporary directory. */
  function SlaveImport(config: ConfigDict, b: Burst): string
  {
    PathJoin(config.tempDir, b.slavePrefix + "_import")
  }

  function PolOutputs(outDir: string, prefix: string): set<string>
  {
    Product(PathJoin(outDir, prefix + "_pol"))
  }

  function CohOutputs(outDir: string, prefix: string): set<string>
  {
    Product(PathJoin(outDir, prefix + "_coh"))
  }

  /** Every output product and marker a burst may leave in its output
    * directory. */
  function Results(config: ConfigDict, b: Burst): set<string>
  {
    var o, mp := b.outDirectory, b.masterPrefix;
    PolOutputs(o, mp) + BsOutputs(config.processing.single, o, mp) + CohOutputs(o, mp)
      + {PathJoin(o, POL_MARKER), PathJoin(o, BS_MARKER), PathJoin(o, COH_MARKER)}
  }

  /** Every path processing a burst may create or remove outside its
    * scratch directories: its results and its two imports. */
  function Touched(config: ConfigDict, b: Burst): set<string>
  {
    Results(config, b) + Product(MasterImport(config, b)) + Product(SlaveImport(config, b))
  }

  /** From `before` to `after` paths appeared or disappeared only among
    * `touched`, except that paths below `tmp` may have been removed. */
  predicate Within(before: set<string>, after: set<string>, touched: set<string>, tmp: string)
  {
    after <= before + touched
    && forall p :: p in before && p !in touched && !StartsWith(p, tmp + "/") ==> p in after
  }

  /** Every marker of `before` not below `tmp` is still there, with its text. */
  predicate MarkersKept(before: map<string, string>, after: map<string, string>, tmp: string)
  {
    forall k :: k in before && !StartsWith(k, tmp + "/") ==> k in after && after[k] == before[k]
  }

  /** The markers of `after` are those of `before` and some of `own`. */
  predicate MarkersAdded(before: map<string, string>, after: map<string, string>, own: set<string>)
  {
    forall k :: k in after ==> k in before || k in own
  }

  lemma KeptTrans(a: map<string, string>, b: map<string, string>, c: map<string, string>, tmp: string)
    requires MarkersKept(a, b, tmp) && MarkersKept(b, c, tmp)
    ensures MarkersKept(a, c, tmp)
  {
  }

  lemma AddedTrans(a: map<string, string>, b: map<string, string>, c: map<string, string>, x: set<string>, y: set<string>)
    requires MarkersAdded(a, b, x) && MarkersAdded(b, c, y)
    ensures MarkersAdded(a, c, x + y)
  {
  }

  /** A marker written since `before` says that its family passed, and its
    * family's outputs `outs` are on disk. */
  predicate NewMarkerBacked(before: map<string, string>, after: map<string, string>, paths: set<string>,
    marker: string, outs: set<string>)
  {
    marker in after && marker !in before ==> after[marker] == MARKER_TEXT && outs <= paths
  }

  predicate Backed(before: map<string, string>, after: map<string, string>, paths: set<string>,
    config: ConfigDict, b: Burst)
  {
    var o, mp := b.outDirectory, b.masterPrefix;
    NewMarkerBacked(before, after, paths, PathJoin(o, POL_MARKER), PolOutputs(o, mp))
    && NewMarkerBacked(before, after, paths, PathJoin(o, BS_MARKER), BsOutputs(config.processing.single, o, mp))
    && NewMarkerBacked(before, after, paths, PathJoin(o, COH_MARKER), CohOutputs(o, mp))
  }

  /** What processing a burst keeps true from the state `paths0`,
    * `markers0` it started in: only the burst's results and imports change
    * (and the temporary directory, which may be emptied), no marker there
    * before is lost or rewritten, and every marker written stands next to
    * its family's outputs. */
  predicate Progress(paths0: set<string>, markers0: map<string, string>, paths: set<string>,
    markers: map<string, string>, config: ConfigDict, b: Burst)
  {
    Within(paths0, paths, Touched(config, b), config.tempDir)
    && MarkersKept(markers0, markers, config.tempDir)
    && Backed(markers0, markers, paths, config, b)
  }

  /** The scratch directories (`TemporaryDirectory`) the three families
    * work in. */
  datatype Scratch = Scratch(pol: string, bs: string, coh: string)

  /** The scratch directories are fresh: apart from the output directory,
    * with nothing on disk, and nothing the burst may make outside them, at
    * or below them. */
  predicate ScratchReady(paths: set<string>, s: Scratch, config: ConfigDict, b: Burst)
  {
    var all, o := paths + Touched(config, b), b.outDirectory;
    FreshScratch(all, s.pol, o) && FreshScratch(all, s.bs, o) && FreshScratch(all, s.coh, o)
  }

  /** Scratch directories fresh at the start stay fresh while only the
    * burst's own paths are made. */
  lemma ScratchStaysReady(paths0: set<string>, paths: set<string>, s: Scratch, config: ConfigDict, b: Burst)
    requires ScratchReady(paths0, s, config, b) && paths <= paths0 + Touched(config, b)
    ensures var o := b.outDirectory;
      FreshScratch(paths, s.pol, o) && FreshScratch(paths, s.bs, o) && FreshScratch(paths, s.coh, o)
  {
  }

  /** The results lie outside the temporary directory (which the output
    * directory is apart from), the imports below it. */
  lemma ResultsOutsideTemp(config: ConfigDict, b: Burst)
    requires Separate(config.tempDir, b.outDirectory)
    ensures Outside(config.tempDir, Results(config, b))
    ensures Below(config.tempDir, Product(MasterImport(config, b)) + Product(SlaveImport(config, b)))
  {
    var o, mp, t := b.outDirectory, b.masterPrefix, config.tempDir;
    var outs := Product(PathJoin(o, mp + "_pol")) + Product(PathJoin(o, mp + "_bs"))
      + Product(PathJoin(o, mp + "_LS")) + Product(PathJoin(o, mp + "_coh"));
    var markers := {PathJoin(o, POL_MARKER), PathJoin(o, BS_MARKER), PathJoin(o, COH_MARKER)};
    assert Results(config, b) <= outs + markers;
    forall p | p in outs + markers
      ensures p != t && !StartsWith(p, t + "/")
    {
      if p in markers {
        var name :| name in [POL_MARKER, BS_MARKER, COH_MARKER] && p == PathJoin(o, name);
        ProductOutside(o, name, t);
      } else {
        var name :| name in [mp + "_pol", mp + "_bs", mp + "_LS", mp + "_coh"] && p in Product(PathJoin(o, name));
        ProductOutside(o, name, t);
      }
    }
    ProductBelow(t, b.masterPrefix + "_import");
    ProductBelow(t, b.slavePrefix + "_import");
  }

  /** Making or removing an import product keeps the burst's progress. */
  lemma ImportFrame(paths0: set<string>, markers0: map<string, string>, before: set<string>, after: set<string>,
    markers: map<string, string>, config: ConfigDict, b: Burst, imported: set<string>)
    requires Separate(config.tempDir, b.outDirectory)
    requires Progress(paths0, markers0, before, markers, config, b)
    requires imported == Product(MasterImport(config, b)) || imported == Product(SlaveImport(config, b))
    requires before - imported <= after <= before + imported
    ensures Progress(paths0, markers0, after, markers, config, b)
  {
    ResultsOutsideTemp(config, b);
    assert Results(config, b) !! imported;
  }

  /** `burst_import` of the master burst into `<temp_dir>/<prefix>_import`,
    * unless its header is on disk already; a failed import is deleted. */
  method ImportMaster(m: Machine, b: Burst, config: ConfigDict, ghost paths0: set<string>,
    ghost markers0: map<string, string>, ghost start: nat) returns (r: Result<()>, ghost ran: seq<string>)
    requires m.Valid() && start <= |m.calls| && Separate(config.tempDir, b.outDirectory)
    requires Progress(paths0, markers0, m.paths, m.markers, config, b)
    modifies m
    ensures m.Valid() && m.markers == old(m.markers) && |m.calls| >= |old(m.calls)|
    ensures Progress(paths0, markers0, m.paths, m.markers, config, b)
    ensures ran == (if Dim(MasterImport(config, b)) in old(m.paths) then [] else [IMPORT_GRAPH])
    ensures Order(m.calls, start) == LoggedAll(Order(old(m.calls), start), ran)
    ensures Dim(MasterImport(config, b)) in old(m.paths) ==>
      r.Success? && m.paths == old(m.paths) && m.calls == old(m.calls)
    ensures r.Failure? ==> r.error.GptRuntimeError? && Product(MasterImport(config, b)) !! m.paths
  {
    var mi := MasterImport(config, b);
    ghost var d0 := Order(m.calls, start);
    if m.Exists(Dim(mi)) {
      return Success(()), [];
    }
    var s := StageInOrder(m, BurstImport(b.fileLocation, mi, b.swathId, b.burstNr, config), start);
    ran := [IMPORT_GRAPH];
    assert LoggedAll(d0, ran) == Logged(d0, IMPORT_GRAPH) by {
      assert |ran[..0]| == 0;
    }
    if s.Failure? {
      m.DeleteProduct(mi);
      r := Failure(s.error);
    } else {
      r := Success(());
    }
    ImportFrame(paths0, markers0, old(m.paths), m.paths, m.markers, config, b, Product(mi));
  }

  /** The three families' outputs share no path with each other, nor with
    * the markers. */
  lemma FamilyOutputsApart(config: ConfigDict, b: Burst)
    ensures var ard, o, mp := config.processing.single, b.outDirectory, b.masterPrefix;
      PolOutputs(o, mp) !! BsOutputs(ard, o, mp) && PolOutputs(o, mp) !! CohOutputs(o, mp)
      && BsOutputs(ard, o, mp) !! CohOutputs(o, mp)
    ensures var o := b.outDirectory;
      PathJoin(o, POL_MARKER) != PathJoin(o, BS_MARKER) && PathJoin(o, POL_MARKER) != PathJoin(o, COH_MARKER)
      && PathJoin(o, BS_MARKER) != PathJoin(o, COH_MARKER)
    ensures var o := b.outDirectory;
      {PathJoin(o, POL_MARKER), PathJoin(o, BS_MARKER), PathJoin(o, COH_MARKER)}
      !! Results(config, b) - {PathJoin(o, POL_MARKER), PathJoin(o, BS_MARKER), PathJoin(o, COH_MARKER)}
  {
    var o, mp := b.outDirectory, b.masterPrefix;
    NamesApart(o, mp, "_pol", "_bs");
    NamesApart(o, mp, "_pol", "_LS");
    NamesApart(o, mp, "_pol", "_coh");
    NamesApart(o, mp, "_bs", "_coh");
    NamesApart(o, mp, "_LS", "_coh");
    assert PathJoin(o, POL_MARKER)[|o| + 2] == 'p' && PathJoin(o, COH_MARKER)[|o| + 2] == 'c';
  }

  /** One family's marker and outputs. */
  predicate IsFamily(config: ConfigDict, b: Burst, marker: string, outs: set<string>)
  {
    var o, mp := b.outDirectory, b.masterPrefix;
    (marker == PathJoin(o, POL_MARKER) && outs == PolOutputs(o, mp))
    || (marker == PathJoin(o, BS_MARKER) && outs == BsOutputs(config.processing.single, o, mp))
    || (marker == PathJoin(o, COH_MARKER) && outs == CohOutputs(o, mp))
  }

  /** A family that passed, having removed `removed` (the master import, or
    * nothing) and written its outputs and its new marker, keeps the
    * burst's progress. */
  lemma FamilyPassed(paths0: set<string>, markers0: map<string, string>, before: set<string>, after: set<string>,
    markers: map<string, string>, config: ConfigDict, b: Burst, marker: string, outs: set<string>, removed: set<string>)
    requires Separate(config.tempDir, b.outDirectory) && IsFamily(config, b, marker, outs)
    requires removed == {} || removed == Product(MasterImport(config, b))
    requires Progress(paths0, markers0, before, markers, config, b) && marker !in markers && marker !in markers0
    requires after == before - removed + outs + {marker}
    ensures Progress(paths0, markers0, after, markers[marker := MARKER_TEXT], config, b)
    ensures MarkersKept(markers, markers[marker := MARKER_TEXT], config.tempDir)
    ensures MarkersAdded(markers, markers[marker := MARKER_TEXT], {marker})
  {
    ResultsOutsideTemp(config, b);
    FamilyOutputsApart(config, b);
    assert Results(config, b) !! removed;
  }

  /** A family that failed, having removed at most `removed` and its own
    * outputs and made at most its outputs, keeps the burst's progress. */
  lemma FamilyFailed(paths0: set<string>, markers0: map<string, string>, before: set<string>, after: set<string>,
    markers: map<string, string>, config: ConfigDict, b: Burst, marker: string, outs: set<string>, removed: set<string>)
    requires Separate(config.tempDir, b.outDirectory) && IsFamily(config, b, marker, outs)
    requires removed == {} || removed == Product(MasterImport(config, b))
    requires Progress(paths0, markers0, before, markers, config, b) && marker !in markers
    requires before - removed - outs <= after <= before + outs
    ensures Progress(paths0, markers0, after, markers, config, b)
  {
    ResultsOutsideTemp(config, b);
    FamilyOutputsApart(config, b);
    assert Results(config, b) !! removed;
  }

  /** A family's outcome, passed or failed, keeps the burst's progress. */
  lemma FamilyDone(paths0: set<string>, markers0: map<string, string>, before: set<string>, after: set<string>,
    markers: map<string, string>, markers': map<string, string>, config: ConfigDict, b: Burst, marker: string,
    outs: set<string>, removed: set<string>, ok: bool)
    requires Separate(config.tempDir, b.outDirectory) && IsFamily(config, b, marker, outs)
    requires removed == {} || removed == Product(MasterImport(config, b))
    requires Progress(paths0, markers0, before, markers, config, b) && marker !in markers && marker !in markers0
    requires ok ==> after == before - removed + outs + {marker} && markers' == markers[marker := MARKER_TEXT]
    requires !ok ==> before - removed - outs <= after <= before + outs && markers' == markers
    ensures Progress(paths0, markers0, after, markers', config, b)
    ensures MarkersKept(markers, markers', config.tempDir) && MarkersAdded(markers, markers', {marker})
    ensures ok ==> marker in markers'
  {
    if ok {
      FamilyPassed(paths0, markers0, before, after, markers, config, b, marker, outs, removed);
    } else {
      FamilyFailed(paths0, markers0, before, after, markers, config, b, marker, outs, removed);
    }
  }

  /** The polarimetric family of a burst, from its master import. */
  method PolStep(m: Machine, b: Burst, config: ConfigDict, s: Scratch, ghost paths0: set<string>,
    ghost markers0: map<string, string>, ghost start: nat) returns (r: Result<()>)
    requires m.Valid() && start <= |m.calls| && Separate(config.tempDir, b.outDirectory)
    requires ScratchReady(paths0, s, config, b) && Progress(paths0, markers0, m.paths, m.markers, config, b)
    requires PathJoin(b.outDirectory, POL_MARKER) !in m.markers && PathJoin(b.outDirectory, POL_MARKER) !in markers0
    modifies m
    ensures m.Valid() && Progress(paths0, markers0, m.paths, m.markers, config, b) && |m.calls| >= |old(m.calls)|
    ensures MarkersKept(old(m.markers), m.markers, config.tempDir)
    ensures MarkersAdded(old(m.markers), m.markers, {PathJoin(b.outDirectory, POL_MARKER)})
    ensures var d0, done := Order(old(m.calls), start), Order(m.calls, start);
      var plan := LoggedAll(d0, PolOps(config.processing.single));
      IsPrefix(d0, done) && IsPrefix(done, plan) && (r.Success? ==> done == plan)
    ensures r.Success? ==> PathJoin(b.outDirectory, POL_MARKER) in m.markers
    ensures r.Failure? ==> r.error.GptRuntimeError? || r.error == FileNotFoundError
  {
    var o, mp := b.outDirectory, b.masterPrefix;
    ScratchStaysReady(paths0, m.paths, s, config, b);
    r := PolarimetricLayers(m, Dim(MasterImport(config, b)), o, mp, config, s.pol, start);
    assert old(m.paths) - {} == old(m.paths);
    FamilyDone(paths0, markers0, old(m.paths), m.paths, old(m.markers), m.markers, config, b,
      PathJoin(o, POL_MARKER), PolOutputs(o, mp), {}, r.Success?);
  }

  /** The backscatter family of a burst, from its master import. */
  method BsStep(m: Machine, b: Burst, config: ConfigDict, s: Scratch, ghost paths0: set<string>,
    ghost markers0: map<string, string>, ghost start: nat) returns (r: Result<()>)
    requires m.Valid() && start <= |m.calls| && Separate(config.tempDir, b.outDirectory)
    requires ScratchReady(paths0, s, config, b) && Progress(paths0, markers0, m.paths, m.markers, config, b)
    requires PathJoin(b.outDirectory, BS_MARKER) !in m.markers && PathJoin(b.outDirectory, BS_MARKER) !in markers0
    modifies m
    ensures m.Valid() && Progress(paths0, markers0, m.paths, m.markers, config, b) && |m.calls| >= |old(m.calls)|
    ensures MarkersKept(old(m.markers), m.markers, config.tempDir)
    ensures MarkersAdded(old(m.markers), m.markers, {PathJoin(b.outDirectory, BS_MARKER)})
    ensures var d0, done := Order(old(m.calls), start), Order(m.calls, start);
      var plan := LoggedAll(d0, BsOps(config.processing.single));
      IsPrefix(d0, done) && IsPrefix(done, plan) && (r.Success? ==> done == plan)
    ensures r.Success? ==> PathJoin(b.outDirectory, BS_MARKER) in m.markers
    ensures r.Failure? ==>
      r.error.GptRuntimeError? || r.error == TypeError || r.error == FileNotFoundError
      || (r.error == RuntimeError && config.processing.single.createLsMask)
  {
    var o, mp := b.outDirectory, b.masterPrefix;
    ScratchStaysReady(paths0, m.paths, s, config, b);
    var bs := BackscatterLayers(m, Dim(MasterImport(config, b)), o, mp, config, s.bs, start);
    ghost var outs := BsOutputs(config.processing.single, o, mp);
    assert old(m.paths) - {} == old(m.paths);
    FamilyDone(paths0, markers0, old(m.paths), m.paths, old(m.markers), m.markers, config, b,
      PathJoin(o, BS_MARKER), outs, {}, bs.Success?);
    r := if bs.Success? then Success(()) else Failure(bs.error);
  }

  /** Emptying the temporary directory keeps the burst's progress: its
    * results lie outside it. */
  lemma ClearedFrame(paths0: set<string>, markers0: map<string, string>, before: set<string>, after: set<string>,
    markers: map<string, string>, cleared: map<string, string>, config: ConfigDict, b: Burst)
    requires Separate(config.tempDir, b.outDirectory)
    requires Progress(paths0, markers0, before, markers, config, b)
    requires after == set p | p in before && !StartsWith(p, config.tempDir + "/")
    requires forall p :: p in cleared <==> p in markers && !StartsWith(p, config.tempDir + "/")
    requires forall p :: p in cleared ==> cleared[p] == markers[p]
    ensures Progress(paths0, markers0, after, cleared, config, b)
    ensures MarkersKept(markers, cleared, config.tempDir) && MarkersAdded(markers, cleared, {})
  {
    ResultsOutsideTemp(config, b);
  }

  /** `burst_import` of the slave burst into `<temp_dir>/<prefix>_import`;
    * a failed import empties the temporary directory. */
  method ImportSlave(m: Machine, b: Burst, config: ConfigDict, ghost paths0: set<string>,
    ghost markers0: map<string, string>, ghost start: nat) returns (r: Result<()>)
    requires m.Valid() && start <= |m.calls| && Separate(config.tempDir, b.outDirectory)
    requires Progress(paths0, markers0, m.paths, m.markers, config, b)
    modifies m
    ensures m.Valid() && Progress(paths0, markers0, m.paths, m.markers, config, b) && |m.calls| >= |old(m.calls)|
    ensures MarkersKept(old(m.markers), m.markers, config.tempDir) && MarkersAdded(old(m.markers), m.markers, {})
    ensures Order(m.calls, start) == Logged(Order(old(m.calls), start), IMPORT_GRAPH)
    ensures r.Success? ==> m.markers == old(m.markers) && m.paths <= old(m.paths) + Product(SlaveImport(config, b))
    ensures r.Failure? ==> r.error.GptRuntimeError?
    ensures r.Failure? ==>
      m.paths == set p | p in old(m.paths) + Product(SlaveImport(config, b)) && !StartsWith(p, config.tempDir + "/")
  {
    var si := SlaveImport(config, b);
    var imp := StageInOrder(m, BurstImport(b.slaveFile, si, b.swathId, b.slaveBurstNr, config), start);
    ImportFrame(paths0, markers0, old(m.paths), m.paths, m.markers, config, b, Product(si));
    if imp.Failure? {
      ghost var before, marks := m.paths, m.markers;
      m.ClearFolder(config.tempDir);
      ClearedFrame(paths0, markers0, before, m.paths, marks, m.markers, config, b);
      return Failure(imp.error);
    }
    r := Success(());
  }

  /** The coherence layers of a burst, from its master and slave imports. */
  method CohLayersStep(m: Machine, b: Burst, config: ConfigDict, s: Scratch, ghost paths0: set<string>,
    ghost markers0: map<string, string>, ghost start: nat) returns (r: Result<()>)
    requires m.Valid() && start <= |m.calls| && Separate(config.tempDir, b.outDirectory)
    requires ScratchReady(paths0, s, config, b) && Progress(paths0, markers0, m.paths, m.markers, config, b)
    requires PathJoin(b.outDirectory, COH_MARKER) !in m.markers && PathJoin(b.outDirectory, COH_MARKER) !in markers0
    modifies m
    ensures m.Valid() && Progress(paths0, markers0, m.paths, m.markers, config, b) && |m.calls| >= |old(m.calls)|
    ensures MarkersKept(old(m.markers), m.markers, config.tempDir)
    ensures MarkersAdded(old(m.markers), m.markers, {PathJoin(b.outDirectory, COH_MARKER)})
    ensures var d0, done := Order(old(m.calls), start), Order(m.calls, start);
      var plan := LoggedAll(d0, COH_OPS);
      IsPrefix(d0, done) && IsPrefix(done, plan) && (r.Success? ==> done == plan)
    ensures r.Success? ==>
      PathJoin(b.outDirectory, COH_MARKER) in m.markers && Product(MasterImport(config, b)) !! m.paths
    ensures r.Failure? ==> r.error.GptRuntimeError? || r.error == FileNotFoundError
  {
    var o, mp := b.outDirectory, b.masterPrefix;
    ScratchStaysReady(paths0, m.paths, s, config, b);
    r := CoherenceLayers(m, MasterImport(config, b), SlaveImport(config, b), o, mp, config, s.coh, start);
    ghost var mi := Product(MasterImport(config, b));
    FamilyDone(paths0, markers0, old(m.paths), m.paths, old(m.markers), m.markers, config, b,
      PathJoin(o, COH_MARKER), CohOutputs(o, mp), mi, r.Success?);
    if r.Success? {
      ResultsOutsideTemp(config, b);
    }
  }

  /** The coherence family of a burst: the slave burst is imported, then
    * the coherence layers are made from the master and slave imports. */
  method CohStep(m: Machine, b: Burst, config: ConfigDict, s: Scratch, ghost paths0: set<string>,
    ghost markers0: map<string, string>, ghost start: nat) returns (r: Result<()>)
    requires m.Valid() && start <= |m.calls| && Separate(config.tempDir, b.outDirectory)
    requires ScratchReady(paths0, s, config, b) && Progress(paths0, markers0, m.paths, m.markers, config, b)
    requires PathJoin(b.outDirectory, COH_MARKER) !in m.markers && PathJoin(b.outDirectory, COH_MARKER) !in markers0
    modifies m
    ensures m.Valid() && Progress(paths0, markers0, m.paths, m.markers, config, b) && |m.calls| >= |old(m.calls)|
    ensures MarkersKept(old(m.markers), m.markers, config.tempDir)
    ensures MarkersAdded(old(m.markers), m.markers, {PathJoin(b.outDirectory, COH_MARKER)})
    ensures var d0, done := Order(old(m.calls), start), Order(m.calls, start);
      var plan := LoggedAll(d0, [IMPORT_GRAPH] + COH_OPS);
      IsPrefix(d0, done) && IsPrefix(done, plan) && (r.Success? ==> done == plan)
    ensures r.Success? ==>
      PathJoin(b.outDirectory, COH_MARKER) in m.markers && Product(MasterImport(config, b)) !! m.paths
    ensures r.Failure? ==> r.error.GptRuntimeError? || r.error == FileNotFoundError
  {
    ghost var d0 := Order(m.calls, start);
    r := ImportSlave(m, b, config, paths0, markers0, start);
    assert Order(m.calls, start) == LoggedAll(d0, [IMPORT_GRAPH]) by {
      assert |[IMPORT_GRAPH][..0]| == 0;
    }
    PlanPrefix(d0, [IMPORT_GRAPH], COH_OPS);
    if r.Failure? {
      return;
    }
    ghost var d1 := Order(m.calls, start);
    r := CohLayersStep(m, b, config, s, paths0, markers0, start);
    LoggedAllConcat(d0, [IMPORT_GRAPH], COH_OPS);
    PrefixTrans(d0, d1, Order(m.calls, start));
  }

  /** The parts of a burst's plan: the master import, the polarimetric and
    * backscatter families, and the coherence family. */
  function ImportOps(imported: bool): seq<string>
  {
    if imported then [] else [IMPORT_GRAPH]
  }

  function FirstOps(ard: SingleArd, f: Families): seq<string>
  {
    (if f.pol then PolOps(ard) else []) + (if f.bs then BsOps(ard) else [])
  }

  function LastOps(f: Families): seq<string>
  {
    if f.coh then [IMPORT_GRAPH] + COH_OPS else []
  }

  lemma PlanSplit(ard: SingleArd, f: Families, imported: bool)
    requires AnyFamily(f)
    ensures BurstPlan(ard, f, imported) == ImportOps(imported) + FirstOps(ard, f) + LastOps(f)
  {
    var pol, bs := (if f.pol then PolOps(ard) else []), (if f.bs then BsOps(ard) else []);
    assert ImportOps(imported) + pol + bs == ImportOps(imported) + (pol + bs);
  }

  /** The plan so far after each of its three parts. */
  lemma ThreeParts(a: seq<string>, two: seq<string>, last: seq<string>, whole: seq<string>)
    requires whole == a + two + last
    ensures a == [] + a && whole == a + (two + last)
    ensures IsPrefix(a, whole) && IsPrefix(a + two, whole) && IsPrefix(whole, whole)
  {
    assert whole[..|a|] == a;
    assert whole[..|a + two|] == a + two;
  }

  /** The order after the master import `a` and the families `two`, `last`
    * of a plan. */
  lemma ImportThenFamilies(d1: seq<string>, done: seq<string>, a: seq<string>, two: seq<string>,
    last: seq<string>, plan: seq<string>, ok: bool)
    requires d1 == LoggedAll([], a) && plan == a + two + last
    requires IsPrefix(done, LoggedAll(LoggedAll(d1, two), last))
    requires ok ==> done == LoggedAll(LoggedAll(d1, two), last)
    ensures IsPrefix(done, LoggedAll([], plan)) && (ok ==> done == LoggedAll([], plan))
  {
    ThreeParts(a, two, last, plan);
    LoggedAllConcat(d1, two, last);
    LoggedAllConcat([], a, two + last);
  }

  /** The polarimetric family when `due`. */
  method PolIfDue(m: Machine, b: Burst, config: ConfigDict, s: Scratch, due: bool,
    ghost paths0: set<string>, ghost markers0: map<string, string>, ghost start: nat) returns (r: Result<()>)
    requires m.Valid() && start <= |m.calls| && Separate(config.tempDir, b.outDirectory)
    requires ScratchReady(paths0, s, config, b) && Progress(paths0, markers0, m.paths, m.markers, config, b)
    requires due ==> PathJoin(b.outDirectory, POL_MARKER) !in m.markers && PathJoin(b.outDirectory, POL_MARKER) !in markers0
    modifies m
    ensures m.Valid() && Progress(paths0, markers0, m.paths, m.markers, config, b) && |m.calls| >= |old(m.calls)|
    ensures MarkersKept(old(m.markers), m.markers, config.tempDir)
    ensures MarkersAdded(old(m.markers), m.markers, {PathJoin(b.outDirectory, POL_MARKER)})
    ensures var d0, done := Order(old(m.calls), start), Order(m.calls, start);
      var plan := LoggedAll(d0, if due then PolOps(config.processing.single) else []);
      IsPrefix(done, plan) && (r.Success? ==> done == plan)
    ensures r.Success? && due ==> PathJoin(b.outDirectory, POL_MARKER) in m.markers
    ensures r.Failure? ==> r.error.GptRuntimeError? || r.error == FileNotFoundError
  {
    if due {
      r := PolStep(m, b, config, s, paths0, markers0, start);
    } else {
      r := Success(());
    }
  }

  /** The backscatter family when `due`. */
  method BsIfDue(m: Machine, b: Burst, config: ConfigDict, s: Scratch, due: bool,
    ghost paths0: set<string>, ghost markers0: map<string, string>, ghost start: nat) returns (r: Result<()>)
    requires m.Valid() && start <= |m.calls| && Separate(config.tempDir, b.outDirectory)
    requires ScratchReady(paths0, s, config, b) && Progress(paths0, markers0, m.paths, m.markers, config, b)
    requires due ==> PathJoin(b.outDirectory, BS_MARKER) !in m.markers && PathJoin(b.outDirectory, BS_MARKER) !in markers0
    modifies m
    ensures m.Valid() && Progress(paths0, markers0, m.paths, m.markers, config, b) && |m.calls| >= |old(m.calls)|
    ensures MarkersKept(old(m.markers), m.markers, config.tempDir)
    ensures MarkersAdded(old(m.markers), m.markers, {PathJoin(b.outDirectory, BS_MARKER)})
    ensures var d0, done := Order(old(m.calls), start), Order(m.calls, start);
      var plan := LoggedAll(d0, if due then BsOps(config.processing.single) else []);
      IsPrefix(done, plan) && (r.Success? ==> done == plan)
    ensures r.Success? && due ==> PathJoin(b.outDirectory, BS_MARKER) in m.markers
    ensures r.Failure? ==>
      r.error.GptRuntimeError? || r.error == TypeError || r.error == FileNotFoundError
      || (r.error == RuntimeError && config.processing.single.createLsMask)
  {
    if due {
      r := BsStep(m, b, config, s, paths0, markers0, start);
    } else {
      r := Success(());
    }
  }

  /** The polarimetric and backscatter families, each when due. */
  method FirstFamilies(m: Machine, b: Burst, config: ConfigDict, s: Scratch, f: Families,
    ghost paths0: set<string>, ghost markers0: map<string, string>, ghost start: nat) returns (r: Result<()>)
    requires m.Valid() && start <= |m.calls| && Separate(config.tempDir, b.outDirectory)
    requires ScratchReady(paths0, s, config, b) && Progress(paths0, markers0, m.paths, m.markers, config, b)
    requires var o := b.outDirectory;
      (f.pol ==> PathJoin(o, POL_MARKER) !in m.markers && PathJoin(o, POL_MARKER) !in markers0)
      && (f.bs ==> PathJoin(o, BS_MARKER) !in m.markers && PathJoin(o, BS_MARKER) !in markers0)
    modifies m
    ensures m.Valid() && Progress(paths0, markers0, m.paths, m.markers, config, b) && |m.calls| >= |old(m.calls)|
    ensures MarkersKept(old(m.markers), m.markers, config.tempDir)
    ensures PathJoin(b.outDirectory, COH_MARKER) in m.markers ==> PathJoin(b.outDirectory, COH_MARKER) in old(m.markers)
    ensures var d0, done := Order(old(m.calls), start), Order(m.calls, start);
      var plan := LoggedAll(d0, FirstOps(config.processing.single, f));
      IsPrefix(done, plan) && (r.Success? ==> done == plan)
    ensures var o := b.outDirectory;
      r.Success? ==> (f.pol ==> PathJoin(o, POL_MARKER) in m.markers) && (f.bs ==> PathJoin(o, BS_MARKER) in m.markers)
    ensures r.Failure? ==>
      r.error.GptRuntimeError? || r.error == TypeError || r.error == FileNotFoundError
      || (r.error == RuntimeError && config.processing.single.createLsMask)
  {
    var ard, o := config.processing.single, b.outDirectory;
    ghost var d0 := Order(m.calls, start);
    ghost var pol := if f.pol then PolOps(ard) else [];
    ghost var bs := if f.bs then BsOps(ard) else [];
    ghost var marks0 := m.markers;
    ResultsOutsideTemp(config, b);
    FamilyOutputsApart(config, b);
    r := PolIfDue(m, b, config, s, f.pol, paths0, markers0, start);
    PlanPrefix(d0, pol, bs);
    if r.Failure? {
      PrefixTrans(Order(m.calls, start), LoggedAll(d0, pol), LoggedAll(d0, pol + bs));
      return;
    }
    ghost var marks := m.markers;
    r := BsIfDue(m, b, config, s, f.bs, paths0, markers0, start);
    LoggedAllConcat(d0, pol, bs);
    KeptTrans(marks0, marks, m.markers, config.tempDir);
    AddedTrans(marks0, marks, m.markers, {PathJoin(o, POL_MARKER)}, {PathJoin(o, BS_MARKER)});
    assert PathJoin(o, POL_MARKER) in marks ==> PathJoin(o, POL_MARKER) in m.markers;
  }

  /** The coherence family when due, otherwise the deletion of the master
    * import. */
  method LastFamily(m: Machine, b: Burst, config: ConfigDict, s: Scratch, f: Families,
    ghost paths0: set<string>, ghost markers0: map<string, string>, ghost start: nat) returns (r: Result<()>)
    requires m.Valid() && start <= |m.calls| && Separate(config.tempDir, b.outDirectory)
    requires ScratchReady(paths0, s, config, b) && Progress(paths0, markers0, m.paths, m.markers, config, b)
    requires f.coh ==> PathJoin(b.outDirectory, COH_MARKER) !in m.markers && PathJoin(b.outDirectory, COH_MARKER) !in markers0
    modifies m
    ensures m.Valid() && Progress(paths0, markers0, m.paths, m.markers, config, b) && |m.calls| >= |old(m.calls)|
    ensures MarkersKept(old(m.markers), m.markers, config.tempDir)
    ensures var d0, done := Order(old(m.calls), start), Order(m.calls, start);
      var plan := LoggedAll(d0, LastOps(f));
      IsPrefix(done, plan) && (r.Success? ==> done == plan)
    ensures r.Success? ==>
      (f.coh ==> PathJoin(b.outDirectory, COH_MARKER) in m.markers) && Product(MasterImport(config, b)) !! m.paths
    ensures r.Failure? ==> r.error.GptRuntimeError? || r.error == FileNotFoundError
  {
    if f.coh {
      r := CohStep(m, b, config, s, paths0, markers0, start);
    } else {
      m.DeleteProduct(MasterImport(config, b));
      ImportFrame(paths0, markers0, old(m.paths), m.paths, m.markers, config, b, Product(MasterImport(config, b)));
      r := Success(());
    }
  }

  /** The product families of a burst after its master import. */
  method RunFamilies(m: Machine, b: Burst, config: ConfigDict, s: Scratch, f: Families,
    ghost paths0: set<string>, ghost markers0: map<string, string>, ghost start: nat) returns (r: Result<()>)
    requires m.Valid() && start <= |m.calls| && Separate(config.tempDir, b.outDirectory)
    requires ScratchReady(paths0, s, config, b) && Progress(paths0, markers0, m.paths, m.markers, config, b)
    requires var o := b.outDirectory;
      (f.pol ==> PathJoin(o, POL_MARKER) !in m.markers && PathJoin(o, POL_MARKER) !in markers0)
      && (f.bs ==> PathJoin(o, BS_MARKER) !in m.markers && PathJoin(o, BS_MARKER) !in markers0)
      && (f.coh ==> PathJoin(o, COH_MARKER) !in m.markers && PathJoin(o, COH_MARKER) !in markers0)
    modifies m
    ensures m.Valid() && |m.calls| >= |old(m.calls)|
    ensures Progress(paths0, markers0, m.paths, m.markers, config, b)
    ensures var d0, done := Order(old(m.calls), start), Order(m.calls, start);
      var two, last := FirstOps(config.processing.single, f), LastOps(f);
      IsPrefix(done, LoggedAll(LoggedAll(d0, two), last))
      && (r.Success? ==> done == LoggedAll(LoggedAll(d0, two), last))
    ensures var o := b.outDirectory;
      r.Success? ==>
        (f.pol ==> PathJoin(o, POL_MARKER) in m.markers) && (f.bs ==> PathJoin(o, BS_MARKER) in m.markers)
        && (f.coh ==> PathJoin(o, COH_MARKER) in m.markers) && Product(MasterImport(config, b)) !! m.paths
    ensures r.Failure? ==>
      r.error.GptRuntimeError? || r.error == TypeError || r.error == FileNotFoundError
      || (r.error == RuntimeError && config.processing.single.createLsMask)
  {
    var o := b.outDirectory;
    ghost var d0 := Order(m.calls, start);
    ghost var two, last := FirstOps(config.processing.single, f), LastOps(f);
    r := FirstFamilies(m, b, config, s, f, paths0, markers0, start);
    if r.Failure? {
      LoggedAllGrows(LoggedAll(d0, two), last);
      PrefixTrans(Order(m.calls, start), LoggedAll(d0, two), LoggedAll(LoggedAll(d0, two), last));
      return;
    }
    ghost var marks := m.markers;
    r := LastFamily(m, b, config, s, f, paths0, markers0, start);
    ResultsOutsideTemp(config, b);
    assert PathJoin(o, POL_MARKER) in marks ==> PathJoin(o, POL_MARKER) in m.markers;
    assert PathJoin(o, BS_MARKER) in marks ==> PathJoin(o, BS_MARKER) in m.markers;
  }

  /** The import and the product families of a burst that has some family
    * to produce (steps 1 and 2 of `burst_to_ard`), in the order
    * polarimetric, backscatter, coherence; without coherence the master
    * import is deleted at the end. */
  method ProduceFamilies(m: Machine, b: Burst, config: ConfigDict, s: Scratch, f: Families) returns (r: Result<()>)
    requires m.Valid() && Separate(config.tempDir, b.outDirectory) && ScratchReady(m.paths, s, config, b)
    requires var ard := config.processing.single;
      AnyFamily(f) && f == ToProduce(ard, WantsCoherence(ard, b), m.paths, b.outDirectory)
    modifies m
    ensures m.Valid() && |m.calls| >= |old(m.calls)|
    ensures Progress(old(m.paths), old(m.markers), m.paths, m.markers, config, b)
    ensures var plan := BurstPlan(config.processing.single, f, Dim(MasterImport(config, b)) in old(m.paths));
      var done := Order(m.calls, |old(m.calls)|);
      IsPrefix(done, LoggedAll([], plan)) && (r.Success? ==> done == LoggedAll([], plan))
    ensures var o := b.outDirectory;
      r.Success? ==>
        (f.pol ==> PathJoin(o, POL_MARKER) in m.markers) && (f.bs ==> PathJoin(o, BS_MARKER) in m.markers)
        && (f.coh ==> PathJoin(o, COH_MARKER) in m.markers) && Product(MasterImport(config, b)) !! m.paths
    ensures r.Failure? ==>
      r.error.GptRuntimeError? || r.error == TypeError || r.error == FileNotFoundError
      || (r.error == RuntimeError && config.processing.single.createLsMask)
  {
    var ard := config.processing.single;
    ghost var paths0, markers0, start := m.paths, m.markers, |m.calls|;
    ghost var imported := Dim(MasterImport(config, b)) in m.paths;
    ghost var a, two, last := ImportOps(imported), FirstOps(ard, f), LastOps(f);
    PlanSplit(ard, f, imported);
    ghost var ran;
    r, ran := ImportMaster(m, b, config, paths0, markers0, start);
    ghost var d := Order(m.calls, start);
    if r.Failure? {
      ThreeParts(a, two, last, BurstPlan(ard, f, imported));
      PlanUnderway([], a, BurstPlan(ard, f, imported));
      return;
    }
    r := RunFamilies(m, b, config, s, f, paths0, markers0, start);
    ImportThenFamilies(d, Order(m.calls, start), a, two, last, BurstPlan(ard, f, imported), r.Success?);
  }

  /** The product headers `burst_to_ard` returns: backscatter, layover/shadow
    * mask, coherence and polarimetric, each when its family is requested. */
  datatype BurstOutputs = BurstOutputs(bs: Option<string>, ls: Option<string>, coh: Option<string>, pol: Option<string>)

  /** The returned headers depend only on the settings, not on what this
    * call produced. */
  function Outputs(ard: SingleArd, coherence: bool, outDir: string, prefix: string): (r: BurstOutputs)
    ensures r.pol.Some? <==> ard.hAAlpha
    ensures r.bs.Some? <==> ard.backscatter
    ensures r.ls.Some? <==> ard.backscatter
    ensures r.coh.Some? <==> coherence
  {
    BurstOutputs(
      if ard.backscatter then Some(Dim(PathJoin(outDir, prefix + "_bs"))) else None,
      if ard.backscatter then Some(Dim(PathJoin(outDir, prefix + "_LS"))) else None,
      if coherence then Some(Dim(PathJoin(outDir, prefix + "_coh"))) else None,
      if ard.hAAlpha then Some(Dim(PathJoin(outDir, prefix + "_pol"))) else None)
  }

  /** Each returned header is the header of its family's output product,
    * except the layover/shadow mask, which is returned with the backscatter
    * even when no mask is made. */
  lemma OutputsNamed(ard: SingleArd, coherence: bool, outDir: string, prefix: string)
    ensures var r := Outputs(ard, coherence, outDir, prefix);
      (r.pol.Some? ==> r.pol.value in PolOutputs(outDir, prefix))
      && (r.bs.Some? ==> r.bs.value in BsOutputs(ard, outDir, prefix))
      && (r.coh.Some? ==> r.coh.value in CohOutputs(outDir, prefix))
      && (r.ls.Some? ==> (r.ls.value in BsOutputs(ard, outDir, prefix) <==> ard.createLsMask))
  {
    var r := Outputs(ard, coherence, outDir, prefix);
    if r.ls.Some? && !ard.createLsMask {
      NamesApart(outDir, prefix, "_bs", "_LS");
    }
  }

  /** `burst_to_ard`: the product families requested and not yet marked in
    * the burst's output directory are produced, in the order polarimetric,
    * backscatter, coherence, after importing the master burst unless its
    * import is on disk; the returned headers depend only on the settings. */
  method ProduceBurst(m: Machine, b: Burst, config: ConfigDict, s: Scratch) returns (r: Result<BurstOutputs>)
    requires m.Valid() && Separate(config.tempDir, b.outDirectory) && ScratchReady(m.paths, s, config, b)
    modifies m
    ensures m.Valid()
    ensures var ard := config.processing.single;
      var f := ToProduce(ard, WantsCoherence(ard, b), old(m.paths), b.outDirectory);
      var plan := BurstPlan(ard, f, Dim(MasterImport(config, b)) in old(m.paths));
      var done := Order(m.calls, |old(m.calls)|);
      IsPrefix(done, LoggedAll([], plan)) && (r.Success? ==> done == LoggedAll([], plan))
    ensures var ard := config.processing.single;
      !AnyFamily(ToProduce(ard, WantsCoherence(ard, b), old(m.paths), b.outDirectory)) ==>
        r.Success? && m.paths == old(m.paths) && m.markers == old(m.markers) && m.calls == old(m.calls)
    ensures Progress(old(m.paths), old(m.markers), m.paths, m.markers, config, b)
    ensures var ard, o := config.processing.single, b.outDirectory;
      var f := ToProduce(ard, WantsCoherence(ard, b), old(m.paths), o);
      r.Success? ==>
        (f.pol ==> PathJoin(o, POL_MARKER) in m.markers) && (f.bs ==> PathJoin(o, BS_MARKER) in m.markers)
        && (f.coh ==> PathJoin(o, COH_MARKER) in m.markers)
        && (AnyFamily(f) ==> Product(MasterImport(config, b)) !! m.paths)
    ensures var ard := config.processing.single;
      r.Success? ==> r.value == Outputs(ard, WantsCoherence(ard, b), b.outDirectory, b.masterPrefix)
    ensures r.Failure? ==>
      r.error.GptRuntimeError? || r.error == TypeError || r.error == FileNotFoundError
      || (r.error == RuntimeError && config.processing.single.createLsMask)
  {
    var ard, o := config.processing.single, b.outDirectory;
    var polFile := m.Exists(PathJoin(o, POL_MARKER));
    var bsFile := m.Exists(PathJoin(o, BS_MARKER));
    var cohFile := m.Exists(PathJoin(o, COH_MARKER));
    var coherence := ard.coherence && b.slaveFile != "";
    var f := Families(ard.hAAlpha && !polFile, ard.backscatter && !bsFile, coherence && !cohFile);
    if AnyFamily(f) {
      var made := ProduceFamilies(m, b, config, s, f);
      if made.Failure? {
        return Failure(made.error);
      }
    }
    r := Success(Outputs(ard, coherence, o, b.masterPrefix));
  }

  // ------------------------------------------------------------ calls as written

  /** The parameters of the SLC wrappers the chain calls. */
  const BURST_IMPORT := Signature(["infile", "outfile", "logfile", "swath", "burst", "config_dict"], 0)
  const HA_ALPHA := Signature(["infile", "outfile", "logfile", "config_dict"], 0)
  const CALIBRATION := Signature(["infile", "outfile", "logfile", "config_dict"], 0)
  const COREG := Signature(["master", "slave", "outfile", "logfile", "config_dict"], 0)
  const COHERENCE := Signature(["infile", "outfile", "logfile", "config_dict"], 0)

  /** The chain's calls of the wrappers as written raise TypeError before
    * any tool runs: seven arguments for the six of `burst_import`, six for
    * the four of `ha_alpha`, the keywords `region` and `ncores` that
    * `calibration` does not have, six for the five of `coreg` and five for
    * the four of `coherence`. */
  lemma SlcCallsAsWritten()
    ensures Call(BURST_IMPORT, CallSite(7, [])) == Failure(TypeError)
    ensures Call(HA_ALPHA, CallSite(6, [])) == Failure(TypeError)
    ensures Call(CALIBRATION, CallSite(4, ["region", "ncores"])) == Failure(TypeError)
    ensures Call(COREG, CallSite(6, [])) == Failure(TypeError)
    ensures Call(COHERENCE, CallSite(5, [])) == Failure(TypeError)
  {
    TooManyPositional(BURST_IMPORT, CallSite(7, []));
    TooManyPositional(HA_ALPHA, CallSite(6, []));
    UnknownKeyword(CALIBRATION, CallSite(4, ["region", "ncores"]), "region");
    TooManyPositional(COREG, CallSite(6, []));
    TooManyPositional(COHERENCE, CallSite(5, []));
  }

  /** Passing each wrapper its own parameters, the configuration as
    * `config_dict`, binds. */
  lemma SlcCallsIntended()
    ensures Call(BURST_IMPORT, CallSite(6, [])) == Success(())
    ensures Call(HA_ALPHA, CallSite(4, [])) == Success(())
    ensures Call(CALIBRATION, CallSite(4, [])) == Success(())
    ensures Call(COREG, CallSite(5, [])) == Success(())
    ensures Call(COHERENCE, CallSite(4, [])) == Success(())
  {
  }

  /** The master and slave imports compare the path string `burst_import`
    * returns with 0: a string never equals an integer, so as written every
    * import that passed is deleted and reported as failed. */
  lemma ImportCheckAsWritten(returned: string)
    ensures NotZero(Str(returned))
  {
  }

  /** `create_backscatter_layers` returns `out_tc + '.dim'` with `out_tc` a
    * path: as written the return raises TypeError, after the marker has
    * been written. */
  lemma ReturnPathAsWritten(outTc: string)
    ensures Add(PathValue(outTc), Str(".dim")) == Failure(TypeError)
  {
  }
}
