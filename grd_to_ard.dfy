/** The GRD-to-ARD chain (`grd_to_ard`): import of one scene or slice
  * assembly of several, optional subsetting, the border-noise gate, then
  * calibration, multi-looking, the layover/shadow mask, speckle filtering,
  * terrain flattening, dB scaling and terrain correction. Every chained
  * stage deletes the product it read; the geocoded backscatter product is
  * moved to the output directory and only then is the `.processed` marker
  * written. */
module GrdToArd {
  import opened Errors
  import opened Strings
  import opened Host
  import opened Config
  import opened CommonWrappers

  /** Every import wrapper is retried three times and raises on failure. */
  const IMPORT_POLICY: Policy := Policy(3, RaisesGpt)
  const FRAME_IMPORT_GRAPH := "graphs/S1_GRD2ARD/1_AO_TNR.xml"
  const FRAME_IMPORT_SUBSET_GRAPH := "graphs/S1_GRD2ARD/1_AO_TNR_SUB.xml"
  /** The default polarisation list of slice assembly. */
  const ALL_POLARISATIONS := "VV,VH,HH,HV"

  // ---------------------------------------------------------------- import commands

  /** `_grd_frame_import`: orbit update and thermal-noise removal of one
    * scene, restricted to `polars`, on twice the CPU count. */
  function FrameImport(infile: string, outfile: string, polars: string, cpus: int): (w: Invocation)
    ensures w.policy == IMPORT_POLICY && w.out == outfile
    ensures w.cmd.op == FRAME_IMPORT_GRAPH && w.cmd.threads == 2 * cpus
    ensures HasParam(w.cmd, "input", infile) && HasParam(w.cmd, "polarisation", polars)
    ensures HasParam(w.cmd, "output", outfile)
  {
    var ps := [Param("input", infile), Param("polarisation", polars), Param("output", outfile)];
    assert ps[0] in ps && ps[1] in ps && ps[2] in ps;
    Invocation(Command(FRAME_IMPORT_GRAPH, 2 * cpus, ps, "", []), outfile, IMPORT_POLICY)
  }

  /** `_grd_frame_import_subset`: the frame import cut to a WKT region. */
  function FrameImportSubset(infile: string, outfile: string, georegion: string, polars: string, cpus: int): (w: Invocation)
    ensures w.policy == IMPORT_POLICY && w.out == outfile
    ensures w.cmd.op == FRAME_IMPORT_SUBSET_GRAPH && w.cmd.threads == 2 * cpus
    ensures HasParam(w.cmd, "input", infile) && HasParam(w.cmd, "region", georegion)
    ensures HasParam(w.cmd, "polarisation", polars) && HasParam(w.cmd, "output", outfile)
  {
    var ps := [Param("input", infile), Param("region", georegion), Param("polarisation", polars),
      Param("output", outfile)];
    assert ps[0] in ps && ps[1] in ps && ps[2] in ps && ps[3] in ps;
    Invocation(Command(FRAME_IMPORT_SUBSET_GRAPH, 2 * cpus, ps, "", []), outfile, IMPORT_POLICY)
  }

  /** `_slice_assembly`: consecutive imported frames joined into one
    * product, always with the default polarisation list. */
  function SliceAssembly(scenes: seq<string>, outfile: string, cpus: int): (w: Invocation)
    ensures w.policy == IMPORT_POLICY && w.out == outfile
    ensures w.cmd.op == "SliceAssembly" && w.cmd.threads == 2 * cpus
    ensures HasParam(w.cmd, "selectedPolarisations", ALL_POLARISATIONS)
    ensures w.cmd.target == outfile && w.cmd.sources == scenes
  {
    var ps := [Param("selectedPolarisations", ALL_POLARISATIONS)];
    assert ps[0] in ps;
    Invocation(Command("SliceAssembly", 2 * cpus, ps, outfile, scenes), outfile, IMPORT_POLICY)
  }

  /** `_grd_subset_georegion`: a geographic subset keeping the metadata. */
  function SubsetGeoregion(infile: string, outfile: string, georegion: string, cpus: int): (w: Invocation)
    ensures w.policy == IMPORT_POLICY && w.out == outfile
    ensures w.cmd.op == "Subset" && w.cmd.threads == 2 * cpus
    ensures HasParam(w.cmd, "copyMetadata", "true") && HasParam(w.cmd, "geoRegion", georegion)
    ensures w.cmd.target == outfile && w.cmd.sources == [infile]
  {
    var ps := [Param("copyMetadata", "true"), Param("geoRegion", georegion)];
    assert ps[0] in ps && ps[1] in ps;
    Invocation(Command("Subset", 2 * cpus, ps, outfile, [infile]), outfile, IMPORT_POLICY)
  }

  // ---------------------------------------------------------------- the plan

  /** Python truthiness of the optional subset region. */
  predicate Truthy(subset: Option<string>)
  {
    subset.Some? && subset.value != []
  }

  /** The import tools in the order they run for `n` input scenes (runs of
    * the same tool counted once). Several scenes are assembled and then
    * subset when the region is non-empty; a single scene is imported whole
    * when there is no region at all, and cut during import otherwise, even
    * for an empty region. */
  function ImportPlan(n: nat, subset: Option<string>): seq<string>
  {
    if n > 1 then [FRAME_IMPORT_GRAPH, "SliceAssembly"] + (if Truthy(subset) then ["Subset"] else [])
    else if subset.None? then [FRAME_IMPORT_GRAPH]
    else [FRAME_IMPORT_SUBSET_GRAPH]
  }

  /** The import stages are import graphs only; a subset stage runs exactly
    * when several scenes are assembled and the region is non-empty, and the
    * subsetting import exactly when one scene is imported with a region. */
  lemma ImportPlanShape(n: nat, subset: Option<string>)
    ensures var p := ImportPlan(n, subset);
      |p| >= 1 && (forall i :: 0 <= i < |p| ==> p[i] in IMPORT_OPS)
      && ("Subset" in p <==> n > 1 && Truthy(subset))
      && (FRAME_IMPORT_SUBSET_GRAPH in p <==> n <= 1 && subset.Some?)
  {
  }

  const IMPORT_OPS: set<string> := {FRAME_IMPORT_GRAPH, FRAME_IMPORT_SUBSET_GRAPH, "SliceAssembly", "Subset"}

  /** Calibration target of each supported product type; anything else is
    * refused with TypeError. */
  function CalibrateTo(productType: string): (r: Result<string>)
    ensures r.Success? <==> productType in {"GTC-sigma0", "GTC-gamma0", "RTC-gamma0"}
    ensures r.Failure? ==> r.error == TypeError
    ensures r.Success? ==> r.value in {"sigma0", "gamma0", "beta0"}
    ensures r == Success("beta0") <==> productType == "RTC-gamma0"
    ensures r == Success("gamma0") <==> productType == "GTC-gamma0"
    ensures r == Success("sigma0") <==> productType == "GTC-sigma0"
  {
    if productType == "GTC-sigma0" then Success("sigma0")
    else if productType == "GTC-gamma0" then Success("gamma0")
    else if productType == "RTC-gamma0" then Success("beta0")
    else Failure(TypeError)
  }

  /** The multi-look factor, applied in both directions, when the target
    * resolution calls for multi-looking. */
  function MultiLookFactor(resolution: int): (r: Option<int>)
    ensures r.Some? <==> resolution >= 20
    ensures r.Some? ==> r.value >= 2 && 10 * r.value <= resolution < 10 * r.value + 10
  {
    if resolution >= 20 then Some(resolution / 10) else None
  }

  /** The stages that follow the import, in the order of the chain. */
  datatype Step = Calibrate | MultiLook | LayoverShadow | Speckle | Flatten | ToDb | Geocode

  const ALL_STEPS: seq<Step> := [Calibrate, MultiLook, LayoverShadow, Speckle, Flatten, ToDb, Geocode]

  function Rank(s: Step): nat
  {
    match s
    case Calibrate => 0
    case MultiLook => 1
    case LayoverShadow => 2
    case Speckle => 3
    case Flatten => 4
    case ToDb => 5
    case Geocode => 6
  }

  /** The tool or graph each stage runs. */
  function StepOp(s: Step): (op: string)
    ensures op !in IMPORT_OPS
  {
    match s
    case Calibrate => "Calibration"
    case MultiLook => "Multilook"
    case LayoverShadow => LS_GRAPH
    case Speckle => "Speckle-Filter"
    case Flatten => "Terrain-Flattening"
    case ToDb => "LinearToFromdB"
    case Geocode => "Terrain-Correction"
  }

  /** Different stages run different tools. */
  lemma StepOpInjective(a: Step, b: Step)
    requires a != b
    ensures StepOp(a) != StepOp(b)
    decreases if Rank(a) > Rank(b) then 1 else 0
  {
    if Rank(a) > Rank(b) {
      StepOpInjective(b, a);
    } else {
      match a
      case Calibrate =>
        assert StepOp(a)[0] == 'C';
        assert StepOp(b)[0] != 'C';
      case MultiLook =>
        assert |StepOp(a)| == 9;
      case LayoverShadow =>
        assert |StepOp(a)| == 29;
      case Speckle =>
        assert StepOp(a)[0] == 'S';
        assert StepOp(b)[0] != 'S';
      case Flatten =>
        assert StepOp(a)[8] == 'F';
        assert StepOp(b)[0] != 'T' || StepOp(b)[8] != 'F';
      case ToDb =>
        assert |StepOp(a)| == 14 && StepOp(b) == "Terrain-Correction";
      case Geocode =>
    }
  }

  /** Whether a stage runs: multi-looking from 20 m on, the layover/shadow
    * mask, speckle filter and dB scaling on their settings, terrain
    * flattening for RTC products; calibration and terrain correction always. */
  predicate Enabled(ard: SingleArd, s: Step)
  {
    match s
    case MultiLook => ard.resolution >= 20
    case LayoverShadow => ard.createLsMask
    case Speckle => ard.removeSpeckle
    case Flatten => ard.productType == "RTC-gamma0"
    case ToDb => ard.toDb
    case _ => true
  }

  /** The enabled stages among the first `j` candidates, in order. */
  function Planned(ard: SingleArd, j: nat): (p: seq<Step>)
    requires j <= |ALL_STEPS|
    ensures |p| <= j
  {
    if j == 0 then []
    else Planned(ard, j - 1) + (if Enabled(ard, ALL_STEPS[j - 1]) then [ALL_STEPS[j - 1]] else [])
  }

  /** The stages that run after the import. */
  function Plan(ard: SingleArd): (p: seq<Step>)
    ensures |p| >= 2 && p[0] == Calibrate && p[|p| - 1] == Geocode
  {
    PlannedFirst(ard, |ALL_STEPS|);
    Planned(ard, |ALL_STEPS|)
  }

  /** Calibration, which always runs, comes first. */
  lemma {:induction false} PlannedFirst(ard: SingleArd, j: nat)
    requires 1 <= j <= |ALL_STEPS|
    ensures |Planned(ard, j)| >= 1 && Planned(ard, j)[0] == Calibrate
  {
    if j > 1 {
      PlannedFirst(ard, j - 1);
    }
  }

  lemma RankIndex(i: nat)
    requires i < |ALL_STEPS|
    ensures Rank(ALL_STEPS[i]) == i
  {
  }

  lemma IndexRank(s: Step)
    ensures Rank(s) < |ALL_STEPS| && ALL_STEPS[Rank(s)] == s
  {
  }

  /** A stage is planned among the first `j` candidates exactly when it is
    * one of them and enabled. */
  lemma {:induction false} PlannedMembers(ard: SingleArd, j: nat, s: Step)
    requires j <= |ALL_STEPS|
    ensures s in Planned(ard, j) <==> Rank(s) < j && Enabled(ard, s)
  {
    if j > 0 {
      PlannedMembers(ard, j - 1, s);
      RankIndex(j - 1);
      IndexRank(s);
    }
  }

  predicate Ranked(p: seq<Step>)
  {
    forall i, j :: 0 <= i < j < |p| ==> Rank(p[i]) < Rank(p[j])
  }

  /** Planning keeps the candidates' order. */
  lemma {:induction false} PlannedRanked(ard: SingleArd, j: nat)
    requires j <= |ALL_STEPS|
    ensures Ranked(Planned(ard, j))
    ensures forall i :: 0 <= i < |Planned(ard, j)| ==> Rank(Planned(ard, j)[i]) < j
  {
    if j > 0 {
      PlannedRanked(ard, j - 1);
      RankIndex(j - 1);
    }
  }

  /** Each optional stage runs exactly when its setting asks for it, and
    * the stages run in the fixed order of the chain, each at most once. */
  lemma PlanGating(ard: SingleArd)
    ensures forall s :: s in Plan(ard) <==> Enabled(ard, s)
    ensures Ranked(Plan(ard))
  {
    forall s ensures s in Plan(ard) <==> Enabled(ard, s) {
      PlannedMembers(ard, |ALL_STEPS|, s);
      IndexRank(s);
    }
    PlannedRanked(ard, |ALL_STEPS|);
  }

  /** The tools of a plan, in order. */
  function Ops(p: seq<Step>): (ops: seq<string>)
    ensures |ops| == |p|
  {
    if |p| == 0 then [] else Ops(p[..|p| - 1]) + [StepOp(p[|p| - 1])]
  }

  /** The completed stages, since `start`, once the chain has passed its
    * first `j` candidate stages, after the import stages `done0`. */
  function Done(ard: SingleArd, done0: seq<string>, j: nat): seq<string>
    requires j <= |ALL_STEPS|
  {
    if j == 0 then done0
    else if Enabled(ard, ALL_STEPS[j - 1]) then Done(ard, done0, j - 1) + [StepOp(ALL_STEPS[j - 1])]
    else Done(ard, done0, j - 1)
  }

  /** The completed stages are the import stages followed by the tools of
    * the stages planned so far. */
  lemma {:induction false} DoneIsPlanned(ard: SingleArd, done0: seq<string>, j: nat)
    requires j <= |ALL_STEPS|
    ensures Done(ard, done0, j) == done0 + Ops(Planned(ard, j))
  {
    if j > 0 {
      DoneIsPlanned(ard, done0, j - 1);
      var f, s := Planned(ard, j - 1), ALL_STEPS[j - 1];
      if Enabled(ard, s) {
        assert Ops(f + [s]) == Ops(f) + [StepOp(s)] by {
          assert (f + [s])[..|f|] == f;
        }
        assert (done0 + Ops(f)) + [StepOp(s)] == done0 + (Ops(f) + [StepOp(s)]);
      } else {
        assert f + [] == f;
      }
    }
  }

  /** Once the chain has passed all candidates, the completed stages are
    * the import stages followed by the tools of the plan. */
  lemma DoneAll(ard: SingleArd, done0: seq<string>)
    ensures Done(ard, done0, |ALL_STEPS|) == done0 + Ops(Plan(ard))
  {
    DoneIsPlanned(ard, done0, |ALL_STEPS|);
  }

  /** The completed stages only grow as the chain advances. */
  lemma {:induction false} DoneGrows(ard: SingleArd, done0: seq<string>, j: nat, k: nat)
    requires j <= k <= |ALL_STEPS|
    ensures IsPrefix(Done(ard, done0, j), Done(ard, done0, k))
    decreases k
  {
    if j < k {
      DoneGrows(ard, done0, j, k - 1);
      var a, b := Done(ard, done0, j), Done(ard, done0, k - 1);
      assert Done(ard, done0, k)[..|b|] == b;
      assert b[..|a|] == a;
    }
  }

  /** What has run so far extends the import and is a prefix of the whole
    * chain. */
  lemma DonePrefix(ard: SingleArd, done0: seq<string>, j: nat)
    requires j <= |ALL_STEPS|
    ensures IsPrefix(done0, Done(ard, done0, j))
    ensures IsPrefix(Done(ard, done0, j), Done(ard, done0, |ALL_STEPS|))
  {
    DoneGrows(ard, done0, 0, j);
    DoneGrows(ard, done0, j, |ALL_STEPS|);
  }

  /** The index of the last enabled stage among the first `j` candidates,
    * or -1 when there is none. */
  function LastEnabled(ard: SingleArd, j: nat): (k: int)
    requires j <= |ALL_STEPS|
    ensures -1 <= k < j
  {
    if j == 0 then -1
    else if Enabled(ard, ALL_STEPS[j - 1]) then j - 1
    else LastEnabled(ard, j - 1)
  }

  /** The stage completed last is an import or the last enabled one of the
    * first `j` candidates. */
  lemma {:induction false} DoneLast(ard: SingleArd, done0: seq<string>, j: nat)
    requires j <= |ALL_STEPS|
    ensures var d, k := Done(ard, done0, j), LastEnabled(ard, j);
      (k < 0 ==> d == done0) && (k >= 0 ==> |d| > 0 && d[|d| - 1] == StepOp(ALL_STEPS[k]))
  {
    if j > 0 {
      DoneLast(ard, done0, j - 1);
      var d, prev := Done(ard, done0, j), Done(ard, done0, j - 1);
      if Enabled(ard, ALL_STEPS[j - 1]) {
        assert d == prev + [StepOp(ALL_STEPS[j - 1])];
      } else {
        assert d == prev;
      }
    }
  }

  /** The stage completed last never runs the tool of the next candidate. */
  lemma LastNotNext(ard: SingleArd, done0: seq<string>, j: nat)
    requires j < |ALL_STEPS| && ImportOnly(done0)
    ensures var d := Done(ard, done0, j); |d| == 0 || d[|d| - 1] != StepOp(ALL_STEPS[j])
  {
    var d, k := Done(ard, done0, j), LastEnabled(ard, j);
    DoneLast(ard, done0, j);
    if k >= 0 {
      RankIndex(k);
      RankIndex(j);
      StepOpInjective(ALL_STEPS[k], ALL_STEPS[j]);
    } else if |d| > 0 {
      assert d[|d| - 1] in IMPORT_OPS;
    }
  }

  /** Running the `j`-th candidate stage, when it is enabled, adds its tool
    * to the completed stages; a disabled stage adds nothing. */
  lemma Advance(ard: SingleArd, done0: seq<string>, j: nat)
    requires j < |ALL_STEPS| && ImportOnly(done0)
    ensures Enabled(ard, ALL_STEPS[j]) ==> Logged(Done(ard, done0, j), StepOp(ALL_STEPS[j])) == Done(ard, done0, j + 1)
    ensures !Enabled(ard, ALL_STEPS[j]) ==> Done(ard, done0, j + 1) == Done(ard, done0, j)
  {
    LastNotNext(ard, done0, j);
  }

  // ---------------------------------------------------------------- paths

  /** The `.processed` marker lies outside every product. */
  lemma MarkerNotProduct(dir: string)
    ensures !IsProductPath(PathJoin(dir, ".processed"))
  {
    var p := PathJoin(dir, ".processed");
    assert p[|p| - 1] == 'd';
  }

  /** The product removed when the layover/shadow mask yields no vector
    * file, as the code writes it: the header path with every `.dim`
    * removed. */
  function LsCleanupAsWritten(outFinalLs: string): string
  {
    RemoveAll(outFinalLs, ".dim")
  }

  /** Cleaning the mask's own name leaves it as it is. */
  lemma LsNameClean()
    ensures RemoveAll("_LS.dim", ".dim") == "_LS"
  {
    assert RemoveAll(".dim", ".dim") == [];
    assert "S.dim"[1..] == ".dim";
    assert RemoveAll("S.dim", ".dim") == "S";
    assert "LS.dim"[1..] == "S.dim";
    assert RemoveAll("LS.dim", ".dim") == "LS";
    assert "_LS.dim"[1..] == "LS.dim";
  }

  /** The as-written cleanup never touches the backscatter product. */
  lemma LsCleanupApart(outputDir: string, fileId: string)
    ensures Product(LsCleanupAsWritten(Dim(PathJoin(outputDir, fileId + "_LS"))))
         !! Product(PathJoin(outputDir, fileId + "_BS"))
  {
    var a := outputDir + "/" + fileId;
    assert Dim(PathJoin(outputDir, fileId + "_LS")) == a + "_LS.dim";
    RemoveAllSplit(a, "_LS.dim", ".dim");
    LsNameClean();
    var x := RemoveAll(a, ".dim") + "_LS";
    var y := PathJoin(outputDir, fileId + "_BS");
    assert y == a + "_BS";
    assert x[|x| - 2] == "_LS"[1] && y[|y| - 2] == "_BS"[1];
    ProductsApart(x, y, 1);
  }

  lemma ShortNameClean()
    ensures RemoveAll("/a_LS.dim", ".dim") == "/a_LS"
  {
    LsNameClean();
    assert "a_LS.dim"[1..] == "_LS.dim";
    assert "/a_LS.dim"[1..] == "a_LS.dim";
  }

  /** When the output directory's name contains `.dim`, the as-written
    * cleanup removes a product other than the mask, and the mask stays. */
  lemma LsCleanupMissesMask()
    ensures var outLs := PathJoin(".dim", "a_LS");
      LsCleanupAsWritten(Dim(outLs)) == "/a_LS" && Product("/a_LS") !! Product(outLs)
  {
    assert Dim(PathJoin(".dim", "a_LS")) == ".dim" + "/a_LS.dim";
    RemoveAllSplit(".dim", "/a_LS.dim", ".dim");
    ShortNameClean();
    ProductsShorter("/a_LS", ".dim/a_LS");
  }

  /** Products whose prefixes differ by more than one character in length
    * share no path. */
  lemma ProductsShorter(x: string, y: string)
    requires |x| + 1 < |y|
    ensures Product(x) !! Product(y)
  {
    assert |Data(x)| < |Dim(y)|;
  }

  /** The prefix of the mask product, its header path without the
    * four-character extension: the intended cleanup. */
  function LsCleanupPrefix(outFinalLs: string): (p: string)
    ensures forall prefix :: outFinalLs == Dim(prefix) ==> p == prefix
  {
    DropLast(outFinalLs, 4)
  }

  /** The data directories `<temp>/<fid>_imported*data` that hold the image
    * `Intensity_<pol>.img`. */
  function BandDirs(paths: set<string>, tempDir: string, fileId: string, pol: string): set<string>
  {
    set d | d in paths && GlobMatch(d, tempDir, fileId + "_imported", "data")
                       && PathJoin(d, "Intensity_" + pol + ".img") in paths
  }

  /** The polarisations of `pols` whose intensity image is found exactly
    * once: the bands border-noise removal rewrites. */
  function BorderPols(paths: set<string>, tempDir: string, fileId: string, pols: seq<string>): (r: seq<string>)
    ensures forall pol :: pol in r <==> pol in pols && |BandDirs(paths, tempDir, fileId, pol)| == 1
  {
    if |pols| == 0 then []
    else
      (if |BandDirs(paths, tempDir, fileId, pols[0])| == 1 then [pols[0]] else [])
        + BorderPols(paths, tempDir, fileId, pols[1..])
  }

  const BORDER_POLS: seq<string> := ["VV", "VH", "HH", "HV"]

  // ---------------------------------------------------------------- the chain

  /** One chained stage: the wrapper runs; a raised error propagates with
    * nothing deleted; otherwise the product the stage read (`infile`
    * without its four-character extension) is deleted, and on a non-zero
    * exit code the stage's own output too, before GptRuntimeError. */
  method ChainStage(m: Machine, w: Invocation, infile: string, ghost start: nat) returns (r: Result<string>)
    requires m.Valid() && w.policy.tries >= 1 && start <= |m.calls|
    modifies m
    ensures m.Valid() && m.markers == old(m.markers)
    ensures |m.calls| >= |old(m.calls)|
    ensures Order(m.calls, start) == Logged(Order(old(m.calls), start), w.cmd.op)
    ensures m.paths <= old(m.paths) + Product(w.out)
    ensures old(m.paths) - Product(DropLast(infile, 4)) - Product(w.out) <= m.paths
    ensures r.Success? ==> r.value == Dim(w.out)
    ensures r.Failure? && w.policy.onFailure != RaisesRuntime ==> r.error.GptRuntimeError?
    ensures var n := |old(m.calls)|;
      var s := StageResult(m.tool, w.cmd, n, w.policy);
      var written := old(m.paths)
        + (if LeftOutput(m.tool, w.cmd, n, Runs(m.tool, w.cmd, n, w.policy)) then Product(w.out) else {});
      var input := DropLast(infile, 4);
      (s.Failure? ==> r == Failure(s.error) && m.paths == written)
      && (s == Success(0) ==> r == Success(Dim(w.out)) && m.paths == written - Product(input))
      && (s.Success? && s.value != 0 ==>
            r == Failure(GptRuntimeError(s.value)) && m.paths == written - Product(input) - Product(w.out))
  {
    var s := StageLogged(m, w, start);
    if s.Failure? {
      return Failure(s.error);
    }
    m.DeleteProduct(DropLast(infile, 4));
    if s.value != 0 {
      m.DeleteProduct(w.out);
      return Failure(GptRuntimeError(s.value));
    }
    r := Success(Dim(w.out));
  }

  /** Where `_grd_frame_import` writes one scene of an acquisition:
    * `<temp>/<basename minus 5 characters>_imported`. */
  function FrameOut(tempDir: string, file: string): string
  {
    PathJoin(tempDir, DropLast(LastField(file, '/'), 5) + "_imported")
  }

  /** Frame import of every scene of an acquisition, each into its
    * `FrameOut`; the wrapper raises GptRuntimeError itself once its three
    * tries fail, so the first failure propagates and nothing is deleted
    * (the exit-code test after the call is never reached with a non-zero
    * code). */
  method ImportFrames(m: Machine, filelist: seq<string>, tempDir: string, polars: string, cpus: int,
                      ghost start: nat)
    returns (r: Result<()>)
    requires m.Valid() && start == |m.calls| && |filelist| > 0
    modifies m
    ensures m.Valid() && m.markers == old(m.markers)
    ensures |m.calls| >= |old(m.calls)|
    ensures Order(m.calls, start) == [FRAME_IMPORT_GRAPH]
    ensures r.Failure? ==> r.error.GptRuntimeError?
    ensures old(m.paths) <= m.paths
    ensures forall p :: p in m.paths - old(m.paths) ==>
      exists k :: 0 <= k < |filelist| && p in Product(FrameOut(tempDir, filelist[k]))
  {
    var i := 0;
    while i < |filelist|
      invariant 0 <= i <= |filelist|
      invariant m.Valid() && m.markers == old(m.markers)
      invariant |m.calls| >= |old(m.calls)|
      invariant Order(m.calls, start) == if i == 0 then [] else [FRAME_IMPORT_GRAPH]
      invariant old(m.paths) <= m.paths
      invariant forall p :: p in m.paths - old(m.paths) ==>
        exists k :: 0 <= k < i && p in Product(FrameOut(tempDir, filelist[k]))
    {
      var file := filelist[i];
      var sceneImport := FrameOut(tempDir, file);
      ghost var before := m.paths;
      var s := StageInOrder(m, FrameImport(file, sceneImport, polars, cpus), start);
      forall p | p in m.paths - old(m.paths)
        ensures exists k :: 0 <= k <= i && p in Product(FrameOut(tempDir, filelist[k]))
      {
        if p !in before {
          assert p in Product(FrameOut(tempDir, filelist[i]));
        } else {
          assert p in before - old(m.paths);
          var k :| 0 <= k < i && p in Product(FrameOut(tempDir, filelist[k]));
        }
      }
      if s.Failure? {
        return Failure(s.error);
      }
      i := i + 1;
    }
    r := Success(());
  }

  /** Slice assembly of every imported frame (a product in `<temp>` whose
    * name ends in `imported`) into `<temp>/<fid>_imported`, then deletion
    * of the frames; a non-empty region subsets the assembly into
    * `<fid>_imported_subset` and deletes the assembly. A raising assembly
    * propagates before the frames are deleted. */
  method AssembleSlices(m: Machine, fileId: string, tempDir: string, subset: Option<string>, cpus: int,
                        ghost start: nat)
    returns (r: Result<()>)
    requires m.Valid() && start <= |m.calls|
    requires Order(m.calls, start) == [FRAME_IMPORT_GRAPH]
    modifies m
    ensures m.Valid() && m.markers == old(m.markers)
    ensures |m.calls| >= |old(m.calls)|
    ensures var done := Order(m.calls, start);
      IsPrefix(done, ImportPlan(2, subset)) && (r.Success? ==> done == ImportPlan(2, subset))
    ensures r.Failure? ==> r.error.GptRuntimeError?
    ensures var grdImport, grdSubset := PathJoin(tempDir, fileId + "_imported"), PathJoin(tempDir, fileId + "_imported_subset");
      m.paths <= old(m.paths) + Product(grdImport) + Product(grdSubset)
      && (r.Failure? && |Order(m.calls, start)| == 2 ==> old(m.paths) <= m.paths)
      && (r.Success? || |Order(m.calls, start)| == 3 ==>
            forall f :: f in Glob(old(m.paths), tempDir, "", "imported.dim") ==>
              Product(RemoveAll(f, ".dim")) !! m.paths - Product(grdSubset))
      && (r.Success? && Truthy(subset) ==> Product(grdImport) !! m.paths - Product(grdSubset))
  {
    var grdImport := PathJoin(tempDir, fileId + "_imported");
    var grdSubset := PathJoin(tempDir, fileId + "_imported_subset");
    var preSliceImports := Listing(Glob(m.paths, tempDir, "", "imported.dim"));
    var scenelist := Listing(Glob(m.paths, tempDir, "", "imported.dim"));
    var s := StageInOrder(m, SliceAssembly(scenelist, grdImport, cpus), start);
    assert IsPrefix([FRAME_IMPORT_GRAPH, "SliceAssembly"], ImportPlan(2, subset));
    if s.Failure? {
      return Failure(s.error);
    }
    DeleteFrames(m, preSliceImports);
    if Truthy(subset) {
      r := SubsetAssembly(m, grdImport, grdSubset, subset.value, cpus, start);
    } else {
      r := Success(());
    }
  }

  /** Deletion of the frame imports once they are assembled: the product
    * named by each header, whatever the header's `.dim` occurrences. */
  method DeleteFrames(m: Machine, frames: seq<string>)
    requires m.Valid()
    modifies m
    ensures m.Valid() && m.markers == old(m.markers)
    ensures m.calls == old(m.calls)
    ensures m.paths <= old(m.paths)
    ensures forall k :: 0 <= k < |frames| ==> Product(RemoveAll(frames[k], ".dim")) !! m.paths
    ensures forall p :: p in old(m.paths) && p !in m.paths ==>
      exists k :: 0 <= k < |frames| && p in Product(RemoveAll(frames[k], ".dim"))
  {
    for i := 0 to |frames|
      invariant m.Valid() && m.markers == old(m.markers)
      invariant m.calls == old(m.calls)
      invariant m.paths <= old(m.paths)
      invariant forall k :: 0 <= k < i ==> Product(RemoveAll(frames[k], ".dim")) !! m.paths
      invariant forall p :: p in old(m.paths) && p !in m.paths ==>
        exists k :: 0 <= k < i && p in Product(RemoveAll(frames[k], ".dim"))
    {
      m.DeleteProduct(RemoveAll(frames[i], ".dim"));
    }
  }

  /** The geographic subset of the assembled acquisition; the assembly is
    * deleted once the subset has been written. The wrapper raises
    * GptRuntimeError itself, so a failed subset keeps the assembly and
    * deletes nothing. */
  method SubsetAssembly(m: Machine, grdImport: string, grdSubset: string, region: string, cpus: int,
                        ghost start: nat)
    returns (r: Result<()>)
    requires m.Valid() && start <= |m.calls|
    requires Order(m.calls, start) == [FRAME_IMPORT_GRAPH, "SliceAssembly"]
    modifies m
    ensures m.Valid() && m.markers == old(m.markers)
    ensures |m.calls| >= |old(m.calls)|
    ensures Order(m.calls, start) == [FRAME_IMPORT_GRAPH, "SliceAssembly", "Subset"]
    ensures r.Failure? ==> r.error.GptRuntimeError? && old(m.paths) <= m.paths
    ensures old(m.paths) - Product(grdImport) <= m.paths <= old(m.paths) + Product(grdSubset)
    ensures r.Success? ==> Product(grdImport) !! m.paths - Product(grdSubset)
  {
    var s := StageInOrder(m, SubsetGeoregion(Dim(grdImport), grdSubset, region, cpus), start);
    if s.Failure? {
      return Failure(s.error);
    }
    m.DeleteProduct(grdImport);
    r := Success(());
  }

  /** The import phase: several scenes are frame-imported and assembled
    * (then subset for a non-empty region); one scene is imported to
    * `<temp>/<fid>_imported`, cut during import whenever a region is given.
    * An empty scene list fails with IndexError before any tool runs. */
  method ImportScenes(m: Machine, filelist: seq<string>, fileId: string, tempDir: string, polars: string,
                      subset: Option<string>, cpus: int)
    returns (r: Result<()>)
    requires m.Valid()
    modifies m
    ensures m.Valid() && m.markers == old(m.markers)
    ensures |m.calls| >= |old(m.calls)|
    ensures var done := Order(m.calls, |old(m.calls)|);
      IsPrefix(done, ImportPlan(|filelist|, subset))
      && (r.Success? ==> done == ImportPlan(|filelist|, subset))
    ensures |filelist| == 0 ==> r == Failure(IndexError) && m.calls == old(m.calls)
    ensures r.Failure? ==> r.error == IndexError || r.error.GptRuntimeError?
  {
    ghost var start := |m.calls|;
    if |filelist| > 1 {
      r := ImportFrames(m, filelist, tempDir, polars, cpus, start);
      if r.Success? {
        r := AssembleSlices(m, fileId, tempDir, subset, cpus, start);
      }
    } else if |filelist| == 0 {
      r := Failure(IndexError);
    } else {
      var grdImport := PathJoin(tempDir, fileId + "_imported");
      var w := if subset.None? then FrameImport(filelist[0], grdImport, polars, cpus)
               else FrameImportSubset(filelist[0], grdImport, subset.value, polars, cpus);
      var s := StageInOrder(m, w, start);
      r := if s.Failure? then Failure(s.error) else Success(());
    }
  }

  // ---------------------------------------------------------------- after the import

  /** The imports `done0` followed by the chain stages so far. */
  predicate ImportOnly(done0: seq<string>)
  {
    forall i :: 0 <= i < |done0| ==> done0[i] in IMPORT_OPS
  }

  /** A product `<temp>/<fid><suffix>` is never the mask product
    * `<out>/<fid>_LS` when the suffix does not end in `S`. */
  lemma ApartFromLs(tempDir: string, outputDir: string, fileId: string, suffix: string)
    requires |suffix| > 0 && suffix[|suffix| - 1] != 'S'
    ensures Product(PathJoin(tempDir, fileId + suffix)) !! Product(PathJoin(outputDir, fileId + "_LS"))
  {
    var x, y := PathJoin(tempDir, fileId + suffix), PathJoin(outputDir, fileId + "_LS");
    assert x[|x| - 1] == suffix[|suffix| - 1];
    assert y[|y| - 1] == 'S';
    ProductsApart(x, y, 0);
  }

  /** Section 5 of the chain: the layover/shadow mask is computed into
    * `<temp>/<fid>.ls_mask` and moved to `<out>/<fid>_LS`, replacing an
    * earlier mask there; the stage's input is kept. `ls_mask` raises
    * RuntimeError itself once its tries fail, so the exit-code test after
    * the call never sees a non-zero code and a failed mask deletes nothing. */
  method LayoverShadowStep(m: Machine, infile: string, outputDir: string, fileId: string, tempDir: string,
                           ard: SingleArd, workers: int, ghost start: nat)
    returns (r: Result<()>)
    requires m.Valid() && start <= |m.calls|
    modifies m
    ensures m.Valid() && m.markers == old(m.markers)
    ensures |m.calls| >= |old(m.calls)|
    ensures Order(m.calls, start) == Logged(Order(old(m.calls), start), LS_GRAPH)
    ensures var lsMask, outLs := PathJoin(tempDir, fileId + ".ls_mask"), PathJoin(outputDir, fileId + "_LS");
      old(m.paths) - Product(lsMask) - Product(outLs) <= m.paths
      && (r.Success? ==> Product(outLs) <= m.paths && Product(lsMask) !! m.paths)
    ensures r.Failure? ==> r.error == RuntimeError || r.error == FileNotFoundError
    ensures r.Failure? && r.error == RuntimeError ==> old(m.paths) <= m.paths
  {
    var lsMask := PathJoin(tempDir, fileId + ".ls_mask");
    var s := StageInOrder(m, LsMask(infile, lsMask, ard, workers), start);
    if s.Failure? {
      return Failure(s.error);
    }
    ApartFromLs(tempDir, outputDir, fileId, ".ls_mask");
    r := ReplaceProduct(m, lsMask, PathJoin(outputDir, fileId + "_LS"));
  }

  /** The name, after the scene id, of the product each stage writes in
    * the temporary directory. */
  function StepSuffix(s: Step): (sfx: string)
    ensures |sfx| > 0 && sfx[|sfx| - 1] != 'S'
  {
    match s
    case Calibrate => "_cal"
    case MultiLook => "_ml"
    case LayoverShadow => ".ls_mask"
    case Speckle => "_spk"
    case Flatten => "_flat"
    case ToDb => "_db"
    case Geocode => "_bs"
  }

  /** One chained stage other than the mask, with the wrapper and the
    * arguments its section of the chain passes: the stage writes
    * `<temp>/<fid><suffix of the stage>` from the previous product. */
  method RunStep(m: Machine, s: Step, infile: string, ghost suffix: string, outputDir: string, fileId: string,
                 tempDir: string, ard: SingleArd, calibrateTo: string, workers: int, cpus: int, ghost start: nat)
    returns (r: Result<string>)
    requires m.Valid() && start <= |m.calls| && s != LayoverShadow
    requires s == MultiLook ==> ard.resolution >= 20
    requires s != Calibrate ==>
      |suffix| > 0 && suffix[|suffix| - 1] != 'S' && infile == Dim(PathJoin(tempDir, fileId + suffix))
    modifies m
    ensures m.Valid() && m.markers == old(m.markers)
    ensures |m.calls| >= |old(m.calls)|
    ensures Order(m.calls, start) == Logged(Order(old(m.calls), start), StepOp(s))
    ensures r.Success? ==> r.value == Dim(PathJoin(tempDir, fileId + StepSuffix(s)))
    ensures var outLs := PathJoin(outputDir, fileId + "_LS");
      s != Calibrate && Product(outLs) <= old(m.paths) ==> Product(outLs) <= m.paths
    ensures r.Failure? ==> r.error.GptRuntimeError?
  {
    var out := PathJoin(tempDir, fileId + StepSuffix(s));
    match s
    case Calibrate =>
      r := ChainStage(m, Calibration(infile, out, calibrateTo, workers), infile, start);
    case MultiLook =>
      var factor := ard.resolution / 10;
      r := TempStage(m, CommonWrappers.MultiLook(infile, out, factor, factor, workers),
                     infile, suffix, "_ml", outputDir, fileId, tempDir, start);
    case Speckle =>
      r := TempStage(m, SpeckleFilterCall(infile, out, ard.speckleFilter, workers),
                     infile, suffix, "_spk", outputDir, fileId, tempDir, start);
    case Flatten =>
      r := TempStage(m, TerrainFlattening(infile, out, ard.dem, workers),
                     infile, suffix, "_flat", outputDir, fileId, tempDir, start);
    case ToDb =>
      r := TempStage(m, LinearToDb(infile, out, cpus), infile, suffix, "_db", outputDir, fileId, tempDir, start);
    case Geocode =>
      r := TempStage(m, TerrainCorrection(infile, out, ard.resolution, ard.dem, workers),
                     infile, suffix, "_bs", outputDir, fileId, tempDir, start);
  }

  /** A chained stage writing `<temp>/<fid><outSuffix>` from the product
    * `<temp>/<fid><suffix>`: neither is the mask product `<out>/<fid>_LS`,
    * so the stage leaves the mask alone. */
  method TempStage(m: Machine, w: Invocation, infile: string, ghost suffix: string, ghost outSuffix: string,
                   ghost outputDir: string, ghost fileId: string, ghost tempDir: string, ghost start: nat)
    returns (r: Result<string>)
    requires m.Valid() && w.policy.tries >= 1 && w.policy.onFailure != RaisesRuntime && start <= |m.calls|
    requires |suffix| > 0 && suffix[|suffix| - 1] != 'S' && infile == Dim(PathJoin(tempDir, fileId + suffix))
    requires |outSuffix| > 0 && outSuffix[|outSuffix| - 1] != 'S' && w.out == PathJoin(tempDir, fileId + outSuffix)
    modifies m
    ensures m.Valid() && m.markers == old(m.markers)
    ensures |m.calls| >= |old(m.calls)|
    ensures Order(m.calls, start) == Logged(Order(old(m.calls), start), w.cmd.op)
    ensures r.Success? ==> r.value == Dim(w.out)
    ensures var outLs := PathJoin(outputDir, fileId + "_LS");
      Product(outLs) <= old(m.paths) ==> Product(outLs) <= m.paths
    ensures r.Failure? ==> r.error.GptRuntimeError?
  {
    DropDim(PathJoin(tempDir, fileId + suffix));
    ApartFromLs(tempDir, outputDir, fileId, suffix);
    ApartFromLs(tempDir, outputDir, fileId, outSuffix);
    r := ChainStage(m, w, infile, start);
  }

  /** The `j`-th candidate section of the chain (any but the mask): when
    * its stage is enabled it runs on the previous product and its tool is
    * logged, whatever the outcome; otherwise the previous product passes
    * through untouched. */
  method Section(m: Machine, j: nat, infile: string, ghost suffix: string, outputDir: string, fileId: string,
                 tempDir: string, ard: SingleArd, calibrateTo: string, workers: int, cpus: int,
                 ghost done0: seq<string>, ghost start: nat)
    returns (r: Result<string>)
    requires j < |ALL_STEPS| && ALL_STEPS[j] != LayoverShadow && ImportOnly(done0)
    requires m.Valid() && start <= |m.calls| && Order(m.calls, start) == Done(ard, done0, j)
    requires j > 0 ==>
      |suffix| > 0 && suffix[|suffix| - 1] != 'S' && infile == Dim(PathJoin(tempDir, fileId + suffix))
    modifies m
    ensures m.Valid() && m.markers == old(m.markers)
    ensures |m.calls| >= |old(m.calls)|
    ensures Order(m.calls, start) == Done(ard, done0, j + 1)
    ensures r.Success? ==>
      r.value == if Enabled(ard, ALL_STEPS[j]) then Dim(PathJoin(tempDir, fileId + StepSuffix(ALL_STEPS[j])))
                 else infile
    ensures var outLs := PathJoin(outputDir, fileId + "_LS");
      j > 0 && Product(outLs) <= old(m.paths) ==> Product(outLs) <= m.paths
    ensures r.Failure? ==> r.error.GptRuntimeError?
  {
    Advance(ard, done0, j);
    if Enabled(ard, ALL_STEPS[j]) {
      r := RunStep(m, ALL_STEPS[j], infile, suffix, outputDir, fileId, tempDir, ard, calibrateTo, workers, cpus, start);
    } else {
      r := Success(infile);
    }
  }

  /** Sections 3 to 9 of the chain, from the imported product `infile`:
    * calibration, multi-looking, the layover/shadow mask, speckle
    * filtering, terrain flattening, dB scaling and terrain correction, each
    * as its setting asks. The tools run in the order of the plan, and a
    * failing stage ends the chain; an unsupported product type fails with
    * TypeError before any tool runs. */
  method Chain(m: Machine, infile: string, outputDir: string, fileId: string, tempDir: string,
               ard: SingleArd, workers: int, cpus: int, ghost done0: seq<string>, ghost start: nat)
    returns (r: Result<string>)
    requires m.Valid() && start <= |m.calls| && ImportOnly(done0) && Order(m.calls, start) == done0
    modifies m
    ensures m.Valid() && m.markers == old(m.markers)
    ensures |m.calls| >= |old(m.calls)|
    ensures var done := Order(m.calls, start);
      IsPrefix(done0, done) && IsPrefix(done, Done(ard, done0, |ALL_STEPS|))
      && (r.Success? ==> done == Done(ard, done0, |ALL_STEPS|))
    ensures r.Success? ==> r.value == Dim(PathJoin(tempDir, fileId + "_bs"))
    ensures r.Success? && ard.createLsMask ==> Product(PathJoin(outputDir, fileId + "_LS")) <= m.paths
    ensures CalibrateTo(ard.productType).Failure? ==>
      r == Failure(TypeError) && m.calls == old(m.calls) && m.paths == old(m.paths)
    ensures r.Failure? ==>
      r.error in {TypeError, RuntimeError, FileNotFoundError} || r.error.GptRuntimeError?
  {
    var to := CalibrateTo(ard.productType);
    if to.Failure? {
      DonePrefix(ard, done0, 0);
      return Failure(TypeError);
    }
    ghost var sfx;
    r, sfx := ChainHead(m, infile, outputDir, fileId, tempDir, ard, to.value, workers, done0, start);
    if r.Success? {
      r := ChainTail(m, r.value, sfx, outputDir, fileId, tempDir, ard, to.value, workers, cpus, done0, start);
    }
  }

  /** Sections 3 to 5 of the chain: calibration, multi-looking and the
    * layover/shadow mask; on success the product for the next section is
    * `<temp>/<fid><sfx>`. */
  method ChainHead(m: Machine, infile: string, outputDir: string, fileId: string, tempDir: string,
                   ard: SingleArd, calibrateTo: string, workers: int, ghost done0: seq<string>, ghost start: nat)
    returns (r: Result<string>, ghost sfx: string)
    requires m.Valid() && start <= |m.calls| && ImportOnly(done0) && Order(m.calls, start) == done0
    modifies m
    ensures m.Valid() && m.markers == old(m.markers)
    ensures |m.calls| >= |old(m.calls)|
    ensures var done := Order(m.calls, start);
      IsPrefix(done0, done) && IsPrefix(done, Done(ard, done0, |ALL_STEPS|))
      && (r.Success? ==> done == Done(ard, done0, 3))
    ensures r.Success? ==>
      |sfx| > 0 && sfx[|sfx| - 1] != 'S' && r.value == Dim(PathJoin(tempDir, fileId + sfx))
    ensures r.Success? && ard.createLsMask ==> Product(PathJoin(outputDir, fileId + "_LS")) <= m.paths
    ensures r.Failure? ==> r.error in {RuntimeError, FileNotFoundError} || r.error.GptRuntimeError?
  {
    r, sfx := CalibrateAndLook(m, infile, outputDir, fileId, tempDir, ard, calibrateTo, workers, done0, start);
    if r.Failure? {
      return;
    }
    var ls := MaskSection(m, r.value, outputDir, fileId, tempDir, ard, workers, done0, start);
    if ls.Failure? {
      r := Failure(ls.error);
    }
  }

  /** Section 5 of the chain: the layover/shadow mask, when the
    * configuration asks for it. */
  method MaskSection(m: Machine, infile: string, outputDir: string, fileId: string, tempDir: string,
                     ard: SingleArd, workers: int, ghost done0: seq<string>, ghost start: nat)
    returns (r: Result<()>)
    requires m.Valid() && start <= |m.calls| && ImportOnly(done0) && Order(m.calls, start) == Done(ard, done0, 2)
    modifies m
    ensures m.Valid() && m.markers == old(m.markers)
    ensures |m.calls| >= |old(m.calls)|
    ensures var done := Order(m.calls, start);
      IsPrefix(done0, done) && IsPrefix(done, Done(ard, done0, |ALL_STEPS|))
      && (r.Success? ==> done == Done(ard, done0, 3))
    ensures r.Success? && ard.createLsMask ==> Product(PathJoin(outputDir, fileId + "_LS")) <= m.paths
    ensures r.Failure? ==> r.error in {RuntimeError, FileNotFoundError} || r.error.GptRuntimeError?
  {
    Advance(ard, done0, 2);
    DonePrefix(ard, done0, 3);
    assert ALL_STEPS[2] == LayoverShadow && StepOp(LayoverShadow) == LS_GRAPH;
    r := Success(());
    if ard.createLsMask {
      r := LayoverShadowStep(m, infile, outputDir, fileId, tempDir, ard, workers, start);
    }
  }

  /** Sections 3 and 4 of the chain: calibration, then multi-looking when
    * the resolution asks for it. */
  method CalibrateAndLook(m: Machine, infile: string, outputDir: string, fileId: string, tempDir: string,
                          ard: SingleArd, calibrateTo: string, workers: int, ghost done0: seq<string>, ghost start: nat)
    returns (r: Result<string>, ghost sfx: string)
    requires m.Valid() && start <= |m.calls| && ImportOnly(done0) && Order(m.calls, start) == done0
    modifies m
    ensures m.Valid() && m.markers == old(m.markers)
    ensures |m.calls| >= |old(m.calls)|
    ensures var done := Order(m.calls, start);
      IsPrefix(done0, done) && IsPrefix(done, Done(ard, done0, |ALL_STEPS|))
      && (r.Success? ==> done == Done(ard, done0, 2))
    ensures r.Success? ==>
      |sfx| > 0 && sfx[|sfx| - 1] != 'S' && r.value == Dim(PathJoin(tempDir, fileId + sfx))
    ensures r.Failure? ==> r.error.GptRuntimeError?
  {
    assert ALL_STEPS[0] == Calibrate && ALL_STEPS[1] == MultiLook;
    r := Section(m, 0, infile, "", outputDir, fileId, tempDir, ard, calibrateTo, workers, 0, done0, start);
    sfx := "_cal";
    if r.Failure? {
      DonePrefix(ard, done0, 1);
      return;
    }
    r := Section(m, 1, r.value, sfx, outputDir, fileId, tempDir, ard, calibrateTo, workers, 0, done0, start);
    DonePrefix(ard, done0, 2);
    sfx := if Enabled(ard, MultiLook) then "_ml" else sfx;
  }

  /** Sections 6 to 9 of the chain, from the product of the earlier
    * sections; the mask product, once written, stays in place. */
  method ChainTail(m: Machine, infile: string, ghost suffix: string, outputDir: string, fileId: string,
                   tempDir: string, ard: SingleArd, calibrateTo: string, workers: int, cpus: int,
                   ghost done0: seq<string>, ghost start: nat)
    returns (r: Result<string>)
    requires m.Valid() && start <= |m.calls| && ImportOnly(done0) && Order(m.calls, start) == Done(ard, done0, 3)
    requires |suffix| > 0 && suffix[|suffix| - 1] != 'S' && infile == Dim(PathJoin(tempDir, fileId + suffix))
    modifies m
    ensures m.Valid() && m.markers == old(m.markers)
    ensures |m.calls| >= |old(m.calls)|
    ensures var done := Order(m.calls, start);
      IsPrefix(done0, done) && IsPrefix(done, Done(ard, done0, |ALL_STEPS|))
      && (r.Success? ==> done == Done(ard, done0, |ALL_STEPS|))
    ensures r.Success? ==> r.value == Dim(PathJoin(tempDir, fileId + "_bs"))
    ensures var outLs := PathJoin(outputDir, fileId + "_LS");
      Product(outLs) <= old(m.paths) ==> Product(outLs) <= m.paths
    ensures r.Failure? ==> r.error.GptRuntimeError?
  {
    ghost var sfx;
    r, sfx := SpeckleAndFlatten(m, infile, suffix, outputDir, fileId, tempDir, ard, calibrateTo, workers, cpus, done0, start);
    if r.Failure? {
      return;
    }
    r, sfx := ScaleAndGeocode(m, r.value, sfx, outputDir, fileId, tempDir, ard, calibrateTo, workers, cpus, done0, start);
  }

  /** Sections 6 and 7 of the chain: speckle filtering and terrain flattening,
    * each when the configuration asks for it. */
  method SpeckleAndFlatten(m: Machine, infile: string, ghost suffix: string, outputDir: string, fileId: string,
                     tempDir: string, ard: SingleArd, calibrateTo: string, workers: int, cpus: int,
                     ghost done0: seq<string>, ghost start: nat)
    returns (r: Result<string>, ghost sfx: string)
    requires m.Valid() && start <= |m.calls| && ImportOnly(done0) && Order(m.calls, start) == Done(ard, done0, 3)
    requires |suffix| > 0 && suffix[|suffix| - 1] != 'S' && infile == Dim(PathJoin(tempDir, fileId + suffix))
    modifies m
    ensures m.Valid() && m.markers == old(m.markers)
    ensures |m.calls| >= |old(m.calls)|
    ensures var done := Order(m.calls, start);
      IsPrefix(done0, done) && IsPrefix(done, Done(ard, done0, |ALL_STEPS|))
      && (r.Success? ==> done == Done(ard, done0, 5))
    ensures r.Success? ==>
      |sfx| > 0 && sfx[|sfx| - 1] != 'S' && r.value == Dim(PathJoin(tempDir, fileId + sfx))
    ensures var outLs := PathJoin(outputDir, fileId + "_LS");
      Product(outLs) <= old(m.paths) ==> Product(outLs) <= m.paths
    ensures r.Failure? ==> r.error.GptRuntimeError?
  {
    assert ALL_STEPS[3] == Speckle && ALL_STEPS[4] == Flatten;
    r := Section(m, 3, infile, suffix, outputDir, fileId, tempDir, ard, calibrateTo, workers, cpus, done0, start);
    sfx := suffix;
    if r.Failure? {
      DonePrefix(ard, done0, 4);
      return;
    }
    sfx := if Enabled(ard, Speckle) then "_spk" else sfx;
    r := Section(m, 4, r.value, sfx, outputDir, fileId, tempDir, ard, calibrateTo, workers, cpus, done0, start);
    DonePrefix(ard, done0, 5);
    sfx := if Enabled(ard, Flatten) then "_flat" else sfx;
  }

  /** Sections 8 and 9 of the chain: conversion to dB when asked for, then
    * terrain correction into `<temp>/<fid>_bs`. */
  method ScaleAndGeocode(m: Machine, infile: string, ghost suffix: string, outputDir: string, fileId: string,
                     tempDir: string, ard: SingleArd, calibrateTo: string, workers: int, cpus: int,
                     ghost done0: seq<string>, ghost start: nat)
    returns (r: Result<string>, ghost sfx: string)
    requires m.Valid() && start <= |m.calls| && ImportOnly(done0) && Order(m.calls, start) == Done(ard, done0, 5)
    requires |suffix| > 0 && suffix[|suffix| - 1] != 'S' && infile == Dim(PathJoin(tempDir, fileId + suffix))
    modifies m
    ensures m.Valid() && m.markers == old(m.markers)
    ensures |m.calls| >= |old(m.calls)|
    ensures var done := Order(m.calls, start);
      IsPrefix(done0, done) && IsPrefix(done, Done(ard, done0, |ALL_STEPS|))
      && (r.Success? ==> done == Done(ard, done0, 7))
    ensures r.Success? ==>
      |sfx| > 0 && sfx[|sfx| - 1] != 'S' && r.value == Dim(PathJoin(tempDir, fileId + sfx))
      && sfx == "_bs"
    ensures var outLs := PathJoin(outputDir, fileId + "_LS");
      Product(outLs) <= old(m.paths) ==> Product(outLs) <= m.paths
    ensures r.Failure? ==> r.error.GptRuntimeError?
  {
    assert ALL_STEPS[5] == ToDb && ALL_STEPS[6] == Geocode;
    r := Section(m, 5, infile, suffix, outputDir, fileId, tempDir, ard, calibrateTo, workers, cpus, done0, start);
    sfx := suffix;
    if r.Failure? {
      DonePrefix(ard, done0, 6);
      return;
    }
    sfx := if Enabled(ard, ToDb) then "_db" else sfx;
    r := Section(m, 6, r.value, sfx, outputDir, fileId, tempDir, ard, calibrateTo, workers, cpus, done0, start);
    DonePrefix(ard, done0, 7);
    sfx := "_bs";
  }

  // ---------------------------------------------------------------- the whole chain

  /** What `grd_to_ard` returns: the exit code of the last stage, the
    * backscatter product header and the layover/shadow vector file. */
  datatype GrdOutcome = GrdOutcome(code: int, product: Option<string>, lsMask: Option<string>)

  /** The geocoded product `<temp>/<fid>_bs` is never the final product
    * `<out>/<fid>_BS`. */
  lemma GeocodedApart(tempDir: string, outputDir: string, fileId: string)
    ensures Product(PathJoin(tempDir, fileId + "_bs")) !! Product(PathJoin(outputDir, fileId + "_BS"))
  {
    var x, y := PathJoin(tempDir, fileId + "_bs"), PathJoin(outputDir, fileId + "_BS");
    assert x[|x| - 1] == 's' && y[|y| - 1] == 'S';
    ProductsApart(x, y, 0);
  }

  /** Section 10: the geocoded product replaces `<out>/<fid>_BS`, the
    * `.processed` marker is written, and the mask product is removed again
    * when no vector file (`lsVector`, the result of the vector conversion)
    * comes out of it. */
  method Finish(m: Machine, tempDir: string, outputDir: string, fileId: string, ard: SingleArd,
                lsVector: Option<string>)
    returns (r: Result<GrdOutcome>)
    requires m.Valid()
    modifies m
    ensures m.Valid() && m.calls == old(m.calls)
    ensures var geocoded, outFinal := PathJoin(tempDir, fileId + "_bs"), PathJoin(outputDir, fileId + "_BS");
      r.Success? <==> Product(geocoded) <= old(m.paths)
    ensures var outFinal, marker := PathJoin(outputDir, fileId + "_BS"), PathJoin(outputDir, ".processed");
      r.Success? ==>
        r.value == GrdOutcome(0, Some(Dim(outFinal)), if ard.createLsMask then lsVector else None)
        && Product(outFinal) <= m.paths && marker in m.markers && m.markers[marker] == MARKER_TEXT
    ensures var outLs := PathJoin(outputDir, fileId + "_LS");
      r.Success? && ard.createLsMask && lsVector.None? ==> Product(outLs) !! m.paths
    ensures r.Failure? ==> r.error == FileNotFoundError && m.markers == old(m.markers)
  {
    var geocoded, outFinal := PathJoin(tempDir, fileId + "_bs"), PathJoin(outputDir, fileId + "_BS");
    GeocodedApart(tempDir, outputDir, fileId);
    var moved := ReplaceProduct(m, geocoded, outFinal);
    if moved.Failure? {
      return Failure(moved.error);
    }
    var marker := PathJoin(outputDir, ".processed");
    MarkerNotProduct(outputDir);
    m.WriteMarker(marker, MARKER_TEXT);
    var lsOut := None;
    if ard.createLsMask {
      var outFinalLs := Dim(PathJoin(outputDir, fileId + "_LS"));
      lsOut := lsVector;
      if lsVector.None? {
        var outLs := PathJoin(outputDir, fileId + "_LS");
        assert outLs[|outLs| - 2] == 'L' && outFinal[|outFinal| - 2] == 'B';
        ProductsApart(outLs, outFinal, 1);
        m.DeleteProduct(LsCleanupPrefix(outFinalLs));
      }
    }
    r := Success(GrdOutcome(0, Some(Dim(outFinal)), lsOut));
  }

  /** Sections 1 and 2 of `grd_to_ard`: the import, the choice of the
    * bands whose border noise is removed, and the pick of the imported
    * product (`None` for an empty scene, after an import that leaves
    * neither `<fid>_imported` nor `<fid>_imported_subset`). */
  method ImportPhase(m: Machine, filelist: seq<string>, fileId: string, tempDir: string,
                     ard: SingleArd, subset: Option<string>, cpus: int)
    returns (r: Result<Option<string>>, bordered: seq<string>)
    requires m.Valid()
    modifies m
    ensures m.Valid() && m.markers == old(m.markers)
    ensures |m.calls| >= |old(m.calls)|
    ensures var done, imports := Order(m.calls, |old(m.calls)|), ImportPlan(|filelist|, subset);
      IsPrefix(done, imports) && (r.Success? ==> done == imports)
    ensures r.Success? && r.value.Some? ==> GlobMatch(r.value.value, tempDir, fileId + "_imported", "dim")
    ensures r.Success? && r.value.None? ==>
      !m.HasProduct(PathJoin(tempDir, fileId + "_imported"))
      && !m.HasProduct(PathJoin(tempDir, fileId + "_imported_subset"))
    ensures |filelist| == 0 ==> r == Failure(IndexError) && m.calls == old(m.calls)
    ensures !ard.removeBorderNoise || Truthy(subset) ==> bordered == []
    ensures forall pol :: pol in bordered ==> pol in BORDER_POLS
    ensures r.Failure? ==> r.error == IndexError || r.error.GptRuntimeError?
  {
    var polars := RemoveChar(ard.polarisation, ' ');
    bordered := [];
    var imported := ImportScenes(m, filelist, fileId, tempDir, polars, subset, cpus);
    if imported.Failure? {
      return Failure(imported.error), bordered;
    }
    if ard.removeBorderNoise && !Truthy(subset) {
      bordered := BorderPols(m.paths, tempDir, fileId, BORDER_POLS);
    }
    if !m.Exists(Dim(PathJoin(tempDir, fileId + "_imported")))
       && !m.Exists(Dim(PathJoin(tempDir, fileId + "_imported_subset"))) {
      return Success(None), bordered;
    }
    var found := Listing(Glob(m.paths, tempDir, fileId + "_imported", "dim"));
    if |found| == 0 {
      return Failure(IndexError), bordered;
    }
    r := Success(Some(found[0]));
  }

  /** `grd_to_ard`: one acquisition (one scene, or consecutive scenes to be
    * assembled) to an analysis-ready backscatter product. The tools run in
    * the order of the import plan followed by the chain's plan; an empty
    * scene ends after the import; the `.processed` marker is written only
    * once the final product is in place. `lsVector` is what the vector
    * conversion of the mask returns; `bordered` lists the polarisations
    * whose border noise is removed. */
  method ToArd(m: Machine, filelist: seq<string>, outputDir: string, fileId: string, tempDir: string,
               ard: SingleArd, subset: Option<string>, workers: int, cpus: int, lsVector: Option<string>)
    returns (r: Result<GrdOutcome>, bordered: seq<string>)
    requires m.Valid()
    modifies m
    ensures m.Valid()
    ensures var done, imports := Order(m.calls, |old(m.calls)|), ImportPlan(|filelist|, subset);
      IsPrefix(done, imports + Ops(Plan(ard)))
      && (r.Success? && r.value.product.None? ==> r.value == GrdOutcome(0, None, None) && done == imports)
      && (r.Success? && r.value.product.Some? ==> done == imports + Ops(Plan(ard)))
    ensures var outFinal, marker := PathJoin(outputDir, fileId + "_BS"), PathJoin(outputDir, ".processed");
      r.Success? && r.value.product.Some? ==>
        r.value == GrdOutcome(0, Some(Dim(outFinal)), if ard.createLsMask then lsVector else None)
        && Product(outFinal) <= m.paths && marker in m.markers && m.markers[marker] == MARKER_TEXT
    ensures r.Success? && r.value.product.Some? && ard.createLsMask && lsVector.None? ==>
      Product(PathJoin(outputDir, fileId + "_LS")) !! m.paths
    ensures r.Failure? || r.value.product.None? ==> m.markers == old(m.markers)
    ensures |filelist| == 0 ==> r == Failure(IndexError) && m.calls == old(m.calls)
    ensures !ard.removeBorderNoise || Truthy(subset) ==> bordered == []
    ensures forall pol :: pol in bordered ==> pol in BORDER_POLS
    ensures r.Failure? ==>
      r.error in {IndexError, TypeError, RuntimeError, FileNotFoundError} || r.error.GptRuntimeError?
  {
    ghost var start := |m.calls|;
    var infile;
    infile, bordered := ImportPhase(m, filelist, fileId, tempDir, ard, subset, cpus);
    ghost var imports := ImportPlan(|filelist|, subset);
    ghost var done0 := Order(m.calls, start);
    assert IsPrefix(done0, imports + Ops(Plan(ard))) by {
      assert (imports + Ops(Plan(ard)))[..|imports|] == imports;
    }
    if infile.Failure? {
      return Failure(infile.error), bordered;
    }
    if infile.value.None? {
      return Success(GrdOutcome(0, None, None)), bordered;
    }
    ImportPlanShape(|filelist|, subset);
    DoneAll(ard, done0);
    var c := Chain(m, infile.value.value, outputDir, fileId, tempDir, ard, workers, cpus, done0, start);
    if c.Failure? {
      return Failure(c.error), bordered;
    }
    r := Finish(m, tempDir, outputDir, fileId, ard, lsVector);
  }
}
