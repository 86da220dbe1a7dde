/** The generic tool wrappers shared by the GRD and SLC chains: each maps
  * its parameters to one tool command and fixes how a failing run is
  * reported (returned code, GptRuntimeError or RuntimeError) and how often
  * it is retried. */
module CommonWrappers {
  import opened Strings
  import opened Host
  import opened Config

  const RETURNS_CODE: Policy := Policy(3, ReturnsCode)
  const RAISES: Policy := Policy(3, RaisesGpt)

  /** The three band flags (beta, gamma, sigma) of the Calibration operator. */
  function CalibrationFlags(calibrateTo: string): (f: (string, string, string))
    ensures f.0 == "true" <==> calibrateTo == "beta0"
    ensures f.1 == "true" <==> calibrateTo == "gamma0"
    ensures f.2 == "true" <==> calibrateTo == "sigma0"
    ensures f.0 in {"true", "false"} && f.1 in {"true", "false"} && f.2 in {"true", "false"}
  {
    var (beta, gamma, sigma) :=
      if calibrateTo == "gamma0" then ("false", "true", "false")
      else if calibrateTo == "beta0" then ("true", "false", "false")
      else if calibrateTo == "sigma0" then ("false", "false", "true")
      else ("false", "false", "false");
    (beta, gamma, sigma)
  }

  /** Number of flags set to 'true'. */
  function TrueCount(f: (string, string, string)): nat
  {
    (if f.0 == "true" then 1 else 0) + (if f.1 == "true" then 1 else 0) + (if f.2 == "true" then 1 else 0)
  }

  /** Exactly one band is requested for a known target, none otherwise. */
  lemma CalibrationFlagsExactlyOne(calibrateTo: string)
    ensures TrueCount(CalibrationFlags(calibrateTo)) == (if calibrateTo in {"gamma0", "beta0", "sigma0"} then 1 else 0)
  {
  }

  /** `calibration`: runs once (it never raises, so the decorator never
    * repeats it) and returns the exit code. */
  function Calibration(infile: string, outfile: string, calibrateTo: string, workers: int): (w: Invocation)
    ensures w.policy == Policy(3, ReturnsCode) && w.out == outfile
    ensures w.cmd.op == "Calibration" && w.cmd.threads == 2 * workers
    ensures w.cmd.target == outfile && w.cmd.sources == [infile]
    ensures HasParam(w.cmd, "outputBetaBand", if calibrateTo == "beta0" then "true" else "false")
    ensures HasParam(w.cmd, "outputGammaBand", if calibrateTo == "gamma0" then "true" else "false")
    ensures HasParam(w.cmd, "outputSigmaBand", if calibrateTo == "sigma0" then "true" else "false")
  {
    var f := CalibrationFlags(calibrateTo);
    var ps := [Param("outputBetaBand", f.0), Param("outputGammaBand", f.1), Param("outputSigmaBand", f.2)];
    assert ps[0] in ps && ps[1] in ps && ps[2] in ps;
    Invocation(Command("Calibration", 2 * workers, ps, outfile, [infile]), outfile, RETURNS_CODE)
  }

  /** `multi_look`: azimuth looks to nAzLooks, range looks to nRgLooks;
    * returns the exit code. */
  function MultiLook(infile: string, outfile: string, rgLooks: int, azLooks: int, workers: int): (w: Invocation)
    ensures w.policy == Policy(3, ReturnsCode) && w.out == outfile
    ensures w.cmd.op == "Multilook" && w.cmd.threads == 2 * workers
    ensures w.cmd.target == outfile && w.cmd.sources == [infile]
    ensures HasParam(w.cmd, "nAzLooks", IntToString(azLooks)) && HasParam(w.cmd, "nRgLooks", IntToString(rgLooks))
  {
    var ps := [Param("nAzLooks", IntToString(azLooks)), Param("nRgLooks", IntToString(rgLooks))];
    assert ps[0] in ps && ps[1] in ps;
    Invocation(Command("Multilook", 2 * workers, ps, outfile, [infile]), outfile, RETURNS_CODE)
  }

  /** The eleven speckle-filter parameters, in the order they are passed. */
  function SpeckleParams(f: SpeckleFilter): (ps: seq<Param>)
    ensures |ps| == 11
    ensures forall i :: 0 <= i < |ps| ==> ps[i].name in SPECKLE_NAMES
  {
    [Param("estimateENL", f.estimateEnl), Param("anSize", f.panSize), Param("dampingFactor", f.damping),
     Param("enl", f.enl), Param("filter", f.filter), Param("filterSizeX", f.filterSizeX),
     Param("filterSizeY", f.filterSizeY), Param("numLooksStr", f.numLooks), Param("sigmaStr", f.sigma),
     Param("targetWindowSizeStr", f.targetWindowSize), Param("windowSize", f.windowSize)]
  }

  const SPECKLE_NAMES: set<string> :=
    {"estimateENL", "anSize", "dampingFactor", "enl", "filter", "filterSizeX", "filterSizeY",
     "numLooksStr", "sigmaStr", "targetWindowSizeStr", "windowSize"}

  /** `speckle_filter`: raises GptRuntimeError after three failing runs. */
  function SpeckleFilterCall(infile: string, outfile: string, f: SpeckleFilter, workers: int): (w: Invocation)
    ensures w.policy == Policy(3, RaisesGpt) && w.out == outfile
    ensures w.cmd.op == "Speckle-Filter" && w.cmd.threads == 2 * workers
    ensures w.cmd.params == SpeckleParams(f)
    ensures w.cmd.target == outfile && w.cmd.sources == [infile]
  {
    Invocation(Command("Speckle-Filter", 2 * workers, SpeckleParams(f), outfile, [infile]), outfile, RAISES)
  }

  /** `linear_to_db`: raises GptRuntimeError after three failing runs. */
  function LinearToDb(infile: string, outfile: string, workers: int): (w: Invocation)
    ensures w.policy == Policy(3, RaisesGpt) && w.out == outfile
    ensures w.cmd.op == "LinearToFromdB" && w.cmd.threads == 2 * workers && w.cmd.params == []
    ensures w.cmd.target == outfile && w.cmd.sources == [infile]
  {
    Invocation(Command("LinearToFromdB", 2 * workers, [], outfile, [infile]), outfile, RAISES)
  }

  /** The DEM parameters of terrain flattening and terrain correction. */
  function DemParams(d: Dem): (ps: seq<Param>)
    ensures |ps| == 4
  {
    [Param("demName", d.name), Param("demResamplingMethod", d.resampling),
     Param("externalDEMFile", d.file), Param("externalDEMNoDataValue", d.nodata)]
  }

  /** `terrain_flattening`: the only wrapper without the retry decorator;
    * raises GptRuntimeError after its single failing run. */
  function TerrainFlattening(infile: string, outfile: string, d: Dem, workers: int): (w: Invocation)
    ensures w.policy == Policy(1, RaisesGpt) && w.out == outfile
    ensures w.cmd.op == "Terrain-Flattening" && w.cmd.threads == 2 * workers
    ensures |w.cmd.params| >= 4 && w.cmd.params[..4] == DemParams(d)
    ensures HasParam(w.cmd, "additionalOverlap", "0.1") && HasParam(w.cmd, "oversamplingMultiple", "1.5")
    ensures w.cmd.target == outfile && w.cmd.sources == [infile]
  {
    var ps := DemParams(d) + [Param("additionalOverlap", "0.1"), Param("oversamplingMultiple", "1.5")];
    assert ps[4] in ps && ps[5] in ps;
    Invocation(Command("Terrain-Flattening", 2 * workers, ps, outfile, [infile]), outfile, Policy(1, RaisesGpt))
  }

  /** `terrain_correction`: geocoding at `resolution` metres; raises
    * GptRuntimeError after three failing runs. */
  function TerrainCorrection(infile: string, outfile: string, resolution: int, d: Dem, workers: int): (w: Invocation)
    ensures w.policy == Policy(3, RaisesGpt) && w.out == outfile
    ensures w.cmd.op == "Terrain-Correction" && w.cmd.threads == 2 * workers
    ensures |w.cmd.params| >= 4 && w.cmd.params[..4] == DemParams(d)
    ensures HasParam(w.cmd, "pixelSpacingInMeter", IntToString(resolution))
    ensures HasParam(w.cmd, "externalDEMApplyEGM", BoolToLower(d.egmCorrection))
    ensures w.cmd.target == outfile && w.cmd.sources == [infile]
  {
    var ps := DemParams(d) + [Param("externalDEMApplyEGM", BoolToLower(d.egmCorrection)),
      Param("imgResamplingMethod", d.imageResampling), Param("pixelSpacingInMeter", IntToString(resolution))];
    assert ps[4] in ps && ps[6] in ps;
    Invocation(Command("Terrain-Correction", 2 * workers, ps, outfile, [infile]), outfile, RAISES)
  }

  const LS_GRAPH := "graphs/S1_GRD2ARD/3_LSmap.xml"

  /** `ls_mask`: twice the ARD resolution, nearest-neighbour resampling;
    * raises RuntimeError (not GptRuntimeError) after three failing runs. */
  function LsMask(infile: string, outfile: string, ard: SingleArd, workers: int): (w: Invocation)
    ensures w.policy == Policy(3, RaisesRuntime) && w.out == outfile
    ensures w.cmd.op == LS_GRAPH && w.cmd.threads == 2 * workers
    ensures HasParam(w.cmd, "resol", IntToString(2 * ard.resolution))
    ensures HasParam(w.cmd, "image_resampling", "NEAREST_NEIGHBOUR")
    ensures HasParam(w.cmd, "input", infile) && HasParam(w.cmd, "output", outfile)
  {
    var ps := [Param("input", infile), Param("resol", IntToString(ard.resolution * 2)),
      Param("dem", ard.dem.name), Param("dem_file", ard.dem.file), Param("dem_nodata", ard.dem.nodata),
      Param("dem_resampling", ard.dem.resampling), Param("image_resampling", "NEAREST_NEIGHBOUR"),
      Param("egm_correction", BoolToLower(ard.dem.egmCorrection)), Param("output", outfile)];
    assert ps[0] in ps && ps[1] in ps && ps[6] in ps && ps[8] in ps;
    Invocation(Command(LS_GRAPH, 2 * workers, ps, "", []), outfile, Policy(3, RaisesRuntime))
  }

  const STACK_GRAPH := "graphs/S1_TS/1_BS_Stacking.xml"
  const STACK_HAALPHA_GRAPH := "graphs/S1_TS/1_BS_Stacking_HAalpha.xml"

  /** `create_stack`: with a (non-empty) band pattern the H-A-Alpha stacking
    * graph selects bands `<pattern>.*`; otherwise the polarisation stacking
    * graph selects the polarisation. Raises GptRuntimeError. */
  function CreateStack(filelist: string, outStack: string, polarisation: string, pattern: string, workers: int): (w: Invocation)
    ensures w.policy == Policy(3, RaisesGpt) && w.out == outStack
    ensures w.cmd.threads == 2 * workers
    ensures w.cmd.op == STACK_HAALPHA_GRAPH <==> pattern != ""
    ensures w.cmd.op == STACK_GRAPH <==> pattern == ""
    ensures pattern != "" ==> HasParam(w.cmd, "bandPattern", pattern + ".*")
    ensures pattern == "" ==> HasParam(w.cmd, "pol", polarisation)
    ensures HasParam(w.cmd, "filelist", filelist) && HasParam(w.cmd, "output", outStack)
  {
    if pattern != "" then
      var ps := [Param("filelist", filelist), Param("bandPattern", pattern + ".*"), Param("output", outStack)];
      assert ps[0] in ps && ps[1] in ps && ps[2] in ps;
      Invocation(Command(STACK_HAALPHA_GRAPH, 2 * workers, ps, "", []), outStack, RAISES)
    else
      var ps := [Param("filelist", filelist), Param("pol", polarisation), Param("output", outStack)];
      assert ps[0] in ps && ps[1] in ps && ps[2] in ps;
      Invocation(Command(STACK_GRAPH, 2 * workers, ps, "", []), outStack, RAISES)
  }

  /** `mt_speckle_filter`: raises GptRuntimeError after three failing runs. */
  function MtSpeckleFilter(inStack: string, outStack: string, f: SpeckleFilter, workers: int): (w: Invocation)
    ensures w.policy == Policy(3, RaisesGpt) && w.out == outStack
    ensures w.cmd.op == "Multi-Temporal-Speckle-Filter" && w.cmd.threads == 2 * workers
    ensures w.cmd.params == SpeckleParams(f)
    ensures w.cmd.target == outStack && w.cmd.sources == [inStack]
  {
    Invocation(Command("Multi-Temporal-Speckle-Filter", 2 * workers, SpeckleParams(f), outStack, [inStack]), outStack, RAISES)
  }
}
