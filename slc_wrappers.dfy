/** The SLC-specific tool wrappers: burst import, H-A-Alpha decomposition,
  * calibration, co-registration and coherence. Each raises GptRuntimeError
  * when its command fails three times and otherwise returns the path of the
  * product it wrote (`<outfile>.dim`). */
module SlcWrappers {
  import opened Errors
  import opened Strings
  import opened Host
  import opened Config

  const SLC_POLICY: Policy := Policy(3, RaisesGpt)

  const IMPORT_GRAPH := "graphs/S1_SLC2ARD/S1_SLC_BurstSplit_AO.xml"
  const HAALPHA_SPK_GRAPH := "graphs/S1_SLC2ARD/S1_SLC_Deb_Spk_Halpha.xml"
  const HAALPHA_GRAPH := "graphs/S1_SLC2ARD/S1_SLC_Deb_Halpha.xml"
  const RTC_GRAPH := "graphs/S1_SLC2ARD/S1_SLC_TNR_CalBeta_Deb_ML_TF_Sub.xml"
  const GTC_GAMMA_GRAPH := "graphs/S1_SLC2ARD/S1_SLC_TNR_CalGamma_Deb_ML_Sub.xml"
  const GTC_SIGMA_GRAPH := "graphs/S1_SLC2ARD/S1_SLC_TNR_CalSigma_Deb_ML_Sub.xml"
  const COREG_GRAPH := "graphs/S1_SLC2ARD/S1_SLC_Coreg.xml"
  const COHERENCE_GRAPH := "graphs/S1_SLC2ARD/S1_SLC_Coh_Deb.xml"

  /** The polarisations imported from a burst: with coherence requested, the
    * longer of the backscatter and coherence polarisation lists (ties go to
    * backscatter), otherwise the backscatter list; spaces removed. */
  function ImportPolars(ard: SingleArd): (r: string)
    ensures ' ' !in r
    ensures var bs, coh := RemoveChar(ard.polarisation, ' '), RemoveChar(ard.coherenceBands, ' ');
      (r == bs || r == coh)
      && (!ard.coherence ==> r == bs)
      && (ard.coherence ==> |r| >= |bs| && |r| >= |coh| && (|bs| >= |coh| ==> r == bs))
  {
    var bs := RemoveChar(ard.polarisation, ' ');
    var coh := RemoveChar(ard.coherenceBands, ' ');
    if ard.coherence then (if |bs| >= |coh| then bs else coh) else bs
  }

  /** `burst_import`: one burst of one swath, with `2 * gpt_max_workers` threads. */
  function BurstImport(infile: string, outfile: string, swath: string, burst: string, config: ConfigDict): (w: Invocation)
    ensures w.policy == SLC_POLICY && w.out == outfile
    ensures w.cmd.op == IMPORT_GRAPH && w.cmd.threads == 2 * config.gptMaxWorkers
    ensures HasParam(w.cmd, "polar", ImportPolars(config.processing.single))
    ensures HasParam(w.cmd, "swath", swath) && HasParam(w.cmd, "burst", burst)
    ensures HasParam(w.cmd, "input", infile) && HasParam(w.cmd, "output", outfile)
  {
    var ps := [Param("input", infile), Param("polar", ImportPolars(config.processing.single)),
      Param("swath", swath), Param("burst", burst), Param("output", outfile)];
    assert ps[0] in ps && ps[1] in ps && ps[2] in ps && ps[3] in ps && ps[4] in ps;
    Invocation(Command(IMPORT_GRAPH, 2 * config.gptMaxWorkers, ps, "", []), outfile, SLC_POLICY)
  }

  /** The seven polarimetric speckle-filter parameters. */
  function PolSpeckleParams(f: PolSpeckleFilter): (ps: seq<Param>)
    ensures |ps| == 7
  {
    [Param("filter", f.filter), Param("filter_size", f.filterSize), Param("nr_looks", f.numLooks),
     Param("window_size", f.windowSize), Param("target_window_size", f.targetWindowSize),
     Param("pan_size", f.panSize), Param("sigma", f.sigma)]
  }

  /** `ha_alpha`: the speckle-filtering decomposition graph with the seven
    * filter parameters iff the polarimetric speckle filter is enabled,
    * otherwise the plain graph with input and output only. */
  function HaAlpha(infile: string, outfile: string, config: ConfigDict): (w: Invocation)
    ensures w.policy == SLC_POLICY && w.out == outfile
    ensures w.cmd.threads == 2 * config.gptMaxWorkers
    ensures |w.cmd.params| >= 2 && w.cmd.params[..2] == [Param("input", infile), Param("output", outfile)]
    ensures config.processing.single.removePolSpeckle <==> w.cmd.op == HAALPHA_SPK_GRAPH
    ensures config.processing.single.removePolSpeckle
      ==> |w.cmd.params| >= 2 && w.cmd.params[2..] == PolSpeckleParams(config.processing.single.polSpeckleFilter)
    ensures !config.processing.single.removePolSpeckle ==> w.cmd.op == HAALPHA_GRAPH && |w.cmd.params| == 2
  {
    var io := [Param("input", infile), Param("output", outfile)];
    var ard := config.processing.single;
    if ard.removePolSpeckle then
      var ps := io + PolSpeckleParams(ard.polSpeckleFilter);
      assert ps[..2] == io && ps[2..] == PolSpeckleParams(ard.polSpeckleFilter);
      Invocation(Command(HAALPHA_SPK_GRAPH, 2 * config.gptMaxWorkers, ps, "", []), outfile, SLC_POLICY)
    else
      Invocation(Command(HAALPHA_GRAPH, 2 * config.gptMaxWorkers, io, "", []), outfile, SLC_POLICY)
  }

  /** The multi-look factors of SLC calibration, `min(1, floor(res/10))`
    * azimuth and `min(5, 5 * azimuth)` range looks: at most one azimuth look,
    * and none at all below 10 m. */
  function LookFactors(resolution: int): (r: (int, int))
    ensures r.0 <= 1 && r.1 <= 5 && r.1 == 5 * r.0
    ensures resolution >= 10 ==> r == (1, 5)
    ensures 0 <= resolution < 10 ==> r == (0, 0)
    ensures resolution < 0 ==> r.0 < 0
  {
    var az := if 1 < resolution / 10 then 1 else resolution / 10;
    var rg := if 5 < az * 5 then 5 else az * 5;
    (az, rg)
  }

  /** `calibration` for SLC bursts: a graph per ARD product type, with the
    * DEM parameters only for RTC-gamma0; any other product type raises
    * TypeError before anything is run. */
  function SlcCalibration(infile: string, outfile: string, config: ConfigDict): (r: Result<Invocation>)
    ensures var pt := config.processing.single.productType;
      r.Success? <==> pt in {"RTC-gamma0", "GTC-gamma0", "GTC-sigma0"}
    ensures r.Failure? ==> r.error == TypeError
    ensures r.Success? ==> var w := r.value; var pt := config.processing.single.productType;
      w.policy == SLC_POLICY && w.out == outfile
      && w.cmd.threads == 2 * config.gptMaxWorkers
      && (w.cmd.op == RTC_GRAPH <==> pt == "RTC-gamma0")
      && (w.cmd.op == GTC_GAMMA_GRAPH <==> pt == "GTC-gamma0")
      && (w.cmd.op == GTC_SIGMA_GRAPH <==> pt == "GTC-sigma0")
      && (HasParam(w.cmd, "dem", config.processing.single.dem.name) <==> pt == "RTC-gamma0")
      && HasParam(w.cmd, "input", infile) && HasParam(w.cmd, "output", outfile)
  {
    var ard := config.processing.single;
    var (az, rg) := LookFactors(ard.resolution);
    var looks := [Param("range_looks", IntToString(rg)), Param("azimuth_looks", IntToString(az))];
    var io := [Param("region", ""), Param("input", infile), Param("output", outfile)];
    if ard.productType == "RTC-gamma0" then
      var dem := [Param("dem", ard.dem.name), Param("dem_file", ard.dem.file),
        Param("dem_nodata", ard.dem.nodata), Param("dem_resampling", ard.dem.resampling)];
      var ps := looks + dem + io;
      assert ps[2] in ps && ps[7] in ps && ps[8] in ps;
      Success(Invocation(Command(RTC_GRAPH, 2 * config.gptMaxWorkers, ps, "", []), outfile, SLC_POLICY))
    else if ard.productType == "GTC-gamma0" || ard.productType == "GTC-sigma0" then
      var graph := if ard.productType == "GTC-gamma0" then GTC_GAMMA_GRAPH else GTC_SIGMA_GRAPH;
      var ps := looks + io;
      assert ps[3] in ps && ps[4] in ps;
      assert forall i :: 0 <= i < |ps| ==> ps[i].name != "dem";
      Success(Invocation(Command(graph, 2 * config.gptMaxWorkers, ps, "", []), outfile, SLC_POLICY))
    else
      Failure(TypeError)
  }

  /** `coreg`: back-geocoding co-registration of a slave onto a master. */
  function Coreg(master: string, slave: string, outfile: string, config: ConfigDict): (w: Invocation)
    ensures w.policy == SLC_POLICY && w.out == outfile
    ensures w.cmd.op == "Back-Geocoding" && w.cmd.threads == 2 * config.gptMaxWorkers
    ensures w.cmd.target == outfile && w.cmd.sources == [master, slave]
    ensures HasParam(w.cmd, "maskOutAreaWithoutElevation", "false")
  {
    var d := config.processing.single.dem;
    var ps := [Param("demName", d.name), Param("demResamplingMethod", d.resampling),
      Param("externalDEMFile", d.file), Param("externalDEMNoDataValue", d.nodata),
      Param("maskOutAreaWithoutElevation", "false")];
    assert ps[4] in ps;
    Invocation(Command("Back-Geocoding", 2 * config.gptMaxWorkers, ps, outfile, [master, slave]), outfile, SLC_POLICY)
  }

  /** `coreg2`: co-registration through the co-registration graph. */
  function Coreg2(master: string, slave: string, outfile: string, config: ConfigDict): (w: Invocation)
    ensures w.policy == SLC_POLICY && w.out == outfile
    ensures w.cmd.op == COREG_GRAPH && w.cmd.threads == 2 * config.gptMaxWorkers
    ensures HasParam(w.cmd, "master", master) && HasParam(w.cmd, "slave", slave)
    ensures HasParam(w.cmd, "output", outfile)
  {
    var d := config.processing.single.dem;
    var ps := [Param("master", master), Param("slave", slave), Param("dem", d.name),
      Param("dem_file", d.file), Param("dem_nodata", d.nodata), Param("dem_resampling", d.resampling),
      Param("output", outfile)];
    assert ps[0] in ps && ps[1] in ps && ps[6] in ps;
    Invocation(Command(COREG_GRAPH, 2 * config.gptMaxWorkers, ps, "", []), outfile, SLC_POLICY)
  }

  /** `coherence`: polarisations from the coherence bands with spaces
    * removed, windows from the coherence settings. */
  function Coherence(infile: string, outfile: string, config: ConfigDict): (w: Invocation)
    ensures w.policy == SLC_POLICY && w.out == outfile
    ensures w.cmd.op == COHERENCE_GRAPH && w.cmd.threads == 2 * config.gptMaxWorkers
    ensures HasParam(w.cmd, "polar", RemoveChar(config.processing.single.coherenceBands, ' '))
    ensures HasParam(w.cmd, "azimuth_window", config.processing.single.coherenceAzimuth)
    ensures HasParam(w.cmd, "range_window", config.processing.single.coherenceRange)
    ensures HasParam(w.cmd, "input", infile) && HasParam(w.cmd, "output", outfile)
  {
    var ard := config.processing.single;
    var ps := [Param("azimuth_window", ard.coherenceAzimuth), Param("range_window", ard.coherenceRange),
      Param("polar", RemoveChar(ard.coherenceBands, ' ')), Param("input", infile), Param("output", outfile)];
    assert ps[0] in ps && ps[1] in ps && ps[2] in ps && ps[3] in ps && ps[4] in ps;
    Invocation(Command(COHERENCE_GRAPH, 2 * config.gptMaxWorkers, ps, "", []), outfile, SLC_POLICY)
  }

  /** What an SLC wrapper returns for its stage result: the product path
    * `<outfile>.dim` when the run succeeded, the raised error otherwise.
    * The source computes `outfile.with_suffix('.dim')`, which replaces a
    * suffix the base name already has; the two agree when the base name
    * holds no dot. */
  function SlcResult(r: Result<int>, outfile: string): (p: Result<string>)
    ensures p.Success? <==> r.Success?
    ensures p.Success? ==> p.value == Dim(outfile)
    ensures p.Failure? ==> p.error == r.error
  {
    if r.Success? then Success(Dim(outfile)) else Failure(r.error)
  }

  /** Running an SLC wrapper: its command is run up to three times; the
    * result is the product path, or GptRuntimeError when all three runs
    * failed. */
  method RunSlc(m: Machine, w: Invocation) returns (r: Result<string>)
    requires m.Valid() && w.policy == SLC_POLICY
    modifies m
    ensures m.Valid() && m.markers == old(m.markers)
    ensures var k := Runs(m.tool, w.cmd, |old(m.calls)|, w.policy);
      m.calls == old(m.calls) + Repeat(w.cmd, k)
      && m.paths == old(m.paths) + (if LeftOutput(m.tool, w.cmd, |old(m.calls)|, k) then Product(w.out) else {})
    ensures r == SlcResult(StageResult(m.tool, w.cmd, |old(m.calls)|, w.policy), w.out)
    ensures r.Failure? ==> r.error.GptRuntimeError?
  {
    var s := m.Stage(w.cmd, w.out, w.policy);
    r := SlcResult(s, w.out);
  }
}
