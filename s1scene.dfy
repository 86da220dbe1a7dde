/** A Sentinel-1 scene (`ost/s1/s1scene.py`): the attributes decoded from
  * the product identifier by fixed positions, the relative orbit, the
  * polarisation table, where a downloaded scene is kept and where the ASF
  * data pool serves it, and the decisions of `create_ard` (product-type
  * check, elevation-model switch, output prefix, and the retry loop of the
  * burst-based branch). */
module S1Scene {
  import opened Errors
  import opened Strings
  import opened Config
  import opened Host
  import opened PythonSemantics
  import GrdToArd
  import CommonWrappers

  // ------------------------------------------------------------ identifier

  /** The attributes `Sentinel1Scene.__init__` derives from the identifier.
    * `acqMode` and `pType` are absent when the beam mode or the product
    * type is none the constructor knows (the attribute is then never set). */
  datatype Scene = Scene(
    sceneId: string,
    missionId: string, modeBeam: string, productType: string, resolutionClass: string,
    procLevel: string, polMode: string,
    startDate: string, startTime: string, stopDate: string, stopTime: string,
    absOrbit: string, dataTakeId: string, uniqueId: string,
    year: string, month: string, day: string, ondaClass: string,
    orbitOffset: int, satellite: string, relOrbit: int,
    polarisations: seq<string>,
    acqMode: Option<string>, pType: Option<string>)

  /** The number of orbits in one repeat cycle of a Sentinel-1 satellite. */
  const ORBITS_PER_CYCLE := 175

  /** The orbit offset and satellite name of each mission. */
  function Mission(missionId: string): (r: Option<(int, string)>)
    ensures r.Some? <==> missionId == "S1A" || missionId == "S1B"
    ensures missionId == "S1A" ==> r == Some((73, "Sentinel-1A"))
    ensures missionId == "S1B" ==> r == Some((27, "Sentinel-1B"))
  {
    if missionId == "S1A" then Some((73, "Sentinel-1A"))
    else if missionId == "S1B" then Some((27, "Sentinel-1B"))
    else None
  }

  /** The relative orbit: the absolute orbit less the mission's offset,
    * reduced modulo the cycle, counted from 1. Python's `%` with a positive
    * divisor never yields a negative number, like Dafny's. */
  function RelOrbit(absOrbit: int, offset: int): (r: int)
    ensures 1 <= r <= ORBITS_PER_CYCLE
    ensures (r - 1 + offset) % ORBITS_PER_CYCLE == absOrbit % ORBITS_PER_CYCLE
  {
    var k := (absOrbit - offset) % ORBITS_PER_CYCLE;
    assert absOrbit - offset == ORBITS_PER_CYCLE * ((absOrbit - offset) / ORBITS_PER_CYCLE) + k;
    ShiftMod(k + offset, absOrbit, (absOrbit - offset) / ORBITS_PER_CYCLE);
    k + 1
  }

  lemma ShiftMod(a: int, b: int, q: int)
    requires b == a + ORBITS_PER_CYCLE * q
    ensures a % ORBITS_PER_CYCLE == b % ORBITS_PER_CYCLE
    decreases if q >= 0 then q else -q
  {
    if q > 0 {
      ShiftMod(a, b - ORBITS_PER_CYCLE, q - 1);
    } else if q < 0 {
      ShiftMod(a, b + ORBITS_PER_CYCLE, q + 1);
    }
  }

  /** Two absolute orbits of one satellite lie on the same relative orbit
    * exactly when they are a whole number of cycles apart. */
  lemma SameTrack(a: int, b: int, offset: int)
    ensures RelOrbit(a, offset) == RelOrbit(b, offset) <==> a % ORBITS_PER_CYCLE == b % ORBITS_PER_CYCLE
  {
    var ra, rb := RelOrbit(a, offset), RelOrbit(b, offset);
    if a % ORBITS_PER_CYCLE == b % ORBITS_PER_CYCLE && ra != rb {
      ModInjective(ra - 1 + offset, rb - 1 + offset, offset);
    }
  }

  /** Within one cycle after `offset`, distinct numbers have distinct
    * residues. */
  lemma ModInjective(x: int, y: int, offset: int)
    requires offset <= x < offset + ORBITS_PER_CYCLE && offset <= y < offset + ORBITS_PER_CYCLE
    requires x % ORBITS_PER_CYCLE == y % ORBITS_PER_CYCLE
    ensures x == y
  {
    var qx, qy := x / ORBITS_PER_CYCLE, y / ORBITS_PER_CYCLE;
    assert x == ORBITS_PER_CYCLE * qx + x % ORBITS_PER_CYCLE;
    assert y == ORBITS_PER_CYCLE * qy + y % ORBITS_PER_CYCLE;
    assert x - y == ORBITS_PER_CYCLE * (qx - qy);
  }

  /** The polarisation modes the constructor accepts. */
  const POL_MODES: set<string> := {"SH", "SV", "DH", "DV", "HH", "HV", "VV", "VH"}

  /** The polarisations of a mode: a single mode (`S?`) gives its
    * co-polarisation, a dual mode (`D?`) the co- and the cross-polarisation,
    * a channel name itself; any other mode raises ValueError. */
  function Polarisations(polMode: string): (r: Result<seq<string>>)
    ensures r.Success? <==> polMode in POL_MODES
    ensures r.Failure? ==> r.error == ValueError
    ensures r.Success? && polMode[0] == 'S' ==> r.value == [[polMode[1], polMode[1]]]
    ensures r.Success? && polMode[0] == 'D' ==>
      r.value == [[polMode[1], polMode[1]], [polMode[1], if polMode[1] == 'H' then 'V' else 'H']]
    ensures r.Success? && polMode[0] in "HV" ==> r.value == [polMode]
  {
    if polMode == "SH" then Success(["HH"])
    else if polMode == "SV" then Success(["VV"])
    else if polMode == "DH" then Success(["HH", "HV"])
    else if polMode == "DV" then Success(["VV", "VH"])
    else if polMode == "HH" then Success(["HH"])
    else if polMode == "HV" then Success(["HV"])
    else if polMode == "VV" then Success(["VV"])
    else if polMode == "VH" then Success(["VH"])
    else Failure(ValueError)
  }

  /** Every polarisation of an accepted mode is one of the four channels,
    * and a mode yields at most two of them, never the same one twice. */
  lemma PolarisationsAreChannels(polMode: string)
    requires Polarisations(polMode).Success?
    ensures var ps := Polarisations(polMode).value;
      1 <= |ps| <= 2 && (forall p :: p in ps ==> p in {"HH", "HV", "VV", "VH"})
      && (|ps| == 2 ==> ps[0] != ps[1])
      && (|ps| == 2 <==> polMode[0] == 'D')
  {
  }

  function AcquisitionMode(modeBeam: string): (r: Option<string>)
    ensures r.Some? <==> modeBeam in {"IW", "SM", "EW", "WV"}
  {
    if modeBeam == "IW" then Some("Interferometric Wide Swath")
    else if modeBeam == "SM" then Some("Stripmap")
    else if modeBeam == "EW" then Some("Extra-Wide swath")
    else if modeBeam == "WV" then Some("Wave")
    else None
  }

  function ProductTypeName(productType: string): (r: Option<string>)
    ensures r.Some? <==> productType in {"GRD", "SLC", "OCN", "RAW"}
  {
    if productType == "GRD" then Some("Ground Range Detected (GRD)")
    else if productType == "SLC" then Some("Single-Look Complex (SLC)")
    else if productType == "OCN" then Some("Ocean")
    else if productType == "RAW" then Some("Raw Data (RAW)")
    else None
  }

  /** `Sentinel1Scene(scene_id)`: the attributes are fixed slices of the
    * identifier (clamped like Python slices). The two single-character
    * attributes are indexed, so an identifier of 12 characters or fewer
    * raises IndexError; an absolute orbit that is not a number raises
    * ValueError; a mission other than S1A/S1B leaves the orbit offset unset,
    * so the relative orbit raises AttributeError; an unknown polarisation
    * mode raises ValueError. */
  function Parse(id: string): (r: Result<Scene>)
    ensures r.Success? <==>
      |id| > 12 && ParseNat(Slice(id, 49, 55)).Success? && Mission(Slice(id, 0, 3)).Some?
      && Slice(id, 14, 16) in POL_MODES
    ensures |id| <= 12 ==> r == Failure(IndexError)
    ensures |id| > 12 && ParseNat(Slice(id, 49, 55)).Failure? ==> r == Failure(ValueError)
    ensures |id| > 12 && ParseNat(Slice(id, 49, 55)).Success? && Mission(Slice(id, 0, 3)).None? ==>
      r == Failure(AttributeError)
    ensures r.Failure? ==> r.error in {IndexError, ValueError, AttributeError}
    ensures r.Success? ==> var s := r.value;
      s.sceneId == id && s.missionId == id[..3] && s.modeBeam == Slice(id, 4, 6)
      && s.productType == Slice(id, 7, 10) && s.resolutionClass == [id[10]] && s.procLevel == [id[12]]
      && s.polMode == Slice(id, 14, 16) && s.startDate == Slice(id, 17, 25) && s.absOrbit == Slice(id, 49, 55)
      && s.year + s.month + s.day == s.startDate
    ensures r.Success? ==> var s := r.value;
      1 <= s.relOrbit <= ORBITS_PER_CYCLE && s.satellite in {"Sentinel-1A", "Sentinel-1B"}
      && s.relOrbit == RelOrbit(DigitsValue(s.absOrbit), s.orbitOffset)
      && Polarisations(s.polMode) == Success(s.polarisations)
  {
    if |id| <= 12 then Failure(IndexError)
    else
      var absOrbit := Slice(id, 49, 55);
      var orbit := ParseNat(absOrbit);
      if orbit.Failure? then Failure(ValueError)
      else
        var mission := Mission(Slice(id, 0, 3));
        if mission.None? then Failure(AttributeError)
        else
          var pols := Polarisations(Slice(id, 14, 16));
          if pols.Failure? then Failure(ValueError)
          else
            var n, offset := DigitsValue(absOrbit), mission.value.0;
            assert orbit.value == n;
            var rel := RelOrbit(n, offset);
            var startDate := Slice(id, 17, 25);
            assert Slice(id, 17, 21) + Slice(id, 21, 23) + Slice(id, 23, 25) == startDate;
            Success(Scene(
              id,
              Slice(id, 0, 3), Slice(id, 4, 6), Slice(id, 7, 10), [id[10]], [id[12]], Slice(id, 14, 16),
              startDate, Slice(id, 26, 32), Slice(id, 33, 41), Slice(id, 42, 48),
              absOrbit, DataTakeId(id), From(id, 63),
              Slice(id, 17, 21), Slice(id, 21, 23), Slice(id, 23, 25), Slice(id, 4, 14),
              offset, mission.value.1, rel,
              pols.value,
              AcquisitionMode(Slice(id, 4, 6)), ProductTypeName(Slice(id, 7, 10))))
  }

  const INFO_KEYS: set<string> := {"Scene_Identifier", "Satellite", "Acquisition_Mode", "Processing_Level",
    "Product_Type", "Acquisition_Date", "Start_Time", "Stop_Time", "Absolute_Orbit", "Relative_Orbit"}

  /** `info()`: the scene summary; an attribute the constructor never set
    * raises AttributeError. */
  function Info(s: Scene): (r: Result<map<string, string>>)
    ensures r.Success? <==> s.acqMode.Some? && s.pType.Some?
    ensures r.Success? ==> r.value.Keys == INFO_KEYS
    ensures r.Success? ==> r.value["Relative_Orbit"] == IntToString(s.relOrbit)
    ensures r.Success? ==> r.value["Scene_Identifier"] == s.sceneId && r.value["Absolute_Orbit"] == s.absOrbit
  {
    if s.acqMode.None? || s.pType.None? then Failure(AttributeError)
    else
      var m := map[
        "Scene_Identifier" := s.sceneId, "Satellite" := s.satellite, "Acquisition_Mode" := s.acqMode.value,
        "Processing_Level" := s.procLevel, "Product_Type" := s.pType.value, "Acquisition_Date" := s.startDate,
        "Start_Time" := s.startTime, "Stop_Time" := s.stopTime, "Absolute_Orbit" := s.absOrbit,
        "Relative_Orbit" := IntToString(s.relOrbit)];
      Success(m)
  }

  // ------------------------------------------------------------ identifier layout

  /** The fields of a Sentinel-1 product identifier
    * `MMM_BB_TTTR_LCPP_YYYYMMDDTHHMMSS_YYYYMMDDTHHMMSS_OOOOOO_DDDDDD_CCCC`:
    * mission, beam mode, product type, resolution class, processing level,
    * product class, polarisation mode, start and stop stamps, absolute orbit,
    * data-take identifier and the unique product code. */
  datatype IdFields = IdFields(
    mission: string, beam: string, ptype: string, res: char, level: char, cls: char, polMode: string,
    startDate: string, startTime: string, stopDate: string, stopTime: string,
    absOrbit: string, dataTake: string, unique: string)

  predicate WellSized(f: IdFields)
  {
    |f.mission| == 3 && |f.beam| == 2 && |f.ptype| == 3 && |f.polMode| == 2
    && |f.startDate| == 8 && |f.startTime| == 6 && |f.stopDate| == 8 && |f.stopTime| == 6
    && |f.absOrbit| == 6 && |f.dataTake| == 6
  }

  function IdHead(f: IdFields): string
  {
    f.mission + "_" + f.beam + "_" + f.ptype + [f.res] + "_" + [f.level, f.cls] + f.polMode + "_"
  }

  function Stamp(date: string, time: string): string
  {
    date + "T" + time + "_"
  }

  function IdOrbit(f: IdFields): string
  {
    f.absOrbit + "_" + f.dataTake + "_"
  }

  /** The identifier written from its fields. */
  function Compose(f: IdFields): string
  {
    IdHead(f) + Stamp(f.startDate, f.startTime) + Stamp(f.stopDate, f.stopTime) + IdOrbit(f) + f.unique
  }

  lemma Parts5(a: string, b: string, c: string, d: string, e: string)
    ensures var s := a + b + c + d + e; var i, j, k, l := |a|, |a| + |b|, |a| + |b| + |c|, |a| + |b| + |c| + |d|;
      s[..i] == a && s[i..j] == b && s[j..k] == c && s[k..l] == d && s[l..] == e
  {
    var s := a + b + c + d + e;
    assert s[..|a| + |b| + |c| + |d|] == a + b + c + d;
    assert (a + b + c + d)[..|a| + |b| + |c|] == a + b + c;
    assert (a + b + c)[..|a| + |b|] == a + b;
  }

  /** Each field of a well-formed identifier sits at its fixed position. */
  lemma {:induction false} Positions(f: IdFields)
    requires WellSized(f)
    ensures var id := Compose(f); |id| == 63 + |f.unique|
    ensures var id := Compose(f);
      id[..3] == f.mission && id[4..6] == f.beam && id[7..10] == f.ptype && id[10] == f.res
      && id[12] == f.level && id[14..16] == f.polMode && id[17..25] == f.startDate && id[26..32] == f.startTime
      && id[33..41] == f.stopDate && id[42..48] == f.stopTime && id[49..55] == f.absOrbit
      && id[56..62] == f.dataTake && id[63..] == f.unique
      && id[17..21] + id[21..23] + id[23..25] == f.startDate
  {
    var h, s1, s2, o := IdHead(f), Stamp(f.startDate, f.startTime), Stamp(f.stopDate, f.stopTime), IdOrbit(f);
    Parts5(h, s1, s2, o, f.unique);
    var id := Compose(f);
    assert id[..3] == h[..3] && id[4..6] == h[4..6] && id[7..10] == h[7..10] && id[14..16] == h[14..16];
    assert id[17..25] == s1[..8] && id[26..32] == s1[9..15];
    assert id[33..41] == s2[..8] && id[42..48] == s2[9..15];
    assert id[49..55] == o[..6] && id[56..62] == o[7..13];
  }

  /** Decoding an identifier written from its fields gives the fields back. */
  lemma ParseCompose(f: IdFields)
    requires WellSized(f) && AllDigits(f.absOrbit) && Mission(f.mission).Some? && f.polMode in POL_MODES
    ensures Parse(Compose(f)).Success?
    ensures var s := Parse(Compose(f)).value;
      s.missionId == f.mission && s.modeBeam == f.beam && s.productType == f.ptype
      && s.resolutionClass == [f.res] && s.procLevel == [f.level] && s.polMode == f.polMode
      && s.startDate == f.startDate && s.startTime == f.startTime && s.stopDate == f.stopDate
      && s.stopTime == f.stopTime && s.absOrbit == f.absOrbit && s.uniqueId == f.unique
      && s.dataTakeId == f.dataTake
      && s.relOrbit == RelOrbit(DigitsValue(f.absOrbit), Mission(f.mission).value.0)
  {
    Positions(f);
  }

  /** The identifier of the toolkit's own scene test. */
  const TEST_FIELDS := IdFields("S1A", "IW", "GRD", 'H', '1', 'S', "DV", "20141003", "040550", "20141003", "040619",
    "002660", "002F64", "EC04")

  /** The attributes the test reads from its scene: relative orbit 138 for
    * absolute orbit 2660 of Sentinel-1A. */
  lemma TestSceneParsed()
    ensures Parse(Compose(TEST_FIELDS)).Success?
    ensures var s := Parse(Compose(TEST_FIELDS)).value;
      s.sceneId == Compose(TEST_FIELDS) && s.satellite == "Sentinel-1A"
      && s.acqMode == Some("Interferometric Wide Swath") && s.procLevel == "1"
      && s.pType == Some("Ground Range Detected (GRD)") && s.startDate == "20141003"
      && s.startTime == "040550" && s.stopTime == "040619" && s.absOrbit == "002660" && s.relOrbit == 138
  {
    assert DigitsValue("002660") == 2660 by {
      assert "002660"[..5] == "00266" && "00266"[..4] == "0026" && "0026"[..3] == "002";
      assert "002"[..2] == "00" && "00"[..1] == "0" && "0"[..0] == "";
    }
    ParseCompose(TEST_FIELDS);
  }

  /** The summary the toolkit's scene test expects. */
  lemma TestSceneInfo()
    ensures Parse(Compose(TEST_FIELDS)).Success?
    ensures Info(Parse(Compose(TEST_FIELDS)).value) == Success(map[
      "Scene_Identifier" := Compose(TEST_FIELDS), "Satellite" := "Sentinel-1A",
      "Acquisition_Mode" := "Interferometric Wide Swath", "Processing_Level" := "1",
      "Product_Type" := "Ground Range Detected (GRD)", "Acquisition_Date" := "20141003",
      "Start_Time" := "040550", "Stop_Time" := "040619", "Absolute_Orbit" := "002660",
      "Relative_Orbit" := "138"])
  {
    TestSceneParsed();
    PrintedOrbit();
  }

  lemma PrintedOrbit()
    ensures IntToString(138) == "138"
  {
    assert NatToString(1) == "1";
    assert NatToString(13) == "1" + [DigitChar(3)];
    assert NatToString(138) == "13" + [DigitChar(8)];
  }

  // ------------------------------------------------------------ data take

  /** The data-take identifier as `__init__` slices it, `scene_id[57:62]`. */
  function DataTakeAsWritten(id: string): string
  {
    Slice(id, 57, 62)
  }

  /** The data-take identifier is the six characters after the absolute
    * orbit and its separator, `scene_id[56:62]`. */
  function DataTakeId(id: string): (r: string)
    ensures |id| >= 62 ==> |r| == 6
  {
    Slice(id, 56, 62)
  }

  /** The slice as written drops the first character of the data take:
    * for the toolkit's own test scene it gives "02F64" for "002F64". */
  lemma DataTakeTruncated(f: IdFields)
    requires WellSized(f)
    ensures DataTakeAsWritten(Compose(f)) == f.dataTake[1..] != f.dataTake
    ensures DataTakeId(Compose(f)) == f.dataTake
  {
    Positions(f);
    var id := Compose(f);
    assert id[57..62] == id[56..62][1..];
  }

  // ------------------------------------------------------------ download location

  /** The path fields of a downloaded scene file below the download
    * directory: `SAR/<product type>/<year>/<month>/<day>/<scene id><ext>`. */
  function DownloadFields(s: Scene, ext: string): (r: seq<string>)
    ensures |r| == 6 && r[5] == s.sceneId + ext
  {
    ["SAR", s.productType, s.year, s.month, s.day, s.sceneId + ext]
  }

  /** `_download_path`: the archive `<scene id>.zip` in the scene's
    * download directory. */
  function DownloadPath(dir: string, s: Scene): string
  {
    PathJoin(dir, Join(DownloadFields(s, ".zip"), '/'))
  }

  /** The download path with its `.zip` suffix replaced by `.downloaded`:
    * the marker a completed download leaves beside the archive. */
  function DownloadMarker(dir: string, s: Scene): string
  {
    PathJoin(dir, Join(DownloadFields(s, ".downloaded"), '/'))
  }

  /** A path joined below `dir` from separator-free fields splits into the
    * fields of `dir` followed by those fields. */
  lemma SplitBelow(dir: string, parts: seq<string>)
    requires |parts| >= 1 && forall k :: 0 <= k < |parts| ==> Free(parts[k], '/')
    ensures Split(PathJoin(dir, Join(parts, '/')), '/') == Split(dir, '/') + parts
  {
    SplitJoin(parts, '/');
    SplitConcat(dir, '/', Join(parts, '/'));
  }

  /** The fields of a scene's download path are separator-free when its
    * attributes are. */
  lemma FieldsFree(s: Scene, ext: string)
    requires Free(s.productType, '/') && Free(s.year, '/') && Free(s.month, '/') && Free(s.day, '/')
    requires Free(s.sceneId, '/') && Free(ext, '/')
    ensures forall k :: 0 <= k < 6 ==> Free(DownloadFields(s, ext)[k], '/')
  {
    assert Free("SAR", '/');
    assert Free(s.sceneId + ext, '/');
  }

  /** The download path and its marker lie in `dir` below `SAR/<product
    * type>/<year>/<month>/<day>`, named after the scene. */
  lemma DownloadLayout(dir: string, s: Scene)
    requires Free(s.productType, '/') && Free(s.year, '/') && Free(s.month, '/') && Free(s.day, '/')
    requires Free(s.sceneId, '/')
    ensures Split(DownloadPath(dir, s), '/') ==
      Split(dir, '/') + ["SAR", s.productType, s.year, s.month, s.day, s.sceneId + ".zip"]
    ensures Split(DownloadMarker(dir, s), '/') ==
      Split(dir, '/') + ["SAR", s.productType, s.year, s.month, s.day, s.sceneId + ".downloaded"]
  {
    FieldsFree(s, ".zip");
    FieldsFree(s, ".downloaded");
    SplitBelow(dir, DownloadFields(s, ".zip"));
    SplitBelow(dir, DownloadFields(s, ".downloaded"));
  }

  /** Scenes with different identifiers have different download paths and
    * different markers. */
  lemma DownloadPathsDistinct(dir: string, s: Scene, t: Scene)
    requires Free(s.productType, '/') && Free(s.year, '/') && Free(s.month, '/') && Free(s.day, '/')
    requires Free(t.productType, '/') && Free(t.year, '/') && Free(t.month, '/') && Free(t.day, '/')
    requires Free(s.sceneId, '/') && Free(t.sceneId, '/') && s.sceneId != t.sceneId
    ensures DownloadPath(dir, s) != DownloadPath(dir, t)
    ensures DownloadMarker(dir, s) != DownloadMarker(dir, t)
  {
    DownloadLayout(dir, s);
    DownloadLayout(dir, t);
    var n := |Split(dir, '/')| + 5;
    AppendInjective(s.sceneId, t.sceneId, ".zip");
    AppendInjective(s.sceneId, t.sceneId, ".downloaded");
    assert Split(DownloadPath(dir, s), '/')[n] != Split(DownloadPath(dir, t), '/')[n];
    assert Split(DownloadMarker(dir, s), '/')[n] != Split(DownloadMarker(dir, t), '/')[n];
  }

  /** Appending the same suffix keeps different strings different. */
  lemma AppendInjective(a: string, b: string, ext: string)
    requires a != b
    ensures a + ext != b + ext
  {
    if |a| == |b| {
      assert (a + ext)[..|a|] == a && (b + ext)[..|b|] == b;
    }
  }

  /** `get_path`: the download path, provided a download directory is given
    * and the scene's `.downloaded` marker exists there; FileNotFoundError
    * otherwise. */
  function GetPath(paths: set<string>, downloadDir: Option<string>, s: Scene): (r: Result<string>)
    ensures r.Success? <==> downloadDir.Some? && DownloadMarker(downloadDir.value, s) in paths
    ensures r.Success? ==> r.value == DownloadPath(downloadDir.value, s)
    ensures r.Failure? ==> r.error == FileNotFoundError
  {
    if downloadDir.Some? && DownloadMarker(downloadDir.value, s) in paths then
      Success(DownloadPath(downloadDir.value, s))
    else Failure(FileNotFoundError)
  }

  // ------------------------------------------------------------ ASF data pool

  /** The fields of a data-pool URL: scheme, empty authority separator,
    * host, directory, mission code and archive name. */
  function AsfFields(seg: string, code: string, id: string): seq<string>
  {
    ["https:", "", "datapool.asf.alaska.edu", seg, code, id + ".zip"]
  }

  /** The data-pool directory of a product type: `SLC`, or for GRD products
    * `GRD_<resolution class><first letter of the polarisation mode>`; an
    * empty polarisation mode raises IndexError, any other product type
    * leaves the segment unbound (NameError). */
  function AsfSegment(s: Scene): (r: Result<string>)
    ensures r.Success? <==> s.productType == "SLC" || (s.productType == "GRD" && |s.polMode| >= 1)
    ensures s.productType == "SLC" ==> r == Success("SLC")
    ensures s.productType == "GRD" && |s.polMode| >= 1 ==> r == Success("GRD_" + s.resolutionClass + [s.polMode[0]])
    ensures s.productType == "GRD" && |s.polMode| == 0 ==> r == Failure(IndexError)
    ensures s.productType != "GRD" && s.productType != "SLC" ==> r == Failure(NameError)
  {
    if s.productType == "SLC" then Success("SLC")
    else if s.productType == "GRD" then
      if |s.polMode| >= 1 then Success("GRD_" + s.resolutionClass + [s.polMode[0]]) else Failure(IndexError)
    else Failure(NameError)
  }

  /** The data-pool code of a mission: `SA` for S1A, `SB` for S1B. */
  function AsfMission(missionId: string): (r: Option<string>)
    ensures r.Some? <==> Mission(missionId).Some?
    ensures r.Some? ==> r.value == (if missionId == "S1A" then "SA" else "SB")
  {
    if missionId == "S1A" then Some("SA") else if missionId == "S1B" then Some("SB") else None
  }

  /** `asf_url`: `https://datapool.asf.alaska.edu/<segment>/<SA|SB>/<scene
    * id>.zip`. The segment's failure comes first; a mission other than
    * S1A/S1B leaves its code unbound and raises NameError when the URL is
    * formatted. */
  function AsfUrl(s: Scene): (r: Result<string>)
    ensures r.Success? <==> AsfSegment(s).Success? && AsfMission(s.missionId).Some?
    ensures AsfSegment(s).Failure? ==> r == Failure(AsfSegment(s).error)
    ensures AsfSegment(s).Success? && AsfMission(s.missionId).None? ==> r == Failure(NameError)
  {
    var seg := AsfSegment(s);
    var mission := AsfMission(s.missionId);
    if seg.Failure? then Failure(seg.error)
    else if mission.None? then Failure(NameError)
    else Success(Join(AsfFields(seg.value, mission.value, s.sceneId), '/'))
  }

  /** The URL is the data-pool host followed by the segment, the mission
    * code and the archive, and nothing else. */
  lemma AsfUrlLayout(s: Scene)
    requires AsfUrl(s).Success? && Free(s.resolutionClass, '/') && Free(s.polMode, '/') && Free(s.sceneId, '/')
    ensures Split(AsfUrl(s).value, '/') ==
      ["https:", "", "datapool.asf.alaska.edu", AsfSegment(s).value, AsfMission(s.missionId).value, s.sceneId + ".zip"]
  {
    var fields := AsfFields(AsfSegment(s).value, AsfMission(s.missionId).value, s.sceneId);
    assert Free("https:", '/') && Free("datapool.asf.alaska.edu", '/');
    assert Free(s.sceneId + ".zip", '/') && Free(AsfSegment(s).value, '/');
    assert forall k :: 0 <= k < 6 ==> Free(fields[k], '/');
    SplitJoin(fields, '/');
  }

  /** Every decoded scene of a product type with a data-pool directory has
    * a URL; any other product type has none. */
  lemma AsfUrlOfParsed(id: string)
    requires Parse(id).Success?
    ensures AsfUrl(Parse(id).value).Success? <==> Parse(id).value.productType in {"SLC", "GRD"}
  {
  }

  // ------------------------------------------------------------ ARD template

  /** `get_ard_parameters`: the template `graphs/ard_json/<product type>.
    * <ARD type>.json`, both lower-cased and with the ARD type's '-' turned
    * into '_'. */
  function TemplateName(productType: string, ardType: string): (r: string)
    ensures EndsWith(r, ".json") && StartsWith(r, "graphs/ard_json/")
    ensures |r| == |productType| + |ardType| + 22 && r[16 + |productType|] == '.'
    ensures forall i :: 17 + |productType| <= i < |r| - 5 ==> r[i] != '-'
  {
    var a := Lower(ReplaceChar(ardType, '-', '_'));
    var r := "graphs/ard_json/" + Lower(productType) + "." + a + ".json";
    assert r[|r| - 5..] == ".json" && r[..16] == "graphs/ard_json/";
    assert forall i :: 17 + |productType| <= i < |r| - 5 ==> r[i] == a[i - 17 - |productType|];
    r
  }

  /** The template depends on the product type only up to case and on the
    * ARD type only up to case and the choice of '-' or '_'. */
  lemma TemplateNormalised(productType: string, ardType: string)
    ensures TemplateName(Lower(productType), ReplaceChar(ardType, '-', '_')) == TemplateName(productType, ardType)
  {
    var p, a := Lower(productType), ReplaceChar(ardType, '-', '_');
    assert Lower(p) == p;
    assert ReplaceChar(a, '-', '_') == a;
  }

  // ------------------------------------------------------------ create_ard decisions

  /** The products `create_ard` returns: lists of layers for a burst-based
    * (SLC) scene, the backscatter and layover/shadow products for a GRD
    * scene. */
  datatype ArdDimap =
    | SlcDict(bs: seq<string>, ls: seq<string>, coh: seq<string>, pol: seq<string>)
    | GrdDict(bsPath: Option<string>, lsPath: Option<string>)

  const EMPTY_SLC := SlcDict([], [], [], [])

  /** The initial result dictionary: empty lists for SLC, empty paths for
    * GRD; any other product type raises TypeError. */
  function InitialOutputs(productType: string): (r: Result<ArdDimap>)
    ensures r.Success? <==> productType in {"GRD", "SLC"}
    ensures r.Failure? ==> r.error == TypeError
    ensures productType == "SLC" ==> r == Success(EMPTY_SLC)
    ensures productType == "GRD" ==> r == Success(GrdDict(Some(""), Some("")))
  {
    if productType == "SLC" then Success(EMPTY_SLC)
    else if productType == "GRD" then Success(GrdDict(Some(""), Some("")))
    else Failure(TypeError)
  }

  /** A processing subset: its WKT text and the latitude bounds (`miny`,
    * `maxy`) of its geometry. */
  datatype Subset = Subset(wkt: string, minY: real, maxY: real)

  /** The centre latitude of a subset as `create_ard` computes it:
    * `bounds[3] - bounds[1]`, the height of the box. */
  function SubsetLatAsWritten(sub: Subset): real
  {
    sub.maxY - sub.minY
  }

  /** The centre latitude of a subset: midway between its latitude bounds. */
  function SubsetCenterLat(sub: Subset): (r: real)
    ensures sub.minY <= sub.maxY ==> sub.minY <= r <= sub.maxY
    ensures r - sub.minY == sub.maxY - r
  {
    (sub.minY + sub.maxY) / 2.0
  }

  /** The SRTM elevation model covers latitudes from -59 to 59 degrees. */
  predicate OutsideSrtm(lat: real)
  {
    lat > 59.0 || lat < -59.0
  }

  /** A subset wholly inside one latitude band lies outside SRTM coverage
    * exactly when its centre does, while the box height tells nothing:
    * a one-degree box at 70 to 71 degrees north has height 1. */
  lemma SubsetLatitude()
    ensures var sub := Subset("POLYGON", 70.0, 71.0);
      !OutsideSrtm(SubsetLatAsWritten(sub)) && OutsideSrtm(SubsetCenterLat(sub))
    ensures forall sub: Subset :: sub.minY <= sub.maxY && (sub.minY > 59.0 || sub.maxY < -59.0) ==>
      OutsideSrtm(SubsetCenterLat(sub))
  {
  }

  /** `_get_center_lat(path)`: the footprint is read from the manifest of a
    * `.zip` archive or a `.SAFE` directory (the reading is the oracle
    * `footprintLat`); any other path leaves the manifest unbound
    * (NameError). */
  function CenterLatOf(path: string, footprintLat: string -> real): (r: Result<real>)
    ensures r.Success? <==> EndsWith(path, ".zip") || EndsWith(path, ".SAFE")
    ensures r.Success? ==> r.value == footprintLat(path)
    ensures r.Failure? ==> r.error == NameError
  {
    if EndsWith(path, ".zip") || EndsWith(path, ".SAFE") then Success(footprintLat(path))
    else Failure(NameError)
  }

  /** `str(filelist)`: the printed list, `['a', 'b']`. */
  function ListText(files: seq<string>): (r: string)
    ensures |r| >= 2 && r[|r| - 1] == ']'
  {
    "[" + Items(files) + "]"
  }

  function Items(files: seq<string>): string
  {
    if |files| == 0 then ""
    else if |files| == 1 then "'" + files[0] + "'"
    else "'" + files[0] + "', " + Items(files[1..])
  }

  /** For an SLC scene without a subset, `create_ard` hands the whole file
    * list to `_get_center_lat`; its printed form ends in `]`, never in
    * `.zip` or `.SAFE`, so the call always raises NameError. */
  lemma SlcCenterLatAsWritten(files: seq<string>, footprintLat: string -> real)
    ensures CenterLatOf(ListText(files), footprintLat) == Failure(NameError)
  {
    var t := ListText(files);
    if |t| >= 4 {
      assert t[|t| - 4..][3] == t[|t| - 1];
    }
    if |t| >= 5 {
      assert t[|t| - 5..][4] == t[|t| - 1];
    }
  }

  /** The scene's centre latitude from its first file, for either product
    * type; an empty file list raises IndexError. */
  function SceneCenterLat(files: seq<string>, footprintLat: string -> real): (r: Result<real>)
    ensures |files| == 0 ==> r == Failure(IndexError)
    ensures |files| > 0 ==> r == CenterLatOf(files[0], footprintLat)
  {
    if |files| == 0 then Failure(IndexError) else CenterLatOf(files[0], footprintLat)
  }

  /** The elevation model used outside SRTM coverage. */
  const ASTER_DEM := "ASTER 1sec GDEM"

  /** The switch as written: `ard_parameters['dem']` is set, a top-level
    * key beside the processing sections (`topDem`), while the settings
    * stay as they are. */
  function DemSwitchAsWritten(p: Processing, topDem: Option<string>, lat: real): (Processing, Option<string>)
  {
    (p, if OutsideSrtm(lat) then Some(ASTER_DEM) else topDem)
  }

  /** The switch: outside SRTM coverage the single-scene elevation model
    * becomes the ASTER model; nothing else changes. */
  function DemSwitch(p: Processing, lat: real): (r: Processing)
    ensures r.single.dem.name == (if OutsideSrtm(lat) then ASTER_DEM else p.single.dem.name)
    ensures r.timeseries == p.timeseries && r.single.(dem := p.single.dem) == p.single
    ensures r.single.dem.(name := p.single.dem.name) == p.single.dem
  {
    if OutsideSrtm(lat) then p.(single := p.single.(dem := p.single.dem.(name := ASTER_DEM))) else p
  }

  /** Terrain correction reads the elevation model from the single-scene
    * settings: with the switch as written its `demName` is the template's
    * at 60 degrees north, with the switch it is the ASTER model exactly
    * outside SRTM coverage. */
  lemma DemSwitchReachesGeocoding(p: Processing, topDem: Option<string>, lat: real,
                                  infile: string, outfile: string, workers: int)
    ensures var w := CommonWrappers.TerrainCorrection(infile, outfile, p.single.resolution,
        DemSwitchAsWritten(p, topDem, 60.0).0.single.dem, workers);
      w.cmd.params[0] == Param("demName", p.single.dem.name)
    ensures var w := CommonWrappers.TerrainCorrection(infile, outfile, p.single.resolution,
        DemSwitch(p, lat).single.dem, workers);
      w.cmd.params[0] == Param("demName", if OutsideSrtm(lat) then ASTER_DEM else p.single.dem.name)
  {
    var d1, d2 := DemSwitchAsWritten(p, topDem, 60.0).0.single.dem, DemSwitch(p, lat).single.dem;
    var w1 := CommonWrappers.TerrainCorrection(infile, outfile, p.single.resolution, d1, workers);
    var w2 := CommonWrappers.TerrainCorrection(infile, outfile, p.single.resolution, d2, workers);
    assert w1.cmd.params[0] == w1.cmd.params[..4][0] == CommonWrappers.DemParams(d1)[0];
    assert w2.cmd.params[0] == w2.cmd.params[..4][0] == CommonWrappers.DemParams(d2)[0];
  }

  /** The GRD output prefix: the given one or `<scene id>_<ARD product
    * type>`, with every space turned into '_'. */
  function GrdPrefix(outPrefix: Option<string>, sceneId: string, ardProductType: string): (r: string)
    ensures ' ' !in r
    ensures outPrefix.Some? ==> |r| == |outPrefix.value|
    ensures outPrefix.None? ==> |r| == |sceneId| + 1 + |ardProductType| && r[|sceneId|] == '_'
    ensures outPrefix.None? && ' ' !in sceneId ==> r[..|sceneId|] == sceneId
  {
    var base := if outPrefix.Some? then outPrefix.value else sceneId + "_" + ardProductType;
    var r := ReplaceChar(base, ' ', '_');
    assert outPrefix.None? ==> r[..|sceneId|] == ReplaceChar(sceneId, ' ', '_');
    r
  }

  /** A prefix already free of spaces is kept; so the prefix of a prefix is
    * itself. */
  lemma GrdPrefixIdempotent(outPrefix: Option<string>, sceneId: string, ardProductType: string, id2: string, t2: string)
    ensures var p := GrdPrefix(outPrefix, sceneId, ardProductType); GrdPrefix(Some(p), id2, t2) == p
  {
    var p := GrdPrefix(outPrefix, sceneId, ardProductType);
    assert ReplaceChar(p, ' ', '_') == p;
  }

  // ------------------------------------------------------------ SLC retry loop

  /** The number of attempts the burst-based branch makes at most. */
  const MAX_ATTEMPTS := 4

  /** `int(w / 2)`: halving truncated toward zero. */
  function Halve(w: int): (r: int)
    ensures w >= 0 ==> 0 <= w - 2 * r <= 1
    ensures w < 0 ==> -1 <= w - 2 * r <= 0
  {
    if w >= 0 then w / 2 else -((-w) / 2)
  }

  /** The worker count of attempt `k`: the initial count halved once per
    * failed attempt before it. */
  function WorkersAt(w0: int, k: nat): int
  {
    if k == 0 then w0 else Halve(WorkersAt(w0, k - 1))
  }

  function Pow2(k: nat): (r: nat)
    ensures r >= 1
  {
    if k == 0 then 1 else 2 * Pow2(k - 1)
  }

  /** For a non-negative initial count, attempt `k` runs with
    * floor(w0 / 2^k) workers: the count is the largest `h` with
    * `h * 2^k <= w0`. */
  lemma {:induction false} WorkersHalved(w0: int, k: nat)
    requires w0 >= 0
    ensures var h := WorkersAt(w0, k); h >= 0 && h * Pow2(k) <= w0 < (h + 1) * Pow2(k)
  {
    if k > 0 {
      WorkersHalved(w0, k - 1);
      HalveStep(WorkersAt(w0, k - 1), Pow2(k - 1), w0);
    }
  }

  /** Halving the quotient of a division by `p` gives the quotient of the
    * division by `2 p`. */
  lemma HalveStep(h: int, p: int, w0: int)
    requires h >= 0 && p >= 1 && h * p <= w0 < (h + 1) * p
    ensures var h2 := Halve(h); h2 >= 0 && h2 * (2 * p) <= w0 < (h2 + 1) * (2 * p)
  {
    var h2 := Halve(h);
    MulMono(2 * h2, h, p);
    MulMono(h + 1, 2 * h2 + 2, p);
    Twice(h2, p);
    Twice(h2 + 1, p);
  }

  lemma Twice(x: int, p: int)
    ensures x * (2 * p) == (2 * x) * p
  {
  }

  /** Multiplying by a non-negative factor keeps the order. */
  lemma MulMono(x: int, y: int, p: int)
    requires x <= y && p >= 0
    ensures x * p <= y * p
  {
    assert y * p - x * p == (y - x) * p;
  }

  /** Some attempt of the retry loop succeeds. */
  predicate SomeAttemptSucceeds(run: (nat, int) -> Result<()>, w0: int)
  {
    exists k :: 0 <= k < MAX_ATTEMPTS && run(k, WorkersAt(w0, k)).Success?
  }

  /** The retry loop of the burst-based branch. Attempt `k` calls the burst
    * processing with the current worker count (`run(k, workers)`); a
    * failure halves the count and counts the attempt, a success ends the
    * loop with the call's result (`None`: the burst processing returns
    * nothing). After four failures the loop stops with the initial empty
    * result and raises nothing. */
  method RetryBursts(run: (nat, int) -> Result<()>, w0: int) returns (outcome: Option<ArdDimap>, attempts: nat, workers: int)
    ensures 1 <= attempts <= MAX_ATTEMPTS
    ensures forall k :: 0 <= k < attempts - 1 ==> run(k, WorkersAt(w0, k)).Failure?
    ensures outcome.None? <==> run(attempts - 1, WorkersAt(w0, attempts - 1)).Success?
    ensures outcome.None? <==> SomeAttemptSucceeds(run, w0)
    ensures outcome.Some? ==> outcome.value == EMPTY_SLC && attempts == MAX_ATTEMPTS
    ensures workers == WorkersAt(w0, if outcome.None? then attempts - 1 else attempts)
  {
    outcome := Some(EMPTY_SLC);
    var failed := true;
    var counter := 0;
    workers := w0;
    while failed
      invariant 0 <= counter <= MAX_ATTEMPTS && workers == WorkersAt(w0, counter)
      invariant forall k :: 0 <= k < counter ==> run(k, WorkersAt(w0, k)).Failure?
      invariant failed ==> outcome == Some(EMPTY_SLC)
      invariant !failed ==> counter < MAX_ATTEMPTS && run(counter, workers).Success? && outcome.None?
      decreases MAX_ATTEMPTS + 1 - counter - (if failed then 0 else 1)
    {
      if counter > 3 {
        break;
      }
      var result := run(counter, workers);
      if result.Failure? {
        workers := Halve(workers);
        counter := counter + 1;
      } else {
        outcome := None;
        failed := false;
      }
    }
    attempts := if failed then counter else counter + 1;
  }

  /** The burst processing's parameters, `bursts_to_ards(burst_gdf,
    * config_file, executor_type, max_workers)`. */
  const BURSTS_TO_ARDS := Signature(["burst_gdf", "config_file", "executor_type", "max_workers"], 2)

  /** The call as written passes `config_dict=`, a keyword naming no
    * parameter, so every attempt raises TypeError. */
  const BURSTS_CALL := CallSite(0, ["burst_gdf", "config_dict", "executor_type", "max_workers"])

  lemma BurstsCallAsWritten()
    ensures Call(BURSTS_TO_ARDS, BURSTS_CALL) == Failure(TypeError)
    ensures !SomeAttemptSucceeds((k: nat, w: int) => Call(BURSTS_TO_ARDS, BURSTS_CALL), 8)
  {
    UnknownKeyword(BURSTS_TO_ARDS, BURSTS_CALL, "config_dict");
  }

  /** The corrected call names the configuration by its parameter name and
    * binds. */
  const BURSTS_CALL_FIXED := CallSite(0, ["burst_gdf", "config_file", "executor_type", "max_workers"])

  lemma BurstsCallFixed()
    ensures Call(BURSTS_TO_ARDS, BURSTS_CALL_FIXED) == Success(())
  {
    assert BURSTS_TO_ARDS.params[0..] == BURSTS_TO_ARDS.params;
  }

  // ------------------------------------------------------------ the scene object

  /** `Sentinel1Scene`: the decoded attributes, the ARD parameters loaded
    * from the template, and what the last `create_ard` left: its products
    * and the centre latitude it used. */
  class Sentinel1Scene {
    const scene: Scene
    var ardParameters: Processing
    var ardDimap: Option<ArdDimap>
    var centerLat: Option<real>

    /** A scene decoded by `Parse`, with the parameters of its template. */
    constructor (s: Scene, template: Processing)
      ensures scene == s && ardParameters == template && ardDimap == None && centerLat == None
    {
      scene := s;
      ardParameters := template;
      ardDimap := None;
      centerLat := None;
    }

    /** `create_ard`. Without a file list the downloaded archive is used
      * (FileNotFoundError when it is missing); a product type other than
      * GRD or SLC raises TypeError; the centre latitude comes from the
      * subset or, without one, from the first file's footprint; outside
      * SRTM coverage the ASTER elevation model is chosen. A GRD scene runs
      * the GRD chain in the fresh scratch directory `temp`, which is
      * removed afterwards, and raises RuntimeError unless the backscatter
      * product exists; an SLC scene runs the retry loop over the burst
      * processing `bursts`. */
    method CreateArd(m: Machine, downloadDir: Option<string>, outDir: string, filelist: Option<seq<string>>,
                     outPrefix: Option<string>, temp: string, subset: Option<Subset>,
                     footprintLat: string -> real, maxWorkers: int, cpus: int, lsVector: Option<string>,
                     bursts: (nat, int) -> Result<()>)
      returns (r: Result<Option<ArdDimap>>)
      requires m.Valid() && Separate(temp, outDir) && Outside(temp, m.paths)
      modifies this, m
      ensures m.Valid()
      ensures filelist.None? && GetPath(old(m.paths), downloadDir, scene).Failure? ==> r == Failure(FileNotFoundError)
      ensures filelist.Some? || GetPath(old(m.paths), downloadDir, scene).Success? ==>
        scene.productType !in {"GRD", "SLC"} ==> r == Failure(TypeError)
      ensures r.Success? ==> scene.productType in {"GRD", "SLC"} && ardDimap == r.value && centerLat.Some?
      ensures r.Success? ==> ardParameters == DemSwitch(old(ardParameters), centerLat.value)
      ensures r.Success? && subset.Some? ==> centerLat == Some(SubsetCenterLat(subset.value))
      ensures r.Success? && scene.productType == "GRD" ==>
        var out := PathJoin(outDir, GrdPrefix(outPrefix, scene.sceneId, old(ardParameters).single.productType) + "_BS");
        r.value.Some? && r.value.value.GrdDict?
        && (r.value.value.bsPath.Some? ==>
              r.value.value.bsPath.value == Dim(out) && Product(out) <= m.paths
              && PathJoin(outDir, ".processed") in m.markers)
      ensures r.Success? && scene.productType == "SLC" ==>
        (r.value.None? <==> SomeAttemptSucceeds(bursts, maxWorkers)) && (r.value.Some? ==> r.value.value == EMPTY_SLC)
      ensures Outside(temp, m.paths)
      ensures r.Failure? ==> forall p :: p in m.markers ==> p in old(m.markers) && m.markers[p] == old(m.markers)[p]
    {
      var files: seq<string>;
      if filelist.None? {
        var path := GetPath(m.paths, downloadDir, scene);
        if path.Failure? {
          return Failure(path.error);
        }
        files := [path.value];
      } else {
        files := filelist.value;
      }
      ardDimap := None;
      var initial := InitialOutputs(scene.productType);
      if initial.Failure? {
        return Failure(initial.error);
      }
      var lat: real;
      if subset.Some? {
        lat := SubsetCenterLat(subset.value);
      } else {
        // the product footprint is read from the downloaded archive
        var polygon := GetPath(m.paths, downloadDir, scene);
        if polygon.Failure? {
          return Failure(polygon.error);
        }
        var c := SceneCenterLat(files, footprintLat);
        if c.Failure? {
          return Failure(c.error);
        }
        lat := c.value;
      }
      centerLat := Some(lat);
      ardParameters := DemSwitch(ardParameters, lat);
      if scene.productType == "GRD" {
        r := GrdArd(m, files, outDir, outPrefix, temp, subset, cpus, lsVector);
      } else {
        r := SlcArd(m, downloadDir, temp, maxWorkers, bursts);
      }
    }

    /** The SLC branch of `create_ard`: the burst inventory is read from the
      * downloaded archive, then the retry loop runs. */
    method SlcArd(m: Machine, downloadDir: Option<string>, temp: string, maxWorkers: int,
                  bursts: (nat, int) -> Result<()>)
      returns (r: Result<Option<ArdDimap>>)
      requires m.Valid()
      modifies this, m
      ensures m.Valid() && ardParameters == old(ardParameters) && centerLat == old(centerLat)
      ensures r.Success? <==> GetPath(old(m.paths), downloadDir, scene).Success?
      ensures r.Failure? ==> r.error == FileNotFoundError && m.paths == old(m.paths) && m.markers == old(m.markers)
      ensures r.Success? ==> m.paths == WithoutTree(old(m.paths), temp)
      ensures r.Success? ==> forall p :: p in m.markers <==> p in old(m.markers) && p in m.paths
      ensures m.calls == old(m.calls)
      ensures r.Success? ==> ardDimap == r.value
      ensures r.Success? ==> (r.value.None? <==> SomeAttemptSucceeds(bursts, maxWorkers))
      ensures r.Success? && r.value.Some? ==> r.value.value == EMPTY_SLC
    {
      var annotations := GetPath(m.paths, downloadDir, scene);
      if annotations.Failure? {
        return Failure(annotations.error);
      }
      var outcome, attempts, workers := RetryBursts(bursts, maxWorkers);
      m.RemoveTree(temp);
      ardDimap := outcome;
      r := Success(outcome);
    }

    /** The GRD branch of `create_ard`. */
    method GrdArd(m: Machine, files: seq<string>, outDir: string, outPrefix: Option<string>, temp: string,
                  subset: Option<Subset>, cpus: int, lsVector: Option<string>)
      returns (r: Result<Option<ArdDimap>>)
      requires m.Valid() && Separate(temp, outDir)
      modifies this, m
      ensures m.Valid() && ardParameters == old(ardParameters) && centerLat == old(centerLat)
      ensures r.Success? ==> ardDimap == r.value
      ensures r.Success? ==>
        var out := PathJoin(outDir, GrdPrefix(outPrefix, scene.sceneId, ardParameters.single.productType) + "_BS");
        r.value.Some? && r.value.value.GrdDict?
        && (r.value.value.bsPath.Some? ==>
              r.value.value.bsPath.value == Dim(out) && Product(out) <= m.paths
              && PathJoin(outDir, ".processed") in m.markers)
      ensures Outside(temp, m.paths)
      ensures r.Failure? ==> forall p :: p in m.markers ==> p in old(m.markers) && m.markers[p] == old(m.markers)[p]
      ensures r.Failure? ==>
        r.error in {IndexError, TypeError, RuntimeError, FileNotFoundError} || r.error.GptRuntimeError?
    {
      var prefix := GrdPrefix(outPrefix, scene.sceneId, ardParameters.single.productType);
      var wkt := if subset.Some? then Some(subset.value.wkt) else None;
      var out, bordered := GrdToArd.ToArd(m, files, outDir, prefix, temp, ardParameters.single, wkt, cpus, cpus, lsVector);
      if out.Failure? {
        m.RemoveTree(temp);
        return Failure(out.error);
      }
      ardDimap := Some(GrdDict(out.value.product, out.value.lsMask));
      var bs := if out.value.product.Some? then out.value.product.value else "None";
      if !m.Exists(bs) {
        m.RemoveTree(temp);
        return Failure(RuntimeError);
      }
      ProductOutside(outDir, prefix + "_BS", temp);
      ProductOutside(outDir, ".processed", temp);
      m.RemoveTree(temp);
      r := Success(ardDimap);
    }
  }
}
