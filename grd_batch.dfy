/** The GRD batch driver: the inventory grouped into one work unit per
  * track and acquisition date, each unit turned into one analysis-ready
  * product unless its completion marker already exists, the results merged
  * back into the inventory, and the per-track timescans and the mosaics of
  * the time-series and timescan layers planned from the files on disk. */
module GrdBatch {
  import opened Errors
  import opened Strings
  import opened Host
  import opened TextOrder
  import opened Config
  import S1Scene
  import GrdToArd

  /** One inventory row: the columns the batch reads. */
  datatype Row = Row(identifier: string, track: string, date: string)

  /** The output columns a work unit fills in (`out_dimap`, `out_ls_mask`). */
  datatype Outputs = Outputs(dimap: Option<string>, lsMask: Option<string>)

  // ------------------------------------------------------- unique and filters

  predicate Distinct(s: seq<string>)
  {
    forall i, j :: 0 <= i < j < |s| ==> s[i] != s[j]
  }

  /** The position of the first occurrence of `x` in `s` (`|s|` if none). */
  function FirstIndex(s: seq<string>, x: string): (i: nat)
    ensures i <= |s| && (i < |s| ==> s[i] == x)
    ensures forall j :: 0 <= j < i ==> s[j] != x
  {
    if |s| == 0 || s[0] == x then 0 else 1 + FirstIndex(s[1..], x)
  }

  /** A first occurrence inside a prefix is the first occurrence overall. */
  lemma FirstIndexPrefix(s: seq<string>, n: nat, x: string)
    requires n <= |s| && x in s[..n]
    ensures FirstIndex(s, x) == FirstIndex(s[..n], x) < n
  {
  }

  /** pandas' `Series.unique()`: each value once, in the order of its first
    * appearance. */
  function Unique(s: seq<string>): (r: seq<string>)
    ensures Distinct(r)
    ensures forall x :: x in r <==> x in s
    ensures forall i, j :: 0 <= i < j < |r| ==> FirstIndex(s, r[i]) < FirstIndex(s, r[j])
    decreases |s|
  {
    if |s| == 0 then []
    else
      var init, last := s[..|s| - 1], s[|s| - 1];
      var u := Unique(init);
      assert s == init + [last];
      forall x | x in u ensures FirstIndex(s, x) == FirstIndex(init, x) < |s| - 1 {
        FirstIndexPrefix(s, |s| - 1, x);
      }
      if last in u then u
      else
        assert FirstIndex(s, last) == |s| - 1;
        u + [last]
  }

  /** The `relativeorbit` column. */
  function TrackColumn(inv: seq<Row>): (r: seq<string>)
    ensures forall t :: t in r <==> exists k :: 0 <= k < |inv| && inv[k].track == t
  {
    var r := seq(|inv|, k requires 0 <= k < |inv| => inv[k].track);
    assert forall k :: 0 <= k < |inv| ==> r[k] == inv[k].track;
    r
  }

  /** The `acquisitiondate` column of the rows of one track. */
  function DateColumn(inv: seq<Row>, track: string): (r: seq<string>)
    ensures forall d :: d in r <==> exists k :: 0 <= k < |inv| && inv[k].track == track && inv[k].date == d
  {
    if |inv| == 0 then []
    else
      var init, last := inv[..|inv| - 1], inv[|inv| - 1];
      var r := DateColumn(init, track);
      assert forall k :: 0 <= k < |init| ==> init[k] == inv[k];
      if last.track == track then r + [last.date] else r
  }

  /** The `identifier` column of the rows of one track and date, in
    * inventory order. */
  function Ids(inv: seq<Row>, track: string, date: string): (r: seq<string>)
    ensures forall id :: id in r <==> exists k :: 0 <= k < |inv| && inv[k] == Row(id, track, date)
  {
    if |inv| == 0 then []
    else
      var init, last := inv[..|inv| - 1], inv[|inv| - 1];
      var r := Ids(init, track, date);
      assert forall k :: 0 <= k < |init| ==> init[k] == inv[k];
      if last.track == track && last.date == date then r + [last.identifier] else r
  }

  // --------------------------------------------------------------- grouping

  /** The distinct tracks, in order of first appearance. */
  function TrackList(inv: seq<Row>): seq<string>
  {
    Unique(TrackColumn(inv))
  }

  /** The distinct acquisition dates of one track, in order of first
    * appearance. */
  function DateList(inv: seq<Row>, track: string): seq<string>
  {
    Unique(DateColumn(inv, track))
  }

  /** One entry of the processing dictionary: a track and, per acquisition
    * date, the identifiers acquired on it. */
  datatype TrackGroup = TrackGroup(track: string, acquisitions: seq<seq<string>>)

  function GroupOf(inv: seq<Row>, track: string): TrackGroup
  {
    var dates := DateList(inv, track);
    TrackGroup(track, seq(|dates|, j requires 0 <= j < |dates| => Ids(inv, track, dates[j])))
  }

  /** The processing dictionary, its keys in insertion order. */
  function Grouping(inv: seq<Row>): seq<TrackGroup>
  {
    var tracks := TrackList(inv);
    seq(|tracks|, i requires 0 <= i < |tracks| => GroupOf(inv, tracks[i]))
  }

  /** `_create_processing_dict`: for each distinct track, the list of
    * identifier lists, one per distinct acquisition date of that track. */
  method CreateProcessingDict(inv: seq<Row>) returns (groups: seq<TrackGroup>)
    ensures groups == Grouping(inv)
  {
    var tracklist := Unique(TrackColumn(inv));
    groups := [];
    for i := 0 to |tracklist|
      invariant groups == seq(i, k requires 0 <= k < i => GroupOf(inv, tracklist[k]))
    {
      var track := tracklist[i];
      var allIds: seq<seq<string>> := [];
      var acquisitionDates := Unique(DateColumn(inv, track));
      for j := 0 to |acquisitionDates|
        invariant allIds == seq(j, k requires 0 <= k < j => Ids(inv, track, acquisitionDates[k]))
      {
        allIds := allIds + [Ids(inv, track, acquisitionDates[j])];
      }
      groups := groups + [TrackGroup(track, allIds)];
    }
  }

  /** Every row lands in the list of its own track and date: the key of its
    * track and the position of its date both exist and are unique. */
  lemma RowGrouped(inv: seq<Row>, k: nat)
    requires k < |inv|
    ensures var g, row := Grouping(inv), inv[k];
      var i := FirstIndex(TrackList(inv), row.track);
      var j := FirstIndex(DateList(inv, row.track), row.date);
      i < |g| && g[i].track == row.track && Distinct(TrackList(inv))
      && j < |g[i].acquisitions| && row.identifier in g[i].acquisitions[j]
      && Distinct(DateList(inv, row.track))
  {
    var row := inv[k];
    assert row.track in TrackColumn(inv);
    assert row.date in DateColumn(inv, row.track);
    assert row.identifier in Ids(inv, row.track, row.date);
  }

  /** Every listed identifier comes from a row of that list's track and
    * date. */
  lemma GroupSound(inv: seq<Row>, i: nat, j: nat, id: string)
    requires i < |Grouping(inv)| && j < |Grouping(inv)[i].acquisitions|
    requires id in Grouping(inv)[i].acquisitions[j]
    ensures exists k :: (0 <= k < |inv|
      && inv[k] == Row(id, Grouping(inv)[i].track, DateList(inv, Grouping(inv)[i].track)[j]))
  {
  }

  // ------------------------------------------------------------ work units

  /** One work unit: a track and the scenes of one acquisition. */
  datatype Unit = Unit(track: string, scenes: seq<string>)

  function UnitsOfGroup(g: TrackGroup): seq<Unit>
  {
    seq(|g.acquisitions|, j requires 0 <= j < |g.acquisitions| => Unit(g.track, g.acquisitions[j]))
  }

  /** The units in dictionary order, the acquisitions of each track in turn. */
  function UnitsOf(groups: seq<TrackGroup>): seq<Unit>
  {
    if |groups| == 0 then [] else UnitsOf(groups[..|groups| - 1]) + UnitsOfGroup(groups[|groups| - 1])
  }

  /** `lists_to_process`: one `(track, scenes)` pair per acquisition. */
  method ListsToProcess(groups: seq<TrackGroup>) returns (units: seq<Unit>)
    ensures units == UnitsOf(groups)
  {
    units := [];
    for i := 0 to |groups|
      invariant units == UnitsOf(groups[..i])
    {
      assert groups[..i + 1][..i] == groups[..i];
      var g := groups[i];
      for j := 0 to |g.acquisitions|
        invariant units == UnitsOf(groups[..i]) + UnitsOfGroup(g)[..j]
      {
        assert UnitsOfGroup(g)[..j + 1] == UnitsOfGroup(g)[..j] + [Unit(g.track, g.acquisitions[j])];
        units := units + [Unit(g.track, g.acquisitions[j])];
      }
      assert UnitsOfGroup(g)[..|g.acquisitions|] == UnitsOfGroup(g);
    }
    assert groups[..|groups|] == groups;
  }

  /** Each unit is one acquisition of one group. */
  lemma {:induction false} UnitOrigin(groups: seq<TrackGroup>, u: Unit)
    requires u in UnitsOf(groups)
    ensures exists i, j :: (0 <= i < |groups| && 0 <= j < |groups[i].acquisitions|
      && u == Unit(groups[i].track, groups[i].acquisitions[j]))
    decreases |groups|
  {
    var init, last := groups[..|groups| - 1], groups[|groups| - 1];
    if u in UnitsOf(init) {
      UnitOrigin(init, u);
      var i, j :| 0 <= i < |init| && 0 <= j < |init[i].acquisitions|
        && u == Unit(init[i].track, init[i].acquisitions[j]);
      assert groups[i] == init[i];
    } else {
      var j :| 0 <= j < |UnitsOfGroup(last)| && UnitsOfGroup(last)[j] == u;
      assert u == Unit(groups[|groups| - 1].track, groups[|groups| - 1].acquisitions[j]);
    }
  }

  /** A unit of the inventory holds at least one scene (so taking its first
    * scene never fails), and all its scenes are rows of its track acquired
    * on one date. */
  lemma UnitOfInventory(inv: seq<Row>, u: Unit)
    requires u in UnitsOf(Grouping(inv))
    ensures |u.scenes| > 0
    ensures exists d :: (d in DateList(inv, u.track)
      && forall id :: id in u.scenes ==> exists k :: 0 <= k < |inv| && inv[k] == Row(id, u.track, d))
  {
    var g := Grouping(inv);
    UnitOrigin(g, u);
    var i, j :| 0 <= i < |g| && 0 <= j < |g[i].acquisitions| && u == Unit(g[i].track, g[i].acquisitions[j]);
    AcquisitionOfInventory(inv, i, j);
  }

  /** The `j`-th acquisition of the `i`-th track holds at least one scene,
    * and all of them are rows of that track acquired on its `j`-th date. */
  lemma AcquisitionOfInventory(inv: seq<Row>, i: nat, j: nat)
    requires i < |Grouping(inv)| && j < |Grouping(inv)[i].acquisitions|
    ensures var g := Grouping(inv)[i];
      var d := DateList(inv, g.track)[j];
      |g.acquisitions[j]| > 0 && d in DateList(inv, g.track)
      && forall id :: id in g.acquisitions[j] ==> exists k :: 0 <= k < |inv| && inv[k] == Row(id, g.track, d)
  {
    var g := Grouping(inv)[i];
    var d := DateList(inv, g.track)[j];
    assert d in DateColumn(inv, g.track);
    var k :| 0 <= k < |inv| && inv[k].track == g.track && inv[k].date == d;
    assert inv[k].identifier in g.acquisitions[j];
    forall id | id in g.acquisitions[j]
      ensures exists k :: 0 <= k < |inv| && inv[k] == Row(id, g.track, d)
    {
      GroupSound(inv, i, j, id);
    }
  }

  // ----------------------------------------------------------- unit layout

  /** `opj(processing_dir, track, acquisition_date)`. */
  function UnitDir(processingDir: string, track: string, date: string): string
  {
    PathJoin(PathJoin(processingDir, track), date)
  }

  /** `<date>_<track>`. */
  function FileId(date: string, track: string): string
  {
    date + "_" + track
  }

  function BsFile(dir: string, fileId: string): string
  {
    PathJoin(dir, fileId + "_BS.dim")
  }

  /** The product `<fileId>_BS` in `dir` is the file `BsFile`. */
  lemma BsFileIsDim(dir: string, fileId: string)
    ensures Dim(PathJoin(dir, fileId + "_BS")) == BsFile(dir, fileId)
  {
    ConcatAssoc(dir + "/", fileId + "_BS", ".dim");
    ConcatAssoc(fileId, "_BS", ".dim");
  }

  function LsFile(dir: string, fileId: string): string
  {
    PathJoin(dir, fileId + "_LS.gpkg")
  }

  function UnitMarker(dir: string): string
  {
    PathJoin(dir, ".processed")
  }

  /** A unit's marker lies two levels below the processing directory, in
    * the directory of its track and then of its date. */
  lemma UnitMarkerLayout(processingDir: string, track: string, date: string)
    requires Free(track, '/') && Free(date, '/')
    ensures Split(UnitMarker(UnitDir(processingDir, track, date)), '/')
      == Split(processingDir, '/') + [track, date, ".processed"]
  {
    var fields := [track, date, ".processed"];
    JoinCons(date, [".processed"], '/');
    JoinCons(track, [date, ".processed"], '/');
    assert fields == [track] + [date, ".processed"];
    assert UnitMarker(UnitDir(processingDir, track, date)) == PathJoin(processingDir, Join(fields, '/'));
    assert Free(".processed", '/');
    S1Scene.SplitBelow(processingDir, fields);
  }

  /** Units of different tracks or dates have different markers, so the
    * marker of one never makes another one skip. */
  lemma UnitMarkersDistinct(processingDir: string, t1: string, d1: string, t2: string, d2: string)
    requires Free(t1, '/') && Free(d1, '/') && Free(t2, '/') && Free(d2, '/')
    requires t1 != t2 || d1 != d2
    ensures UnitMarker(UnitDir(processingDir, t1, d1)) != UnitMarker(UnitDir(processingDir, t2, d2))
  {
    UnitMarkerLayout(processingDir, t1, d1);
    UnitMarkerLayout(processingDir, t2, d2);
    var a, b := UnitMarker(UnitDir(processingDir, t1, d1)), UnitMarker(UnitDir(processingDir, t2, d2));
    var n := |Split(processingDir, '/')|;
    if t1 != t2 {
      assert Split(a, '/')[n] != Split(b, '/')[n];
    } else {
      assert Split(a, '/')[n + 1] != Split(b, '/')[n + 1];
    }
  }

  // ------------------------------------------------------------- one unit

  /** `Sentinel1Scene(list_of_scenes[0]).start_date`. */
  function StartDate(u: Unit): (r: Result<string>)
    ensures |u.scenes| == 0 ==> r == Failure(IndexError)
    ensures |u.scenes| > 0 ==> r.Success? == S1Scene.Parse(u.scenes[0]).Success?
  {
    if |u.scenes| == 0 then Failure(IndexError)
    else
      var s := S1Scene.Parse(u.scenes[0]);
      if s.Failure? then Failure(s.error) else Success(s.value.startDate)
  }

  /** `Sentinel1Scene(i).get_path(download_dir)`: the scene parsed and its
    * downloaded archive located. */
  function ScenePath(paths: set<string>, downloadDir: Option<string>, id: string): (r: Result<string>)
    ensures r.Success? ==> downloadDir.Some? && S1Scene.Parse(id).Success?
    ensures r.Success? ==> r.value == S1Scene.DownloadPath(downloadDir.value, S1Scene.Parse(id).value)
    ensures S1Scene.Parse(id).Failure? ==> r == Failure(S1Scene.Parse(id).error)
    ensures S1Scene.Parse(id).Success? && r.Failure? ==> r.error == FileNotFoundError
  {
    var s := S1Scene.Parse(id);
    if s.Failure? then Failure(s.error) else S1Scene.GetPath(paths, downloadDir, s.value)
  }

  /** The task's copy of the output columns after a unit wrote `o` into
    * every row whose identifier is one of its scenes. */
  function Assigned(rows: seq<Row>, outs: seq<Outputs>, scenes: seq<string>, o: Outputs): (r: seq<Outputs>)
    requires |outs| == |rows|
    ensures |r| == |rows|
    ensures forall i :: 0 <= i < |rows| && rows[i].identifier !in scenes ==> r[i] == outs[i]
    ensures forall i :: 0 <= i < |rows| && rows[i].identifier in scenes ==> r[i] == o
  {
    seq(|rows|, i requires 0 <= i < |rows| => if rows[i].identifier in scenes then o else outs[i])
  }

  /** The loop over `inventory_df.iterrows()` and the unit's scenes that
    * writes `o` into the matching rows. */
  method AssignRows(rows: seq<Row>, outs: seq<Outputs>, scenes: seq<string>, o: Outputs) returns (res: seq<Outputs>)
    requires |outs| == |rows|
    ensures res == Assigned(rows, outs, scenes, o)
  {
    res := outs;
    for i := 0 to |rows|
      invariant |res| == |rows|
      invariant forall k :: 0 <= k < i ==> res[k] == Assigned(rows, outs, scenes, o)[k]
      invariant forall k :: i <= k < |rows| ==> res[k] == outs[k]
    {
      for j := 0 to |scenes|
        invariant |res| == |rows|
        invariant forall k :: 0 <= k < i ==> res[k] == Assigned(rows, outs, scenes, o)[k]
        invariant forall k :: i < k < |rows| ==> res[k] == outs[k]
        invariant res[i] == if rows[i].identifier in scenes[..j] then o else outs[i]
      {
        assert scenes[..j + 1] == scenes[..j] + [scenes[j]];
        if rows[i].identifier == scenes[j] {
          res := res[i := o];
        }
      }
      assert scenes[..|scenes|] == scenes;
    }
  }

  /** What `_execute_grd_batch` returns: its copy of the inventory's output
    * columns and the unit's scenes. */
  datatype UnitResult = UnitResult(inventory: seq<Outputs>, scenes: seq<string>)

  /** The outputs recorded for an acquisition processed earlier: each path
    * if that file exists, None otherwise. */
  function FoundOutputs(paths: set<string>, dir: string, fileId: string): Outputs
  {
    Outputs(if BsFile(dir, fileId) in paths then Some(BsFile(dir, fileId)) else None,
            if LsFile(dir, fileId) in paths then Some(LsFile(dir, fileId)) else None)
  }

  /** The branch for an acquisition whose marker exists: nothing is
    * processed, and the rows of its scenes get the outputs found on disk.
    * With a non-empty inventory, every scene is parsed on the way. */
  method SkipUnit(m: Machine, rows: seq<Row>, outs: seq<Outputs>, u: Unit, dir: string, fileId: string)
    returns (r: Result<UnitResult>, ghost unitOut: Outputs)
    requires |outs| == |rows|
    ensures unitOut == FoundOutputs(m.paths, dir, fileId)
    ensures r.Failure? <==> |rows| > 0 && Traverse(S1Scene.Parse, u.scenes).Failure?
    ensures r.Failure? ==> r.error == Traverse(S1Scene.Parse, u.scenes).error
    ensures r.Success? ==> r.value == UnitResult(Assigned(rows, outs, u.scenes, unitOut), u.scenes)
  {
    var found := FoundOutputs(m.paths, dir, fileId);
    unitOut := found;
    if |rows| > 0 {
      var parsed := Traverse(S1Scene.Parse, u.scenes);
      if parsed.Failure? {
        return Failure(parsed.error), unitOut;
      }
    }
    var res := AssignRows(rows, outs, u.scenes, found);
    r := Success(UnitResult(res, u.scenes));
  }

  /** The branch for an acquisition not processed yet: the downloaded
    * archives located, `grd_to_ard` run on them, and the rows of its scenes
    * given the product and mask it returns. */
  method RunUnit(m: Machine, rows: seq<Row>, outs: seq<Outputs>, u: Unit, downloadDir: Option<string>,
                 dir: string, fileId: string, temp: string, ard: SingleArd, subset: Option<string>,
                 gptMaxWorkers: int, cpus: int, lsVector: Option<string>)
    returns (r: Result<UnitResult>, ghost unitOut: Outputs)
    requires m.Valid() && |outs| == |rows|
    modifies m
    ensures m.Valid()
    ensures var files := Traverse((id: string) => ScenePath(old(m.paths), downloadDir, id), u.scenes);
      files.Failure? ==> r == Failure(files.error) && m.calls == old(m.calls) && m.paths == old(m.paths)
    ensures r.Success? ==> r.value == UnitResult(Assigned(rows, outs, u.scenes, unitOut), u.scenes)
    ensures r.Success? && unitOut.dimap.Some? ==>
      unitOut.dimap.value == BsFile(dir, fileId) && UnitMarker(dir) in m.markers
      && m.markers[UnitMarker(dir)] == MARKER_TEXT
    ensures r.Success? && unitOut.dimap.Some? ==> unitOut.lsMask == if ard.createLsMask then lsVector else None
    ensures r.Success? && unitOut.dimap.None? ==> unitOut.lsMask.None? && m.markers == old(m.markers)
  {
    var paths := m.paths;
    var files := Traverse((id: string) => ScenePath(paths, downloadDir, id), u.scenes);
    if files.Failure? {
      return Failure(files.error), Outputs(None, None);
    }
    var out, bordered := GrdToArd.ToArd(m, files.value, dir, fileId, temp, ard, subset, gptMaxWorkers, cpus, lsVector);
    if out.Failure? {
      return Failure(out.error), Outputs(None, None);
    }
    var produced := Outputs(out.value.product, out.value.lsMask);
    unitOut := produced;
    BsFileIsDim(dir, fileId);
    var res := AssignRows(rows, outs, u.scenes, produced);
    r := Success(UnitResult(res, u.scenes));
  }

  /** `_execute_grd_batch` for one unit: its output directory and file id
    * come from the first scene's start date; an acquisition whose marker
    * exists is not processed again. */
  method ExecuteUnit(m: Machine, rows: seq<Row>, outs: seq<Outputs>, u: Unit, downloadDir: Option<string>,
                     processingDir: string, temp: string, ard: SingleArd, subset: Option<string>,
                     gptMaxWorkers: int, cpus: int, lsVector: Option<string>)
    returns (r: Result<UnitResult>, ghost unitOut: Outputs)
    requires m.Valid() && |outs| == |rows|
    modifies m
    ensures m.Valid()
    ensures StartDate(u).Failure? ==>
      r == Failure(StartDate(u).error) && m.calls == old(m.calls) && m.paths == old(m.paths)
    ensures StartDate(u).Success? ==>
      var dir := UnitDir(processingDir, u.track, StartDate(u).value);
      var fileId := FileId(StartDate(u).value, u.track);
      (UnitMarker(dir) in old(m.paths) ==>
        m.calls == old(m.calls) && m.paths == old(m.paths) && m.markers == old(m.markers)
        && unitOut == FoundOutputs(old(m.paths), dir, fileId))
      && (r.Success? && unitOut.dimap.Some? ==> unitOut.dimap.value == BsFile(dir, fileId) && UnitMarker(dir) in m.paths)
    ensures r.Success? ==> r.value == UnitResult(Assigned(rows, outs, u.scenes, unitOut), u.scenes)
  {
    var date := StartDate(u);
    if date.Failure? {
      return Failure(date.error), Outputs(None, None);
    }
    var dir := UnitDir(processingDir, u.track, date.value);
    var fileId := FileId(date.value, u.track);
    if m.Exists(UnitMarker(dir)) {
      r, unitOut := SkipUnit(m, rows, outs, u, dir, fileId);
    } else {
      r, unitOut := RunUnit(m, rows, outs, u, downloadDir, dir, fileId, temp, ard, subset, gptMaxWorkers, cpus, lsVector);
    }
  }

  /** The `retry(tries=4)` decorator on `_execute_grd_batch`. */
  const UNIT_TRIES := 4

  /** A unit under the retry decorator: it runs again after any exception,
    * at most four times in all, and the last exception escapes. */
  method RetriedUnit(m: Machine, rows: seq<Row>, outs: seq<Outputs>, u: Unit, downloadDir: Option<string>,
                     processingDir: string, temp: string, ard: SingleArd, subset: Option<string>,
                     gptMaxWorkers: int, cpus: int, lsVector: Option<string>)
    returns (r: Result<UnitResult>, attempts: nat, ghost unitOut: Outputs)
    requires m.Valid() && |outs| == |rows|
    modifies m
    ensures m.Valid()
    ensures 1 <= attempts <= UNIT_TRIES
    ensures r.Failure? ==> attempts == UNIT_TRIES
    ensures r.Success? ==> r.value == UnitResult(Assigned(rows, outs, u.scenes, unitOut), u.scenes)
  {
    r, unitOut := ExecuteUnit(m, rows, outs, u, downloadDir, processingDir, temp, ard, subset, gptMaxWorkers, cpus, lsVector);
    attempts := 1;
    while r.Failure? && attempts < UNIT_TRIES
      invariant m.Valid()
      invariant 1 <= attempts <= UNIT_TRIES
      invariant r.Success? ==> r.value == UnitResult(Assigned(rows, outs, u.scenes, unitOut), u.scenes)
      decreases UNIT_TRIES - attempts
    {
      r, unitOut := ExecuteUnit(m, rows, outs, u, downloadDir, processingDir, temp, ard, subset, gptMaxWorkers, cpus, lsVector);
      attempts := attempts + 1;
    }
  }

  // ---------------------------------------------------------------- merging

  /** `row.identifier.lower() in scene.lower()`. */
  predicate Claims(scene: string, id: string)
  {
    Contains(Lower(scene), Lower(id))
  }

  predicate ClaimedBy(id: string, scenes: seq<string>)
  {
    exists k :: 0 <= k < |scenes| && Claims(scenes[k], id)
  }

  /** The inventory's output columns after the merge of one unit's copy:
    * every row claimed by one of the unit's scenes takes the copy's
    * values, every other row keeps its own. */
  function Merged(rows: seq<Row>, current: seq<Outputs>, scenes: seq<string>, copy: seq<Outputs>): (r: seq<Outputs>)
    requires |current| == |rows| && |copy| == |rows|
    ensures |r| == |rows|
  {
    seq(|rows|, i requires 0 <= i < |rows| => if ClaimedBy(rows[i].identifier, scenes) then copy[i] else current[i])
  }

  /** A row whose identifier is one of a unit's scenes ends up with the
    * outputs that unit recorded; a row merely claimed by a scene (its
    * identifier a substring of the scene's, ignoring case) ends up with the
    * value it had when the unit was dispatched. */
  lemma MergedUnitRows(rows: seq<Row>, current: seq<Outputs>, snapshot: seq<Outputs>, scenes: seq<string>,
                       o: Outputs, i: nat)
    requires |current| == |rows| && |snapshot| == |rows| && i < |rows|
    ensures rows[i].identifier in scenes ==> Merged(rows, current, scenes, Assigned(rows, snapshot, scenes, o))[i] == o
    ensures rows[i].identifier !in scenes && ClaimedBy(rows[i].identifier, scenes) ==>
      Merged(rows, current, scenes, Assigned(rows, snapshot, scenes, o))[i] == snapshot[i]
    ensures !ClaimedBy(rows[i].identifier, scenes) ==>
      Merged(rows, current, scenes, Assigned(rows, snapshot, scenes, o))[i] == current[i]
  {
    var id := rows[i].identifier;
    if id in scenes {
      var k :| 0 <= k < |scenes| && scenes[k] == id;
      assert OccursAt(Lower(id), Lower(id), 0);
      assert Claims(scenes[k], id);
    }
  }

  /** The first row that one of the scenes claims, or the number of rows. */
  function FirstClaimed(rows: seq<Row>, scenes: seq<string>): (k: nat)
    ensures k <= |rows|
    ensures forall i :: 0 <= i < k ==> !ClaimedBy(rows[i].identifier, scenes)
    ensures k < |rows| ==> ClaimedBy(rows[k].identifier, scenes)
    decreases |rows|
  {
    if |rows| == 0 then 0
    else if ClaimedBy(rows[0].identifier, scenes) then 0
    else 1 + FirstClaimed(rows[1..], scenes)
  }

  /** The merge as written: each claimed row takes the copy's product and
    * mask, and then `temp_inv.at[i, 'out_tif']` is read. With the copy
    * holding an `out_tif` column this is `Merged`; without one the read
    * raises KeyError at the first claimed row, after that row took its
    * values, and the error ends the merge. */
  function MergedAsWritten(rows: seq<Row>, current: seq<Outputs>, scenes: seq<string>, copy: seq<Outputs>,
                           tifColumn: bool): seq<Outputs>
    requires |current| == |rows| && |copy| == |rows|
  {
    if tifColumn then Merged(rows, current, scenes, copy)
    else
      var k := FirstClaimed(rows, scenes);
      if k < |rows| then current[k := copy[k]] else current
  }

  /** Without an `out_tif` column in the copy, as when `to_tif` is off and
    * the unit was processed in this run, a unit claiming two rows merges
    * only the first: the later row keeps the output it had, while
    * `MergedUnitRows` gives every row of the unit the unit's outputs. */
  lemma MergeStopsAtFirstRow(rows: seq<Row>, current: seq<Outputs>, scenes: seq<string>,
                              copy: seq<Outputs>, i: nat, j: nat)
    requires |current| == |rows| && |copy| == |rows| && i < j < |rows|
    requires ClaimedBy(rows[i].identifier, scenes) && ClaimedBy(rows[j].identifier, scenes)
    ensures FirstClaimed(rows, scenes) <= i
    ensures MergedAsWritten(rows, current, scenes, copy, false)[j] == current[j]
    ensures MergedAsWritten(rows, current, scenes, copy, true)[j] == copy[j]
  {
  }

  /** The inventory data frame, whose output columns the batch updates in
    * place. */
  class Inventory {
    const rows: seq<Row>
    var outputs: seq<Outputs>

    ghost predicate Valid()
      reads this
    {
      |outputs| == |rows|
    }

    constructor (rows: seq<Row>, outputs: seq<Outputs>)
      requires |outputs| == |rows|
      ensures Valid() && this.rows == rows && this.outputs == outputs
    {
      this.rows := rows;
      this.outputs := outputs;
    }

    /** The merge loop over the rows and the unit's scenes. */
    method Merge(scenes: seq<string>, copy: seq<Outputs>)
      requires Valid() && |copy| == |rows|
      modifies this
      ensures Valid()
      ensures outputs == Merged(rows, old(outputs), scenes, copy)
    {
      ghost var before := outputs;
      for i := 0 to |rows|
        invariant |outputs| == |rows|
        invariant forall k :: 0 <= k < i ==> outputs[k] == Merged(rows, before, scenes, copy)[k]
        invariant forall k :: i <= k < |rows| ==> outputs[k] == before[k]
      {
        for j := 0 to |scenes|
          invariant |outputs| == |rows|
          invariant forall k :: 0 <= k < i ==> outputs[k] == Merged(rows, before, scenes, copy)[k]
          invariant forall k :: i < k < |rows| ==> outputs[k] == before[k]
          invariant outputs[i] == if ClaimedBy(rows[i].identifier, scenes[..j]) then copy[i] else before[i]
        {
          assert forall k :: 0 <= k < j ==> scenes[..j + 1][k] == scenes[..j][k];
          if Claims(scenes[j], rows[i].identifier) {
            assert scenes[..j + 1][j] == scenes[j];
            outputs := outputs[i := copy[i]];
          }
        }
        assert scenes[..|scenes|] == scenes;
      }
    }

    /** The merge loop as written (`ost/s1/grd_batch.py:228-233`):
      * `tifColumn` says whether the unit's copy has an `out_tif` column. A
      * KeyError at the first claimed row ends the loop; the batch logs it
      * and goes on with the next unit. */
    method MergeAsWritten(scenes: seq<string>, copy: seq<Outputs>, tifColumn: bool) returns (r: Result<()>)
      requires Valid() && |copy| == |rows|
      modifies this
      ensures Valid()
      ensures outputs == MergedAsWritten(rows, old(outputs), scenes, copy, tifColumn)
      ensures r.Failure? <==> !tifColumn && FirstClaimed(rows, scenes) < |rows|
      ensures r.Failure? ==> r.error == KeyError
    {
      ghost var before := outputs;
      for i := 0 to |rows|
        invariant |outputs| == |rows|
        invariant forall k :: 0 <= k < i ==> outputs[k] == Merged(rows, before, scenes, copy)[k]
        invariant forall k :: i <= k < |rows| ==> outputs[k] == before[k]
        invariant !tifColumn ==> forall k :: 0 <= k < i ==> !ClaimedBy(rows[k].identifier, scenes)
      {
        for j := 0 to |scenes|
          invariant |outputs| == |rows|
          invariant forall k :: 0 <= k < i ==> outputs[k] == Merged(rows, before, scenes, copy)[k]
          invariant forall k :: i < k < |rows| ==> outputs[k] == before[k]
          invariant outputs[i] == if ClaimedBy(rows[i].identifier, scenes[..j]) then copy[i] else before[i]
          invariant !tifColumn ==> !ClaimedBy(rows[i].identifier, scenes[..j])
        {
          assert forall k :: 0 <= k < j ==> scenes[..j + 1][k] == scenes[..j][k];
          if Claims(scenes[j], rows[i].identifier) {
            assert scenes[..j + 1][j] == scenes[j];
            outputs := outputs[i := copy[i]];
            if !tifColumn {
              // `temp_inv.at[i, 'out_tif']`
              assert ClaimedBy(rows[i].identifier, scenes);
              FirstClaimedAt(rows, scenes, i);
              assert outputs == before[i := copy[i]];
              return Failure(KeyError);
            }
          }
        }
        assert scenes[..|scenes|] == scenes;
      }
      if !tifColumn {
        assert outputs == before;
      }
      r := Success(());
    }
  }

  /** A claimed row with no claimed row before it is the first. */
  lemma FirstClaimedAt(rows: seq<Row>, scenes: seq<string>, i: nat)
    requires i < |rows| && ClaimedBy(rows[i].identifier, scenes)
    requires forall k :: 0 <= k < i ==> !ClaimedBy(rows[k].identifier, scenes)
    ensures FirstClaimed(rows, scenes) == i
  {
  }

  // ------------------------------------------------------------ the batch

  /** `int(os.cpu_count() / 4)`: the outer worker count, zero on a host
    * with fewer than four processors. */
  function OuterWorkers(cpus: nat): (w: nat)
    ensures w * 4 <= cpus < w * 4 + 4
    ensures w == 0 <==> cpus < 4
  {
    cpus / 4
  }

  predicate ClaimedByUnit(id: string, units: seq<Unit>)
  {
    exists k :: 0 <= k < |units| && ClaimedBy(id, units[k].scenes)
  }

  /** A scene no unit of the first `k + 1` claims is claimed neither by the
    * first `k` nor by the next. */
  lemma UnclaimedBefore(id: string, units: seq<Unit>, k: nat)
    requires k < |units| && !ClaimedByUnit(id, units[..k + 1])
    ensures !ClaimedByUnit(id, units[..k]) && !ClaimedBy(id, units[k].scenes)
  {
    assert units[..k + 1][k] == units[k];
    assert forall j :: 0 <= j < k ==> units[..k + 1][j] == units[..k][j];
  }

  /** `grd_to_ard_batch`: `executorType` is `config_dict['executor_type']`,
    * None when the dictionary lacks the key, which raises KeyError before
    * any unit runs. Otherwise every unit of the inventory is run (under the
    * retry decorator, on a copy of the inventory taken at dispatch), a unit
    * that still fails is logged and skipped, and the copy of every unit
    * that succeeds is merged back with the corrected `Inventory.Merge`.
    * Rows no unit claims keep their outputs. */
  method GrdToArdBatch(m: Machine, inv: Inventory, downloadDir: Option<string>, processingDir: string,
                       temp: string, ard: SingleArd, subset: Option<string>, gptMaxWorkers: int,
                       executorType: Option<string>, cpus: nat, lsVector: Option<string>)
    returns (r: Result<()>, workers: nat, failed: seq<Unit>)
    requires m.Valid() && inv.Valid()
    modifies m, inv
    ensures m.Valid() && inv.Valid()
    ensures r.Failure? <==> executorType.None?
    ensures r.Failure? ==>
      r.error == KeyError && failed == []
      && m.calls == old(m.calls) && m.paths == old(m.paths) && m.markers == old(m.markers)
      && inv.outputs == old(inv.outputs)
    ensures workers == OuterWorkers(cpus)
    ensures forall u :: u in failed ==> u in UnitsOf(Grouping(inv.rows))
    ensures forall i :: 0 <= i < |inv.rows| && !ClaimedByUnit(inv.rows[i].identifier, UnitsOf(Grouping(inv.rows))) ==>
      inv.outputs[i] == old(inv.outputs)[i]
  {
    var groups := CreateProcessingDict(inv.rows);
    var units := ListsToProcess(groups);
    workers := OuterWorkers(cpus);
    failed := [];
    if executorType.None? {
      return Failure(KeyError), workers, failed;
    }
    var snapshot := inv.outputs;
    for k := 0 to |units|
      invariant m.Valid() && inv.Valid()
      invariant forall u :: u in failed ==> u in units
      invariant forall i :: 0 <= i < |inv.rows| && !ClaimedByUnit(inv.rows[i].identifier, units[..k]) ==>
        inv.outputs[i] == snapshot[i]
    {
      var r, attempts, unitOut := RetriedUnit(m, inv.rows, snapshot, units[k], downloadDir, processingDir, temp,
                                              ard, subset, gptMaxWorkers, cpus, lsVector);
      if r.Success? {
        inv.Merge(r.value.scenes, r.value.inventory);
      } else {
        failed := failed + [units[k]];
      }
      forall i | 0 <= i < |inv.rows| && !ClaimedByUnit(inv.rows[i].identifier, units[..k + 1]) {
        UnclaimedBefore(inv.rows[i].identifier, units, k);
      }
    }
    assert units[..|units|] == units;
    r := Success(());
  }

  // ---------------------------------------------------------------- timescan

  /** The polarisations the time-series loops visit, in order. */
  const POLARISATIONS: seq<string> := ["VV", "VH", "HH", "HV"]

  function TimescanDir(processingDir: string, track: string): string
  {
    PathJoin(PathJoin(processingDir, track), "Timescan")
  }

  function TimescanMarker(processingDir: string, track: string, pol: string): string
  {
    PathJoin(TimescanDir(processingDir, track), "." + pol + ".processed")
  }

  /** The time-series stack of one track and polarisation. */
  function TimeseriesStack(processingDir: string, track: string, pol: string): string
  {
    PathJoin(PathJoin(PathJoin(processingDir, track), "Timeseries"), "Timeseries_bs_" + pol + ".vrt")
  }

  /** `os.path.basename(f).split(sep)[1]`, for a base name holding `sep`. */
  function SecondField(f: string, sep: char): string
    requires |Split(LastField(f, '/'), sep)| >= 2
  {
    Split(LastField(f, '/'), sep)[1]
  }

  /** The sorted backscatter layers `*bs.<pol>.tif` of a track directory. */
  function TrackLayers(paths: set<string>, processingDir: string, track: string, pol: string): seq<string>
  {
    SortSet(Glob(paths, PathJoin(processingDir, track), "", "bs." + pol + ".tif"))
  }

  /** Such a layer's base name holds a dot, so its second field exists. */
  lemma TrackLayersDated(paths: set<string>, processingDir: string, track: string, pol: string)
    ensures forall f :: f in TrackLayers(paths, processingDir, track, pol) ==> |Split(LastField(f, '/'), '.')| >= 2
  {
    var dir, suf := PathJoin(processingDir, track), "bs." + pol + ".tif";
    forall f | f in TrackLayers(paths, processingDir, track, pol)
      ensures |Split(LastField(f, '/'), '.')| >= 2
    {
      MatchName(f, dir, "", "", suf);
      var name := LastField(f, '/');
      var i := |name| - |suf| + 2;
      assert name[i] == suf[2] == '.';
      SplitTwo(name, '.', i);
    }
  }

  /** The settings every timescan of a run shares: whether it rescales to
    * the output data type, the metrics it computes and whether outliers
    * are removed first. */
  datatype TscanOptions = TscanOptions(rescale: bool, metrics: seq<string>, removeOutliers: bool)

  /** One call of the timescan computation: the stack it reads, the prefix
    * of its outputs, the run's settings, and the acquisition dates of the
    * stack's layers. */
  datatype TimescanJob = TimescanJob(track: string, pol: string, stack: string, outPrefix: string,
                                     rescale: bool, metrics: seq<string>, removeOutliers: bool,
                                     dates: seq<string>)

  /** A timescan is computed when its marker is absent and its stack exists. */
  predicate TimescanDue(paths: set<string>, processingDir: string, track: string, pol: string)
  {
    TimescanMarker(processingDir, track, pol) !in paths && TimeseriesStack(processingDir, track, pol) in paths
  }

  function TimescanJobOf(paths: set<string>, processingDir: string, track: string, pol: string, opts: TscanOptions): TimescanJob
  {
    var layers := TrackLayers(paths, processingDir, track, pol);
    TrackLayersDated(paths, processingDir, track, pol);
    TimescanJob(track, pol, TimeseriesStack(processingDir, track, pol),
                PathJoin(TimescanDir(processingDir, track), "bs." + pol), opts.rescale, opts.metrics, opts.removeOutliers,
                LayerScanDates(layers))
  }

  /** The second dot-separated field of each layer's base name, in order. */
  function LayerScanDates(layers: seq<string>): (r: seq<string>)
    requires forall f :: f in layers ==> |Split(LastField(f, '/'), '.')| >= 2
  {
    seq(|layers|, k requires 0 <= k < |layers| => SecondField(layers[k], '.'))
  }

  /** The timescans of one track, for the polarisations `pols` in turn. */
  function PolTimescans(paths: set<string>, processingDir: string, track: string, pols: seq<string>,
                        opts: TscanOptions): (r: seq<TimescanJob>)
    ensures forall j :: j in r ==> (j.track == track && j.pol in pols && TimescanDue(paths, processingDir, track, j.pol)
                                    && j == TimescanJobOf(paths, processingDir, track, j.pol, opts))
  {
    if |pols| == 0 then []
    else
      var pol := pols[|pols| - 1];
      PolTimescans(paths, processingDir, track, pols[..|pols| - 1], opts)
      + if TimescanDue(paths, processingDir, track, pol) then [TimescanJobOf(paths, processingDir, track, pol, opts)] else []
  }

  /** The timescans of the tracks `tracks` in turn. */
  function TimescanPlan(paths: set<string>, processingDir: string, tracks: seq<string>, opts: TscanOptions): (r: seq<TimescanJob>)
    ensures forall j :: j in r ==> (j.track in tracks && j.pol in POLARISATIONS
                                    && TimescanDue(paths, processingDir, j.track, j.pol)
                                    && j == TimescanJobOf(paths, processingDir, j.track, j.pol, opts))
  {
    if |tracks| == 0 then []
    else
      TimescanPlan(paths, processingDir, tracks[..|tracks| - 1], opts)
      + PolTimescans(paths, processingDir, tracks[|tracks| - 1], POLARISATIONS, opts)
  }

  lemma {:induction false} PolTimescansComplete(paths: set<string>, processingDir: string, track: string,
                                                 pols: seq<string>, opts: TscanOptions, pol: string)
    requires pol in pols && TimescanDue(paths, processingDir, track, pol)
    ensures TimescanJobOf(paths, processingDir, track, pol, opts) in PolTimescans(paths, processingDir, track, pols, opts)
    decreases |pols|
  {
    if pols[|pols| - 1] != pol {
      PolTimescansComplete(paths, processingDir, track, pols[..|pols| - 1], opts, pol);
    }
  }

  /** Every track and polarisation whose timescan is due gets its job. */
  lemma {:induction false} TimescanPlanComplete(paths: set<string>, processingDir: string, tracks: seq<string>,
                                                 opts: TscanOptions, track: string, pol: string)
    requires track in tracks && pol in POLARISATIONS && TimescanDue(paths, processingDir, track, pol)
    ensures TimescanJobOf(paths, processingDir, track, pol, opts) in TimescanPlan(paths, processingDir, tracks, opts)
    decreases |tracks|
  {
    if tracks[|tracks| - 1] == track {
      PolTimescansComplete(paths, processingDir, track, POLARISATIONS, opts, pol);
    } else {
      TimescanPlanComplete(paths, processingDir, tracks[..|tracks| - 1], opts, track, pol);
    }
  }

  /** The dates of a track's layers: the second dot-separated field of
    * each base name, in the layers' order. */
  method ScanDates(scenes: seq<string>) returns (datelist: seq<string>)
    requires forall f :: f in scenes ==> |Split(LastField(f, '/'), '.')| >= 2
    ensures |datelist| == |scenes|
    ensures forall k :: 0 <= k < |scenes| ==> datelist[k] == SecondField(scenes[k], '.')
  {
    datelist := [];
    for k := 0 to |scenes|
      invariant |datelist| == k
      invariant forall n :: 0 <= n < k ==> datelist[n] == SecondField(scenes[n], '.')
    {
      datelist := datelist + [SecondField(scenes[k], '.')];
    }
  }

  /** The timescan of one track and polarisation, dated by its layers. */
  method Timescan(paths: set<string>, processingDir: string, track: string, polar: string, opts: TscanOptions)
    returns (job: TimescanJob)
    ensures job == TimescanJobOf(paths, processingDir, track, polar, opts)
  {
    var scenes := SortSet(Glob(paths, PathJoin(processingDir, track), "", "bs." + polar + ".tif"));
    TrackLayersDated(paths, processingDir, track, polar);
    var datelist := ScanDates(scenes);
    assert datelist == LayerScanDates(scenes);
    job := TimescanJob(track, polar, TimeseriesStack(processingDir, track, polar),
                       PathJoin(TimescanDir(processingDir, track), "bs." + polar), opts.rescale, opts.metrics,
                       opts.removeOutliers, datelist);
  }

  /** The polarisation loop of one track in `timeseries_to_timescan`. */
  method TrackTimescans(paths: set<string>, processingDir: string, track: string, opts: TscanOptions)
    returns (jobs: seq<TimescanJob>)
    ensures jobs == PolTimescans(paths, processingDir, track, POLARISATIONS, opts)
  {
    jobs := [];
    for j := 0 to |POLARISATIONS|
      invariant jobs == PolTimescans(paths, processingDir, track, POLARISATIONS[..j], opts)
    {
      assert POLARISATIONS[..j + 1][..j] == POLARISATIONS[..j];
      var polar := POLARISATIONS[j];
      if TimescanMarker(processingDir, track, polar) in paths || TimeseriesStack(processingDir, track, polar) !in paths {
        continue;
      }
      var job := Timescan(paths, processingDir, track, polar, opts);
      jobs := jobs + [job];
    }
    assert POLARISATIONS[..|POLARISATIONS|] == POLARISATIONS;
  }

  /** `timeseries_to_timescan`: for each track and polarisation whose
    * timescan marker is absent and whose stack exists, a timescan of that
    * stack, rescaled iff the output type is not `float32`, computing the
    * configured `metrics` with the configured outlier removal, and dated
    * by the track's sorted layers. */
  method TimeseriesToTimescan(paths: set<string>, inv: seq<Row>, processingDir: string, mt: TimeseriesArd,
                              metrics: seq<string>, removeOutliers: bool)
    returns (jobs: seq<TimescanJob>)
    ensures jobs == TimescanPlan(paths, processingDir, TrackList(inv),
                                 TscanOptions(mt.dtypeOutput != "float32", metrics, removeOutliers))
    ensures forall j :: j in jobs ==>
      j.metrics == metrics && j.removeOutliers == removeOutliers && (j.rescale <==> mt.dtypeOutput != "float32")
  {
    var opts := TscanOptions(mt.dtypeOutput != "float32", metrics, removeOutliers);
    var tracks := Unique(TrackColumn(inv));
    jobs := [];
    for i := 0 to |tracks|
      invariant jobs == TimescanPlan(paths, processingDir, tracks[..i], opts)
    {
      assert tracks[..i + 1][..i] == tracks[..i];
      var trackJobs := TrackTimescans(paths, processingDir, tracks[i], opts);
      jobs := jobs + trackJobs;
    }
    assert tracks[..|tracks|] == tracks;
  }

  // ------------------------------------------------------- mosaic timeseries

  function TsMosaicDir(processingDir: string): string
  {
    PathJoin(PathJoin(processingDir, "Mosaic"), "Timeseries")
  }

  /** The `i`-th layers of polarisation `p` in the `Timeseries` directories
    * of all tracks, a two-digit `i`, an underscore, anything, then `_<p>.tif`. */
  function LayerCandidates(paths: set<string>, processingDir: string, i: nat, p: string): set<string>
  {
    SubGlob(paths, processingDir, "Timeseries", Pad2(i) + "_", "_" + p + ".tif")
  }

  /** The candidates without those whose path mentions "Mosaic", as the
    * batch filters them. */
  function LayerFilesAsWritten(paths: set<string>, processingDir: string, i: nat, p: string): (r: set<string>)
    ensures r <= LayerCandidates(paths, processingDir, i, p)
    ensures forall f :: f in r ==> !Contains(f, "Mosaic")
  {
    set f | f in LayerCandidates(paths, processingDir, i, p) && !Contains(f, "Mosaic")
  }

  /** The name of the directory directly below `dir` that `f` lies in. */
  function TrackDirOf(f: string, dir: string): string
    requires StartsWith(f, dir + "/")
  {
    Split(f[|dir| + 1..], '/')[0]
  }

  /** The candidates without those of the mosaic directory itself. */
  function LayerFiles(paths: set<string>, processingDir: string, i: nat, p: string): (r: set<string>)
    ensures r <= LayerCandidates(paths, processingDir, i, p)
  {
    set f | f in LayerCandidates(paths, processingDir, i, p) && TrackDirOf(f, processingDir) != "Mosaic"
  }

  /** The mosaics, `Mosaic/Timeseries/<name>`, are never taken as layers,
    * whatever the processing directory is called. */
  lemma MosaicsNotLayers(paths: set<string>, processingDir: string, i: nat, p: string, name: string)
    ensures PathJoin(TsMosaicDir(processingDir), name) !in LayerFiles(paths, processingDir, i, p)
  {
    MosaicTrackDir(processingDir, name);
  }

  /** A mosaic's first directory below the processing directory is `Mosaic`. */
  lemma MosaicTrackDir(processingDir: string, name: string)
    ensures var out := PathJoin(TsMosaicDir(processingDir), name);
      StartsWith(out, processingDir + "/") && TrackDirOf(out, processingDir) == "Mosaic"
  {
    var out := PathJoin(TsMosaicDir(processingDir), name);
    var rest := "Mosaic" + ['/'] + ("Timeseries/" + name);
    assert out == (processingDir + "/") + rest;
    assert out[..|processingDir| + 1] == processingDir + "/";
    assert out[|processingDir| + 1..] == rest;
    SplitAfter("Mosaic", '/', "Timeseries/" + name);
  }

  /** A match of a glob one directory below `dir` whose directory is
    * `Mosaic` lies below `dir/Mosaic/`. */
  lemma MosaicSubDir(f: string, dir: string, sub: string)
    requires StartsWith(f, dir + "/") && StartsWith(f, SubDir(f, dir, sub) + "/")
    ensures TrackDirOf(f, dir) == "Mosaic" ==> StartsWith(f, dir + "/Mosaic/")
  {
    if TrackDirOf(f, dir) == "Mosaic" {
      assert SubDir(f, dir, sub) + "/" == (dir + "/Mosaic/") + (sub + "/");
      StartsWithPrefix(f, dir + "/Mosaic/", sub + "/");
    }
  }

  /** A layer of any track, that is of any directory other than `Mosaic`,
    * is kept, whatever the processing directory is called. */
  lemma OtherLayersKept(paths: set<string>, processingDir: string, i: nat, p: string, f: string)
    requires f in LayerCandidates(paths, processingDir, i, p) && !StartsWith(f, processingDir + "/Mosaic/")
    ensures f in LayerFiles(paths, processingDir, i, p)
  {
    MosaicSubDir(f, processingDir, "Timeseries");
  }

  /** A processing directory whose path mentions "Mosaic" loses every
    * layer to the filter as written. */
  lemma MosaicDirLosesLayers(paths: set<string>, processingDir: string, i: nat, p: string)
    requires Contains(processingDir, "Mosaic")
    ensures LayerFilesAsWritten(paths, processingDir, i, p) == {}
  {
    forall f | f in LayerCandidates(paths, processingDir, i, p)
      ensures Contains(f, "Mosaic")
    {
      StartsWithPrefix(f, processingDir, "/");
      ContainsPrefix(f, processingDir, "Mosaic");
    }
  }

  /** A layer's base name holds an underscore after its number. */
  lemma LayerDated(paths: set<string>, processingDir: string, i: nat, p: string, f: string)
    requires f in LayerCandidates(paths, processingDir, i, p)
    ensures |Split(LastField(f, '/'), '_')| >= 2
  {
    MatchName(f, processingDir, "Timeseries", Pad2(i) + "_", "_" + p + ".tif");
    var name := LastField(f, '/');
    assert name[|Pad2(i)|] == (Pad2(i) + "_")[|Pad2(i)|] == '_';
    SplitTwo(name, '_', |Pad2(i)|);
  }

  lemma LayerFilesDated(paths: set<string>, processingDir: string, i: nat, p: string)
    ensures Dated(LayerFiles(paths, processingDir, i, p))
  {
    forall f | f in LayerFiles(paths, processingDir, i, p)
      ensures |Split(LastField(f, '/'), '_')| >= 2
    {
      LayerDated(paths, processingDir, i, p, f);
    }
  }

  /** `os.path.basename(file).split('_')[1]`: a layer's date. */
  function FileDate(f: string): string
    requires |Split(LastField(f, '/'), '_')| >= 2
  {
    Split(LastField(f, '/'), '_')[1]
  }

  /** The dates of the `i`-th layers. */
  predicate Dated(files: set<string>)
  {
    forall f :: f in files ==> |Split(LastField(f, '/'), '_')| >= 2
  }

  /** The dates of a set of layers. */
  function DatesOf(files: set<string>): (r: set<string>)
    requires Dated(files)
    ensures files != {} ==> r != {}
  {
    var r := set f | f in files :: FileDate(f);
    assert files != {} ==> exists f :: f in files && FileDate(f) in r;
    r
  }

  function LayerDates(paths: set<string>, processingDir: string, i: nat, p: string): (r: set<string>)
    ensures LayerFiles(paths, processingDir, i, p) != {} ==> r != {}
  {
    LayerFilesDated(paths, processingDir, i, p);
    DatesOf(LayerFiles(paths, processingDir, i, p))
  }

  /** The base name of the `i`-th time-series mosaic: `i` unpadded, then the
    * date, or the first and last date when they differ. */
  function MosaicLayerName(i: nat, start: string, end: string, p: string): string
  {
    if start == end then NatToString(i) + "_" + start + "_bs_" + p + ".tif"
    else NatToString(i) + "." + start + "-" + end + "_bs_" + p + ".tif"
  }

  /** The marker beside an output `<dir>/<name>`: `.<name without its
    * four-character extension>.processed`. */
  function MosaicMarker(dir: string, name: string): string
  {
    PathJoin(dir, "." + DropLast(name, 4) + ".processed")
  }

  /** The name of the `i`-th mosaic out of `count`: its dates run from the
    * least to the greatest date of its layers (both the least when `count`
    * is 1); with no layers `sorted(datelist)[0]` is an IndexError. */
  function LayerName(paths: set<string>, processingDir: string, i: nat, p: string, count: nat): (r: Result<string>)
    ensures r.Success? <==> LayerFiles(paths, processingDir, i, p) != {}
    ensures r.Failure? ==> r.error == IndexError
  {
    var dates := LayerDates(paths, processingDir, i, p);
    if dates == {} then Failure(IndexError)
    else
      var ds := SortSet(dates);
      var start := ds[0];
      var end := if count > 1 then ds[|ds| - 1] else start;
      Success(MosaicLayerName(i, start, end, p))
  }

  /** The dates of a mosaic name are dates of its layers, in text order. */
  lemma LayerNameDates(paths: set<string>, processingDir: string, i: nat, p: string, count: nat)
    requires LayerFiles(paths, processingDir, i, p) != {}
    ensures exists start, end :: (start in LayerDates(paths, processingDir, i, p) && end in LayerDates(paths, processingDir, i, p)
      && LessEq(start, end) && (count <= 1 ==> start == end)
      && LayerName(paths, processingDir, i, p, count) == Success(MosaicLayerName(i, start, end, p)))
  {
    var ds := SortSet(LayerDates(paths, processingDir, i, p));
    var start := ds[0];
    var end := if count > 1 then ds[|ds| - 1] else start;
    assert start in ds && end in ds;
    if count > 1 {
      SortedEnds(ds, start);
    } else {
      LessEqTotal(start, start);
    }
  }

  /** One mosaic: its input layers and its output. */
  datatype MosaicJob = MosaicJob(files: set<string>, outfile: string)

  /** The outputs of the layers of one polarisation (all listed in its VRT)
    * and the mosaics still to compute. */
  datatype LayerPlan = LayerPlan(outfiles: seq<string>, jobs: seq<MosaicJob>)

  /** The loop over layers `1..n`, given each layer's name (or the error
    * computing it raises) and its input files: every output is listed, and
    * only a layer without a marker gets its mosaic. */
  function PlanLayers(names: nat -> Result<string>, inputs: nat -> set<string>, dir: string, paths: set<string>,
                      n: nat): (r: Result<LayerPlan>)
    ensures r.Success? <==> forall i :: 1 <= i <= n ==> names(i).Success?
    ensures r.Failure? ==> exists i :: 1 <= i <= n && names(i) == Failure(r.error)
    ensures r.Success? ==> |r.value.outfiles| == n
    ensures r.Success? ==> forall k :: 0 <= k < n ==> r.value.outfiles[k] == PathJoin(dir, names(k + 1).value)
    ensures r.Success? ==> forall j :: j in r.value.jobs ==> j.outfile in r.value.outfiles
  {
    if n == 0 then Success(LayerPlan([], []))
    else
      var prev :- PlanLayers(names, inputs, dir, paths, n - 1);
      var name :- names(n);
      var outfile := PathJoin(dir, name);
      Success(LayerPlan(prev.outfiles + [outfile],
                        prev.jobs + if MosaicMarker(dir, name) in paths then [] else [MosaicJob(inputs(n), outfile)]))
  }

  /** Every layer whose marker is absent gets its mosaic. */
  lemma PlanLayersJobs(names: nat -> Result<string>, inputs: nat -> set<string>, dir: string, paths: set<string>,
                       n: nat)
    requires PlanLayers(names, inputs, dir, paths, n).Success?
    ensures var plan := PlanLayers(names, inputs, dir, paths, n).value;
      forall k :: 0 <= k < n ==>
        (MosaicMarker(dir, names(k + 1).value) !in paths ==> MosaicJob(inputs(k + 1), plan.outfiles[k]) in plan.jobs)
  {
    forall k | 0 <= k < n && MosaicMarker(dir, names(k + 1).value) !in paths {
      PlanLayersJob(names, inputs, dir, paths, n, k);
    }
  }

  /** The `k`-th layer, its marker absent, gets its mosaic. */
  lemma {:induction false} PlanLayersJob(names: nat -> Result<string>, inputs: nat -> set<string>, dir: string,
                                          paths: set<string>, n: nat, k: nat)
    requires PlanLayers(names, inputs, dir, paths, n).Success? && k < n
    requires MosaicMarker(dir, names(k + 1).value) !in paths
    ensures MosaicJob(inputs(k + 1), PlanLayers(names, inputs, dir, paths, n).value.outfiles[k])
      in PlanLayers(names, inputs, dir, paths, n).value.jobs
    decreases n
  {
    PlanLayersStep(names, inputs, dir, paths, n);
    if k < n - 1 {
      PlanLayersJob(names, inputs, dir, paths, n - 1, k);
    }
  }

  /** A mosaic is computed only for a layer whose marker is absent. */
  lemma {:induction false} PlanLayersMarked(names: nat -> Result<string>, inputs: nat -> set<string>, dir: string,
                                             paths: set<string>, n: nat)
    requires PlanLayers(names, inputs, dir, paths, n).Success?
    ensures var plan := PlanLayers(names, inputs, dir, paths, n).value;
      forall j :: j in plan.jobs ==> exists k :: (0 <= k < n && j == MosaicJob(inputs(k + 1), plan.outfiles[k])
                                                  && MosaicMarker(dir, names(k + 1).value) !in paths)
    decreases n
  {
    if n > 0 {
      PlanLayersMarked(names, inputs, dir, paths, n - 1);
      var prev := PlanLayers(names, inputs, dir, paths, n - 1).value;
      var name := names(n).value;
      var outfile := PathJoin(dir, name);
      var extra := if MosaicMarker(dir, name) in paths then [] else [MosaicJob(inputs(n), outfile)];
      var plan := PlanLayers(names, inputs, dir, paths, n).value;
      assert plan == LayerPlan(prev.outfiles + [outfile], prev.jobs + extra);
      forall j | j in plan.jobs
        ensures exists k :: (0 <= k < n && j == MosaicJob(inputs(k + 1), plan.outfiles[k])
                             && MosaicMarker(dir, names(k + 1).value) !in paths)
      {
        if j in prev.jobs {
          var k :| 0 <= k < n - 1 && j == MosaicJob(inputs(k + 1), prev.outfiles[k])
                   && MosaicMarker(dir, names(k + 1).value) !in paths;
          assert plan.outfiles[k] == prev.outfiles[k];
        } else {
          assert j in extra && plan.outfiles[n - 1] == outfile;
        }
      }
    }
  }

  /** The name of each layer of polarisation `p`, out of `count`. */
  function LayerNames(paths: set<string>, processingDir: string, p: string, count: nat): nat -> Result<string>
  {
    (i: nat) => LayerName(paths, processingDir, i, p, count)
  }

  /** The input files of each layer of polarisation `p`. */
  function LayerInputs(paths: set<string>, processingDir: string, p: string): nat -> set<string>
  {
    (i: nat) => LayerFiles(paths, processingDir, i, p)
  }

  /** The layers `1..n` of polarisation `p`, out of `count`. */
  function Layers(paths: set<string>, processingDir: string, p: string, count: nat, n: nat): (r: Result<LayerPlan>)
    ensures r.Success? <==> forall i :: 1 <= i <= n ==> LayerFiles(paths, processingDir, i, p) != {}
    ensures r.Failure? ==> r.error == IndexError
  {
    var names := LayerNames(paths, processingDir, p, count);
    var r := PlanLayers(names, LayerInputs(paths, processingDir, p), TsMosaicDir(processingDir), paths, n);
    assert forall i: nat :: names(i).Success? <==> LayerFiles(paths, processingDir, i, p) != {} by {
      forall i: nat ensures names(i).Success? <==> LayerFiles(paths, processingDir, i, p) != {} {
        assert names(i) == LayerName(paths, processingDir, i, p, count);
      }
    }
    r
  }

  /** Once a layer's name fails, the loop stops there with its error. */
  lemma {:induction false} PlanLayersStop(names: nat -> Result<string>, inputs: nat -> set<string>, dir: string,
                                           paths: set<string>, i: nat, n: nat)
    requires 1 <= i <= n && PlanLayers(names, inputs, dir, paths, i - 1).Success? && names(i).Failure?
    ensures PlanLayers(names, inputs, dir, paths, n) == Failure(names(i).error)
    decreases n
  {
    if n > i {
      PlanLayersStop(names, inputs, dir, paths, i, n - 1);
    }
  }

  /** The layer count of polarisation `p`: the layers `*_<p>.tif` in the
    * `Timeseries` directory of the first track; with no tracks,
    * `tracks[0]` is an IndexError. */
  function LayerCount(paths: set<string>, processingDir: string, tracks: seq<string>, p: string): (r: Result<nat>)
    ensures r.Failure? <==> |tracks| == 0
    ensures r.Failure? ==> r.error == IndexError
  {
    if |tracks| == 0 then Failure(IndexError)
    else Success(|Glob(paths, PathJoin(PathJoin(processingDir, tracks[0]), "Timeseries"), "", "_" + p + ".tif")|)
  }

  /** A virtual raster stacking layers. */
  datatype Vrt = Vrt(path: string, layers: seq<string>)

  /** The mosaics to compute and the virtual rasters to build. */
  datatype MosaicPlan = MosaicPlan(jobs: seq<MosaicJob>, vrts: seq<Vrt>)

  function TsVrtPath(processingDir: string, p: string): string
  {
    PathJoin(TsMosaicDir(processingDir), "Timeseries_" + p + ".vrt")
  }

  /** `mosaic_timeseries` over the polarisations `pols` in turn: a
    * polarisation with layers gets its layers' mosaics and a VRT listing
    * every layer; one without is skipped. */
  function TsMosaicPlan(paths: set<string>, processingDir: string, tracks: seq<string>, pols: seq<string>)
    : (r: Result<MosaicPlan>)
    ensures |pols| > 0 && |tracks| == 0 ==> r == Failure(IndexError)
    ensures r.Failure? ==> r.error == IndexError
  {
    if |pols| == 0 then Success(MosaicPlan([], []))
    else TsMosaicStep(TsMosaicPlan(paths, processingDir, tracks, pols[..|pols| - 1]), paths, processingDir, tracks,
                      pols[|pols| - 1])
  }

  /** One turn of the polarisation loop: a polarisation without layers adds
    * nothing, one with layers adds their mosaics and their VRT. */
  function TsMosaicStep(prev: Result<MosaicPlan>, paths: set<string>, processingDir: string, tracks: seq<string>,
                        p: string): Result<MosaicPlan>
  {
    var plan :- prev;
    var count :- LayerCount(paths, processingDir, tracks, p);
    if count == 0 then Success(plan)
    else
      var layers :- Layers(paths, processingDir, p, count, count);
      Success(MosaicPlan(plan.jobs + layers.jobs, plan.vrts + [Vrt(TsVrtPath(processingDir, p), layers.outfiles)]))
  }

  /** Every VRT lists at least one layer, and every mosaic computed is
    * listed in a VRT. */
  lemma {:induction false} TsMosaicListed(paths: set<string>, processingDir: string, tracks: seq<string>, pols: seq<string>)
    requires TsMosaicPlan(paths, processingDir, tracks, pols).Success?
    ensures var plan := TsMosaicPlan(paths, processingDir, tracks, pols).value;
      (forall v :: v in plan.vrts ==> |v.layers| > 0)
      && (forall j :: j in plan.jobs ==> exists v :: v in plan.vrts && j.outfile in v.layers)
    decreases |pols|
  {
    if |pols| > 0 {
      var init := pols[..|pols| - 1];
      TsMosaicListed(paths, processingDir, tracks, init);
      var prev := TsMosaicPlan(paths, processingDir, tracks, init).value;
      var p := pols[|pols| - 1];
      var count := LayerCount(paths, processingDir, tracks, p).value;
      if count > 0 {
        var layers := Layers(paths, processingDir, p, count, count).value;
        var vrt := Vrt(TsVrtPath(processingDir, p), layers.outfiles);
        var plan := TsMosaicPlan(paths, processingDir, tracks, pols).value;
        assert plan == MosaicPlan(prev.jobs + layers.jobs, prev.vrts + [vrt]);
        forall j | j in plan.jobs
          ensures exists v :: v in plan.vrts && j.outfile in v.layers
        {
          if j in prev.jobs {
            var v :| v in prev.vrts && j.outfile in v.layers;
            assert v in plan.vrts;
          } else {
            assert j.outfile in vrt.layers && vrt in plan.vrts;
          }
        }
      }
    }
  }

  /** Each polarisation with layers gets a VRT of all its layers' outputs. */
  lemma {:induction false} TsMosaicVrt(paths: set<string>, processingDir: string, tracks: seq<string>,
                                        pols: seq<string>, p: string)
    requires TsMosaicPlan(paths, processingDir, tracks, pols).Success? && p in pols
    ensures LayerCount(paths, processingDir, tracks, p).Success?
    ensures var count := LayerCount(paths, processingDir, tracks, p).value;
      count > 0 ==> (Layers(paths, processingDir, p, count, count).Success?
                     && Vrt(TsVrtPath(processingDir, p), Layers(paths, processingDir, p, count, count).value.outfiles)
                        in TsMosaicPlan(paths, processingDir, tracks, pols).value.vrts)
    decreases |pols|
  {
    var init, last := pols[..|pols| - 1], pols[|pols| - 1];
    var prev := TsMosaicPlan(paths, processingDir, tracks, init);
    assert TsMosaicPlan(paths, processingDir, tracks, pols) == TsMosaicStep(prev, paths, processingDir, tracks, last);
    assert prev.Success?;
    if p in init {
      TsMosaicVrt(paths, processingDir, tracks, init, p);
    } else {
      assert p == last;
    }
  }

  /** A failing polarisation fails the whole plan. */
  lemma {:induction false} TsMosaicStop(paths: set<string>, processingDir: string, tracks: seq<string>,
                                         pols: seq<string>, j: nat)
    requires j < |pols| && TsMosaicPlan(paths, processingDir, tracks, pols[..j + 1]).Failure?
    ensures TsMosaicPlan(paths, processingDir, tracks, pols).Failure?
    decreases |pols|
  {
    if j + 1 < |pols| {
      var init := pols[..|pols| - 1];
      assert init[..j + 1] == pols[..j + 1];
      TsMosaicStop(paths, processingDir, tracks, init, j);
    } else {
      assert pols[..j + 1] == pols;
    }
  }

  /** The dates of a listing of layers, in the listing's order. */
  method ListedDates(files: set<string>, listed: seq<string>) returns (datelist: seq<string>)
    requires Dated(files)
    requires forall f :: f in listed <==> f in files
    ensures forall x :: x in datelist <==> x in DatesOf(files)
  {
    datelist := [];
    for k := 0 to |listed|
      invariant |datelist| == k
      invariant forall n :: 0 <= n < k ==> datelist[n] == FileDate(listed[n])
    {
      datelist := datelist + [FileDate(listed[k])];
    }
    forall x | x in DatesOf(files)
      ensures x in datelist
    {
      var f :| f in files && FileDate(f) == x;
      assert f in listed;
      var n :| 0 <= n < |listed| && listed[n] == f;
      assert datelist[n] == x;
    }
  }

  /** The body of the layer loop of `mosaic_timeseries` up to the name of
    * the layer's mosaic. */
  method MosaicLayer(paths: set<string>, processingDir: string, i: nat, p: string, count: nat)
    returns (name: Result<string>)
    requires 1 <= i <= count
    ensures name == LayerName(paths, processingDir, i, p, count) == LayerNames(paths, processingDir, p, count)(i)
  {
    var files := LayerFiles(paths, processingDir, i, p);
    var listed := Listing(files);
    LayerFilesDated(paths, processingDir, i, p);
    var datelist := ListedDates(files, listed);
    var dates := LayerDates(paths, processingDir, i, p);
    if |datelist| == 0 {
      assert dates == {};
      return Failure(IndexError);
    }
    var sorted := Sort(datelist);
    assert forall x :: x in sorted <==> x in multiset(datelist);
    SortedBounds(sorted, dates);
    var start, end;
    if count > 1 {
      start, end := sorted[0], sorted[|sorted| - 1];
    } else {
      start, end := sorted[0], sorted[0];
    }
    name := Success(MosaicLayerName(i, start, end, p));
  }

  /** One more step of the layer loop. */
  lemma PlanLayersStep(names: nat -> Result<string>, inputs: nat -> set<string>, dir: string, paths: set<string>, n: nat)
    requires n > 0 && PlanLayers(names, inputs, dir, paths, n - 1).Success? && names(n).Success?
    ensures var prev := PlanLayers(names, inputs, dir, paths, n - 1).value;
      var outfile := PathJoin(dir, names(n).value);
      PlanLayers(names, inputs, dir, paths, n)
        == Success(LayerPlan(prev.outfiles + [outfile],
                             prev.jobs + if MosaicMarker(dir, names(n).value) in paths then [] else [MosaicJob(inputs(n), outfile)]))
  {
  }

  /** The layer loop of `mosaic_timeseries` for polarisation `p`. */
  method MosaicLayers(paths: set<string>, processingDir: string, p: string, count: nat) returns (r: Result<LayerPlan>)
    ensures r == Layers(paths, processingDir, p, count, count)
  {
    ghost var names, inputs := LayerNames(paths, processingDir, p, count), LayerInputs(paths, processingDir, p);
    var dir := TsMosaicDir(processingDir);
    var outfiles, jobs := [], [];
    for i := 1 to count + 1
      invariant PlanLayers(names, inputs, dir, paths, i - 1) == Success(LayerPlan(outfiles, jobs))
    {
      var name := MosaicLayer(paths, processingDir, i, p, count);
      if name.Failure? {
        PlanLayersStop(names, inputs, dir, paths, i, count);
        return Failure(name.error);
      }
      var outfile := PathJoin(dir, name.value);
      var checkFile := MosaicMarker(dir, name.value);
      PlanLayersStep(names, inputs, dir, paths, i);
      outfiles := outfiles + [outfile];
      if checkFile in paths {
        assert jobs + [] == jobs;
        continue;
      }
      jobs := jobs + [MosaicJob(LayerInputs(paths, processingDir, p)(i), outfile)];
    }
    r := Success(LayerPlan(outfiles, jobs));
  }

  /** `mosaic_timeseries`: for each polarisation with layers in the first
    * track, the mosaics of its layers not yet marked and a VRT of all of
    * them; an IndexError when there are no tracks or a layer has no
    * files. */
  method MosaicTimeseries(paths: set<string>, inv: seq<Row>, processingDir: string) returns (r: Result<MosaicPlan>)
    ensures r == TsMosaicPlan(paths, processingDir, TrackList(inv), POLARISATIONS)
  {
    r := MosaicPolarisations(paths, inv, processingDir, POLARISATIONS);
  }

  /** The polarisation loop of `mosaic_timeseries`, over `pols`. */
  method MosaicPolarisations(paths: set<string>, inv: seq<Row>, processingDir: string, pols: seq<string>)
    returns (r: Result<MosaicPlan>)
    ensures r == TsMosaicPlan(paths, processingDir, TrackList(inv), pols)
  {
    var plan := MosaicPlan([], []);
    for j := 0 to |pols|
      invariant TsMosaicPlan(paths, processingDir, TrackList(inv), pols[..j]) == Success(plan)
    {
      assert pols[..j + 1][..j] == pols[..j];
      var next := MosaicPolarisation(paths, inv, processingDir, pols[j], plan);
      if next.Failure? {
        TsMosaicStop(paths, processingDir, TrackList(inv), pols, j);
        return Failure(next.error);
      }
      plan := next.value;
    }
    assert pols[..|pols|] == pols;
    r := Success(plan);
  }

  /** The body of the polarisation loop of `mosaic_timeseries`: the layer
    * count read from the first track, then the layers' mosaics and their
    * VRT. */
  method MosaicPolarisation(paths: set<string>, inv: seq<Row>, processingDir: string, p: string, plan: MosaicPlan)
    returns (r: Result<MosaicPlan>)
    ensures r == TsMosaicStep(Success(plan), paths, processingDir, TrackList(inv), p)
  {
    var tracks := Unique(TrackColumn(inv));
    if |tracks| == 0 {
      return Failure(IndexError);
    }
    var count := |Glob(paths, PathJoin(PathJoin(processingDir, tracks[0]), "Timeseries"), "", "_" + p + ".tif")|;
    if count == 0 {
      return Success(plan);
    }
    var layers := MosaicLayers(paths, processingDir, p, count);
    if layers.Failure? {
      return Failure(layers.error);
    }
    r := Success(MosaicPlan(plan.jobs + layers.value.jobs,
                            plan.vrts + [Vrt(TsVrtPath(processingDir, p), layers.value.outfiles)]));
  }

  // --------------------------------------------------------- mosaic timescan

  /** `list.remove(x)`: the list without the first occurrence of `x`. */
  function RemoveFirst(s: seq<string>, x: string): (r: seq<string>)
    requires x in s
    ensures multiset(r) == multiset(s) - multiset{x}
    ensures |r| == |s| - 1
  {
    var i := FirstIndex(s, x);
    assert s == s[..i] + [x] + s[i + 1..];
    s[..i] + s[i + 1..]
  }

  /** The metric list as `mosaic_timescan` leaves it: `harmonics` or
    * `percentiles` make it call `extent` on a list, which lists do not
    * have. */
  function MetricsAsWritten(metrics: seq<string>): (r: Result<seq<string>>)
    ensures r.Failure? <==> "harmonics" in metrics || "percentiles" in metrics
    ensures r.Failure? ==> r.error == AttributeError
    ensures r.Success? ==> r.value == metrics
  {
    if "harmonics" in metrics || "percentiles" in metrics then Failure(AttributeError) else Success(metrics)
  }

  /** `if x in s: s.remove(x); s.extend(extra)`. */
  function ReplaceMetric(s: seq<string>, x: string, extra: seq<string>): (r: seq<string>)
  {
    if x in s then RemoveFirst(s, x) + extra else s
  }

  /** Replacing takes one occurrence of `x` away and adds `extra` when `x`
    * occurs, and changes nothing otherwise. */
  lemma ReplaceMetricCount(s: seq<string>, x: string, extra: seq<string>, y: string)
    ensures multiset(ReplaceMetric(s, x, extra))[y]
         == if x in s then multiset(s)[y] - (if y == x then 1 else 0) + multiset(extra)[y] else multiset(s)[y]
  {
    if x in s {
      assert multiset(ReplaceMetric(s, x, extra)) == multiset(RemoveFirst(s, x)) + multiset(extra);
    }
  }

  /** The metric list with `harmonics` replaced by its three layers and
    * `percentiles` by its two, each appended at the end. */
  function ExpandMetrics(metrics: seq<string>): (r: seq<string>)
  {
    ReplaceMetric(ReplaceMetric(metrics, "harmonics", ["amplitude", "phase", "residuals"]), "percentiles", ["p95", "p5"])
  }

  /** Every metric other than the two expanded ones is kept. */
  lemma ExpandKeeps(metrics: seq<string>, x: string)
    requires x in metrics && x != "harmonics" && x != "percentiles"
    ensures x in ExpandMetrics(metrics)
  {
    var m := ReplaceMetric(metrics, "harmonics", ["amplitude", "phase", "residuals"]);
    ReplaceMetricCount(metrics, "harmonics", ["amplitude", "phase", "residuals"], x);
    ReplaceMetricCount(m, "percentiles", ["p95", "p5"], x);
    assert multiset(metrics)[x] > 0;
  }

  /** `harmonics` yields its amplitude, phase and residuals layers. */
  lemma ExpandHarmonics(metrics: seq<string>)
    requires "harmonics" in metrics
    ensures var r := ExpandMetrics(metrics);
      "amplitude" in r && "phase" in r && "residuals" in r
  {
    var harmonics: seq<string> := ["amplitude", "phase", "residuals"];
    var m := ReplaceMetric(metrics, "harmonics", harmonics);
    var r := ExpandMetrics(metrics);
    ExtraKept(metrics, m, r, "harmonics", harmonics, ["p95", "p5"], "amplitude");
    ExtraKept(metrics, m, r, "harmonics", harmonics, ["p95", "p5"], "phase");
    ExtraKept(metrics, m, r, "harmonics", harmonics, ["p95", "p5"], "residuals");
  }

  /** `percentiles` yields its 95th and 5th percentile layers. */
  lemma ExpandPercentiles(metrics: seq<string>)
    requires "percentiles" in metrics
    ensures var r := ExpandMetrics(metrics);
      "p95" in r && "p5" in r
  {
    var harmonics: seq<string> := ["amplitude", "phase", "residuals"];
    var percentiles: seq<string> := ["p95", "p5"];
    var m := ReplaceMetric(metrics, "harmonics", harmonics);
    ReplaceMetricCount(metrics, "harmonics", harmonics, "percentiles");
    assert multiset(harmonics)["percentiles"] == 0;
    assert multiset(metrics)["percentiles"] > 0;
    assert "percentiles" in m by {
      assert multiset(m)["percentiles"] > 0;
    }
    ReplaceMetricCount(m, "percentiles", percentiles, "p95");
    ReplaceMetricCount(m, "percentiles", percentiles, "p5");
    assert multiset(percentiles)["p95"] > 0 && multiset(percentiles)["p5"] > 0;
  }

  /** A list naming each metric once names neither expanded metric
    * afterwards. */
  lemma ExpandDistinct(metrics: seq<string>)
    requires Distinct(metrics)
    ensures var r := ExpandMetrics(metrics);
      "harmonics" !in r && "percentiles" !in r
  {
    var harmonics: seq<string> := ["amplitude", "phase", "residuals"];
    var percentiles: seq<string> := ["p95", "p5"];
    var m := ReplaceMetric(metrics, "harmonics", harmonics);
    var r := ExpandMetrics(metrics);
    DistinctCount(metrics, "harmonics");
    DistinctCount(metrics, "percentiles");
    ReplaceMetricCount(metrics, "harmonics", harmonics, "harmonics");
    ReplaceMetricCount(metrics, "harmonics", harmonics, "percentiles");
    ReplaceMetricCount(m, "percentiles", percentiles, "harmonics");
    ReplaceMetricCount(m, "percentiles", percentiles, "percentiles");
    assert multiset(harmonics)["harmonics"] == 0 && multiset(harmonics)["percentiles"] == 0;
    assert multiset(percentiles)["harmonics"] == 0 && multiset(percentiles)["percentiles"] == 0;
    assert multiset(r)["harmonics"] == 0 && multiset(r)["percentiles"] == 0;
  }

  /** An element added by the first replacement survives the second. */
  lemma ExtraKept(s: seq<string>, m: seq<string>, r: seq<string>, x: string, extra: seq<string>,
                  extra2: seq<string>, e: string)
    requires x in s && m == ReplaceMetric(s, x, extra) && r == ReplaceMetric(m, "percentiles", extra2)
    requires e in extra && e != "percentiles"
    ensures e in r
  {
    ReplaceMetricCount(s, x, extra, e);
    ReplaceMetricCount(m, "percentiles", extra2, e);
    assert multiset(extra)[e] > 0;
  }

  /** A list without repetitions holds each value at most once. */
  lemma {:induction false} DistinctCount(s: seq<string>, x: string)
    requires Distinct(s)
    ensures multiset(s)[x] <= 1
    decreases |s|
  {
    if |s| > 0 {
      var init := s[..|s| - 1];
      assert s == init + [s[|s| - 1]];
      DistinctCount(init, x);
      if s[|s| - 1] == x {
        assert x !in init;
      }
    }
  }

  /** The order `itertools.product` visits the polarisations in. */
  const TSCAN_POLARISATIONS: seq<string> := ["VV", "HH", "VH", "HV"]

  function TscanMosaicDir(processingDir: string): string
  {
    PathJoin(PathJoin(processingDir, "Mosaic"), "Timescan")
  }

  function TscanLayerName(polar: string, metric: string): string
  {
    "bs." + polar + "." + metric + ".tif"
  }

  /** The timescan layers of one polarisation and metric in all tracks. */
  function TscanFiles(paths: set<string>, processingDir: string, polar: string, metric: string): set<string>
  {
    SubGlob(paths, processingDir, "Timescan", "", TscanLayerName(polar, metric))
  }

  /** A timescan layer is mosaicked when at least two tracks have it and its
    * marker is absent. */
  predicate TscanDue(paths: set<string>, processingDir: string, polar: string, metric: string)
  {
    |TscanFiles(paths, processingDir, polar, metric)| >= 2
    && MosaicMarker(TscanMosaicDir(processingDir), TscanLayerName(polar, metric)) !in paths
  }

  function TscanJob(paths: set<string>, processingDir: string, polar: string, metric: string): MosaicJob
  {
    MosaicJob(TscanFiles(paths, processingDir, polar, metric),
              PathJoin(TscanMosaicDir(processingDir), TscanLayerName(polar, metric)))
  }

  /** The timescan mosaics of one polarisation, for `metrics` in turn. */
  function MetricMosaics(paths: set<string>, processingDir: string, polar: string, metrics: seq<string>)
    : (r: seq<MosaicJob>)
    ensures forall j :: j in r ==> exists metric :: (metric in metrics && TscanDue(paths, processingDir, polar, metric)
                                                      && j == TscanJob(paths, processingDir, polar, metric))
  {
    if |metrics| == 0 then []
    else
      var metric := metrics[|metrics| - 1];
      MetricMosaics(paths, processingDir, polar, metrics[..|metrics| - 1])
      + if TscanDue(paths, processingDir, polar, metric) then [TscanJob(paths, processingDir, polar, metric)] else []
  }

  /** The timescan mosaics of `pols` × `metrics`, polarisation first. */
  function TscanPlan(paths: set<string>, processingDir: string, pols: seq<string>, metrics: seq<string>)
    : (r: seq<MosaicJob>)
    ensures forall j :: j in r ==> exists polar, metric :: (polar in pols && metric in metrics
                                                             && TscanDue(paths, processingDir, polar, metric)
                                                             && j == TscanJob(paths, processingDir, polar, metric))
  {
    if |pols| == 0 then []
    else
      TscanPlan(paths, processingDir, pols[..|pols| - 1], metrics)
      + MetricMosaics(paths, processingDir, pols[|pols| - 1], metrics)
  }

  lemma {:induction false} MetricMosaicsComplete(paths: set<string>, processingDir: string, polar: string,
                                                  metrics: seq<string>, metric: string)
    requires metric in metrics && TscanDue(paths, processingDir, polar, metric)
    ensures TscanJob(paths, processingDir, polar, metric) in MetricMosaics(paths, processingDir, polar, metrics)
    decreases |metrics|
  {
    if metrics[|metrics| - 1] != metric {
      MetricMosaicsComplete(paths, processingDir, polar, metrics[..|metrics| - 1], metric);
    }
  }

  /** Every layer found in at least two tracks and not yet marked gets its
    * mosaic. */
  lemma {:induction false} TscanPlanComplete(paths: set<string>, processingDir: string, pols: seq<string>,
                                              metrics: seq<string>, polar: string, metric: string)
    requires polar in pols && metric in metrics && TscanDue(paths, processingDir, polar, metric)
    ensures TscanJob(paths, processingDir, polar, metric) in TscanPlan(paths, processingDir, pols, metrics)
    decreases |pols|
  {
    if pols[|pols| - 1] == polar {
      MetricMosaicsComplete(paths, processingDir, polar, metrics, metric);
    } else {
      TscanPlanComplete(paths, processingDir, pols[..|pols| - 1], metrics, polar, metric);
    }
  }

  /** The metric loop of `mosaic_timescan` for one polarisation. */
  method PolarMosaics(paths: set<string>, processingDir: string, polar: string, metrics: seq<string>)
    returns (jobs: seq<MosaicJob>)
    ensures jobs == MetricMosaics(paths, processingDir, polar, metrics)
  {
    var tscanDir := TscanMosaicDir(processingDir);
    jobs := [];
    for k := 0 to |metrics|
      invariant jobs == MetricMosaics(paths, processingDir, polar, metrics[..k])
    {
      assert metrics[..k + 1][..k] == metrics[..k];
      var metric := metrics[k];
      var filelist := SubGlob(paths, processingDir, "Timescan", "", "bs." + polar + "." + metric + ".tif");
      if !(|filelist| >= 2) {
        continue;
      }
      var outfile := PathJoin(tscanDir, "bs." + polar + "." + metric + ".tif");
      var checkFile := MosaicMarker(tscanDir, "bs." + polar + "." + metric + ".tif");
      if checkFile in paths {
        continue;
      }
      jobs := jobs + [MosaicJob(filelist, outfile)];
    }
    assert metrics[..|metrics|] == metrics;
  }

  /** `mosaic_timescan`: the metrics expanded, then one mosaic per
    * polarisation and metric found in at least two tracks and not yet
    * marked; the VRT of the timescan mosaics is built afterwards over
    * `TscanMosaicDir`. */
  method MosaicTimescan(paths: set<string>, processingDir: string, metrics: seq<string>)
    returns (jobs: seq<MosaicJob>)
    ensures jobs == TscanPlan(paths, processingDir, TSCAN_POLARISATIONS, ExpandMetrics(metrics))
  {
    var expanded := ExpandMetrics(metrics);
    jobs := TimescanPolarisations(paths, processingDir, TSCAN_POLARISATIONS, expanded);
  }

  /** The polarisation loop of `mosaic_timescan`, over `pols`. */
  method TimescanPolarisations(paths: set<string>, processingDir: string, pols: seq<string>, metrics: seq<string>)
    returns (jobs: seq<MosaicJob>)
    ensures jobs == TscanPlan(paths, processingDir, pols, metrics)
  {
    jobs := [];
    for j := 0 to |pols|
      invariant jobs == TscanPlan(paths, processingDir, pols[..j], metrics)
    {
      assert pols[..j + 1][..j] == pols[..j];
      var polarJobs := PolarMosaics(paths, processingDir, pols[j], metrics);
      jobs := jobs + polarJobs;
    }
    assert pols[..|pols|] == pols;
  }
}
