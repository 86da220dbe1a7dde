/** Turning the single-date ARD products of one burst or track into a time
  * series of one product and polarisation: an optional multi-temporal stack
  * (with its speckle filter), one masked GeoTIFF per acquisition numbered
  * in chronological order, a check of every output, the completion marker
  * and a VRT over the outputs. */
module ArdToTs {
  import opened Errors
  import opened Strings
  import opened Host
  import opened Config
  import opened Dates
  import DateOrder
  import CommonWrappers

  // ---------------------------------------------------------------- layout

  /** Where the time series lives: its directory, the extent vector that
    * masks every layer, the completion marker and the VRT; `tag` is how
    * the burst prints in scratch names (`None` for a track). */
  datatype Layout = Layout(outDir: string, extend: string, checkFile: string, outVrt: string, tag: string)

  function TsLayout(processingDir: string, burst: Option<string>, track: string, product: string, pol: string): Layout
  {
    var unit := if burst.Some? then burst.value else track;
    var dir := PathJoin(PathJoin(processingDir, unit), "Timeseries");
    Layout(dir, PathJoin(PathJoin(processingDir, unit), unit + ".extend.gpkg"),
      PathJoin(dir, "." + product + "." + pol + ".processed"),
      PathJoin(dir, "Timeseries_" + product + "_" + pol + ".vrt"),
      if burst.Some? then burst.value else "None")
  }

  /** A time series counts as processed when its marker and its VRT exist. */
  predicate Finished(paths: set<string>, lay: Layout)
  {
    lay.checkFile in paths && lay.outVrt in paths
  }

  /** The dB decision: a product already in dB, and any product other than
    * backscatter, is not converted; otherwise the time-series setting
    * decides. */
  function ToDb(singleToDb: bool, product: string, mtToDb: bool): (b: bool)
    ensures b <==> !singleToDb && product == "bs" && mtToDb
    ensures singleToDb || product != "bs" ==> !b
  {
    if singleToDb || product != "bs" then false else mtToDb
  }

  // ---------------------------------------------------------------- stacking

  /** The bands of the polarimetric H-A-Alpha decomposition. */
  const HAALPHA_BANDS: seq<string> := ["Alpha", "Anisotropy", "Entropy"]

  function TempStack(temp: string, tag: string, product: string, pol: string): string
  {
    PathJoin(temp, tag + "_" + product + "_" + pol)
  }

  function MtStack(temp: string, tag: string, product: string, pol: string): string
  {
    PathJoin(temp, tag + "_" + product + "_" + pol + "_mt")
  }

  /** The scratch products stacking may leave in the temporary directory. */
  function StackProducts(temp: string, tag: string, product: string, pol: string): set<string>
  {
    Product(TempStack(temp, tag, product, pol)) + Product(MtStack(temp, tag, product, pol))
  }

  /** The inputs as the stacking graph reads them: comma-separated, quoted. */
  function FileList(files: seq<string>): string
  {
    "'" + Join(files, ',') + "'"
  }

  /** The stacking call: an H-A-Alpha band is selected by band pattern with
    * its own graph, a polarisation by the polarisation parameter; the
    * stack runs on all cores. */
  function StackCall(files: seq<string>, stack: string, pol: string, cpus: int): (w: Invocation)
    ensures w.out == stack && w.policy == Policy(3, RaisesGpt)
    ensures HasParam(w.cmd, "filelist", FileList(files)) && w.cmd.threads == 2 * cpus
    ensures pol in HAALPHA_BANDS ==>
      w.cmd.op == CommonWrappers.STACK_HAALPHA_GRAPH && HasParam(w.cmd, "bandPattern", pol + ".*")
    ensures pol !in HAALPHA_BANDS ==> w.cmd.op == CommonWrappers.STACK_GRAPH && HasParam(w.cmd, "pol", pol)
  {
    if pol in HAALPHA_BANDS then CommonWrappers.CreateStack(FileList(files), stack, "", pol, cpus)
    else CommonWrappers.CreateStack(FileList(files), stack, pol, "", cpus)
  }

  /** The multi-temporal speckle filter over the stack's header. */
  function SpeckleCall(temp: string, tag: string, product: string, pol: string, mt: TimeseriesArd, workers: int): Invocation
  {
    CommonWrappers.MtSpeckleFilter(Dim(TempStack(temp, tag, product, pol)), MtStack(temp, tag, product, pol),
      mt.mtSpeckleFilter, workers)
  }

  /** The product the band images are read from, once the tool has run
    * successfully: a stack (filtered or not) of more than two inputs, or
    * else the first input. */
  function StackSource(files: seq<string>, temp: string, tag: string, product: string, pol: string,
                       removeMtSpeckle: bool): (r: Result<string>)
    ensures r.Failure? <==> |files| == 0
    ensures r.Failure? ==> r.error == IndexError
    ensures 0 < |files| <= 2 ==> r.value == files[0]
    ensures |files| > 2 ==> r.value in {TempStack(temp, tag, product, pol), MtStack(temp, tag, product, pol)}
    ensures |files| > 2 ==> (r.value == MtStack(temp, tag, product, pol) <==> removeMtSpeckle)
  {
    if |files| > 2 then
      Success(if removeMtSpeckle then MtStack(temp, tag, product, pol) else TempStack(temp, tag, product, pol))
    else if |files| == 0 then Failure(IndexError)
    else Success(files[0])
  }

  // ---------------------------------------------------------------- band images

  function BaseName(p: string): string
  {
    LastField(p, '/')
  }

  /** `Path.glob('*.img')` lists this path: a name ending in `.img` (a
    * path object's glob, unlike the `glob` module's, also lists hidden
    * names). */
  predicate IsBandImage(p: string)
  {
    var n := BaseName(p);
    EndsWith(n, ".img")
  }

  /** `glob('*img')` lists this path and `pol` occurs in it. */
  predicate PolImage(pol: string, p: string)
  {
    var n := BaseName(p);
    EndsWith(n, "img") && Contains(p, pol)
  }

  /** The name matches `*<a>*<b>*img`: ending in `img`, with `a`
    * and, after it, `b` occurring before that ending. */
  predicate PatternHit(n: string, a: string, b: string)
  {
    EndsWith(n, "img")
    && exists i, j :: 0 <= i && i + |a| <= j && j + |b| <= |n| - 3 && OccursAt(n, a, i) && OccursAt(n, b, j)
  }

  /** The entries (in listing order) that satisfy `f`. */
  function Filter(entries: seq<string>, f: string -> bool): (r: seq<string>)
    ensures |r| <= |entries|
    ensures forall p :: p in r <==> p in entries && f(p)
  {
    if |entries| == 0 then []
    else (if f(entries[0]) then [entries[0]] else []) + Filter(entries[1..], f)
  }

  /** Listing order is kept: filtering a listing extended by one entry
    * extends the filtered listing by that entry exactly when it is kept. */
  lemma {:induction false} FilterAppend(entries: seq<string>, e: string, f: string -> bool)
    ensures Filter(entries + [e], f) == Filter(entries, f) + (if f(e) then [e] else [])
  {
    if |entries| == 0 {
      assert entries + [e] == [e];
    } else {
      assert (entries + [e])[1..] == entries[1..] + [e];
      FilterAppend(entries[1..], e, f);
    }
  }

  /** The position of the first entry whose name matches `*<a>*<b>*img`. */
  function HitIndex(entries: seq<string>, a: string, b: string): (i: nat)
    ensures i <= |entries|
    ensures i < |entries| ==> PatternHit(BaseName(entries[i]), a, b)
    ensures forall j :: 0 <= j < i ==> !PatternHit(BaseName(entries[j]), a, b)
  {
    if |entries| == 0 then 0
    else if PatternHit(BaseName(entries[0]), a, b) then 0
    else 1 + HitIndex(entries[1..], a, b)
  }

  /** `list(<data>.glob('*<a>*<b>*img'))[0]`: the first match in listing
    * order, or IndexError when nothing matches. */
  function FirstHit(entries: seq<string>, a: string, b: string): (r: Result<string>)
    ensures r.Failure? <==> forall j :: 0 <= j < |entries| ==> !PatternHit(BaseName(entries[j]), a, b)
    ensures r.Failure? ==> r.error == IndexError
    ensures r.Success? ==> r.value == entries[HitIndex(entries, a, b)] && PatternHit(BaseName(r.value), a, b)
  {
    var i := HitIndex(entries, a, b);
    if i < |entries| then Success(entries[i]) else Failure(IndexError)
  }

  // ---------------------------------------------------------------- dates

  /** The date of a stacked band, `<name>.split('_')[-1][:-4]` as `%d%b%Y`. */
  function BandDate(p: string): (r: Result<Date>)
    ensures r.Success? ==> Valid(r.value)
  {
    Strptime(DropLast(LastField(BaseName(p), '_'), 4), DMY)
  }

  /** A coherence band's master (`k` = 3) or slave (`k` = 4) date: the
    * `k`-th `_`-field up to its first `.`, as `%d%b%Y`. */
  function PairDate(p: string, k: nat): (r: Result<Date>)
    ensures r.Success? ==> Valid(r.value)
  {
    var f :- Field(BaseName(p), '_', k);
    Strptime(Split(f, '.')[0], DMY)
  }

  function MasterDate(p: string): (r: Result<Date>)
    ensures r.Success? ==> Valid(r.value)
  {
    PairDate(p, 3)
  }

  function SlaveDate(p: string): (r: Result<Date>)
    ensures r.Success? ==> Valid(r.value)
  {
    PairDate(p, 4)
  }

  /** `sorted(<parse(f)> for f in files)`: ValueError or IndexError at the
    * first file that does not parse, else the dates in chronological order. */
  function SortedDates(parse: string -> Result<Date>, files: seq<string>): (r: Result<seq<Date>>)
    requires forall p :: parse(p).Success? ==> Valid(parse(p).value)
    ensures r.Success? <==> Traverse(parse, files).Success?
    ensures r.Failure? ==> r == Failure(Traverse(parse, files).error)
    ensures r.Success? ==> |r.value| == |files| && DateOrder.Sorted(r.value)
    ensures r.Success? ==> multiset(r.value) == multiset(Traverse(parse, files).value)
    ensures r.Success? ==> forall k :: 0 <= k < |r.value| ==> Valid(r.value[k])
  {
    var ds :- Traverse(parse, files);
    var sorted := DateOrder.Sort(ds);
    assert |sorted| == |multiset(sorted)| == |multiset(ds)| == |ds|;
    forall k | 0 <= k < |sorted|
      ensures Valid(sorted[k])
    {
      assert sorted[k] in multiset(ds);
      var j :| 0 <= j < |ds| && ds[j] == sorted[k];
    }
    Success(sorted)
  }

  /** The dates printed with one format. */
  function Printed(ds: seq<Date>, fmt: seq<Directive>): (r: seq<string>)
    requires forall k :: 0 <= k < |ds| ==> Valid(ds[k])
    ensures |r| == |ds| && forall k :: 0 <= k < |ds| ==> r[k] == Strftime(ds[k], fmt)
  {
    seq(|ds|, k requires 0 <= k < |ds| => Strftime(ds[k], fmt))
  }

  /** `strftime(strptime(s, '%d%b%Y'), fmt)`. */
  function Reformat(s: string, fmt: seq<Directive>): Result<string>
  {
    var d :- Strptime(s, DMY);
    Success(Strftime(d, fmt))
  }

  /** Re-reading a printed date and printing it again in another format
    * gives the date in that format, for every four-digit year. */
  lemma ReformatPrinted(d: Date, fmt: seq<Directive>)
    requires Valid(d) && 1000 <= d.year
    ensures Reformat(Strftime(d, DMY), fmt) == Success(Strftime(d, fmt))
  {
    StrptimeStrftime(d, DMY);
  }

  /** `zip(a, b)`. */
  function Zip(a: seq<string>, b: seq<string>): (r: seq<(string, string)>)
    ensures |r| == if |a| <= |b| then |a| else |b|
    ensures forall k :: 0 <= k < |r| ==> r[k] == (a[k], b[k])
  {
    var n := if |a| <= |b| then |a| else |b|;
    seq(n, k requires 0 <= k < n => (a[k], b[k]))
  }

  /** `Path(p).with_suffix(suf).name`: the base name with its suffix (a
    * last `.` part that neither starts the name nor is empty) replaced by
    * `suf`, or with `suf` appended when there is none. */
  function SuffixName(p: string, suf: string): string
  {
    var n := BaseName(p);
    var i := LastDot(n);
    if 0 < i < |n| - 1 then n[..i] + suf else n + suf
  }

  /** `n.rfind('.')`. */
  function LastDot(n: string): (i: int)
    ensures -1 <= i < |n|
    ensures i >= 0 ==> n[i] == '.'
    ensures forall j :: i < j < |n| ==> n[j] != '.'
  {
    if |n| == 0 then -1
    else if n[|n| - 1] == '.' then |n| - 1
    else LastDot(n[..|n| - 1])
  }

  /** The date of a single unstacked product: the first `_`-field of its
    * data directory's name, as `%Y%m%d`. */
  function SingleDate(source: string): (r: Result<Date>)
    ensures r.Success? ==> Valid(r.value)
  {
    Strptime(Split(SuffixName(source, ".data"), '_')[0], YMD)
  }

  // ---------------------------------------------------------------- conversions

  /** The min/max stretch for 8- and 16-bit output, as printed numbers. */
  datatype Stretch = Stretch(min: string, max: string)

  /** The fixed stretch table. */
  function StretchTable(key: string): Option<Stretch>
  {
    if key == "bs" then Some(Stretch("-30", "5"))
    else if key == "coh" then Some(Stretch("1e-06", "1"))
    else if key == "Alpha" then Some(Stretch("1e-06", "90"))
    else if key == "Anisotropy" || key == "Entropy" then Some(Stretch("1e-06", "1"))
    else None
  }

  /** The stretch of the layers: looked up under the band for an H-A-Alpha
    * band and under the product otherwise; KeyError for other products. */
  function StretchOf(product: string, pol: string): (r: Result<Stretch>)
    ensures pol in HAALPHA_BANDS ==> r == Success(StretchTable(pol).value)
    ensures pol !in HAALPHA_BANDS ==> (r.Success? <==> product in {"bs", "coh"} + set b | b in HAALPHA_BANDS)
    ensures pol !in HAALPHA_BANDS && r.Success? ==> r.value == StretchTable(product).value
    ensures r.Failure? ==> r.error == KeyError
  {
    var key := if pol in HAALPHA_BANDS then pol else product;
    match StretchTable(key)
    case Some(s) => Success(s)
    case None => Failure(KeyError)
  }

  /** One masked GeoTIFF: the band image read, the file written, its stretch. */
  datatype Conversion = Conversion(infile: string, outfile: string, stretch: Stretch)

  /** The conversions a loop made, and the error that stopped it, if any. */
  datatype Conversions = Conversions(done: seq<Conversion>, error: Option<Error>)

  /** Running `step` on the items in order: every step up to the first
    * failing one is done; that one stops the loop with its error. */
  function Collect<T>(step: (nat, T) -> Result<Conversion>, items: seq<T>): (b: Conversions)
    ensures |b.done| <= |items|
    ensures forall k :: 0 <= k < |b.done| ==> step(k, items[k]) == Success(b.done[k])
    ensures b.error.None? ==> |b.done| == |items|
    ensures b.error.Some? ==> |b.done| < |items| && step(|b.done|, items[|b.done|]) == Failure(b.error.value)
    decreases |items|
  {
    if |items| == 0 then Conversions([], None)
    else
      var n := |items| - 1;
      var prev := Collect(step, items[..n]);
      assert forall k :: 0 <= k < n ==> items[..n][k] == items[k];
      if prev.error.Some? then prev
      else match step(n, items[n])
        case Failure(e) => Conversions(prev.done, Some(e))
        case Success(c) => Conversions(prev.done + [c], None)
  }

  /** Once a prefix of the items has failed, the later items change nothing. */
  lemma {:induction false} CollectStops<T>(step: (nat, T) -> Result<Conversion>, items: seq<T>, n: nat)
    requires n <= |items| && Collect(step, items[..n]).error.Some?
    ensures Collect(step, items) == Collect(step, items[..n])
    decreases |items| - n
  {
    if n < |items| {
      var m := |items| - 1;
      assert items[..m][..n] == items[..n];
      CollectStops(step, items[..m], n);
      assert Collect(step, items[..m]) == Collect(step, items[..n]);
    } else {
      assert items[..n] == items;
    }
  }

  /** An output file numbered `k + 1`: `<dir>/<kk><sep><rest>`, where the
    * number is the first `sep`-field of the name. */
  function NumberedFile(dir: string, k: nat, sep: char, rest: string): (f: string)
    requires sep !in "0123456789"
    ensures Numbered(f, dir, k, sep)
  {
    var f := PathJoin(dir, Pad2(k + 1) + [sep] + rest);
    assert f[|dir| + 1..] == Pad2(k + 1) + [sep] + rest;
    assert Free(Pad2(k + 1), sep) by {
      var d := Pad2(k + 1);
      forall j | 0 <= j < |d| ensures d[j] != sep {
        assert IsDigit(d[j]);
      }
    }
    SplitAfter(Pad2(k + 1), sep, rest);
    f
  }

  /** The outputs are numbered: the first `sep`-field of the `k`-th output's
    * name is its number `k + 1`, two digits at least. */
  predicate Numbered(f: string, dir: string, k: nat, sep: char)
  {
    StartsWith(f, dir + "/") && Split(f[|dir| + 1..], sep)[0] == Pad2(k + 1)
  }

  /** `<kk>_<YYYYMMDD>_<product>_<pol>.tif` in `dir`. */
  function DatedFile(dir: string, k: nat, ymd: string, product: string, pol: string): string
  {
    NumberedFile(dir, k, '_', ymd + "_" + product + "_" + pol + ".tif")
  }

  /** `<kk>.<yymmdd>.<yymmdd>.<product>.<pol>.tif` in `dir`. */
  function PairFile(dir: string, k: nat, mst: string, slv: string, product: string, pol: string): string
  {
    NumberedFile(dir, k, '.', mst + "." + slv + "." + product + "." + pol + ".tif")
  }

  /** The conversion of the `k`-th date (`%d%b%Y`) of a backscatter-like
    * time series from `infile`, numbered `k + 1`. */
  function DatedStep(infile: Result<string>, dir: string, k: nat, date: string, product: string, pol: string): (r: Result<Conversion>)
    ensures r.Success? ==> Numbered(r.value.outfile, dir, k, '_')
    ensures r.Success? ==> infile.Success? && r.value.infile == infile.value
    ensures r.Success? ==> (Reformat(date, YMD).Success?
      && r.value.outfile == DatedFile(dir, k, Reformat(date, YMD).value, product, pol))
  {
    var f :- infile;
    var ymd :- Reformat(date, YMD);
    var s :- StretchOf(product, pol);
    Success(Conversion(f, DatedFile(dir, k, ymd, product, pol), s))
  }

  /** The step of a stacked series: the band image of the date is looked up
    * by pattern. */
  function MultiStep(entries: seq<string>, dir: string, product: string, pol: string): (nat, string) -> Result<Conversion>
  {
    (k: nat, date: string) => DatedStep(FirstHit(entries, pol, date), dir, k, date, product, pol)
  }

  /** The step of a single product: its one image of the polarisation. */
  function SingleStep(infile: string, dir: string, product: string, pol: string): (nat, string) -> Result<Conversion>
  {
    (k: nat, date: string) => DatedStep(Success(infile), dir, k, date, product, pol)
  }

  /** The conversion of the `k`-th master/slave date pair of a coherence
    * time series, numbered `k + 1`. */
  function PairConversion(entries: seq<string>, dir: string, k: nat, mst: string, slv: string, product: string, pol: string): (r: Result<Conversion>)
    ensures r.Success? ==> Numbered(r.value.outfile, dir, k, '.')
    ensures r.Success? ==> (FirstHit(entries, pol, mst + "_" + slv).Success?
      && r.value.infile == FirstHit(entries, pol, mst + "_" + slv).value)
    ensures r.Success? ==> (Reformat(mst, SHORT).Success? && Reformat(slv, SHORT).Success?
      && r.value.outfile == PairFile(dir, k, Reformat(mst, SHORT).value, Reformat(slv, SHORT).value, product, pol))
  {
    var f :- FirstHit(entries, pol, mst + "_" + slv);
    var a :- Reformat(mst, SHORT);
    var b :- Reformat(slv, SHORT);
    var s :- StretchOf(product, pol);
    Success(Conversion(f, PairFile(dir, k, a, b, product, pol), s))
  }

  function PairStep(entries: seq<string>, dir: string, product: string, pol: string): (nat, (string, string)) -> Result<Conversion>
  {
    (k: nat, d: (string, string)) => PairConversion(entries, dir, k, d.0, d.1, product, pol)
  }

  // ---------------------------------------------------------------- plans

  /** A stacked (or two-product) series: the band dates in chronological
    * order, one conversion per date. */
  function DatedPlan(entries: seq<string>, dir: string, product: string, pol: string): Result<Conversions>
  {
    var ds :- SortedDates(BandDate, Filter(entries, IsBandImage));
    Success(Collect(MultiStep(entries, dir, product, pol), Printed(ds, DMY)))
  }

  /** A single product: nothing to do (`None`) unless exactly one image
    * carries the polarisation, since the joined names of several images, or
    * of none, name no file. */
  function SinglePlan(entries: seq<string>, dir: string, source: string, product: string, pol: string): Result<Option<Conversions>>
  {
    var d :- SingleDate(source);
    var hits := Filter(entries, p => PolImage(pol, p));
    if |hits| != 1 then Success(None)
    else Success(Some(Collect(SingleStep(hits[0], dir, product, pol), [Strftime(d, DMY)])))
  }

  /** A coherence series: master and slave dates each sorted on their own,
    * then paired in order. */
  function PairPlan(entries: seq<string>, dir: string, product: string, pol: string): Result<Conversions>
  {
    var bands := Filter(entries, IsBandImage);
    var mst :- SortedDates(MasterDate, bands);
    var slv :- SortedDates(SlaveDate, bands);
    Success(Collect(PairStep(entries, dir, product, pol), Zip(Printed(mst, DMY), Printed(slv, DMY))))
  }

  /** The conversions read from the source product's images (`entries`, the
    * listing of its data directory), for `count` inputs. */
  function BandPlan(entries: seq<string>, dir: string, source: string, count: nat, product: string, pol: string): Result<Option<Conversions>>
  {
    if product == "coh" then
      var b :- PairPlan(entries, dir, product, pol);
      Success(Some(b))
    else if count > 1 then
      var b :- DatedPlan(entries, dir, product, pol);
      Success(Some(b))
    else SinglePlan(entries, dir, source, product, pol)
  }

  /** What the time series does when every tool run succeeds. */
  function TimeseriesPlan(files: seq<string>, product: string, pol: string, lay: Layout, temp: string,
                          removeMtSpeckle: bool, entries: seq<string>): Result<Option<Conversions>>
  {
    var source :- StackSource(files, temp, lay.tag, product, pol, removeMtSpeckle);
    BandPlan(entries, lay.outDir, source, |files|, product, pol)
  }

  // ---------------------------------------------------------------- the run

  /** Stacking: more than two inputs are stacked (and, when enabled, the
    * stack is speckle-filtered and the unfiltered stack deleted); with
    * fewer the first input is used as it is. The tool's failures raise. */
  method Stack(m: Machine, files: seq<string>, temp: string, tag: string, product: string, pol: string,
               mt: TimeseriesArd, gptWorkers: int, cpus: int) returns (r: Result<string>)
    requires m.Valid()
    modifies m
    ensures m.Valid() && m.markers == old(m.markers)
    ensures r.Success? ==> r == StackSource(files, temp, tag, product, pol, mt.removeMtSpeckle)
    ensures r.Failure? && |files| > 2 ==> r.error.GptRuntimeError?
    ensures r.Failure? && |files| <= 2 ==> r == StackSource(files, temp, tag, product, pol, mt.removeMtSpeckle)
    ensures |files| <= 2 ==> m.paths == old(m.paths) && m.calls == old(m.calls)
    ensures old(m.paths) - StackProducts(temp, tag, product, pol) <= m.paths
    ensures m.paths <= old(m.paths) + StackProducts(temp, tag, product, pol)
    ensures |files| > 2 ==> (|m.calls| > |old(m.calls)| && m.calls[..|old(m.calls)|] == old(m.calls)
      && m.calls[|old(m.calls)|] == StackCall(files, TempStack(temp, tag, product, pol), pol, cpus).cmd)
    ensures forall j :: |old(m.calls)| <= j < |m.calls| ==>
      (m.calls[j] == StackCall(files, TempStack(temp, tag, product, pol), pol, cpus).cmd
       || (mt.removeMtSpeckle && m.calls[j] == SpeckleCall(temp, tag, product, pol, mt, gptWorkers).cmd))
    ensures |files| > 2 && r.Success? && mt.removeMtSpeckle ==>
      (m.calls[|m.calls| - 1] == SpeckleCall(temp, tag, product, pol, mt, gptWorkers).cmd
       && Product(TempStack(temp, tag, product, pol)) !! m.paths)
  {
    if |files| > 2 {
      var stack := TempStack(temp, tag, product, pol);
      var w := StackCall(files, stack, pol, cpus);
      var s := m.Stage(w.cmd, w.out, w.policy);
      if s.Failure? {
        return Failure(s.error);
      }
      if mt.removeMtSpeckle {
        var f := SpeckleCall(temp, tag, product, pol, mt, gptWorkers);
        var t := m.Stage(f.cmd, f.out, f.policy);
        if t.Failure? {
          return Failure(t.error);
        }
        m.DeleteProduct(stack);
        r := Success(MtStack(temp, tag, product, pol));
      } else {
        r := Success(stack);
      }
    } else if |files| == 0 {
      r := Failure(IndexError);
    } else {
      r := Success(files[0]);
    }
  }

  /** The settings every layer is masked with: the extent vector, the dB
    * decision and the output data type. */
  datatype Masking = Masking(vector: string, toDb: bool, dtype: string)

  /** The masking settings of `ard_to_ts`: the series' extent, the dB
    * decision of `ToDb` and the time-series ARD's output data type. */
  function SeriesMasking(config: ConfigDict, product: string, lay: Layout): (mk: Masking)
    ensures mk.vector == lay.extend && mk.dtype == config.processing.timeseries.dtypeOutput
    ensures mk.toDb <==> !config.processing.single.toDb && product == "bs" && config.processing.timeseries.toDb
  {
    Masking(lay.extend, ToDb(config.processing.single.toDb, product, config.processing.timeseries.toDb),
      config.processing.timeseries.dtypeOutput)
  }

  /** `mask_by_shape` of one conversion, with no-data value 0. Every layer's
    * band is described: the coherence call passes `description=True` and
    * the other call leaves it at its default, which is also true. */
  function MaskCall(c: Conversion, mk: Masking): Command
  {
    Command("mask_by_shape", 0,
      [Param("vector", mk.vector), Param("to_db", BoolToLower(mk.toDb)), Param("datatype", mk.dtype),
       Param("min_value", c.stretch.min), Param("max_value", c.stretch.max), Param("ndv", "0.0"),
       Param("description", "true")],
      c.outfile, [c.infile])
  }

  /** The log `after` keeps `before` and ends with `tail`. */
  predicate LogEndsWith(before: seq<Command>, after: seq<Command>, tail: seq<Command>)
  {
    |before| + |tail| <= |after| && after[..|before|] == before && after[|after| - |tail|..] == tail
  }

  /** A log extending `before` that then grows by `tail` ends with it. */
  lemma LogEndsWithConcat(before: seq<Command>, mid: seq<Command>, tail: seq<Command>)
    requires |before| <= |mid| && mid[..|before|] == before
    ensures LogEndsWith(before, mid + tail, tail)
  {
    var a := mid + tail;
    assert a[..|before|] == mid[..|before|];
    assert a[|a| - |tail|..] == tail;
  }

  /** A call appended to a log that ends with `tail` makes it end with
    * `tail` and that call. */
  lemma LogEndsWithAppend(before: seq<Command>, after: seq<Command>, tail: seq<Command>, c: Command)
    requires LogEndsWith(before, after, tail)
    ensures LogEndsWith(before, after + [c], tail + [c])
  {
    var a := after + [c];
    assert a[..|before|] == after[..|before|];
    assert a[|a| - |tail + [c]|..] == after[|after| - |tail|..] + [c];
  }

  function MaskCalls(cs: seq<Conversion>, mk: Masking): (r: seq<Command>)
    ensures |r| == |cs| && forall k :: 0 <= k < |cs| ==> r[k] == MaskCall(cs[k], mk)
  {
    seq(|cs|, k requires 0 <= k < |cs| => MaskCall(cs[k], mk))
  }

  function Outputs(cs: seq<Conversion>): (r: seq<string>)
    ensures |r| == |cs| && forall k :: 0 <= k < |cs| ==> r[k] == cs[k].outfile
  {
    seq(|cs|, k requires 0 <= k < |cs| => cs[k].outfile)
  }

  function OutSet(cs: seq<Conversion>): (r: set<string>)
    ensures forall f :: f in r <==> exists k :: 0 <= k < |cs| && cs[k].outfile == f
  {
    set k | 0 <= k < |cs| :: cs[k].outfile
  }

  /** The conversion loop: each item's conversion is computed and its
    * masked GeoTIFF written, until the first step that raises. */
  method ConvertAll<T>(m: Machine, step: (nat, T) -> Result<Conversion>, items: seq<T>, mk: Masking)
    returns (b: Conversions)
    requires m.Valid()
    modifies m
    ensures b == Collect(step, items)
    ensures m.Valid()
    ensures m.paths == old(m.paths) + OutSet(b.done)
    ensures m.markers == old(m.markers) - OutSet(b.done)
    ensures m.calls == old(m.calls) + MaskCalls(b.done, mk)
  {
    b := Conversions([], None);
    ghost var paths0, markers0, calls0 := m.paths, m.markers, m.calls;
    var i := 0;
    while i < |items|
      invariant 0 <= i <= |items|
      invariant b == Collect(step, items[..i]) && b.error.None?
      invariant m.Valid()
      invariant m.paths == paths0 + OutSet(b.done)
      invariant m.markers == markers0 - OutSet(b.done)
      invariant m.calls == calls0 + MaskCalls(b.done, mk)
    {
      CollectStep(step, items, i);
      var c := step(i, items[i]);
      if c.Failure? {
        b := Conversions(b.done, Some(c.error));
        CollectStops(step, items, i + 1);
        return;
      }
      ghost var paths1, markers1, calls1 := m.paths, m.markers, m.calls;
      m.Write(MaskCall(c.value, mk), c.value.outfile);
      var done := b.done + [c.value];
      ConversionWritten(paths0, markers0, calls0, b.done, c.value, mk, paths1, markers1, calls1, m.paths, m.markers, m.calls);
      b := Conversions(done, None);
      i := i + 1;
    }
    assert items[..i] == items;
  }

  /** One more item of a loop that has not failed yet. */
  lemma CollectStep<T>(step: (nat, T) -> Result<Conversion>, items: seq<T>, i: nat)
    requires i < |items| && Collect(step, items[..i]).error.None?
    ensures var b := Collect(step, items[..i]);
      Collect(step, items[..i + 1])
      == if step(i, items[i]).Failure? then Conversions(b.done, Some(step(i, items[i]).error))
         else Conversions(b.done + [step(i, items[i]).value], None)
  {
    assert items[..i + 1][..i] == items[..i];
  }

  /** What one more conversion adds to the files, markers and log. */
  lemma ConversionWritten(paths0: set<string>, markers0: map<string, string>, calls0: seq<Command>,
                          done: seq<Conversion>, c: Conversion, mk: Masking,
                          paths1: set<string>, markers1: map<string, string>, calls1: seq<Command>,
                          paths2: set<string>, markers2: map<string, string>, calls2: seq<Command>)
    requires paths1 == paths0 + OutSet(done) && markers1 == markers0 - OutSet(done)
    requires calls1 == calls0 + MaskCalls(done, mk)
    requires paths2 == paths1 + {c.outfile} && markers2 == markers1 - {c.outfile}
    requires calls2 == calls1 + [MaskCall(c, mk)]
    ensures paths2 == paths0 + OutSet(done + [c]) && markers2 == markers0 - OutSet(done + [c])
    ensures calls2 == calls0 + MaskCalls(done + [c], mk)
  {
    OutSetAppend(done, c);
    MaskCallsAppend(done, c, mk);
    ConcatAssoc(calls0, MaskCalls(done, mk), [MaskCall(c, mk)]);
  }

  lemma OutSetAppend(done: seq<Conversion>, c: Conversion)
    ensures OutSet(done + [c]) == OutSet(done) + {c.outfile}
  {
    var e := done + [c];
    assert forall k :: 0 <= k < |done| ==> e[k] == done[k];
    assert e[|done|] == c;
  }

  lemma MaskCallsAppend(done: seq<Conversion>, c: Conversion, mk: Masking)
    ensures MaskCalls(done + [c], mk) == MaskCalls(done, mk) + [MaskCall(c, mk)]
  {
    var e := done + [c];
    assert forall k :: 0 <= k < |done| ==> e[k] == done[k];
    assert e[|done|] == c;
  }

  /** The position of the first output the tiff check rejects (a non-zero
    * code), if any. */
  function FirstRejected(outs: seq<string>, check: string -> int): (r: Option<nat>)
    ensures r.None? <==> forall k :: 0 <= k < |outs| ==> check(outs[k]) == 0
    ensures r.Some? ==> (r.value < |outs| && check(outs[r.value]) != 0
      && forall k :: 0 <= k < r.value ==> check(outs[k]) == 0)
  {
    if |outs| == 0 then None
    else if check(outs[0]) != 0 then Some(0)
    else
      var rest := FirstRejected(outs[1..], check);
      assert forall k :: 0 < k < |outs| ==> outs[k] == outs[1..][k - 1];
      if rest.None? then None else Some(rest.value + 1)
  }

  /** The file check: the outputs are checked in order; the first rejected
    * one is deleted and its code returned; 0 when all pass. */
  method CheckOutputs(m: Machine, outs: seq<string>, check: string -> int) returns (code: int)
    requires m.Valid()
    modifies m
    ensures m.Valid() && m.calls == old(m.calls)
    ensures FirstRejected(outs, check).None? ==> code == 0 && m.paths == old(m.paths) && m.markers == old(m.markers)
    ensures FirstRejected(outs, check).Some? ==>
      (var f := outs[FirstRejected(outs, check).value];
       code == check(f) && code != 0 && m.paths == old(m.paths) - {f} && m.markers == old(m.markers) - {f})
  {
    var i := 0;
    while i < |outs|
      invariant 0 <= i <= |outs|
      invariant forall k :: 0 <= k < i ==> check(outs[k]) == 0
      invariant m.paths == old(m.paths) && m.markers == old(m.markers) && m.calls == old(m.calls)
    {
      code := check(outs[i]);
      if code != 0 {
        m.Unlink(outs[i]);
        return;
      }
      i := i + 1;
    }
    code := 0;
  }

  /** `gdal.BuildVRT` over the outputs, as separate bands with no-data 0. */
  function VrtCall(vrt: string, outs: seq<string>): Command
  {
    Command("BuildVRT", 0, [Param("srcNodata", "0"), Param("separate", "True")], vrt, outs)
  }

  /** Every output of `cs` is numbered by its position. */
  predicate AllNumbered(cs: seq<Conversion>, dir: string, sep: char)
  {
    forall k :: 0 <= k < |cs| ==> Numbered(cs[k].outfile, dir, k, sep)
  }

  /** A loop whose every step numbers its output by position leaves
    * numbered outputs. */
  lemma CollectNumbered<T>(step: (nat, T) -> Result<Conversion>, items: seq<T>, dir: string, sep: char)
    requires forall k: nat, x: T :: step(k, x).Success? ==> Numbered(step(k, x).value.outfile, dir, k, sep)
    ensures AllNumbered(Collect(step, items).done, dir, sep)
  {
    var b := Collect(step, items);
    forall k | 0 <= k < |b.done|
      ensures Numbered(b.done[k].outfile, dir, k, sep)
    {
      assert step(k, items[k]) == Success(b.done[k]);
    }
  }

  /** Numbered outputs are pairwise distinct files. */
  lemma NumberedDistinct(cs: seq<Conversion>, dir: string, sep: char)
    requires AllNumbered(cs, dir, sep)
    ensures forall i, j :: 0 <= i < j < |cs| ==> cs[i].outfile != cs[j].outfile
  {
    forall i, j | 0 <= i < j < |cs|
      ensures cs[i].outfile != cs[j].outfile
    {
      assert Numbered(cs[i].outfile, dir, i, sep) && Numbered(cs[j].outfile, dir, j, sep);
    }
  }

  /** The outputs a plan's conversion loop wrote (none when it stopped
    * before the loop). */
  function Written(r: Result<Option<Conversions>>): seq<Conversion>
  {
    if r.Success? && r.value.Some? then r.value.value.done else []
  }

  /** The conversions of a plan that did not stop before its loop. */
  function Converted(r: Result<Conversions>): seq<Conversion>
  {
    if r.Success? then r.value.done else []
  }

  /** A coherence series: the master and the slave dates are read, each
    * list sorted, then the pairs converted. */
  method PairBands(m: Machine, entries: seq<string>, dir: string, product: string, pol: string, mk: Masking)
    returns (r: Result<Conversions>)
    requires m.Valid()
    modifies m
    ensures r == PairPlan(entries, dir, product, pol)
    ensures m.Valid()
    ensures m.paths == old(m.paths) + OutSet(Converted(r))
    ensures m.markers == old(m.markers) - OutSet(Converted(r))
    ensures m.calls == old(m.calls) + MaskCalls(Converted(r), mk)
    ensures AllNumbered(Converted(r), dir, '.')
  {
    var bands := Filter(entries, IsBandImage);
    var mst := SortedDates(MasterDate, bands);
    if mst.Failure? {
      return Failure(mst.error);
    }
    var slv := SortedDates(SlaveDate, bands);
    if slv.Failure? {
      return Failure(slv.error);
    }
    var step, items := PairStep(entries, dir, product, pol), Zip(Printed(mst.value, DMY), Printed(slv.value, DMY));
    var b := ConvertAll(m, step, items, mk);
    CollectNumbered(step, items, dir, '.');
    r := Success(b);
  }

  /** A stacked (or two-product) series: the band dates are read and
    * sorted, then each date converted. */
  method DatedBands(m: Machine, entries: seq<string>, dir: string, product: string, pol: string, mk: Masking)
    returns (r: Result<Conversions>)
    requires m.Valid()
    modifies m
    ensures r == DatedPlan(entries, dir, product, pol)
    ensures m.Valid()
    ensures m.paths == old(m.paths) + OutSet(Converted(r))
    ensures m.markers == old(m.markers) - OutSet(Converted(r))
    ensures m.calls == old(m.calls) + MaskCalls(Converted(r), mk)
    ensures AllNumbered(Converted(r), dir, '_')
  {
    var bands := Filter(entries, IsBandImage);
    var ds := SortedDates(BandDate, bands);
    if ds.Failure? {
      return Failure(ds.error);
    }
    var step, items := MultiStep(entries, dir, product, pol), Printed(ds.value, DMY);
    var b := ConvertAll(m, step, items, mk);
    CollectNumbered(step, items, dir, '_');
    r := Success(b);
  }

  /** A single product: its date is read from the source's name, and its
    * one image of the polarisation converted. */
  method SingleBands(m: Machine, entries: seq<string>, dir: string, source: string, product: string, pol: string,
                     mk: Masking) returns (r: Result<Option<Conversions>>)
    requires m.Valid()
    modifies m
    ensures r == SinglePlan(entries, dir, source, product, pol)
    ensures m.Valid()
    ensures m.paths == old(m.paths) + OutSet(Written(r))
    ensures m.markers == old(m.markers) - OutSet(Written(r))
    ensures m.calls == old(m.calls) + MaskCalls(Written(r), mk)
    ensures AllNumbered(Written(r), dir, '_')
  {
    var d := SingleDate(source);
    if d.Failure? {
      return Failure(d.error);
    }
    var hits := Filter(entries, p => PolImage(pol, p));
    if |hits| != 1 {
      return Success(None);
    }
    var items := [Strftime(d.value, DMY)];
    var b := ConvertAll(m, SingleStep(hits[0], dir, product, pol), items, mk);
    CollectNumbered(SingleStep(hits[0], dir, product, pol), items, dir, '_');
    r := Success(Some(b));
  }

  /** The conversions read from the source's images: the date lists are
    * computed first (any error there stops before anything is written),
    * then the conversion loop runs. */
  method Bands(m: Machine, entries: seq<string>, dir: string, source: string, count: nat, product: string, pol: string,
               mk: Masking) returns (r: Result<Option<Conversions>>)
    requires m.Valid()
    modifies m
    ensures r == BandPlan(entries, dir, source, count, product, pol)
    ensures m.Valid()
    ensures m.paths == old(m.paths) + OutSet(Written(r))
    ensures m.markers == old(m.markers) - OutSet(Written(r))
    ensures m.calls == old(m.calls) + MaskCalls(Written(r), mk)
    ensures AllNumbered(Written(r), dir, if product == "coh" then '.' else '_')
  {
    if product == "coh" || count > 1 {
      var b;
      if product == "coh" {
        b := PairBands(m, entries, dir, product, pol, mk);
      } else {
        b := DatedBands(m, entries, dir, product, pol, mk);
      }
      r := if b.Failure? then Failure(b.error) else Success(Some(b.value));
      assert Written(r) == Converted(b);
    } else {
      r := SingleBands(m, entries, dir, source, product, pol, mk);
    }
  }

  /** The plan ran its conversion loop to the end. */
  predicate Complete(plan: Result<Option<Conversions>>)
  {
    plan.Success? && plan.value.Some? && plan.value.value.error.None?
  }

  /** A file of the output directory whose name does not start with a digit
    * (the marker, the VRT) is none of the numbered outputs. */
  lemma UnnumberedApart(cs: seq<Conversion>, dir: string, sep: char, name: string)
    requires AllNumbered(cs, dir, sep) && |name| > 0 && !IsDigit(name[0])
    ensures PathJoin(dir, name) !in OutSet(cs)
  {
  }

  /** The work inside the temporary directory: stacking, then the
    * conversions; leaving the block removes the directory with whatever
    * scratch stacks are left in it. */
  method Series(m: Machine, files: seq<string>, product: string, pol: string, lay: Layout, temp: string,
                mt: TimeseriesArd, gptWorkers: int, cpus: int, entries: seq<string>, mk: Masking)
    returns (r: Result<Option<Conversions>>)
    requires m.Valid() && Outside(temp, m.paths) && Separate(lay.outDir, temp)
    modifies m
    ensures m.Valid()
    ensures r.Success? ==> r == TimeseriesPlan(files, product, pol, lay, temp, mt.removeMtSpeckle, entries)
    ensures r.Failure? ==>
      (|files| > 2 && r.error.GptRuntimeError?) || r == TimeseriesPlan(files, product, pol, lay, temp, mt.removeMtSpeckle, entries)
    ensures m.paths == old(m.paths) + OutSet(Written(r))
    ensures m.markers == old(m.markers) - OutSet(Written(r))
    ensures |files| <= 2 ==> m.calls == old(m.calls) + MaskCalls(Written(r), mk)
    ensures LogEndsWith(old(m.calls), m.calls, MaskCalls(Written(r), mk))
    ensures AllNumbered(Written(r), lay.outDir, if product == "coh" then '.' else '_')
  {
    ghost var sp := StackProducts(temp, lay.tag, product, pol);
    ghost var before := m.paths;
    ghost var calls0 := m.calls;
    var src := Stack(m, files, temp, lay.tag, product, pol, mt, gptWorkers, cpus);
    ghost var paths1, calls1 := m.paths, m.calls;
    if src.Failure? {
      r := Failure(src.error);
    } else {
      r := Bands(m, entries, lay.outDir, src.value, |files|, product, pol, mk);
    }
    assert m.calls == calls1 + MaskCalls(Written(r), mk);
    LogEndsWithConcat(calls0, calls1, MaskCalls(Written(r), mk));
    ScratchProducts(before, sp, temp, lay.tag, product, pol);
    OutputsApart(Written(r), lay.outDir, if product == "coh" then '.' else '_', temp);
    ScratchLeft(before, paths1, m.paths, sp, OutSet(Written(r)), temp);
    // leaving the `with` block removes the temporary directory
    DropScratch(m, temp, m.paths * sp);
  }

  /** What is left once the scratch stacks are dropped: the paths from
    * before and the outputs. */
  lemma ScratchLeft(before: set<string>, p1: set<string>, mid: set<string>, sp: set<string>, outs: set<string>,
                    temp: string)
    requires before - sp <= p1 <= before + sp && before !! sp && mid == p1 + outs
    requires Below(temp, sp) && Outside(temp, before) && Outside(temp, outs)
    ensures Below(temp, mid * sp) && Outside(temp, mid - mid * sp) && mid - mid * sp == before + outs
  {
  }

  /** The scratch stacks lie below the temporary directory, are products,
    * and (the directory being fresh) are none of the paths from before. */
  lemma ScratchProducts(before: set<string>, sp: set<string>, temp: string, tag: string, product: string, pol: string)
    requires sp == StackProducts(temp, tag, product, pol) && Outside(temp, before)
    ensures Below(temp, sp) && before !! sp
    ensures forall p :: p in sp ==> IsProductPath(p)
  {
    ProductBelow(temp, tag + "_" + product + "_" + pol);
    ProductBelow(temp, tag + "_" + product + "_" + pol + "_mt");
    ProductPaths(TempStack(temp, tag, product, pol));
    ProductPaths(MtStack(temp, tag, product, pol));
  }

  /** Numbered outputs of a directory separate from the temporary one lie
    * outside it. */
  lemma OutputsApart(cs: seq<Conversion>, dir: string, sep: char, temp: string)
    requires AllNumbered(cs, dir, sep) && Separate(dir, temp)
    ensures Outside(temp, OutSet(cs))
  {
    forall f | f in OutSet(cs)
      ensures f != temp && !StartsWith(f, temp + "/")
    {
      var k :| 0 <= k < |cs| && cs[k].outfile == f;
      assert Numbered(cs[k].outfile, dir, k, sep);
      BelowApart(dir, temp, f);
    }
  }

  // ---------------------------------------------------------------- ard_to_ts

  /** What `ard_to_ts` returns: the VRT and the output directory, the
    * non-zero code of the first output that fails its check, or nothing
    * when a single product has no image of the polarisation. */
  datatype TsOutcome = Processed(vrt: string, dir: string) | Rejected(code: int) | NoBand

  /** The error the plan stops with, before or inside the conversion loop. */
  function PlanError(plan: Result<Option<Conversions>>): (e: Option<Error>)
    ensures e.None? <==> plan.Success? && (plan.value.None? || plan.value.value.error.None?)
  {
    if plan.Failure? then Some(plan.error)
    else if plan.value.None? then None
    else plan.value.value.error
  }

  /** The file checks, the marker and the VRT: the first output whose check
    * fails is deleted and its code returned; otherwise the marker is written
    * and the VRT of all outputs built. */
  method Finish(m: Machine, done: seq<Conversion>, lay: Layout, check: string -> int) returns (r: TsOutcome)
    requires m.Valid() && !IsProductPath(lay.checkFile)
    modifies m
    ensures m.Valid()
    ensures FirstRejected(Outputs(done), check).Some? ==>
      (var f := Outputs(done)[FirstRejected(Outputs(done), check).value];
       r == Rejected(check(f)) && r.code != 0
       && m.paths == old(m.paths) - {f} && m.markers == old(m.markers) - {f} && m.calls == old(m.calls))
    ensures FirstRejected(Outputs(done), check).None? ==>
      (r == Processed(lay.outVrt, lay.outDir)
       && m.paths == old(m.paths) + {lay.checkFile, lay.outVrt}
       && m.markers == old(m.markers)[lay.checkFile := MARKER_TEXT] - {lay.outVrt}
       && m.calls == old(m.calls) + [VrtCall(lay.outVrt, Outputs(done))])
  {
    var outs := Outputs(done);
    var code := CheckOutputs(m, outs, check);
    if code != 0 {
      return Rejected(code);
    }
    m.WriteMarker(lay.checkFile, MARKER_TEXT);
    m.Write(VrtCall(lay.outVrt, outs), lay.outVrt);
    r := Processed(lay.outVrt, lay.outDir);
  }

  /** What the time series returns once its plan is known: the plan's
    * error, nothing for a single product without an image of the
    * polarisation, the code of the first rejected output, or the VRT and
    * the directory. */
  function Outcome(plan: Result<Option<Conversions>>, lay: Layout, check: string -> int): Result<TsOutcome>
  {
    if plan.Failure? then Failure(plan.error)
    else if plan.value.None? then Success(NoBand)
    else if plan.value.value.error.Some? then Failure(plan.value.value.error.value)
    else
      var outs := Outputs(plan.value.value.done);
      match FirstRejected(outs, check)
      case Some(k) => Success(Rejected(check(outs[k])))
      case None => Success(Processed(lay.outVrt, lay.outDir))
  }

  /** The paths once the plan has run: its outputs, less the one rejected,
    * or with the marker and the VRT when none is. */
  function PathsAfter(before: set<string>, plan: Result<Option<Conversions>>, lay: Layout, check: string -> int): set<string>
  {
    var done := Written(plan);
    var outs := Outputs(done);
    if PlanError(plan).Some? || plan.value.None? then before + OutSet(done)
    else match FirstRejected(outs, check)
      case Some(k) => before + OutSet(done) - {outs[k]}
      case None => before + OutSet(done) + {lay.checkFile, lay.outVrt}
  }

  /** The marker files once the plan has run: the outputs are written over
    * whatever was there, and the marker is written only when every output
    * passes its check. */
  function MarkersAfter(before: map<string, string>, plan: Result<Option<Conversions>>, lay: Layout,
                        check: string -> int): map<string, string>
  {
    var done := Written(plan);
    if PlanError(plan).Some? || plan.value.None? || FirstRejected(Outputs(done), check).Some? then
      before - OutSet(done)
    else (before - OutSet(done))[lay.checkFile := MARKER_TEXT] - {lay.outVrt}
  }

  /** The VRT call, when the plan ran to the end and every output passed
    * its check. */
  function VrtIfPassed(plan: Result<Option<Conversions>>, lay: Layout, check: string -> int): seq<Command>
  {
    if Complete(plan) && FirstRejected(Outputs(Written(plan)), check).None?
    then [VrtCall(lay.outVrt, Outputs(Written(plan)))] else []
  }

  /** The call log once the plan has run, from the log after the block in
    * the temporary directory and the VRT call of the file checks. */
  lemma ConcludeCalls(plan: Result<Option<Conversions>>, lay: Layout, check: string -> int, mk: Masking,
                      stacked: bool, calls0: seq<Command>, calls1: seq<Command>, calls2: seq<Command>)
    requires LogEndsWith(calls0, calls1, MaskCalls(Written(plan), mk))
    requires !stacked ==> calls1 == calls0 + MaskCalls(Written(plan), mk)
    requires calls2 == calls1 + VrtIfPassed(plan, lay, check)
    ensures LogEndsWith(calls0, calls2, CallsAfter(plan, lay, check, mk))
    ensures !stacked ==> calls2 == calls0 + CallsAfter(plan, lay, check, mk)
  {
    var v := VrtIfPassed(plan, lay, check);
    assert CallsAfter(plan, lay, check, mk) == MaskCalls(Written(plan), mk) + v;
    if v == [] {
      assert calls2 == calls1;
    } else {
      LogEndsWithAppend(calls0, calls1, MaskCalls(Written(plan), mk), v[0]);
      assert v == [v[0]];
    }
  }

  /** The calls the conversions and the VRT add to the log once the plan
    * has run: one masking call per conversion, then the VRT of all outputs
    * when the marker is written. */
  function CallsAfter(plan: Result<Option<Conversions>>, lay: Layout, check: string -> int, mk: Masking): seq<Command>
  {
    var done := Written(plan);
    MaskCalls(done, mk)
    + (if PlanError(plan).None? && plan.value.Some? && FirstRejected(Outputs(done), check).None?
       then [VrtCall(lay.outVrt, Outputs(done))] else [])
  }

  /** What follows the block in the temporary directory: the error the
    * series stopped with, nothing for a single product without an image of
    * the polarisation, or the file checks, the marker and the VRT. */
  method CheckSeries(m: Machine, series: Result<Option<Conversions>>, lay: Layout, check: string -> int)
    returns (r: Result<TsOutcome>)
    requires m.Valid() && !IsProductPath(lay.checkFile)
    modifies m
    ensures m.Valid()
    ensures m.calls == old(m.calls) + VrtIfPassed(series, lay, check)
    ensures !Complete(series) ==>
      (m.paths == old(m.paths) && m.markers == old(m.markers)
       && r == (if series.Failure? then Failure(series.error)
                else if series.value.None? then Success(NoBand)
                else Failure(series.value.value.error.value)))
    ensures Complete(series) ==>
      (var outs := Outputs(Written(series));
       (FirstRejected(outs, check).Some? ==>
         (var f := outs[FirstRejected(outs, check).value];
          r == Success(Rejected(check(f))) && m.paths == old(m.paths) - {f} && m.markers == old(m.markers) - {f}))
       && (FirstRejected(outs, check).None? ==>
         (r == Success(Processed(lay.outVrt, lay.outDir))
          && m.paths == old(m.paths) + {lay.checkFile, lay.outVrt}
          && m.markers == old(m.markers)[lay.checkFile := MARKER_TEXT] - {lay.outVrt})))
  {
    if series.Failure? {
      r := Failure(series.error);
    } else if series.value.None? {
      r := Success(NoBand);
    } else if series.value.value.error.Some? {
      r := Failure(series.value.value.error.value);
    } else {
      var outcome := Finish(m, series.value.value.done, lay, check);
      r := Success(outcome);
    }
  }

  /** The time series of one polarisation of one product over a burst or a
    * track. `temp` is the fresh temporary directory, `entries` the listing
    * of the source product's data directory, `check` the file check of a
    * GeoTIFF and `cpus` the processor count. A failing stacking run (more
    * than two inputs) raises before anything is written. */
  method ArdToTimeseries(m: Machine, files: seq<string>, product: string, pol: string, config: ConfigDict,
                         burst: Option<string>, track: string, temp: string, cpus: int, entries: seq<string>,
                         check: string -> int) returns (r: Result<TsOutcome>)
    requires m.Valid() && Outside(temp, m.paths)
    requires Separate(TsLayout(config.processingDir, burst, track, product, pol).outDir, temp)
    modifies m
    ensures m.Valid()
    ensures var lay := TsLayout(config.processingDir, burst, track, product, pol);
      Finished(old(m.paths), lay) ==>
        (r == Success(Processed(lay.outVrt, lay.outDir))
         && m.paths == old(m.paths) && m.markers == old(m.markers) && m.calls == old(m.calls))
    ensures var lay := TsLayout(config.processingDir, burst, track, product, pol);
      var plan := TimeseriesPlan(files, product, pol, lay, temp, config.processing.timeseries.removeMtSpeckle, entries);
      !Finished(old(m.paths), lay) ==>
        ((r == Outcome(plan, lay, check)
          && m.paths == PathsAfter(old(m.paths), plan, lay, check)
          && m.markers == MarkersAfter(old(m.markers), plan, lay, check)
          && LogEndsWith(old(m.calls), m.calls, CallsAfter(plan, lay, check, SeriesMasking(config, product, lay)))
          && (!(|files| > 2) ==> m.calls == old(m.calls) + CallsAfter(plan, lay, check, SeriesMasking(config, product, lay))))
         || (|files| > 2 && r.Failure? && r.error.GptRuntimeError?
             && m.paths == old(m.paths) && m.markers == old(m.markers)))
  {
    var lay := TsLayout(config.processingDir, burst, track, product, pol);
    if lay.checkFile in m.paths && lay.outVrt in m.paths {
      return Success(Processed(lay.outVrt, lay.outDir));
    }
    var mt := config.processing.timeseries;
    var mk := SeriesMasking(config, product, lay);
    ghost var paths0, markers0, calls0 := m.paths, m.markers, m.calls;
    var series := Series(m, files, product, pol, lay, temp, mt, config.gptMaxWorkers, cpus, entries, mk);
    ghost var paths1, markers1, calls1 := m.paths, m.markers, m.calls;
    MarkerPathNotProduct(lay.outDir, "." + product + "." + pol + ".processed");
    r := CheckSeries(m, series, lay, check);
    Conclude(series, TimeseriesPlan(files, product, pol, lay, temp, mt.removeMtSpeckle, entries), |files| > 2,
      lay, check, mk, r, paths0, markers0, calls0, paths1, markers1, calls1, m.paths, m.markers, m.calls);
  }

  /** The time series' result and state in terms of its plan, from what
    * the block in the temporary directory and the file checks did. */
  lemma Conclude(series: Result<Option<Conversions>>, plan: Result<Option<Conversions>>, stacked: bool,
                 lay: Layout, check: string -> int, mk: Masking, r: Result<TsOutcome>,
                 paths0: set<string>, markers0: map<string, string>, calls0: seq<Command>,
                 paths1: set<string>, markers1: map<string, string>, calls1: seq<Command>,
                 paths2: set<string>, markers2: map<string, string>, calls2: seq<Command>)
    requires series.Success? ==> series == plan
    requires series.Failure? ==> (stacked && series.error.GptRuntimeError?) || series == plan
    requires paths1 == paths0 + OutSet(Written(series)) && markers1 == markers0 - OutSet(Written(series))
    requires LogEndsWith(calls0, calls1, MaskCalls(Written(series), mk))
    requires !stacked ==> calls1 == calls0 + MaskCalls(Written(series), mk)
    requires calls2 == calls1 + VrtIfPassed(series, lay, check)
    requires !Complete(series) ==>
      (paths2 == paths1 && markers2 == markers1
       && r == (if series.Failure? then Failure(series.error)
                else if series.value.None? then Success(NoBand)
                else Failure(series.value.value.error.value)))
    requires Complete(series) ==>
      (var outs := Outputs(Written(series));
       (FirstRejected(outs, check).Some? ==>
         (var f := outs[FirstRejected(outs, check).value];
          r == Success(Rejected(check(f))) && paths2 == paths1 - {f} && markers2 == markers1 - {f}))
       && (FirstRejected(outs, check).None? ==>
         (r == Success(Processed(lay.outVrt, lay.outDir))
          && paths2 == paths1 + {lay.checkFile, lay.outVrt}
          && markers2 == markers1[lay.checkFile := MARKER_TEXT] - {lay.outVrt})))
    ensures (r == Outcome(plan, lay, check)
             && paths2 == PathsAfter(paths0, plan, lay, check) && markers2 == MarkersAfter(markers0, plan, lay, check)
             && LogEndsWith(calls0, calls2, CallsAfter(plan, lay, check, mk))
             && (!stacked ==> calls2 == calls0 + CallsAfter(plan, lay, check, mk)))
      || (stacked && r.Failure? && r.error.GptRuntimeError? && paths2 == paths0 && markers2 == markers0)
  {
    if series == plan {
      ConcludeCalls(plan, lay, check, mk, stacked, calls0, calls1, calls2);
    }
    if series.Failure? && series != plan {
      assert OutSet(Written(series)) == {};
    } else if Complete(series) {
      var outs := Outputs(Written(series));
      match FirstRejected(outs, check)
      case Some(k) =>
        assert outs[k] in OutSet(Written(series));
      case None =>
    } else {
      assert OutSet(Written(series)) == {} || series.value.value.error.Some?;
    }
  }

  /** The marker and the VRT are none of the numbered outputs. */
  lemma LayoutApart(cs: seq<Conversion>, lay: Layout, product: string, pol: string, processingDir: string,
                    burst: Option<string>, track: string)
    requires lay == TsLayout(processingDir, burst, track, product, pol)
    requires AllNumbered(cs, lay.outDir, if product == "coh" then '.' else '_')
    ensures lay.checkFile !in OutSet(cs) && lay.outVrt !in OutSet(cs) && lay.checkFile != lay.outVrt
  {
    var sep := if product == "coh" then '.' else '_';
    UnnumberedApart(cs, lay.outDir, sep, "." + product + "." + pol + ".processed");
    UnnumberedApart(cs, lay.outDir, sep, "Timeseries_" + product + "_" + pol + ".vrt");
    assert lay.checkFile[|lay.outDir| + 1] == '.' && lay.outVrt[|lay.outDir| + 1] == 'T';
  }

  // ---------------------------------------------------------------- order

  /** The conversions of the sorted dates `ds` of a stacked series. */
  lemma DatedSteps(entries: seq<string>, dir: string, product: string, pol: string, ds: seq<Date>)
    requires forall k :: 0 <= k < |ds| ==> Valid(ds[k]) && 1000 <= ds[k].year
    ensures var b := Collect(MultiStep(entries, dir, product, pol), Printed(ds, DMY));
      forall k :: 0 <= k < |b.done| ==>
        (b.done[k].outfile == DatedFile(dir, k, Strftime(ds[k], YMD), product, pol)
         && FirstHit(entries, pol, Strftime(ds[k], DMY)) == Success(b.done[k].infile))
  {
    var items := Printed(ds, DMY);
    var step := MultiStep(entries, dir, product, pol);
    var b := Collect(step, items);
    forall k | 0 <= k < |b.done|
      ensures b.done[k].outfile == DatedFile(dir, k, Strftime(ds[k], YMD), product, pol)
      ensures FirstHit(entries, pol, Strftime(ds[k], DMY)) == Success(b.done[k].infile)
    {
      ReformatPrinted(ds[k], YMD);
      assert step(k, items[k]) == Success(b.done[k]);
    }
  }

  /** The plan of a stacked series once its dates are read. */
  lemma DatedPlanOf(entries: seq<string>, dir: string, product: string, pol: string, ds: seq<Date>)
    requires SortedDates(BandDate, Filter(entries, IsBandImage)) == Success(ds)
    ensures forall k :: 0 <= k < |ds| ==> Valid(ds[k])
    ensures DatedPlan(entries, dir, product, pol) == Success(Collect(MultiStep(entries, dir, product, pol), Printed(ds, DMY)))
  {
  }

  /** A stacked series writes its outputs in date order: the `k`-th output is
    * numbered `k + 1`, carries the `k`-th of the sorted band dates as
    * `%Y%m%d`, and is read from the first image matching that date, for
    * dates with four-digit years. */
  lemma DatedChronological(entries: seq<string>, dir: string, product: string, pol: string, ds: seq<Date>)
    requires SortedDates(BandDate, Filter(entries, IsBandImage)) == Success(ds)
    requires forall d :: d in ds ==> 1000 <= d.year
    ensures DateOrder.Sorted(ds)
    ensures DatedPlan(entries, dir, product, pol).Success?
    ensures var b := DatedPlan(entries, dir, product, pol).value;
      |b.done| <= |ds| && (b.error.None? ==> |b.done| == |ds|)
      && forall k :: 0 <= k < |b.done| ==>
        (b.done[k].outfile == DatedFile(dir, k, Strftime(ds[k], YMD), product, pol)
         && FirstHit(entries, pol, Strftime(ds[k], DMY)) == Success(b.done[k].infile))
  {
    DatedPlanOf(entries, dir, product, pol, ds);
    assert forall k :: 0 <= k < |ds| ==> ds[k] in ds;
    DatedSteps(entries, dir, product, pol, ds);
  }

  /** The conversions of the sorted master and slave dates of a coherence
    * series. */
  lemma PairSteps(entries: seq<string>, dir: string, product: string, pol: string, mst: seq<Date>, slv: seq<Date>)
    requires forall k :: 0 <= k < |mst| ==> Valid(mst[k]) && 1000 <= mst[k].year
    requires forall k :: 0 <= k < |slv| ==> Valid(slv[k]) && 1000 <= slv[k].year
    ensures var b := Collect(PairStep(entries, dir, product, pol), Zip(Printed(mst, DMY), Printed(slv, DMY)));
      forall k :: 0 <= k < |b.done| ==>
        (b.done[k].outfile == PairFile(dir, k, Strftime(mst[k], SHORT), Strftime(slv[k], SHORT), product, pol)
         && FirstHit(entries, pol, Strftime(mst[k], DMY) + "_" + Strftime(slv[k], DMY)) == Success(b.done[k].infile))
  {
    var items := Zip(Printed(mst, DMY), Printed(slv, DMY));
    var step := PairStep(entries, dir, product, pol);
    var b := Collect(step, items);
    forall k | 0 <= k < |b.done|
      ensures b.done[k].outfile == PairFile(dir, k, Strftime(mst[k], SHORT), Strftime(slv[k], SHORT), product, pol)
      ensures FirstHit(entries, pol, Strftime(mst[k], DMY) + "_" + Strftime(slv[k], DMY)) == Success(b.done[k].infile)
    {
      ReformatPrinted(mst[k], SHORT);
      ReformatPrinted(slv[k], SHORT);
      assert step(k, items[k]) == Success(b.done[k]);
    }
  }

  /** The plan of a coherence series once both date lists are read. */
  lemma PairPlanOf(entries: seq<string>, dir: string, product: string, pol: string, mst: seq<Date>, slv: seq<Date>)
    requires SortedDates(MasterDate, Filter(entries, IsBandImage)) == Success(mst)
    requires SortedDates(SlaveDate, Filter(entries, IsBandImage)) == Success(slv)
    ensures forall k :: 0 <= k < |mst| ==> Valid(mst[k])
    ensures forall k :: 0 <= k < |slv| ==> Valid(slv[k])
    ensures PairPlan(entries, dir, product, pol)
      == Success(Collect(PairStep(entries, dir, product, pol), Zip(Printed(mst, DMY), Printed(slv, DMY))))
  {
  }

  /** A coherence series pairs the `k`-th master date with the `k`-th slave
    * date, each list sorted on its own: the `k`-th output is numbered
    * `k + 1`, carries both dates as `%y%m%d`, and is read from the first
    * image matching `<master>_<slave>`, for dates with four-digit years. */
  lemma PairsChronological(entries: seq<string>, dir: string, product: string, pol: string,
                           mst: seq<Date>, slv: seq<Date>)
    requires SortedDates(MasterDate, Filter(entries, IsBandImage)) == Success(mst)
    requires SortedDates(SlaveDate, Filter(entries, IsBandImage)) == Success(slv)
    requires forall d :: d in mst ==> 1000 <= d.year
    requires forall d :: d in slv ==> 1000 <= d.year
    ensures DateOrder.Sorted(mst) && DateOrder.Sorted(slv) && |mst| == |slv|
    ensures PairPlan(entries, dir, product, pol).Success?
    ensures var b := PairPlan(entries, dir, product, pol).value;
      |b.done| <= |mst| && (b.error.None? ==> |b.done| == |mst|)
      && forall k :: 0 <= k < |b.done| ==>
        (b.done[k].outfile == PairFile(dir, k, Strftime(mst[k], SHORT), Strftime(slv[k], SHORT), product, pol)
         && FirstHit(entries, pol, Strftime(mst[k], DMY) + "_" + Strftime(slv[k], DMY)) == Success(b.done[k].infile))
  {
    PairPlanOf(entries, dir, product, pol, mst, slv);
    assert forall k :: 0 <= k < |mst| ==> mst[k] in mst;
    assert forall k :: 0 <= k < |slv| ==> slv[k] in slv;
    PairSteps(entries, dir, product, pol, mst, slv);
  }

  /** The marker of a time series is written exactly when its conversions
    * all ran and every output passed its check; in every other outcome the
    * marker is as it was. */
  lemma MarkerOnlyWhenPassed(before: map<string, string>, plan: Result<Option<Conversions>>, check: string -> int,
                             processingDir: string, burst: Option<string>, track: string, product: string, pol: string)
    requires AllNumbered(Written(plan), TsLayout(processingDir, burst, track, product, pol).outDir,
                         if product == "coh" then '.' else '_')
    ensures var lay := TsLayout(processingDir, burst, track, product, pol);
      var after := MarkersAfter(before, plan, lay, check);
      (Outcome(plan, lay, check) == Success(Processed(lay.outVrt, lay.outDir))
       <==> Complete(plan) && forall k :: 0 <= k < |Written(plan)| ==> check(Written(plan)[k].outfile) == 0)
      && (Outcome(plan, lay, check) == Success(Processed(lay.outVrt, lay.outDir)) ==>
            lay.checkFile in after && after[lay.checkFile] == MARKER_TEXT && lay.outVrt !in after)
      && (Outcome(plan, lay, check) != Success(Processed(lay.outVrt, lay.outDir)) ==>
            MarkerUnchanged(before, after, lay.checkFile))
  {
    var lay := TsLayout(processingDir, burst, track, product, pol);
    LayoutApart(Written(plan), lay, product, pol, processingDir, burst, track);
  }

  /** A rejected output is the only file of the plan that is deleted: every
    * other output stays, and neither the marker nor the VRT is written. */
  lemma RejectedKeepsOthers(before: set<string>, plan: Result<Option<Conversions>>, check: string -> int,
                            processingDir: string, burst: Option<string>, track: string, product: string, pol: string)
    requires AllNumbered(Written(plan), TsLayout(processingDir, burst, track, product, pol).outDir,
                         if product == "coh" then '.' else '_')
    requires before !! OutSet(Written(plan))
    ensures var lay := TsLayout(processingDir, burst, track, product, pol);
      var after := PathsAfter(before, plan, lay, check);
      var outs := Outputs(Written(plan));
      Outcome(plan, lay, check).Success? && Outcome(plan, lay, check).value.Rejected? ==>
        (exists k :: 0 <= k < |outs| && check(outs[k]) != 0 && Outcome(plan, lay, check).value.code == check(outs[k])
           && outs[k] !in after
           && (forall j :: 0 <= j < |outs| && j != k ==> outs[j] in after))
        && (lay.checkFile in after <==> lay.checkFile in before)
        && (lay.outVrt in after <==> lay.outVrt in before)
  {
    var lay := TsLayout(processingDir, burst, track, product, pol);
    var outs := Outputs(Written(plan));
    LayoutApart(Written(plan), lay, product, pol, processingDir, burst, track);
    if Outcome(plan, lay, check).Success? && Outcome(plan, lay, check).value.Rejected? {
      var k := FirstRejected(outs, check).value;
      var after := before + OutSet(Written(plan)) - {outs[k]};
      assert PathsAfter(before, plan, lay, check) == after;
      assert Outcome(plan, lay, check).value.code == check(outs[k]);
      NumberedDistinct(Written(plan), lay.outDir, if product == "coh" then '.' else '_');
      RemoveOne(before, Written(plan), k);
      assert 0 <= k < |outs| && check(outs[k]) != 0 && outs[k] !in after
        && (forall j :: 0 <= j < |outs| && j != k ==> outs[j] in after);
    }
  }

  /** Deleting one of several distinct new outputs leaves the others. */
  lemma RemoveOne(before: set<string>, cs: seq<Conversion>, k: nat)
    requires k < |cs| && before !! OutSet(cs)
    requires forall i, j :: 0 <= i < j < |cs| ==> cs[i].outfile != cs[j].outfile
    ensures var after := before + OutSet(cs) - {Outputs(cs)[k]};
      Outputs(cs)[k] !in after && forall j :: 0 <= j < |cs| && j != k ==> Outputs(cs)[j] in after
  {
    var outs := Outputs(cs);
    assert outs[k] in OutSet(cs);
    forall j | 0 <= j < |cs| && j != k
      ensures outs[j] in before + OutSet(cs) - {outs[k]}
    {
      assert outs[j] in OutSet(cs);
    }
  }
}
