/** The time-series part of burst processing: which burst directories hold
  * only empty products, the extents and time series computed for the
  * others, their timescans, and the mosaics of time-series and timescan
  * layers across bursts. The raster computations themselves (extents,
  * stacks, metrics, mosaics) are opaque: the model yields the jobs handed
  * to them, in order, computed from the set of existing paths and the text
  * of the marker files. */
module BurstTs {
  import opened Errors
  import opened Strings
  import opened Host
  import opened TextOrder
  import opened Config
  import PythonSemantics
  import GrdBatch
  import Raster

  /** The time-series products of a burst. */
  const PRODUCT_LIST: seq<string> := [
    "bs_HH", "bs_VV", "bs_HV", "bs_VH",
    "coh_VV", "coh_VH", "coh_HH", "coh_HV",
    "pol_Entropy", "pol_Anisotropy", "pol_Alpha"]

  // ------------------------------------------------------------ pathlib globs

  /** `fnmatch` of a name against a pattern whose only wildcard is `*`;
    * pathlib's wildcards also match names starting with a dot. */
  predicate Wild(s: string, p: string)
    decreases |p|, |s|
  {
    if |p| == 0 then |s| == 0
    else if p[0] == '*' then Wild(s, p[1..]) || (|s| > 0 && Wild(s[1..], p))
    else |s| > 0 && s[0] == p[0] && Wild(s[1..], p[1..])
  }

  /** A pattern without wildcards matches only itself. */
  lemma {:induction false} WildLiteral(s: string, lit: string)
    requires '*' !in lit
    ensures Wild(s, lit) <==> s == lit
    decreases |lit|
  {
    if |lit| > 0 && |s| > 0 {
      assert '*' !in lit[1..] by {
        forall k | 0 <= k < |lit| - 1 ensures lit[1..][k] != '*' {
          assert lit[1..][k] == lit[k + 1];
        }
      }
      WildLiteral(s[1..], lit[1..]);
      assert s == [s[0]] + s[1..] && lit == [lit[0]] + lit[1..];
    }
  }

  /** A pattern opening with a literal part matches the names that start
    * with that part and whose remainder matches the rest. */
  lemma {:induction false} WildPrefix(s: string, lit: string, rest: string)
    requires '*' !in lit
    ensures Wild(s, lit + rest) <==> StartsWith(s, lit) && Wild(s[|lit|..], rest)
    decreases |lit|
  {
    if |lit| == 0 {
      assert lit + rest == rest && s[0..] == s;
    } else {
      var p := lit + rest;
      assert p[0] == lit[0] && p[1..] == lit[1..] + rest;
      assert '*' !in lit[1..] by {
        forall k | 0 <= k < |lit| - 1 ensures lit[1..][k] != '*' {
          assert lit[1..][k] == lit[k + 1];
        }
      }
      if |s| > 0 {
        WildPrefix(s[1..], lit[1..], rest);
        if |lit| <= |s| {
          assert s[1..][|lit| - 1..] == s[|lit|..];
          assert s[..|lit|] == [s[0]] + s[1..][..|lit| - 1];
          assert lit == [lit[0]] + lit[1..];
        }
      }
    }
  }

  /** A pattern closing with a literal part matches only names that end
    * with that part. */
  lemma {:induction false} WildSuffix(s: string, p: string, lit: string)
    requires '*' !in lit && Wild(s, p + lit)
    ensures EndsWith(s, lit)
    decreases |p|, |s|
  {
    var q := p + lit;
    if |p| == 0 {
      assert q == lit;
      WildLiteral(s, lit);
    } else {
      assert q[0] == p[0] && q[1..] == p[1..] + lit;
      if p[0] == '*' && Wild(s, q[1..]) {
        WildSuffix(s, p[1..], lit);
      } else {
        WildSuffix(s[1..], if p[0] == '*' then p else p[1..], lit);
        assert s[1..][|s| - 1 - |lit|..] == s[|s| - |lit|..];
      }
    }
  }

  /** A path `dir/<c1>/.../<cn>` whose components match the patterns
    * `pats` in turn: pathlib's `dir.glob('<p1>/.../<pn>')`. */
  predicate PathMatch(p: string, dir: string, pats: seq<string>)
  {
    StartsWith(p, dir + "/")
    && var parts := Split(p[|dir| + 1..], '/');
    |parts| == |pats| && forall k :: 0 <= k < |parts| ==> Wild(parts[k], pats[k])
  }

  function PathGlob(paths: set<string>, dir: string, pats: seq<string>): (r: set<string>)
    ensures r <= paths
    ensures forall p :: p in r <==> p in paths && PathMatch(p, dir, pats)
  {
    set p | p in paths && PathMatch(p, dir, pats)
  }

  /** The base name of a match of `dir.glob('<p1>/.../<pn>')` matches the
    * last pattern. */
  lemma PathMatchName(p: string, dir: string, pats: seq<string>)
    requires PathMatch(p, dir, pats) && |pats| > 0
    ensures Wild(LastField(p, '/'), pats[|pats| - 1])
  {
    var rest := p[|dir| + 1..];
    var parts := Split(rest, '/');
    assert p == dir + ['/'] + rest;
    SplitConcat(dir, '/', rest);
    assert Split(p, '/') == Split(dir, '/') + parts;
    assert LastField(p, '/') == parts[|parts| - 1];
  }

  // ---------------------------------------------------- empty burst directories

  /** The files `rglob('*.processed')` finds below a burst directory (a full
    * path ends with `.processed` exactly when its base name does). */
  function MarkerFiles(paths: set<string>, dir: string): (r: set<string>)
    ensures forall p :: p in r <==> p in paths && StartsWith(p, dir + "/") && EndsWith(p, ".processed")
  {
    set p | p in paths && StartsWith(p, dir + "/") && EndsWith(p, ".processed")
  }

  /** The text of a file: a marker's recorded lines, nothing for any other
    * file. */
  function TextOf(markers: map<string, string>, p: string): string
  {
    if p in markers then markers[p] else ""
  }

  /** How many of `lines` mention "empty". */
  function CountEmpty(lines: seq<string>): nat
  {
    if |lines| == 0 then 0
    else CountEmpty(lines[..|lines| - 1]) + if Contains(lines[|lines| - 1], "empty") then 1 else 0
  }

  /** The lines of a file mentioning "empty" (a line read with its newline
    * mentions it exactly when the line without it does). */
  function EmptyLines(text: string): nat
  {
    CountEmpty(Split(text, '\n'))
  }

  /** The lines mentioning "empty" of each file. */
  function EmptyCounts(markers: map<string, string>): string -> nat
  {
    (f: string) => EmptyLines(TextOf(markers, f))
  }

  /** The total of `count` over the files `files`. */
  function Sum(files: seq<string>, count: string -> nat): nat
  {
    if |files| == 0 then 0
    else Sum(files[..|files| - 1], count) + count(files[|files| - 1])
  }

  /** A burst directory counts as empty when its markers hold as many lines
    * mentioning "empty" as there are markers. */
  predicate IsEmptyDir(paths: set<string>, markers: map<string, string>, dir: string)
  {
    Sum(SortSet(MarkerFiles(paths, dir)), EmptyCounts(markers)) == |MarkerFiles(paths, dir)|
  }

  lemma {:induction false} SumConcat(a: seq<string>, b: seq<string>, count: string -> nat)
    ensures Sum(a + b, count) == Sum(a, count) + Sum(b, count)
    decreases |b|
  {
    if |b| == 0 {
      assert a + b == a;
    } else {
      assert (a + b)[..|a + b| - 1] == a + b[..|b| - 1];
      SumConcat(a, b[..|b| - 1], count);
    }
  }

  /** The total does not depend on the order the files are listed in. */
  lemma {:induction false} SumPermutation(a: seq<string>, b: seq<string>, count: string -> nat)
    requires multiset(a) == multiset(b)
    ensures Sum(a, count) == Sum(b, count)
    decreases |a|
  {
    if |a| == 0 {
      assert |b| == |multiset(b)| == 0;
    } else {
      var x := a[|a| - 1];
      var init := a[..|a| - 1];
      assert a == init + [x];
      assert x in multiset(b);
      var i :| 0 <= i < |b| && b[i] == x;
      RemoveAt(b, i);
      var rest := b[..i] + b[i + 1..];
      assert multiset(init) == multiset(a) - multiset{x};
      SumPermutation(init, rest, count);
      SumRemove(b, i, count);
    }
  }

  /** Taking one element out of a list takes one occurrence out of its
    * multiset. */
  lemma RemoveAt(b: seq<string>, i: nat)
    requires i < |b|
    ensures multiset(b[..i] + b[i + 1..]) == multiset(b) - multiset{b[i]}
  {
    assert b == b[..i] + [b[i]] + b[i + 1..];
    assert multiset(b) == multiset(b[..i]) + multiset{b[i]} + multiset(b[i + 1..]);
  }

  lemma SumRemove(b: seq<string>, i: nat, count: string -> nat)
    requires i < |b|
    ensures Sum(b, count) == Sum(b[..i] + b[i + 1..], count) + count(b[i])
  {
    var left, x, right := b[..i], b[i], b[i + 1..];
    assert b == left + b[i..];
    assert b[i..] == [x] + right;
    SumConcat(left, b[i..], count);
    SumConcat([x], right, count);
    SumConcat(left, right, count);
    assert Sum([x], count) == count(x) by {
      assert [x][..0] == [];
    }
  }

  /** When every file counts `c`, the files count `c` each. */
  lemma {:induction false} SumUniform(files: seq<string>, count: string -> nat, c: nat)
    requires forall f :: f in files ==> count(f) == c
    ensures Sum(files, count) == c * |files|
    decreases |files|
  {
    if |files| > 0 {
      var init, last := files[..|files| - 1], files[|files| - 1];
      assert files == init + [last];
      SumUniform(init, count, c);
      assert c * |files| == c * |init| + c;
    }
  }

  /** A directory without markers counts as empty; one whose every marker
    * has exactly one line mentioning "empty" is empty; one with markers
    * none of which mentions "empty" is not. */
  lemma EmptyDirCases(paths: set<string>, markers: map<string, string>, dir: string)
    ensures MarkerFiles(paths, dir) == {} ==> IsEmptyDir(paths, markers, dir)
    ensures (forall f :: f in MarkerFiles(paths, dir) ==> EmptyLines(TextOf(markers, f)) == 1)
            ==> IsEmptyDir(paths, markers, dir)
    ensures MarkerFiles(paths, dir) != {} && (forall f :: f in MarkerFiles(paths, dir) ==> EmptyLines(TextOf(markers, f)) == 0)
            ==> !IsEmptyDir(paths, markers, dir)
  {
    var files := SortSet(MarkerFiles(paths, dir));
    if forall f :: f in MarkerFiles(paths, dir) ==> EmptyLines(TextOf(markers, f)) == 1 {
      SumUniform(files, EmptyCounts(markers), 1);
    }
    if forall f :: f in MarkerFiles(paths, dir) ==> EmptyLines(TextOf(markers, f)) == 0 {
      SumUniform(files, EmptyCounts(markers), 0);
    }
  }

  /** The lines of one file mentioning "empty", counted line by line. */
  method CountLines(text: string) returns (count: nat)
    ensures count == EmptyLines(text)
  {
    var lines := Split(text, '\n');
    count := 0;
    for j := 0 to |lines|
      invariant count == CountEmpty(lines[..j])
    {
      assert lines[..j + 1][..j] == lines[..j];
      if Contains(lines[j], "empty") {
        count := count + 1;
      }
    }
    assert lines[..|lines|] == lines;
  }

  /** `_burstdir_is_empty`: the markers below the directory, in the order
    * the listing gives them, are read line by line, and the directory is
    * empty when the lines mentioning "empty" are as many as the markers. */
  method BurstdirIsEmpty(paths: set<string>, markers: map<string, string>, burstDir: string) returns (isEmpty: bool)
    ensures isEmpty == IsEmptyDir(paths, markers, burstDir)
  {
    var found := Listing(MarkerFiles(paths, burstDir));
    var counter := 0;
    for k := 0 to |found|
      invariant counter == Sum(found[..k], EmptyCounts(markers))
    {
      assert found[..k + 1][..k] == found[..k];
      var f := found[k];
      if EndsWith(f, ".processed") {
        var count := CountLines(TextOf(markers, f));
        counter := counter + count;
      }
    }
    assert found[..|found|] == found;
    SortSetMultiset(MarkerFiles(paths, burstDir));
    SumPermutation(found, SortSet(MarkerFiles(paths, burstDir)), EmptyCounts(markers));
    assert |found| == |multiset(found)| == |MarkerFiles(paths, burstDir)|;
    isEmpty := counter == |found|;
  }

  // --------------------------------------------------------- plans over lists

  /** `[x for u in items for x in f(u)]`. */
  function Concat<U, T>(items: seq<U>, f: U -> seq<T>): seq<T>
  {
    if |items| == 0 then [] else Concat(items[..|items| - 1], f) + f(items[|items| - 1])
  }

  /** An element of the concatenation comes from some item, and every
    * item's elements are in it. */
  lemma {:induction false} ConcatMembers<U, T>(items: seq<U>, f: U -> seq<T>, x: T)
    ensures x in Concat(items, f) <==> exists u :: u in items && x in f(u)
    decreases |items|
  {
    if |items| > 0 {
      var init, last := items[..|items| - 1], items[|items| - 1];
      ConcatMembers(init, f, x);
      assert forall u :: u in items <==> u in init || u == last by {
        assert items == init + [last];
      }
    }
  }

  /** The elements of a non-empty sequence are those of its front and its
    * last one. */
  lemma SnocMembers<T>(s: seq<T>)
    requires |s| > 0
    ensures forall x :: x in s <==> x in s[..|s| - 1] || x == s[|s| - 1]
  {
    assert s == s[..|s| - 1] + [s[|s| - 1]];
  }

  lemma ConcatStep<U, T>(items: seq<U>, f: U -> seq<T>, k: nat)
    requires k < |items|
    ensures Concat(items[..k + 1], f) == Concat(items[..k], f) + f(items[k])
  {
    assert items[..k + 1][..k] == items[..k];
  }

  /** The same where computing an item's part may raise: the first failure,
    * in list order, is raised. */
  function ConcatResult<U, T>(items: seq<U>, f: U -> Result<seq<T>>): (r: Result<seq<T>>)
  {
    if |items| == 0 then Success([])
    else
      var prev :- ConcatResult(items[..|items| - 1], f);
      var last :- f(items[|items| - 1]);
      Success(prev + last)
  }

  /** The parts of the items that succeed. */
  function Values<U, T>(f: U -> Result<seq<T>>): U -> seq<T>
  {
    (u: U) => if f(u).Success? then f(u).value else []
  }

  /** The computation succeeds exactly when every item's part does, and
    * then yields their concatenation; otherwise it raises one of the
    * items' errors. */
  lemma {:induction false} ConcatResultValue<U, T>(items: seq<U>, f: U -> Result<seq<T>>)
    ensures var r := ConcatResult(items, f);
      (r.Success? <==> forall k :: 0 <= k < |items| ==> f(items[k]).Success?)
      && (r.Success? ==> r.value == Concat(items, Values(f)))
      && (r.Failure? ==> exists k :: 0 <= k < |items| && f(items[k]) == Failure(r.error))
    decreases |items|
  {
    if |items| > 0 {
      var init := items[..|items| - 1];
      ConcatResultValue(init, f);
      assert forall k :: 0 <= k < |init| ==> init[k] == items[k];
    }
  }

  /** When the computation succeeds, every item's part is in its result. */
  lemma ConcatResultIn<U, T>(items: seq<U>, f: U -> Result<seq<T>>, k: nat)
    requires ConcatResult(items, f).Success? && k < |items|
    ensures f(items[k]).Success?
    ensures forall x :: x in f(items[k]).value ==> x in ConcatResult(items, f).value
  {
    ConcatResultValue(items, f);
    forall x | x in f(items[k]).value {
      ConcatMembers(items, Values(f), x);
    }
  }

  /** When the computation succeeds, every element of its result comes from
    * some item's part. */
  lemma ConcatResultFrom<U, T>(items: seq<U>, f: U -> Result<seq<T>>, x: T)
    requires ConcatResult(items, f).Success? && x in ConcatResult(items, f).value
    ensures exists k :: 0 <= k < |items| && f(items[k]).Success? && x in f(items[k]).value
  {
    ConcatResultValue(items, f);
    ConcatMembers(items, Values(f), x);
    var u :| u in items && x in Values(f)(u);
    var k :| 0 <= k < |items| && items[k] == u;
  }

  lemma ConcatResultStep<U, T>(items: seq<U>, f: U -> Result<seq<T>>, k: nat, done: seq<T>)
    requires k < |items| && ConcatResult(items[..k], f) == Success(done)
    ensures ConcatResult(items[..k + 1], f)
         == if f(items[k]).Success? then Success(done + f(items[k]).value) else Failure(f(items[k]).error)
  {
    assert items[..k + 1][..k] == items[..k];
  }

  /** Once an item fails, the whole computation fails with its error. */
  lemma {:induction false} ConcatResultStop<U, T>(items: seq<U>, f: U -> Result<seq<T>>, k: nat)
    requires k < |items| && ConcatResult(items[..k], f).Success? && f(items[k]).Failure?
    ensures ConcatResult(items, f) == Failure(f(items[k]).error)
    decreases |items|
  {
    if k + 1 < |items| {
      var init := items[..|items| - 1];
      assert init[..k] == items[..k] && init[k] == items[k];
      ConcatResultStop(init, f, k);
    } else {
      assert items[..k + 1] == items;
      ConcatResultStep(items, f, k, ConcatResult(items[..k], f).value);
    }
  }

  // ------------------------------------------------------------------ extents

  function BurstDir(processingDir: string, burst: string): string
  {
    PathJoin(processingDir, burst)
  }

  // The images a recursive glob for names ending in `img` finds below the
  // burst directory, at any depth, without the layover layers.
  function ExtentScenes(paths: set<string>, burstDir: string): (r: set<string>)
    ensures forall p :: p in r ==> p in paths && StartsWith(p, burstDir + "/") && !Contains(p, "layover")
  {
    set p | p in paths && StartsWith(p, burstDir + "/") && Wild(LastField(p, '/'), "*img") && !Contains(p, "layover")
  }

  /** The common extent of a burst's images, written as
    * `<burst_dir>/<burst>.extent.gpkg`. */
  datatype ExtentJob = ExtentJob(burst: string, scenes: set<string>, extent: string)

  function ExtentOf(paths: set<string>, processingDir: string, burst: string): ExtentJob
  {
    var dir := BurstDir(processingDir, burst);
    ExtentJob(burst, ExtentScenes(paths, dir), PathJoin(dir, burst + ".extent.gpkg"))
  }

  /** One burst of `_create_extents`: nothing for an empty burst directory. */
  function BurstExtents(paths: set<string>, markers: map<string, string>, processingDir: string, burst: string)
    : seq<ExtentJob>
  {
    if IsEmptyDir(paths, markers, BurstDir(processingDir, burst)) then [] else [ExtentOf(paths, processingDir, burst)]
  }

  function ExtentPlan(paths: set<string>, markers: map<string, string>, processingDir: string, bursts: seq<string>)
    : seq<ExtentJob>
  {
    Concat(bursts, b => BurstExtents(paths, markers, processingDir, b))
  }

  /** Every burst whose directory is not empty gets its extent, and no
    * other. */
  lemma ExtentPlanJobs(paths: set<string>, markers: map<string, string>, processingDir: string, bursts: seq<string>,
                       j: ExtentJob)
    ensures j in ExtentPlan(paths, markers, processingDir, bursts)
        <==> exists b :: b in bursts && !IsEmptyDir(paths, markers, BurstDir(processingDir, b))
                         && j == ExtentOf(paths, processingDir, b)
  {
    ConcatMembers(bursts, b => BurstExtents(paths, markers, processingDir, b), j);
  }

  /** The body of the burst loop of `_create_extents`. */
  method ExtentsOfBurst(paths: set<string>, markers: map<string, string>, processingDir: string, burst: string)
    returns (jobs: seq<ExtentJob>)
    ensures jobs == BurstExtents(paths, markers, processingDir, burst)
  {
    var burstDir := BurstDir(processingDir, burst);
    var isEmpty := BurstdirIsEmpty(paths, markers, burstDir);
    if isEmpty {
      return [];
    }
    var listOfBursts := ExtentScenes(paths, burstDir);
    var extent := PathJoin(burstDir, burst + ".extent.gpkg");
    jobs := [ExtentJob(burst, listOfBursts, extent)];
  }

  /** `_create_extents`: for each distinct burst, in order of appearance,
    * whose directory is not empty, the extent of its images. */
  method CreateExtents(paths: set<string>, markers: map<string, string>, processingDir: string, bids: seq<string>)
    returns (jobs: seq<ExtentJob>)
    ensures jobs == ExtentPlan(paths, markers, processingDir, GrdBatch.Unique(bids))
  {
    var bursts := GrdBatch.Unique(bids);
    jobs := [];
    for k := 0 to |bursts|
      invariant jobs == Concat(bursts[..k], b => BurstExtents(paths, markers, processingDir, b))
    {
      ConcatStep(bursts, b => BurstExtents(paths, markers, processingDir, b), k);
      var burstJobs := ExtentsOfBurst(paths, markers, processingDir, bursts[k]);
      jobs := jobs + burstJobs;
    }
    assert bursts[..|bursts|] == bursts;
  }

  // --------------------------------------------------------------- time series

  /** A product type and the name its layers carry. */
  datatype Kind = Kind(product: string, name: string)

  const KINDS: seq<Kind> := [Kind("bs", "Gamma0"), Kind("coh", "coh"), Kind("pol", "pol")]
  const TS_POLS: seq<string> := ["VV", "VH", "HH", "HV", "Alpha", "Entropy", "Anisotropy"]
  const HA_ALPHA: seq<string> := ["Alpha", "Entropy", "Anisotropy"]

  /** A product type with a polarisation (or H-A-Alpha band). */
  datatype Combo = Combo(kind: Kind, pol: string)

  /** The pairs of one product type. */
  function WithPols(pols: seq<string>): Kind -> seq<Combo>
  {
    (k: Kind) => seq(|pols|, i requires 0 <= i < |pols| => Combo(k, pols[i]))
  }

  /** `itertools.product(kinds, pols)`: product types outer, polarisations
    * inner. */
  function Pairs(kinds: seq<Kind>, pols: seq<string>): (r: seq<Combo>)
  {
    Concat(kinds, WithPols(pols))
  }

  /** The pairs are exactly the product type and polarisation
    * combinations. */
  lemma PairsMembers(kinds: seq<Kind>, pols: seq<string>, c: Combo)
    ensures c in Pairs(kinds, pols) <==> c.kind in kinds && c.pol in pols
  {
    ConcatMembers(kinds, WithPols(pols), c);
    if c.kind in kinds && c.pol in pols {
      var i :| 0 <= i < |pols| && pols[i] == c.pol;
      assert WithPols(pols)(c.kind)[i] == c;
    }
  }

  /** The file-name pattern of a pair's images: an H-A-Alpha band of the
    * polarimetric product by its own name, anything else by the product's
    * layer name and the polarisation. */
  function ImagePattern(c: Combo): string
  {
    if c.pol in HA_ALPHA && c.kind.product == "pol" then "*" + c.pol + "*img"
    else "*" + c.kind.name + "*" + c.pol + "*img"
  }

  // The images the glob `20*`, `*data*`, pattern finds below the burst
  // directory: one date directory, one data directory, the image.
  function ImageFiles(paths: set<string>, burstDir: string, c: Combo): set<string>
  {
    PathGlob(paths, burstDir, ["20*", "*data*", ImagePattern(c)])
  }

  /** The sorted glob `20*`, `*<product>*dim` below the burst: its ARD
    * products of that type. */
  function ArdDims(paths: set<string>, burstDir: string, product: string): seq<string>
  {
    SortSet(PathGlob(paths, burstDir, ["20*", "*" + product + "*dim"]))
  }

  /** One time-series computation: the burst, the product type and
    * polarisation, and the ARD products stacked. */
  datatype TsJob = TsJob(burst: string, product: string, pol: string, dims: seq<string>)

  function TsJobOf(paths: set<string>, processingDir: string, burst: string, c: Combo): TsJob
  {
    TsJob(burst, c.kind.product, c.pol, ArdDims(paths, BurstDir(processingDir, burst), c.kind.product))
  }

  /** One pair of a burst: nothing when it has no images. */
  function PairJobs(paths: set<string>, processingDir: string, burst: string, c: Combo): seq<TsJob>
  {
    if ImageFiles(paths, BurstDir(processingDir, burst), c) == {} then [] else [TsJobOf(paths, processingDir, burst, c)]
  }

  /** One burst of `_create_timeseries`: nothing for an empty burst
    * directory. */
  function BurstTsJobs(paths: set<string>, markers: map<string, string>, processingDir: string, burst: string)
    : seq<TsJob>
  {
    if IsEmptyDir(paths, markers, BurstDir(processingDir, burst)) then []
    else Concat(Pairs(KINDS, TS_POLS), c => PairJobs(paths, processingDir, burst, c))
  }

  function TsPlan(paths: set<string>, markers: map<string, string>, processingDir: string, bursts: seq<string>)
    : seq<TsJob>
  {
    Concat(bursts, b => BurstTsJobs(paths, markers, processingDir, b))
  }

  /** Within one burst, a time series is computed for exactly the pairs
    * with images there. */
  lemma BurstTsJobsMembers(paths: set<string>, markers: map<string, string>, processingDir: string, burst: string,
                           j: TsJob)
    ensures j in BurstTsJobs(paths, markers, processingDir, burst)
        <==> !IsEmptyDir(paths, markers, BurstDir(processingDir, burst))
             && exists c: Combo :: c.kind in KINDS && c.pol in TS_POLS
                                   && ImageFiles(paths, BurstDir(processingDir, burst), c) != {}
                                   && j == TsJobOf(paths, processingDir, burst, c)
  {
    PairListJobs(Pairs(KINDS, TS_POLS), paths, processingDir, burst, j);
    forall c ensures c in Pairs(KINDS, TS_POLS) <==> c.kind in KINDS && c.pol in TS_POLS {
      PairsMembers(KINDS, TS_POLS, c);
    }
  }

  lemma PairListJobs(pairs: seq<Combo>, paths: set<string>, processingDir: string, burst: string, j: TsJob)
    ensures j in Concat(pairs, c => PairJobs(paths, processingDir, burst, c))
        <==> exists c :: c in pairs && ImageFiles(paths, BurstDir(processingDir, burst), c) != {}
                         && j == TsJobOf(paths, processingDir, burst, c)
  {
    ConcatMembers(pairs, c => PairJobs(paths, processingDir, burst, c), j);
  }

  /** A time series is computed for exactly the bursts whose directory is
    * not empty and the pairs with images there. */
  lemma TsPlanJobs(paths: set<string>, markers: map<string, string>, processingDir: string, bursts: seq<string>, j: TsJob)
    ensures j in TsPlan(paths, markers, processingDir, bursts)
        <==> exists b, c: Combo :: b in bursts && !IsEmptyDir(paths, markers, BurstDir(processingDir, b))
                                   && c.kind in KINDS && c.pol in TS_POLS
                                   && ImageFiles(paths, BurstDir(processingDir, b), c) != {}
                                   && j == TsJobOf(paths, processingDir, b, c)
  {
    ConcatMembers(bursts, b => BurstTsJobs(paths, markers, processingDir, b), j);
    forall b {
      BurstTsJobsMembers(paths, markers, processingDir, b, j);
    }
  }

  /** The body of the pair loop of one burst. */
  method TimeseriesOfPair(paths: set<string>, processingDir: string, burst: string, c: Combo) returns (jobs: seq<TsJob>)
    ensures jobs == PairJobs(paths, processingDir, burst, c)
  {
    var burstDir := BurstDir(processingDir, burst);
    var listOfFiles := ImageFiles(paths, burstDir, c);
    if |listOfFiles| == 0 {
      return [];
    }
    var listOfDims := ArdDims(paths, burstDir, c.kind.product);
    jobs := [TsJob(burst, c.kind.product, c.pol, listOfDims)];
  }

  /** The pair loop of one burst. */
  method BurstTimeseries(paths: set<string>, processingDir: string, burst: string) returns (jobs: seq<TsJob>)
    ensures jobs == Concat(Pairs(KINDS, TS_POLS), c => PairJobs(paths, processingDir, burst, c))
  {
    var pairs := Pairs(KINDS, TS_POLS);
    jobs := [];
    for k := 0 to |pairs|
      invariant jobs == Concat(pairs[..k], c => PairJobs(paths, processingDir, burst, c))
    {
      ConcatStep(pairs, c => PairJobs(paths, processingDir, burst, c), k);
      var pairJobs := TimeseriesOfPair(paths, processingDir, burst, pairs[k]);
      jobs := jobs + pairJobs;
    }
    assert pairs[..|pairs|] == pairs;
  }

  /** The body of the burst loop of `_create_timeseries`. */
  method TimeseriesOfBurst(paths: set<string>, markers: map<string, string>, processingDir: string, burst: string)
    returns (jobs: seq<TsJob>)
    ensures jobs == BurstTsJobs(paths, markers, processingDir, burst)
  {
    var isEmpty := BurstdirIsEmpty(paths, markers, BurstDir(processingDir, burst));
    if isEmpty {
      return [];
    }
    jobs := BurstTimeseries(paths, processingDir, burst);
  }

  /** `_create_timeseries`: for each distinct burst whose directory is not
    * empty, and each product type and polarisation with images there, the
    * time series of the burst's ARD products of that type. */
  method CreateTimeseries(paths: set<string>, markers: map<string, string>, processingDir: string, bids: seq<string>)
    returns (jobs: seq<TsJob>)
    ensures jobs == TsPlan(paths, markers, processingDir, GrdBatch.Unique(bids))
  {
    var bursts := GrdBatch.Unique(bids);
    jobs := [];
    for k := 0 to |bursts|
      invariant jobs == Concat(bursts[..k], b => BurstTsJobs(paths, markers, processingDir, b))
    {
      ConcatStep(bursts, b => BurstTsJobs(paths, markers, processingDir, b), k);
      var burstJobs := TimeseriesOfBurst(paths, markers, processingDir, bursts[k]);
      jobs := jobs + burstJobs;
    }
    assert bursts[..|bursts|] == bursts;
  }

  /** `ards_to_timeseries`: the extents of all bursts, then their time
    * series. The extents are `.gpkg` files directly in each burst
    * directory, which none of the globs of the time-series step match, so
    * both steps see the same listing. */
  method ArdsToTimeseries(paths: set<string>, markers: map<string, string>, processingDir: string, bids: seq<string>)
    returns (extents: seq<ExtentJob>, series: seq<TsJob>)
    ensures extents == ExtentPlan(paths, markers, processingDir, GrdBatch.Unique(bids))
    ensures series == TsPlan(paths, markers, processingDir, GrdBatch.Unique(bids))
  {
    extents := CreateExtents(paths, markers, processingDir, bids);
    series := CreateTimeseries(paths, markers, processingDir, bids);
  }
  // ------------------------------------------------------------------ timescan

  function TimescanDir(processingDir: string, burst: string): string
  {
    PathJoin(BurstDir(processingDir, burst), "Timescan")
  }

  /** The marker of a product's timescan: `.<product>.processed`. */
  function TscanMarker(processingDir: string, burst: string, product: string): string
  {
    PathJoin(TimescanDir(processingDir, burst), "." + product + ".processed")
  }

  /** The time-series stack of a product: `Timeseries/Timeseries_<product>.vrt`. */
  function TsStack(processingDir: string, burst: string, product: string): string
  {
    PathJoin(PathJoin(BurstDir(processingDir, burst), "Timeseries"), "Timeseries_" + product + ".vrt")
  }

  /** The sorted layers of a product's time series: the glob
    * `Timeseries`, `*<product>*tif` below the burst. */
  function SceneList(paths: set<string>, processingDir: string, burst: string, product: string): seq<string>
  {
    SortSet(PathGlob(paths, BurstDir(processingDir, burst), ["Timeseries", "*" + product + "*tif"]))
  }

  /** `file.name.split('.')[1][:6]`: the date of a layer; a name without a
    * dot raises IndexError. */
  function ScanDate(f: string): (r: Result<string>)
    ensures r.Success? <==> |Split(LastField(f, '/'), '.')| >= 2
    ensures r.Success? ==> |r.value| <= 6 && '.' !in r.value
  {
    var field :- Field(LastField(f, '/'), '.', 1);
    assert forall k :: 0 <= k < |Slice(field, 0, 6)| ==> Slice(field, 0, 6)[k] == field[k];
    Success(Slice(field, 0, 6))
  }

  /** How the metrics are computed: the stack converted from dB to power,
    * and the results rescaled to the output data type. */
  datatype Scaling = Scaling(toPower: bool, rescale: bool)

  /** What a timescan run is configured with: the dB flags of the single
    * and the multi-temporal ARD, whether the output type differs from
    * `float32`, the metrics and the outlier removal. */
  datatype TscanSettings = TscanSettings(toDb: bool, dtypeConversion: bool, metrics: seq<string>, removeOutliers: bool)

  function SettingsOf(single: SingleArd, mt: TimeseriesArd, metrics: seq<string>, removeOutliers: bool): (t: TscanSettings)
    ensures t.toDb <==> single.toDb || mt.toDb
    ensures t.dtypeConversion <==> mt.dtypeOutput != "float32"
  {
    TscanSettings(single.toDb || mt.toDb, mt.dtypeOutput != "float32", metrics, removeOutliers)
  }

  /** A backscatter product is converted to power and rescaled as
    * configured; coherence and polarimetric products are left as they
    * are. */
  function ScalingOf(product: string, t: TscanSettings): Scaling
  {
    if StartsWith(product, "bs_") then Scaling(t.toDb, t.dtypeConversion) else Scaling(false, false)
  }

  /** Of the products, exactly the first four are backscatter and may be
    * scaled. */
  lemma ScalingProducts(t: TscanSettings, k: nat)
    requires k < |PRODUCT_LIST|
    ensures ScalingOf(PRODUCT_LIST[k], t) == if k < 4 then Scaling(t.toDb, t.dtypeConversion) else Scaling(false, false)
  {
    var p := PRODUCT_LIST[k];
    if k < 4 {
      assert p[..3] == "bs_";
    } else {
      assert p[0] != 'b';
    }
  }

  /** The dB flag as the timescan step leaves it: set when either ARD asks
    * for dB, unbound otherwise. */
  function ToDbAsWritten(single: SingleArd, mt: TimeseriesArd): (r: Option<bool>)
    ensures r.Some? <==> single.toDb || mt.toDb
    ensures r.Some? ==> r.value
  {
    if single.toDb || mt.toDb then Some(true) else None
  }

  /** The scaling as the timescan step decides it, from whether the output
    * prefix mentions `bs.`; reading the unbound dB flag raises NameError. */
  function ScalingAsWritten(prefix: string, toDb: Option<bool>, dtypeConversion: bool): (r: Result<Scaling>)
    ensures r.Failure? <==> Contains(prefix, "bs.") && toDb.None?
    ensures r.Failure? ==> r.error == NameError
  {
    if Contains(prefix, "bs.") then
      if toDb.None? then Failure(NameError) else Success(Scaling(toDb.value, dtypeConversion))
    else Success(Scaling(false, false))
  }

  /** A needle whose last character does not occur in `b` occurs in `a + b`
    * only if it occurs in `a`. */
  lemma ContainsLeft(a: string, b: string, needle: string)
    requires |needle| > 0 && needle[|needle| - 1] !in b && !Contains(a, needle)
    ensures !Contains(a + b, needle)
  {
    forall i ensures !OccursAt(a + b, needle, i) {
      OccursLeft(a, b, needle, i);
    }
  }

  /** The same, at one position. */
  lemma OccursLeft(a: string, b: string, needle: string, i: int)
    requires |needle| > 0 && needle[|needle| - 1] !in b && !OccursAt(a, needle, i)
    ensures !OccursAt(a + b, needle, i)
  {
    var last := i + |needle| - 1;
    if 0 <= i && last < |a| {
      assert (a + b)[i..i + |needle|] == a[i..i + |needle|];
    } else if 0 <= i && last < |a + b| {
      assert (a + b)[last] == b[last - |a|] != needle[|needle| - 1];
      assert (a + b)[i..i + |needle|][|needle| - 1] == (a + b)[last];
    }
  }

  /** The prefix of a product's timescan, `<burst>/Timescan/<product>`,
    * mentions `bs.` only when the burst directory does: the backscatter
    * products are named `bs_<pol>`, so as written they are never
    * converted to power nor rescaled. */
  lemma ScalingAsWrittenIgnoresBackscatter(processingDir: string, burst: string, product: string,
                                           toDb: Option<bool>, dtypeConversion: bool)
    requires !Contains(BurstDir(processingDir, burst), "bs.") && '.' !in product
    ensures ScalingAsWritten(PathJoin(TimescanDir(processingDir, burst), product), toDb, dtypeConversion)
         == Success(Scaling(false, false))
  {
    var dir := BurstDir(processingDir, burst);
    var rest := "/Timescan/" + product;
    assert '.' !in rest by {
      forall k | 0 <= k < |rest| ensures rest[k] != '.' {
        if k >= 10 {
          assert rest[k] == product[k - 10];
        }
      }
    }
    ContainsLeft(dir, rest, "bs.");
    assert PathJoin(TimescanDir(processingDir, burst), product) == dir + rest;
  }

  /** With a burst directory that mentions `bs.` and neither ARD asking for
    * dB, every product's timescan raises NameError. */
  lemma ScalingAsWrittenUnbound(processingDir: string, burst: string, product: string, single: SingleArd,
                                mt: TimeseriesArd, dtypeConversion: bool)
    requires Contains(BurstDir(processingDir, burst), "bs.") && !single.toDb && !mt.toDb
    ensures ScalingAsWritten(PathJoin(TimescanDir(processingDir, burst), product), ToDbAsWritten(single, mt),
                             dtypeConversion) == Failure(NameError)
  {
    var dir := BurstDir(processingDir, burst);
    var prefix := PathJoin(TimescanDir(processingDir, burst), product);
    assert prefix == dir + ("/Timescan/" + product);
    ContainsPrefix(prefix, dir, "bs.");
  }

  /** One timescan computation: the stack, the prefix of its outputs, the
    * dates of its layers, and how it is configured. */
  datatype TscanJob = TscanJob(burst: string, product: string, stack: string, outPrefix: string,
                               dates: seq<string>, scaling: Scaling, metrics: seq<string>, removeOutliers: bool)

  /** The steps of the timescan run: a timescan, or the VRT of a burst's
    * timescan directory, built after its products. */
  datatype TscanStep = Metrics(job: TscanJob) | TscanVrt(dir: string)

  /** A product's timescan is computed when its marker is absent and its
    * stack exists. */
  predicate TscanDue(paths: set<string>, processingDir: string, burst: string, product: string)
  {
    TscanMarker(processingDir, burst, product) !in paths && TsStack(processingDir, burst, product) in paths
  }

  /** One product of a burst. */
  function ProductTscan(paths: set<string>, processingDir: string, t: TscanSettings, burst: string, product: string)
    : (r: Result<seq<TscanStep>>)
    ensures !TscanDue(paths, processingDir, burst, product) ==> r == Success([])
    ensures r.Failure? ==> r.error == IndexError
    ensures r.Success? && TscanDue(paths, processingDir, burst, product) ==>
      |r.value| == 1 && r.value[0].Metrics? && r.value[0].job.burst == burst && r.value[0].job.product == product
  {
    if !TscanDue(paths, processingDir, burst, product) then Success([])
    else
      var dates :- Traverse(ScanDate, SceneList(paths, processingDir, burst, product));
      Success([Metrics(TscanJob(burst, product, TsStack(processingDir, burst, product),
                                PathJoin(TimescanDir(processingDir, burst), product), dates,
                                ScalingOf(product, t), t.metrics, t.removeOutliers))])
  }

  /** A product due gets its timescan, dated by its sorted layers, unless a
    * layer's name holds no dot. */
  lemma ProductTscanDates(paths: set<string>, processingDir: string, t: TscanSettings, burst: string, product: string)
    requires TscanDue(paths, processingDir, burst, product)
    ensures var scenes := SceneList(paths, processingDir, burst, product);
      var r := ProductTscan(paths, processingDir, t, burst, product);
      (r.Success? <==> forall f :: f in scenes ==> |Split(LastField(f, '/'), '.')| >= 2)
      && (r.Success? ==> |r.value| == 1 && r.value[0].Metrics?
                         && |r.value[0].job.dates| == |scenes|
                         && forall k :: 0 <= k < |scenes| ==> Success(r.value[0].job.dates[k]) == ScanDate(scenes[k]))
  {
    ScanDates(SceneList(paths, processingDir, burst, product));
  }

  /** The dates of a list of layers, read in order. */
  lemma ScanDates(scenes: seq<string>)
    ensures var d := Traverse(ScanDate, scenes);
      (d.Success? <==> forall f :: f in scenes ==> |Split(LastField(f, '/'), '.')| >= 2)
      && (d.Success? ==> |d.value| == |scenes| && forall k :: 0 <= k < |scenes| ==> Success(d.value[k]) == ScanDate(scenes[k]))
  {
    assert forall f :: f in scenes <==> exists k :: 0 <= k < |scenes| && scenes[k] == f;
  }

  /** One burst of `timeseries_to_timescan`: nothing for an empty burst
    * directory, else its products in turn and then its VRT. */
  function BurstTscan(paths: set<string>, markers: map<string, string>, processingDir: string, t: TscanSettings,
                      products: seq<string>, burst: string): Result<seq<TscanStep>>
  {
    if IsEmptyDir(paths, markers, BurstDir(processingDir, burst)) then Success([])
    else
      var steps :- ConcatResult(products, p => ProductTscan(paths, processingDir, t, burst, p));
      Success(steps + [TscanVrt(TimescanDir(processingDir, burst))])
  }

  /** `timeseries_to_timescan` over the bursts `bursts` and the products
    * `products` in turn. */
  function TscanPlan(paths: set<string>, markers: map<string, string>, processingDir: string, t: TscanSettings,
                     products: seq<string>, bursts: seq<string>): Result<seq<TscanStep>>
  {
    ConcatResult(bursts, b => BurstTscan(paths, markers, processingDir, t, products, b))
  }

  /** Within a burst that is not empty and succeeds, the timescans computed
    * are exactly those of the products due, and the VRT comes last. */
  lemma BurstTscanSteps(paths: set<string>, markers: map<string, string>, processingDir: string, t: TscanSettings,
                        products: seq<string>, burst: string)
    requires !IsEmptyDir(paths, markers, BurstDir(processingDir, burst))
    requires BurstTscan(paths, markers, processingDir, t, products, burst).Success?
    ensures var steps := BurstTscan(paths, markers, processingDir, t, products, burst).value;
      |steps| > 0 && steps[|steps| - 1] == TscanVrt(TimescanDir(processingDir, burst))
      && (forall p :: p in products && TscanDue(paths, processingDir, burst, p) ==>
            exists s :: s in steps && s.Metrics? && s.job.product == p)
      && (forall s :: s in steps && s.Metrics? ==>
            s.job.burst == burst && s.job.product in products && TscanDue(paths, processingDir, burst, s.job.product))
  {
    var f := p => ProductTscan(paths, processingDir, t, burst, p);
    ProductSteps(paths, processingDir, t, products, burst);
    var steps := ConcatResult(products, f).value;
    assert BurstTscan(paths, markers, processingDir, t, products, burst).value
        == steps + [TscanVrt(TimescanDir(processingDir, burst))];
  }

  /** The product loop of a burst, when it succeeds: exactly the timescans
    * of the products due. */
  lemma ProductSteps(paths: set<string>, processingDir: string, t: TscanSettings, products: seq<string>, burst: string)
    requires ConcatResult(products, p => ProductTscan(paths, processingDir, t, burst, p)).Success?
    ensures var steps := ConcatResult(products, p => ProductTscan(paths, processingDir, t, burst, p)).value;
      (forall p :: p in products && TscanDue(paths, processingDir, burst, p) ==>
         exists s :: s in steps && s.Metrics? && s.job.product == p)
      && (forall s :: s in steps ==>
            s.Metrics? && s.job.burst == burst && s.job.product in products
            && TscanDue(paths, processingDir, burst, s.job.product))
  {
    forall p | p in products && TscanDue(paths, processingDir, burst, p)
      ensures exists s :: s in ConcatResult(products, q => ProductTscan(paths, processingDir, t, burst, q)).value
                          && s.Metrics? && s.job.product == p
    {
      ProductStepDue(paths, processingDir, t, products, burst, p);
    }
    forall s | s in ConcatResult(products, q => ProductTscan(paths, processingDir, t, burst, q)).value
      ensures s.Metrics? && s.job.burst == burst && s.job.product in products
        && TscanDue(paths, processingDir, burst, s.job.product)
    {
      ProductStepFrom(paths, processingDir, t, products, burst, s);
    }
  }

  /** A product due has its timescan among the burst's steps. */
  lemma ProductStepDue(paths: set<string>, processingDir: string, t: TscanSettings, products: seq<string>, burst: string,
                       p: string)
    requires ConcatResult(products, q => ProductTscan(paths, processingDir, t, burst, q)).Success?
    requires p in products && TscanDue(paths, processingDir, burst, p)
    ensures exists s :: s in ConcatResult(products, q => ProductTscan(paths, processingDir, t, burst, q)).value
                        && s.Metrics? && s.job.product == p
  {
    var f := q => ProductTscan(paths, processingDir, t, burst, q);
    var k :| 0 <= k < |products| && products[k] == p;
    ConcatResultIn(products, f, k);
    var r := ProductTscan(paths, processingDir, t, burst, p);
    assert f(p) == r && r.Success?;
    assert r.value[0] in ConcatResult(products, f).value;
  }

  /** Every step of the burst is the timescan of a product due. */
  lemma ProductStepFrom(paths: set<string>, processingDir: string, t: TscanSettings, products: seq<string>,
                        burst: string, s: TscanStep)
    requires ConcatResult(products, q => ProductTscan(paths, processingDir, t, burst, q)).Success?
    requires s in ConcatResult(products, q => ProductTscan(paths, processingDir, t, burst, q)).value
    ensures s.Metrics? && s.job.burst == burst && s.job.product in products
      && TscanDue(paths, processingDir, burst, s.job.product)
  {
    var f := q => ProductTscan(paths, processingDir, t, burst, q);
    ConcatResultFrom(products, f, s);
    var k :| 0 <= k < |products| && f(products[k]).Success? && s in f(products[k]).value;
    assert f(products[k]) == ProductTscan(paths, processingDir, t, burst, products[k]);
    TscanStepOf(paths, processingDir, t, burst, products[k], s);
  }

  /** A step of a product's timescan is that product's job, and the product
    * is due. */
  lemma TscanStepOf(paths: set<string>, processingDir: string, t: TscanSettings, burst: string, p: string,
                    s: TscanStep)
    requires ProductTscan(paths, processingDir, t, burst, p).Success?
    requires s in ProductTscan(paths, processingDir, t, burst, p).value
    ensures s.Metrics? && s.job.burst == burst && s.job.product == p && TscanDue(paths, processingDir, burst, p)
  {
    var r := ProductTscan(paths, processingDir, t, burst, p);
    assert s == r.value[0];
  }

  /** When the timescan run succeeds, it consists of the steps of its
    * bursts. */
  lemma TscanPlanBursts(paths: set<string>, markers: map<string, string>, processingDir: string, t: TscanSettings,
                        products: seq<string>, bursts: seq<string>, s: TscanStep)
    requires TscanPlan(paths, markers, processingDir, t, products, bursts).Success?
    ensures s in TscanPlan(paths, markers, processingDir, t, products, bursts).value
        <==> exists b :: b in bursts && var r := BurstTscan(paths, markers, processingDir, t, products, b);
                         r.Success? && s in r.value
  {
    var f := b => BurstTscan(paths, markers, processingDir, t, products, b);
    ConcatResultValue(bursts, f);
    ConcatMembers(bursts, Values(f), s);
    assert forall b :: b in bursts ==> f(b).Success? by {
      forall b | b in bursts ensures f(b).Success? {
        var k :| 0 <= k < |bursts| && bursts[k] == b;
      }
    }
  }

  /** The body of the product loop. */
  method ProductTimescan(paths: set<string>, processingDir: string, t: TscanSettings, burst: string, product: string)
    returns (r: Result<seq<TscanStep>>)
    ensures r == ProductTscan(paths, processingDir, t, burst, product)
  {
    var timescanDir := TimescanDir(processingDir, burst);
    if PathJoin(timescanDir, "." + product + ".processed") in paths {
      return Success([]);
    }
    var timeseries := TsStack(processingDir, burst, product);
    if timeseries !in paths {
      return Success([]);
    }
    var scenelist := SceneList(paths, processingDir, burst, product);
    var datelist :- Traverse(ScanDate, scenelist);
    var timescanPrefix := PathJoin(timescanDir, product);
    r := Success([Metrics(TscanJob(burst, product, timeseries, timescanPrefix, datelist, ScalingOf(product, t),
                                   t.metrics, t.removeOutliers))]);
  }

  /** The product loop of one burst. */
  method BurstTimescans(paths: set<string>, processingDir: string, t: TscanSettings, products: seq<string>,
                        burst: string) returns (r: Result<seq<TscanStep>>)
    ensures r == ConcatResult(products, p => ProductTscan(paths, processingDir, t, burst, p))
  {
    var steps := [];
    for k := 0 to |products|
      invariant ConcatResult(products[..k], p => ProductTscan(paths, processingDir, t, burst, p)) == Success(steps)
    {
      ConcatResultStep(products, p => ProductTscan(paths, processingDir, t, burst, p), k, steps);
      var productSteps := ProductTimescan(paths, processingDir, t, burst, products[k]);
      if productSteps.Failure? {
        ConcatResultStop(products, p => ProductTscan(paths, processingDir, t, burst, p), k);
        return Failure(productSteps.error);
      }
      steps := steps + productSteps.value;
    }
    assert products[..|products|] == products;
    r := Success(steps);
  }

  /** The body of the burst loop of `timeseries_to_timescan`. */
  method TimescanOfBurst(paths: set<string>, markers: map<string, string>, processingDir: string, t: TscanSettings,
                         products: seq<string>, burst: string) returns (r: Result<seq<TscanStep>>)
    ensures r == BurstTscan(paths, markers, processingDir, t, products, burst)
  {
    var isEmpty := BurstdirIsEmpty(paths, markers, BurstDir(processingDir, burst));
    if isEmpty {
      return Success([]);
    }
    var steps :- BurstTimescans(paths, processingDir, t, products, burst);
    r := Success(steps + [TscanVrt(TimescanDir(processingDir, burst))]);
  }

  /** `timeseries_to_timescan`: for each distinct burst whose directory is
    * not empty, the timescan of each product whose marker is absent and
    * whose time-series stack exists, then the VRT of the burst's
    * timescans; IndexError when a layer's name holds no dot. */
  method TimeseriesToTimescan(paths: set<string>, markers: map<string, string>, processingDir: string,
                              bids: seq<string>, single: SingleArd, mt: TimeseriesArd, metrics: seq<string>,
                              removeOutliers: bool) returns (r: Result<seq<TscanStep>>)
    ensures r == TscanPlan(paths, markers, processingDir, SettingsOf(single, mt, metrics, removeOutliers), PRODUCT_LIST,
                           GrdBatch.Unique(bids))
  {
    var t := SettingsOf(single, mt, metrics, removeOutliers);
    var bursts := GrdBatch.Unique(bids);
    var steps := [];
    for k := 0 to |bursts|
      invariant ConcatResult(bursts[..k], b => BurstTscan(paths, markers, processingDir, t, PRODUCT_LIST, b))
             == Success(steps)
    {
      ConcatResultStep(bursts, b => BurstTscan(paths, markers, processingDir, t, PRODUCT_LIST, b), k, steps);
      var burstSteps := TimescanOfBurst(paths, markers, processingDir, t, PRODUCT_LIST, bursts[k]);
      if burstSteps.Failure? {
        ConcatResultStop(bursts, b => BurstTscan(paths, markers, processingDir, t, PRODUCT_LIST, b), k);
        return Failure(burstSteps.error);
      }
      steps := steps + burstSteps.value;
    }
    assert bursts[..|bursts|] == bursts;
    r := Success(steps);
  }

  // -------------------------------------------------------- mosaic time series

  function TsMosaicDir(processingDir: string): string
  {
    PathJoin(PathJoin(processingDir, "Mosaic"), "Timeseries")
  }

  /** The number of time-series layers of a product: the layers
    * `*.<product>.tif` of the first burst; with no bursts, `bursts[0]` is
    * an IndexError. */
  function LayerCount(paths: set<string>, processingDir: string, bursts: seq<string>, product: string)
    : (r: Result<nat>)
    ensures r.Failure? <==> |bursts| == 0
    ensures r.Failure? ==> r.error == IndexError
  {
    if |bursts| == 0 then Failure(IndexError)
    else Success(|PathGlob(paths, processingDir, [bursts[0], "Timeseries", "*." + product + ".tif"])|)
  }

  /** The name pattern `<ii>.*<product>.tif` of the `i`-th layers. */
  function LayerPattern(tag: string, product: string): string
  {
    tag + "." + ("*" + product + ".tif")
  }

  /** The `i`-th layers of a product in the time series of every burst. */
  function TsLayerCandidates(paths: set<string>, processingDir: string, tag: string, product: string): set<string>
  {
    PathGlob(paths, processingDir, ["*", "Timeseries", LayerPattern(tag, product)])
  }

  /** The candidates without those whose path mentions "Mosaic", as the
    * mosaic step filters them. */
  function TsLayerFilesAsWritten(paths: set<string>, processingDir: string, tag: string, product: string)
    : (r: set<string>)
    ensures r <= TsLayerCandidates(paths, processingDir, tag, product)
    ensures forall f :: f in r ==> !Contains(f, "Mosaic")
  {
    set f | f in TsLayerCandidates(paths, processingDir, tag, product) && !Contains(f, "Mosaic")
  }

  /** A processing directory whose path mentions "Mosaic" loses every
    * layer to the filter as written. */
  lemma MosaicDirDropsLayers(paths: set<string>, processingDir: string, tag: string, product: string)
    requires Contains(processingDir, "Mosaic")
    ensures TsLayerFilesAsWritten(paths, processingDir, tag, product) == {}
  {
    forall f | f in TsLayerCandidates(paths, processingDir, tag, product)
      ensures Contains(f, "Mosaic")
    {
      StartsWithPrefix(f, processingDir, "/");
      ContainsPrefix(f, processingDir, "Mosaic");
    }
  }

  /** The candidates without those in the mosaic directory itself. */
  function TsLayerFiles(paths: set<string>, processingDir: string, tag: string, product: string): (r: set<string>)
    ensures r <= TsLayerCandidates(paths, processingDir, tag, product)
  {
    set f | f in TsLayerCandidates(paths, processingDir, tag, product) && GrdBatch.TrackDirOf(f, processingDir) != "Mosaic"
  }

  /** The mosaics, `Mosaic/Timeseries/<name>`, are never taken as layers,
    * whatever the processing directory is called. */
  lemma MosaicsNotLayers(paths: set<string>, processingDir: string, tag: string, product: string, name: string)
    ensures PathJoin(TsMosaicDir(processingDir), name) !in TsLayerFiles(paths, processingDir, tag, product)
  {
    var out := PathJoin(TsMosaicDir(processingDir), name);
    if out in TsLayerCandidates(paths, processingDir, tag, product) {
      assert out[|processingDir| + 1..] == "Mosaic" + ['/'] + ("Timeseries/" + name);
      SplitAfter("Mosaic", '/', "Timeseries/" + name);
    }
  }

  /** A layer of any other directory than `Mosaic` is kept. */
  lemma OtherLayersKept(paths: set<string>, processingDir: string, tag: string, product: string, f: string)
    requires f in TsLayerCandidates(paths, processingDir, tag, product) && !StartsWith(f, processingDir + "/Mosaic/")
    ensures f in TsLayerFiles(paths, processingDir, tag, product)
  {
    assert PathMatch(f, processingDir, ["*", "Timeseries", LayerPattern(tag, product)]);
    MosaicTrackDir(f, processingDir);
  }

  /** A path `dir/Mosaic/...` is the only one whose first directory below
    * `dir` is `Mosaic`. */
  lemma MosaicTrackDir(f: string, dir: string)
    requires StartsWith(f, dir + "/") && |Split(f[|dir| + 1..], '/')| >= 2
    ensures GrdBatch.TrackDirOf(f, dir) == "Mosaic" ==> StartsWith(f, dir + "/Mosaic/")
  {
    var rest := f[|dir| + 1..];
    if Split(rest, '/')[0] == "Mosaic" {
      FirstFieldPrefix(rest, '/');
      assert rest[..7] == "Mosaic/";
      assert f == (dir + "/") + rest;
      assert f[..|dir| + 8] == (dir + "/") + rest[..7];
    }
  }

  /** A candidate's base name is `<ii>.<...>.tif`: three dot-separated
    * fields at least. */
  lemma CandidateFields(paths: set<string>, processingDir: string, tag: string, product: string, f: string)
    requires AllDigits(tag)
    requires f in TsLayerCandidates(paths, processingDir, tag, product)
    ensures |Split(LastField(f, '/'), '.')| >= 3
  {
    PathMatchName(f, processingDir, ["*", "Timeseries", LayerPattern(tag, product)]);
    var name := LastField(f, '/');
    var lit := tag + ".";
    assert '*' !in lit by {
      forall k | 0 <= k < |lit| ensures lit[k] != '*' {
        if k < |tag| {
          assert IsDigit(tag[k]);
        }
      }
    }
    WildPrefix(name, lit, "*" + product + ".tif");
    var rest := name[|lit|..];
    WildSuffix(rest, "*" + product, ".tif");
    assert name[|tag|] == lit[|tag|] == '.';
    assert name[|name| - 4] == rest[|rest| - 4] == '.';
    SplitThree(name, '.', |tag|, |name| - 4);
  }

  /** The date of a layer `<ii>.<d1>.<d2>...`: `<d2>_<d1>` for a coherence
    * layer (its path mentions `.coh.`), `<d1>` otherwise. */
  function MosaicDate(f: string): string
    requires |Split(LastField(f, '/'), '.')| >= 3
  {
    var fields := Split(LastField(f, '/'), '.');
    if Contains(f, ".coh.") then fields[2] + "_" + fields[1] else fields[1]
  }

  predicate Dated(files: set<string>)
  {
    forall f :: f in files ==> |Split(LastField(f, '/'), '.')| >= 3
  }

  function DatesOf(files: set<string>): (r: set<string>)
    requires Dated(files)
    ensures files != {} ==> r != {}
    ensures forall d :: d in r <==> exists f :: f in files && d == MosaicDate(f)
  {
    var r := set f | f in files :: MosaicDate(f);
    assert files != {} ==> exists f :: f in files && MosaicDate(f) in r;
    r
  }

  lemma LayerFilesDated(paths: set<string>, processingDir: string, tag: string, product: string)
    requires AllDigits(tag)
    ensures Dated(TsLayerFiles(paths, processingDir, tag, product))
  {
    forall f | f in TsLayerFiles(paths, processingDir, tag, product)
      ensures |Split(LastField(f, '/'), '.')| >= 3
    {
      CandidateFields(paths, processingDir, tag, product, f);
    }
  }

  /** The dates of the `i`-th layers. */
  function LayerDates(paths: set<string>, processingDir: string, tag: string, product: string): (r: set<string>)
    requires AllDigits(tag)
    ensures TsLayerFiles(paths, processingDir, tag, product) != {} ==> r != {}
  {
    LayerFilesDated(paths, processingDir, tag, product);
    DatesOf(TsLayerFiles(paths, processingDir, tag, product))
  }

  /** `<ii>.<start>.<product>.tif`, or `<ii>.<start>-<end>.<product>.tif`
    * when the dates differ. */
  function MosaicName(tag: string, start: string, end: string, product: string): string
  {
    if start == end then tag + "." + start + "." + product + ".tif"
    else tag + "." + start + "-" + end + "." + product + ".tif"
  }

  /** The name of the `i`-th mosaic: its dates run from the least to the
    * greatest date of its layers; with no layers `sorted(datelist)[0]` is
    * an IndexError. */
  function TsLayerName(paths: set<string>, processingDir: string, tag: string, product: string): (r: Result<string>)
    requires AllDigits(tag)
    ensures r.Success? <==> TsLayerFiles(paths, processingDir, tag, product) != {}
    ensures r.Failure? ==> r.error == IndexError
  {
    var dates := LayerDates(paths, processingDir, tag, product);
    if dates == {} then Failure(IndexError)
    else
      var ds := SortSet(dates);
      Success(MosaicName(tag, ds[0], ds[|ds| - 1], product))
  }

  /** A mosaic's name carries the least and the greatest date of its
    * layers. */
  lemma TsLayerNameDates(paths: set<string>, processingDir: string, tag: string, product: string)
    requires AllDigits(tag)
    requires TsLayerFiles(paths, processingDir, tag, product) != {}
    ensures exists start, end ::
      && start in LayerDates(paths, processingDir, tag, product)
      && end in LayerDates(paths, processingDir, tag, product)
      && (forall d :: d in LayerDates(paths, processingDir, tag, product) ==> LessEq(start, d) && LessEq(d, end))
      && TsLayerName(paths, processingDir, tag, product) == Success(MosaicName(tag, start, end, product))
  {
    var dates := LayerDates(paths, processingDir, tag, product);
    SortSetSpan(dates);
    var ds := SortSet(dates);
    assert TsLayerName(paths, processingDir, tag, product) == Success(MosaicName(tag, ds[0], ds[|ds| - 1], product));
  }

  /** The ends of a sorted set are its least and greatest elements. */
  lemma SortSetSpan(dates: set<string>)
    requires dates != {}
    ensures var ds := SortSet(dates);
      |ds| > 0 && ds[0] in dates && ds[|ds| - 1] in dates
      && forall d :: d in dates ==> LessEq(ds[0], d) && LessEq(d, ds[|ds| - 1])
  {
    var ds := SortSet(dates);
    forall d | d in dates
      ensures LessEq(ds[0], d) && LessEq(d, ds[|ds| - 1])
    {
      SortedEnds(ds, d);
    }
  }

  /** A loop over `1..n` whose `i`-th turn adds the part `step(i)`,
    * stopping at the first error. */
  function StepsUpTo<T>(step: nat -> Result<seq<T>>, n: nat): Result<seq<T>>
  {
    if n == 0 then Success([])
    else
      var prev :- StepsUpTo(step, n - 1);
      var last :- step(n);
      Success(prev + last)
  }

  /** The loop runs to the end exactly when every turn succeeds, and then
    * holds exactly the turns' parts. */
  lemma {:induction false} StepsUpToValue<T>(step: nat -> Result<seq<T>>, n: nat, x: T)
    ensures StepsUpTo(step, n).Success? <==> forall i :: 1 <= i <= n ==> step(i).Success?
    ensures StepsUpTo(step, n).Success? ==>
      (x in StepsUpTo(step, n).value <==> exists i :: 1 <= i <= n && x in step(i).value)
    ensures StepsUpTo(step, n).Failure? ==>
      exists i :: 1 <= i <= n && step(i) == Failure(StepsUpTo(step, n).error)
  {
    if n > 0 {
      StepsUpToValue(step, n - 1, x);
    }
  }

  /** One more turn of the loop. */
  lemma StepsUpToNext<T>(step: nat -> Result<seq<T>>, n: nat, done: seq<T>)
    requires n > 0 && StepsUpTo(step, n - 1) == Success(done)
    ensures StepsUpTo(step, n) == if step(n).Success? then Success(done + step(n).value) else Failure(step(n).error)
  {
  }

  /** Once a turn fails, the loop's result is that failure. */
  lemma {:induction false} StepsUpToStop<T>(step: nat -> Result<seq<T>>, i: nat, n: nat)
    requires i <= n && StepsUpTo(step, i).Failure?
    ensures StepsUpTo(step, n) == StepsUpTo(step, i)
  {
    if i < n {
      StepsUpToStop(step, i, n - 1);
    }
  }

  /** The `i`-th layer of a product, tagged by its number in two digits. */
  function LayerAt(paths: set<string>, processingDir: string, product: string): nat -> Result<seq<GrdBatch.MosaicJob>>
  {
    (i: nat) => LayerStep(paths, processingDir, product, Pad2(i))
  }

  /** The layer loop of one product over the layers `1..n`, tagged `01`,
    * `02`, ...: a layer with a marker is neither mosaicked nor listed; a
    * layer without files stops the loop with an IndexError. */
  function TsLayers(paths: set<string>, processingDir: string, product: string, n: nat)
    : (r: Result<seq<GrdBatch.MosaicJob>>)
  {
    StepsUpTo(LayerAt(paths, processingDir, product), n)
  }

  /** The layer loop runs to the end exactly when every layer has files,
    * and otherwise raises an IndexError. */
  lemma TsLayersSucceed(paths: set<string>, processingDir: string, product: string, n: nat)
    ensures TsLayers(paths, processingDir, product, n).Success?
        <==> forall i :: 1 <= i <= n ==> TsLayerFiles(paths, processingDir, Pad2(i), product) != {}
    ensures TsLayers(paths, processingDir, product, n).Failure? ==>
      TsLayers(paths, processingDir, product, n).error == IndexError
  {
    var f := LayerAt(paths, processingDir, product);
    StepsUpToValue(f, n, GrdBatch.MosaicJob({}, ""));
    forall i | 1 <= i <= n
      ensures f(i).Success? <==> TsLayerFiles(paths, processingDir, Pad2(i), product) != {}
    {
      assert f(i) == LayerStep(paths, processingDir, product, Pad2(i));
    }
    if TsLayers(paths, processingDir, product, n).Failure? {
      var k :| 1 <= k <= n && f(k) == Failure(TsLayers(paths, processingDir, product, n).error);
      assert f(k) == LayerStep(paths, processingDir, product, Pad2(k));
    }
  }

  /** One layer: its mosaic, unless its marker exists. */
  function LayerStep(paths: set<string>, processingDir: string, product: string, tag: string)
    : (r: Result<seq<GrdBatch.MosaicJob>>)
    requires AllDigits(tag)
    ensures r.Success? <==> TsLayerFiles(paths, processingDir, tag, product) != {}
    ensures r.Failure? ==> r.error == IndexError
  {
    var name :- TsLayerName(paths, processingDir, tag, product);
    var dir := TsMosaicDir(processingDir);
    Success(if GrdBatch.MosaicMarker(dir, name) in paths then []
            else [GrdBatch.MosaicJob(TsLayerFiles(paths, processingDir, tag, product), PathJoin(dir, name))])
  }

  /** `j` is the mosaic of the layers tagged `tag` of `product`, not yet
    * marked. */
  predicate TsLayerJob(paths: set<string>, processingDir: string, tag: string, product: string, j: GrdBatch.MosaicJob)
    requires AllDigits(tag)
  {
    var name := TsLayerName(paths, processingDir, tag, product);
    && name.Success?
    && GrdBatch.MosaicMarker(TsMosaicDir(processingDir), name.value) !in paths
    && j == GrdBatch.MosaicJob(TsLayerFiles(paths, processingDir, tag, product), PathJoin(TsMosaicDir(processingDir), name.value))
  }

  /** The jobs of the layer loop are those of its layers. */
  lemma TsLayersJobs(paths: set<string>, processingDir: string, product: string, n: nat, j: GrdBatch.MosaicJob)
    requires TsLayers(paths, processingDir, product, n).Success?
    ensures forall i :: 1 <= i <= n ==> LayerStep(paths, processingDir, product, Pad2(i)).Success?
    ensures j in TsLayers(paths, processingDir, product, n).value
        <==> exists i :: 1 <= i <= n && j in LayerStep(paths, processingDir, product, Pad2(i)).value
  {
    var f := LayerAt(paths, processingDir, product);
    StepsUpToValue(f, n, j);
    forall i | 1 <= i <= n ensures f(i) == LayerStep(paths, processingDir, product, Pad2(i)) {
    }
  }

  /** A layer's job is its mosaic when unmarked. */
  lemma LayerStepJob(paths: set<string>, processingDir: string, product: string, tag: string, j: GrdBatch.MosaicJob)
    requires AllDigits(tag) && LayerStep(paths, processingDir, product, tag).Success?
    ensures j in LayerStep(paths, processingDir, product, tag).value <==> TsLayerJob(paths, processingDir, tag, product, j)
  {
  }

  /** A VRT over the mosaics of one product. */
  datatype VrtEntry = VrtEntry(dir: string, product: string, layers: seq<string>)

  /** The mosaics to compute and the VRTs to build over them. */
  datatype TsMosaicPlan = TsMosaicPlan(jobs: seq<GrdBatch.MosaicJob>, vrts: seq<VrtEntry>)

  function Outfiles(jobs: seq<GrdBatch.MosaicJob>): (r: seq<string>)
    ensures |r| == |jobs| && forall k :: 0 <= k < |jobs| ==> r[k] == jobs[k].outfile
  {
    seq(|jobs|, k requires 0 <= k < |jobs| => jobs[k].outfile)
  }

  /** One product: nothing when the first burst has one layer or none,
    * else the mosaics of its unmarked layers and a VRT of exactly those;
    * an IndexError when there is no burst or a layer has no files. */
  function ProductMosaic(paths: set<string>, processingDir: string, bursts: seq<string>, product: string)
    : (r: Result<TsMosaicPlan>)
    ensures r.Failure? <==> |bursts| == 0
                            || (var count := LayerCount(paths, processingDir, bursts, product).value;
                                count > 1 && exists i :: 1 <= i <= count && TsLayerFiles(paths, processingDir, Pad2(i), product) == {})
    ensures r.Failure? ==> r.error == IndexError
    ensures r.Success? ==> forall v :: v in r.value.vrts ==> v == VrtEntry(TsMosaicDir(processingDir), product, Outfiles(r.value.jobs))
  {
    var count :- LayerCount(paths, processingDir, bursts, product);
    if count <= 1 then Success(TsMosaicPlan([], []))
    else
      TsLayersSucceed(paths, processingDir, product, count);
      var jobs :- TsLayers(paths, processingDir, product, count);
      Success(TsMosaicPlan(jobs, [VrtEntry(TsMosaicDir(processingDir), product, Outfiles(jobs))]))
  }

  /** The jobs of one product are the unmarked layers `1..count`, each
    * mosaicking the layer's files into the mosaic directory under the
    * layer's name. */
  lemma ProductMosaicJobs(paths: set<string>, processingDir: string, bursts: seq<string>, product: string,
                          j: GrdBatch.MosaicJob)
    requires ProductMosaic(paths, processingDir, bursts, product).Success?
    ensures var count := LayerCount(paths, processingDir, bursts, product).value;
      (j in ProductMosaic(paths, processingDir, bursts, product).value.jobs)
        <==> count > 1 && exists i :: 1 <= i <= count && TsLayerJob(paths, processingDir, Pad2(i), product, j)
  {
    var count := LayerCount(paths, processingDir, bursts, product).value;
    if count > 1 {
      TsLayersJobs(paths, processingDir, product, count, j);
      forall i | 1 <= i <= count
        ensures j in LayerStep(paths, processingDir, product, Pad2(i)).value
            <==> TsLayerJob(paths, processingDir, Pad2(i), product, j)
      {
        LayerStepJob(paths, processingDir, product, Pad2(i), j);
      }
    }
  }

  /** `mosaic_timeseries` over the products `products` in turn. */
  function TsMosaic(paths: set<string>, processingDir: string, bursts: seq<string>, products: seq<string>)
    : (r: Result<TsMosaicPlan>)
    ensures r.Failure? ==> r.error == IndexError
    ensures r.Failure? <==> exists p :: p in products && ProductMosaic(paths, processingDir, bursts, p).Failure?
  {
    if |products| == 0 then Success(TsMosaicPlan([], []))
    else
      var prev :- TsMosaic(paths, processingDir, bursts, products[..|products| - 1]);
      var cur :- ProductMosaic(paths, processingDir, bursts, products[|products| - 1]);
      Success(TsMosaicPlan(prev.jobs + cur.jobs, prev.vrts + cur.vrts))
  }

  /** A successful plan is the union of the products' plans: its jobs and
    * VRTs are those of some product, and every product's are in it. */
  lemma {:induction false} TsMosaicProducts(paths: set<string>, processingDir: string, bursts: seq<string>,
                                            products: seq<string>, j: GrdBatch.MosaicJob, v: VrtEntry)
    requires TsMosaic(paths, processingDir, bursts, products).Success?
    ensures forall p :: p in products ==> ProductMosaic(paths, processingDir, bursts, p).Success?
    ensures j in TsMosaic(paths, processingDir, bursts, products).value.jobs
        <==> exists p :: p in products && j in ProductMosaic(paths, processingDir, bursts, p).value.jobs
    ensures v in TsMosaic(paths, processingDir, bursts, products).value.vrts
        <==> exists p :: p in products && v in ProductMosaic(paths, processingDir, bursts, p).value.vrts
    decreases |products|
  {
    if |products| > 0 {
      var init, last := products[..|products| - 1], products[|products| - 1];
      SnocMembers(products);
      TsMosaicProducts(paths, processingDir, bursts, init, j, v);
      var prev := TsMosaic(paths, processingDir, bursts, init).value;
      var cur := ProductMosaic(paths, processingDir, bursts, last).value;
      assert TsMosaic(paths, processingDir, bursts, products).value
          == TsMosaicPlan(prev.jobs + cur.jobs, prev.vrts + cur.vrts);
    }
  }

  /** Every VRT of the plan lists exactly the mosaics the plan computes for
    * its product: a layer marked as processed is left out of it. */
  lemma TsMosaicVrts(paths: set<string>, processingDir: string, bursts: seq<string>, products: seq<string>,
                     v: VrtEntry)
    requires TsMosaic(paths, processingDir, bursts, products).Success?
    requires v in TsMosaic(paths, processingDir, bursts, products).value.vrts
    ensures v.product in products && v.dir == TsMosaicDir(processingDir)
    ensures v.layers == Outfiles(ProductMosaic(paths, processingDir, bursts, v.product).value.jobs)
  {
    var j :| true;
    TsMosaicProducts(paths, processingDir, bursts, products, j, v);
  }

  /** The dates of a listing of layers, in the listing's order. */
  method ListedDates(files: set<string>, listed: seq<string>) returns (datelist: seq<string>)
    requires Dated(files)
    requires forall f :: f in listed <==> f in files
    ensures forall x :: x in datelist <==> x in DatesOf(files)
  {
    datelist := [];
    for k := 0 to |listed|
      invariant |datelist| == k
      invariant forall n :: 0 <= n < k ==> datelist[n] == MosaicDate(listed[n])
    {
      var f := listed[k];
      assert f in files;
      var name := LastField(f, '/');
      var fields := Split(name, '.');
      if Contains(f, ".coh.") {
        datelist := datelist + [fields[2] + "_" + fields[1]];
      } else {
        datelist := datelist + [fields[1]];
      }
    }
    DatesListed(files, listed, datelist);
  }

  /** The dates of a listing of the layers, one per entry, are the dates of
    * the layers. */
  lemma DatesListed(files: set<string>, listed: seq<string>, datelist: seq<string>)
    requires Dated(files)
    requires forall f :: f in listed <==> f in files
    requires |datelist| == |listed| && forall n :: 0 <= n < |listed| ==> datelist[n] == MosaicDate(listed[n])
    ensures forall x :: x in datelist <==> x in DatesOf(files)
  {
    forall n | 0 <= n < |datelist| ensures datelist[n] in DatesOf(files) {
      assert listed[n] in files;
    }
    forall x | x in DatesOf(files)
      ensures x in datelist
    {
      var f :| f in files && MosaicDate(f) == x;
      assert f in listed;
      var n :| 0 <= n < |listed| && listed[n] == f;
      assert datelist[n] == x;
    }
  }

  /** The body of the layer loop of `mosaic_timeseries` up to the name of
    * the layer's mosaic. */
  method MosaicLayerName(paths: set<string>, processingDir: string, tag: string, product: string)
    returns (name: Result<string>)
    requires AllDigits(tag)
    ensures name == TsLayerName(paths, processingDir, tag, product)
  {
    var files := TsLayerFiles(paths, processingDir, tag, product);
    var listed := Listing(files);
    var dates := LayerDates(paths, processingDir, tag, product);
    LayerFilesDated(paths, processingDir, tag, product);
    var datelist := ListedDates(files, listed);
    if |datelist| == 0 {
      assert dates == {};
      return Failure(IndexError);
    }
    var sorted := Sort(datelist);
    assert forall x :: x in sorted <==> x in multiset(datelist);
    SortedBounds(sorted, dates);
    var start, end := sorted[0], sorted[|sorted| - 1];
    name := Success(MosaicName(tag, start, end, product));
  }

  /** The body of the layer loop of `mosaic_timeseries`. */
  method MosaicLayer(paths: set<string>, processingDir: string, product: string, tag: string)
    returns (r: Result<seq<GrdBatch.MosaicJob>>)
    requires AllDigits(tag)
    ensures r == LayerStep(paths, processingDir, product, tag)
  {
    var dir := TsMosaicDir(processingDir);
    var name := MosaicLayerName(paths, processingDir, tag, product);
    if name.Failure? {
      return Failure(name.error);
    }
    var outfile := PathJoin(dir, name.value);
    var checkFile := GrdBatch.MosaicMarker(dir, name.value);
    if checkFile in paths {
      return Success([]);
    }
    r := Success([GrdBatch.MosaicJob(TsLayerFiles(paths, processingDir, tag, product), outfile)]);
  }

  /** The layer loop of `mosaic_timeseries` for one product. */
  method MosaicLayers(paths: set<string>, processingDir: string, product: string, count: nat)
    returns (r: Result<seq<GrdBatch.MosaicJob>>)
    ensures r == TsLayers(paths, processingDir, product, count)
  {
    ghost var f := LayerAt(paths, processingDir, product);
    var jobs := [];
    for i := 1 to count + 1
      invariant StepsUpTo(f, i - 1) == Success(jobs)
    {
      var tag := Pad2(i);
      var layer := MosaicLayer(paths, processingDir, product, tag);
      assert f(i) == layer;
      StepsUpToNext(f, i, jobs);
      if layer.Failure? {
        StepsUpToStop(f, i, count);
        return Failure(layer.error);
      }
      jobs := jobs + layer.value;
    }
    r := Success(jobs);
  }

  /** The body of the product loop of `mosaic_timeseries`. */
  method MosaicOfProduct(paths: set<string>, processingDir: string, bursts: seq<string>, product: string)
    returns (r: Result<TsMosaicPlan>)
    ensures r == ProductMosaic(paths, processingDir, bursts, product)
  {
    if |bursts| == 0 {
      return Failure(IndexError);
    }
    var count := |PathGlob(paths, processingDir, [bursts[0], "Timeseries", "*." + product + ".tif"])|;
    if !(count > 1) {
      return Success(TsMosaicPlan([], []));
    }
    var layers := MosaicLayers(paths, processingDir, product, count);
    if layers.Failure? {
      return Failure(layers.error);
    }
    r := Success(TsMosaicPlan(layers.value, [VrtEntry(TsMosaicDir(processingDir), product, Outfiles(layers.value))]));
  }

  /** The product loop of `mosaic_timeseries` over `products`. */
  method MosaicProducts(paths: set<string>, processingDir: string, bursts: seq<string>, products: seq<string>)
    returns (r: Result<TsMosaicPlan>)
    ensures r == TsMosaic(paths, processingDir, bursts, products)
  {
    var jobs, vrts := [], [];
    for k := 0 to |products|
      invariant TsMosaic(paths, processingDir, bursts, products[..k]) == Success(TsMosaicPlan(jobs, vrts))
    {
      assert products[..k + 1][..k] == products[..k];
      var cur := MosaicOfProduct(paths, processingDir, bursts, products[k]);
      if cur.Failure? {
        // any failing product fails the whole loop, always with IndexError
        assert products[k] in products;
        return Failure(cur.error);
      }
      jobs, vrts := jobs + cur.value.jobs, vrts + cur.value.vrts;
    }
    assert products[..|products|] == products;
    r := Success(TsMosaicPlan(jobs, vrts));
  }

  /** `project_params['project']['processing_dir']` of a loaded project
    * file with the top-level keys `fileKeys`, whose `project` section (when
    * there is one) maps its keys to `section`. */
  function ProjectProcessingDir(fileKeys: set<string>, section: map<string, string>): (r: Result<string>)
    ensures r.Success? <==> "project" in fileKeys && "processing_dir" in section
    ensures r.Success? ==> r.value == section["processing_dir"]
    ensures r.Failure? ==> r.error == KeyError
  {
    if "project" !in fileKeys then Failure(KeyError)
    else if "processing_dir" !in section then Failure(KeyError)
    else Success(section["processing_dir"])
  }

  /** The project file a project writes is the dump of its configuration
    * dictionary, which has `processing_dir` at the top level and no
    * `project` section: the lookup as written raises KeyError whatever the
    * section would hold, while the top-level key is there. */
  lemma WrittenProjectFileFails(section: map<string, string>)
    ensures ProjectProcessingDir(PROJECT_CONFIG_KEYS, section) == Failure(KeyError)
    ensures PythonSemantics.Subscript(PROJECT_CONFIG_KEYS, "processing_dir").Success?
  {
  }

  /** `mosaic_timeseries` as written: the processing directory is read from
    * the `project` section of the project file (`fileKeys`, `section` as
    * in `ProjectProcessingDir`); a missing key raises KeyError before any
    * directory is made. */
  method MosaicTimeseriesAsWritten(paths: set<string>, fileKeys: set<string>, section: map<string, string>,
                                   bids: seq<string>)
    returns (r: Result<TsMosaicPlan>)
    ensures ProjectProcessingDir(fileKeys, section).Failure? ==> r == Failure(KeyError)
    ensures ProjectProcessingDir(fileKeys, section).Success? ==>
      r == TsMosaic(paths, section["processing_dir"], GrdBatch.Unique(bids), PRODUCT_LIST)
  {
    var dir := ProjectProcessingDir(fileKeys, section);
    if dir.Failure? {
      return Failure(dir.error);
    }
    var bursts := GrdBatch.Unique(bids);
    r := MosaicProducts(paths, dir.value, bursts, PRODUCT_LIST);
  }

  /** `mosaic_timeseries` as intended: the processing directory is the
    * configuration's `processing_dir`, as the other routines of this
    * module read it; the mosaics of the time-series layers of every
    * product across the bursts of the inventory, and one VRT per product
    * with more than one layer. */
  method MosaicTimeseries(paths: set<string>, config: ConfigDict, bids: seq<string>)
    returns (r: Result<TsMosaicPlan>)
    ensures r == TsMosaic(paths, config.processingDir, GrdBatch.Unique(bids), PRODUCT_LIST)
  {
    var bursts := GrdBatch.Unique(bids);
    r := MosaicProducts(paths, config.processingDir, bursts, PRODUCT_LIST);
  }

  // ----------------------------------------------------------- mosaic timescan

  function TscanMosaicDir(processingDir: string): string
  {
    PathJoin(PathJoin(processingDir, "Mosaic"), "Timescan")
  }

  /** `<product>.<metric>.tif`. */
  function TscanLayerName(product: string, metric: string): string
  {
    product + "." + metric + ".tif"
  }

  /** The timescan layers `*<product>.<metric>.tif` of every burst. */
  function TscanLayers(paths: set<string>, processingDir: string, product: string, metric: string): set<string>
  {
    PathGlob(paths, processingDir, ["*", "Timescan", "*" + TscanLayerName(product, metric)])
  }

  /** A layer is mosaicked when some burst has it and its marker is absent. */
  predicate TscanMosaicDue(paths: set<string>, processingDir: string, product: string, metric: string)
  {
    TscanLayers(paths, processingDir, product, metric) != {}
    && GrdBatch.MosaicMarker(TscanMosaicDir(processingDir), TscanLayerName(product, metric)) !in paths
  }

  function TscanMosaicJob(paths: set<string>, processingDir: string, product: string, metric: string): GrdBatch.MosaicJob
  {
    GrdBatch.MosaicJob(TscanLayers(paths, processingDir, product, metric),
                       PathJoin(TscanMosaicDir(processingDir), TscanLayerName(product, metric)))
  }

  /** One product and metric: its mosaic when due. */
  function MetricMosaic(paths: set<string>, processingDir: string, product: string, metric: string)
    : seq<GrdBatch.MosaicJob>
  {
    if TscanMosaicDue(paths, processingDir, product, metric) then [TscanMosaicJob(paths, processingDir, product, metric)]
    else []
  }

  /** The metrics of one product in turn. */
  function ProductTscanMosaics(paths: set<string>, processingDir: string, product: string, metrics: seq<string>)
    : seq<GrdBatch.MosaicJob>
  {
    Concat(metrics, m => MetricMosaic(paths, processingDir, product, m))
  }

  /** `itertools.product(products, metrics)`: product first. */
  function TscanMosaicPlan(paths: set<string>, processingDir: string, products: seq<string>, metrics: seq<string>)
    : seq<GrdBatch.MosaicJob>
  {
    Concat(products, p => ProductTscanMosaics(paths, processingDir, p, metrics))
  }

  /** Exactly the due pairs of a product and a metric get their mosaic. */
  lemma TscanMosaicJobs(paths: set<string>, processingDir: string, products: seq<string>, metrics: seq<string>,
                        j: GrdBatch.MosaicJob)
    ensures j in TscanMosaicPlan(paths, processingDir, products, metrics)
        <==> exists p, m :: p in products && m in metrics && TscanMosaicDue(paths, processingDir, p, m)
                            && j == TscanMosaicJob(paths, processingDir, p, m)
  {
    ConcatMembers(products, p => ProductTscanMosaics(paths, processingDir, p, metrics), j);
    forall p | p in products
      ensures j in ProductTscanMosaics(paths, processingDir, p, metrics)
          <==> exists m :: m in metrics && j in MetricMosaic(paths, processingDir, p, m)
    {
      ConcatMembers(metrics, m => MetricMosaic(paths, processingDir, p, m), j);
    }
  }

  /** No separator `/`, `.` or wildcard in a name part. */
  predicate Plain(s: string)
  {
    '/' !in s && '*' !in s
  }

  /** Unlike the time-series layers, the timescan layers are not filtered:
    * a mosaic left by an earlier run, `Mosaic/Timescan/<name>`, matches the
    * pattern and is taken as one of its own inputs. */
  lemma TscanMosaicReadsOwnOutput(paths: set<string>, processingDir: string, product: string, metric: string)
    requires Plain(product) && Plain(metric)
    requires PathJoin(TscanMosaicDir(processingDir), TscanLayerName(product, metric)) in paths
    ensures PathJoin(TscanMosaicDir(processingDir), TscanLayerName(product, metric))
            in TscanLayers(paths, processingDir, product, metric)
  {
    PlainLayerName(product, metric);
    MosaicPathMatches(processingDir, TscanLayerName(product, metric));
  }

  lemma PlainLayerName(product: string, metric: string)
    requires Plain(product) && Plain(metric)
    ensures Plain(TscanLayerName(product, metric))
  {
    var name := TscanLayerName(product, metric);
    forall k | 0 <= k < |name| ensures name[k] != '/' && name[k] != '*' {
      if k < |product| {
        assert name[k] == product[k];
      } else if k > |product| && k < |product| + 1 + |metric| {
        assert name[k] == metric[k - |product| - 1];
      }
    }
  }

  /** `Mosaic/Timescan/<name>` matches `*` + `/Timescan/` + `*<name>`. */
  lemma MosaicPathMatches(processingDir: string, name: string)
    requires Plain(name)
    ensures PathMatch(PathJoin(TscanMosaicDir(processingDir), name), processingDir, ["*", "Timescan", "*" + name])
  {
    var out := PathJoin(TscanMosaicDir(processingDir), name);
    assert out == processingDir + "/" + ("Mosaic" + ['/'] + ("Timescan" + ['/'] + name));
    FreeNotIn(name, '/');
    WildAny("Mosaic");
    WildLiteral("Timescan", "Timescan");
    WildLiteral(name, name);
    ThreePartMatch(processingDir, "Mosaic", "Timescan", name, "*", "Timescan", "*" + name);
  }

  /** A path of three `/`-free parts below `dir` matches three patterns
    * that its parts match in turn. */
  lemma ThreePartMatch(dir: string, a: string, b: string, c: string, pa: string, pb: string, pc: string)
    requires Free(a, '/') && Free(b, '/') && Free(c, '/')
    requires Wild(a, pa) && Wild(b, pb) && Wild(c, pc)
    ensures PathMatch(dir + "/" + (a + ['/'] + (b + ['/'] + c)), dir, [pa, pb, pc])
  {
    var rest := a + ['/'] + (b + ['/'] + c);
    var p := dir + "/" + rest;
    assert StartsWith(p, dir + "/") && p[|dir| + 1..] == rest;
    ThreePathParts(a, b, c);
    var parts := Split(rest, '/');
    assert forall k :: 0 <= k < 3 ==> Wild(parts[k], [pa, pb, pc][k]);
  }

  /** Three `/`-free parts joined by `/` split back into themselves. */
  lemma ThreePathParts(a: string, b: string, c: string)
    requires Free(a, '/') && Free(b, '/') && Free(c, '/')
    ensures Split(a + ['/'] + (b + ['/'] + c), '/') == [a, b, c]
  {
    SplitAfter(a, '/', b + ['/'] + c);
    SplitAfter(b, '/', c);
    FreeNotIn(c, '/');
    SplitNone(c, '/');
  }

  /** `*` matches every name. */
  lemma {:induction false} WildAny(s: string)
    ensures Wild(s, "*")
    decreases |s|
  {
    if |s| > 0 {
      WildAny(s[1..]);
    }
  }

  /** The metric loop of `mosaic_timescan` for one product. */
  method ProductTscanMosaic(paths: set<string>, processingDir: string, product: string, metrics: seq<string>)
    returns (jobs: seq<GrdBatch.MosaicJob>)
    ensures jobs == ProductTscanMosaics(paths, processingDir, product, metrics)
  {
    var tscanDir := TscanMosaicDir(processingDir);
    jobs := [];
    for k := 0 to |metrics|
      invariant jobs == Concat(metrics[..k], m => MetricMosaic(paths, processingDir, product, m))
    {
      ConcatStep(metrics, m => MetricMosaic(paths, processingDir, product, m), k);
      var metric := metrics[k];
      var name := product + "." + metric + ".tif";
      var filelist := PathGlob(paths, processingDir, ["*", "Timescan", "*" + name]);
      if !(|filelist| >= 1) {
        assert jobs + [] == jobs;
        continue;
      }
      var outfile := PathJoin(tscanDir, name);
      var checkFile := GrdBatch.MosaicMarker(tscanDir, name);
      if checkFile in paths {
        assert jobs + [] == jobs;
        continue;
      }
      jobs := jobs + [GrdBatch.MosaicJob(filelist, outfile)];
    }
    assert metrics[..|metrics|] == metrics;
  }

  /** The loop of `mosaic_timescan` over `products` × `metrics`. */
  method TscanMosaics(paths: set<string>, processingDir: string, products: seq<string>, metrics: seq<string>)
    returns (jobs: seq<GrdBatch.MosaicJob>)
    ensures jobs == TscanMosaicPlan(paths, processingDir, products, metrics)
  {
    jobs := [];
    for k := 0 to |products|
      invariant jobs == Concat(products[..k], p => ProductTscanMosaics(paths, processingDir, p, metrics))
    {
      ConcatStep(products, p => ProductTscanMosaics(paths, processingDir, p, metrics), k);
      var productJobs := ProductTscanMosaic(paths, processingDir, products[k], metrics);
      jobs := jobs + productJobs;
    }
    assert products[..|products|] == products;
  }

  /** `create_tscan_vrt(timescan_dir, config_dict)` called as written, with
    * the two arguments packed in one list. */
  const TSCAN_VRT_CALL_AS_WRITTEN := PythonSemantics.CallSite(1, [])

  /** The call with the two arguments the function takes. */
  const TSCAN_VRT_CALL := PythonSemantics.CallSite(2, [])

  /** `mosaic_timescan` with the metric list expanded as written (with
    * `extent`) and the VRT built by the call `vrtCall`. */
  function MosaicTimescanOutcome(paths: set<string>, processingDir: string, products: seq<string>, metrics: seq<string>,
                                 vrtCall: PythonSemantics.CallSite): (r: Result<seq<GrdBatch.MosaicJob>>)
    ensures r.Success? <==> !("harmonics" in metrics || "percentiles" in metrics)
                            && PythonSemantics.Binds(Raster.CREATE_TSCAN_VRT, vrtCall)
    ensures r.Success? ==> r.value == TscanMosaicPlan(paths, processingDir, products, metrics)
    ensures r.Failure? ==> (r.error == AttributeError <==> "harmonics" in metrics || "percentiles" in metrics)
  {
    var expanded :- GrdBatch.MetricsAsWritten(metrics);
    var jobs := TscanMosaicPlan(paths, processingDir, products, expanded);
    var _ :- PythonSemantics.Call(Raster.CREATE_TSCAN_VRT, vrtCall);
    Success(jobs)
  }

  /** As written, `mosaic_timescan` never completes: an AttributeError
    * when the metrics name `harmonics` or `percentiles`, else a TypeError
    * at the VRT call, after the mosaics are made. */
  lemma MosaicTimescanAsWrittenFails(paths: set<string>, processingDir: string, products: seq<string>,
                                     metrics: seq<string>)
    ensures var r := MosaicTimescanOutcome(paths, processingDir, products, metrics, TSCAN_VRT_CALL_AS_WRITTEN);
      r.Failure? && (r.error != AttributeError ==> r.error == TypeError)
  {
    TscanVrtCallBinds();
  }

  /** The VRT call with both arguments binds. */
  lemma TscanVrtCallBinds()
    ensures PythonSemantics.Call(Raster.CREATE_TSCAN_VRT, TSCAN_VRT_CALL) == Success(())
    ensures PythonSemantics.Call(Raster.CREATE_TSCAN_VRT, TSCAN_VRT_CALL_AS_WRITTEN) == Failure(TypeError)
  {
    assert Raster.CREATE_TSCAN_VRT.params[1] !in TSCAN_VRT_CALL_AS_WRITTEN.keywords;
  }

  /** `mosaic_timescan`: the metrics expanded, one mosaic per product and
    * metric found in some burst and not yet marked, then the VRT of the
    * mosaic directory, built by `create_tscan_vrt` called as
    * `TSCAN_VRT_CALL`. */
  method MosaicTimescan(paths: set<string>, processingDir: string, metrics: seq<string>)
    returns (jobs: seq<GrdBatch.MosaicJob>, vrtDir: string)
    ensures jobs == TscanMosaicPlan(paths, processingDir, PRODUCT_LIST, GrdBatch.ExpandMetrics(metrics))
    ensures vrtDir == TscanMosaicDir(processingDir)
  {
    var expanded := GrdBatch.ExpandMetrics(metrics);
    jobs := TscanMosaics(paths, processingDir, PRODUCT_LIST, expanded);
    vrtDir := TscanMosaicDir(processingDir);
  }
}
