/** The raster helpers whose logic is integer bookkeeping
  * (`ost/helpers/raster.py`): the tiled replacement of low values, the
  * 3x3 binary erosion, the renumbering of timescan layers before their
  * virtual raster is built, and the first-match stretch tables. Pixel
  * values are integers here; the raster libraries are left out. */
module Raster {
  import opened Errors
  import opened Strings
  import opened Host
  import PythonSemantics
  import ArdToTs

  // ------------------------------------------------------------ replace_value

  /** A window of the band: first row, first column, height and width. */
  datatype Tile = Tile(y: int, x: int, ysize: int, xsize: int)

  /** The length of the block starting at `start` along a dimension of
    * length `total`: a whole block unless that would reach the end. */
  function Extent(start: int, block: int, total: int): int
  {
    if start + block < total then block else total - start
  }

  predicate Covers(t: Tile, r: int, c: int)
  {
    t.y <= r < t.y + t.ysize && t.x <= c < t.x + t.xsize
  }

  /** A cell at or below `value` takes `newValue`; any other keeps its own. */
  function Replaced(cell: int, value: int, newValue: int): int
  {
    if cell <= value then newValue else cell
  }

  /** The tiles of the row band starting at row `y`, from column `x` on. */
  function RowTiles(y: int, ysize: int, x: int, cols: int, xBlock: int): seq<Tile>
    requires xBlock > 0
    decreases cols - x
  {
    if x >= cols then []
    else [Tile(y, x, ysize, Extent(x, xBlock, cols))] + RowTiles(y, ysize, x + xBlock, cols, xBlock)
  }

  /** The tiles of the row bands from row `y` on, band after band. */
  function TilesFrom(y: int, rows: int, cols: int, xBlock: int, yBlock: int): seq<Tile>
    requires xBlock > 0 && yBlock > 0
    decreases rows - y
  {
    if y >= rows then []
    else RowTiles(y, Extent(y, yBlock, rows), 0, cols, xBlock) + TilesFrom(y + yBlock, rows, cols, xBlock, yBlock)
  }

  /** The tiles of a `rows` x `cols` band with the given block size, in
    * row-major order. */
  function Tiles(rows: int, cols: int, xBlock: int, yBlock: int): seq<Tile>
    requires xBlock > 0 && yBlock > 0
  {
    TilesFrom(0, rows, cols, xBlock, yBlock)
  }

  /** The number of tiles of `ts` holding the cell `(r, c)`. */
  function CoverCount(ts: seq<Tile>, r: int, c: int): nat
  {
    if |ts| == 0 then 0 else (if Covers(ts[0], r, c) then 1 else 0) + CoverCount(ts[1..], r, c)
  }

  lemma {:induction false} CoverCountConcat(a: seq<Tile>, b: seq<Tile>, r: int, c: int)
    ensures CoverCount(a + b, r, c) == CoverCount(a, r, c) + CoverCount(b, r, c)
    decreases |a|
  {
    if |a| > 0 {
      assert (a + b)[1..] == a[1..] + b;
      CoverCountConcat(a[1..], b, r, c);
    } else {
      assert a + b == b;
    }
  }

  /** The tiles of a row band cover each of its cells from column `x` on
    * exactly once, and nothing else. */
  lemma {:induction false} RowTilesCover(y: int, ysize: int, x: int, cols: int, xBlock: int, r: int, c: int)
    requires xBlock > 0
    ensures CoverCount(RowTiles(y, ysize, x, cols, xBlock), r, c) == if y <= r < y + ysize && x <= c < cols then 1 else 0
    decreases cols - x
  {
    if x < cols {
      var t := Tile(y, x, ysize, Extent(x, xBlock, cols));
      var rest := RowTiles(y, ysize, x + xBlock, cols, xBlock);
      RowTilesCover(y, ysize, x + xBlock, cols, xBlock, r, c);
      assert ([t] + rest)[1..] == rest;
    }
  }

  lemma {:induction false} TilesFromCover(y: int, rows: int, cols: int, xBlock: int, yBlock: int, r: int, c: int)
    requires xBlock > 0 && yBlock > 0
    ensures CoverCount(TilesFrom(y, rows, cols, xBlock, yBlock), r, c) == if y <= r < rows && 0 <= c < cols then 1 else 0
    decreases rows - y
  {
    if y < rows {
      var band := RowTiles(y, Extent(y, yBlock, rows), 0, cols, xBlock);
      RowTilesCover(y, Extent(y, yBlock, rows), 0, cols, xBlock, r, c);
      TilesFromCover(y + yBlock, rows, cols, xBlock, yBlock, r, c);
      CoverCountConcat(band, TilesFrom(y + yBlock, rows, cols, xBlock, yBlock), r, c);
    }
  }

  /** The tiles partition the band: every cell lies in exactly one tile,
    * and no tile reaches outside the band. */
  lemma TilesPartition(rows: int, cols: int, xBlock: int, yBlock: int, r: int, c: int)
    requires xBlock > 0 && yBlock > 0
    ensures CoverCount(Tiles(rows, cols, xBlock, yBlock), r, c) == if 0 <= r < rows && 0 <= c < cols then 1 else 0
  {
    TilesFromCover(0, rows, cols, xBlock, yBlock, r, c);
  }

  /** One tile read, masked and written back. */
  method ReplaceTile(band: array2<int>, t: Tile, value: int, newValue: int)
    requires 0 <= t.y && 0 <= t.ysize && t.y + t.ysize <= band.Length0
    requires 0 <= t.x && 0 <= t.xsize && t.x + t.xsize <= band.Length1
    modifies band
    ensures forall i, j :: 0 <= i < band.Length0 && 0 <= j < band.Length1 ==>
      band[i, j] == if Covers(t, i, j) then Replaced(old(band[i, j]), value, newValue) else old(band[i, j])
  {
    for i := t.y to t.y + t.ysize
      invariant forall i', j :: 0 <= i' < band.Length0 && 0 <= j < band.Length1 ==>
        band[i', j] == if t.y <= i' < i && t.x <= j < t.x + t.xsize then Replaced(old(band[i', j]), value, newValue)
                       else old(band[i', j])
    {
      for j := t.x to t.x + t.xsize
        invariant forall i', j' :: 0 <= i' < band.Length0 && 0 <= j' < band.Length1 ==>
          band[i', j'] == if (t.y <= i' < i && t.x <= j' < t.x + t.xsize) || (i' == i && t.x <= j' < j)
                          then Replaced(old(band[i', j']), value, newValue) else old(band[i', j'])
      {
        band[i, j] := Replaced(band[i, j], value, newValue);
      }
    }
  }

  /** One row band (rows `y` to `y + ysize`) walked in blocks of `xBlock`
    * columns, the last block cut at the band's edge. */
  method ReplaceRow(band: array2<int>, y: int, ysize: int, xBlock: int, value: int, newValue: int)
    returns (ghost tiles: seq<Tile>)
    requires 0 <= y && 0 <= ysize && y + ysize <= band.Length0 && xBlock > 0
    modifies band
    ensures tiles == RowTiles(y, ysize, 0, band.Length1, xBlock)
    ensures forall i, j :: 0 <= i < band.Length0 && 0 <= j < band.Length1 ==>
      band[i, j] == if y <= i < y + ysize then Replaced(old(band[i, j]), value, newValue) else old(band[i, j])
  {
    var cols := band.Length1;
    tiles := [];
    var x := 0;
    while x < cols
      invariant 0 <= x
      invariant tiles + RowTiles(y, ysize, x, cols, xBlock) == RowTiles(y, ysize, 0, cols, xBlock)
      invariant forall i, j :: 0 <= i < band.Length0 && 0 <= j < cols ==>
        band[i, j] == if y <= i < y + ysize && j < x then Replaced(old(band[i, j]), value, newValue) else old(band[i, j])
      decreases cols - x
    {
      var xsize := if x + xBlock < cols then xBlock else cols - x;
      var t := Tile(y, x, ysize, xsize);
      ReplaceTile(band, t, value, newValue);
      assert RowTiles(y, ysize, x, cols, xBlock) == [t] + RowTiles(y, ysize, x + xBlock, cols, xBlock);
      tiles := tiles + [t];
      x := x + xBlock;
    }
  }

  /** `replace_value` on a band with the given block size: the rows are
    * walked in blocks of `yBlock` and each row band in blocks of `xBlock`;
    * every visited cell at or below `value` becomes `newValue`. A `range`
    * with step 0 raises ValueError (for the columns, as soon as the first
    * row band is reached); one with a negative step is empty. `visited`
    * records the tiles in the order they are written. */
  method ReplaceValue(band: array2<int>, xBlock: int, yBlock: int, value: int, newValue: int)
    returns (r: Result<()>, ghost visited: seq<Tile>)
    modifies band
    ensures r.Failure? <==> yBlock == 0 || (yBlock > 0 && band.Length0 > 0 && xBlock == 0)
    ensures r.Failure? ==> r.error == ValueError
    ensures r.Success? && xBlock > 0 && yBlock > 0 ==> visited == Tiles(band.Length0, band.Length1, xBlock, yBlock)
    ensures forall i, j :: 0 <= i < band.Length0 && 0 <= j < band.Length1 ==>
      band[i, j] == if r.Success? && xBlock > 0 && yBlock > 0 then Replaced(old(band[i, j]), value, newValue)
                    else old(band[i, j])
  {
    var rows := band.Length0;
    visited := [];
    if yBlock == 0 || (yBlock > 0 && rows > 0 && xBlock == 0) {
      return Failure(ValueError), visited;
    }
    if yBlock < 0 || xBlock <= 0 {
      return Success(()), visited;
    }
    var y := 0;
    while y < rows
      invariant 0 <= y
      invariant visited + TilesFrom(y, rows, band.Length1, xBlock, yBlock) == Tiles(rows, band.Length1, xBlock, yBlock)
      invariant forall i, j :: 0 <= i < rows && 0 <= j < band.Length1 ==>
        band[i, j] == if i < y then Replaced(old(band[i, j]), value, newValue) else old(band[i, j])
      decreases rows - y
    {
      var ysize := if y + yBlock < rows then yBlock else rows - y;
      var tiles := ReplaceRow(band, y, ysize, xBlock, value, newValue);
      visited := visited + tiles;
      y := y + yBlock;
    }
    r := Success(());
  }

  // ------------------------------------------------------- np_binary_erosion

  /** The cell `(i, j)` of band 0 lies inside the band and is set. */
  predicate Set(a: array3<bool>, i: int, j: int)
    requires a.Length0 >= 1
    reads a
  {
    0 <= i < a.Length1 && 0 <= j < a.Length2 && a[0, i, j]
  }

  /** The erosion of band 0 of `a` at `(r, c)` with the full 3x3
    * structuring element: every cell of the neighbourhood is set. */
  predicate ErodedAt(a: array3<bool>, r: int, c: int)
    requires a.Length0 >= 1
    reads a
  {
    forall i, j :: r - 1 <= i <= r + 1 && c - 1 <= j <= c + 1 ==> Set(a, i, j)
  }

  /** `pad` holds band 0 of `a` with a border of one unset cell all round. */
  ghost predicate PadOf(pad: array2<bool>, a: array3<bool>)
    requires a.Length0 >= 1
    reads pad, a
  {
    pad.Length0 == a.Length1 + 2 && pad.Length1 == a.Length2 + 2
    && forall i, j :: 0 <= i < pad.Length0 && 0 <= j < pad.Length1 ==>
         pad[i, j] == Set(a, i - 1, j - 1)
  }

  /** The minimum of the nine booleans of the window at `(row, col)`. */
  function WindowMin(pad: array2<bool>, row: nat, col: nat): (b: bool)
    requires row + 3 <= pad.Length0 && col + 3 <= pad.Length1
    reads pad
    ensures b <==> forall i, j :: row <= i < row + 3 && col <= j < col + 3 ==> pad[i, j]
  {
    pad[row, col] && pad[row, col + 1] && pad[row, col + 2]
    && pad[row + 1, col] && pad[row + 1, col + 1] && pad[row + 1, col + 2]
    && pad[row + 2, col] && pad[row + 2, col + 1] && pad[row + 2, col + 2]
  }

  /** The window of the padded band at `(row, col)` is the neighbourhood of
    * `(row, col)` in the band. */
  lemma WindowEroded(a: array3<bool>, pad: array2<bool>, row: nat, col: nat)
    requires a.Length0 >= 1 && PadOf(pad, a) && row < a.Length1 && col < a.Length2
    ensures WindowMin(pad, row, col) <==> ErodedAt(a, row, col)
  {
    if WindowMin(pad, row, col) {
      forall i, j | row - 1 <= i <= row + 1 && col - 1 <= j <= col + 1
        ensures Set(a, i, j)
      {
        assert pad[i + 1, j + 1];
      }
    }
    if ErodedAt(a, row, col) {
      forall i, j | row <= i < row + 3 && col <= j < col + 3
        ensures pad[i, j]
      {
        assert Set(a, i - 1, j - 1);
      }
    }
  }

  /** Band 0 of `a` copied into a grid of unset cells one larger on every
    * side. */
  method Pad(a: array3<bool>) returns (pad: array2<bool>)
    requires a.Length0 >= 1
    ensures fresh(pad) && PadOf(pad, a)
  {
    var rows, cols := a.Length1, a.Length2;
    pad := new bool[rows + 2, cols + 2]((i, j) => false);
    for i := 0 to rows
      invariant forall i', j :: 0 <= i' < rows + 2 && 0 <= j < cols + 2 ==>
        pad[i', j] == (i' <= i && Set(a, i' - 1, j - 1))
    {
      for j := 0 to cols
        invariant forall i', j' :: 0 <= i' < rows + 2 && 0 <= j' < cols + 2 ==>
          pad[i', j'] == ((i' <= i || (i' == i + 1 && j' <= j)) && Set(a, i' - 1, j' - 1))
      {
        pad[i + 1, j + 1] := a[0, i, j];
      }
    }
  }

  /** `np_binary_erosion` with its default 3x3 structuring element. The
    * input has a band axis in front; only a single band can be copied into
    * the padded grid, any other count raises ValueError. */
  method BinaryErosion(a: array3<bool>) returns (r: Result<array2<bool>>)
    ensures r.Failure? <==> a.Length0 != 1
    ensures r.Failure? ==> r.error == ValueError
    ensures r.Success? ==> fresh(r.value) && r.value.Length0 == a.Length1 && r.value.Length1 == a.Length2
    ensures r.Success? ==> a.Length0 == 1 && forall i, j :: 0 <= i < a.Length1 && 0 <= j < a.Length2 ==>
      r.value[i, j] == ErodedAt(a, i, j)
  {
    if a.Length0 != 1 {
      return Failure(ValueError);
    }
    var rows, cols := a.Length1, a.Length2;
    var pad := Pad(a);
    var out := new bool[rows, cols]((i, j) => false);
    for row := 0 to rows
      invariant PadOf(pad, a)
      invariant forall i, j :: 0 <= i < rows && 0 <= j < cols ==> out[i, j] == (i < row && ErodedAt(a, i, j))
    {
      for col := 0 to cols
        invariant PadOf(pad, a)
        invariant forall i, j :: 0 <= i < rows && 0 <= j < cols ==>
          out[i, j] == ((i < row || (i == row && j < col)) && ErodedAt(a, i, j))
      {
        WindowEroded(a, pad, row, col);
        out[row, col] := WindowMin(pad, row, col);
      }
    }
    r := Success(out);
  }

  /** The first and last rows and columns of an erosion are never set. */
  lemma ErodedBorder(a: array3<bool>, r: int, c: int)
    requires a.Length0 >= 1
    requires r == 0 || c == 0 || r == a.Length1 - 1 || c == a.Length2 - 1
    ensures !ErodedAt(a, r, c)
  {
    if r == 0 {
      assert !Set(a, r - 1, c);
    } else if c == 0 {
      assert !Set(a, r, c - 1);
    } else if r == a.Length1 - 1 {
      assert !Set(a, r + 1, c);
    } else {
      assert !Set(a, r, c + 1);
    }
  }

  /** Erosion only removes cells: an eroded cell is set in the input. */
  lemma ErodedSubset(a: array3<bool>, r: int, c: int)
    requires a.Length0 >= 1 && ErodedAt(a, r, c)
    ensures 0 <= r < a.Length1 && 0 <= c < a.Length2 && a[0, r, c]
  {
    assert Set(a, r, c);
  }

  // -------------------------------------------------------- create_tscan_vrt

  /** The timescan products `create_tscan_vrt` looks for, in its order. */
  const TSCAN_PRODUCTS: seq<string> := ["bs.HH", "bs.VV", "bs.HV", "bs.VH", "coh.VV", "coh.VH", "coh.HH", "coh.HV",
                                        "pol.Entropy", "pol.Anisotropy", "pol.Alpha"]

  /** `create_tscan_vrt(timescan_dir, config_dict)`: two parameters, no defaults. */
  const CREATE_TSCAN_VRT := PythonSemantics.Signature(["timescan_dir", "config_dict"], 0)

  /** The layer names `product.metric` of one product. */
  function Dotted(product: string, metrics: seq<string>): (r: seq<string>)
    ensures forall x :: x in r <==> exists q :: q in metrics && x == product + "." + q
  {
    var r := seq(|metrics|, k requires 0 <= k < |metrics| => product + "." + metrics[k]);
    assert forall q :: q in metrics ==> product + "." + q in r by {
      forall q | q in metrics ensures product + "." + q in r {
        var k :| 0 <= k < |metrics| && metrics[k] == q;
        assert r[k] == product + "." + q;
      }
    }
    r
  }

  /** `itertools.product(products, metrics)` as layer names, the products
    * in the outer loop. */
  function LayerNames(products: seq<string>, metrics: seq<string>): (r: seq<string>)
    ensures forall x :: x in r <==> exists p, q :: p in products && q in metrics && x == p + "." + q
    decreases |products|
  {
    if |products| == 0 then []
    else
      var r := Dotted(products[0], metrics) + LayerNames(products[1..], metrics);
      assert forall p :: p in products <==> p == products[0] || p in products[1..] by {
        assert products == [products[0]] + products[1..];
      }
      r
  }

  /** The timescan layers `create_tscan_vrt` looks for. */
  function TscanLayers(metrics: seq<string>): seq<string>
  {
    LayerNames(TSCAN_PRODUCTS, metrics)
  }

  /** The file a timescan layer is written to. */
  function LayerFile(dir: string, name: string): string
  {
    PathJoin(dir, name + ".tif")
  }

  /** The file the `k`-th existing layer is renamed to. */
  function NumberedFile(dir: string, k: nat, name: string): string
  {
    PathJoin(dir, Pad2(k) + "." + name + ".tif")
  }

  /** The files after renumbering, the numbered files in order and the
    * layers they came from. */
  datatype Renumbered = Renumbered(paths: set<string>, outfiles: seq<string>, sources: seq<string>)

  /** The renaming loop of `create_tscan_vrt` over `names`: each layer file
    * that exists is moved to the next number. */
  function Renumber(paths: set<string>, dir: string, names: seq<string>): Renumbered
    decreases |names|
  {
    if |names| == 0 then Renumbered(paths, [], [])
    else
      var prev := Renumber(paths, dir, names[..|names| - 1]);
      var name := names[|names| - 1];
      var infile := LayerFile(dir, name);
      if infile in prev.paths then
        var outfile := NumberedFile(dir, |prev.outfiles| + 1, name);
        Renumbered(prev.paths - {infile} + {outfile}, prev.outfiles + [outfile], prev.sources + [name])
      else prev
  }

  /** The numbers run from 01 without gaps: the `k`-th numbered file is
    * the `k`-th numbered layer with the number `k`. */
  lemma {:induction false} RenumberConsecutive(paths: set<string>, dir: string, names: seq<string>)
    ensures var r := Renumber(paths, dir, names);
      |r.outfiles| == |r.sources|
      && forall k :: 0 <= k < |r.outfiles| ==> r.outfiles[k] == NumberedFile(dir, k + 1, r.sources[k])
    decreases |names|
  {
    if |names| > 0 {
      RenumberConsecutive(paths, dir, names[..|names| - 1]);
    }
  }

  /** The names whose layer file is in `paths`, in order. */
  function Present(paths: set<string>, dir: string, names: seq<string>): (r: seq<string>)
    ensures forall n :: n in r <==> n in names && LayerFile(dir, n) in paths
    decreases |names|
  {
    if |names| == 0 then []
    else
      var last := names[|names| - 1];
      assert forall n :: n in names <==> n in names[..|names| - 1] || n == last by {
        assert names == names[..|names| - 1] + [last];
      }
      Present(paths, dir, names[..|names| - 1]) + if LayerFile(dir, last) in paths then [last] else []
  }

  predicate StartsWithLetter(name: string)
  {
    |name| > 0 && !IsDigit(name[0])
  }

  predicate DistinctNames(names: seq<string>)
  {
    forall i, j :: 0 <= i < j < |names| ==> names[i] != names[j]
  }

  /** A layer file and a numbered file never coincide when the layer name
    * does not start with a digit. */
  lemma LayerNotNumbered(dir: string, name: string, k: nat, other: string)
    requires StartsWithLetter(name)
    ensures LayerFile(dir, name) != NumberedFile(dir, k, other)
  {
    var a, b := LayerFile(dir, name), NumberedFile(dir, k, other);
    assert a[|dir| + 1] == name[0];
    assert b[|dir| + 1] == Pad2(k)[0];
  }

  lemma LayerFileInjective(dir: string, a: string, b: string)
    requires LayerFile(dir, a) == LayerFile(dir, b)
    ensures a == b
  {
    var x, y := LayerFile(dir, a), LayerFile(dir, b);
    assert |a| == |b|;
    assert a == x[|dir| + 1..|x| - 4];
    assert b == y[|dir| + 1..|y| - 4];
  }

  /** Renaming other layers leaves the file of a layer not yet reached
    * where it was. */
  lemma {:induction false} RenumberKeeps(paths: set<string>, dir: string, names: seq<string>, n: string)
    requires n !in names && StartsWithLetter(n)
    ensures LayerFile(dir, n) in Renumber(paths, dir, names).paths <==> LayerFile(dir, n) in paths
    decreases |names|
  {
    if |names| > 0 {
      var prefix := names[..|names| - 1];
      var last := names[|names| - 1];
      assert n !in prefix by {
        assert names == prefix + [last];
      }
      RenumberKeeps(paths, dir, prefix, n);
      var prev := Renumber(paths, dir, prefix);
      if LayerFile(dir, n) == LayerFile(dir, last) {
        LayerFileInjective(dir, n, last);
      }
      LayerNotNumbered(dir, n, |prev.outfiles| + 1, last);
    }
  }

  /** With distinct layer names that do not start with a digit, the
    * numbered layers are exactly the layers present at the start, in
    * loop order: a layer missing at the start never gets a number. */
  lemma {:induction false} RenumberSources(paths: set<string>, dir: string, names: seq<string>)
    requires DistinctNames(names)
    requires forall n :: n in names ==> StartsWithLetter(n)
    ensures Renumber(paths, dir, names).sources == Present(paths, dir, names)
    decreases |names|
  {
    if |names| > 0 {
      var prefix := names[..|names| - 1];
      var last := names[|names| - 1];
      assert last !in prefix;
      RenumberSources(paths, dir, prefix);
      RenumberKeeps(paths, dir, prefix, last);
    }
  }

  /** A layer name starts with its product's first character. */
  lemma LayerNamesStart(products: seq<string>, metrics: seq<string>, n: string)
    requires forall p :: p in products ==> StartsWithLetter(p)
    requires n in LayerNames(products, metrics)
    ensures StartsWithLetter(n)
  {
    var p, q :| p in products && q in metrics && n == p + "." + q;
    assert n[0] == p[0];
  }

  /** No timescan product starts with a digit. */
  lemma TscanProductsStartWithLetter()
    ensures forall p :: p in TSCAN_PRODUCTS ==> StartsWithLetter(p)
  {
    forall i | 0 <= i < |TSCAN_PRODUCTS| ensures StartsWithLetter(TSCAN_PRODUCTS[i]) {
      assert TSCAN_PRODUCTS[i][0] in "bcp";
    }
  }

  lemma TifNotProduct(p: string)
    requires EndsWith(p, ".tif")
    ensures !IsProductPath(p)
  {
    assert p[|p| - 1] == 'f';
  }

  lemma TifPath(dir: string, x: string)
    ensures EndsWith(PathJoin(dir, x + ".tif"), ".tif")
  {
    var p := PathJoin(dir, x + ".tif");
    assert p == (dir + "/" + x) + ".tif";
  }

  /** One more layer name: its file, when still there, takes the next
    * number. */
  lemma RenumberSnoc(paths: set<string>, dir: string, names: seq<string>, k: nat)
    requires k < |names|
    ensures var prev := Renumber(paths, dir, names[..k]);
      var infile := LayerFile(dir, names[k]);
      var outfile := NumberedFile(dir, |prev.outfiles| + 1, names[k]);
      Renumber(paths, dir, names[..k + 1])
        == if infile in prev.paths then Renumbered(prev.paths - {infile} + {outfile}, prev.outfiles + [outfile], prev.sources + [names[k]])
           else prev
  {
    assert names[..k + 1][..k] == names[..k];
  }

  /** One step of the renaming loop: the layer file, if it exists, is
    * moved to number `k`. */
  method RenameLayer(m: Machine, dir: string, name: string, k: nat) returns (renamed: bool)
    requires m.Valid()
    modifies m
    ensures m.Valid()
    ensures renamed <==> LayerFile(dir, name) in old(m.paths)
    ensures m.paths == if renamed then old(m.paths) - {LayerFile(dir, name)} + {NumberedFile(dir, k, name)} else old(m.paths)
    ensures m.calls == old(m.calls)
    ensures forall p :: !EndsWith(p, ".tif") ==> MarkerUnchanged(m.markers, old(m.markers), p)
  {
    var infile := LayerFile(dir, name);
    renamed := infile in m.paths;
    if renamed {
      RenameStep(dir, name, k);
      var _ := m.Rename(infile, NumberedFile(dir, k, name));
    }
  }

  /** The renaming loop of `create_tscan_vrt` over the layer `names`. */
  method RenameLayers(m: Machine, timescanDir: string, names: seq<string>) returns (outfiles: seq<string>)
    requires m.Valid()
    modifies m
    ensures m.Valid()
    ensures outfiles == Renumber(old(m.paths), timescanDir, names).outfiles
    ensures m.paths == Renumber(old(m.paths), timescanDir, names).paths
    ensures m.calls == old(m.calls)
    ensures forall p :: !EndsWith(p, ".tif") ==> MarkerUnchanged(m.markers, old(m.markers), p)
  {
    outfiles := [];
    ghost var sources := [];
    for k := 0 to |names|
      invariant m.Valid()
      invariant Renumbered(m.paths, outfiles, sources) == Renumber(old(m.paths), timescanDir, names[..k])
      invariant m.calls == old(m.calls)
      invariant forall p :: !EndsWith(p, ".tif") ==> MarkerUnchanged(m.markers, old(m.markers), p)
    {
      RenumberSnoc(old(m.paths), timescanDir, names, k);
      ghost var before := m.markers;
      var renamed := RenameLayer(m, timescanDir, names[k], |outfiles| + 1);
      if renamed {
        outfiles, sources := outfiles + [NumberedFile(timescanDir, |outfiles| + 1, names[k])], sources + [names[k]];
      }
      forall p | !EndsWith(p, ".tif") ensures MarkerUnchanged(m.markers, old(m.markers), p) {
        assert MarkerUnchanged(before, old(m.markers), p);
      }
    }
    assert names[..|names|] == names;
  }

  /** Both ends of a rename are `.tif` files, outside any product. */
  lemma RenameStep(dir: string, name: string, k: nat)
    ensures EndsWith(LayerFile(dir, name), ".tif") && EndsWith(NumberedFile(dir, k, name), ".tif")
    ensures !IsProductPath(NumberedFile(dir, k, name))
  {
    TifPath(dir, name);
    TifPath(dir, Pad2(k) + "." + name);
    TifNotProduct(NumberedFile(dir, k, name));
  }

  /** `create_tscan_vrt`: the layers of `TSCAN_PRODUCTS` x `metrics` found
    * in `timescanDir` are renamed with consecutive two-digit numbers, and
    * `Timescan.vrt` stacks them in that order. Files other than `.tif`
    * files keep their markers. */
  method CreateTscanVrt(m: Machine, timescanDir: string, metrics: seq<string>) returns (outfiles: seq<string>)
    requires m.Valid()
    modifies m
    ensures m.Valid()
    ensures var vrt := PathJoin(timescanDir, "Timescan.vrt");
      var r := Renumber(old(m.paths), timescanDir, TscanLayers(metrics));
      outfiles == r.outfiles && m.paths == r.paths + {vrt}
      && m.calls == old(m.calls) + [ArdToTs.VrtCall(vrt, outfiles)]
    ensures forall p :: !EndsWith(p, ".tif") && p != PathJoin(timescanDir, "Timescan.vrt") ==>
      MarkerUnchanged(m.markers, old(m.markers), p)
  {
    var vrt := PathJoin(timescanDir, "Timescan.vrt");
    outfiles := RenameLayers(m, timescanDir, TscanLayers(metrics));
    ghost var renamed := m.markers;
    m.Write(ArdToTs.VrtCall(vrt, outfiles), vrt);
    forall p | !EndsWith(p, ".tif") && p != vrt ensures MarkerUnchanged(m.markers, old(m.markers), p) {
      assert MarkerUnchanged(renamed, old(m.markers), p);
    }
  }

  // --------------------------------------------------------- get_min, get_max

  /** A stretch-table entry: a layer key and its bound. */
  datatype Entry = Entry(key: string, bound: real)

  /** The bound of the first entry whose key occurs in `file`, or None. */
  function Lookup(table: seq<Entry>, file: string): Option<real>
    decreases |table|
  {
    if |table| == 0 then None
    else if Contains(file, table[0].key) then Some(table[0].bound)
    else Lookup(table[1..], file)
  }

  /** A file has no entry exactly when no key occurs in it. */
  lemma {:induction false} LookupNone(table: seq<Entry>, file: string)
    ensures Lookup(table, file).None? <==> forall k :: 0 <= k < |table| ==> !Contains(file, table[k].key)
    decreases |table|
  {
    if |table| > 0 {
      LookupNone(table[1..], file);
      assert forall k :: 1 <= k < |table| ==> table[k] == table[1..][k - 1];
    }
  }

  /** The table pairing `keys` with `bounds`, in order. */
  function Table(keys: seq<string>, bounds: seq<real>): (t: seq<Entry>)
    requires |keys| == |bounds|
    ensures |t| == |keys| && forall k :: 0 <= k < |t| ==> t[k].key == keys[k]
  {
    seq(|keys|, k requires 0 <= k < |keys| => Entry(keys[k], bounds[k]))
  }

  /** The keys of the minimum table of `get_min` as written: the entropy
    * key has a dot where every other key, and the maximum table, has an
    * underscore. */
  const MIN_KEYS_AS_WRITTEN: seq<string> := [
    "bs_VV", "bs_VH", "bs_HH", "bs_HV", "coh_VV", "coh_VH", "pol_Alpha", "pol.Entropy", "pol_Anisotropy",
    "coh_IW1_VV", "coh_IW2_VV", "coh_IW3_VV", "coh_IW1_VH", "coh_IW2_VH", "coh_IW3_VH"]

  /** The keys of the maximum table, and of the corrected minimum table. */
  const KEYS: seq<string> := MIN_KEYS_AS_WRITTEN[7 := "pol_Entropy"]

  const MIN_BOUNDS: seq<real> := [-20.0, -25.0, -20.0, -25.0, 0.1, 0.1, 60.0, 0.1, 0.1, 0.1, 0.1, 0.1, 0.1, 0.1, 0.1]

  const MAX_BOUNDS: seq<real> := [0.0, -12.0, 0.0, -5.0, 0.8, 0.75, 80.0, 0.8, 0.8, 0.8, 0.8, 0.8, 0.75, 0.75, 0.75]

  /** `get_min` as written. */
  function GetMinAsWritten(file: string): Option<real>
  {
    Lookup(Table(MIN_KEYS_AS_WRITTEN, MIN_BOUNDS), file)
  }

  /** `get_min` with the corrected entropy key. */
  function GetMin(file: string): Option<real>
  {
    Lookup(Table(KEYS, MIN_BOUNDS), file)
  }

  /** `get_max`. */
  function GetMax(file: string): Option<real>
  {
    Lookup(Table(KEYS, MAX_BOUNDS), file)
  }

  /** Whether a file has an entry depends only on the keys of a table. */
  lemma {:induction false} LookupKeys(t1: seq<Entry>, t2: seq<Entry>, file: string)
    requires |t1| == |t2| && forall k :: 0 <= k < |t1| ==> t1[k].key == t2[k].key
    ensures Lookup(t1, file).Some? <==> Lookup(t2, file).Some?
    decreases |t1|
  {
    if |t1| > 0 {
      LookupKeys(t1[1..], t2[1..], file);
    }
  }

  /** A needle holding a character the haystack lacks does not occur in it. */
  lemma MissingChar(hay: string, needle: string, k: nat)
    requires k < |needle| && needle[k] !in hay
    ensures !Contains(hay, needle)
  {
  }

  /** A needle whose `k`-th character differs from every character of the
    * haystack that could line up with it does not occur there. */
  lemma MismatchAt(hay: string, needle: string, k: nat)
    requires k < |needle|
    requires forall j :: k <= j <= |hay| - |needle| + k ==> hay[j] != needle[k]
    ensures !Contains(hay, needle)
  {
    forall i | 0 <= i && i + |needle| <= |hay| ensures !OccursAt(hay, needle, i) {
      assert hay[i + k] == hay[i..i + |needle|][k];
    }
  }

  /** Every key of the minimum table as written other than the dotted
    * entropy key holds a `b`, a `c` or an `A`. */
  lemma MinKeyLetters(k: nat)
    requires k < |MIN_KEYS_AS_WRITTEN| && k != 7
    ensures var key := MIN_KEYS_AS_WRITTEN[k];
      (|key| > 0 && key[0] in "bc") || (|key| > 4 && key[4] == 'A')
  {
  }

  /** As written, a file name without `b`, `c`, `A` and the dotted entropy
    * key matches no key of the minimum table. */
  lemma NoMinKeyAsWritten(f: string)
    requires 'b' !in f && 'c' !in f && 'A' !in f && !Contains(f, "pol.Entropy")
    ensures forall k :: 0 <= k < |MIN_KEYS_AS_WRITTEN| ==> !Contains(f, MIN_KEYS_AS_WRITTEN[k])
  {
    forall k | 0 <= k < |MIN_KEYS_AS_WRITTEN| ensures !Contains(f, MIN_KEYS_AS_WRITTEN[k]) {
      var key := MIN_KEYS_AS_WRITTEN[k];
      if k != 7 {
        MinKeyLetters(k);
        if |key| > 0 && key[0] in "bc" {
          MissingChar(f, key, 0);
        } else {
          MissingChar(f, key, 4);
        }
      }
    }
  }

  /** The first entry whose key occurs in the file gives the bound: with
    * `LookupNone`, this determines `get_min` and `get_max` entirely. */
  lemma {:induction false} LookupFirst(t: seq<Entry>, file: string, i: nat)
    requires i < |t| && Contains(file, t[i].key)
    requires forall j :: 0 <= j < i ==> !Contains(file, t[j].key)
    ensures Lookup(t, file) == Some(t[i].bound)
    decreases i
  {
    if i > 0 {
      LookupFirst(t[1..], file, i - 1);
    }
  }

  /** A file name that holds the entropy key and none of the characters
    * that pick out the other keys, such as `pol_Entropy.tif`. */
  predicate EntropyName(f: string)
  {
    'b' !in f && 'c' !in f && 'A' !in f && !Contains(f, "pol.Entropy") && Contains(f, "pol_Entropy")
  }

  lemma EntropyNameExample(f: string)
    requires f == "pol_Entropy.tif"
    ensures EntropyName(f)
  {
    assert 'b' !in f && 'c' !in f && 'A' !in f;
    MismatchAt(f, "pol.Entropy", 3);
    assert Contains(f, "pol_Entropy") by {
      assert OccursAt(f, "pol_Entropy", 0);
    }
  }

  /** As written, an entropy layer has a maximum but no minimum. */
  lemma EntropyBoundsAsWritten(f: string)
    requires EntropyName(f)
    ensures GetMinAsWritten(f) == None
    ensures GetMax(f) == Some(0.8)
  {
    NoMinKeyAsWritten(f);
    LookupNone(Table(MIN_KEYS_AS_WRITTEN, MIN_BOUNDS), f);
    var t := Table(KEYS, MAX_BOUNDS);
    assert t[7].key == "pol_Entropy";
    assert forall j :: 0 <= j < 7 ==> t[j].key == MIN_KEYS_AS_WRITTEN[j];
    LookupFirst(t, f, 7);
  }

  /** With the corrected key, an entropy layer has both bounds. */
  lemma EntropyBounds(f: string)
    requires EntropyName(f)
    ensures GetMin(f) == Some(0.1)
  {
    NoMinKeyAsWritten(f);
    var t := Table(KEYS, MIN_BOUNDS);
    assert t[7].key == "pol_Entropy";
    assert forall j :: 0 <= j < 7 ==> t[j].key == MIN_KEYS_AS_WRITTEN[j];
    LookupFirst(t, f, 7);
  }

  /** With the corrected key, a file has a minimum exactly when it has a
    * maximum. */
  lemma MinMaxSameKeys(file: string)
    ensures GetMin(file).Some? <==> GetMax(file).Some?
  {
    LookupKeys(Table(KEYS, MIN_BOUNDS), Table(KEYS, MAX_BOUNDS), file);
  }
}
