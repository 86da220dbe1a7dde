/** GRD border-noise removal (`_grd_remove_border`): the outer 3000 columns
  * on each side of an intensity band are scanned from the image edge
  * inwards; every column whose mean intensity is at most 100 is blanked,
  * and at the first brighter column a further margin of 150 columns is
  * blanked and the scan stops. Each side is processed on a copy of its
  * 3000-column window that is then written back in part. */
module GrdBorder {

  /** Width of the window examined at each image edge. */
  const WINDOW := 3000
  /** Columns blanked from the first valid column inwards. */
  const MARGIN := 150

  /** A raster band as rows of pixel values. */
  type Grid = seq<seq<int>>

  function Min(a: int, b: int): int { if a <= b then a else b }
  function Max(a: int, b: int): int { if a >= b then a else b }

  /** The pixel at row `r`, column `c` (0 outside the grid). */
  function Cell(g: Grid, r: int, c: int): int
  {
    if 0 <= r < |g| && 0 <= c < |g[r]| then g[r][c] else 0
  }

  /** The contents of a band held in a 2-D array. */
  function Snap(a: array2<int>): (g: Grid)
    reads a
    ensures |g| == a.Length0
    ensures forall r :: 0 <= r < |g| ==> |g[r]| == a.Length1
    ensures forall r, c :: 0 <= r < a.Length0 && 0 <= c < a.Length1 ==> g[r][c] == a[r, c]
  {
    seq(a.Length0, r requires 0 <= r < a.Length0 reads a =>
      seq(a.Length1, c requires 0 <= c < a.Length1 reads a => a[r, c]))
  }

  /** The sum of the first `n` pixels of column `c`. */
  function ColSum(g: Grid, c: int, n: nat): int
  {
    if n == 0 then 0 else ColSum(g, c, n - 1) + Cell(g, n - 1, c)
  }

  /** Two columns with the same pixels have the same sum. */
  lemma {:induction false} ColSumAgree(g: Grid, c: int, h: Grid, d: int, n: nat)
    requires forall r :: 0 <= r < n ==> Cell(g, r, c) == Cell(h, r, d)
    ensures ColSum(g, c, n) == ColSum(h, d, n)
  {
    if n > 0 {
      ColSumAgree(g, c, h, d, n - 1);
    }
  }

  /** A column whose mean is not at most 100, i.e. one the scan treats as
    * valid data. The mean of an empty column is NaN, which compares false,
    * so a band without rows counts as valid everywhere. */
  predicate Dense(g: Grid, c: int)
  {
    |g| == 0 || ColSum(g, c, |g|) > 100 * |g|
  }

  /** Column `c` of `g` is column `d` of `h`. */
  predicate SameColumn(g: Grid, c: int, h: Grid, d: int)
  {
    |g| == |h| && forall r :: 0 <= r < |g| ==> Cell(g, r, c) == Cell(h, r, d)
  }

  lemma DenseAgree(g: Grid, c: int, h: Grid, d: int)
    requires SameColumn(g, c, h, d)
    ensures Dense(g, c) <==> Dense(h, d)
  {
    ColSumAgree(g, c, h, d, |g|);
  }

  /** A copy of the left window has the same valid columns as the band. */
  lemma LeftWindowDense(w: Grid, g: Grid)
    requires |w| == |g|
    requires forall r :: 0 <= r < |g| ==> |w[r]| == WINDOW && WINDOW <= |g[r]|
    requires forall r, c :: 0 <= r < |g| && 0 <= c < WINDOW ==> w[r][c] == g[r][c]
    ensures forall c :: 0 <= c < WINDOW ==> (Dense(w, c) <==> Dense(g, c))
  {
    forall c | 0 <= c < WINDOW
      ensures Dense(w, c) <==> Dense(g, c)
    {
      assert SameColumn(w, c, g, c);
      DenseAgree(w, c, g, c);
    }
  }

  /** A copy of the right window of a band of `cols` columns has the same
    * valid columns as the band. */
  lemma RightWindowDense(w: Grid, g: Grid, cols: int)
    requires |w| == |g| && WINDOW <= cols
    requires forall r :: 0 <= r < |g| ==> |w[r]| == WINDOW && |g[r]| == cols
    requires forall r, c :: 0 <= r < |g| && 0 <= c < WINDOW ==> w[r][c] == g[r][cols - WINDOW + c]
    ensures forall c :: 0 <= c < WINDOW ==> (RightDense(w, WINDOW, c) <==> RightDense(g, cols, c))
  {
    forall c | 0 <= c < WINDOW
      ensures RightDense(w, WINDOW, c) <==> RightDense(g, cols, c)
    {
      assert SameColumn(w, c, g, cols - WINDOW + c);
      DenseAgree(w, c, g, cols - WINDOW + c);
    }
  }

  // ---------------------------------------------------------------- spec of the scans

  /** Local column `c` of the right window of a band of `cols` columns
    * (the window that starts at column `cols - 3000`) is valid. */
  predicate RightDense(g: Grid, cols: int, c: int)
  {
    Dense(g, cols - WINDOW + c)
  }

  /** The first valid column of the left window at or after `x`, or WINDOW. */
  function FirstDense(g: Grid, x: nat): (r: nat)
    requires x <= WINDOW
    ensures x <= r <= WINDOW
    ensures r < WINDOW ==> Dense(g, r)
    ensures forall c :: x <= c < r ==> !Dense(g, c)
    decreases WINDOW - x
  {
    if x == WINDOW then WINDOW
    else if Dense(g, x) then x
    else FirstDense(g, x + 1)
  }

  /** How many left-window columns are written back (`cols_left`): all of
    * them when no column is valid; otherwise those before the last column
    * of the blanked margin, which is blanked in the copy but not written. */
  function LeftWritten(g: Grid): (r: int)
    ensures 0 <= r <= WINDOW
    ensures r == WINDOW <==> forall c :: 0 <= c < WINDOW ==> !Dense(g, c)
    ensures forall x ::
              0 <= x < WINDOW && Dense(g, x) && (forall c :: 0 <= c < x ==> !Dense(g, c))
              ==> r == Min(x + MARGIN, WINDOW) - 1
  {
    var x := FirstDense(g, 0);
    if x < WINDOW then Min(x + MARGIN, WINDOW) - 1 else WINDOW
  }

  /** The last valid column of the right window scanning from local column
    * `x` down to 1; 0 when there is none. Local column 0 is never examined. */
  function LastDense(g: Grid, cols: int, x: nat): (r: nat)
    requires x < WINDOW
    ensures r <= x
    ensures r >= 1 ==> RightDense(g, cols, r)
    ensures forall c :: r < c <= x ==> !RightDense(g, cols, c)
    decreases x
  {
    if x == 0 then 0
    else if RightDense(g, cols, x) then x
    else LastDense(g, cols, x - 1)
  }

  /** The local column from which the right window is written back
    * (`cols_right`): the column after the blanked margin when a valid column
    * was found, 0 (the whole window) otherwise. */
  function RightStart(g: Grid, cols: int): (r: int)
    ensures 0 <= r < WINDOW
    ensures r == 0 <==> forall c :: 1 <= c < WINDOW ==> !RightDense(g, cols, c)
    ensures forall x ::
              1 <= x < WINDOW && RightDense(g, cols, x) && (forall c :: x < c < WINDOW ==> !RightDense(g, cols, c))
              ==> r == Max(x - MARGIN, 0) + 1
  {
    var x := LastDense(g, cols, WINDOW - 1);
    if x >= 1 then Max(x - MARGIN, 0) + 1 else 0
  }

  /** The scans only depend on which columns are valid. */
  lemma LeftWrittenAgree(a: Grid, b: Grid)
    requires forall c :: 0 <= c < WINDOW ==> (Dense(a, c) <==> Dense(b, c))
    ensures LeftWritten(a) == LeftWritten(b)
  {
    var x := FirstDense(a, 0);
    if x < WINDOW {
      assert Dense(b, x);
      assert forall c :: 0 <= c < x ==> !Dense(b, c);
    }
  }

  lemma RightStartAgree(a: Grid, ca: int, b: Grid, cb: int)
    requires forall c :: 0 <= c < WINDOW ==> (RightDense(a, ca, c) <==> RightDense(b, cb, c))
    ensures RightStart(a, ca) == RightStart(b, cb)
  {
    var x := LastDense(a, ca, WINDOW - 1);
    if x >= 1 {
      assert RightDense(b, cb, x);
      assert forall c :: x < c < WINDOW ==> !RightDense(b, cb, c);
    }
  }

  /** `g` with the columns `lo .. hi-1` set to zero. */
  function ZeroCols(g: Grid, lo: int, hi: int): (z: Grid)
    ensures |z| == |g|
    ensures forall r :: 0 <= r < |g| ==> |z[r]| == |g[r]|
    ensures forall r, c :: 0 <= r < |g| && 0 <= c < |g[r]| ==> z[r][c] == if lo <= c < hi then 0 else g[r][c]
  {
    seq(|g|, r requires 0 <= r < |g| =>
      seq(|g[r]|, c requires 0 <= c < |g[r]| => if lo <= c < hi then 0 else g[r][c]))
  }

  /** The band after the left pass. */
  function LeftCleared(g: Grid): Grid
  {
    ZeroCols(g, 0, LeftWritten(g))
  }

  /** The band of `cols` columns after the right pass. */
  function RightCleared(g: Grid, cols: int): (z: Grid)
    ensures |z| == |g|
    ensures forall r :: 0 <= r < |g| ==> |z[r]| == |g[r]|
    ensures forall r, c :: 0 <= r < |g| && 0 <= c < |g[r]| ==>
      z[r][c] == if cols - WINDOW + Max(RightStart(g, cols), 1) <= c < cols then 0 else g[r][c]
  {
    ZeroCols(g, cols - WINDOW + Max(RightStart(g, cols), 1), cols)
  }

  /** The band of `cols` columns after both passes: the right pass scans
    * the band as the left pass left it. */
  function BorderRemoved(g: Grid, cols: int): Grid
  {
    RightCleared(LeftCleared(g), cols)
  }

  // ---------------------------------------------------------------- properties

  /** Border removal only ever blanks pixels. */
  lemma BorderOnlyBlanks(g: Grid, cols: int, r: int, c: int)
    requires 0 <= r < |g| && 0 <= c < |g[r]|
    ensures var b := BorderRemoved(g, cols); b[r][c] == g[r][c] || b[r][c] == 0
  {
  }

  /** Left edge: with no valid column in the first 3000, all of them are
    * blanked; otherwise, with `x` the first valid one, exactly the columns
    * before `min(x + 150, 3000) - 1` are blanked by the left pass. */
  lemma LeftEdge(g: Grid, x: int, r: int, c: int)
    requires 0 <= r < |g| && 0 <= c < |g[r]|
    requires 0 <= x < WINDOW && Dense(g, x) && forall k :: 0 <= k < x ==> !Dense(g, k)
    ensures LeftCleared(g)[r][c] == if c < Min(x + MARGIN, WINDOW) - 1 then 0 else g[r][c]
  {
  }

  lemma LeftEdgeAllNoise(g: Grid, r: int, c: int)
    requires 0 <= r < |g| && 0 <= c < |g[r]|
    requires forall k :: 0 <= k < WINDOW ==> !Dense(g, k)
    ensures LeftCleared(g)[r][c] == if c < WINDOW then 0 else g[r][c]
  {
  }

  /** Right edge: with `x` the last valid local column of the window that
    * starts at `cols - 3000`, the columns from `max(x - 150, 0) + 1` on are
    * blanked; with none, every column but local column 0 is blanked. */
  lemma RightEdge(g1: Grid, cols: int, x: int, r: int, c: int)
    requires 0 <= r < |g1| && 0 <= c < |g1[r]|
    requires 1 <= x < WINDOW && RightDense(g1, cols, x)
    requires forall k :: x < k < WINDOW ==> !RightDense(g1, cols, k)
    ensures RightCleared(g1, cols)[r][c]
      == if cols - WINDOW + Max(x - MARGIN, 0) + 1 <= c < cols then 0 else g1[r][c]
  {
  }

  lemma RightEdgeAllNoise(g1: Grid, cols: int, r: int, c: int)
    requires 0 <= r < |g1| && 0 <= c < |g1[r]|
    requires forall k :: 1 <= k < WINDOW ==> !RightDense(g1, cols, k)
    ensures RightCleared(g1, cols)[r][c]
      == if cols - WINDOW + 1 <= c < cols then 0 else g1[r][c]
  {
  }

  // ---------------------------------------------------------------- the algorithm

  /** `ReadAsArray(off, 0, 3000, rows)`: a copy of a 3000-column window. */
  method ReadWindow(img: array2<int>, off: int) returns (w: array2<int>)
    requires 0 <= off && off + WINDOW <= img.Length1
    ensures fresh(w) && w.Length0 == img.Length0 && w.Length1 == WINDOW
    ensures forall r, c {:trigger w[r, c]} :: 0 <= r < w.Length0 && 0 <= c < WINDOW ==> w[r, c] == img[r, off + c]
  {
    w := new int[img.Length0, WINDOW]((r, c) reads img =>
      if 0 <= r < img.Length0 && 0 <= off + c < img.Length1 then img[r, off + c] else 0);
  }

  /** `WriteArray(w[:, lo:hi], off + lo, 0)`: columns `lo .. hi-1` of the
    * window are written back to the band at offset `off`. */
  method WriteWindow(img: array2<int>, w: array2<int>, off: int, lo: int, hi: int)
    requires img != w && w.Length0 == img.Length0
    requires 0 <= lo <= hi <= w.Length1 && 0 <= off && off + hi <= img.Length1
    modifies img
    ensures forall r, c {:trigger img[r, c]} :: 0 <= r < img.Length0 && 0 <= c < img.Length1 ==>
      img[r, c] == if off + lo <= c < off + hi then w[r, c - off] else old(img[r, c])
  {
    forall r, c | 0 <= r < img.Length0 && lo <= c < hi {
      img[r, off + c] := w[r, c];
    }
  }

  /** `array[:, c].fill(0)`. */
  method BlankColumn(w: array2<int>, col: int)
    requires 0 <= col < w.Length1
    modifies w
    ensures forall r, c :: 0 <= r < w.Length0 && 0 <= c < w.Length1 ==>
      w[r, c] == if c == col then 0 else old(w[r, c])
  {
    forall r | 0 <= r < w.Length0 {
      w[r, col] := 0;
    }
  }

  /** The left scan on its window copy: returns `cols_left` and leaves the
    * columns up to and including it blanked. */
  method ScanLeft(w: array2<int>) returns (colsLeft: int)
    requires w.Length1 == WINDOW
    modifies w
    ensures colsLeft == LeftWritten(old(Snap(w)))
    ensures forall r, c :: 0 <= r < w.Length0 && 0 <= c < WINDOW ==>
      w[r, c] == if c <= colsLeft then 0 else old(w[r, c])
  {
    ghost var g := Snap(w);
    var x := 0;
    while x < WINDOW
      invariant 0 <= x <= WINDOW
      invariant forall c :: 0 <= c < x ==> !Dense(g, c)
      invariant forall r, c :: 0 <= r < w.Length0 && 0 <= c < WINDOW ==>
        w[r, c] == if c < x then 0 else g[r][c]
    {
      assert SameColumn(Snap(w), x, g, x);
      DenseAgree(Snap(w), x, g, x);
      if !Dense(Snap(w), x) {
        BlankColumn(w, x);
        x := x + 1;
      } else {
        assert Dense(g, x);
        var z := if x + MARGIN > WINDOW then WINDOW else x + MARGIN;
        for y := x to z
          invariant forall r, c :: 0 <= r < w.Length0 && 0 <= c < WINDOW ==>
            w[r, c] == if c < y then 0 else g[r][c]
        {
          BlankColumn(w, y);
        }
        // the loop variable of `for y in range(x, z)` ends at z - 1
        colsLeft := z - 1;
        return;
      }
    }
    colsLeft := WINDOW;
  }

  /** The right scan on its window copy: returns `cols_right` and leaves
    * every column from `max(cols_right, 1)` on blanked. */
  method ScanRight(w: array2<int>) returns (colsRight: int)
    requires w.Length1 == WINDOW
    modifies w
    ensures colsRight == RightStart(old(Snap(w)), WINDOW)
    ensures forall r, c :: 0 <= r < w.Length0 && 0 <= c < WINDOW ==>
      w[r, c] == if c >= Max(colsRight, 1) then 0 else old(w[r, c])
  {
    ghost var g := Snap(w);
    var x := WINDOW - 1;
    while x > 0
      invariant 0 <= x < WINDOW
      invariant forall c :: x < c < WINDOW ==> !Dense(g, c)
      invariant forall r, c :: 0 <= r < w.Length0 && 0 <= c < WINDOW ==>
        w[r, c] == if c > x then 0 else g[r][c]
    {
      assert SameColumn(Snap(w), x, g, x);
      DenseAgree(Snap(w), x, g, x);
      assert RightDense(g, WINDOW, x) <==> Dense(g, x);
      if !Dense(Snap(w), x) {
        BlankColumn(w, x);
        x := x - 1;
      } else {
        assert Dense(g, x);
        var z := if x - MARGIN < 0 then 0 else x - MARGIN;
        // `for y in range(x, z, -1)`: y = x, x - 1, ..., z + 1
        for y := x + 1 downto z + 1
          invariant forall r, c :: 0 <= r < w.Length0 && 0 <= c < WINDOW ==>
            w[r, c] == if c >= y then 0 else g[r][c]
        {
          BlankColumn(w, y);
        }
        colsRight := z + 1;
        return;
      }
    }
    colsRight := 0;
  }

  /** The left half of `_grd_remove_border`. */
  method LeftPass(img: array2<int>)
    requires img.Length1 >= WINDOW
    modifies img
    ensures forall r, c :: 0 <= r < img.Length0 && 0 <= c < img.Length1 ==>
      img[r, c] == LeftCleared(old(Snap(img)))[r][c]
  {
    ghost var g := Snap(img);
    var left := ReadWindow(img, 0);
    LeftWindowDense(Snap(left), g);
    LeftWrittenAgree(Snap(left), g);
    var colsLeft := ScanLeft(left);
    ghost var before := Snap(img);
    WriteWindow(img, left, 0, 0, colsLeft);
    forall r, c | 0 <= r < img.Length0 && 0 <= c < img.Length1
      ensures img[r, c] == LeftCleared(g)[r][c]
    {
      if c < colsLeft {
        assert img[r, c] == left[r, c] == 0;
      } else {
        assert img[r, c] == before[r][c] == g[r][c];
      }
    }
  }

  /** The right window of the band, read and scanned: its copy is blanked
    * from local column `max(cols_right, 1)` on. */
  method ClearedRightWindow(img: array2<int>, ghost g: Grid) returns (right: array2<int>, colsRight: int)
    requires img.Length1 >= WINDOW && g == Snap(img)
    ensures fresh(right) && right.Length0 == img.Length0 && right.Length1 == WINDOW
    ensures colsRight == RightStart(g, img.Length1)
    ensures forall r, c {:trigger right[r, c]} :: 0 <= r < img.Length0 && 0 <= c < WINDOW ==>
      right[r, c] == if c >= Max(colsRight, 1) then 0 else img[r, img.Length1 - WINDOW + c]
  {
    right := ReadWindow(img, img.Length1 - WINDOW);
    ghost var w0 := Snap(right);
    RightWindowDense(w0, g, img.Length1);
    RightStartAgree(w0, WINDOW, g, img.Length1);
    colsRight := ScanRight(right);
    forall r, c | 0 <= r < img.Length0 && 0 <= c < WINDOW
      ensures right[r, c] == if c >= Max(colsRight, 1) then 0 else img[r, img.Length1 - WINDOW + c]
    {
      if c < Max(colsRight, 1) {
        assert right[r, c] == w0[r][c];
      }
    }
  }

  /** The right half of `_grd_remove_border`. */
  method RightPass(img: array2<int>)
    requires img.Length1 >= WINDOW
    modifies img
    ensures forall r, c :: 0 <= r < img.Length0 && 0 <= c < img.Length1 ==>
      img[r, c] == RightCleared(old(Snap(img)), img.Length1)[r][c]
  {
    ghost var g := Snap(img);
    var off := img.Length1 - WINDOW;
    var right, colsRight := ClearedRightWindow(img, g);
    ghost var from := off + Max(colsRight, 1);
    ghost var cleared := RightCleared(g, img.Length1);
    WriteWindow(img, right, off, colsRight, WINDOW);
    forall r, c | 0 <= r < img.Length0 && 0 <= c < img.Length1
      ensures img[r, c] == cleared[r][c]
    {
      assert cleared[r][c] == if from <= c then 0 else g[r][c];
      if off + colsRight <= c {
        assert img[r, c] == right[r, c - off];
      }
    }
  }

  /** Grids with the same shape and pixels are equal. */
  lemma GridExt(a: Grid, b: Grid)
    requires |a| == |b|
    requires forall r :: 0 <= r < |a| ==> |a[r]| == |b[r]|
    requires forall r, c :: 0 <= r < |a| && 0 <= c < |a[r]| ==> a[r][c] == b[r][c]
    ensures a == b
  {
    forall r | 0 <= r < |a| ensures a[r] == b[r] {
    }
  }

  /** `_grd_remove_border` on one band of at least 3000 columns: the left
    * window is cleared and written back, then the right window is read
    * from the band as it now is, cleared and written back. */
  method RemoveBorder(img: array2<int>)
    requires img.Length1 >= WINDOW
    modifies img
    ensures forall r, c :: 0 <= r < img.Length0 && 0 <= c < img.Length1 ==>
      img[r, c] == BorderRemoved(old(Snap(img)), img.Length1)[r][c]
  {
    ghost var g := Snap(img);
    LeftPass(img);
    GridExt(Snap(img), LeftCleared(g));
    RightPass(img);
  }
}
