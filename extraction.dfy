/** Valid-pixel extraction: the row-major scan of the angle map that keeps every
    cell holding a number (not NaN) and records its row, column and angle in three
    parallel lists. A NaN cell is `None` here. */
module PixelExtraction {
  import opened Common

  /** The angle map: rows of cells, `None` where the map holds NaN. */
  type Grid = seq<seq<Option<real>>>

  /** One valid cell: its row index (x), column index (y) and angle. */
  datatype Pixel = Pixel(row: nat, col: nat, angle: real)

  /** Row-major order on cell positions. */
  predicate RowMajorBefore(p: Pixel, q: Pixel) {
    p.row < q.row || (p.row == q.row && p.col < q.col)
  }

  predicate RowMajorSorted(ps: seq<Pixel>) {
    forall a, b :: 0 <= a < b < |ps| ==> RowMajorBefore(ps[a], ps[b])
  }

  /** The cell at (r, c) holds the angle a. */
  predicate HoldsAt(g: Grid, r: nat, c: nat, a: real) {
    r < |g| && c < |g[r]| && g[r][c] == Some(a)
  }

  function CellPixels(cell: Option<real>, r: nat, c: nat): seq<Pixel> {
    match cell
    case None => []
    case Some(a) => [Pixel(r, c, a)]
  }

  /** The valid cells among columns 0 .. c-1 of row r, left to right. */
  function RowPixels(cells: seq<Option<real>>, r: nat, c: nat): (ps: seq<Pixel>)
    requires c <= |cells|
    ensures |ps| <= c
    ensures forall k :: 0 <= k < |ps| ==> ps[k].row == r && ps[k].col < c
  {
    if c == 0 then [] else RowPixels(cells, r, c - 1) + CellPixels(cells[c - 1], r, c - 1)
  }

  /** The valid cells of rows 0 .. r-1, in row-major order. */
  function GridPixels(g: Grid, r: nat): (ps: seq<Pixel>)
    requires r <= |g|
    ensures forall k :: 0 <= k < |ps| ==> ps[k].row < r
  {
    if r == 0 then [] else GridPixels(g, r - 1) + RowPixels(g[r - 1], r - 1, |g[r - 1]|)
  }

  /** Every valid cell of the map, in row-major order. */
  function ValidPixels(g: Grid): seq<Pixel> {
    GridPixels(g, |g|)
  }

  /** `x`, `y` and `ang` are the three parallel projections of `ps`. */
  predicate Unzips(ps: seq<Pixel>, x: seq<int>, y: seq<int>, ang: seq<real>) {
    && |x| == |ps| && |y| == |ps| && |ang| == |ps|
    && forall k :: 0 <= k < |ps| ==> x[k] == ps[k].row && y[k] == ps[k].col && ang[k] == ps[k].angle
  }

  function RowIndices(ps: seq<Pixel>): seq<int> {
    seq(|ps|, k requires 0 <= k < |ps| => ps[k].row as int)
  }

  function ColIndices(ps: seq<Pixel>): seq<int> {
    seq(|ps|, k requires 0 <= k < |ps| => ps[k].col as int)
  }

  function AnglesOf(ps: seq<Pixel>): seq<real> {
    seq(|ps|, k requires 0 <= k < |ps| => ps[k].angle)
  }

  /** Appending one pixel to the list appends its row, column and angle. */
  lemma UnzipsSnoc(ps: seq<Pixel>, x: seq<int>, y: seq<int>, ang: seq<real>, p: Pixel)
    requires Unzips(ps, x, y, ang)
    ensures Unzips(ps + [p], x + [p.row], y + [p.col], ang + [p.angle])
  {
    var qs := ps + [p];
    assert forall k :: 0 <= k < |ps| ==> qs[k] == ps[k];
  }

  /** The three parallel lists are exactly the three projections. */
  lemma UnzipsProjections(ps: seq<Pixel>, x: seq<int>, y: seq<int>, ang: seq<real>)
    requires Unzips(ps, x, y, ang)
    ensures x == RowIndices(ps) && y == ColIndices(ps) && ang == AnglesOf(ps)
  {
  }

  /** The valid cells the scan has met before cell (i, j): rows 0 .. i-1, then
      columns 0 .. j-1 of row i. */
  function Scanned(g: Grid, i: nat, j: nat): seq<Pixel>
    requires i < |g| && j <= |g[i]|
  {
    if j == 0 then GridPixels(g, i) else Scanned(g, i, j - 1) + CellPixels(g[i][j - 1], i, j - 1)
  }

  lemma {:induction false} ScannedRow(g: Grid, i: nat, j: nat)
    requires i < |g| && j <= |g[i]|
    ensures Scanned(g, i, j) == GridPixels(g, i) + RowPixels(g[i], i, j)
  {
    if j > 0 {
      ScannedRow(g, i, j - 1);
      var a, b, c := GridPixels(g, i), RowPixels(g[i], i, j - 1), CellPixels(g[i][j - 1], i, j - 1);
      assert (a + b) + c == a + (b + c);
    }
  }

  /** The inner loop of the scan: the columns of row i, appending each cell that
      is not NaN to the three lists. */
  method ScanRow(data: Grid, i: nat, x0: seq<int>, y0: seq<int>, ang0: seq<real>)
    returns (x: seq<int>, y: seq<int>, ang: seq<real>)
    requires i < |data|
    requires Unzips(GridPixels(data, i), x0, y0, ang0)
    ensures Unzips(GridPixels(data, i + 1), x, y, ang)
  {
    x, y, ang := x0, y0, ang0;
    var j := 0;
    while j < |data[i]|
      invariant 0 <= j <= |data[i]|
      invariant Unzips(Scanned(data, i, j), x, y, ang)
    {
      if data[i][j].Some? {
        UnzipsSnoc(Scanned(data, i, j), x, y, ang, Pixel(i, j, data[i][j].value));
        x := x + [i];
        y := y + [j];
        ang := ang + [data[i][j].value];
      } else {
        assert Scanned(data, i, j + 1) == Scanned(data, i, j) + [];
      }
      j := j + 1;
    }
    ScannedRow(data, i, |data[i]|);
  }

  /** The nested scan over rows and columns of the map, appending to x, y and
      the angle list for each cell that is not NaN. */
  method ExtractValidPixels(data: Grid) returns (x: seq<int>, y: seq<int>, ang: seq<real>)
    ensures Unzips(ValidPixels(data), x, y, ang)
    ensures x == RowIndices(ValidPixels(data)) && y == ColIndices(ValidPixels(data))
    ensures ang == AnglesOf(ValidPixels(data))
  {
    x, y, ang := [], [], [];
    var i := 0;
    while i < |data|
      invariant 0 <= i <= |data|
      invariant Unzips(GridPixels(data, i), x, y, ang)
    {
      x, y, ang := ScanRow(data, i, x, y, ang);
      i := i + 1;
    }
    UnzipsProjections(ValidPixels(data), x, y, ang);
  }

  lemma {:induction false} RowPixelsSorted(cells: seq<Option<real>>, r: nat, c: nat)
    requires c <= |cells|
    ensures RowMajorSorted(RowPixels(cells, r, c))
  {
    if c > 0 {
      RowPixelsSorted(cells, r, c - 1);
    }
  }

  lemma {:induction false} GridPixelsSorted(g: Grid, r: nat)
    requires r <= |g|
    ensures RowMajorSorted(GridPixels(g, r))
  {
    if r > 0 {
      GridPixelsSorted(g, r - 1);
      RowPixelsSorted(g[r - 1], r - 1, |g[r - 1]|);
      var prev, row := GridPixels(g, r - 1), RowPixels(g[r - 1], r - 1, |g[r - 1]|);
      forall a, b | 0 <= a < b < |prev + row|
        ensures RowMajorBefore((prev + row)[a], (prev + row)[b])
      {
        if b < |prev| {
        } else if a < |prev| {
          assert (prev + row)[a] == prev[a];
          assert (prev + row)[b] == row[b - |prev|];
        } else {
          assert (prev + row)[a] == row[a - |prev|];
          assert (prev + row)[b] == row[b - |prev|];
        }
      }
    }
  }

  lemma {:induction false} RowPixelsMembers(cells: seq<Option<real>>, r: nat, c: nat, p: Pixel)
    requires c <= |cells|
    ensures p in RowPixels(cells, r, c) <==> p.row == r && p.col < c && cells[p.col] == Some(p.angle)
  {
    if c > 0 {
      RowPixelsMembers(cells, r, c - 1, p);
    }
  }

  lemma {:induction false} GridPixelsMembers(g: Grid, r: nat, p: Pixel)
    requires r <= |g|
    ensures p in GridPixels(g, r) <==> p.row < r && HoldsAt(g, p.row, p.col, p.angle)
  {
    if r > 0 {
      GridPixelsMembers(g, r - 1, p);
      RowPixelsMembers(g[r - 1], r - 1, |g[r - 1]|, p);
    }
  }

  /** Extraction keeps exactly the cells that are not NaN, each once, in row-major
      order: a pixel is extracted if and only if its cell holds that angle, and the
      extracted list is strictly increasing in row-major order. */
  lemma ValidPixelsExact(g: Grid)
    ensures forall p :: p in ValidPixels(g) <==> HoldsAt(g, p.row, p.col, p.angle)
    ensures RowMajorSorted(ValidPixels(g))
  {
    forall p
      ensures p in ValidPixels(g) <==> HoldsAt(g, p.row, p.col, p.angle)
    {
      GridPixelsMembers(g, |g|, p);
    }
    GridPixelsSorted(g, |g|);
  }

  /** A map with every cell NaN yields three empty lists. */
  lemma {:induction false} AllMissingIsEmpty(g: Grid)
    requires forall r, c :: 0 <= r < |g| && 0 <= c < |g[r]| ==> g[r][c].None?
    ensures ValidPixels(g) == []
  {
    if ValidPixels(g) != [] {
      var p := ValidPixels(g)[0];
      GridPixelsMembers(g, |g|, p);
    }
  }

  lemma {:induction false} FullRowCount(cells: seq<Option<real>>, r: nat, c: nat)
    requires c <= |cells|
    requires forall k :: 0 <= k < |cells| ==> cells[k].Some?
    ensures |RowPixels(cells, r, c)| == c
  {
    if c > 0 {
      FullRowCount(cells, r, c - 1);
    }
  }

  lemma {:induction false} FullGridCount(g: Grid, cols: nat, r: nat)
    requires r <= |g|
    requires forall i :: 0 <= i < |g| ==> |g[i]| == cols
    requires forall i, c :: 0 <= i < |g| && 0 <= c < |g[i]| ==> g[i][c].Some?
    ensures |GridPixels(g, r)| == r * cols
  {
    if r > 0 {
      FullGridCount(g, cols, r - 1);
      FullRowCount(g[r - 1], r - 1, |g[r - 1]|);
      assert r * cols == (r - 1) * cols + cols;
    }
  }

  /** An n-by-m map without NaN yields n*m points, in row-major order. */
  lemma AllValidCount(g: Grid, cols: nat)
    requires forall i :: 0 <= i < |g| ==> |g[i]| == cols
    requires forall i, c :: 0 <= i < |g| && 0 <= c < |g[i]| ==> g[i][c].Some?
    ensures |ValidPixels(g)| == |g| * cols
    ensures RowMajorSorted(ValidPixels(g))
  {
    FullGridCount(g, cols, |g|);
    GridPixelsSorted(g, |g|);
  }
}
