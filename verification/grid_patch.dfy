/** `Grid_Patch`: a (rows + 1) x (columns + 1) grid of points, stored row by
    row, and two triangles per grid cell, produced by one index formula over
    strips `h`, triangles `i` and corners `j`. The points come from the
    caller's row and column functions and stay opaque: a point is known by
    its place in the grid. */
module GridPatch {

  datatype GridPoint = GridPoint(row: nat, column: nat)

  /** Where point (r, c) sits in the position list. */
  function PointAt(columns: nat, r: nat, c: nat): nat
  {
    r * (columns + 1) + c
  }

  /** The index pushed for strip `h`, triangle `i` and corner `j`. */
  function GridIndex(columns: nat, h: nat, i: nat, j: nat): nat
  {
    h * (columns + 1) + columns * ((i + j % 2) % 2)
      + if (j % 3) / 2 != 0 then i / 2 + 2 * (i % 2) else i / 2 + 1
  }

  /** The first `n` points of row `r`. */
  function RowPoints(r: nat, n: nat): (ps: seq<GridPoint>)
    ensures |ps| == n
  {
    if n == 0 then [] else RowPoints(r, n - 1) + [GridPoint(r, n - 1)]
  }

  /** The points of the first `m` rows, row by row. */
  function GridPoints(columns: nat, m: nat): (ps: seq<GridPoint>)
    ensures |ps| == m * (columns + 1)
  {
    if m == 0 then [] else GridPoints(columns, m - 1) + RowPoints(m - 1, columns + 1)
  }

  /** The three indices of triangle `i` of strip `h`. */
  function Triangle(columns: nat, h: nat, i: nat): (t: seq<nat>)
    ensures |t| == 3
  {
    [GridIndex(columns, h, i, 0), GridIndex(columns, h, i, 1), GridIndex(columns, h, i, 2)]
  }

  /** The indices of the first `n` triangles of strip `h`. */
  function StripIndices(columns: nat, h: nat, n: nat): (ix: seq<nat>)
    ensures |ix| == 3 * n
  {
    if n == 0 then [] else StripIndices(columns, h, n - 1) + Triangle(columns, h, n - 1)
  }

  /** The indices of the first `m` strips, each of `2 * columns` triangles. */
  function GridIndices(columns: nat, m: nat): seq<nat>
  {
    if m == 0 then [] else GridIndices(columns, m - 1) + StripIndices(columns, m - 1, 2 * columns)
  }

  /** Each strip adds `6 * columns` indices: two triangles per cell. */
  lemma {:induction false} GridIndicesLength(columns: nat, m: nat)
    ensures |GridIndices(columns, m)| == 6 * m * columns
  {
    if m > 0 {
      GridIndicesLength(columns, m - 1);
      StripStep(m, columns);
    }
  }

  lemma StripStep(m: nat, columns: nat)
    requires m > 0
    ensures 6 * m * columns == 6 * (m - 1) * columns + 3 * (2 * columns)
  {
  }

  // ---------------------------------------------------------------- properties

  lemma {:induction false} RowPointsAt(r: nat, n: nat, c: nat)
    requires c < n
    ensures RowPoints(r, n)[c] == GridPoint(r, c)
  {
    if c < n - 1 {
      RowPointsAt(r, n - 1, c);
    }
  }

  /** Point (r, c) is stored at `r * (columns + 1) + c`. */
  lemma {:induction false} GridPointsAt(columns: nat, m: nat, r: nat, c: nat)
    requires r < m && c <= columns
    ensures PointAt(columns, r, c) < |GridPoints(columns, m)|
    ensures GridPoints(columns, m)[PointAt(columns, r, c)] == GridPoint(r, c)
  {
    var prefix := GridPoints(columns, m - 1);
    if r < m - 1 {
      GridPointsAt(columns, m - 1, r, c);
      assert PointAt(columns, r, c) < |prefix|;
    } else {
      assert PointAt(columns, r, c) == |prefix| + c;
      RowPointsAt(r, columns + 1, c);
    }
  }

  /** The two triangles of cell (h, k): (h, k+1), (h+1, k), (h, k) and
      (h+1, k), (h, k+1), (h+1, k+1), so together they cover the cell's four
      corners. */
  lemma CellTriangles(columns: nat, h: nat, k: nat)
    ensures Triangle(columns, h, 2 * k) ==
      [PointAt(columns, h, k + 1), PointAt(columns, h + 1, k), PointAt(columns, h, k)]
    ensures Triangle(columns, h, 2 * k + 1) ==
      [PointAt(columns, h + 1, k), PointAt(columns, h, k + 1), PointAt(columns, h + 1, k + 1)]
  {
    assert (2 * k) / 2 == k && (2 * k) % 2 == 0;
    assert (2 * k + 1) / 2 == k && (2 * k + 1) % 2 == 1;
    assert (h + 1) * (columns + 1) == h * (columns + 1) + columns + 1;
  }

  /** Which corner of its cell (row offset, column offset) corner `j` of
      triangle `i` is: (0,1), (1,0), (0,0) for an even triangle and (1,0),
      (0,1), (1,1) for an odd one. */
  function CellCorner(i: nat, j: nat): (d: (nat, nat))
    ensures d.0 <= 1 && d.1 <= 1
  {
    if i % 2 == 0 then (if j == 0 then (0, 1) else if j == 1 then (1, 0) else (0, 0))
    else (if j == 0 then (1, 0) else if j == 1 then (0, 1) else (1, 1))
  }

  /** Every corner of triangle `i` of strip `h` is a corner of cell
      (h, i / 2). */
  lemma CornerInCell(columns: nat, h: nat, i: nat, j: nat)
    requires j < 3
    ensures GridIndex(columns, h, i, j) == PointAt(columns, h + CellCorner(i, j).0, i / 2 + CellCorner(i, j).1)
  {
    var k := i / 2;
    CellTriangles(columns, h, k);
    if i % 2 == 0 {
      assert i == 2 * k;
    } else {
      assert i == 2 * k + 1;
    }
    assert Triangle(columns, h, i)[j] == GridIndex(columns, h, i, j);
  }

  lemma PointBound(columns: nat, rows: nat, r: nat, c: nat)
    requires r <= rows && c <= columns
    ensures PointAt(columns, r, c) < (rows + 1) * (columns + 1)
  {
    assert r * (columns + 1) <= rows * (columns + 1) by {
      MulMono(r, rows, columns + 1);
    }
  }

  lemma MulMono(a: nat, b: nat, k: nat)
    requires a <= b
    ensures a * k <= b * k
  {
  }

  /** The index of any corner in any strip below `rows` names a grid point,
      and that point is a corner of the triangle's cell. */
  lemma IndexNamesCellCorner(columns: nat, rows: nat, h: nat, i: nat, j: nat)
    requires h < rows && i < 2 * columns && j < 3
    ensures GridIndex(columns, h, i, j) < (rows + 1) * (columns + 1)
    ensures GridPoints(columns, rows + 1)[GridIndex(columns, h, i, j)] in
      {GridPoint(h, i / 2), GridPoint(h, i / 2 + 1), GridPoint(h + 1, i / 2), GridPoint(h + 1, i / 2 + 1)}
  {
    CornerInCell(columns, h, i, j);
    var (dr, dc) := CellCorner(i, j);
    PointBound(columns, rows, h + dr, i / 2 + dc);
    GridPointsAt(columns, rows + 1, h + dr, i / 2 + dc);
  }

  /** Every index in `ix` is below `bound`. */
  predicate Below(ix: seq<nat>, bound: nat)
  {
    forall x :: 0 <= x < |ix| ==> ix[x] < bound
  }

  lemma BelowAppend(a: seq<nat>, b: seq<nat>, bound: nat)
    requires Below(a, bound) && Below(b, bound)
    ensures Below(a + b, bound)
  {
    forall x | 0 <= x < |a + b|
      ensures (a + b)[x] < bound
    {
      if x >= |a| {
        assert (a + b)[x] == b[x - |a|];
      }
    }
  }

  /** Corner `j` of triangle `i` of a strip below `rows` names a grid point. */
  lemma CornerBound(columns: nat, rows: nat, h: nat, i: nat, j: nat)
    requires h < rows && i < 2 * columns && j < 3
    ensures GridIndex(columns, h, i, j) < (rows + 1) * (columns + 1)
  {
    CornerInCell(columns, h, i, j);
    PointBound(columns, rows, h + CellCorner(i, j).0, i / 2 + CellCorner(i, j).1);
  }

  lemma {:induction false} StripBound(columns: nat, rows: nat, h: nat, n: nat)
    requires h < rows && n <= 2 * columns
    ensures Below(StripIndices(columns, h, n), (rows + 1) * (columns + 1))
  {
    if n > 0 {
      StripBound(columns, rows, h, n - 1);
      CornerBound(columns, rows, h, n - 1, 0);
      CornerBound(columns, rows, h, n - 1, 1);
      CornerBound(columns, rows, h, n - 1, 2);
      BelowAppend(StripIndices(columns, h, n - 1), Triangle(columns, h, n - 1), (rows + 1) * (columns + 1));
    }
  }

  /** Every index the patch emits is below the number of its points. */
  lemma {:induction false} IndicesBound(columns: nat, rows: nat, m: nat)
    requires m <= rows
    ensures Below(GridIndices(columns, m), (rows + 1) * (columns + 1))
  {
    if m > 0 {
      IndicesBound(columns, rows, m - 1);
      StripBound(columns, rows, m - 1, 2 * columns);
      BelowAppend(GridIndices(columns, m - 1), StripIndices(columns, m - 1, 2 * columns), (rows + 1) * (columns + 1));
    }
  }

  /** The shape's position and index lists. */
  class Patch {
    var positions: seq<GridPoint>
    var indices: seq<nat>

    constructor (rows: nat, columns: nat)
      ensures positions == GridPoints(columns, rows + 1)
      ensures indices == GridIndices(columns, rows)
    {
      var ps := PushPositions(rows, columns);
      var ix := PushIndices(rows, columns);
      positions, indices := ps, ix;
    }

    /** The position loop: every point, row by row. */
    static method PushPositions(rows: nat, columns: nat) returns (ps: seq<GridPoint>)
      ensures ps == GridPoints(columns, rows + 1)
      ensures |ps| == (rows + 1) * (columns + 1)
    {
      ps := [];
      var r := 0;
      while r <= rows
        invariant r <= rows + 1
        invariant ps == GridPoints(columns, r)
      {
        var c := 0;
        while c <= columns
          invariant c <= columns + 1
          invariant ps == GridPoints(columns, r) + RowPoints(r, c)
        {
          ps := ps + [GridPoint(r, c)];
          c := c + 1;
        }
        r := r + 1;
      }
    }

    /** The index loop: strips, triangles, corners. */
    static method PushIndices(rows: nat, columns: nat) returns (ix: seq<nat>)
      ensures ix == GridIndices(columns, rows)
      ensures |ix| == 6 * rows * columns
      ensures Below(ix, (rows + 1) * (columns + 1))
    {
      ix := [];
      var h: nat := 0;
      while h < rows
        invariant h <= rows
        invariant ix == GridIndices(columns, h)
      {
        ix := PushStrip(ix, columns, h);
        h := h + 1;
      }
      IndicesBound(columns, rows, rows);
      GridIndicesLength(columns, rows);
    }

    /** The middle loop: the `2 * columns` triangles of strip `h`. */
    static method PushStrip(ix0: seq<nat>, columns: nat, h: nat) returns (ix: seq<nat>)
      ensures ix == ix0 + StripIndices(columns, h, 2 * columns)
    {
      ix := ix0;
      var i: nat := 0;
      while i < 2 * columns
        invariant i <= 2 * columns
        invariant ix == ix0 + StripIndices(columns, h, i)
      {
        ix := PushTriangle(ix, columns, h, i);
        i := i + 1;
      }
    }

    /** The inner loop: the three corners of triangle `i` of strip `h`. */
    static method PushTriangle(ix0: seq<nat>, columns: nat, h: nat, i: nat) returns (ix: seq<nat>)
      ensures ix == ix0 + Triangle(columns, h, i)
    {
      ix := ix0;
      var j: nat := 0;
      while j < 3
        invariant j <= 3
        invariant ix == ix0 + Triangle(columns, h, i)[..j]
      {
        ix := ix + [GridIndex(columns, h, i, j)];
        j := j + 1;
      }
    }
  }
}
