/**
 * The 5×5×5 cube of the three-dimensional game, indexed `c[layer][x][y]`: gravity drops,
 * the slices the cube check hands to the planar check (layers, and slices with the second
 * index fixed), the space-diagonal check, and what the whole cube check decides.
 */
module Cube {
  import opened Cells
  import opened Planar

  type Volume = seq<seq<seq<Cell>>>

  predicate IsCube(c: Volume) {
    |c| == 5 && forall z :: 0 <= z < 5 ==> IsSquare(c[z], 5)
  }

  /** The cube after writing `v` into c[z][x][y]. */
  function PlaceInCube(c: Volume, z: int, x: int, y: int, v: Cell): (r: Volume)
    requires IsCube(c) && 0 <= z < 5 && 0 <= x < 5 && 0 <= y < 5
    ensures IsCube(r)
    ensures r[z][x][y] == v
    ensures forall l, i, j :: 0 <= l < 5 && 0 <= i < 5 && 0 <= j < 5 && (l != z || i != x || j != y) ==>
      r[l][i][j] == c[l][i][j]
  {
    c[z := Place(c[z], 5, x, y, v)]
  }

  /** The first empty layer of column (x, y) met when scanning from layer `z` down to 0. */
  function FreeLayerFrom(c: Volume, x: int, y: int, z: int): (r: Option<int>)
    requires IsCube(c) && 0 <= x < 5 && 0 <= y < 5 && -1 <= z <= 4
    ensures r.Some? ==> 0 <= r.value <= z && c[r.value][x][y] == Empty
    ensures r.Some? ==> forall k :: r.value < k <= z ==> c[k][x][y] != Empty
    ensures r.None? <==> forall k :: 0 <= k <= z ==> c[k][x][y] != Empty
    decreases z + 1
  {
    if z < 0 then None
    else if c[z][x][y] == Empty then Some(z)
    else FreeLayerFrom(c, x, y, z - 1)
  }

  /** Where a drop at column (x, y) lands: the highest empty layer, from 4 down. */
  function Landing(c: Volume, x: int, y: int): Option<int>
    requires IsCube(c) && 0 <= x < 5 && 0 <= y < 5
  {
    FreeLayerFrom(c, x, y, 4)
  }

  /** Gravity: in every column the occupied slots form one block from layer 4 downward. */
  ghost predicate Stacked(c: Volume)
    requires IsCube(c)
  {
    forall z1, z2, x, y :: 0 <= z1 < z2 < 5 && 0 <= x < 5 && 0 <= y < 5 && c[z1][x][y] != Empty ==>
      c[z2][x][y] != Empty
  }

  /** On a stacked cube a drop lands just below the column's block, above nothing but empty slots. */
  lemma LandingOnStacked(c: Volume, x: int, y: int)
    requires IsCube(c) && Stacked(c) && 0 <= x < 5 && 0 <= y < 5 && Landing(c, x, y).Some?
    ensures forall k :: 0 <= k < Landing(c, x, y).value ==> c[k][x][y] == Empty
  {
    var l := Landing(c, x, y).value;
    assert c[l][x][y] == Empty;
  }

  /** A drop keeps every column a contiguous block from layer 4 downward. */
  lemma DropKeepsStacked(c: Volume, x: int, y: int, v: Cell)
    requires IsCube(c) && Stacked(c) && 0 <= x < 5 && 0 <= y < 5
    requires Landing(c, x, y).Some? && v != Empty
    ensures Stacked(PlaceInCube(c, Landing(c, x, y).value, x, y, v))
  {
    var l := Landing(c, x, y).value;
    var r := PlaceInCube(c, l, x, y, v);
    forall z1, z2, i, j | 0 <= z1 < z2 < 5 && 0 <= i < 5 && 0 <= j < 5 && r[z1][i][j] != Empty
      ensures r[z2][i][j] != Empty
    {
      if i == x && j == y {
        LandingOnStacked(c, x, y);
      }
    }
  }

  /** The slice with the second index fixed at `i`, as `rotate_cube()[i]` presents it. */
  function Slice(c: Volume, i: int): (r: Grid)
    requires IsCube(c) && 0 <= i < 5
    ensures IsSquare(r, 5)
    ensures forall x, y :: 0 <= x < 5 && 0 <= y < 5 ==> r[x][y] == c[x][i][y]
  {
    seq(5, x requires 0 <= x < 5 => c[x][i])
  }

  /** The k-th board `check_cube` hands to `check_board`: layer 0, slice 0, layer 1, slice 1, … */
  function Checked(c: Volume, k: int): (b: Grid)
    requires IsCube(c) && 0 <= k < 10
    ensures IsSquare(b, 5)
  {
    if k % 2 == 0 then c[k / 2] else Slice(c, k / 2)
  }

  /** What one `check_board` call learns from a board: the scan's report, and whether no 0 is left. */
  ghost function Verdict(b: Grid): (Option<int>, bool)
    requires IsSquare(b, 5)
  {
    (LastLine(b, 5), IsFull(b))
  }

  /** The verdicts on the ten boards `check_cube` checks, in the order it checks them. */
  ghost function Verdicts(c: Volume): (vs: seq<(Option<int>, bool)>)
    requires IsCube(c)
    ensures |vs| == 10
    ensures forall k :: 0 <= k < 10 ==> vs[k] == Verdict(Checked(c, k))
  {
    seq(10, k requires 0 <= k < 10 => Verdict(Checked(c, k)))
  }

  /** The winner field after checks with verdicts `vs`, one after another, starting from `w`. */
  function Fold(w: Option<int>, vs: seq<(Option<int>, bool)>): Option<int>
    decreases |vs|
  {
    if vs == [] then w else Decide(Fold(w, vs[..|vs| - 1]), vs[|vs| - 1].0, vs[|vs| - 1].1)
  }

  /** One more check extends the fold by one step. */
  lemma FoldSnoc(w: Option<int>, vs: seq<(Option<int>, bool)>, k: int)
    requires 0 <= k < |vs|
    ensures Fold(w, vs[..k + 1]) == Decide(Fold(w, vs[..k]), vs[k].0, vs[k].1)
  {
    assert vs[..k + 1][..k] == vs[..k];
  }

  /** The two boards of round i of `check_cube`: layer i, then slice i. */
  lemma CheckedPair(c: Volume, i: int)
    requires IsCube(c) && 0 <= i < 5
    ensures Checked(c, 2 * i) == c[i] && Checked(c, 2 * i + 1) == Slice(c, i)
  {
  }

  /** The k-th planar check of `check_cube` extends the fold over the verdicts by one `check_board` step. */
  lemma FoldChecked(w: Option<int>, c: Volume, k: int)
    requires IsCube(c) && 0 <= k < 10
    ensures Fold(w, Verdicts(c)[..k + 1]) == BoardStep(Fold(w, Verdicts(c)[..k]), Checked(c, k), 5)
  {
    FoldSnoc(w, Verdicts(c), k);
  }

  /** Slots c[x][y][z], c[x+1][y+dy][z+dz], c[x+2][y+2dy][z+2dz] are equal, the far end passing `validate_coord`. */
  ghost predicate DiagonalRun(c: Volume, x: int, y: int, z: int, dy: int, dz: int)
    requires IsCube(c) && 0 <= x < 5 && 0 <= y < 5 && 0 <= z < 5
    requires (dy == 1 || dy == -1) && (dz == 1 || dz == -1)
  {
    ValidCoord(5, x + 2, y + 2 * dy, Some(z + 2 * dz)) &&
    c[x][y][z] == c[x + 1][y + dy][z + dz] && c[x + 1][y + dy][z + dz] == c[x + 2][y + 2 * dy][z + 2 * dz]
  }

  /** An occupied slot from which one of the four space diagonals (+1, ±1, ±1) is three in a row. */
  ghost predicate StartsDiagonal(c: Volume, x: int, y: int, z: int)
    requires IsCube(c) && 0 <= x < 5 && 0 <= y < 5 && 0 <= z < 5
  {
    c[x][y][z] != Empty &&
    (DiagonalRun(c, x, y, z, 1, 1) || DiagonalRun(c, x, y, z, 1, -1) ||
     DiagonalRun(c, x, y, z, -1, 1) || DiagonalRun(c, x, y, z, -1, -1))
  }

  ghost predicate HasDiagonal(c: Volume)
    requires IsCube(c)
  {
    exists x, y, z :: 0 <= x < 5 && 0 <= y < 5 && 0 <= z < 5 && StartsDiagonal(c, x, y, z)
  }

  /** (a, b, d) comes strictly before (x, y, z) in the x, y, z loop order. */
  predicate CubeBefore(a: int, b: int, d: int, x: int, y: int, z: int) {
    a < x || (a == x && (b < y || (b == y && d < z)))
  }

  /**
   * The code of the first diagonal start at or after (x, y, z) in loop order; a coordinate
   * equal to 5 stands for "the next row" of the enclosing loop.
   */
  ghost function FirstDiagonalFrom(c: Volume, x: int, y: int, z: int): (r: Option<int>)
    requires IsCube(c) && 0 <= x <= 5 && 0 <= y <= 5 && 0 <= z <= 5
    ensures r.Some? ==> r.value == 1 || r.value == 2
    decreases 5 - x, 5 - y, 5 - z
  {
    if x == 5 then None
    else if y == 5 then FirstDiagonalFrom(c, x + 1, 0, 0)
    else if z == 5 then FirstDiagonalFrom(c, x, y + 1, 0)
    else if StartsDiagonal(c, x, y, z) then Some(Code(c[x][y][z]))
    else FirstDiagonalFrom(c, x, y, z + 1)
  }

  /** What `check_cube_diagonal` finds: the code of the first diagonal start, if any. */
  ghost function FirstDiagonal(c: Volume): Option<int>
    requires IsCube(c)
  {
    FirstDiagonalFrom(c, 0, 0, 0)
  }

  /** The winner field after `check_cube` runs with the field at `w`. */
  ghost function CubeOutcome(w: Option<int>, c: Volume): Option<int>
    requires IsCube(c)
  {
    var d := FirstDiagonal(c);
    if d.Some? then d else Fold(w, Verdicts(c))
  }

  /** Number of slots of the cube holding `v`. */
  function CubeCount(c: Volume, v: Cell): nat {
    if c == [] then 0 else CountIn(c[0], v) + CubeCount(c[1..], v)
  }

  lemma {:induction false} LayerUpdateCount(c: Volume, z: int, b: Grid, v: Cell)
    requires 0 <= z < |c|
    ensures CubeCount(c[z := b], v) + CountIn(c[z], v) == CubeCount(c, v) + CountIn(b, v)
  {
    if z == 0 {
      assert c[z := b][1..] == c[1..];
    } else {
      assert c[z := b][1..] == c[1..][z - 1 := b];
      LayerUpdateCount(c[1..], z - 1, b, v);
    }
  }

  /** Dropping a mark into an empty slot adds one to that mark's count and leaves the other mark's. */
  lemma PlaceInCubeCounts(c: Volume, z: int, x: int, y: int, v: Cell)
    requires IsCube(c) && 0 <= z < 5 && 0 <= x < 5 && 0 <= y < 5
    requires c[z][x][y] == Empty && v != Empty
    ensures CubeCount(PlaceInCube(c, z, x, y, v), v) == CubeCount(c, v) + 1
    ensures forall d :: d != v && d != Empty ==> CubeCount(PlaceInCube(c, z, x, y, v), d) == CubeCount(c, d)
  {
    PlaceCounts(c[z], 5, x, y, v);
    LayerUpdateCount(c, z, Place(c[z], 5, x, y, v), v);
    forall d | d != v && d != Empty
      ensures CubeCount(PlaceInCube(c, z, x, y, v), d) == CubeCount(c, d)
    {
      LayerUpdateCount(c, z, Place(c[z], 5, x, y, v), d);
    }
  }

  /** A cube without a `v` counts zero of them. */
  lemma {:induction false} CubeCountNone(c: Volume, v: Cell)
    requires forall l, i, j :: 0 <= l < |c| && 0 <= i < |c[l]| && 0 <= j < |c[l][i]| ==> c[l][i][j] != v
    ensures CubeCount(c, v) == 0
  {
    if c != [] {
      CountNone(c[0], v);
      CubeCountNone(c[1..], v);
    }
  }
}
