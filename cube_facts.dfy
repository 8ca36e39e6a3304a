/**
 * What the cube check decides: the space-diagonal check reports the first diagonal start in
 * x, y, z loop order and never a draw; across the ten planar checks the last slice with a line
 * decides, and from an undecided winner a single full slice without any line is a draw.
 */
module CubeFacts {
  import opened Cells
  import opened Planar
  import PlanarFacts
  import opened Cube

  /** Every line a verdict reports is a win code, 1 or 2. */
  predicate WinCodes(vs: seq<(Option<int>, bool)>) {
    forall j :: 0 <= j < |vs| && vs[j].0.Some? ==> vs[j].0.value == 1 || vs[j].0.value == 2
  }

  /** Without lines, the checks keep a decided winner and otherwise draw once any board is full. */
  lemma {:induction false} FoldNoLine(w: Option<int>, vs: seq<(Option<int>, bool)>)
    requires forall j :: 0 <= j < |vs| ==> vs[j].0.None?
    ensures Fold(w, vs) == if w.Some? then w else if exists j :: 0 <= j < |vs| && vs[j].1 then Some(3) else None
  {
    if vs != [] {
      var p := vs[..|vs| - 1];
      FoldNoLine(w, p);
      if exists j :: 0 <= j < |p| && p[j].1 {
        var j :| 0 <= j < |p| && p[j].1;
        assert vs[j].1;
      }
      if exists j :: 0 <= j < |vs| && vs[j].1 {
        var j :| 0 <= j < |vs| && vs[j].1;
        if j < |p| {
          assert p[j].1;
        }
      }
    }
  }

  /** The last check whose scan reports a line decides, whatever came before it. */
  lemma {:induction false} FoldLastLine(w: Option<int>, vs: seq<(Option<int>, bool)>, j: int)
    requires 0 <= j < |vs| && vs[j].0.Some?
    requires forall j' :: j < j' < |vs| ==> vs[j'].0.None?
    ensures Fold(w, vs) == vs[j].0
  {
    if j < |vs| - 1 {
      var p := vs[..|vs| - 1];
      FoldLastLine(w, p, j);
    }
  }

  /** Once some check reports a line, the winner ends as player 1 or 2, never a draw. */
  lemma {:induction false} FoldLineWins(w: Option<int>, vs: seq<(Option<int>, bool)>)
    requires WinCodes(vs)
    requires exists j :: 0 <= j < |vs| && vs[j].0.Some?
    ensures Fold(w, vs) == Some(1) || Fold(w, vs) == Some(2)
  {
    var last := |vs| - 1;
    if vs[last].0.None? {
      var p := vs[..last];
      var j :| 0 <= j < |vs| && vs[j].0.Some?;
      assert p[j] == vs[j];
      FoldLineWins(w, p);
    }
  }

  /** The scan reports a win code on every checked board. */
  lemma VerdictsWinCodes(c: Volume)
    requires IsCube(c)
    ensures WinCodes(Verdicts(c))
  {
  }

  /** The verdict on a checked board reports a line exactly when the board has one. */
  lemma VerdictLines(c: Volume)
    requires IsCube(c)
    ensures forall k :: 0 <= k < 10 ==> (Verdicts(c)[k].0.None? <==> !HasLine(Checked(c, k), 5))
  {
    forall k | 0 <= k < 10
      ensures Verdicts(c)[k].0.None? <==> !HasLine(Checked(c, k), 5)
    {
      PlanarFacts.LastLineNoneIff(Checked(c, k), 5);
    }
  }

  /** None of the ten checked boards has a line. */
  ghost predicate NoSliceLine(c: Volume)
    requires IsCube(c)
  {
    forall k :: 0 <= k < 10 ==> !HasLine(Checked(c, k), 5)
  }

  /** Some checked board has no 0 left. */
  ghost predicate SomeSliceFull(c: Volume)
    requires IsCube(c)
  {
    exists k :: 0 <= k < 10 && IsFull(Checked(c, k))
  }

  /** (a, b, d) starts a diagonal at or after (x, y, z), and nothing between them does. */
  ghost predicate FirstStartFrom(c: Volume, a: int, b: int, d: int, x: int, y: int, z: int)
    requires IsCube(c)
  {
    0 <= a < 5 && 0 <= b < 5 && 0 <= d < 5 && !CubeBefore(a, b, d, x, y, z) && StartsDiagonal(c, a, b, d) &&
    forall a', b', d' ::
      (0 <= a' < 5 && 0 <= b' < 5 && 0 <= d' < 5 && !CubeBefore(a', b', d', x, y, z) && CubeBefore(a', b', d', a, b, d)) ==>
        !StartsDiagonal(c, a', b', d')
  }

  lemma {:induction false} FirstDiagonalFromSound(c: Volume, x: int, y: int, z: int)
    requires IsCube(c) && 0 <= x <= 5 && 0 <= y <= 5 && 0 <= z <= 5
    ensures FirstDiagonalFrom(c, x, y, z).None? ==>
      forall a, b, d :: 0 <= a < 5 && 0 <= b < 5 && 0 <= d < 5 && !CubeBefore(a, b, d, x, y, z) ==>
        !StartsDiagonal(c, a, b, d)
    ensures FirstDiagonalFrom(c, x, y, z).Some? ==>
      exists a, b, d :: FirstStartFrom(c, a, b, d, x, y, z) && FirstDiagonalFrom(c, x, y, z) == Some(Code(c[a][b][d]))
    decreases 5 - x, 5 - y, 5 - z
  {
    if x == 5 {
    } else if y == 5 {
      FirstDiagonalFromSound(c, x + 1, 0, 0);
      if FirstDiagonalFrom(c, x + 1, 0, 0).Some? {
        var a, b, d :| FirstStartFrom(c, a, b, d, x + 1, 0, 0) && FirstDiagonalFrom(c, x + 1, 0, 0) == Some(Code(c[a][b][d]));
        assert FirstStartFrom(c, a, b, d, x, y, z);
      }
    } else if z == 5 {
      FirstDiagonalFromSound(c, x, y + 1, 0);
      if FirstDiagonalFrom(c, x, y + 1, 0).Some? {
        var a, b, d :| FirstStartFrom(c, a, b, d, x, y + 1, 0) && FirstDiagonalFrom(c, x, y + 1, 0) == Some(Code(c[a][b][d]));
        assert FirstStartFrom(c, a, b, d, x, y, z);
      }
    } else if StartsDiagonal(c, x, y, z) {
      assert FirstStartFrom(c, x, y, z, x, y, z);
    } else {
      FirstDiagonalFromSound(c, x, y, z + 1);
      if FirstDiagonalFrom(c, x, y, z + 1).Some? {
        var a, b, d :| FirstStartFrom(c, a, b, d, x, y, z + 1) && FirstDiagonalFrom(c, x, y, z + 1) == Some(Code(c[a][b][d]));
        assert FirstStartFrom(c, a, b, d, x, y, z);
      }
    }
  }

  lemma {:induction false} FirstDiagonalFromOfFirst(c: Volume, a: int, b: int, d: int, x: int, y: int, z: int)
    requires IsCube(c) && 0 <= x <= 5 && 0 <= y <= 5 && 0 <= z <= 5
    requires FirstStartFrom(c, a, b, d, x, y, z)
    ensures FirstDiagonalFrom(c, x, y, z) == Some(Code(c[a][b][d]))
    decreases 5 - x, 5 - y, 5 - z
  {
    if y == 5 {
      assert FirstStartFrom(c, a, b, d, x + 1, 0, 0);
      FirstDiagonalFromOfFirst(c, a, b, d, x + 1, 0, 0);
    } else if z == 5 {
      assert FirstStartFrom(c, a, b, d, x, y + 1, 0);
      FirstDiagonalFromOfFirst(c, a, b, d, x, y + 1, 0);
    } else if a != x || b != y || d != z {
      assert FirstStartFrom(c, a, b, d, x, y, z + 1);
      FirstDiagonalFromOfFirst(c, a, b, d, x, y, z + 1);
    }
  }

  /** The diagonal check leaves the winner alone exactly when no slot starts a space diagonal. */
  lemma FirstDiagonalNoneIff(c: Volume)
    requires IsCube(c)
    ensures FirstDiagonal(c).None? <==> !HasDiagonal(c)
  {
    FirstDiagonalFromSound(c, 0, 0, 0);
  }

  /** The diagonal check reports the first diagonal start in x, y, z loop order. */
  lemma FirstDiagonalOfFirstStart(c: Volume, a: int, b: int, d: int)
    requires IsCube(c) && FirstStartFrom(c, a, b, d, 0, 0, 0)
    ensures FirstDiagonal(c) == Some(Code(c[a][b][d]))
  {
    FirstDiagonalFromOfFirst(c, a, b, d, 0, 0, 0);
  }

  /**
   * From an undecided winner, `check_cube` declares a draw exactly when no slot starts a
   * space diagonal, none of the ten checked slices has a line, and at least one of them is full.
   */
  lemma CubeDrawIff(c: Volume)
    requires IsCube(c)
    ensures CubeOutcome(None, c) == Some(3) <==> !HasDiagonal(c) && NoSliceLine(c) && SomeSliceFull(c)
  {
    FirstDiagonalNoneIff(c);
    var vs := Verdicts(c);
    VerdictLines(c);
    if NoSliceLine(c) {
      FoldNoLine(None, vs);
      assert SomeSliceFull(c) <==> exists j :: 0 <= j < |vs| && vs[j].1;
    } else {
      VerdictsWinCodes(c);
      var k :| 0 <= k < 10 && HasLine(Checked(c, k), 5);
      assert vs[k].0.Some?;
      FoldLineWins(None, vs);
    }
  }

  /**
   * Without a space diagonal, the last of the ten checked boards that has a line decides,
   * overwriting whatever earlier boards reported.
   */
  lemma LastSliceDecides(w: Option<int>, c: Volume, j: int)
    requires IsCube(c) && !HasDiagonal(c) && 0 <= j < 10 && HasLine(Checked(c, j), 5)
    requires forall k :: j < k < 10 ==> !HasLine(Checked(c, k), 5)
    ensures CubeOutcome(w, c) == LastLine(Checked(c, j), 5)
  {
    FirstDiagonalNoneIff(c);
    VerdictLines(c);
    FoldLastLine(w, Verdicts(c), j);
  }

  /** A space diagonal always decides for its owner, overriding whatever the slices gave. */
  lemma DiagonalDecides(w: Option<int>, c: Volume)
    requires IsCube(c) && HasDiagonal(c)
    ensures CubeOutcome(w, c) == FirstDiagonal(c)
    ensures CubeOutcome(w, c) == Some(1) || CubeOutcome(w, c) == Some(2)
  {
    FirstDiagonalNoneIff(c);
  }

  /** No two occupied slots share a layer, and no two share the second index. */
  ghost predicate Spread(c: Volume)
    requires IsCube(c)
  {
    forall l, i, j, l', i', j' ::
      (0 <= l < 5 && 0 <= i < 5 && 0 <= j < 5 && 0 <= l' < 5 && 0 <= i' < 5 && 0 <= j' < 5 &&
       c[l][i][j] != Empty && c[l'][i'][j'] != Empty && (l == l' || i == i')) ==>
        l == l' && i == i' && j == j'
  }

  /** At most one slot of the board is occupied. */
  ghost predicate AtMostOneMark(b: Grid, n: int)
    requires IsSquare(b, n)
  {
    forall i, j, i', j' ::
      (0 <= i < n && 0 <= j < n && 0 <= i' < n && 0 <= j' < n && b[i][j] != Empty && b[i'][j'] != Empty) ==>
        i == i' && j == j'
  }

  /** On a spread-out cube, each board `check_cube` checks holds at most one mark. */
  lemma SpreadChecked(c: Volume, k: int)
    requires IsCube(c) && Spread(c) && 0 <= k < 10
    ensures AtMostOneMark(Checked(c, k), 5)
  {
    var s := Checked(c, k);
    forall i, j, i', j' |
      0 <= i < 5 && 0 <= j < 5 && 0 <= i' < 5 && 0 <= j' < 5 && s[i][j] != Empty && s[i'][j'] != Empty
      ensures i == i' && j == j'
    {
      if k % 2 == 0 {
        assert c[k / 2][i][j] != Empty && c[k / 2][i'][j'] != Empty;
      } else {
        assert c[i][k / 2][j] != Empty && c[i'][k / 2][j'] != Empty;
      }
    }
  }

  /** On a spread-out cube, a checked board has no line and is not full. */
  lemma SpreadBoard(c: Volume, k: int)
    requires IsCube(c) && Spread(c) && 0 <= k < 10
    ensures LastLine(Checked(c, k), 5).None? && !IsFull(Checked(c, k))
  {
    var s := Checked(c, k);
    SpreadChecked(c, k);
    PlanarFacts.SingleMarkNoLine(s, 5);
    PlanarFacts.LastLineNoneIff(s, 5);
    assert s[0][0] == Empty || s[0][1] == Empty;
  }

  /** With spread-out marks, no checked board has a line or is full. */
  lemma SpreadVerdicts(c: Volume)
    requires IsCube(c) && Spread(c)
    ensures forall k :: 0 <= k < 10 ==> Verdicts(c)[k] == (None, false)
  {
    forall k | 0 <= k < 10
      ensures Verdicts(c)[k] == (None, false)
    {
      SpreadBoard(c, k);
    }
  }

  /** A spread-out cube without a space diagonal leaves an undecided round undecided. */
  lemma SpreadUndecided(c: Volume)
    requires IsCube(c) && Spread(c) && !HasDiagonal(c)
    ensures CubeOutcome(None, c) == None
  {
    FirstDiagonalNoneIff(c);
    SpreadVerdicts(c);
    FoldNoLine(None, Verdicts(c));
  }

  /** "O" at cube[2][2][2], cube[3][1][1] and cube[4][0][0]; every other slot is empty. */
  function ZeroIndexCube(): (c: Volume)
    ensures IsCube(c)
  {
    var e := [Empty, Empty, Empty, Empty, Empty];
    var blank := [e, e, e, e, e];
    [blank, blank, blank[2 := e[2 := O]], blank[1 := e[1 := O]], blank[0 := e[0 := O]]]
  }

  lemma ZeroIndexOccupied(a: int, b: int, d: int)
    requires 0 <= a < 5 && 0 <= b < 5 && 0 <= d < 5 && ZeroIndexCube()[a][b][d] != Empty
    ensures (a == 2 && b == 2 && d == 2) || (a == 3 && b == 1 && d == 1) || (a == 4 && b == 0 && d == 0)
  {
  }

  /** The only diagonal through the three marks ends at third index 0, which `validate_coord` refuses. */
  lemma ZeroIndexNoDiagonal()
    ensures !HasDiagonal(ZeroIndexCube())
  {
    var c := ZeroIndexCube();
    forall a, b, d | 0 <= a < 5 && 0 <= b < 5 && 0 <= d < 5 ensures !StartsDiagonal(c, a, b, d) {
      if c[a][b][d] != Empty {
        ZeroIndexOccupied(a, b, d);
      }
    }
  }

  /** No two of the three marks share a layer or a second index. */
  lemma ZeroIndexSpread()
    ensures Spread(ZeroIndexCube())
  {
    var c := ZeroIndexCube();
    forall l, i, j, l', i', j' |
      0 <= l < 5 && 0 <= i < 5 && 0 <= j < 5 && 0 <= l' < 5 && 0 <= i' < 5 && 0 <= j' < 5 &&
      c[l][i][j] != Empty && c[l'][i'][j'] != Empty && (l == l' || i == i')
      ensures l == l' && i == i' && j == j'
    {
      ZeroIndexOccupied(l, i, j);
      ZeroIndexOccupied(l', i', j');
    }
  }

  /**
   * Three "O"s at cube[2][2][2], cube[3][1][1] and cube[4][0][0] are never detected: the
   * diagonal through them is refused by `validate_coord`, and no slice the cube check looks
   * at holds more than one of them.
   */
  lemma ZeroIndexDiagonalMissed()
    ensures CubeOutcome(None, ZeroIndexCube()) == None
  {
    ZeroIndexNoDiagonal();
    ZeroIndexSpread();
    SpreadUndecided(ZeroIndexCube());
  }

  /** The slice with the third index fixed at `j`, which `check_cube` never looks at. */
  function ThirdIndexSlice(c: Volume, j: int): (r: Grid)
    requires IsCube(c) && 0 <= j < 5
    ensures IsSquare(r, 5)
    ensures forall l, i :: 0 <= l < 5 && 0 <= i < 5 ==> r[l][i] == c[l][i][j]
  {
    seq(5, l requires 0 <= l < 5 => seq(5, i requires 0 <= i < 5 => c[l][i][j]))
  }

  /** "O" at cube[2][0][1], cube[3][1][1] and cube[4][2][1]; every other slot is empty. */
  function UncheckedSliceCube(): (c: Volume)
    ensures IsCube(c)
  {
    var e := [Empty, Empty, Empty, Empty, Empty];
    var blank := [e, e, e, e, e];
    [blank, blank, blank[0 := e[1 := O]], blank[1 := e[1 := O]], blank[2 := e[1 := O]]]
  }

  lemma UncheckedSliceOccupied(a: int, b: int, d: int)
    requires 0 <= a < 5 && 0 <= b < 5 && 0 <= d < 5 && UncheckedSliceCube()[a][b][d] != Empty
    ensures (a == 2 && b == 0 && d == 1) || (a == 3 && b == 1 && d == 1) || (a == 4 && b == 2 && d == 1)
  {
  }

  /**
   * Three "O"s on a diagonal of the slice with the last index fixed at 1 are never detected:
   * `check_cube` hands only layers and slices with the second index fixed to `check_board`,
   * and the three slots do not form a space diagonal.
   */
  lemma UncheckedSliceMissed()
    ensures HasLine(ThirdIndexSlice(UncheckedSliceCube(), 1), 5)
    ensures CubeOutcome(None, UncheckedSliceCube()) == None
  {
    var c := UncheckedSliceCube();
    var s := ThirdIndexSlice(c, 1);
    assert StartsLine(s, 5, 2, 0) by { assert RunOfThree(s, 5, 2, 0, 1, 1); }
    forall a, b, d | 0 <= a < 5 && 0 <= b < 5 && 0 <= d < 5 ensures !StartsDiagonal(c, a, b, d) {
      if c[a][b][d] != Empty {
        UncheckedSliceOccupied(a, b, d);
        if a == 2 {
          assert c[3][1][2] == Empty && c[3][1][0] == Empty;
        }
      }
    }
    forall l, i, j, l', i', j' |
      0 <= l < 5 && 0 <= i < 5 && 0 <= j < 5 && 0 <= l' < 5 && 0 <= i' < 5 && 0 <= j' < 5 &&
      c[l][i][j] != Empty && c[l'][i'][j'] != Empty && (l == l' || i == i')
      ensures l == l' && i == i' && j == j'
    {
      UncheckedSliceOccupied(l, i, j);
      UncheckedSliceOccupied(l', i', j');
    }
    SpreadUndecided(c);
  }

  /** "O" at cube[0][0][1], cube[1][1][2] and cube[2][2][3]; every other slot is empty. */
  function SpaceDiagonalCube(): (c: Volume)
    ensures IsCube(c)
  {
    var e := [Empty, Empty, Empty, Empty, Empty];
    var blank := [e, e, e, e, e];
    [blank[0 := e[1 := O]], blank[1 := e[2 := O]], blank[2 := e[3 := O]], blank, blank]
  }

  /** Three "O"s along the space diagonal from cube[0][0][1] to cube[2][2][3]: player 1 wins. */
  lemma SpaceDiagonalWins()
    ensures CubeOutcome(None, SpaceDiagonalCube()) == Some(1)
  {
    var c := SpaceDiagonalCube();
    assert DiagonalRun(c, 0, 0, 1, 1, 1);
    assert FirstStartFrom(c, 0, 0, 1, 0, 0, 0);
    FirstDiagonalOfFirstStart(c, 0, 0, 1);
  }

  /**
   * Layer 4 filled without three in a row and every other slot empty: `check_cube` already
   * declares a draw, although 100 slots are still free.
   */
  function FullTopCube(): (c: Volume)
    ensures IsCube(c)
  {
    var e := [Empty, Empty, Empty, Empty, Empty];
    var blank := [e, e, e, e, e];
    var a := [O, X, O, X, O];
    var b := [X, O, X, O, X];
    [blank, blank, blank, blank, [a, a, b, b, a]]
  }

  lemma FullTopNoLine(k: int)
    requires 0 <= k < 10
    ensures !HasLine(Checked(FullTopCube(), k), 5)
  {
    var c := FullTopCube();
    var s := Checked(c, k);
    forall x, y | 0 <= x < 5 && 0 <= y < 5 ensures !StartsLine(s, 5, x, y) {
    }
  }

  lemma FullTopDraws()
    ensures CubeOutcome(None, FullTopCube()) == Some(3)
  {
    var c := FullTopCube();
    forall a, b, d | 0 <= a < 5 && 0 <= b < 5 && 0 <= d < 5 ensures !StartsDiagonal(c, a, b, d) {
    }
    forall k | 0 <= k < 10 ensures !HasLine(Checked(c, k), 5) {
      FullTopNoLine(k);
    }
    assert IsFull(Checked(c, 8));
    CubeDrawIff(c);
  }
}
