/**
 * The planar board of the 2-D game and the line check that the cube reuses on its slices:
 * the bounds predicate, the one-cell write, the row-major scan for three-in-a-row in the
 * four directions (0,+1), (+1,0), (+1,+1), (-1,+1), and the draw rule.
 */
module Planar {
  import opened Cells

  /** A board as a list of rows, indexed `b[x][y]`. */
  type Grid = seq<seq<Cell>>

  /** A list of (x, y) coordinates, standing in for the random draws of one round. */
  type Moves = seq<(int, int)>

  predicate IsSquare(b: Grid, n: int) {
    |b| == n && forall i :: 0 <= i < n ==> |b[i]| == n
  }

  /** Every coordinate is one `randint(0, n - 1)` could produce. */
  predicate MovesOnBoard(moves: Moves, n: int) {
    forall k :: 0 <= k < |moves| ==> 0 <= moves[k].0 < n && 0 <= moves[k].1 < n
  }

  /**
   * `validate_coord`: (x, y) lies on the n×n board; a supplied z must in addition pass
   * the source's test `z and z >= 0 and z <= 4`, in which z = 0 counts as false.
   */
  function ValidCoord(n: int, x: int, y: int, z: Option<int>): (ok: bool)
    ensures ok <==> 0 <= x < n && 0 <= y < n && (z.None? || 1 <= z.value <= 4)
  {
    if x >= 0 && x <= n - 1 then
      if y >= 0 && y <= n - 1 then
        z.None? || (z.value != 0 && z.value >= 0 && z.value <= 4)
      else false
    else false
  }

  /** The board after writing `c` into slot (x, y). */
  function Place(b: Grid, n: int, x: int, y: int, c: Cell): (r: Grid)
    requires IsSquare(b, n) && 0 <= x < n && 0 <= y < n
    ensures IsSquare(r, n)
    ensures r[x][y] == c
    ensures forall i, j :: 0 <= i < n && 0 <= j < n && (i != x || j != y) ==> r[i][j] == b[i][j]
  {
    b[x := b[x][y := c]]
  }

  /** `determine_winner`: the winner field after it is handed the slot value `val`. */
  function DeterminedWinner(val: Cell, w: Option<int>): (r: Option<int>)
    ensures val != Empty ==> r == Some(Code(val))
    ensures val == Empty ==> r == w
  {
    if val == O then Some(1) else if val == X then Some(2) else w
  }

  /** Slots (x, y), (x+dx, y+dy), (x+2dx, y+2dy) hold equal values, the far end passing `validate_coord`. */
  ghost predicate RunOfThree(b: Grid, n: int, x: int, y: int, dx: int, dy: int)
    requires IsSquare(b, n) && 0 <= x < n && 0 <= y < n
    requires -1 <= dx <= 1 && -1 <= dy <= 1
  {
    ValidCoord(n, x + 2 * dx, y + 2 * dy, None) &&
    b[x][y] == b[x + dx][y + dy] && b[x + dx][y + dy] == b[x + 2 * dx][y + 2 * dy]
  }

  /** An occupied slot from which one of the four checked directions gives three in a row. */
  ghost predicate StartsLine(b: Grid, n: int, x: int, y: int)
    requires IsSquare(b, n) && 0 <= x < n && 0 <= y < n
  {
    b[x][y] != Empty &&
    (RunOfThree(b, n, x, y, 0, 1) || RunOfThree(b, n, x, y, 1, 0) ||
     RunOfThree(b, n, x, y, 1, 1) || RunOfThree(b, n, x, y, -1, 1))
  }

  ghost predicate HasLine(b: Grid, n: int)
    requires IsSquare(b, n)
  {
    exists x, y :: 0 <= x < n && 0 <= y < n && StartsLine(b, n, x, y)
  }

  /** (i, j) comes strictly before (x, y) in row-major order. */
  predicate Before(i: int, j: int, x: int, y: int) {
    i < x || (i == x && j < y)
  }

  /**
   * The code of the last line start among the slots strictly before (x, y) in row-major
   * order, or None when there is none: the scan never stops, so each later match overwrites.
   */
  ghost function LastLineBefore(b: Grid, n: int, x: int, y: int): (r: Option<int>)
    requires IsSquare(b, n) && 0 <= x <= n && 0 <= y <= n && (x == n ==> y == 0)
    ensures r.Some? ==> r.value == 1 || r.value == 2
    decreases x, y
  {
    if y == 0 then
      if x == 0 then None else LastLineBefore(b, n, x - 1, n)
    else if StartsLine(b, n, x, y - 1) then Some(Code(b[x][y - 1]))
    else LastLineBefore(b, n, x, y - 1)
  }

  /** What one full scan of `check_board` reports: the code of the last line start, if any. */
  ghost function LastLine(b: Grid, n: int): Option<int>
    requires IsSquare(b, n)
  {
    LastLineBefore(b, n, n, 0)
  }

  /** No slot of any row is 0. */
  ghost predicate IsFull(b: Grid) {
    forall i, j :: 0 <= i < |b| && 0 <= j < |b[i]| ==> b[i][j] != Empty
  }

  /** A value of the winner field: None while undecided, else 1 or 2 for a win, 3 for a draw. */
  predicate IsOutcome(w: Option<int>) {
    w.Some? ==> w.value == 1 || w.value == 2 || w.value == 3
  }

  /**
   * The winner field after `check_board` runs on `b` with the field at `w`: a found line
   * overwrites, and only a still-None winner on a board without a 0 becomes a draw (3).
   */
  ghost function BoardStep(w: Option<int>, b: Grid, n: int): (r: Option<int>)
    requires IsSquare(b, n)
    ensures IsOutcome(w) ==> IsOutcome(r)
  {
    Decide(w, LastLine(b, n), IsFull(b))
  }

  /**
   * The winner field after a check whose scan reported `line` on a board that is `full`
   * or not, with the field at `w` before the check.
   */
  function Decide(w: Option<int>, line: Option<int>, full: bool): Option<int> {
    var s := if line.Some? then line else w;
    if s.None? && full then Some(3) else s
  }

  /** Number of slots of a row holding `c`. */
  function RowCount(row: seq<Cell>, c: Cell): nat {
    if row == [] then 0 else (if row[0] == c then 1 else 0) + RowCount(row[1..], c)
  }

  /** Number of slots of a board holding `c`. */
  function CountIn(b: Grid, c: Cell): nat {
    if b == [] then 0 else RowCount(b[0], c) + CountIn(b[1..], c)
  }

  lemma {:induction false} RowCountUpdate(row: seq<Cell>, j: int, c: Cell, d: Cell)
    requires 0 <= j < |row|
    ensures RowCount(row[j := c], d) + (if row[j] == d then 1 else 0)
         == RowCount(row, d) + (if c == d then 1 else 0)
  {
    if j == 0 {
      assert row[j := c][1..] == row[1..];
    } else {
      assert row[j := c][1..] == row[1..][j - 1 := c];
      RowCountUpdate(row[1..], j - 1, c, d);
    }
  }

  lemma {:induction false} CountUpdate(b: Grid, x: int, y: int, c: Cell, d: Cell)
    requires 0 <= x < |b| && 0 <= y < |b[x]|
    ensures CountIn(b[x := b[x][y := c]], d) + (if b[x][y] == d then 1 else 0)
         == CountIn(b, d) + (if c == d then 1 else 0)
  {
    if x == 0 {
      assert b[x := b[x][y := c]][1..] == b[1..];
      RowCountUpdate(b[0], y, c, d);
    } else {
      assert b[x := b[x][y := c]][1..] == b[1..][x - 1 := b[x][y := c]];
      CountUpdate(b[1..], x - 1, y, c, d);
    }
  }

  /** Writing a mark into an empty slot adds one to that mark's count and leaves the other mark's. */
  lemma PlaceCounts(b: Grid, n: int, x: int, y: int, c: Cell)
    requires IsSquare(b, n) && 0 <= x < n && 0 <= y < n
    requires b[x][y] == Empty && c != Empty
    ensures CountIn(Place(b, n, x, y, c), c) == CountIn(b, c) + 1
    ensures forall d :: d != c && d != Empty ==> CountIn(Place(b, n, x, y, c), d) == CountIn(b, d)
  {
    CountUpdate(b, x, y, c, c);
    forall d | d != c && d != Empty
      ensures CountIn(Place(b, n, x, y, c), d) == CountIn(b, d)
    {
      CountUpdate(b, x, y, c, d);
    }
  }

  lemma {:induction false} RowCountNone(row: seq<Cell>, c: Cell)
    requires forall j :: 0 <= j < |row| ==> row[j] != c
    ensures RowCount(row, c) == 0
  {
    if row != [] {
      RowCountNone(row[1..], c);
    }
  }

  /** A board without a `c` counts zero of them. */
  lemma {:induction false} CountNone(b: Grid, c: Cell)
    requires forall i, j :: 0 <= i < |b| && 0 <= j < |b[i]| ==> b[i][j] != c
    ensures CountIn(b, c) == 0
  {
    if b != [] {
      RowCountNone(b[0], c);
      CountNone(b[1..], c);
    }
  }

  /** `init_board`: a fresh n×n board, every slot 0. */
  method NewBoard(n: nat) returns (board: Grid)
    ensures IsSquare(board, n)
    ensures forall i, j :: 0 <= i < n && 0 <= j < n ==> board[i][j] == Empty
  {
    board := [];
    for i := 0 to n
      invariant |board| == i
      invariant forall r :: 0 <= r < i ==> |board[r]| == n
      invariant forall r, j :: 0 <= r < i && 0 <= j < n ==> board[r][j] == Empty
    {
      board := board + [seq(n, _ => Empty)];
    }
  }

  /**
   * The nested loops of `check_board`: every occupied slot is tested in the four directions,
   * each guarded by `validate_coord` on the far end, and every match hands the slot to
   * `determine_winner`, so the last match in row-major order decides.
   */
  method ScanLines(b: Grid, n: int, w0: Option<int>) returns (w: Option<int>)
    requires IsSquare(b, n)
    ensures w == (if LastLine(b, n).Some? then LastLine(b, n) else w0)
  {
    w := w0;
    for x := 0 to n
      invariant w == (if LastLineBefore(b, n, x, 0).Some? then LastLineBefore(b, n, x, 0) else w0)
    {
      for y := 0 to n
        invariant w == (if LastLineBefore(b, n, x, y).Some? then LastLineBefore(b, n, x, y) else w0)
      {
        if b[x][y] != Empty {
          // Horizontal
          if ValidCoord(n, x, y + 2, None) && b[x][y] == b[x][y + 1] && b[x][y + 1] == b[x][y + 2] {
            w := DeterminedWinner(b[x][y], w);
          }
          // Vertical
          if ValidCoord(n, x + 2, y, None) && b[x][y] == b[x + 1][y] && b[x + 1][y] == b[x + 2][y] {
            w := DeterminedWinner(b[x][y], w);
          }
          // Diagonal 1
          if ValidCoord(n, x + 2, y + 2, None) && b[x][y] == b[x + 1][y + 1] && b[x + 1][y + 1] == b[x + 2][y + 2] {
            w := DeterminedWinner(b[x][y], w);
          }
          // Diagonal 2
          if ValidCoord(n, x - 2, y + 2, None) && b[x][y] == b[x - 1][y + 1] && b[x - 1][y + 1] == b[x - 2][y + 2] {
            w := DeterminedWinner(b[x][y], w);
          }
        }
      }
    }
  }

  /** The draw test of `check_board`: some row still contains a 0. */
  method SlotsLeft(b: Grid) returns (left: bool)
    ensures left <==> !IsFull(b)
  {
    left := false;
    for i := 0 to |b|
      invariant left <==> exists r, j :: 0 <= r < i && 0 <= j < |b[r]| && b[r][j] == Empty
    {
      if Empty in b[i] {
        left := true;
      }
    }
  }

  /** `check_board` on board `b` of side `n` with the winner field at `w0`; returns the new field. */
  method CheckBoardOn(b: Grid, n: int, w0: Option<int>) returns (w: Option<int>)
    requires IsSquare(b, n)
    ensures w == BoardStep(w0, b, n)
  {
    w := ScanLines(b, n, w0);
    if w.None? {
      var left := SlotsLeft(b);
      if !left {
        w := Some(3);
      }
    }
  }
}
