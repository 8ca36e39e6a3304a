/**
 * What the planar line check means: the scan reports exactly the last line start in
 * row-major order, a line always beats the draw rule, a draw needs a full board without a
 * line, and whether a board has a line does not change when it is mirrored.
 */
module PlanarFacts {
  import opened Cells
  import opened Planar

  /** (i, j) starts a line before (x, y), and no slot between the two starts one. */
  ghost predicate LastStartBefore(b: Grid, n: int, i: int, j: int, x: int, y: int)
    requires IsSquare(b, n)
  {
    0 <= i < n && 0 <= j < n && Before(i, j, x, y) && StartsLine(b, n, i, j) &&
    forall i', j' :: 0 <= i' < n && 0 <= j' < n && Before(i', j', x, y) && Before(i, j, i', j') ==>
      !StartsLine(b, n, i', j')
  }

  /** (i, j) starts a line and no slot after it in row-major order does. */
  ghost predicate IsLastLineStart(b: Grid, n: int, i: int, j: int)
    requires IsSquare(b, n)
  {
    0 <= i < n && 0 <= j < n && StartsLine(b, n, i, j) &&
    forall i', j' :: 0 <= i' < n && 0 <= j' < n && Before(i, j, i', j') ==> !StartsLine(b, n, i', j')
  }

  lemma {:induction false} LastLineBeforeSound(b: Grid, n: int, x: int, y: int)
    requires IsSquare(b, n) && 0 <= x <= n && 0 <= y <= n && (x == n ==> y == 0)
    ensures LastLineBefore(b, n, x, y).None? ==>
      forall i, j :: 0 <= i < n && 0 <= j < n && Before(i, j, x, y) ==> !StartsLine(b, n, i, j)
    ensures LastLineBefore(b, n, x, y).Some? ==>
      exists i, j :: LastStartBefore(b, n, i, j, x, y) && LastLineBefore(b, n, x, y) == Some(Code(b[i][j]))
    decreases x, y
  {
    if y == 0 {
      if x > 0 {
        LastLineBeforeSound(b, n, x - 1, n);
        if LastLineBefore(b, n, x - 1, n).Some? {
          var i, j :| LastStartBefore(b, n, i, j, x - 1, n) && LastLineBefore(b, n, x - 1, n) == Some(Code(b[i][j]));
          assert LastStartBefore(b, n, i, j, x, y);
        }
      }
    } else {
      LastLineBeforeSound(b, n, x, y - 1);
      if StartsLine(b, n, x, y - 1) {
        assert LastStartBefore(b, n, x, y - 1, x, y);
      } else if LastLineBefore(b, n, x, y - 1).Some? {
        var i, j :| LastStartBefore(b, n, i, j, x, y - 1) && LastLineBefore(b, n, x, y - 1) == Some(Code(b[i][j]));
        assert LastStartBefore(b, n, i, j, x, y);
      }
    }
  }

  lemma {:induction false} LastLineBeforeOfLastStart(b: Grid, n: int, i: int, j: int, x: int, y: int)
    requires IsSquare(b, n) && 0 <= x <= n && 0 <= y <= n && (x == n ==> y == 0)
    requires LastStartBefore(b, n, i, j, x, y)
    ensures LastLineBefore(b, n, x, y) == Some(Code(b[i][j]))
    decreases x, y
  {
    if y == 0 {
      assert LastStartBefore(b, n, i, j, x - 1, n);
      LastLineBeforeOfLastStart(b, n, i, j, x - 1, n);
    } else if i != x || j != y - 1 {
      assert LastStartBefore(b, n, i, j, x, y - 1);
      LastLineBeforeOfLastStart(b, n, i, j, x, y - 1);
    }
  }

  /** The scan finds nothing exactly when no slot starts a line. */
  lemma LastLineNoneIff(b: Grid, n: int)
    requires IsSquare(b, n)
    ensures LastLine(b, n).None? <==> !HasLine(b, n)
  {
    LastLineBeforeSound(b, n, n, 0);
  }

  /** Last match wins: the scan reports the code of the last line start in row-major order. */
  lemma LastLineOfLastStart(b: Grid, n: int, i: int, j: int)
    requires IsSquare(b, n) && IsLastLineStart(b, n, i, j)
    ensures LastLine(b, n) == Some(Code(b[i][j]))
  {
    assert LastStartBefore(b, n, i, j, n, 0);
    LastLineBeforeOfLastStart(b, n, i, j, n, 0);
  }

  /** Whatever the scan reports is the code of some last line start. */
  lemma LastLineHasLastStart(b: Grid, n: int)
    requires IsSquare(b, n) && LastLine(b, n).Some?
    ensures exists i, j :: IsLastLineStart(b, n, i, j) && LastLine(b, n) == Some(Code(b[i][j]))
  {
    LastLineBeforeSound(b, n, n, 0);
    var i, j :| LastStartBefore(b, n, i, j, n, 0) && LastLine(b, n) == Some(Code(b[i][j]));
    assert IsLastLineStart(b, n, i, j);
  }

  /** From a still-undecided winner, `check_board` declares a draw exactly on a full board without a line. */
  lemma DrawIff(b: Grid, n: int)
    requires IsSquare(b, n)
    ensures BoardStep(None, b, n) == Some(3) <==> !HasLine(b, n) && IsFull(b)
  {
    LastLineNoneIff(b, n);
  }

  /** A line is a win for its owner whatever the winner field held, also on a full board. */
  lemma LineIsWin(b: Grid, n: int, w: Option<int>)
    requires IsSquare(b, n) && HasLine(b, n)
    ensures BoardStep(w, b, n) == LastLine(b, n)
    ensures BoardStep(w, b, n) == Some(1) || BoardStep(w, b, n) == Some(2)
  {
    LastLineNoneIff(b, n);
  }

  /** Without a line the winner field is kept, except that None on a full board becomes a draw. */
  lemma NoLineKeeps(b: Grid, n: int, w: Option<int>)
    requires IsSquare(b, n) && !HasLine(b, n)
    ensures BoardStep(w, b, n) == (if w.None? && IsFull(b) then Some(3) else w)
  {
    LastLineNoneIff(b, n);
  }

  /** A board with at most one occupied slot has no line. */
  lemma SingleMarkNoLine(b: Grid, n: int)
    requires IsSquare(b, n)
    requires forall i, j, i', j' ::
      (0 <= i < n && 0 <= j < n && 0 <= i' < n && 0 <= j' < n && b[i][j] != Empty && b[i'][j'] != Empty) ==>
        i == i' && j == j'
    ensures !HasLine(b, n)
  {
  }

  /** A fresh board of side at least 1 decides nothing. */
  lemma EmptyBoardUndecided(b: Grid, n: int)
    requires IsSquare(b, n) && n >= 1
    requires forall i, j :: 0 <= i < n && 0 <= j < n ==> b[i][j] == Empty
    ensures BoardStep(None, b, n) == None
  {
    assert !StartsLine(b, n, 0, 0);
    assert !HasLine(b, n);
    LastLineNoneIff(b, n);
    assert !IsFull(b) by { assert b[0][0] == Empty; }
  }

  /** The board read right to left. */
  function Mirror(b: Grid, n: int): (r: Grid)
    requires IsSquare(b, n)
    ensures IsSquare(r, n)
    ensures forall i, j :: 0 <= i < n && 0 <= j < n ==> r[i][j] == b[i][n - 1 - j]
  {
    seq(n, i requires 0 <= i < n => seq(n, j requires 0 <= j < n => b[i][n - 1 - j]))
  }

  lemma MirrorLine(b: Grid, n: int, x: int, y: int)
    requires IsSquare(b, n) && 0 <= x < n && 0 <= y < n && StartsLine(b, n, x, y)
    ensures HasLine(Mirror(b, n), n)
  {
    var m := Mirror(b, n);
    if RunOfThree(b, n, x, y, 0, 1) {
      assert StartsLine(m, n, x, n - 3 - y) by { assert RunOfThree(m, n, x, n - 3 - y, 0, 1); }
    } else if RunOfThree(b, n, x, y, 1, 0) {
      assert StartsLine(m, n, x, n - 1 - y) by { assert RunOfThree(m, n, x, n - 1 - y, 1, 0); }
    } else if RunOfThree(b, n, x, y, 1, 1) {
      assert StartsLine(m, n, x + 2, n - 3 - y) by { assert RunOfThree(m, n, x + 2, n - 3 - y, -1, 1); }
    } else {
      assert StartsLine(m, n, x - 2, n - 3 - y) by { assert RunOfThree(m, n, x - 2, n - 3 - y, 1, 1); }
    }
  }

  /** Line detection is direction-symmetric: mirroring the board keeps or removes no line. */
  lemma MirrorSymmetric(b: Grid, n: int)
    requires IsSquare(b, n)
    ensures HasLine(b, n) <==> HasLine(Mirror(b, n), n)
  {
    var m := Mirror(b, n);
    if HasLine(b, n) {
      var x, y :| 0 <= x < n && 0 <= y < n && StartsLine(b, n, x, y);
      MirrorLine(b, n, x, y);
    }
    if HasLine(m, n) {
      var x, y :| 0 <= x < n && 0 <= y < n && StartsLine(m, n, x, y);
      MirrorLine(m, n, x, y);
      assert Mirror(m, n) == b by {
        forall i | 0 <= i < n ensures Mirror(m, n)[i] == b[i] { }
      }
    }
  }

  /** Three "O"s along the top row of an otherwise empty 3×3 board: player 1 wins. */
  lemma TopRowWins()
    ensures BoardStep(None, [[O, O, O], [Empty, Empty, Empty], [Empty, Empty, Empty]], 3) == Some(1)
  {
    var b: Grid := [[O, O, O], [Empty, Empty, Empty], [Empty, Empty, Empty]];
    assert IsLastLineStart(b, 3, 0, 0) by {
      assert RunOfThree(b, 3, 0, 0, 0, 1);
    }
    LastLineOfLastStart(b, 3, 0, 0);
  }

  /** A full 3×3 board without three in a row is a draw. */
  lemma FullBoardDraws()
    ensures BoardStep(None, [[O, X, O], [O, X, X], [X, O, O]], 3) == Some(3)
  {
    var b: Grid := [[O, X, O], [O, X, X], [X, O, O]];
    assert !HasLine(b, 3);
    DrawIff(b, 3);
  }
}
