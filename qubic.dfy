/**
 * The three-dimensional game object: a 5×5×5 cube that players fill by dropping marks,
 * the rotation that presents the slices with the second index fixed, the cube check that
 * runs the planar check on ten slices and then searches the space diagonals, and the
 * round loop driven by a supplied list of coordinates in place of the random draws.
 */
module QubicGame {
  import opened Cells
  import opened Planar
  import opened Cube

  /** The first index at or after `k` whose column still has an empty slot in `c`, if any. */
  function FirstFree(c: Volume, moves: Moves, k: int): (j: Option<int>)
    requires IsCube(c) && MovesOnBoard(moves, 5) && 0 <= k <= |moves|
    ensures j.Some? ==> k <= j.value < |moves| && Landing(c, moves[j.value].0, moves[j.value].1).Some?
    ensures forall i :: k <= i < (if j.Some? then j.value else |moves|) ==> Landing(c, moves[i].0, moves[i].1).None?
    decreases |moves| - k
  {
    if k == |moves| then None
    else if Landing(c, moves[k].0, moves[k].1).Some? then Some(k)
    else FirstFree(c, moves, k + 1)
  }

  /** Where a cube round ends: the cube, the winner field, and how many columns were drawn. */
  datatype CubeEnd = CubeEnd(cube: Volume, winner: Option<int>, used: int)

  /**
   * The rest of a cube round from cube `c` with the winner field at `w`, `player` to move
   * and the columns from index `k` on still to be drawn: while the field is None, the
   * player's mark drops into the first column named that is not full, and `check_cube`
   * runs on the new cube.
   */
  ghost function CubePlayFrom(c: Volume, w: Option<int>, player: int, moves: Moves, k: int): (e: CubeEnd)
    requires IsCube(c) && MovesOnBoard(moves, 5) && 0 <= k <= |moves|
    ensures IsCube(e.cube)
    ensures k <= e.used <= |moves|
    ensures e.winner.None? ==> e.used == |moves|
    ensures w.None? && e.winner.Some? ==> e.winner == CubeOutcome(None, e.cube)
    decreases |moves| - k, 0
  {
    if w.Some? then CubeEnd(c, w, k)
    else
      match FirstFree(c, moves, k)
      case None => CubeEnd(c, w, |moves|)
      case Some(j) =>
        var (x, y) := moves[j];
        CubeChecked(PlaceInCube(c, Landing(c, x, y).value, x, y, Mark(player)), Other(player), moves, j + 1)
  }

  /** The rest of a cube round right after a drop: `check_cube` sets the winner field on cube `c`. */
  ghost function CubeChecked(c: Volume, player: int, moves: Moves, k: int): (e: CubeEnd)
    requires IsCube(c) && MovesOnBoard(moves, 5) && 0 <= k <= |moves|
    ensures IsCube(e.cube)
    ensures k <= e.used <= |moves|
    ensures e.winner.None? ==> e.used == |moves|
    ensures e.winner.Some? ==> e.winner == CubeOutcome(None, e.cube)
    decreases |moves| - k, 1
  {
    CubePlayFrom(c, CubeOutcome(None, c), player, moves, k)
  }

  /** The cube a round starts from: all 0, except player 1's "O" at cube[4][2][2] in scenario "q2". */
  ghost function CubeOpening(scenario: string): (c: Volume)
    ensures IsCube(c)
    ensures forall l, i, j :: 0 <= l < 5 && 0 <= i < 5 && 0 <= j < 5 ==>
      c[l][i][j] == if scenario == "q2" && l == 4 && i == 2 && j == 2 then O else Empty
  {
    seq(5, l => seq(5, i => seq(5, j => if scenario == "q2" && l == 4 && i == 2 && j == 2 then O else Empty)))
  }

  /** The player who draws first after the opening: player 2 in scenario "q2", otherwise player 1. */
  function CubeFirstPlayer(scenario: string): (p: int)
    ensures p == 1 || p == 2
    ensures p == 2 <==> scenario == "q2"
  {
    if scenario == "q2" then 2 else 1
  }

  /** One whole cube round of scenario `scenario`, fed by `moves`. */
  ghost function CubeRoundResult(scenario: string, moves: Moves): CubeEnd
    requires MovesOnBoard(moves, 5)
  {
    CubePlayFrom(CubeOpening(scenario), None, CubeFirstPlayer(scenario), moves, 0)
  }

  /** A round whose winner field is set, or whose columns are used up, ends where it stands. */
  lemma CubePlayDone(c: Volume, w: Option<int>, player: int, moves: Moves, k: int)
    requires IsCube(c) && MovesOnBoard(moves, 5) && 0 <= k <= |moves|
    requires w.Some? || k == |moves|
    ensures CubePlayFrom(c, w, player, moves, k) == CubeEnd(c, w, k)
  {
  }

  /** The first column that is not full is the one after a run of full columns. */
  lemma {:induction false} FirstFreeAt(c: Volume, moves: Moves, k: int, j: int)
    requires IsCube(c) && MovesOnBoard(moves, 5) && 0 <= k <= j < |moves|
    requires Landing(c, moves[j].0, moves[j].1).Some?
    requires forall i :: k <= i < j ==> Landing(c, moves[i].0, moves[i].1).None?
    ensures FirstFree(c, moves, k) == Some(j)
    decreases j - k
  {
    if k < j {
      FirstFreeAt(c, moves, k + 1, j);
    }
  }

  /** When every column named from index `k` on is full, there is no column to drop into. */
  lemma {:induction false} FirstFreeNone(c: Volume, moves: Moves, k: int)
    requires IsCube(c) && MovesOnBoard(moves, 5) && 0 <= k <= |moves|
    requires forall i :: k <= i < |moves| ==> Landing(c, moves[i].0, moves[i].1).None?
    ensures FirstFree(c, moves, k) == None
    decreases |moves| - k
  {
    if k < |moves| {
      FirstFreeNone(c, moves, k + 1);
    }
  }

  /** One drop into the first column that is not full, then `check_cube`, advances the round. */
  lemma CubePlayStep(c: Volume, player: int, moves: Moves, k: int, j: int, next: Volume, w: Option<int>, k1: int)
    requires IsCube(c) && MovesOnBoard(moves, 5) && 0 <= k <= j < |moves| && k1 == j + 1
    requires FirstFree(c, moves, k) == Some(j)
    requires next == PlaceInCube(c, Landing(c, moves[j].0, moves[j].1).value, moves[j].0, moves[j].1, Mark(player))
    requires w == CubeOutcome(None, next)
    ensures CubePlayFrom(c, None, player, moves, k) == CubePlayFrom(next, w, Other(player), moves, k1)
  {
    assert CubeChecked(next, Other(player), moves, k1) == CubePlayFrom(next, w, Other(player), moves, k1);
  }

  /** When every column named from index `k` on is full, the round ends undecided with all of them drawn. */
  lemma CubePlayStuck(c: Volume, player: int, moves: Moves, k: int)
    requires IsCube(c) && MovesOnBoard(moves, 5) && 0 <= k <= |moves|
    requires forall i :: k <= i < |moves| ==> Landing(c, moves[i].0, moves[i].1).None?
    ensures CubePlayFrom(c, None, player, moves, k) == CubeEnd(c, None, |moves|)
  {
    FirstFreeNone(c, moves, k);
  }

  /** What one drop keeps: the columns stay stacked, the marks already placed stay, and only the dropped mark's count grows. */
  lemma DropFacts(c: Volume, x: int, y: int, player: int)
    requires IsCube(c) && Stacked(c) && 0 <= x < 5 && 0 <= y < 5 && Landing(c, x, y).Some?
    requires player == 1 || player == 2
    ensures var next := PlaceInCube(c, Landing(c, x, y).value, x, y, Mark(player));
      Stacked(next) &&
      CubeCount(next, Mark(player)) == CubeCount(c, Mark(player)) + 1 &&
      CubeCount(next, Mark(Other(player))) == CubeCount(c, Mark(Other(player))) &&
      forall l, i, j :: 0 <= l < 5 && 0 <= i < 5 && 0 <= j < 5 && c[l][i][j] != Empty ==> next[l][i][j] == c[l][i][j]
  {
    PlaceInCubeCounts(c, Landing(c, x, y).value, x, y, Mark(player));
    DropKeepsStacked(c, x, y, Mark(player));
  }

  /** A cube that holds exactly the opening's slots is the opening. */
  lemma CubeOpeningIs(c: Volume, scenario: string)
    requires IsCube(c)
    requires forall l, i, j :: 0 <= l < 5 && 0 <= i < 5 && 0 <= j < 5 ==>
      c[l][i][j] == if scenario == "q2" && l == 4 && i == 2 && j == 2 then O else Empty
    ensures c == CubeOpening(scenario)
  {
    var o := CubeOpening(scenario);
    assert forall l, i :: 0 <= l < 5 && 0 <= i < 5 ==> c[l][i] == o[l][i];
    assert forall l :: 0 <= l < 5 ==> c[l] == o[l];
  }

  /** The opening is stacked, and holds one "O" in scenario "q2" and no mark otherwise. */
  lemma CubeOpeningFacts(scenario: string)
    ensures Stacked(CubeOpening(scenario))
    ensures CubeCount(CubeOpening(scenario), O) == (if scenario == "q2" then 1 else 0)
    ensures CubeCount(CubeOpening(scenario), X) == 0
  {
    var empty := CubeOpening("q1");
    CubeCountNone(CubeOpening(scenario), X);
    if scenario == "q2" {
      CubeCountNone(empty, O);
      PlaceInCubeCounts(empty, 4, 2, 2, O);
      CubeOpeningIs(PlaceInCube(empty, 4, 2, 2, O), scenario);
    } else {
      CubeCountNone(CubeOpening(scenario), O);
    }
  }

  class Qubic {
    const boardSize: nat
    const scenario: string
    var activeCube: Volume
    /** Never read by the cube game; only the inherited `reset` writes it. */
    var activeBoard: Grid
    var winner: Option<int>

    /**
     * The side is fixed at 5, and the scenario is not one of the planar ones: with "1" or "2"
     * the inherited `init_board` would store its board instead of returning it.
     */
    ghost predicate Valid()
      reads this
    {
      boardSize == 5 && scenario != "1" && scenario != "2" &&
      IsOutcome(winner)
    }

    /** `__init__`: the winner field starts at 1, so that the first round begins with a reset. */
    constructor (scenario: string)
      requires scenario != "1" && scenario != "2"
      ensures Valid()
      ensures this.scenario == scenario && boardSize == 5
      ensures activeCube == [] && activeBoard == [] && winner == Some(1)
    {
      boardSize := 5;
      this.scenario := scenario;
      activeCube := [];
      activeBoard := [];
      winner := Some(1);
    }

    /** The inherited `reset`: clears the planar board field and the result, not the cube. */
    method Reset()
      modifies this`activeBoard, this`winner
      ensures activeBoard == [] && winner == None
    {
      activeBoard := [];
      winner := None;
    }

    /** `init_cube`: five fresh 5×5 boards from `init_board`, stacked into the cube. */
    method InitCube()
      requires Valid()
      modifies this`activeCube
      ensures IsCube(activeCube)
      ensures forall l, i, j :: 0 <= l < 5 && 0 <= i < 5 && 0 <= j < 5 ==> activeCube[l][i][j] == Empty
    {
      var cube: Volume := [];
      for b := 0 to boardSize
        invariant |cube| == b
        invariant forall l :: 0 <= l < b ==> IsSquare(cube[l], 5)
        invariant forall l, i, j :: 0 <= l < b && 0 <= i < 5 && 0 <= j < 5 ==> cube[l][i][j] == Empty
      {
        var board := NewBoard(boardSize);
        cube := cube + [board];
      }
      activeCube := cube;
    }

    /**
     * `add_choice`: the mark drops into column (x, y) and lands in the highest empty layer,
     * scanning from layer 4 down; a full column leaves the cube as it was.
     */
    method AddChoice(player: int, x: int, y: int) returns (successful: bool)
      requires IsCube(activeCube) && 0 <= x < 5 && 0 <= y < 5
      modifies this`activeCube
      ensures successful <==> Landing(old(activeCube), x, y).Some?
      ensures activeCube == if successful
                            then PlaceInCube(old(activeCube), Landing(old(activeCube), x, y).value, x, y, Mark(player))
                            else old(activeCube)
    {
      var charToAdd := Mark(player);
      successful := false;
      var z := 4;
      while z >= 0
        invariant -1 <= z <= 4
        invariant !successful && activeCube == old(activeCube)
        invariant Landing(activeCube, x, y) == FreeLayerFrom(activeCube, x, y, z)
        decreases z + 1
      {
        if activeCube[z][x][y] == Empty {
          activeCube := PlaceInCube(activeCube, z, x, y, charToAdd);
          successful := true;
          break;
        }
        z := z - 1;
      }
    }

    /** `rotate_cube`: slice i of the result holds, for each layer x, row i of that layer. */
    method RotateCube() returns (rotated: Volume)
      requires IsCube(activeCube)
      ensures IsCube(rotated)
      ensures forall i, x, y :: 0 <= i < 5 && 0 <= x < 5 && 0 <= y < 5 ==> rotated[i][x][y] == activeCube[x][i][y]
      ensures forall i :: 0 <= i < 5 ==> rotated[i] == Slice(activeCube, i)
    {
      rotated := [];
      for row := 0 to 5
        invariant |rotated| == row
        invariant forall r :: 0 <= r < row ==> rotated[r] == Slice(activeCube, r)
      {
        var slice: Grid := [];
        for col := 0 to 5
          invariant |slice| == col
          invariant forall k :: 0 <= k < col ==> slice[k] == activeCube[k][row]
        {
          slice := slice + [activeCube[col][row]];
        }
        assert slice == Slice(activeCube, row);
        rotated := rotated + [slice];
      }
    }

    /**
     * The body of the innermost loop of `check_cube_diagonal`: an occupied slot is tested
     * in the four space diagonals, each guarded by `validate_coord` on the far end, and the
     * first diagonal that is three in a row ends the test.
     */
    static method DiagonalStart(c: Volume, x: int, y: int, z: int) returns (finished: bool)
      requires IsCube(c) && 0 <= x < 5 && 0 <= y < 5 && 0 <= z < 5
      ensures finished <==> StartsDiagonal(c, x, y, z)
    {
      finished := false;
      if c[x][y][z] != Empty {
        // Diagonal 1
        if ValidCoord(5, x + 2, y + 2, Some(z + 2)) {
          finished := c[x][y][z] == c[x + 1][y + 1][z + 1] && c[x + 1][y + 1][z + 1] == c[x + 2][y + 2][z + 2];
          if finished { return; }
        }
        // Diagonal 2
        if ValidCoord(5, x + 2, y + 2, Some(z - 2)) {
          finished := c[x][y][z] == c[x + 1][y + 1][z - 1] && c[x + 1][y + 1][z - 1] == c[x + 2][y + 2][z - 2];
          if finished { return; }
        }
        // Diagonal 3
        if ValidCoord(5, x + 2, y - 2, Some(z + 2)) {
          finished := c[x][y][z] == c[x + 1][y - 1][z + 1] && c[x + 1][y - 1][z + 1] == c[x + 2][y - 2][z + 2];
          if finished { return; }
        }
        // Diagonal 4
        if ValidCoord(5, x + 2, y - 2, Some(z - 2)) {
          finished := c[x][y][z] == c[x + 1][y - 1][z - 1] && c[x + 1][y - 1][z - 1] == c[x + 2][y - 2][z - 2];
        }
      }
    }

    /**
     * `check_cube_diagonal`: scans the slots in x, y, z loop order and stops at the first
     * occupied slot from which a space diagonal is three in a row; its owner becomes the
     * winner. When no slot qualifies the winner field is left alone; there is no draw here.
     */
    method CheckCubeDiagonal()
      requires IsCube(activeCube)
      modifies this`winner
      ensures winner == if FirstDiagonal(activeCube).Some? then FirstDiagonal(activeCube) else old(winner)
    {
      var c := activeCube;
      var finished := false;
      var x, y, z := 0, 0, 0;
      while x < 5
        invariant 0 <= x <= 5 && !finished && winner == old(winner)
        invariant FirstDiagonal(c) == FirstDiagonalFrom(c, x, 0, 0)
      {
        y := 0;
        while y < 5
          invariant 0 <= y <= 5 && !finished && winner == old(winner)
          invariant FirstDiagonal(c) == FirstDiagonalFrom(c, x, y, 0)
        {
          z := 0;
          while z < 5
            invariant 0 <= z <= 5 && !finished && winner == old(winner)
            invariant FirstDiagonal(c) == FirstDiagonalFrom(c, x, y, z)
          {
            finished := DiagonalStart(c, x, y, z);
            if finished {
              assert FirstDiagonal(c) == Some(Code(c[x][y][z]));
              break;
            }
            z := z + 1;
          }
          if finished { break; }
          y := y + 1;
        }
        if finished { break; }
        x := x + 1;
      }
      if finished {
        var winnerChar := c[x][y][z];
        winner := if winnerChar == O then Some(1) else Some(2);
      }
    }

    /**
     * `check_cube`: for i = 0 … 4 the inherited `check_board` runs on layer i and then on
     * slice i of the rotated cube, and finally the space diagonals are searched.
     */
    method CheckCube()
      requires Valid() && IsCube(activeCube)
      modifies this`winner
      ensures Valid()
      ensures winner == CubeOutcome(old(winner), activeCube)
    {
      for i := 0 to 5
        invariant Valid()
        invariant winner == Fold(old(winner), Verdicts(activeCube)[..2 * i])
      {
        CheckedPair(activeCube, i);
        FoldChecked(old(winner), activeCube, 2 * i);
        winner := CheckBoardOn(activeCube[i], 5, winner);
        var rotated := RotateCube();
        FoldChecked(old(winner), activeCube, 2 * i + 1);
        winner := CheckBoardOn(rotated[i], 5, winner);
      }
      assert Verdicts(activeCube)[..10] == Verdicts(activeCube);
      CheckCubeDiagonal();
    }

    /**
     * The retry loop of `run`: columns are taken from `moves`, starting at index `k0`, until
     * a drop lands. Every column tried before the one that takes the drop was full. The new
     * index `k` is just past the last column used; when nothing landed, `moves` ran out.
     */
    method TakeTurn(player: int, moves: Moves, k0: int) returns (slotFilled: bool, k: int)
      requires IsCube(activeCube) && MovesOnBoard(moves, 5) && 0 <= k0 <= |moves|
      modifies this`activeCube
      ensures k0 <= k <= |moves|
      ensures forall j :: k0 <= j < k && (j < k - 1 || !slotFilled) ==>
        Landing(old(activeCube), moves[j].0, moves[j].1).None?
      ensures !slotFilled ==> k == |moves| && activeCube == old(activeCube)
      ensures slotFilled ==> k > k0 && Landing(old(activeCube), moves[k - 1].0, moves[k - 1].1).Some?
      ensures slotFilled ==> activeCube == PlaceInCube(old(activeCube), Landing(old(activeCube), moves[k - 1].0, moves[k - 1].1).value,
                                                       moves[k - 1].0, moves[k - 1].1, Mark(player))
    {
      k := k0;
      slotFilled := false;
      while !slotFilled && k < |moves|
        invariant k0 <= k <= |moves|
        invariant forall j :: k0 <= j < k && (j < k - 1 || !slotFilled) ==>
          Landing(old(activeCube), moves[j].0, moves[j].1).None?
        invariant !slotFilled ==> activeCube == old(activeCube)
        invariant slotFilled ==> k > k0 && Landing(old(activeCube), moves[k - 1].0, moves[k - 1].1).Some?
        invariant slotFilled ==> activeCube == PlaceInCube(old(activeCube), Landing(old(activeCube), moves[k - 1].0, moves[k - 1].1).value,
                                                           moves[k - 1].0, moves[k - 1].1, Mark(player))
        decreases |moves| - k
      {
        var (x, y) := moves[k];
        slotFilled := AddChoice(player, x, y);
        k := k + 1;
      }
    }

    /**
     * One pass of the outer loop of `run`: the player's retry loop, then `check_cube`. When a
     * drop landed, the rest of the round from the new state is the rest of the round from the
     * old one; otherwise `moves` ran out and nothing changed.
     */
    method PlayTurn(player: int, moves: Moves, k0: int) returns (slotFilled: bool, k: int)
      requires Valid() && winner.None? && IsCube(activeCube) && Stacked(activeCube)
      requires MovesOnBoard(moves, 5) && 0 <= k0 <= |moves| && (player == 1 || player == 2)
      modifies this`activeCube, this`winner
      ensures Valid() && IsCube(activeCube) && Stacked(activeCube) && k0 <= k <= |moves|
      ensures slotFilled ==> k > k0
      ensures slotFilled ==> CubePlayFrom(activeCube, winner, Other(player), moves, k) ==
                             CubePlayFrom(old(activeCube), None, player, moves, k0)
      ensures slotFilled ==> Landing(old(activeCube), moves[k - 1].0, moves[k - 1].1).Some?
      ensures slotFilled ==> activeCube == PlaceInCube(old(activeCube), Landing(old(activeCube), moves[k - 1].0, moves[k - 1].1).value,
                                                       moves[k - 1].0, moves[k - 1].1, Mark(player))
      ensures slotFilled ==> CubeCount(activeCube, Mark(player)) == CubeCount(old(activeCube), Mark(player)) + 1 &&
                             CubeCount(activeCube, Mark(Other(player))) == CubeCount(old(activeCube), Mark(Other(player)))
      ensures forall l, i, j :: 0 <= l < 5 && 0 <= i < 5 && 0 <= j < 5 && old(activeCube)[l][i][j] != Empty ==>
        activeCube[l][i][j] == old(activeCube)[l][i][j]
      ensures !slotFilled ==> k == |moves| && activeCube == old(activeCube) && winner == None
      ensures !slotFilled ==> CubePlayFrom(old(activeCube), None, player, moves, k0) ==
                              CubeEnd(old(activeCube), None, |moves|)
    {
      ghost var before := activeCube;
      slotFilled, k := TakeTurn(player, moves, k0);
      if slotFilled {
        var (x, y) := moves[k - 1];
        DropFacts(before, x, y, player);
        CheckDrop(before, player, moves, k0, k);
      } else {
        CubePlayStuck(before, player, moves, k0);
      }
    }

    /** `check_cube` after the drop of round step k - 1: the round goes on from the checked cube. */
    method CheckDrop(ghost before: Volume, player: int, moves: Moves, k0: int, k: int)
      requires Valid() && winner.None? && IsCube(before) && MovesOnBoard(moves, 5) && 0 <= k0 < k <= |moves|
      requires Landing(before, moves[k - 1].0, moves[k - 1].1).Some?
      requires forall i :: k0 <= i < k - 1 ==> Landing(before, moves[i].0, moves[i].1).None?
      requires activeCube == PlaceInCube(before, Landing(before, moves[k - 1].0, moves[k - 1].1).value,
                                         moves[k - 1].0, moves[k - 1].1, Mark(player))
      modifies this`winner
      ensures Valid() && winner == CubeOutcome(None, activeCube)
      ensures CubePlayFrom(activeCube, winner, Other(player), moves, k) == CubePlayFrom(before, None, player, moves, k0)
    {
      FirstFreeAt(before, moves, k0, k - 1);
      // check if game is over -> end game
      CheckCube();
      CubePlayStep(before, player, moves, k0, k - 1, activeCube, winner, k);
    }

    /**
     * The opening of `run`: a decided previous round is reset and a fresh cube is built; in
     * scenario "q2" player 1's "O" drops into the centre column, landing on layer 4, and
     * player 2 moves next.
     */
    method StartRound() returns (currPlayer: int)
      requires Valid()
      modifies this
      ensures Valid() && winner == None
      ensures activeCube == CubeOpening(scenario)
      ensures currPlayer == CubeFirstPlayer(scenario)
    {
      // Clean last game/round
      if winner.Some? {
        Reset();
      }
      InitCube();
      currPlayer := 1;

      if scenario == "q2" {
        var placed := AddChoice(currPlayer, 2, 2);
        currPlayer := 2;
      }
      CubeOpeningIs(activeCube, scenario);
    }

    /**
     * `run`: one round. After the opening the players alternate, each retrying columns from
     * `moves` until a drop lands, with a cube check after every drop. The round ends as
     * `CubeRoundResult` says: with the field decided, or with None once `moves` runs out;
     * `used` is the number of columns drawn.
     */
    method Run(moves: Moves) returns (r: Option<int>, used: int)
      requires Valid() && MovesOnBoard(moves, 5)
      modifies this
      ensures Valid() && IsCube(activeCube)
      ensures CubeEnd(activeCube, winner, used) == CubeRoundResult(scenario, moves)
      ensures r == winner
      ensures 0 <= used <= |moves| && (r.None? ==> used == |moves|)
      ensures Stacked(activeCube)
      ensures r.Some? ==> r == CubeOutcome(None, activeCube)
      ensures r.Some? ==> r.value == 1 || r.value == 2 || r.value == 3
      ensures CubeCount(activeCube, O) == CubeCount(activeCube, X) ||
              CubeCount(activeCube, O) == CubeCount(activeCube, X) + 1
      ensures scenario == "q2" ==> activeCube[4][2][2] == O
    {
      var currPlayer := StartRound();
      CubeOpeningFacts(scenario);

      var k := 0;
      while winner.None? && k < |moves|
        invariant Valid()
        invariant IsCube(activeCube) && Stacked(activeCube)
        invariant 0 <= k <= |moves|
        invariant currPlayer == 1 || currPlayer == 2
        invariant CubePlayFrom(activeCube, winner, currPlayer, moves, k) == CubeRoundResult(scenario, moves)
        invariant currPlayer == 1 ==> CubeCount(activeCube, O) == CubeCount(activeCube, X)
        invariant currPlayer == 2 ==> CubeCount(activeCube, O) == CubeCount(activeCube, X) + 1
        invariant scenario == "q2" ==> activeCube[4][2][2] == O
        decreases |moves| - k
      {
        var slotFilled;
        slotFilled, k := PlayTurn(currPlayer, moves, k);
        if slotFilled {
          currPlayer := Other(currPlayer);
        }
      }
      CubePlayDone(activeCube, winner, currPlayer, moves, k);
      r := winner;
      used := k;
    }
  }
}
