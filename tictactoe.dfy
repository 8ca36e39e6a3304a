/**
 * The planar game object: its board and winner fields, the one-cell write, the reset, the
 * check that updates the winner field, and the round loop driven by a supplied list of
 * coordinates in place of the random draws.
 */
module TicTacToeGame {
  import opened Cells
  import opened Planar

  /** The centre coordinate table of scenario "2": {3: 1, 5: 2, 7: 3}; other sizes raise a key error. */
  function Middle(n: int): (m: Option<int>)
    ensures m.Some? <==> n == 3 || n == 5 || n == 7
    ensures m.Some? ==> m.value == n / 2
  {
    if n == 3 then Some(1) else if n == 5 then Some(2) else if n == 7 then Some(3) else None
  }

  /** The first index at or after `k` whose coordinate names an empty slot of `b`, if any. */
  function FirstEmpty(b: Grid, n: int, moves: Moves, k: int): (j: Option<int>)
    requires IsSquare(b, n) && MovesOnBoard(moves, n) && 0 <= k <= |moves|
    ensures j.Some? ==> k <= j.value < |moves| && b[moves[j.value].0][moves[j.value].1] == Empty
    ensures forall i :: k <= i < (if j.Some? then j.value else |moves|) ==> b[moves[i].0][moves[i].1] != Empty
    decreases |moves| - k
  {
    if k == |moves| then None
    else if b[moves[k].0][moves[k].1] == Empty then Some(k)
    else FirstEmpty(b, n, moves, k + 1)
  }

  /** Where a round ends: the board, the winner field, and how many coordinates were drawn. */
  datatype RoundEnd = RoundEnd(board: Grid, winner: Option<int>, used: int)

  /**
   * The rest of a round from board `b` with the winner field at `w`, `player` to move and
   * the coordinates from index `k` on still to be drawn: while the field is None, the player's
   * mark goes into the first empty slot named, `check_board` runs on the new board and the
   * other player moves next.
   */
  ghost function PlayFrom(b: Grid, n: int, w: Option<int>, player: int, moves: Moves, k: int): (e: RoundEnd)
    requires IsSquare(b, n) && MovesOnBoard(moves, n) && 0 <= k <= |moves|
    ensures IsSquare(e.board, n)
    ensures k <= e.used <= |moves|
    ensures e.winner.None? ==> e.used == |moves|
    ensures w.None? && e.winner.Some? ==> e.winner == BoardStep(None, e.board, n)
    decreases |moves| - k
  {
    if w.Some? then RoundEnd(b, w, k)
    else
      match FirstEmpty(b, n, moves, k)
      case None => RoundEnd(b, w, |moves|)
      case Some(j) =>
        var next := Place(b, n, moves[j].0, moves[j].1, Mark(player));
        PlayFrom(next, n, BoardStep(w, next, n), Other(player), moves, j + 1)
  }

  /** The board a round starts from: all 0, except player 1's "O" in the centre in scenario "2". */
  ghost function Opening(n: nat, scenario: string): (b: Grid)
    ensures IsSquare(b, n)
    ensures forall i, j :: 0 <= i < n && 0 <= j < n ==>
      b[i][j] == if scenario == "2" && i == n / 2 && j == n / 2 then O else Empty
  {
    seq(n, i => seq(n, j => if scenario == "2" && i == n / 2 && j == n / 2 then O else Empty))
  }

  /** The player who draws first after the opening: player 2 in scenario "2", otherwise player 1. */
  function FirstPlayer(scenario: string): (p: int)
    ensures p == 1 || p == 2
    ensures p == 2 <==> scenario == "2"
  {
    if scenario == "2" then 2 else 1
  }

  /** One whole round of scenario `scenario` on an n×n board, fed by `moves`. */
  ghost function RoundResult(n: nat, scenario: string, moves: Moves): RoundEnd
    requires MovesOnBoard(moves, n)
  {
    PlayFrom(Opening(n, scenario), n, None, FirstPlayer(scenario), moves, 0)
  }

  /** The first empty slot named is the one after a run of occupied ones. */
  lemma {:induction false} FirstEmptyAt(b: Grid, n: int, moves: Moves, k: int, j: int)
    requires IsSquare(b, n) && MovesOnBoard(moves, n) && 0 <= k <= j < |moves|
    requires b[moves[j].0][moves[j].1] == Empty
    requires forall i :: k <= i < j ==> b[moves[i].0][moves[i].1] != Empty
    ensures FirstEmpty(b, n, moves, k) == Some(j)
    decreases j - k
  {
    if k < j {
      FirstEmptyAt(b, n, moves, k + 1, j);
    }
  }

  /** When every slot named from index `k` on is occupied, there is no slot to write. */
  lemma {:induction false} FirstEmptyNone(b: Grid, n: int, moves: Moves, k: int)
    requires IsSquare(b, n) && MovesOnBoard(moves, n) && 0 <= k <= |moves|
    requires forall i :: k <= i < |moves| ==> b[moves[i].0][moves[i].1] != Empty
    ensures FirstEmpty(b, n, moves, k) == None
    decreases |moves| - k
  {
    if k < |moves| {
      FirstEmptyNone(b, n, moves, k + 1);
    }
  }

  /** A round whose winner field is set, or whose coordinates are used up, ends where it stands. */
  lemma PlayDone(b: Grid, n: int, w: Option<int>, player: int, moves: Moves, k: int)
    requires IsSquare(b, n) && MovesOnBoard(moves, n) && 0 <= k <= |moves|
    requires w.Some? || k == |moves|
    ensures PlayFrom(b, n, w, player, moves, k) == RoundEnd(b, w, k)
  {
  }

  /** One write into the first empty slot named, then `check_board`, advances the round. */
  lemma PlayStep(b: Grid, n: int, player: int, moves: Moves, k: int, j: int, next: Grid, w: Option<int>)
    requires IsSquare(b, n) && MovesOnBoard(moves, n) && 0 <= k <= j < |moves|
    requires FirstEmpty(b, n, moves, k) == Some(j)
    requires next == Place(b, n, moves[j].0, moves[j].1, Mark(player))
    requires w == BoardStep(None, next, n)
    ensures PlayFrom(b, n, None, player, moves, k) == PlayFrom(next, n, w, Other(player), moves, j + 1)
  {
  }

  /** When no slot named from index `k` on is empty, the round ends undecided with all of them drawn. */
  lemma PlayStuck(b: Grid, n: int, player: int, moves: Moves, k: int)
    requires IsSquare(b, n) && MovesOnBoard(moves, n) && 0 <= k <= |moves|
    requires FirstEmpty(b, n, moves, k) == None
    ensures PlayFrom(b, n, None, player, moves, k) == RoundEnd(b, None, |moves|)
  {
  }

  /** A board that holds exactly the opening's slots is the opening. */
  lemma OpeningIs(b: Grid, n: nat, scenario: string)
    requires IsSquare(b, n)
    requires forall i, j :: 0 <= i < n && 0 <= j < n ==>
      b[i][j] == if scenario == "2" && i == n / 2 && j == n / 2 then O else Empty
    ensures b == Opening(n, scenario)
  {
    assert forall i :: 0 <= i < n ==> b[i] == Opening(n, scenario)[i];
  }

  /** The opening holds one "O" in scenario "2" (on a board with a centre) and no mark otherwise. */
  lemma OpeningCounts(n: nat, scenario: string)
    requires scenario == "2" ==> n > 0
    ensures CountIn(Opening(n, scenario), O) == (if scenario == "2" then 1 else 0)
    ensures CountIn(Opening(n, scenario), X) == 0
  {
    CountNone(Opening(n, scenario), X);
    if scenario == "2" {
      var empty := Opening(n, "1");
      CountNone(empty, O);
      PlaceCounts(empty, n, n / 2, n / 2, O);
      OpeningIs(Place(empty, n, n / 2, n / 2, O), n, scenario);
    } else {
      CountNone(Opening(n, scenario), O);
    }
  }

  class TicTacToe {
    const boardSize: nat
    const scenario: string
    var activeBoard: Grid
    var winner: Option<int>

    ghost predicate Valid()
      reads this
    {
      (scenario == "1" || scenario == "2") &&
      IsOutcome(winner)
    }

    constructor (boardSize: nat, scenario: string)
      requires scenario == "1" || scenario == "2"
      ensures Valid()
      ensures this.boardSize == boardSize && this.scenario == scenario
      ensures activeBoard == [] && winner == None
    {
      this.boardSize := boardSize;
      this.scenario := scenario;
      activeBoard := [];
      winner := None;
    }

    /** `add_choice`: writes the player's mark into slot (x, y) only if it is empty. */
    method AddChoice(player: int, x: int, y: int) returns (successful: bool)
      requires IsSquare(activeBoard, boardSize) && 0 <= x < boardSize && 0 <= y < boardSize
      modifies this`activeBoard
      ensures successful <==> old(activeBoard)[x][y] == Empty
      ensures activeBoard == if successful then Place(old(activeBoard), boardSize, x, y, Mark(player))
                             else old(activeBoard)
    {
      var charToAdd := Mark(player);
      successful := false;
      if activeBoard[x][y] == Empty {
        activeBoard := Place(activeBoard, boardSize, x, y, charToAdd);
        successful := true;
      }
    }

    /** `reset`: forgets the last round's board and result. */
    method Reset()
      modifies this
      ensures activeBoard == [] && winner == None
    {
      activeBoard := [];
      winner := None;
    }

    /** `init_board`: installs a fresh board of 0s (scenarios "1" and "2" store it). */
    method InitBoard()
      requires Valid()
      modifies this`activeBoard
      ensures IsSquare(activeBoard, boardSize)
      ensures forall i, j :: 0 <= i < boardSize && 0 <= j < boardSize ==> activeBoard[i][j] == Empty
    {
      activeBoard := NewBoard(boardSize);
    }

    /** `determine_winner`: "O" makes player 1 the winner, "X" player 2; always answers true. */
    method DetermineWinner(val: Cell) returns (found: bool)
      modifies this`winner
      ensures found
      ensures val == O ==> winner == Some(1)
      ensures val == X ==> winner == Some(2)
      ensures val == Empty ==> winner == old(winner)
    {
      winner := DeterminedWinner(val, winner);
      found := true;
    }

    /** `check_board`, on the given board or, when none is given, on the active board. */
    method CheckBoard(board: Option<Grid>) returns (r: Option<int>)
      requires Valid()
      requires board.Some? ==> IsSquare(board.value, boardSize)
      requires board.None? ==> IsSquare(activeBoard, boardSize)
      modifies this`winner
      ensures Valid()
      ensures winner == BoardStep(old(winner), if board.Some? then board.value else activeBoard, boardSize)
      ensures r == winner
    {
      var unfinishedBoard := if board.Some? then board.value else activeBoard;
      winner := CheckBoardOn(unfinishedBoard, boardSize, winner);
      r := winner;
    }

    /**
     * The retry loop of `run`: coordinates are taken from `moves`, starting at index `k0`,
     * until one names an empty slot, which gets the player's mark. Every coordinate tried
     * before it named an occupied slot. The new index `k` is just past the last coordinate
     * used; when nothing was written, `moves` ran out.
     */
    method TakeTurn(player: int, moves: Moves, k0: int) returns (slotFilled: bool, k: int)
      requires IsSquare(activeBoard, boardSize) && MovesOnBoard(moves, boardSize) && 0 <= k0 <= |moves|
      modifies this`activeBoard
      ensures k0 <= k <= |moves|
      ensures forall j :: k0 <= j < k && (j < k - 1 || !slotFilled) ==>
        old(activeBoard)[moves[j].0][moves[j].1] != Empty
      ensures !slotFilled ==> k == |moves| && activeBoard == old(activeBoard)
      ensures slotFilled ==> k > k0 && old(activeBoard)[moves[k - 1].0][moves[k - 1].1] == Empty
      ensures slotFilled ==> activeBoard == Place(old(activeBoard), boardSize, moves[k - 1].0, moves[k - 1].1, Mark(player))
    {
      k := k0;
      slotFilled := false;
      while !slotFilled && k < |moves|
        invariant k0 <= k <= |moves|
        invariant forall j :: k0 <= j < k && (j < k - 1 || !slotFilled) ==>
          old(activeBoard)[moves[j].0][moves[j].1] != Empty
        invariant !slotFilled ==> activeBoard == old(activeBoard)
        invariant slotFilled ==> k > k0 && old(activeBoard)[moves[k - 1].0][moves[k - 1].1] == Empty
        invariant slotFilled ==> activeBoard == Place(old(activeBoard), boardSize, moves[k - 1].0, moves[k - 1].1, Mark(player))
        decreases |moves| - k
      {
        var (x, y) := moves[k];
        slotFilled := AddChoice(player, x, y);
        k := k + 1;
      }
    }

    /**
     * The opening of `run`: a decided previous round is reset and a fresh board is built; in
     * scenario "2" player 1's "O" goes into the centre and player 2 moves next.
     */
    method StartRound() returns (currPlayer: int)
      requires Valid()
      requires scenario == "2" ==> Middle(boardSize).Some?
      modifies this
      ensures Valid() && winner == None
      ensures activeBoard == Opening(boardSize, scenario)
      ensures currPlayer == FirstPlayer(scenario)
    {
      // Clean last game/round
      if winner.Some? {
        Reset();
      }
      InitBoard();
      currPlayer := 1;

      if scenario == "2" {
        var m := Middle(boardSize).value;
        var placed := AddChoice(currPlayer, m, m);
        currPlayer := 2;
      }
      OpeningIs(activeBoard, boardSize, scenario);
    }

    /**
     * One pass of the outer loop of `run`: the player's retry loop, then `check_board` on the
     * active board. When a write succeeded, the rest of the round from the new state is the
     * rest of the round from the old one; otherwise `moves` ran out and nothing changed.
     */
    method PlayTurn(player: int, moves: Moves, k0: int) returns (slotFilled: bool, k: int)
      requires Valid() && winner.None? && IsSquare(activeBoard, boardSize)
      requires MovesOnBoard(moves, boardSize) && 0 <= k0 <= |moves| && (player == 1 || player == 2)
      modifies this`activeBoard, this`winner
      ensures Valid() && IsSquare(activeBoard, boardSize) && k0 <= k <= |moves|
      ensures slotFilled ==> k > k0
      ensures slotFilled ==> PlayFrom(activeBoard, boardSize, winner, Other(player), moves, k) ==
                             PlayFrom(old(activeBoard), boardSize, None, player, moves, k0)
      ensures slotFilled ==> activeBoard == Place(old(activeBoard), boardSize, moves[k - 1].0, moves[k - 1].1, Mark(player))
      ensures slotFilled ==> CountIn(activeBoard, Mark(player)) == CountIn(old(activeBoard), Mark(player)) + 1 &&
                             CountIn(activeBoard, Mark(Other(player))) == CountIn(old(activeBoard), Mark(Other(player)))
      ensures forall i, j :: 0 <= i < boardSize && 0 <= j < boardSize && old(activeBoard)[i][j] != Empty ==>
        activeBoard[i][j] == old(activeBoard)[i][j]
      ensures !slotFilled ==> k == |moves| && activeBoard == old(activeBoard) && winner == None
      ensures !slotFilled ==> PlayFrom(old(activeBoard), boardSize, None, player, moves, k0) ==
                              RoundEnd(old(activeBoard), None, |moves|)
    {
      ghost var before := activeBoard;
      slotFilled, k := TakeTurn(player, moves, k0);
      if slotFilled {
        FirstEmptyAt(before, boardSize, moves, k0, k - 1);
        PlaceCounts(before, boardSize, moves[k - 1].0, moves[k - 1].1, Mark(player));
        // check if game is over -> end round
        var _ := CheckBoard(None);
        PlayStep(before, boardSize, player, moves, k0, k - 1, activeBoard, winner);
      } else {
        FirstEmptyNone(before, boardSize, moves, k0);
        PlayStuck(before, boardSize, player, moves, k0);
      }
    }

    /**
     * `run`: one round. After the opening the players alternate, each retrying coordinates
     * from `moves` until a write succeeds, with a check after every write. The round ends
     * as `RoundResult` says: with the field decided, or with None once `moves` runs out;
     * `used` is the number of coordinates drawn.
     */
    method Run(moves: Moves) returns (r: Option<int>, used: int)
      requires Valid()
      requires scenario == "2" ==> Middle(boardSize).Some?
      requires MovesOnBoard(moves, boardSize)
      modifies this
      ensures Valid() && IsSquare(activeBoard, boardSize)
      ensures RoundEnd(activeBoard, winner, used) == RoundResult(boardSize, scenario, moves)
      ensures r == winner
      ensures 0 <= used <= |moves| && (r.None? ==> used == |moves|)
      ensures r.Some? ==> r == BoardStep(None, activeBoard, boardSize)
      ensures r.Some? ==> r.value == 1 || r.value == 2 || r.value == 3
      ensures CountIn(activeBoard, O) == CountIn(activeBoard, X) ||
              CountIn(activeBoard, O) == CountIn(activeBoard, X) + 1
      ensures scenario == "2" ==> activeBoard[boardSize / 2][boardSize / 2] == O
    {
      var currPlayer := StartRound();
      OpeningCounts(boardSize, scenario);

      var k := 0;
      while winner.None? && k < |moves|
        invariant Valid()
        invariant IsSquare(activeBoard, boardSize)
        invariant 0 <= k <= |moves|
        invariant currPlayer == 1 || currPlayer == 2
        invariant PlayFrom(activeBoard, boardSize, winner, currPlayer, moves, k) == RoundResult(boardSize, scenario, moves)
        invariant currPlayer == 1 ==> CountIn(activeBoard, O) == CountIn(activeBoard, X)
        invariant currPlayer == 2 ==> CountIn(activeBoard, O) == CountIn(activeBoard, X) + 1
        invariant scenario == "2" ==> activeBoard[boardSize / 2][boardSize / 2] == O
        decreases |moves| - k
      {
        var slotFilled;
        slotFilled, k := PlayTurn(currPlayer, moves, k);
        if slotFilled {
          currPlayer := Other(currPlayer);
        }
      }
      PlayDone(activeBoard, boardSize, winner, currPlayer, moves, k);
      r := winner;
      used := k;
    }
  }

  /** The constructor's guard: a scenario other than "1" or "2" raises instead of building a game. */
  method NewTicTacToe(boardSize: nat, scenario: string) returns (g: Option<TicTacToe>)
    ensures g.None? <==> scenario != "1" && scenario != "2"
    ensures g.Some? ==>
      (fresh(g.value) && g.value.Valid() && g.value.winner == None &&
       g.value.activeBoard == [] && g.value.boardSize == boardSize && g.value.scenario == scenario)
  {
    if scenario == "1" || scenario == "2" {
      var t := new TicTacToe(boardSize, scenario);
      g := Some(t);
    } else {
      g := None;
    }
  }
}
