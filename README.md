# Tic-tac-toe and Qubic simulator, modelled in Dafny

The program simulates many games between two players who pick slots at random. Two games
are supported:

- the planar game: an n×n board (n = 3, 5 or 7), scenario "1" or "2";
- the three-dimensional game "Qubic": a 5×5×5 cube with gravity, scenario "q1" or "q2".

In scenario "2" or "q2", player 1 opens in the centre. A driver plays the configured number
of rounds on a single game object. It counts player 1 wins, player 2 wins and draws.

This project models the game engine and the tally. It also proves what the engine decides,
as the code is written. Some of that behaviour is surprising:

- the planar check never stops early, so the last line found in row-major order decides;
- `validate_coord` treats a third coordinate of 0 as invalid, so some space diagonals are
  never seen;
- the cube check looks at only two of the three slice orientations;
- inside one cube check, a single full slice already makes the round a draw while the
  winner field is still undecided;
- a cube game object starts with its winner field at 1.

Modules:

- `Cells`: the three-valued slot, and the mark and outcome code of a player.
- `Planar`: the board, `validate_coord`, the one-slot write, the row-major line scan and the
  draw rule of `check_board`, and the mark counts. It holds the specification functions and
  the loop methods the two game classes share.
- `PlanarFacts`: lemmas on the planar check:
  - "last line start wins";
  - a line beats the draw rule;
  - a draw needs a full board without a line;
  - mirror symmetry;
  - two concrete boards.
- `TicTacToeGame`: class `TicTacToe`, covering its fields, `add_choice`, `reset`,
  `init_board`, `determine_winner`, `check_board` and `run`.
- `Cube`: the volume, gravity (the landing layer), stacking, the slices, the ten boards
  `check_cube` checks and the fold of the planar check over them, and the first space
  diagonal.
- `CubeFacts`: lemmas on the cube check, and three concrete cubes that show the quirks.
- `QubicGame`: class `Qubic`, covering `add_choice` with gravity, `init_cube`,
  `rotate_cube`, `check_cube`, `check_cube_diagonal` and `run`.
- `GameDriver`: class `Game`, covering the counters, `save_round` and `play_scenario`.

How the source's Python maps to the model:

- The random draws become a supplied list of coordinates per round. A round is specified as
  a function of that list (`TicTacToeGame.RoundResult`, `QubicGame.CubeRoundResult`): each
  player in turn takes the first coordinate from the rest of the list that names a free slot
  (a free column in the cube), and the check runs after each placement. `run` computes exactly
  that round. It returns None only if the list runs out before the round is decided, and then
  every coordinate has been drawn.
- Python's inheritance of `Qubic` from `TicTacToe` becomes composition. The inherited
  `check_board` is the module-level `Planar.CheckBoardOn`, and `validate_coord` is one
  function for both games.
- The integer 0 of an empty slot becomes the constructor `Empty`.

## Model

| member | source | states |
|---|---|---|
| Cells.Mark | ttt_class.py:71 | player 1 writes "O", every other player "X"; never the empty value |
| Cells.Code | ttt_class.py:88-89 | the outcome code of a line owner: 1 exactly for "O", otherwise 2 |
| Cells.Other | ttt_class.py:43 | the next player: 2 after 1, 1 after anyone else |
| Planar.ValidCoord | ttt_class.py:94-102 | true iff 0 ≤ x ≤ n-1 and 0 ≤ y ≤ n-1 and, when z is given, 1 ≤ z ≤ 4 (z = 0 is refused) |
| Planar.Place | ttt_class.py:75-76 | the written slot holds the mark, every other slot is unchanged, and the board stays n×n |
| Planar.DeterminedWinner | ttt_class.py:86-92 | "O" sets the winner to 1 and "X" to 2; the empty value leaves it alone |
| Planar.LastLineBefore | ttt_class.py:110-128 | the code reported by the scan of the slots before (x, y) is always 1 or 2 |
| Planar.BoardStep | ttt_class.py:104-139 | `check_board` only ever yields None, 1, 2 or 3 when it starts from one of them |
| Planar.PlaceCounts | ttt_class.py:75-76 | writing a mark into an empty slot adds one to that mark's count and leaves the other mark's |
| Planar.CountNone | ttt_class.py:60-67 | a board without a mark counts zero of it |
| Planar.NewBoard | ttt_class.py:60-64 | `init_board` builds an n×n board of empty slots |
| Planar.ScanLines | ttt_class.py:109-129 | the four-direction nested scan yields the code of the last line start in row-major order, or the old winner if there is none |
| Planar.SlotsLeft | ttt_class.py:132-135 | true iff some row still holds an empty slot |
| Planar.CheckBoardOn | ttt_class.py:104-139 | `check_board` updates the winner field as the scan and then the draw rule say |
| PlanarFacts.LastLineBeforeSound | ttt_class.py:110-128 | the partial scan reports None only when no earlier slot starts a line; otherwise it reports the code of the last earlier start |
| PlanarFacts.LastLineBeforeOfLastStart | ttt_class.py:110-128 | the partial scan reports the code of the last line start before (x, y) |
| PlanarFacts.LastLineNoneIff | ttt_class.py:110-128 | the scan finds nothing exactly when no occupied slot starts a line |
| PlanarFacts.LastLineOfLastStart | ttt_class.py:110-128 | last match wins: the scan reports the code of the last line start in row-major order |
| PlanarFacts.LastLineHasLastStart | ttt_class.py:110-128 | whatever the scan reports is the code of some line start with no start after it |
| PlanarFacts.DrawIff | ttt_class.py:132-137 | from an undecided winner, the result is a draw exactly on a full board without a line |
| PlanarFacts.LineIsWin | ttt_class.py:110-137 | a board with a line gives 1 or 2 whatever the winner field held, even when full |
| PlanarFacts.NoLineKeeps | ttt_class.py:132-137 | without a line the winner field is kept, except that None on a full board becomes 3 |
| PlanarFacts.SingleMarkNoLine | ttt_class.py:110-128 | a board with at most one occupied slot has no line |
| PlanarFacts.EmptyBoardUndecided | ttt_class.py:104-139 | checking a fresh board leaves the round undecided |
| PlanarFacts.Mirror | ttt_class.py:110-128 | defines the mirrored board, which reads each row right to left |
| PlanarFacts.MirrorLine | ttt_class.py:110-128 | a line start on a board gives a line on its mirror image |
| PlanarFacts.MirrorSymmetric | ttt_class.py:110-128 | a board has a line iff its mirror image has one (the four directions cover both diagonals) |
| PlanarFacts.TopRowWins | ttt_class.py:114-116 | three "O"s on the top row of a 3×3 board give 1 |
| PlanarFacts.FullBoardDraws | ttt_class.py:132-137 | a full 3×3 board without three in a row gives 3 |
| TicTacToeGame.Middle | ttt_class.py:28-29 | the centre table {3: 1, 5: 2, 7: 3} is defined exactly for 3, 5 and 7, where it gives n // 2 |
| TicTacToeGame.TicTacToe.constructor | ttt_class.py:7-14 | a game with the given size and scenario, an empty board field and no winner |
| TicTacToeGame.TicTacToe.AddChoice | ttt_class.py:69-79 | true iff the slot was empty; then the board is the old one with the mark written there, otherwise unchanged |
| TicTacToeGame.TicTacToe.Reset | ttt_class.py:81-84 | the board field is empty and the winner None |
| TicTacToeGame.TicTacToe.InitBoard | ttt_class.py:60-67 | scenarios "1" and "2" store a fresh n×n board of empty slots |
| TicTacToeGame.TicTacToe.DetermineWinner | ttt_class.py:86-92 | answers true; "O" sets 1, "X" sets 2, the empty value changes nothing |
| TicTacToeGame.TicTacToe.CheckBoard | ttt_class.py:104-139 | the winner field becomes the `check_board` outcome on the given board, or on the active board when none is given |
| TicTacToeGame.TicTacToe.TakeTurn | ttt_class.py:35-37 | coordinates are tried in order until one names an empty slot; all earlier ones named occupied slots; only that slot changes |
| TicTacToeGame.FirstEmpty | ttt_class.py:35-37 | the coordinate found from index k on names an empty slot, and every coordinate before it names an occupied one; None exactly when all of them do |
| TicTacToeGame.FirstEmptyAt | ttt_class.py:35-37 | after a run of coordinates naming occupied slots, the first one naming an empty slot is the one found |
| TicTacToeGame.FirstEmptyNone | ttt_class.py:35-37 | when every coordinate left names an occupied slot, none is found |
| TicTacToeGame.PlayFrom | ttt_class.py:32-43 | the rest of a round stays n×n and draws between k and all of the coordinates; it ends undecided only with all of them drawn, and a round that started undecided ends with the `check_board` outcome on its final board |
| TicTacToeGame.Opening | ttt_class.py:23-30 | the board a round starts from: n×n, all empty except player 1's "O" in the centre in scenario "2" |
| TicTacToeGame.FirstPlayer | ttt_class.py:24-30 | the player who draws first is 1 or 2, and 2 exactly in scenario "2" |
| TicTacToeGame.PlayDone | ttt_class.py:32 | a round whose winner field is set, or whose coordinates are used up, ends where it stands |
| TicTacToeGame.PlayStep | ttt_class.py:34-43 | one write into the first empty slot named, then `check_board`, advances the round to the other player |
| TicTacToeGame.PlayStuck | ttt_class.py:35-37 | when no coordinate left names an empty slot, the round ends undecided with all of them drawn |
| TicTacToeGame.OpeningIs | ttt_class.py:23-30 | a board holding exactly the opening's slots is the opening |
| TicTacToeGame.OpeningCounts | ttt_class.py:23-30 | the opening holds one "O" in scenario "2" and no mark otherwise, and never an "X" |
| TicTacToeGame.TicTacToe.StartRound | ttt_class.py:19-30 | the opening of `run`: the board is the opening of the scenario, the winner None, and player 2 moves next exactly in scenario "2" |
| TicTacToeGame.TicTacToe.PlayTurn | ttt_class.py:33-43 | one pass of the outer loop: a filled slot and one `check_board` advance the round specification by one step and add one mark of the player; otherwise every coordinate was drawn and the round ends undecided |
| TicTacToeGame.TicTacToe.Run | ttt_class.py:16-46 | see below |
| TicTacToeGame.NewTicTacToe | ttt_class.py:9-10 | a game object exists exactly for scenarios "1" and "2"; other scenarios raise |
| Cube.PlaceInCube | ttt_class.py:185-186 | the landing slot holds the mark and every other slot of the cube is unchanged |
| Cube.FreeLayerFrom | ttt_class.py:184-188 | see below |
| Cube.LandingOnStacked | ttt_class.py:184-188 | on a stacked cube, every slot below the landing layer is empty |
| Cube.DropKeepsStacked | ttt_class.py:179-190 | a drop keeps every column a contiguous block from layer 4 downward |
| Cube.Slice | ttt_class.py:208-217 | defines slice i: it holds cube[x][i][y] at [x][y] |
| Cube.Checked | ttt_class.py:203-205 | the k-th board checked by `check_cube` is 5×5 |
| Cube.Verdicts | ttt_class.py:203-205 | defines the ten verdicts: in order, the scan result and fullness of layer 0, slice 0, layer 1, … slice 4 |
| Cube.CheckedPair | ttt_class.py:203-205 | defines the order of the checked boards: round i of `check_cube` checks layer i and then slice i |
| Cube.FoldSnoc | ttt_class.py:203-205 | one more planar check extends the fold over the verdicts by one step |
| Cube.FoldChecked | ttt_class.py:203-205 | the k-th planar check is one `check_board` step on the k-th board |
| Cube.FirstDiagonalFrom | ttt_class.py:224-249 | the code reported by the diagonal search is 1 or 2, never 3 |
| Cube.PlaceInCubeCounts | ttt_class.py:185-186 | a drop adds one to the dropped mark's count and leaves the other mark's |
| Cube.CubeCountNone | ttt_class.py:192-199 | a cube without a mark counts zero of it |
| CubeFacts.FoldNoLine | ttt_class.py:132-137 | see below |
| CubeFacts.FoldLastLine | ttt_class.py:203-205 | the last check that reports a line decides, overwriting earlier results including a draw |
| CubeFacts.FoldLineWins | ttt_class.py:203-205 | once some check reports a line, the result is 1 or 2 |
| CubeFacts.VerdictsWinCodes | ttt_class.py:110-128 | every line the ten checks report is the code 1 or 2 |
| CubeFacts.VerdictLines | ttt_class.py:110-128 | the verdict on a checked board reports a line exactly when the board has one |
| CubeFacts.FirstDiagonalFromSound | ttt_class.py:224-245 | the partial search reports None only when no later slot starts a diagonal; otherwise it reports the code of the first one |
| CubeFacts.FirstDiagonalFromOfFirst | ttt_class.py:224-245 | the partial search reports the code of the first diagonal start at or after (x, y, z) |
| CubeFacts.FirstDiagonalNoneIff | ttt_class.py:219-249 | the diagonal search finds nothing exactly when no slot starts a space diagonal |
| CubeFacts.FirstDiagonalOfFirstStart | ttt_class.py:224-249 | the diagonal search reports the code of the first start in x, y, z loop order |
| CubeFacts.CubeDrawIff | ttt_class.py:201-206 | see below |
| CubeFacts.LastSliceDecides | ttt_class.py:201-206 | without a space diagonal, the last checked slice with a line decides |
| CubeFacts.DiagonalDecides | ttt_class.py:201-206 | a space diagonal overrides whatever the slices gave, and the result is 1 or 2 |
| CubeFacts.SpreadChecked | ttt_class.py:203-217 | when no two occupied slots share a layer or a second index, each checked board holds at most one mark |
| CubeFacts.SpreadBoard | ttt_class.py:104-139 | on such a cube, no checked board has a line or is full |
| CubeFacts.SpreadVerdicts | ttt_class.py:203-205 | on such a cube, all ten verdicts report no line and not full |
| CubeFacts.SpreadUndecided | ttt_class.py:201-206 | such a cube without a space diagonal leaves an undecided round undecided |
| CubeFacts.ZeroIndexNoDiagonal | ttt_class.py:99 | the marks cube[2][2][2], cube[3][1][1], cube[4][0][0] form no accepted space diagonal |
| CubeFacts.ZeroIndexSpread | ttt_class.py:203-205 | no two of these marks share a layer or a second index |
| CubeFacts.ZeroIndexDiagonalMissed | ttt_class.py:99 | three "O"s on the diagonal ending at third index 0 are never detected |
| CubeFacts.ThirdIndexSlice | ttt_class.py:203-205 | defines the slice with the third index fixed, which `check_cube` never checks |
| CubeFacts.UncheckedSliceMissed | ttt_class.py:203-205 | three "O"s forming a line in a slice with the third index fixed are never detected |
| CubeFacts.SpaceDiagonalWins | ttt_class.py:229-231 | three "O"s from cube[0][0][1] to cube[2][2][3] give 1 |
| CubeFacts.FullTopNoLine | ttt_class.py:110-128 | none of the ten checked boards of the full-layer-4 cube has a line |
| CubeFacts.FullTopDraws | ttt_class.py:132-137 | a full layer 4 without a line already makes the round a draw, with 100 slots still free |
| QubicGame.Qubic.constructor | ttt_class.py:145-150 | a cube game with side 5, an empty cube field and the winner field at 1 |
| QubicGame.Qubic.Reset | ttt_class.py:81-84 | the inherited reset clears the board field and sets the winner to None; the cube is untouched |
| QubicGame.Qubic.InitCube | ttt_class.py:192-199 | the cube is five fresh 5×5 layers of empty slots |
| QubicGame.Qubic.AddChoice | ttt_class.py:179-190 | true iff the column has an empty slot; then the mark lands in the highest empty layer and nothing else changes |
| QubicGame.Qubic.RotateCube | ttt_class.py:208-217 | rotated[i][x][y] == cube[x][i][y] for all i, x, y, and the cube is not changed |
| QubicGame.Qubic.DiagonalStart | ttt_class.py:227-243 | the four guarded tests succeed iff the slot is occupied and starts an accepted space diagonal |
| QubicGame.Qubic.CheckCubeDiagonal | ttt_class.py:219-249 | the winner becomes the code of the first diagonal start in loop order; untouched if there is none |
| QubicGame.Qubic.CheckCube | ttt_class.py:201-206 | the winner field becomes the cube outcome: the first space diagonal if any, otherwise the fold of the ten planar checks |
| QubicGame.FirstFree | ttt_class.py:168-171 | the column found from index k on is not full, and every column before it is; None exactly when all of them are full |
| QubicGame.FirstFreeAt | ttt_class.py:168-171 | after a run of full columns, the first column that is not full is the one found |
| QubicGame.FirstFreeNone | ttt_class.py:168-171 | when every column left is full, none is found |
| QubicGame.CubePlayFrom | ttt_class.py:167-175 | the rest of a cube round stays a 5×5×5 cube and draws between k and all of the columns; it ends undecided only with all of them drawn, and a round that started undecided ends with the cube outcome on its final cube |
| QubicGame.CubeChecked | ttt_class.py:174-175 | the rest of a round right after a drop, with `check_cube` run on the new cube: the same bounds, and a decided end is the cube outcome on the final cube |
| QubicGame.CubeOpening | ttt_class.py:159-165 | the cube a round starts from: all empty except player 1's "O" at cube[4][2][2] in scenario "q2" |
| QubicGame.CubeFirstPlayer | ttt_class.py:160-165 | the player who draws first is 1 or 2, and 2 exactly in scenario "q2" |
| QubicGame.CubePlayDone | ttt_class.py:167 | a round whose winner field is set, or whose columns are used up, ends where it stands |
| QubicGame.CubePlayStep | ttt_class.py:168-175 | one drop into the first column that is not full, then `check_cube`, advances the round to the other player |
| QubicGame.CubePlayStuck | ttt_class.py:168-171 | when every column left is full, the round ends undecided with all of them drawn |
| QubicGame.DropFacts | ttt_class.py:179-190 | a drop keeps the columns stacked and the marks already placed, adds one to the dropped mark's count and leaves the other's |
| QubicGame.CubeOpeningIs | ttt_class.py:159-165 | a cube holding exactly the opening's slots is the opening |
| QubicGame.CubeOpeningFacts | ttt_class.py:159-165 | the opening is stacked and holds one "O" in scenario "q2", no mark otherwise, and never an "X" |
| QubicGame.Qubic.CheckDrop | ttt_class.py:173-174 | `check_cube` after a drop sets the winner field to the cube outcome, and the round goes on from the checked cube |
| QubicGame.Qubic.PlayTurn | ttt_class.py:168-175 | one pass of the outer loop: a drop and one `check_cube` advance the round specification by one step, keep the cube stacked and the placed marks, and add one mark of the player; otherwise every column was drawn and the round ends undecided |
| QubicGame.Qubic.StartRound | ttt_class.py:155-165 | see below |
| QubicGame.Qubic.TakeTurn | ttt_class.py:168-170 | columns are tried in order until a drop lands; all earlier columns were full; only the landing slot changes |
| QubicGame.Qubic.Run | ttt_class.py:152-177 | see below |
| GameDriver.Tally | game_class.py:68-77 | the tally of a value never exceeds the number of results |
| GameDriver.TallySnoc | game_class.py:68-77 | one more result adds one to its own tally and nothing to any other |
| GameDriver.TallyTotal | game_class.py:51-53 | when every result is 1, 2 or 3, the three tallies add up to the number of results |
| GameDriver.Game.constructor | game_class.py:6-13 | the counters start at 0; the settings are ones the start-up prompts accept |
| GameDriver.Game.SaveRound | game_class.py:68-77 | 1, 2 and 3 each add one to exactly their own counter; any other value changes nothing |
| GameDriver.Game.FlatRound | game_class.py:52-53 | one planar round: the result is the round specification's winner, and a decided result adds one to exactly its own counter |
| GameDriver.Game.CubeRound | game_class.py:52-53 | one cube round: the result is the round specification's winner, and a decided result adds one to exactly its own counter |
| GameDriver.Game.PlayFlat | game_class.py:50-53 | one planar game object plays the rounds; result i is the winner of round specification i, 1, 2 or 3, and is counted by its own counter; fewer results only when the next round ran out of coordinates undecided |
| GameDriver.Game.PlayCube | game_class.py:50-53 | one cube game object plays the rounds; result i is the winner of round specification i, 1, 2 or 3, and is counted by its own counter; fewer results only when the next round ran out of columns undecided |
| GameDriver.Game.PlayScenario | game_class.py:48-55 | see below |

Rows marked "see below":

- `TicTacToeGame.TicTacToe.Run`:
  - the final board, winner field and number of coordinates drawn are exactly
    `RoundResult(board_size, scenario, moves)`, the round the list specifies;
  - the result is the winner field; None only with every coordinate drawn;
  - a decided result is the `check_board` outcome on the final board: 1, 2 or 3;
  - the counts of "O" and "X" are equal or differ by one, so the players alternate;
  - scenario "2" keeps player 1's "O" in the centre.
- `Cube.FreeLayerFrom`: the landing layer is the highest empty layer at or below z, and every
  layer above it is occupied. There is none exactly when the whole column is occupied.
- `CubeFacts.FoldNoLine`: without any line, the ten checks keep a decided winner. An
  undecided winner becomes 3 as soon as one checked board is full, and stays None otherwise.
- `CubeFacts.CubeDrawIff`: from an undecided winner, the cube check gives 3 exactly when all
  three hold:
  - no slot starts a space diagonal;
  - none of the ten checked boards has a line;
  - at least one of them is full.
- `QubicGame.Qubic.StartRound`: after the opening, the cube is `CubeOpening(scenario)`:
  empty except, in scenario "q2", player 1's "O" at cube[4][2][2]. The winner is None, and
  player 2 moves next exactly in "q2".
- `QubicGame.Qubic.Run`:
  - the final cube, winner field and number of columns drawn are exactly
    `CubeRoundResult(scenario, moves)`, the round the list specifies;
  - the result is the winner field; None only with every column drawn;
  - a decided result is the cube outcome on the final cube: 1, 2 or 3;
  - every column stays a contiguous block from layer 4 down;
  - the counts of "O" and "X" are equal or differ by one;
  - scenario "q2" keeps cube[4][2][2] as "O".
- `GameDriver.Game.PlayScenario`:
  - it plays at most `n_games` rounds, each with result 1, 2 or 3;
  - result i is the winner of round i as the scenario's round specification gives it
    (`ScenarioRound`: the planar round for "1" and "2", the cube round otherwise);
  - when fewer than `n_games` results come back, the next round's specification ends
    undecided with all of its coordinates drawn;
  - each counter grows by the tally of its own code;
  - the three counters together grow by exactly the number of rounds played.

## Left out

- `randomize_slot` (ttt_class.py:48-58): sleeping, seeding from the clock and `randint` are
  replaced by a supplied list of coordinates for each round. Each coordinate is on the board.
- TicTacToeGame.TicTacToe.Run: the source retries random draws until a round is decided.
  The model stops and returns None when the supplied list runs out, so termination of the
  random retry loop is not claimed.
- QubicGame.Qubic.Run: the same as for TicTacToeGame.TicTacToe.Run.
- GameDriver.Game.PlayScenario: stops early when a round returns None, which the source
  cannot do; the contract says which round ran out and that it had drawn its whole list.
- `Game.init_game` (game_class.py:15-41): console input and its retry loops are left out.
  The values it accepts become the preconditions of `GameDriver.Game.constructor`:
  - a scenario in {"1", "2", "q1", "q2"};
  - a board size in {3, 5, 7} for the planar scenarios;
  - a positive number of games.
- `Game.init_game`: the fields `scenario = None` and `board_size = []` before it runs are not
  modelled. For cube scenarios the board size is never prompted for, and the model ignores
  it.
- `Game.plot_result` (game_class.py:57-66): console output and the bar chart file are left
  out, and so is the call to it at the end of `play_scenario`.
- `rng_sleep` is passed around but only used by `randomize_slot`, so it is not modelled.
- QubicGame.Qubic.RotateCube: the source appends 25 lists. Only the first 5 are filled, each
  holding the slice's 5 rows five times over, and those rows are shared with the cube. The
  model returns the five slices only. This is enough because `check_cube` reads rows 0-4 of
  `rotate_cube()[i]`, and repeated rows do not change the draw test.
- `init_board` returning its board for non-planar scenarios (ttt_class.py:66-67) is modelled
  as `Planar.NewBoard`, which `InitCube` calls.
- QubicGame.Qubic.Valid: a `Qubic` object built with scenario "1" or "2" is excluded. In the
  source, the inherited `init_board` stores its board and returns None for those scenarios
  (ttt_class.py:66), so `init_cube` builds a cube of five None layers (ttt_class.py:195-199).
  The first `add_choice` then fails when it reads `self.active_cube[z][x][y]`
  (ttt_class.py:185).
- Python's mixed integer/string slot values are a three-valued datatype.
- Nothing is concurrent, and there is no floating point.
- Three marks at cube[4][0][0], cube[3][1][1] and cube[2][2][2] are not detected as a space
  diagonal, because the diagonal's far end has third index 0, which `validate_coord` refuses
  (`CubeFacts.ZeroIndexDiagonalMissed`).
- CubeFacts.ZeroIndexCube, CubeFacts.UncheckedSliceCube: the two cubes that show missed
  lines hold only the three marks, not the marks under them that gravity would need. The
  lemmas are about what `check_cube` decides on a given cube. They do not claim that play
  reaches that cube.
