/**
 * The driver: the settings the start-up prompts accept, the win and draw counters, the
 * tally of one round's result, and the loop that plays the configured number of rounds on
 * a single game object, each round fed by its own list of coordinates.
 */
module GameDriver {
  import opened Cells
  import opened Planar
  import TicTacToeGame
  import QubicGame

  /** The scenarios the prompt accepts. */
  predicate KnownScenario(s: string) {
    s == "1" || s == "2" || s == "q1" || s == "q2"
  }

  /** The scenarios played on a flat board. */
  predicate FlatScenario(s: string) {
    s == "1" || s == "2"
  }

  /** How many of the round results equal `v`. */
  function Tally(results: seq<int>, v: int): (t: nat)
    ensures t <= |results|
    decreases |results|
  {
    if results == [] then 0
    else Tally(results[..|results| - 1], v) + (if results[|results| - 1] == v then 1 else 0)
  }

  /** One more result adds one to its own tally and nothing to any other. */
  lemma TallySnoc(results: seq<int>, r: int, v: int)
    ensures Tally(results + [r], v) == Tally(results, v) + (if r == v then 1 else 0)
  {
    assert (results + [r])[..|results|] == results;
  }

  /** When every result is 1, 2 or 3, the three tallies add up to the number of rounds. */
  lemma {:induction false} TallyTotal(results: seq<int>)
    requires forall i :: 0 <= i < |results| ==> results[i] == 1 || results[i] == 2 || results[i] == 3
    ensures Tally(results, 1) + Tally(results, 2) + Tally(results, 3) == |results|
    decreases |results|
  {
    if results != [] {
      TallyTotal(results[..|results| - 1]);
    }
  }

  class Game {
    const scenario: string
    const boardSize: int
    const nGames: int
    var p1Wins: nat
    var p2Wins: nat
    var draws: nat

    /**
     * `__init__` followed by `init_game`: the counters start at 0 and the settings are ones
     * the prompts accept. A cube scenario has no board-size prompt; `boardSize` is then unused.
     */
    constructor (scenario: string, boardSize: int, nGames: int)
      requires KnownScenario(scenario)
      requires FlatScenario(scenario) ==> boardSize == 3 || boardSize == 5 || boardSize == 7
      requires nGames > 0
      ensures this.scenario == scenario && this.boardSize == boardSize && this.nGames == nGames
      ensures p1Wins == 0 && p2Wins == 0 && draws == 0
    {
      this.scenario := scenario;
      this.boardSize := boardSize;
      this.nGames := nGames;
      p1Wins := 0;
      p2Wins := 0;
      draws := 0;
    }

    /** `save_round`: 1 counts a win for player 1, 2 a win for player 2, 3 a draw; anything else nothing. */
    method SaveRound(result: int)
      modifies this`p1Wins, this`p2Wins, this`draws
      ensures p1Wins == old(p1Wins) + (if result == 1 then 1 else 0)
      ensures p2Wins == old(p2Wins) + (if result == 2 then 1 else 0)
      ensures draws == old(draws) + (if result == 3 then 1 else 0)
    {
      if result == 1 {
        p1Wins := p1Wins + 1;
      } else if result == 2 {
        p2Wins := p2Wins + 1;
      } else if result == 3 {
        draws := draws + 1;
      }
    }

    /**
     * One pass of the round loop of `play_scenario` on a flat game: `run` plays the round and a
     * decided result goes to `save_round`. The result is the one the round specification gives.
     */
    method FlatRound(game: TicTacToeGame.TicTacToe, moves: Moves) returns (result: Option<int>)
      requires game.Valid() && game.boardSize == boardSize && game.scenario == scenario
      requires (boardSize == 3 || boardSize == 5 || boardSize == 7) && MovesOnBoard(moves, boardSize)
      modifies game, this`p1Wins, this`p2Wins, this`draws
      ensures game.Valid()
      ensures result == TicTacToeGame.RoundResult(boardSize, scenario, moves).winner
      ensures result.None? ==> TicTacToeGame.RoundResult(boardSize, scenario, moves).used == |moves|
      ensures IsOutcome(result)
      ensures p1Wins == old(p1Wins) + (if result == Some(1) then 1 else 0)
      ensures p2Wins == old(p2Wins) + (if result == Some(2) then 1 else 0)
      ensures draws == old(draws) + (if result == Some(3) then 1 else 0)
    {
      var used;
      result, used := game.Run(moves);
      if result.Some? {
        SaveRound(result.value);
      }
    }

    /**
     * One pass of the round loop of `play_scenario` on the cube game: `run` plays the round and
     * a decided result goes to `save_round`. The result is the one the round specification gives.
     */
    method CubeRound(game: QubicGame.Qubic, moves: Moves) returns (result: Option<int>)
      requires game.Valid() && game.scenario == scenario && MovesOnBoard(moves, 5)
      modifies game, this`p1Wins, this`p2Wins, this`draws
      ensures game.Valid()
      ensures result == QubicGame.CubeRoundResult(scenario, moves).winner
      ensures result.None? ==> QubicGame.CubeRoundResult(scenario, moves).used == |moves|
      ensures IsOutcome(result)
      ensures p1Wins == old(p1Wins) + (if result == Some(1) then 1 else 0)
      ensures p2Wins == old(p2Wins) + (if result == Some(2) then 1 else 0)
      ensures draws == old(draws) + (if result == Some(3) then 1 else 0)
    {
      var used;
      result, used := game.Run(moves);
      if result.Some? {
        SaveRound(result.value);
      }
    }

    /** The round loop of `play_scenario` on the flat game of scenario "1" or "2". */
    method PlayFlat(rounds: seq<Moves>) returns (results: seq<int>)
      requires |rounds| == nGames && FlatScenario(scenario)
      requires boardSize == 3 || boardSize == 5 || boardSize == 7
      requires forall k :: 0 <= k < |rounds| ==> MovesOnBoard(rounds[k], boardSize)
      modifies this`p1Wins, this`p2Wins, this`draws
      ensures |results| <= nGames
      ensures forall i :: 0 <= i < |results| ==>
        TicTacToeGame.RoundResult(boardSize, scenario, rounds[i]).winner == Some(results[i])
      ensures |results| < nGames ==>
        TicTacToeGame.RoundResult(boardSize, scenario, rounds[|results|]).winner == None &&
        TicTacToeGame.RoundResult(boardSize, scenario, rounds[|results|]).used == |rounds[|results|]|
      ensures forall i :: 0 <= i < |results| ==> IsOutcome(Some(results[i]))
      ensures p1Wins == old(p1Wins) + Tally(results, 1)
      ensures p2Wins == old(p2Wins) + Tally(results, 2)
      ensures draws == old(draws) + Tally(results, 3)
    {
      results := [];
      var game := new TicTacToeGame.TicTacToe(boardSize, scenario);
      var round := 0;
      while round < nGames
        invariant 0 <= round <= nGames && |results| == round
        invariant game.Valid() && game.boardSize == boardSize && game.scenario == scenario
        invariant forall i :: 0 <= i < |results| ==>
          TicTacToeGame.RoundResult(boardSize, scenario, rounds[i]).winner == Some(results[i])
        invariant forall i :: 0 <= i < |results| ==> IsOutcome(Some(results[i]))
        invariant p1Wins == old(p1Wins) + Tally(results, 1)
        invariant p2Wins == old(p2Wins) + Tally(results, 2)
        invariant draws == old(draws) + Tally(results, 3)
      {
        var result := FlatRound(game, rounds[round]);
        if result.None? {
          break;
        }
        TallySnoc(results, result.value, 1);
        TallySnoc(results, result.value, 2);
        TallySnoc(results, result.value, 3);
        ghost var prev := results;
        results := results + [result.value];
        forall i | 0 <= i < |results|
          ensures TicTacToeGame.RoundResult(boardSize, scenario, rounds[i]).winner == Some(results[i])
        {
          if i < |prev| {
            assert results[i] == prev[i];
          } else {
            assert i == round && results[i] == result.value;
          }
        }
        round := round + 1;
      }
    }

    /** The round loop of `play_scenario` on the cube game. */
    method PlayCube(rounds: seq<Moves>) returns (results: seq<int>)
      requires |rounds| == nGames && !FlatScenario(scenario)
      requires forall k :: 0 <= k < |rounds| ==> MovesOnBoard(rounds[k], 5)
      modifies this`p1Wins, this`p2Wins, this`draws
      ensures |results| <= nGames
      ensures forall i :: 0 <= i < |results| ==>
        QubicGame.CubeRoundResult(scenario, rounds[i]).winner == Some(results[i])
      ensures |results| < nGames ==>
        QubicGame.CubeRoundResult(scenario, rounds[|results|]).winner == None &&
        QubicGame.CubeRoundResult(scenario, rounds[|results|]).used == |rounds[|results|]|
      ensures forall i :: 0 <= i < |results| ==> IsOutcome(Some(results[i]))
      ensures p1Wins == old(p1Wins) + Tally(results, 1)
      ensures p2Wins == old(p2Wins) + Tally(results, 2)
      ensures draws == old(draws) + Tally(results, 3)
    {
      results := [];
      var game := new QubicGame.Qubic(scenario);
      var round := 0;
      while round < nGames
        invariant 0 <= round <= nGames && |results| == round
        invariant game.Valid() && game.scenario == scenario
        invariant forall i :: 0 <= i < |results| ==>
          QubicGame.CubeRoundResult(scenario, rounds[i]).winner == Some(results[i])
        invariant forall i :: 0 <= i < |results| ==> IsOutcome(Some(results[i]))
        invariant p1Wins == old(p1Wins) + Tally(results, 1)
        invariant p2Wins == old(p2Wins) + Tally(results, 2)
        invariant draws == old(draws) + Tally(results, 3)
      {
        var result := CubeRound(game, rounds[round]);
        if result.None? {
          break;
        }
        TallySnoc(results, result.value, 1);
        TallySnoc(results, result.value, 2);
        TallySnoc(results, result.value, 3);
        ghost var prev := results;
        results := results + [result.value];
        forall i | 0 <= i < |results|
          ensures QubicGame.CubeRoundResult(scenario, rounds[i]).winner == Some(results[i])
        {
          if i < |prev| {
            assert results[i] == prev[i];
          } else {
            assert i == round && results[i] == result.value;
          }
        }
        round := round + 1;
      }
    }

    /**
     * The winner field and the number of coordinates drawn when one round of this driver's
     * scenario, fed by `moves`, ends: a planar round for "1" and "2", otherwise a cube round.
     */
    ghost function ScenarioRound(moves: Moves): (Option<int>, int)
      requires FlatScenario(scenario) ==> (boardSize == 3 || boardSize == 5 || boardSize == 7) && MovesOnBoard(moves, boardSize)
      requires !FlatScenario(scenario) ==> MovesOnBoard(moves, 5)
    {
      if FlatScenario(scenario) then
        (TicTacToeGame.RoundResult(boardSize, scenario, moves).winner, TicTacToeGame.RoundResult(boardSize, scenario, moves).used)
      else
        (QubicGame.CubeRoundResult(scenario, moves).winner, QubicGame.CubeRoundResult(scenario, moves).used)
    }

    /**
     * `play_scenario`: one game object, a flat game for scenarios "1" and "2" and a cube
     * otherwise, plays `nGames` rounds and each result is tallied. Round k draws its
     * coordinates from `rounds[k]`; if those run out before the round is decided, play stops
     * there. The returned list holds the results of the rounds played, each 1, 2 or 3 and each
     * the one its round specification gives, and every one of them is counted exactly once.
     */
    method PlayScenario(rounds: seq<Moves>) returns (results: seq<int>)
      requires |rounds| == nGames
      requires FlatScenario(scenario) ==> boardSize == 3 || boardSize == 5 || boardSize == 7
      requires forall k :: 0 <= k < |rounds| ==> MovesOnBoard(rounds[k], if FlatScenario(scenario) then boardSize else 5)
      modifies this`p1Wins, this`p2Wins, this`draws
      ensures |results| <= nGames
      ensures forall i :: 0 <= i < |results| ==> results[i] == 1 || results[i] == 2 || results[i] == 3
      ensures forall i :: 0 <= i < |results| ==> Some(results[i]) == ScenarioRound(rounds[i]).0
      ensures |results| < nGames ==>
        ScenarioRound(rounds[|results|]) == (None, |rounds[|results|]|)
      ensures p1Wins == old(p1Wins) + Tally(results, 1)
      ensures p2Wins == old(p2Wins) + Tally(results, 2)
      ensures draws == old(draws) + Tally(results, 3)
      ensures p1Wins + p2Wins + draws == old(p1Wins + p2Wins + draws) + |results|
    {
      if FlatScenario(scenario) {
        results := PlayFlat(rounds);
      } else {
        results := PlayCube(rounds);
      }
      TallyTotal(results);
    }
  }
}
