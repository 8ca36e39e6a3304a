/** Cell values and the small wrappers shared by the planar game and the cube. */
module Cells {

  datatype Option<+T> = None | Some(value: T)

  /** A board slot: empty (the source's integer `0`), player 1's "O" or player 2's "X". */
  datatype Cell = Empty | O | X

  /** The mark a player writes: "O" for player 1, "X" for anyone else. */
  function Mark(player: int): (c: Cell)
    ensures c != Empty
    ensures c == O <==> player == 1
  {
    if player == 1 then O else X
  }

  /** The outcome code a line of `c`s stands for: 1 for "O", 2 otherwise. */
  function Code(c: Cell): (w: int)
    ensures w == 1 || w == 2
    ensures w == 1 <==> c == O
  {
    if c == O then 1 else 2
  }

  /** The player who moves after `player`. */
  function Other(player: int): (p: int)
    ensures player == 1 ==> p == 2
    ensures player != 1 ==> p == 1
  {
    if player == 1 then 2 else 1
  }
}
