/** The value types the move generators work on: players, board coordinates
    and an optional occupant. The coordinate module of the engine is not part
    of this model; what is here is the contract the pieces rely on. */
module Data {

  /** The two sides. WHITE advances towards higher rows, BLACK towards lower. */
  datatype Player = White | Black

  /** A board coordinate, compared by (row, col). */
  datatype Square = Square(row: int, col: int)

  /** The squares of the 8x8 board: both coordinates in [0, 7]. */
  predicate OnBoard(s: Square)
  {
    0 <= s.row < 8 && 0 <= s.col < 8
  }

  /** `Square.at`: a square may only be built from an in-range pair, so every
      call site has to establish the bounds first. */
  function At(row: int, col: int): Square
    requires OnBoard(Square(row, col))
  {
    Square(row, col)
  }

  /** The content of a board slot: empty, or one occupant. */
  datatype Option<T> = None | Some(value: T)
}
