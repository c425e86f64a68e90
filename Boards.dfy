/** The board the pieces consult and move on. The engine's board module is not
    part of this model: here it is an abstract map from the occupied squares
    to their occupants, with the contract the pieces rely on (lookup by
    square, reverse lookup by identity, unchecked relocation). */
module Boards {
  import opened Data

  /** A well-formed placement: every occupied square is on the board and no
      occupant stands on two squares. */
  ghost predicate Placement<T>(cells: map<Square, T>)
  {
    (forall s :: s in cells ==> OnBoard(s)) &&
    (forall a, b :: a in cells && b in cells && cells[a] == cells[b] ==> a == b)
  }

  /** The placement after relocating whatever stands on `from` to `to`: the
      occupant of `to`, if any, is overwritten and `from` is left empty. When
      `from` is empty, `to` is overwritten with emptiness. */
  function Moved<T>(cells: map<Square, T>, from: Square, to: Square): (r: map<Square, T>)
    ensures from in cells ==> to in r && r[to] == cells[from]
    ensures from != to ==> from !in r
    ensures from !in cells ==> to !in r
    ensures forall s :: s != from && s != to ==> (s in r <==> s in cells)
    ensures forall s :: s in r && s != from && s != to ==> r[s] == cells[s]
  {
    if from in cells then (cells - {from})[to := cells[from]] else cells - {to}
  }

  class Board<T(==)> {
    /** The occupied squares and their occupants. */
    var cells: map<Square, T>

    ghost predicate Valid()
      reads this
    {
      Placement(cells)
    }

    /** `p` stands somewhere on the board. */
    ghost predicate Holds(p: T)
      reads this
    {
      p in cells.Values
    }

    /** The one square `p` stands on. */
    ghost function PositionOf(p: T): (s: Square)
      reads this
      requires Valid() && Holds(p)
      ensures s in cells && cells[s] == p && OnBoard(s)
    {
      var s :| s in cells && cells[s] == p; s
    }

    /** A board seeded with a well-formed initial placement. */
    constructor (placement: map<Square, T>)
      requires Placement(placement)
      ensures Valid() && cells == placement
    {
      cells := placement;
    }

    /** `get_piece`: the occupant of an on-board square, if any. */
    function GetPiece(s: Square): (r: Option<T>)
      reads this
      requires OnBoard(s)
      ensures r.None? <==> s !in cells
      ensures r.Some? ==> s in cells && r.value == cells[s]
    {
      if s in cells then Some(cells[s]) else None
    }

    /** `find_piece`: reverse lookup by identity; the piece must be on the board. */
    method FindPiece(p: T) returns (s: Square)
      requires Valid() && Holds(p)
      ensures s == PositionOf(p)
    {
      s :| s in cells && cells[s] == p;
    }

    /** `move_piece`: relocate without any legality check. */
    method MovePiece(from: Square, to: Square)
      requires Valid() && OnBoard(from) && OnBoard(to)
      modifies this
      ensures Valid()
      ensures cells == Moved(old(cells), from, to)
    {
      cells := Moved(cells, from, to);
    }
  }
}
