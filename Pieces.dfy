/** The pieces and their move generators. Only the pawn has a rule: one step
    forward onto an empty square, and two steps from the starting row when
    both squares ahead are empty. There are no captures, no promotion and no
    knight jumps; every other kind of piece has no moves at all. */
module Pieces {
  import opened Data
  import opened Boards

  datatype Kind = Pawn | Knight | Bishop | Rook | Queen | King

  const BoardMin: int := 0
  const BoardMax: int := 7

  /** `Pawn._in_bounds`: the pawn's own range check agrees with the board. */
  function InBounds(row: int, col: int): (b: bool)
    ensures b <==> OnBoard(Square(row, col))
  {
    BoardMin <= row <= BoardMax && BoardMin <= col <= BoardMax
  }

  /** The row offset of one step forward. */
  function Forward(player: Player): int
  {
    if player == White then 1 else -1
  }

  /** The row pawns of `player` start on. */
  function StartRow(player: Player): int
  {
    if player == White then 1 else 6
  }

  /** The row a pawn of `player` can never step forward from. */
  function FarRow(player: Player): int
  {
    if player == White then 7 else 0
  }

  /** The square one step ahead of `from`; it is off the board exactly when
      `from` is on the far row. */
  function OneStep(player: Player, from: Square): (s: Square)
    ensures s.col == from.col
    ensures OnBoard(from) ==> (OnBoard(s) <==> from.row != FarRow(player))
  {
    Square(from.row + Forward(player), from.col)
  }

  /** The square two steps ahead of `from`; from the starting row it is
      always on the board. */
  function TwoStep(player: Player, from: Square): (s: Square)
    ensures s.col == from.col
    ensures 0 <= from.col < 8 && from.row == StartRow(player) ==> OnBoard(s)
  {
    Square(from.row + 2 * Forward(player), from.col)
  }

  /** The pawn's destinations from `from`, given the occupied squares, in the
      order the generator lists them. */
  function PawnMoves(player: Player, from: Square, occupied: set<Square>): (moves: seq<Square>)
    ensures |moves| <= 2
    ensures forall s :: s in moves ==> OnBoard(s) && s !in occupied && s.col == from.col
    ensures moves == [] <==> !OnBoard(OneStep(player, from)) || OneStep(player, from) in occupied
    ensures |moves| >= 1 ==> moves[0] == OneStep(player, from)
    ensures |moves| == 2 <==>
      OnBoard(OneStep(player, from)) && OneStep(player, from) !in occupied &&
      from.row == StartRow(player) &&
      OnBoard(TwoStep(player, from)) && TwoStep(player, from) !in occupied
    ensures |moves| == 2 ==> moves[1] == TwoStep(player, from)
  {
    var one, two := OneStep(player, from), TwoStep(player, from);
    if OnBoard(one) && one !in occupied then
      [one] + if from.row == StartRow(player) && OnBoard(two) && two !in occupied then [two] else []
    else
      []
  }

  /** The destinations of a piece of kind `kind`: the pawn rule, and nothing
      for every other kind. */
  function Moves(kind: Kind, player: Player, from: Square, occupied: set<Square>): (moves: seq<Square>)
    ensures kind != Pawn ==> moves == []
    ensures forall s :: s in moves ==> OnBoard(s) && s !in occupied
  {
    if kind == Pawn then PawnMoves(player, from, occupied) else []
  }

  /** The serialised form of a piece. */
  datatype PieceJson = PieceJson(piece: string, player: string)

  function KindName(kind: Kind): string
  {
    match kind
    case Pawn => "Pawn"
    case Knight => "Knight"
    case Bishop => "Bishop"
    case Rook => "Rook"
    case Queen => "Queen"
    case King => "King"
  }

  function PlayerName(player: Player): string
  {
    if player == White then "white" else "black"
  }

  /** Reads a kind back from its name. */
  function KindFromName(name: string): Option<Kind>
  {
    if name == "Pawn" then Some(Pawn)
    else if name == "Knight" then Some(Knight)
    else if name == "Bishop" then Some(Bishop)
    else if name == "Rook" then Some(Rook)
    else if name == "Queen" then Some(Queen)
    else if name == "King" then Some(King)
    else None
  }

  /** Reads a player back from its name. */
  function PlayerFromName(name: string): Option<Player>
  {
    if name == "white" then Some(White)
    else if name == "black" then Some(Black)
    else None
  }

  class Piece {
    const kind: Kind
    const player: Player

    constructor (kind: Kind, player: Player)
      ensures this.kind == kind && this.player == player
    {
      this.kind := kind;
      this.player := player;
    }

    /** `to_json`: the kind's name and the player's lower-case name, from
        which both can be read back. */
    function ToJson(): (j: PieceJson)
      ensures KindFromName(j.piece) == Some(kind)
      ensures PlayerFromName(j.player) == Some(player)
    {
      PieceJson(KindName(kind), PlayerName(player))
    }

    /** `get_available_moves`: a pawn looks itself up on the board and lists
        the destinations its rule allows; every other kind answers `[]`
        without consulting the board, so it need not stand on it. */
    method GetAvailableMoves(board: Board<Piece>) returns (moves: seq<Square>)
      requires board.Valid() && (kind == Pawn ==> board.Holds(this))
      ensures kind != Pawn ==> moves == []
      ensures kind == Pawn ==> moves == Moves(kind, player, board.PositionOf(this), board.cells.Keys)
    {
      moves := [];
      if kind != Pawn {
        return;
      }
      var current := board.FindPiece(this);
      if player == Black {
        var r1, c := current.row - 1, current.col;
        if InBounds(r1, c) {
          var oneStep := At(r1, c);
          if board.GetPiece(oneStep).None? {
            moves := moves + [oneStep];
            if current.row == 6 {
              var r2 := current.row - 2;
              if InBounds(r2, c) {
                var twoStep := At(r2, c);
                if board.GetPiece(twoStep).None? {
                  moves := moves + [twoStep];
                }
              }
            }
          }
        }
      } else {
        var r1, c := current.row + 1, current.col;
        if InBounds(r1, c) {
          var oneStep := At(r1, c);
          if board.GetPiece(oneStep).None? {
            moves := moves + [oneStep];
            if current.row == 1 {
              var r2 := current.row + 2;
              if InBounds(r2, c) {
                var twoStep := At(r2, c);
                if board.GetPiece(twoStep).None? {
                  moves := moves + [twoStep];
                }
              }
            }
          }
        }
      }
    }

    /** `move_to`: find the piece's square and relocate it to `newSquare`,
        with no legality check. The piece itself is unchanged. */
    method MoveTo(board: Board<Piece>, newSquare: Square)
      requires board.Valid() && board.Holds(this) && OnBoard(newSquare)
      modifies board
      ensures board.Valid()
      ensures board.cells == Moved(old(board.cells), old(board.PositionOf(this)), newSquare)
      ensures board.Holds(this) && board.PositionOf(this) == newSquare
    {
      var currentSquare := board.FindPiece(this);
      board.MovePiece(currentSquare, newSquare);
    }
  }
}
