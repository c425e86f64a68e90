# Chessington pieces: a Dafny model of the move generators

This project models the piece layer of the Chessington chess engine
(`chessington/engine/pieces.py`). Six kinds of piece belong to a player,
WHITE or BLACK. A piece does not know its own square: it asks the board
where it stands. Each piece offers two operations:

- `get_available_moves`, the list of squares the piece may move to;
- `move_to`, which relocates the piece through the board without checking
  legality.

Only the pawn has a rule. It may step one row forward (WHITE towards higher
rows, BLACK towards lower) onto an empty square. From its starting row
(1 for WHITE, 6 for BLACK) it may also step two rows, but only when the
square one step ahead and the square two steps ahead are both empty. Every
candidate is range-checked before a square is built from it. Knight, Bishop,
Rook, Queen and King have no moves. `to_json` gives the piece's kind name and
the player's lower-case name.

Files:

- `Data.dfy` (module `Data`): players, squares, the 8×8 board domain, and
  `At` (`Square.at`). `At` may only be called on in-range coordinates, so the
  verifier checks every call site for its range check.
- `Boards.dfy` (module `Boards`): the board as a generic class over a map
  from occupied squares to occupants. It holds the stated contracts of
  `get_piece`, `find_piece` (reverse lookup by identity) and `move_piece`
  (unchecked relocation that overwrites the destination). The engine's
  board and coordinate modules are not part of this model. These members are
  written to the contract the pieces rely on, and are not a model of that
  code.
- `Pieces.dfy` (module `Pieces`): the pawn's range check, the pawn rule as a
  specification function `PawnMoves`, and the dispatch `Moves` over the six
  kinds. It also holds the class `Piece`, with immutable kind and player and
  reference identity. `Piece.GetAvailableMoves` follows the source's nested
  branches and appends, and is proved to return exactly `Moves`.
  `Piece.MoveTo` is the two-step look-up-then-relocate protocol.
  `Piece.ToJson` is the serialised form.
- `PawnFacts.dfy` (module `PawnFacts`): properties that relate several boards,
  players or moves. These are the BLACK/WHITE mirror symmetry, monotonicity in
  the occupied squares, the one-time double step, progress along a sequence of
  moves, and that a pawn move captures nothing. It also has a few concrete
  boards.

The code has no diagonal pawn captures, no promotion and no knight jumps, and
the model has none either. For example, a BLACK pawn on (6, 0) with an
opposing piece on (5, 1) gets exactly [(5, 0), (4, 0)]
(`PawnFacts.BlackPawnDoesNotCapture`).

## Model

| member | source | states |
|---|---|---|
| `Pieces.InBounds` | chessington/engine/pieces.py:46-47 | the pawn's range check accepts a (row, col) pair exactly when it is a square of the 8×8 board |
| `Pieces.OneStep` | chessington/engine/pieces.py:55-71 | the one-step square is in the pawn's column; for a pawn on the board it is off the board exactly when the pawn stands on its far row (row 0 for BLACK, row 7 for WHITE) |
| `Pieces.TwoStep` | chessington/engine/pieces.py:62-79 | the two-step square is in the pawn's column, and from the starting row (6 for BLACK, 1 for WHITE) its range check always succeeds |
| `Pieces.PawnMoves` | chessington/engine/pieces.py:49-84 | at most two destinations, all on the board, all empty and all in the pawn's column; the list is empty exactly when the one-step square is off the board or occupied; the first entry is the one-step square; there is a second entry, the two-step square, exactly when the pawn is on its starting row and both squares ahead are on the board and empty |
| `Pieces.Moves` | chessington/engine/pieces.py:87-129 | Knight, Bishop, Rook, Queen and King have no destinations from any square on any board; every destination of any kind is on the board and empty |
| `Pieces.Piece.constructor` | chessington/engine/pieces.py:14-15 | a new piece has the given player and kind |
| `Pieces.Piece.ToJson` | chessington/engine/pieces.py:17-21 | the serialised kind name and player name read back as the piece's own kind and player, so no two different (kind, player) pairs share a form |
| `Pieces.Piece.GetAvailableMoves` | chessington/engine/pieces.py:49-129 | a pawn looks itself up on the board and gets exactly `Moves` of its kind and player, from the square it stands on, with the board's occupied squares; Knight, Bishop, Rook, Queen and King answer `[]` without looking themselves up, so they need not stand on the board |
| `Pieces.Piece.MoveTo` | chessington/engine/pieces.py:30-35 | the board becomes its old placement with the occupant of the piece's old square relocated to the requested square, with no legality check; the board stays well formed and the piece now stands on the requested square; its kind and player are constant fields, so the move cannot change them |
| `PawnFacts.BlackMirrorsWhite` | chessington/engine/pieces.py:53-82 | the BLACK branch is the WHITE branch mirrored across the board: mirrored pawn and obstacles give the mirrored destinations, in the same order |
| `PawnFacts.WhiteMirrorsBlack` | chessington/engine/pieces.py:53-82 | the converse: the WHITE branch is the BLACK branch mirrored across the board, order included, so the two branches are mirror images in both directions |
| `PawnFacts.MirrorTwice` | chessington/engine/pieces.py:53-82 | mirroring a set of occupied squares or a list of squares twice gives it back, which carries each mirror statement to its converse |
| `PawnFacts.MoreOccupiedFewerMoves` | chessington/engine/pieces.py:58-81 | occupying more squares never adds a destination: the list on the fuller board is a prefix of the list on the emptier one |
| `PawnFacts.DoubleStepOnlyOnce` | chessington/engine/pieces.py:62-82 | after any move from on or past its starting row, a pawn is off that row and has at most one destination on any board |
| `PawnFacts.MarchAdvances` | chessington/engine/pieces.py:55-78 | along any sequence of pawn moves, whatever the boards in between, the pawn stays on the board and in its column and advances at least one row per move, so it makes at most seven moves |
| `PawnFacts.PawnMoveCapturesNothing` | chessington/engine/pieces.py:58-81 | relocating a pawn to one of its destinations removes no piece: the board holds the same occupants on as many squares |
| `PawnFacts.WhiteOpeningDoubleStep` | chessington/engine/pieces.py:69-82 | a WHITE pawn on (1, 3) of an otherwise empty board gets [(2, 3), (3, 3)], in that order |
| `PawnFacts.BlackPawnDoesNotCapture` | chessington/engine/pieces.py:53-67 | a BLACK pawn on (6, 0) next to an opposing piece on (5, 1) gets [(5, 0), (4, 0)] |
| `PawnFacts.BlockedPawnHasNoMoves` | chessington/engine/pieces.py:69-82 | a WHITE pawn on its starting row with the square ahead occupied gets no move, not even the double step |

## Left out

- The board and coordinate modules are not part of this model. `get_piece`,
  `find_piece` and `move_piece` are modelled by their contracts over a map.
  `find_piece` must be given a piece on the board, and both squares of
  `move_piece` must be on the board.
- `Pieces.Piece.MoveTo`: requires the destination to be on the board, because
  the board's relocation is assumed to accept only on-board squares. A
  relocation onto the piece's own square leaves the piece in place. This is an
  assumption about the board module, not read from code.
- Diagonal pawn captures, en passant, promotion, knight jumps, sliding-piece
  rays and king steps: `pieces.py` implements none of them.
- `to_json` takes its names by reflection, from the class name and the enum
  member name. The model maps each kind and player to the same strings
  explicitly, and gives the result as a two-field record rather than a
  dictionary.
- The abstract base class machinery and the type-checking-only imports are
  not modelled: the six piece classes become one class with a kind tag.
