/** Properties of the pawn rule that relate several boards, players or moves. */
module PawnFacts {
  import opened Data
  import opened Boards
  import opened Pieces

  /** The square seen from the other side of the board. */
  function Mirror(s: Square): Square
  {
    Square(7 - s.row, s.col)
  }

  function MirrorAll(occupied: set<Square>): set<Square>
  {
    set s | s in occupied :: Mirror(s)
  }

  function MirrorEach(moves: seq<Square>): seq<Square>
  {
    seq(|moves|, i requires 0 <= i < |moves| => Mirror(moves[i]))
  }

  /** The BLACK rule is the WHITE rule seen from the other side: mirroring the
      pawn and every occupied square mirrors the destinations, in order. */
  lemma BlackMirrorsWhite(from: Square, occupied: set<Square>)
    ensures PawnMoves(Black, Mirror(from), MirrorAll(occupied)) ==
            MirrorEach(PawnMoves(White, from, occupied))
  {
  }

  /** Mirroring twice gives back the board and the list of squares. */
  lemma MirrorTwice(occupied: set<Square>, moves: seq<Square>)
    ensures MirrorAll(MirrorAll(occupied)) == occupied
    ensures MirrorEach(MirrorEach(moves)) == moves
  {
    forall s | s in occupied
      ensures s in MirrorAll(MirrorAll(occupied))
    {
      assert Mirror(s) in MirrorAll(occupied);
      assert Mirror(Mirror(s)) == s;
    }
  }

  /** The converse: the WHITE rule is the BLACK rule seen from the other side. */
  lemma WhiteMirrorsBlack(from: Square, occupied: set<Square>)
    ensures PawnMoves(White, Mirror(from), MirrorAll(occupied)) ==
            MirrorEach(PawnMoves(Black, from, occupied))
  {
    var from', occupied' := Mirror(from), MirrorAll(occupied);
    BlackMirrorsWhite(from', occupied');
    MirrorTwice(occupied, PawnMoves(White, from', occupied'));
    assert Mirror(from') == from;
  }

  /** Occupying more squares never adds a destination: the moves on the
      fuller board are a prefix of the moves on the emptier one. */
  lemma MoreOccupiedFewerMoves(player: Player, from: Square, fewer: set<Square>, more: set<Square>)
    requires fewer <= more
    ensures PawnMoves(player, from, more) <= PawnMoves(player, from, fewer)
  {
  }

  /** How far a square lies along `player`'s forward direction. */
  function Progress(player: Player, s: Square): int
  {
    if player == White then s.row else 7 - s.row
  }

  /** The double step is available once: a pawn on or past its starting row
      that makes any move leaves that row for good, and then has at most one
      destination. */
  lemma DoubleStepOnlyOnce(player: Player, from: Square, occupied: set<Square>, to: Square, later: set<Square>)
    requires Progress(player, from) >= Progress(player, Square(StartRow(player), from.col))
    requires to in PawnMoves(player, from, occupied)
    ensures to.row != StartRow(player)
    ensures |PawnMoves(player, to, later)| <= 1
  {
  }

  /** `path` is a sequence of pawn moves: each square is a destination of the
      previous one on the board of that turn. */
  ghost predicate IsMarch(player: Player, path: seq<Square>, boards: seq<set<Square>>)
  {
    |path| == |boards| + 1 &&
    forall i :: 0 <= i < |boards| ==> path[i + 1] in PawnMoves(player, path[i], boards[i])
  }

  /** Whatever the boards in between, a pawn stays in its column and every
      move advances it by at least one row, so it makes at most seven moves. */
  lemma {:induction false} MarchAdvances(player: Player, path: seq<Square>, boards: seq<set<Square>>)
    requires IsMarch(player, path, boards) && OnBoard(path[0])
    ensures forall i :: 0 <= i < |path| ==> path[i].col == path[0].col && OnBoard(path[i])
    ensures Progress(player, path[|path| - 1]) >= Progress(player, path[0]) + |path| - 1
    ensures |path| <= 8
  {
    if |path| > 1 {
      var n := |path| - 1;
      MarchAdvances(player, path[..n], boards[..n - 1]);
      assert path[n] in PawnMoves(player, path[n - 1], boards[n - 1]);
    }
  }

  /** A pawn only ever moves onto an empty square, so carrying out one of its
      moves captures nothing: the same pieces remain, on as many squares. */
  lemma PawnMoveCapturesNothing<T>(cells: map<Square, T>, player: Player, from: Square, to: Square)
    requires Placement(cells) && from in cells
    requires to in PawnMoves(player, from, cells.Keys)
    ensures Moved(cells, from, to).Values == cells.Values
    ensures |Moved(cells, from, to)| == |cells|
  {
  }

  /** A WHITE pawn on (1, 3) of an otherwise empty board goes to (2, 3) or (3, 3). */
  lemma WhiteOpeningDoubleStep()
    ensures PawnMoves(White, Square(1, 3), {Square(1, 3)}) == [Square(2, 3), Square(3, 3)]
  {
  }

  /** A BLACK pawn on (6, 0) ignores an opposing piece on (5, 1): no capture. */
  lemma BlackPawnDoesNotCapture()
    ensures PawnMoves(Black, Square(6, 0), {Square(6, 0), Square(5, 1)}) == [Square(5, 0), Square(4, 0)]
  {
  }

  /** A blocked first step also blocks the double step. */
  lemma BlockedPawnHasNoMoves()
    ensures PawnMoves(White, Square(1, 4), {Square(1, 4), Square(2, 4)}) == []
  {
  }
}
