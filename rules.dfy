/** The rules of ChessGame as functions over a game value: the per-piece
    validators, the path scan, attack/check/checkmate detection and the
    one-ply move executor. Every query that can reach the castling rule
    returns the board it leaves behind, because that rule moves a rook when
    it succeeds. */
module Rules {
  import opened Pieces

  /** A square: `x` is the row (0 is Black's back rank, 7 White's), `y` the column. */
  datatype Pos = Pos(x: int, y: int)

  predicate OnBoard(p: Pos)
  {
    0 <= p.x < 8 && 0 <= p.y < 8
  }

  /** Row-major list of lists of cells, as the source keeps it. */
  type Board = seq<seq<Option<Piece>>>

  predicate IsGrid(b: Board)
  {
    |b| == 8 && forall r :: 0 <= r < 8 ==> |b[r]| == 8
  }

  predicate InGrid(b: Board, p: Pos)
  {
    0 <= p.x < |b| && 0 <= p.y < |b[p.x]|
  }

  /** The cell at `p`; squares outside the grid read as empty. */
  function At(b: Board, p: Pos): Option<Piece>
  {
    if InGrid(b, p) then b[p.x][p.y] else None
  }

  /** The board with the cell at `p` replaced by `v`. */
  function Put(b: Board, p: Pos, v: Option<Piece>): (r: Board)
    ensures |r| == |b| && forall i :: 0 <= i < |b| ==> |r[i]| == |b[i]|
    ensures forall q :: At(r, q) == if q == p && InGrid(b, p) then v else At(b, q)
  {
    if InGrid(b, p) then b[p.x := b[p.x][p.y := v]] else b
  }

  function Abs(a: int): nat
  {
    if a < 0 then -a else a
  }

  function Max(a: int, b: int): int
  {
    if a < b then b else a
  }

  function Min(a: int, b: int): int
  {
    if a < b then a else b
  }

  /** The unit step from `a` toward `b`; -1 when they are equal, as in the source. */
  function Step(a: int, b: int): int
  {
    if a < b then 1 else -1
  }

  /** How many integers lie strictly between `a` and `b`. */
  function Gap(a: int, b: int): nat
  {
    if a == b then 0 else Abs(b - a) - 1
  }

  /** The record of each side's king square (self.kings). */
  datatype KingIndex = KingIndex(white: Pos, black: Pos)
  {
    function Of(c: Color): Pos
    {
      if c == White then white else black
    }

    function With(c: Color, p: Pos): (k: KingIndex)
      ensures k.Of(c) == p && k.Of(Opponent(c)) == Of(Opponent(c))
    {
      if c == White then this.(white := p) else this.(black := p)
    }
  }

  /** One move-log entry: start square, end square and the mover's label. */
  datatype Entry = Entry(start: Pos, dest: Pos, mover: string)

  /** The five pieces of ChessGame state. */
  datatype Game = Game(board: Board, turn: Color, log: seq<Entry>, kings: KingIndex,
                       enPassant: Option<Pos>)

  // ---------------------------------------------------------------------
  // Per-piece geometry

  /** is_valid_pawn_move: forward steps onto empty squares, the double step
      from the home row (only the destination is looked at), diagonal
      captures of the other colour, and the en-passant target. */
  predicate PawnMove(g: Game, piece: Piece, s: Pos, e: Pos)
  {
    var b := g.board;
    (piece.color == White &&
      ((s.x == 6 && e.x == 4 && s.y == e.y && At(b, e).None?) ||
       (e.x == s.x - 1 && s.y == e.y && At(b, e).None?)))
    || (piece.color == Black &&
      ((s.x == 1 && e.x == 3 && s.y == e.y && At(b, e).None?) ||
       (e.x == s.x + 1 && s.y == e.y && At(b, e).None?)))
    || (piece.color == White && e.x == s.x - 1 && Abs(e.y - s.y) == 1 &&
        At(b, e).Some? && At(b, e).value.color == Black)
    || (piece.color == Black && e.x == s.x + 1 && Abs(e.y - s.y) == 1 &&
        At(b, e).Some? && At(b, e).value.color == White)
    || (piece.color == White && g.enPassant == Some(e) && Abs(e.y - s.y) == 1 && e.x == s.x - 1)
    || (piece.color == Black && g.enPassant == Some(e) && Abs(e.y - s.y) == 1 && e.x == s.x + 1)
  }

  /** is_valid_knight_move: the distance pair is one of (2, 1) and (1, 2). */
  predicate KnightMove(s: Pos, e: Pos)
  {
    (Abs(e.x - s.x), Abs(e.y - s.y)) in [(2, 1), (1, 2)]
  }

  /** is_valid_king_move: one step in any direction. */
  predicate KingStep(s: Pos, e: Pos)
  {
    Max(Abs(e.x - s.x), Abs(e.y - s.y)) == 1
  }

  /** The `n` squares p, p + (dx, dy), p + 2(dx, dy), ... are all empty. */
  predicate EmptyRun(b: Board, p: Pos, dx: int, dy: int, n: nat)
    decreases n
  {
    n == 0 || (At(b, p).None? && EmptyRun(b, Pos(p.x + dx, p.y + dy), dx, dy, n - 1))
  }

  /** The final test of is_path_clear: the destination is empty or holds a
      piece whose colour differs from the start square's piece. */
  predicate DestinationFree(b: Board, s: Pos, e: Pos)
  {
    At(b, e).None? || At(b, s).None? || At(b, e).value.color != At(b, s).value.color
  }

  /** is_path_clear: along the row, along the column, or diagonally until
      either coordinate reaches its end, every scanned square is empty; and
      the destination is free. */
  predicate PathClear(b: Board, s: Pos, e: Pos)
  {
    (if s.x == e.x then
       EmptyRun(b, Pos(s.x, s.y + Step(s.y, e.y)), 0, Step(s.y, e.y), Gap(s.y, e.y))
     else if s.y == e.y then
       EmptyRun(b, Pos(s.x + Step(s.x, e.x), s.y), Step(s.x, e.x), 0, Gap(s.x, e.x))
     else
       EmptyRun(b, Pos(s.x + Step(s.x, e.x), s.y + Step(s.y, e.y)), Step(s.x, e.x), Step(s.y, e.y),
                Min(Gap(s.x, e.x), Gap(s.y, e.y))))
    && DestinationFree(b, s, e)
  }

  predicate BishopMove(b: Board, s: Pos, e: Pos)
  {
    Abs(e.x - s.x) == Abs(e.y - s.y) && PathClear(b, s, e)
  }

  predicate RookMove(b: Board, s: Pos, e: Pos)
  {
    (s.x == e.x || s.y == e.y) && PathClear(b, s, e)
  }

  predicate QueenMove(b: Board, s: Pos, e: Pos)
  {
    RookMove(b, s, e) || BishopMove(b, s, e)
  }

  // ---------------------------------------------------------------------
  // Validation, castling, attack and check; `fuel` bounds the depth of the
  // castling -> check -> attack -> castling recursion.

  /** is_valid_move: dispatch on the kind; a king may also castle. */
  function ValidMove(fuel: nat, g: Game, piece: Piece, s: Pos, e: Pos): (bool, Board)
    decreases fuel, 2, 0
  {
    match piece.kind
    case Pawn => (PawnMove(g, piece, s, e), g.board)
    case Knight => (KnightMove(s, e), g.board)
    case Bishop => (BishopMove(g.board, s, e), g.board)
    case Rook => (RookMove(g.board, s, e), g.board)
    case Queen => (QueenMove(g.board, s, e), g.board)
    case King => if KingStep(s, e) then (true, g.board) else ValidCastling(fuel, g, piece, s, e)
  }

  /** The column of the rook a king castles with, toward `e`. */
  function RookColumn(s: Pos, e: Pos): int
  {
    if e.y > s.y then 7 else 0
  }

  /** The geometric and material conditions of is_valid_castling that are
      tested before any check test: a king on column 4 of row 0 or 7, moving
      two columns along its row, a rook of its colour in that corner and
      the squares between king and destination empty. */
  predicate CastlingShape(b: Board, piece: Piece, s: Pos, e: Pos)
  {
    var rook := At(b, Pos(s.x, RookColumn(s, e)));
    piece.kind == King && s.y == 4 && (s.x == 0 || s.x == 7) &&
    Abs(e.y - s.y) == 2 && s.x == e.x &&
    rook.Some? && rook.value.kind == Rook && rook.value.color == piece.color &&
    EmptyRun(b, Pos(s.x, Min(s.y, e.y) + 1), 0, 1, Gap(s.y, e.y))
  }

  /** is_valid_castling: on success the rook (as read before the check
      tests) is put on the square the king passes and its corner emptied. */
  function ValidCastling(fuel: nat, g: Game, piece: Piece, s: Pos, e: Pos): (bool, Board)
    decreases fuel, 1, 0
  {
    if !CastlingShape(g.board, piece, s, e) || fuel == 0 then (false, g.board)
    else
      var rookSquare := Pos(s.x, RookColumn(s, e));
      var rook := At(g.board, rookSquare);
      var (check, b1) := InCheck(fuel - 1, g, piece.color);
      if check then (false, b1)
      else
        var (through, b2) := CastleThroughCheck(fuel - 1, g.(board := b1), s, e);
        if through then (false, b2)
        else (true, Put(Put(b2, Pos(s.x, (s.y + e.y) / 2), rook), rookSquare, None))
  }

  /** is_castle_through_check: the passed square, then the destination, is
      attacked by the opponent of the side to move (not of the king). */
  function CastleThroughCheck(fuel: nat, g: Game, s: Pos, e: Pos): (bool, Board)
    decreases fuel, 5, 0
  {
    var attacker := Opponent(g.turn);
    var (hit, b1) := Attacked(fuel, g, Pos(s.x, (s.y + e.y) / 2), attacker);
    if hit then (true, b1) else Attacked(fuel, g.(board := b1), e, attacker)
  }

  /** is_in_check: the recorded king square is attacked by the opponent. */
  function InCheck(fuel: nat, g: Game, color: Color): (bool, Board)
    decreases fuel, 5, 0
  {
    Attacked(fuel, g, g.kings.Of(color), Opponent(color))
  }

  /** `p` comes before `q` when the board is read row by row. */
  predicate RowMajorBefore(p: Pos, q: Pos)
  {
    p.x < q.x || (p.x == q.x && p.y < q.y)
  }

  /** The row of square index `i`, that is `i` div 8, counted off one
      whole row at a time. */
  function Row(i: nat): nat
  {
    if i < 8 then 0 else 1 + Row(i - 8)
  }

  /** The square with row-major index `i`. */
  function SquareOf(i: nat): Pos
  {
    Pos(Row(i), i - 8 * Row(i))
  }

  /** Row-major indices number the squares: index 8x + y is square (x, y),
      and every index below 64 is a square of the board. */
  lemma {:induction false} SquareIndex(x: nat, y: int)
    requires 0 <= y < 8
    ensures SquareOf(8 * x + y) == Pos(x, y)
  {
    if x > 0 {
      SquareIndex(x - 1, y);
    }
  }

  lemma {:induction false} SquareOnBoard(i: nat)
    requires i < 64
    ensures OnBoard(SquareOf(i))
  {
    if i >= 8 {
      SquareOnBoard(i - 8);
    }
  }

  /** is_attacked: some piece of `attacker` has a valid move to `pos`. */
  function Attacked(fuel: nat, g: Game, pos: Pos, attacker: Color): (bool, Board)
    decreases fuel, 4, 0
  {
    AttackScan(fuel, g, pos, attacker, 0)
  }

  /** The scan of is_attacked from square index `i` on, in row-major order,
      stopping at the first hit. */
  function AttackScan(fuel: nat, g: Game, pos: Pos, attacker: Color, i: nat): (bool, Board)
    requires i <= 64
    decreases fuel, 3, 64 - i
  {
    if i == 64 then (false, g.board)
    else
      var piece := At(g.board, SquareOf(i));
      if piece.Some? && piece.value.color == attacker then
        var (valid, b1) := ValidMove(fuel, g, piece.value, SquareOf(i), pos);
        if valid then (true, b1) else AttackScan(fuel, g.(board := b1), pos, attacker, i + 1)
      else AttackScan(fuel, g, pos, attacker, i + 1)
  }

  // ---------------------------------------------------------------------
  // Checkmate search

  /** The trial of is_in_checkmate: `piece` goes from `s` to `e`, the start
      is emptied; the king index is left as it was. */
  function TrialBoard(b: Board, piece: Piece, s: Pos, e: Pos): Board
  {
    Put(Put(b, e, Some(piece)), s, None)
  }

  /** The undo of a trial: the start gets `piece` back, then the end gets
      `target`, its content before the trial. */
  function UndoBoard(b: Board, piece: Piece, s: Pos, e: Pos, target: Option<Piece>): Board
  {
    Put(Put(b, s, Some(piece)), e, target)
  }

  /** is_in_checkmate: true unless some valid move of a piece of `color`
      leaves `color` out of check. */
  function InCheckmate(fuel: nat, g: Game, color: Color): (bool, Board)
    decreases fuel, 9, 0
  {
    MateScan(fuel, g, color, 0)
  }

  /** The outer two loops of is_in_checkmate from square index `i` on. */
  function MateScan(fuel: nat, g: Game, color: Color, i: nat): (bool, Board)
    requires i <= 64
    decreases fuel, 8, 64 - i
  {
    if i == 64 then (true, g.board)
    else
      var (escaped, b1) := SquareEscapes(fuel, g, color, SquareOf(i));
      if escaped then (false, b1) else MateScan(fuel, g.(board := b1), color, i + 1)
  }

  /** The trials for the square `s`, when it holds a piece of `color`. */
  function SquareEscapes(fuel: nat, g: Game, color: Color, s: Pos): (bool, Board)
    decreases fuel, 7, 65
  {
    var piece := At(g.board, s);
    if piece.Some? && piece.value.color == color then TrialScan(fuel, g, color, piece.value, s, 0)
    else (false, g.board)
  }

  /** One trial of is_in_checkmate: when `piece` may go from `s` to `e`,
      play it on the board, test `color` for check, then undo; true when the
      trial leaves `color` out of check. */
  function Trial(fuel: nat, g: Game, color: Color, piece: Piece, s: Pos, e: Pos): (bool, Board)
    decreases fuel, 6, 0
  {
    var (valid, b1) := ValidMove(fuel, g, piece, s, e);
    if !valid then (false, b1)
    else
      var target := At(b1, e);
      var (check, b2) := InCheck(fuel, g.(board := TrialBoard(b1, piece, s, e)), color);
      (!check, UndoBoard(b2, piece, s, e, target))
  }

  /** The inner two loops: the destinations of `piece` from index `j` on;
      true (with the restored board) as soon as a trial escapes check. */
  function TrialScan(fuel: nat, g: Game, color: Color, piece: Piece, s: Pos, j: nat): (bool, Board)
    requires j <= 64
    decreases fuel, 7, 64 - j
  {
    if j == 64 then (false, g.board)
    else
      var (escaped, b1) := Trial(fuel, g, color, piece, s, SquareOf(j));
      if escaped then (true, b1) else TrialScan(fuel, g.(board := b1), color, piece, s, j + 1)
  }

  // ---------------------------------------------------------------------
  // The initial position and the move executor

  const BackRank: seq<Kind> := [Rook, Knight, Bishop, Queen, King, Bishop, Knight, Rook]

  /** The content of square (x, y) in the initial position. */
  function InitialCell(x: int, y: int): Option<Piece>
  {
    if !(0 <= y < 8) then None
    else if x == 0 then Some(Piece(BackRank[y], Black))
    else if x == 1 then Some(Piece(Pawn, Black))
    else if x == 6 then Some(Piece(Pawn, White))
    else if x == 7 then Some(Piece(BackRank[y], White))
    else None
  }

  function InitialBoard(): Board
  {
    seq(8, x => seq(8, y => InitialCell(x, y)))
  }

  /** A new game: initial board, White to move, empty log, kings on their
      home squares, no en-passant target. */
  function InitialGame(): Game
  {
    Game(InitialBoard(), White, [], KingIndex(Pos(7, 4), Pos(0, 4)), None)
  }

  /** The depth given to the castling/check recursion by the executor. */
  const Depth: nat := 32

  datatype MoveError = NoPieceAtStart | NotYourTurn | InvalidMove

  /** What an accepted move announces: nothing, or "Checkmate! <winner> wins". */
  datatype Outcome = Continue | Checkmate(winner: Color)

  datatype MoveResult = Moved(outcome: Outcome) | Refused(error: MoveError)

  /** The bookkeeping of an accepted move on a validated game: move the
      piece, log it, update the king index, take en passant, promote, set the
      en-passant target and pass the turn. */
  function Apply(g: Game, p: Piece, s: Pos, e: Pos): Game
  {
    var moved := Put(Put(g.board, e, Some(p)), s, None);
    var captured :=
      if p.kind == Pawn && g.enPassant == Some(e) then Put(moved, Pos(s.x, e.y), None) else moved;
    var promoted :=
      if p.kind == Pawn && (e.x == 0 || e.x == 7) then Put(captured, e, Some(Piece(Queen, p.color)))
      else captured;
    Game(promoted,
         Opponent(g.turn),
         g.log + [Entry(s, e, Label(p))],
         if p.kind == King then g.kings.With(p.color, e) else g.kings,
         if p.kind == Pawn && Abs(e.x - s.x) == 2 then Some(Pos(s.x + (e.x - s.x) / 2, s.y)) else None)
  }

  /** move_piece: the game after the call and what the call reports. A
      refused move can still leave a board changed by a castling test. */
  function Submit(g: Game, s: Pos, e: Pos): (Game, MoveResult)
  {
    Play(Depth, g, s, e)
  }

  /** move_piece with the castling/check recursion bounded by `fuel`. */
  function Play(fuel: nat, g: Game, s: Pos, e: Pos): (Game, MoveResult)
  {
    var piece := At(g.board, s);
    if piece.None? then (g, Refused(NoPieceAtStart))
    else if piece.value.color != g.turn then (g, Refused(NotYourTurn))
    else
      var (valid, b1) := ValidMove(fuel, g, piece.value, s, e);
      if !valid then (g.(board := b1), Refused(InvalidMove))
      else
        var next := Apply(g.(board := b1), piece.value, s, e);
        var (mate, b2) := InCheckmate(fuel, next, Opponent(next.turn));
        (next.(board := b2), Moved(if mate then Checkmate(next.turn) else Continue))
  }
}
