/** What the per-piece validators of ChessGame accept, stated against
    independent definitions: distance pairs for the knight and the king, the
    squares strictly between two squares for the sliding pieces, and one
    colour-generic rule for the pawn. */
module PieceRules {
  import opened Pieces
  import opened Rules

  /** `q` lies strictly between `a` and `b` on the number line. */
  predicate Inside(a: int, q: int, b: int)
  {
    Min(a, b) < q < Max(a, b)
  }

  /** `q` lies strictly between `s` and `e` on their common row, column or
      diagonal. */
  predicate Between(s: Pos, e: Pos, q: Pos)
  {
    if s.x == e.x then q.x == s.x && Inside(s.y, q.y, e.y)
    else if s.y == e.y then q.y == s.y && Inside(s.x, q.x, e.x)
    else Inside(s.x, q.x, e.x) && Inside(s.y, q.y, e.y) && Abs(q.x - s.x) == Abs(q.y - s.y)
  }

  /** `s` and `e` share a row, a column or a diagonal. */
  predicate Aligned(s: Pos, e: Pos)
  {
    s.x == e.x || s.y == e.y || Abs(e.x - s.x) == Abs(e.y - s.y)
  }

  /** `q` is one of the `n` squares p, p + (dx, dy), ..., p + (n - 1)(dx, dy). */
  predicate InRun(p: Pos, dx: int, dy: int, n: nat, q: Pos)
    decreases n
  {
    n > 0 && (q == p || InRun(Pos(p.x + dx, p.y + dy), dx, dy, n - 1, q))
  }

  /** How many unit steps in direction `d` lead from `a` to `b`. */
  function Offset(a: int, b: int, d: int): int
  {
    if d == 1 then b - a else if d == -1 then a - b else 0
  }

  /** `k` unit steps in direction `d`. */
  function Shift(d: int, k: int): int
  {
    if d == 1 then k else if d == -1 then -k else 0
  }

  lemma {:induction false} EmptyRunAll(b: Board, p: Pos, dx: int, dy: int, n: nat)
    ensures EmptyRun(b, p, dx, dy, n) <==> forall q :: InRun(p, dx, dy, n, q) ==> At(b, q).None?
    decreases n
  {
    if n > 0 {
      EmptyRunAll(b, Pos(p.x + dx, p.y + dy), dx, dy, n - 1);
    }
  }

  /** The squares of a run, by coordinates. */
  lemma {:induction false} InRunCoordinates(p: Pos, dx: int, dy: int, n: nat, q: Pos)
    requires -1 <= dx <= 1 && -1 <= dy <= 1
    ensures InRun(p, dx, dy, n, q) <==>
      if dx != 0 then 0 <= Offset(p.x, q.x, dx) < n && q.y == p.y + Shift(dy, Offset(p.x, q.x, dx))
      else if dy != 0 then 0 <= Offset(p.y, q.y, dy) < n && q.x == p.x
      else n > 0 && q == p
    decreases n
  {
    if n > 0 {
      InRunCoordinates(Pos(p.x + dx, p.y + dy), dx, dy, n - 1, q);
    }
  }

  /** `q` is one of the first `n` squares beyond `s` in the diagonal
      direction (dx, dy), both components being 1 or -1. */
  predicate OnRay(s: Pos, dx: int, dy: int, n: int, q: Pos)
  {
    var d := if dx == 1 then q.x - s.x else s.x - q.x;
    1 <= d <= n && q.y - s.y == (if dy == 1 then d else -d)
  }

  /** The diagonal scan of is_path_clear by coordinates: the run of `n`
      squares after `s` is empty exactly when every square on that ray is. */
  lemma DiagonalRun(b: Board, s: Pos, dx: int, dy: int, n: nat)
    requires (dx == 1 || dx == -1) && (dy == 1 || dy == -1)
    ensures EmptyRun(b, Pos(s.x + dx, s.y + dy), dx, dy, n) <==>
              forall q :: OnRay(s, dx, dy, n, q) ==> At(b, q).None?
  {
    var p := Pos(s.x + dx, s.y + dy);
    EmptyRunAll(b, p, dx, dy, n);
    forall q
      ensures InRun(p, dx, dy, n, q) <==> OnRay(s, dx, dy, n, q)
    {
      InRunCoordinates(p, dx, dy, n, q);
    }
  }

  /** is_path_clear on a row, a column or a diagonal: every square strictly
      between is empty, and the destination is empty or of the other colour. */
  lemma PathClearBetween(b: Board, s: Pos, e: Pos)
    requires Aligned(s, e)
    ensures PathClear(b, s, e) <==>
              (forall q :: Between(s, e, q) ==> At(b, q).None?) && DestinationFree(b, s, e)
  {
    var dx := if s.x == e.x then 0 else Step(s.x, e.x);
    var dy := if s.x != e.x && s.y == e.y then 0 else Step(s.y, e.y);
    var p := Pos(s.x + dx, s.y + dy);
    var n := if s.x == e.x then Gap(s.y, e.y)
             else if s.y == e.y then Gap(s.x, e.x)
             else Min(Gap(s.x, e.x), Gap(s.y, e.y));
    EmptyRunAll(b, p, dx, dy, n);
    forall q
      ensures InRun(p, dx, dy, n, q) <==> Between(s, e, q)
    {
      InRunCoordinates(p, dx, dy, n, q);
    }
  }

  /** The geometry each sliding piece needs before the path is scanned. */
  predicate SliderShape(k: Kind, s: Pos, e: Pos)
  {
    match k
    case Bishop => Abs(e.x - s.x) == Abs(e.y - s.y)
    case Rook => s.x == e.x || s.y == e.y
    case Queen => s.x == e.x || s.y == e.y || Abs(e.x - s.x) == Abs(e.y - s.y)
    case _ => false
  }

  /** Bishop, rook and queen: valid exactly when the geometry fits, no
      square strictly between is occupied, and the destination is empty or
      holds a piece of another colour than the start square's; the board is
      not touched. */
  lemma SliderRule(fuel: nat, g: Game, piece: Piece, s: Pos, e: Pos)
    requires piece.kind == Bishop || piece.kind == Rook || piece.kind == Queen
    ensures ValidMove(fuel, g, piece, s, e).1 == g.board
    ensures ValidMove(fuel, g, piece, s, e).0 <==>
              SliderShape(piece.kind, s, e) &&
              (forall q :: Between(s, e, q) ==> At(g.board, q).None?) &&
              DestinationFree(g.board, s, e)
  {
    if Aligned(s, e) {
      PathClearBetween(g.board, s, e);
    }
  }

  /** A knight move is valid exactly for the distance pairs (2, 1) and
      (1, 2), whatever the board holds, and leaves the board alone. */
  lemma KnightRule(fuel: nat, g: Game, piece: Piece, s: Pos, e: Pos)
    requires piece.kind == Knight
    ensures ValidMove(fuel, g, piece, s, e) ==
              (var dx, dy := e.x - s.x, e.y - s.y;
               ((dx == 2 || dx == -2) && (dy == 1 || dy == -1)) ||
               ((dx == 1 || dx == -1) && (dy == 2 || dy == -2)), g.board)
  {
  }

  /** Away from the two-column moves along a row that castling handles, a
      king move is valid exactly when both distances are at most one and not
      both zero; occupancy and check are not looked at. */
  lemma KingStepRule(fuel: nat, g: Game, piece: Piece, s: Pos, e: Pos)
    requires piece.kind == King
    requires !(s.x == e.x && Abs(e.y - s.y) == 2)
    ensures ValidMove(fuel, g, piece, s, e) ==
              (-1 <= e.x - s.x <= 1 && -1 <= e.y - s.y <= 1 && e != s, g.board)
  {
  }

  /** The row a pawn of colour `c` moves toward, one step at a time. */
  function Forward(c: Color): int
  {
    if c == White then -1 else 1
  }

  /** The row the pawns of colour `c` start on. */
  function HomeRow(c: Color): int
  {
    if c == White then 6 else 1
  }

  /** The pawn rule for either colour: one step forward onto an empty
      square; two steps from the home row when the destination is empty (the
      square passed over is not looked at); one step diagonally forward onto
      a piece of the other colour or onto the en-passant target. */
  lemma PawnRule(fuel: nat, g: Game, piece: Piece, s: Pos, e: Pos)
    requires piece.kind == Pawn
    ensures ValidMove(fuel, g, piece, s, e) ==
              (var c, b := piece.color, g.board;
               (s.y == e.y && At(b, e).None? &&
                (e.x == s.x + Forward(c) || (s.x == HomeRow(c) && e.x == s.x + 2 * Forward(c)))) ||
               (e.x == s.x + Forward(c) && Abs(e.y - s.y) == 1 &&
                ((At(b, e).Some? && At(b, e).value.color == Opponent(c)) || g.enPassant == Some(e))),
               g.board)
  {
  }

  /** Three or more rows away, a square is out of reach of pawns, knights
      and kings (castling included), of bishops off its diagonals and of
      rooks off its column; a queen needs one of the two lines. */
  lemma OutOfReach(fuel: nat, g: Game, piece: Piece, s: Pos, e: Pos)
    requires Abs(e.x - s.x) >= 3
    requires piece.kind == Bishop || piece.kind == Queen ==> Abs(e.x - s.x) != Abs(e.y - s.y)
    requires piece.kind == Rook || piece.kind == Queen ==> s.y != e.y
    ensures !ValidMove(fuel, g, piece, s, e).0
  {
    match piece.kind
    case Pawn => PawnRule(fuel, g, piece, s, e);
    case Knight => KnightRule(fuel, g, piece, s, e);
    case King => KingStepRule(fuel, g, piece, s, e);
    case _ => SliderRule(fuel, g, piece, s, e);
  }

  /** A valid move of the piece standing on `s` never ends on `s`. */
  lemma ValidMoveLeaves(fuel: nat, g: Game, piece: Piece, s: Pos, e: Pos)
    requires At(g.board, s) == Some(piece)
    requires ValidMove(fuel, g, piece, s, e).0
    ensures s != e
  {
  }
}
