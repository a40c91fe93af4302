/** ChessGame: the mutable game object. Its fields are the five pieces of
    state; its methods are the source's loops and updates, each proved to
    produce what the functions of module Rules describe. */
module Engine {
  import opened Pieces
  import opened Rules
  import opened PieceRules

  /** initialize_board: an empty 8x8 grid, then the pawn rows, then the
      back ranks from the placement list. */
  method InitializeBoard() returns (board: Board)
    ensures board == InitialBoard()
  {
    board := seq(8, _ => seq(8, _ => None));
    for i := 0 to 8
      invariant IsGrid(board)
      invariant forall x, y :: 0 <= x < 8 && 0 <= y < 8 ==>
        board[x][y] == if (x == 1 || x == 6) && y < i then InitialCell(x, y) else None
    {
      board := Put(board, Pos(1, i), Some(Piece(Pawn, Black)));
      board := Put(board, Pos(6, i), Some(Piece(Pawn, White)));
    }
    var placement := [Rook, Knight, Bishop, Queen, King, Bishop, Knight, Rook];
    for i := 0 to 8
      invariant IsGrid(board)
      invariant forall x, y :: 0 <= x < 8 && 0 <= y < 8 ==>
        board[x][y] == if x == 1 || x == 6 || ((x == 0 || x == 7) && y < i) then InitialCell(x, y) else None
    {
      board := Put(board, Pos(0, i), Some(Piece(placement[i], Black)));
      board := Put(board, Pos(7, i), Some(Piece(placement[i], White)));
    }
    assert forall x | 0 <= x < 8 :: board[x] == InitialBoard()[x];
  }

  class ChessGame {
    var board: Board
    var turn: Color
    var moveLog: seq<Entry>
    var kings: KingIndex
    var enPassant: Option<Pos>

    /** The grid is 8x8 and both recorded king squares are on it. */
    ghost predicate Valid()
      reads this
    {
      IsGrid(board) && OnBoard(kings.white) && OnBoard(kings.black)
    }

    /** The game as a value. */
    function State(): Game
      reads this
    {
      Game(board, turn, moveLog, kings, enPassant)
    }

    constructor ()
      ensures Valid() && State() == InitialGame()
    {
      var initial := InitializeBoard();
      board := initial;
      turn := White;
      moveLog := [];
      kings := KingIndex(Pos(7, 4), Pos(0, 4));
      enPassant := None;
    }

    /** The loop of is_path_clear along row `x`: the columns from `y0`
        (= start + step) up to, not including, `stop`. */
    method ScanRow(x: int, y0: int, stop: int, step: int) returns (clear: bool)
      requires Valid() && 0 <= x < 8 && (step == 1 || step == -1)
      requires 0 <= y0 - step < 8 && 0 <= stop < 8
      requires step == 1 ==> y0 - 1 < stop
      requires step == -1 ==> y0 + 1 >= stop
      ensures clear == EmptyRun(board, Pos(x, y0), 0, step, Gap(y0 - step, stop))
    {
      ghost var n := Gap(y0 - step, stop);
      var y := y0;
      ghost var k: nat := 0;
      while (step == 1 && y < stop) || (step == -1 && y > stop)
        invariant k <= n && y == y0 + step * k
        invariant EmptyRun(board, Pos(x, y0), 0, step, n) == EmptyRun(board, Pos(x, y), 0, step, n - k)
        decreases n - k
      {
        if board[x][y].Some? {
          return false;
        }
        y, k := y + step, k + 1;
      }
      return true;
    }

    /** The loop of is_path_clear along column `y`. */
    method ScanColumn(y: int, x0: int, stop: int, step: int) returns (clear: bool)
      requires Valid() && 0 <= y < 8 && (step == 1 || step == -1)
      requires 0 <= x0 - step < 8 && 0 <= stop < 8
      requires step == 1 ==> x0 - 1 < stop
      requires step == -1 ==> x0 + 1 > stop
      ensures clear == EmptyRun(board, Pos(x0, y), step, 0, Gap(x0 - step, stop))
    {
      ghost var n := Gap(x0 - step, stop);
      var x := x0;
      ghost var k: nat := 0;
      while (step == 1 && x < stop) || (step == -1 && x > stop)
        invariant k <= n && x == x0 + step * k
        invariant EmptyRun(board, Pos(x0, y), step, 0, n) == EmptyRun(board, Pos(x, y), step, 0, n - k)
        decreases n - k
      {
        if board[x][y].Some? {
          return false;
        }
        x, k := x + step, k + 1;
      }
      return true;
    }

    /** The diagonal loop of is_path_clear: it runs until either coordinate
        reaches its end. */
    method ScanDiagonal(s: Pos, e: Pos) returns (clear: bool)
      requires Valid() && OnBoard(s) && OnBoard(e) && s.x != e.x && s.y != e.y
      ensures clear == forall q :: OnRay(s, Step(s.x, e.x), Step(s.y, e.y), Min(Gap(s.x, e.x), Gap(s.y, e.y)), q) ==>
                                   At(board, q).None?
    {
      var stepX, stepY := Step(s.x, e.x), Step(s.y, e.y);
      var x, y := s.x + stepX, s.y + stepY;
      ghost var n := Min(Gap(s.x, e.x), Gap(s.y, e.y));
      ghost var k: nat := 0;
      while x != e.x && y != e.y
        invariant k <= n
        invariant if stepX == 1 then x == s.x + 1 + k else x == s.x - 1 - k
        invariant if stepY == 1 then y == s.y + 1 + k else y == s.y - 1 - k
        invariant forall q :: OnRay(s, stepX, stepY, k, q) ==> At(board, q).None?
        decreases n - k
      {
        if board[x][y].Some? {
          assert OnRay(s, stepX, stepY, n, Pos(x, y));
          return false;
        }
        x, y, k := x + stepX, y + stepY, k + 1;
      }
      return true;
    }

    /** is_path_clear: scan the squares between, then test the destination. */
    method IsPathClear(s: Pos, e: Pos) returns (clear: bool)
      requires Valid() && OnBoard(s) && OnBoard(e)
      ensures clear == PathClear(board, s, e)
    {
      if s.x == e.x {
        clear := ScanRow(s.x, s.y + Step(s.y, e.y), e.y, Step(s.y, e.y));
      } else if s.y == e.y {
        clear := ScanColumn(s.y, s.x + Step(s.x, e.x), e.x, Step(s.x, e.x));
      } else {
        clear := ScanDiagonal(s, e);
        DiagonalRun(board, s, Step(s.x, e.x), Step(s.y, e.y), Min(Gap(s.x, e.x), Gap(s.y, e.y)));
      }
      if clear {
        var dest, start := board[e.x][e.y], board[s.x][s.y];
        clear := dest.None? || start.None? || dest.value.color != start.value.color;
      }
    }

    method IsValidBishopMove(s: Pos, e: Pos) returns (ok: bool)
      requires Valid() && OnBoard(s) && OnBoard(e)
      ensures ok == BishopMove(board, s, e)
    {
      ok := false;
      if Abs(e.x - s.x) == Abs(e.y - s.y) {
        ok := IsPathClear(s, e);
      }
    }

    method IsValidRookMove(s: Pos, e: Pos) returns (ok: bool)
      requires Valid() && OnBoard(s) && OnBoard(e)
      ensures ok == RookMove(board, s, e)
    {
      ok := false;
      if s.x == e.x || s.y == e.y {
        ok := IsPathClear(s, e);
      }
    }

    /** is_valid_move: dispatch on the piece's kind. */
    method IsValidMove(fuel: nat, piece: Piece, s: Pos, e: Pos) returns (ok: bool)
      requires Valid() && OnBoard(s) && OnBoard(e)
      modifies this`board
      ensures Valid()
      ensures (ok, board) == ValidMove(fuel, old(State()), piece, s, e)
      decreases fuel, 2, 0
    {
      match piece.kind
      case Pawn =>
        ok := PawnMove(State(), piece, s, e);
      case Knight =>
        ok := KnightMove(s, e);
      case Bishop =>
        ok := IsValidBishopMove(s, e);
      case Rook =>
        ok := IsValidRookMove(s, e);
      case Queen =>
        ok := IsValidRookMove(s, e);
        if !ok {
          ok := IsValidBishopMove(s, e);
        }
      case King =>
        ok := KingStep(s, e);
        if !ok {
          ok := IsValidCastling(fuel, piece, s, e);
        }
    }

    /** is_valid_castling; on success it moves the rook next to the king's
        path. At depth 0 it gives up before the check tests. */
    method IsValidCastling(fuel: nat, piece: Piece, s: Pos, e: Pos) returns (ok: bool)
      requires Valid() && OnBoard(s) && OnBoard(e)
      modifies this`board
      ensures Valid()
      ensures (ok, board) == ValidCastling(fuel, old(State()), piece, s, e)
      decreases fuel, 1, 0
    {
      if piece.kind != King || s.y != 4 || !(s.x == 0 || s.x == 7) {
        return false;
      }
      if Abs(e.y - s.y) == 2 && s.x == e.x {
        var rookY := RookColumn(s, e);
        var rook := board[s.x][rookY];
        if rook.Some? && rook.value.kind == Rook && rook.value.color == piece.color {
          if EmptyRun(board, Pos(s.x, Min(s.y, e.y) + 1), 0, 1, Gap(s.y, e.y)) {
            if fuel == 0 {
              return false;
            }
            var check := IsInCheck(fuel - 1, piece.color);
            if !check {
              var through := IsCastleThroughCheck(fuel - 1, s, e);
              if !through {
                board := Put(board, Pos(s.x, (s.y + e.y) / 2), rook);
                board := Put(board, Pos(s.x, rookY), None);
                return true;
              }
            }
          }
        }
      }
      return false;
    }

    /** is_castle_through_check: the attacker is the opponent of `turn`. */
    method IsCastleThroughCheck(fuel: nat, s: Pos, e: Pos) returns (through: bool)
      requires Valid() && OnBoard(s) && OnBoard(e)
      modifies this`board
      ensures Valid()
      ensures (through, board) == CastleThroughCheck(fuel, old(State()), s, e)
      decreases fuel, 5, 0
    {
      var attacker := Opponent(turn);
      through := IsAttacked(fuel, Pos(s.x, (s.y + e.y) / 2), attacker);
      if !through {
        through := IsAttacked(fuel, e, attacker);
      }
    }

    /** is_in_check: the recorded king square is attacked. */
    method IsInCheck(fuel: nat, color: Color) returns (check: bool)
      requires Valid()
      modifies this`board
      ensures Valid()
      ensures (check, board) == InCheck(fuel, old(State()), color)
      decreases fuel, 5, 0
    {
      check := IsAttacked(fuel, kings.Of(color), Opponent(color));
    }

    /** find_king: the first square, in row-major order, holding the king
        of `color`; None where the source raises "King not found". */
    method FindKing(color: Color) returns (found: Option<Pos>)
      requires Valid()
      ensures found.Some? ==> OnBoard(found.value) && At(board, found.value) == Some(Piece(King, color))
      ensures found.Some? ==> forall q :: OnBoard(q) && RowMajorBefore(q, found.value) ==>
                                At(board, q) != Some(Piece(King, color))
      ensures found.None? <==> forall p :: OnBoard(p) ==> At(board, p) != Some(Piece(King, color))
    {
      for x := 0 to 8
        invariant forall q :: OnBoard(q) && q.x < x ==> At(board, q) != Some(Piece(King, color))
      {
        for y := 0 to 8
          invariant forall q :: OnBoard(q) && RowMajorBefore(q, Pos(x, y)) ==> At(board, q) != Some(Piece(King, color))
        {
          var piece := board[x][y];
          if piece.Some? && piece.value.kind == King && piece.value.color == color {
            return Some(Pos(x, y));
          }
        }
      }
      return None;
    }

    /** is_attacked: a row-major scan of the attacker's pieces. */
    method IsAttacked(fuel: nat, pos: Pos, attacker: Color) returns (hit: bool)
      requires Valid() && OnBoard(pos)
      modifies this`board
      ensures Valid()
      ensures (hit, board) == Attacked(fuel, old(State()), pos, attacker)
      decreases fuel, 4, 1
    {
      ghost var g0 := State();
      for x := 0 to 8
        invariant Valid() && State() == g0.(board := board)
        invariant Attacked(fuel, g0, pos, attacker) == AttackScan(fuel, State(), pos, attacker, 8 * x)
      {
        hit := AttackRow(fuel, x, pos, attacker);
        if hit {
          return;
        }
      }
      return false;
    }

    /** The inner loop of is_attacked over row `x`: either a hit, with the
        answer and board of the whole remaining scan, or the scan goes on
        from the next row. */
    method AttackRow(fuel: nat, x: int, pos: Pos, attacker: Color) returns (hit: bool)
      requires Valid() && OnBoard(pos) && 0 <= x < 8
      modifies this`board
      ensures Valid() && State() == old(State()).(board := board)
      ensures hit ==> (true, board) == AttackScan(fuel, old(State()), pos, attacker, 8 * x)
      ensures !hit ==> AttackScan(fuel, old(State()), pos, attacker, 8 * x)
                       == AttackScan(fuel, State(), pos, attacker, 8 * x + 8)
      decreases fuel, 4, 0
    {
      ghost var g0, i0 := State(), 8 * x;
      for y := 0 to 8
        invariant Valid() && State() == g0.(board := board)
        invariant AttackScan(fuel, g0, pos, attacker, i0) == AttackScan(fuel, State(), pos, attacker, i0 + y)
      {
        SquareIndex(x, y);
        hit := AttackFrom(fuel, Pos(x, y), i0 + y, pos, attacker);
        if hit {
          return;
        }
      }
      return false;
    }

    /** The body of the inner loop of is_attacked: whether the piece on `p`,
        the square of row-major index `i`, is one of the attacker's with a
        valid move to `pos`. */
    method AttackFrom(fuel: nat, p: Pos, ghost i: nat, pos: Pos, attacker: Color) returns (hit: bool)
      requires Valid() && OnBoard(p) && OnBoard(pos) && i < 64 && SquareOf(i) == p
      modifies this`board
      ensures Valid() && State() == old(State()).(board := board)
      ensures hit ==> (true, board) == AttackScan(fuel, old(State()), pos, attacker, i)
      ensures !hit ==> AttackScan(fuel, old(State()), pos, attacker, i)
                       == AttackScan(fuel, State(), pos, attacker, i + 1)
      decreases fuel, 3, 0
    {
      var piece := board[p.x][p.y];
      hit := false;
      if piece.Some? && piece.value.color == attacker {
        hit := IsValidMove(fuel, piece.value, p, pos);
      }
    }

    /** The body of the two inner loops of is_in_checkmate: when `piece`
        may go from `s` to `e`, play it, test `color` for check, and undo. */
    method TryMove(fuel: nat, color: Color, piece: Piece, s: Pos, e: Pos) returns (escaped: bool)
      requires Valid() && OnBoard(s) && OnBoard(e)
      modifies this`board
      ensures Valid()
      ensures (escaped, board) == Trial(fuel, old(State()), color, piece, s, e)
      decreases fuel, 6, 0
    {
      var valid := IsValidMove(fuel, piece, s, e);
      escaped := false;
      if valid {
        var target := board[e.x][e.y];
        board := Put(board, e, Some(piece));
        board := Put(board, s, None);
        var check := IsInCheck(fuel, color);
        board := Put(board, s, Some(piece));
        board := Put(board, e, target);
        escaped := !check;
      }
    }

    /** The two inner loops of is_in_checkmate for the piece on `s`; true
        as soon as a trial leaves `color` out of check. */
    method TryMoves(fuel: nat, color: Color, piece: Piece, s: Pos) returns (escaped: bool)
      requires Valid() && OnBoard(s)
      modifies this`board
      ensures Valid()
      ensures (escaped, board) == TrialScan(fuel, old(State()), color, piece, s, 0)
      decreases fuel, 7, 1
    {
      ghost var g0 := State();
      for ex := 0 to 8
        invariant Valid() && State() == g0.(board := board)
        invariant TrialScan(fuel, g0, color, piece, s, 0) == TrialScan(fuel, State(), color, piece, s, 8 * ex)
      {
        escaped := TrialRow(fuel, color, piece, s, ex);
        if escaped {
          return;
        }
      }
      return false;
    }

    /** The innermost loop of is_in_checkmate: the destinations on row `ex`. */
    method TrialRow(fuel: nat, color: Color, piece: Piece, s: Pos, ex: int) returns (escaped: bool)
      requires Valid() && OnBoard(s) && 0 <= ex < 8
      modifies this`board
      ensures Valid() && State() == old(State()).(board := board)
      ensures escaped ==> (true, board) == TrialScan(fuel, old(State()), color, piece, s, 8 * ex)
      ensures !escaped ==> TrialScan(fuel, old(State()), color, piece, s, 8 * ex)
                           == TrialScan(fuel, State(), color, piece, s, 8 * ex + 8)
      decreases fuel, 7, 0
    {
      ghost var g0, j0 := State(), 8 * ex;
      for ey := 0 to 8
        invariant Valid() && State() == g0.(board := board)
        invariant TrialScan(fuel, g0, color, piece, s, j0) == TrialScan(fuel, State(), color, piece, s, j0 + ey)
      {
        SquareIndex(ex, ey);
        escaped := TryMove(fuel, color, piece, s, Pos(ex, ey));
        if escaped {
          return;
        }
      }
      return false;
    }

    /** The body of the two outer loops of is_in_checkmate: the trials of
        the piece on `s`, if it is one of `color`'s. */
    method TrySquare(fuel: nat, color: Color, s: Pos) returns (escaped: bool)
      requires Valid() && OnBoard(s)
      modifies this`board
      ensures Valid()
      ensures (escaped, board) == SquareEscapes(fuel, old(State()), color, s)
      decreases fuel, 8, 0
    {
      var piece := board[s.x][s.y];
      escaped := false;
      if piece.Some? && piece.value.color == color {
        escaped := TryMoves(fuel, color, piece.value, s);
      }
    }

    /** is_in_checkmate: try every valid move of every piece of `color`;
        checkmate unless one of them leaves `color` out of check. */
    method IsInCheckmate(fuel: nat, color: Color) returns (mate: bool)
      requires Valid()
      modifies this`board
      ensures Valid()
      ensures (mate, board) == InCheckmate(fuel, old(State()), color)
      decreases fuel, 9, 1
    {
      ghost var g0 := State();
      for x := 0 to 8
        invariant Valid() && State() == g0.(board := board)
        invariant InCheckmate(fuel, g0, color) == MateScan(fuel, State(), color, 8 * x)
      {
        var escaped := MateRow(fuel, color, x);
        if escaped {
          return false;
        }
      }
      return true;
    }

    /** The second loop of is_in_checkmate: the start squares on row `x`. */
    method MateRow(fuel: nat, color: Color, x: int) returns (escaped: bool)
      requires Valid() && 0 <= x < 8
      modifies this`board
      ensures Valid() && State() == old(State()).(board := board)
      ensures escaped ==> (false, board) == MateScan(fuel, old(State()), color, 8 * x)
      ensures !escaped ==> MateScan(fuel, old(State()), color, 8 * x) == MateScan(fuel, State(), color, 8 * x + 8)
      decreases fuel, 9, 0
    {
      ghost var g0, i0 := State(), 8 * x;
      for y := 0 to 8
        invariant Valid() && State() == g0.(board := board)
        invariant MateScan(fuel, g0, color, i0) == MateScan(fuel, State(), color, i0 + y)
      {
        SquareIndex(x, y);
        escaped := TrySquare(fuel, color, Pos(x, y));
        if escaped {
          return;
        }
      }
      return false;
    }

    /** The bookkeeping of move_piece once the move is known to be valid:
        move the piece, log it, update the king index, take en passant,
        promote, set the en-passant target and pass the turn. */
    method Commit(p: Piece, s: Pos, e: Pos)
      requires Valid() && OnBoard(s) && OnBoard(e)
      modifies this
      ensures Valid()
      ensures State() == Apply(old(State()), p, s, e)
    {
      var b := Put(Put(board, e, Some(p)), s, None);
      moveLog := moveLog + [Entry(s, e, Label(p))];
      if p.kind == King {
        kings := kings.With(p.color, e);
      }
      if p.kind == Pawn && enPassant == Some(e) {
        b := Put(b, Pos(s.x, e.y), None);
        enPassant := None;
      }
      if p.kind == Pawn && (e.x == 0 || e.x == 7) {
        b := Put(b, e, Some(Piece(Queen, p.color)));
      }
      if p.kind == Pawn && Abs(e.x - s.x) == 2 {
        enPassant := Some(Pos(s.x + (e.x - s.x) / 2, s.y));
      } else {
        enPassant := None;
      }
      turn := Opponent(turn);
      board := b;
    }

    /** move_piece: refuse an empty start, a piece of the wrong colour or an
        invalid move; otherwise commit the move and test for checkmate the
        side that has just moved. */
    method MovePiece(s: Pos, e: Pos) returns (r: MoveResult)
      requires Valid() && OnBoard(s) && OnBoard(e)
      modifies this
      ensures Valid()
      ensures (State(), r) == Submit(old(State()), s, e)
    {
      var piece := board[s.x][s.y];
      if piece.None? {
        return Refused(NoPieceAtStart);
      }
      if piece.value.color != turn {
        return Refused(NotYourTurn);
      }
      var valid := IsValidMove(Depth, piece.value, s, e);
      if !valid {
        return Refused(InvalidMove);
      }
      Commit(piece.value, s, e);
      var mate := IsInCheckmate(Depth, Opponent(turn));
      r := Moved(if mate then Checkmate(turn) else Continue);
    }
  }
}
