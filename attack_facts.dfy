/** When the attack, check and castling queries leave the board alone, what
    they then answer, and exactly when castling is accepted. */
module AttackFacts {
  import opened Pieces
  import opened Rules

  /** A king of `col` stands on column 4 of `pos`'s back rank and `pos` is
      two columns away from it: the only set-up in which asking whether `col`
      attacks `pos` runs a castling test that can move a rook. */
  predicate CastlingOnto(b: Board, pos: Pos, col: Color)
  {
    (pos.x == 0 || pos.x == 7) && Abs(pos.y - 4) == 2 &&
    At(b, Pos(pos.x, 4)) == Some(Piece(King, col))
  }

  /** A query about `color`'s king cannot move a rook: the recorded king
      square is not a castling destination of the opposing king. */
  predicate Quiet(g: Game, color: Color)
  {
    !CastlingOnto(g.board, g.kings.Of(color), Opponent(color))
  }

  /** The square `p` holds a piece of `col` with a valid move to `pos`. */
  predicate AttackerAt(fuel: nat, g: Game, col: Color, p: Pos, pos: Pos)
  {
    At(g.board, p).Some? && At(g.board, p).value.color == col &&
    ValidMove(fuel, g, At(g.board, p).value, p, pos).0
  }

  /** Some square of row-major index `i` or later satisfies `P`. */
  ghost predicate SomeSquareFrom(P: Pos -> bool, i: nat)
    decreases 64 - i
  {
    i < 64 && (P(SquareOf(i)) || SomeSquareFrom(P, i + 1))
  }

  lemma {:induction false} SomeSquareIndex(P: Pos -> bool, i: nat)
    requires i <= 64
    ensures SomeSquareFrom(P, i) <==> exists j :: i <= j < 64 && P(SquareOf(j))
    decreases 64 - i
  {
    if i < 64 {
      SomeSquareIndex(P, i + 1);
    }
  }

  /** A row-major search from index 0 searches the whole board. */
  lemma SomeSquare(P: Pos -> bool)
    ensures SomeSquareFrom(P, 0) <==> exists p :: OnBoard(p) && P(p)
  {
    SomeSquareIndex(P, 0);
    if exists j :: 0 <= j < 64 && P(SquareOf(j)) {
      var j :| 0 <= j < 64 && P(SquareOf(j));
      SquareOnBoard(j);
    }
    if exists p :: OnBoard(p) && P(p) {
      var p :| OnBoard(p) && P(p);
      SquareIndex(p.x, p.y);
    }
  }

  /** The second squares paired with `s` by `P`. */
  ghost function Slice(P: (Pos, Pos) -> bool, s: Pos): Pos -> bool
  {
    e => P(s, e)
  }

  /** The first squares of the pairs in `P`. */
  ghost function Firsts(P: (Pos, Pos) -> bool): Pos -> bool
  {
    s => SomeSquareFrom(Slice(P, s), 0)
  }

  /** Two nested row-major searches from index 0 search every pair of squares. */
  lemma SomePair(P: (Pos, Pos) -> bool)
    ensures SomeSquareFrom(Firsts(P), 0) <==> exists s, e :: OnBoard(s) && OnBoard(e) && P(s, e)
  {
    SomeSquare(Firsts(P));
    if exists s, e :: OnBoard(s) && OnBoard(e) && P(s, e) {
      var s, e :| OnBoard(s) && OnBoard(e) && P(s, e);
      SomeSquare(Slice(P, s));
      assert Firsts(P)(s);
    }
    if exists s :: OnBoard(s) && Firsts(P)(s) {
      var s :| OnBoard(s) && Firsts(P)(s);
      SomeSquare(Slice(P, s));
    }
  }

  /** The squares holding a piece of `col` with a valid move to `pos`. */
  ghost function Attackers(fuel: nat, g: Game, col: Color, pos: Pos): Pos -> bool
  {
    p => AttackerAt(fuel, g, col, p, pos)
  }

  /** Only a castling test can change the board during validation. */
  lemma ValidMoveFrame(fuel: nat, g: Game, piece: Piece, s: Pos, e: Pos)
    ensures ValidMove(fuel, g, piece, s, e).1 != g.board ==>
              fuel > 0 && CastlingShape(g.board, piece, s, e)
  {
    if piece.kind == King && !KingStep(s, e) && (fuel == 0 || !CastlingShape(g.board, piece, s, e)) {
      assert ValidCastling(fuel, g, piece, s, e) == (false, g.board);
    }
  }

  lemma {:induction false} AttackScanQuiet(fuel: nat, g: Game, pos: Pos, col: Color, i: nat)
    requires i <= 64
    requires !CastlingOnto(g.board, pos, col)
    ensures AttackScan(fuel, g, pos, col, i) == (SomeSquareFrom(Attackers(fuel, g, col, pos), i), g.board)
    decreases 64 - i
  {
    if i < 64 {
      AttackScanQuiet(fuel, g, pos, col, i + 1);
      var piece := At(g.board, SquareOf(i));
      if piece.Some? && piece.value.color == col {
        ValidMoveFrame(fuel, g, piece.value, SquareOf(i), pos);
        assert ValidMove(fuel, g, piece.value, SquareOf(i), pos).1 == g.board;
        assert g.(board := g.board) == g;
      }
    }
  }

  /** is_attacked, when no castling can interfere: true exactly when some
      square of the board holds a piece of `col` with a valid move to
      `pos`; the board is not touched. */
  lemma AttackedQuiet(fuel: nat, g: Game, pos: Pos, col: Color)
    requires !CastlingOnto(g.board, pos, col)
    ensures Attacked(fuel, g, pos, col) ==
              ((exists p :: OnBoard(p) && AttackerAt(fuel, g, col, p, pos)), g.board)
  {
    AttackScanQuiet(fuel, g, pos, col, 0);
    SomeSquare(Attackers(fuel, g, col, pos));
  }

  /** The board after a castling of the king on `s` to `e`: the rook of the
      corner on `e`'s side stands on the square the king passes, its corner
      is empty. (The king itself is moved by move_piece.) */
  function CastledBoard(b: Board, s: Pos, e: Pos): Board
  {
    var corner := Pos(s.x, RookColumn(s, e));
    Put(Put(b, Pos(s.x, (s.y + e.y) / 2), At(b, corner)), corner, None)
  }

  /** is_valid_castling for a king standing on `s`: accepted exactly when
      the set-up is right, the recursion has depth left, it is that king's
      side to move, and neither the recorded king square, nor the square the
      king passes, nor the destination is attacked by the other side; on
      acceptance the rook is moved, otherwise the board is left alone. A
      king of the side not to move can never castle: the test of the passed
      square then counts that king's own step as an attack. */
  lemma CastlingRule(fuel: nat, g: Game, king: Piece, s: Pos, e: Pos)
    requires At(g.board, s) == Some(king)
    requires Quiet(g, king.color)
    ensures ValidCastling(fuel, g, king, s, e) ==
              if CastlingShape(g.board, king, s, e) && fuel > 0 && king.color == g.turn &&
                 !InCheck(fuel - 1, g, king.color).0 &&
                 !Attacked(fuel - 1, g, Pos(s.x, (s.y + e.y) / 2), Opponent(king.color)).0 &&
                 !Attacked(fuel - 1, g, e, Opponent(king.color)).0
              then (true, CastledBoard(g.board, s, e))
              else (false, g.board)
  {
    if CastlingShape(g.board, king, s, e) && fuel > 0 {
      var b := g.board;
      var mid := Pos(s.x, (s.y + e.y) / 2);
      AttackedQuiet(fuel - 1, g, g.kings.Of(king.color), Opponent(king.color));
      assert g.(board := b) == g;
      assert !CastlingOnto(b, mid, Opponent(g.turn));
      AttackedQuiet(fuel - 1, g, mid, Opponent(g.turn));
      if king.color != g.turn {
        assert KingStep(s, mid);
        assert AttackerAt(fuel - 1, g, Opponent(g.turn), s, mid);
      } else {
        assert !CastlingOnto(b, e, Opponent(g.turn)) by {
          assert Pos(e.x, 4) == s;
        }
        AttackedQuiet(fuel - 1, g, e, Opponent(g.turn));
      }
    }
  }

  /** is_valid_move on the piece standing on `s`, when a king there is the
      one the index records: a refused move leaves the board alone, and an
      accepted one changes it only by a castling's rook move. */
  lemma ValidationEffect(fuel: nat, g: Game, piece: Piece, s: Pos, e: Pos)
    requires At(g.board, s) == Some(piece)
    requires piece.kind == King ==> g.kings.Of(piece.color) == s
    ensures !ValidMove(fuel, g, piece, s, e).0 ==> ValidMove(fuel, g, piece, s, e).1 == g.board
    ensures ValidMove(fuel, g, piece, s, e).0 ==>
              ValidMove(fuel, g, piece, s, e).1 ==
                if piece.kind == King && !KingStep(s, e) then CastledBoard(g.board, s, e) else g.board
  {
    if piece.kind == King && CastlingShape(g.board, piece, s, e) {
      CastlingRule(fuel, g, piece, s, e);
    } else {
      ValidMoveFrame(fuel, g, piece, s, e);
    }
  }
}
