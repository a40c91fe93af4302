/** What is_in_checkmate answers when its trials cannot trigger a castling:
    a side is mated exactly when none of its valid moves, played on the
    board with the king index left as it was, leaves its recorded king
    square unattacked; and every trial is undone. */
module MateFacts {
  import opened Pieces
  import opened Rules
  import opened AttackFacts
  import opened PieceRules

  /** Some piece of the other side has a valid move onto the recorded
      square of `color`'s king. */
  ghost predicate Threatened(fuel: nat, g: Game, color: Color)
  {
    exists p :: OnBoard(p) && AttackerAt(fuel, g, Opponent(color), p, g.kings.Of(color))
  }

  /** A piece of kind `k` on `q` is three or more rows from `pos` and off
      the lines its kind would need to reach `pos`. */
  predicate FarFrom(k: Kind, q: Pos, pos: Pos)
  {
    Abs(pos.x - q.x) >= 3 &&
    (k == Bishop || k == Queen ==> Abs(pos.x - q.x) != Abs(pos.y - q.y)) &&
    (k == Rook || k == Queen ==> q.y != pos.y)
  }

  /** Every piece of `col` on `b` is far from `pos`. */
  ghost predicate OutOfRange(b: Board, col: Color, pos: Pos)
  {
    forall q :: At(b, q).Some? && At(b, q).value.color == col ==> FarFrom(At(b, q).value.kind, q, pos)
  }

  /** A king whose recorded square is out of range of every opposing piece
      is not threatened, whatever the depth. */
  lemma NotThreatened(fuel: nat, g: Game, color: Color)
    requires OutOfRange(g.board, Opponent(color), g.kings.Of(color))
    ensures !Threatened(fuel, g, color)
  {
    var k := g.kings.Of(color);
    forall p | OnBoard(p) && At(g.board, p).Some? && At(g.board, p).value.color == Opponent(color)
      ensures !ValidMove(fuel, g, At(g.board, p).value, p, k).0
    {
      OutOfReach(fuel, g, At(g.board, p).value, p, k);
    }
  }

  /** The piece of `color` on `s` has a valid move to `e` after which, on
      the trial board, `color`'s recorded king square is not threatened. */
  ghost predicate Escape(fuel: nat, g: Game, color: Color, s: Pos, e: Pos)
  {
    At(g.board, s).Some? && At(g.board, s).value.color == color &&
    ValidMove(fuel, g, At(g.board, s).value, s, e).0 &&
    !Threatened(fuel, g.(board := TrialBoard(g.board, At(g.board, s).value, s, e)), color)
  }

  /** A valid move after which every opposing piece is out of range of the
      recorded king square is an escape. */
  lemma EscapeOutOfRange(fuel: nat, g: Game, color: Color, s: Pos, e: Pos)
    requires At(g.board, s).Some? && At(g.board, s).value.color == color
    requires ValidMove(fuel, g, At(g.board, s).value, s, e).0
    requires OutOfRange(TrialBoard(g.board, At(g.board, s).value, s, e), Opponent(color), g.kings.Of(color))
    ensures Escapes(fuel, g, color)(s, e)
  {
    NotThreatened(fuel, g.(board := TrialBoard(g.board, At(g.board, s).value, s, e)), color);
  }

  /** No king of `color` has the set-up for castling anywhere on `b`. */
  ghost predicate NoCastlingSetUp(b: Board, color: Color)
  {
    forall s, e :: !CastlingShape(b, Piece(King, color), s, e)
  }

  /** The conditions under which no trial can move a rook: the side tested
      cannot castle, because it is not the side to move or has no castling
      set-up, and its recorded king square is not a castling destination of
      the other king. */
  ghost predicate Settled(g: Game, color: Color)
  {
    IsGrid(g.board) && (color != g.turn || NoCastlingSetUp(g.board, color)) && Quiet(g, color)
  }

  /** Two 8x8 boards with the same cells are equal. */
  lemma BoardsEqual(a: Board, b: Board)
    requires IsGrid(a) && IsGrid(b)
    requires forall q :: OnBoard(q) ==> At(a, q) == At(b, q)
    ensures a == b
  {
    forall r | 0 <= r < 8
      ensures a[r] == b[r]
    {
      forall c | 0 <= c < 8
        ensures a[r][c] == b[r][c]
      {
        assert At(a, Pos(r, c)) == At(b, Pos(r, c));
      }
    }
  }

  /** Undoing a trial restores the board it was played on. */
  lemma TrialUndone(b: Board, piece: Piece, s: Pos, e: Pos)
    requires IsGrid(b)
    requires At(b, s) == Some(piece)
    ensures UndoBoard(TrialBoard(b, piece, s, e), piece, s, e, At(b, e)) == b
  {
    BoardsEqual(UndoBoard(TrialBoard(b, piece, s, e), piece, s, e, At(b, e)), b);
  }

  lemma TrialSettled(fuel: nat, g: Game, color: Color, piece: Piece, s: Pos, e: Pos)
    requires Settled(g, color)
    requires At(g.board, s) == Some(piece) && piece.color == color
    ensures Trial(fuel, g, color, piece, s, e) == (Escape(fuel, g, color, s, e), g.board)
  {
    var b := g.board;
    if piece.kind == King && !KingStep(s, e) {
      assert piece == Piece(King, color);
      CastlingRule(fuel, g, piece, s, e);
    } else {
      ValidMoveFrame(fuel, g, piece, s, e);
    }
    assert ValidMove(fuel, g, piece, s, e).1 == b;
    if ValidMove(fuel, g, piece, s, e).0 {
      var tb := TrialBoard(b, piece, s, e);
      var k := g.kings.Of(color);
      assert !CastlingOnto(tb, k, Opponent(color)) by {
        assert CastlingOnto(tb, k, Opponent(color)) ==> CastlingOnto(b, k, Opponent(color));
      }
      AttackedQuiet(fuel, g.(board := tb), k, Opponent(color));
      TrialUndone(b, piece, s, e);
    }
  }

  /** The pairs of squares that are escapes for `color`. */
  ghost function Escapes(fuel: nat, g: Game, color: Color): (Pos, Pos) -> bool
  {
    (s, e) => Escape(fuel, g, color, s, e)
  }

  lemma {:induction false} TrialScanSettled(fuel: nat, g: Game, color: Color, piece: Piece, s: Pos, j: nat)
    requires j <= 64
    requires Settled(g, color)
    requires At(g.board, s) == Some(piece) && piece.color == color
    ensures TrialScan(fuel, g, color, piece, s, j) == (SomeSquareFrom(Slice(Escapes(fuel, g, color), s), j), g.board)
    decreases 64 - j
  {
    if j < 64 {
      TrialSettled(fuel, g, color, piece, s, SquareOf(j));
      assert g.(board := g.board) == g;
      TrialScanSettled(fuel, g, color, piece, s, j + 1);
    }
  }

  lemma {:induction false} MateScanSettled(fuel: nat, g: Game, color: Color, i: nat)
    requires i <= 64
    requires Settled(g, color)
    ensures MateScan(fuel, g, color, i) == (!SomeSquareFrom(Firsts(Escapes(fuel, g, color)), i), g.board)
    decreases 64 - i
  {
    if i < 64 {
      var s := SquareOf(i);
      var piece := At(g.board, s);
      if piece.Some? && piece.value.color == color {
        TrialScanSettled(fuel, g, color, piece.value, s, 0);
      } else {
        SomeSquare(Slice(Escapes(fuel, g, color), s));
      }
      assert g.(board := g.board) == g;
      MateScanSettled(fuel, g, color, i + 1);
    }
  }

  /** is_in_checkmate, when no trial can trigger a castling: true exactly
      when no piece of `color` has a valid move after which its recorded
      king square is free of threats; the board is restored. */
  lemma CheckmateRule(fuel: nat, g: Game, color: Color)
    requires Settled(g, color)
    ensures InCheckmate(fuel, g, color) ==
              (!(exists s, e :: OnBoard(s) && OnBoard(e) && Escapes(fuel, g, color)(s, e)), g.board)
  {
    MateScanSettled(fuel, g, color, 0);
    SomePair(Escapes(fuel, g, color));
  }
}
