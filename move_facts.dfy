/** What move_piece does to a game: the three refusals, the bookkeeping of
    an accepted move, the board after it, and when it announces checkmate. */
module MoveFacts {
  import opened Pieces
  import opened Rules
  import opened AttackFacts
  import opened MateFacts
  import opened PieceRules

  /** A king standing on `s` is the one the king index records. */
  predicate Indexed(g: Game, s: Pos)
  {
    At(g.board, s).Some? && At(g.board, s).value.kind == King ==>
      g.kings.Of(At(g.board, s).value.color) == s
  }

  /** The game after an accepted move and before the checkmate search. */
  function Played(fuel: nat, g: Game, s: Pos, e: Pos): Game
    requires At(g.board, s).Some?
  {
    var p := At(g.board, s).value;
    Apply(g.(board := ValidMove(fuel, g, p, s, e).1), p, s, e)
  }

  /** The cells an accepted move of `p` from `s` to `e` may change: its two
      squares, the pawn taken en passant, and a castling rook's two squares. */
  predicate Touched(g: Game, p: Piece, s: Pos, e: Pos, q: Pos)
  {
    q == s || q == e ||
    (p.kind == Pawn && g.enPassant == Some(e) && q == Pos(s.x, e.y)) ||
    (p.kind == King && !KingStep(s, e) &&
     (q == Pos(s.x, (s.y + e.y) / 2) || q == Pos(s.x, RookColumn(s, e))))
  }

  /** move_piece refuses a move for exactly one of three reasons, tested in
      this order; a refusal never changes the turn, the log, the king index
      or the en-passant target. */
  lemma Refusals(fuel: nat, g: Game, s: Pos, e: Pos)
    ensures var (g1, r) := Play(fuel, g, s, e);
            var piece := At(g.board, s);
            (r == Refused(NoPieceAtStart) <==> piece.None?) &&
            (r == Refused(NotYourTurn) <==> piece.Some? && piece.value.color != g.turn) &&
            (r == Refused(InvalidMove) <==>
               piece.Some? && piece.value.color == g.turn && !ValidMove(fuel, g, piece.value, s, e).0) &&
            (r.Refused? ==>
               g1.turn == g.turn && g1.log == g.log && g1.kings == g.kings && g1.enPassant == g.enPassant)
  {
    var piece := At(g.board, s);
    if piece.Some? && piece.value.color == g.turn {
      var (valid, b1) := ValidMove(fuel, g, piece.value, s, e);
      assert Play(fuel, g, s, e).1.Refused? <==> !valid;
    }
  }

  /** A refused move leaves the whole game as it was, provided a king on the
      start square is the one the index records. */
  lemma RefusalKeepsGame(fuel: nat, g: Game, s: Pos, e: Pos)
    requires Indexed(g, s)
    ensures Play(fuel, g, s, e).1.Refused? ==> Play(fuel, g, s, e).0 == g
  {
    var piece := At(g.board, s);
    if piece.Some? {
      ValidationEffect(fuel, g, piece.value, s, e);
      assert g.(board := g.board) == g;
    }
  }

  /** An accepted move: the turn passes, exactly one entry with the mover's
      label is appended to the log, the king index follows a moving king
      only, the en-passant target is the square a pawn's double step passed
      over (and is cleared by any other move), and a checkmate is announced
      as a win for the side that did not move. */
  lemma Acceptance(fuel: nat, g: Game, s: Pos, e: Pos)
    ensures var (g1, r) := Play(fuel, g, s, e);
            var piece := At(g.board, s);
            (r.Moved? <==>
               piece.Some? && piece.value.color == g.turn && ValidMove(fuel, g, piece.value, s, e).0) &&
            (r.Moved? ==>
               var p := piece.value;
               g1.turn == Opponent(g.turn) &&
               g1.log == g.log + [Entry(s, e, Label(p))] &&
               g1.kings.Of(p.color) == (if p.kind == King then e else g.kings.Of(p.color)) &&
               g1.kings.Of(Opponent(p.color)) == g.kings.Of(Opponent(p.color)) &&
               g1.enPassant ==
                 (if p.kind == Pawn && Abs(e.x - s.x) == 2 then Some(Pos((s.x + e.x) / 2, s.y)) else None) &&
               (r.outcome.Checkmate? ==> r.outcome.winner == Opponent(p.color)))
  {
    var piece := At(g.board, s);
    if piece.Some? && piece.value.color == g.turn {
      var (valid, b1) := ValidMove(fuel, g, piece.value, s, e);
      if valid {
        var next := Apply(g.(board := b1), piece.value, s, e);
        var (mate, b2) := InCheckmate(fuel, next, Opponent(next.turn));
        assert Play(fuel, g, s, e) == (next.(board := b2), Moved(if mate then Checkmate(next.turn) else Continue));
      }
    }
  }

  /** The cells the bookkeeping of move_piece changes on the board it is
      given: the destination, the start, and a pawn taken en passant. */
  lemma ApplyCells(g: Game, p: Piece, s: Pos, e: Pos)
    requires IsGrid(g.board) && OnBoard(s) && OnBoard(e) && s != e
    requires p.kind == Pawn ==> s.x != e.x
    ensures var b1 := Apply(g, p, s, e).board;
            At(b1, e) == Some(if p.kind == Pawn && (e.x == 0 || e.x == 7) then Piece(Queen, p.color) else p) &&
            At(b1, s) == None &&
            (p.kind == Pawn && g.enPassant == Some(e) ==> At(b1, Pos(s.x, e.y)) == None) &&
            forall q :: q != s && q != e && !(p.kind == Pawn && g.enPassant == Some(e) && q == Pos(s.x, e.y)) ==>
                          At(b1, q) == At(g.board, q)
  {
  }

  /** The cells a castling changes: the rook's corner and the square the
      king passes. */
  lemma CastledCells(b: Board, s: Pos, e: Pos)
    requires IsGrid(b) && (s.x == 0 || s.x == 7) && s.y == 4 && e.x == s.x && Abs(e.y - s.y) == 2
    ensures var b1, mid, corner := CastledBoard(b, s, e), Pos(s.x, (s.y + e.y) / 2), Pos(s.x, RookColumn(s, e));
            At(b1, mid) == At(b, corner) && At(b1, corner) == None &&
            forall q :: q != mid && q != corner ==> At(b1, q) == At(b, q)
  {
  }

  /** The cells of `b1`, the board after an accepted move of `p` from `s`
      to `e` on `g`: the mover (or the queen it is promoted to) stands on
      the destination, the start is empty, a pawn taken en passant is gone,
      a castling rook stands on the square its king passed and its corner
      is empty, and every other square is as before. */
  ghost predicate MovedCells(g: Game, b1: Board, p: Piece, s: Pos, e: Pos)
  {
    At(b1, e) == Some(if p.kind == Pawn && (e.x == 0 || e.x == 7) then Piece(Queen, p.color) else p) &&
    At(b1, s) == None &&
    (p.kind == Pawn && g.enPassant == Some(e) ==> At(b1, Pos(s.x, e.y)) == None) &&
    (p.kind == King && !KingStep(s, e) ==>
       At(b1, Pos(s.x, (s.y + e.y) / 2)) == Some(Piece(Rook, p.color)) &&
       At(b1, Pos(s.x, RookColumn(s, e))) == None) &&
    (forall q :: !Touched(g, p, s, e, q) ==> At(b1, q) == At(g.board, q))
  }

  /** The bookkeeping of move_piece, applied to the board validation left
      (with a castling's rook already moved), leaves MovedCells. */
  lemma MovedOnto(g: Game, b: Board, p: Piece, s: Pos, e: Pos)
    requires IsGrid(g.board) && OnBoard(s) && OnBoard(e) && s != e
    requires p.kind == Pawn ==> s.x != e.x
    requires p.kind == King && !KingStep(s, e) ==>
               CastlingShape(g.board, p, s, e) && b == CastledBoard(g.board, s, e)
    requires !(p.kind == King && !KingStep(s, e)) ==> b == g.board
    ensures MovedCells(g, Apply(g.(board := b), p, s, e).board, p, s, e)
  {
    if p.kind == King && !KingStep(s, e) {
      CastledCells(g.board, s, e);
    }
    ApplyCells(g.(board := b), p, s, e);
  }

  /** The board after an accepted move, square by square (MovedCells). */
  lemma PlayedBoard(fuel: nat, g: Game, s: Pos, e: Pos)
    requires IsGrid(g.board) && OnBoard(s) && OnBoard(e)
    requires At(g.board, s).Some? && At(g.board, s).value.color == g.turn
    requires ValidMove(fuel, g, At(g.board, s).value, s, e).0
    requires Indexed(g, s)
    ensures MovedCells(g, Played(fuel, g, s, e).board, At(g.board, s).value, s, e)
  {
    var p := At(g.board, s).value;
    ValidationEffect(fuel, g, p, s, e);
    ValidMoveLeaves(fuel, g, p, s, e);
    if p.kind == King && !KingStep(s, e) {
      CastlingRule(fuel, g, p, s, e);
    }
    assert p.kind == Pawn ==> s.x != e.x;
    MovedOnto(g, ValidMove(fuel, g, p, s, e).1, p, s, e);
  }

  /** An accepted move is announced as checkmate (won by the side that did
      not move) exactly when the side that moved has no escape in the new
      position; the search leaves that position as it found it. */
  lemma MateAnnouncement(fuel: nat, g: Game, s: Pos, e: Pos)
    requires IsGrid(g.board)
    requires At(g.board, s).Some? && At(g.board, s).value.color == g.turn
    requires ValidMove(fuel, g, At(g.board, s).value, s, e).0
    requires Indexed(g, s)
    requires Quiet(Played(fuel, g, s, e), g.turn)
    ensures var (g1, r) := Play(fuel, g, s, e);
            g1 == Played(fuel, g, s, e) &&
            r == Moved(if exists s1, e1 :: OnBoard(s1) && OnBoard(e1) && Escapes(fuel, g1, g.turn)(s1, e1)
                       then Continue else Checkmate(Opponent(g.turn)))
  {
    var p := At(g.board, s).value;
    ValidationEffect(fuel, g, p, s, e);
    var next := Played(fuel, g, s, e);
    assert IsGrid(next.board);
    assert Opponent(next.turn) == g.turn;
    CheckmateRule(fuel, next, g.turn);
  }

  /** The bookkeeping of a move that neither takes en passant nor promotes:
      the mover lands on `e`, `s` is emptied, every other cell is kept. */
  lemma ApplyPlain(g: Game, p: Piece, s: Pos, e: Pos)
    requires IsGrid(g.board) && OnBoard(s) && OnBoard(e) && s != e
    requires p.kind == Pawn ==> g.enPassant != Some(e) && e.x != 0 && e.x != 7
    ensures IsGrid(Apply(g, p, s, e).board)
    ensures forall q :: At(Apply(g, p, s, e).board, q) ==
              if q == e then Some(p) else if q == s then None else At(g.board, q)
  {
  }

  /** An accepted move that is not a castling is move_piece's bookkeeping
      applied to the game as it stands: validation left the board alone. */
  lemma NoCastlingPlay(fuel: nat, g: Game, s: Pos, e: Pos)
    requires IsGrid(g.board)
    requires At(g.board, s).Some? && At(g.board, s).value.color == g.turn
    requires At(g.board, s).value.kind != King
    requires ValidMove(fuel, g, At(g.board, s).value, s, e).0
    requires Quiet(Apply(g, At(g.board, s).value, s, e), g.turn)
    ensures Played(fuel, g, s, e) == Apply(g, At(g.board, s).value, s, e)
    ensures Play(fuel, g, s, e).0 == Apply(g, At(g.board, s).value, s, e)
    ensures Play(fuel, g, s, e).1.Moved?
  {
    var p := At(g.board, s).value;
    ValidationEffect(fuel, g, p, s, e);
    assert g.(board := g.board) == g;
    MateAnnouncement(fuel, g, s, e);
  }

  /** One escape of the side that moved is enough for the move to be
      announced as Continue. */
  lemma OneEscapeContinues(fuel: nat, g: Game, s: Pos, e: Pos, s1: Pos, e1: Pos)
    requires IsGrid(g.board)
    requires At(g.board, s).Some? && At(g.board, s).value.color == g.turn
    requires ValidMove(fuel, g, At(g.board, s).value, s, e).0
    requires Indexed(g, s)
    requires Quiet(Played(fuel, g, s, e), g.turn)
    requires OnBoard(s1) && OnBoard(e1) && Escapes(fuel, Played(fuel, g, s, e), g.turn)(s1, e1)
    ensures Play(fuel, g, s, e).1 == Moved(Continue)
  {
    MateAnnouncement(fuel, g, s, e);
  }

  /** The king index records exactly where the kings stand. */
  ghost predicate Synced(g: Game)
  {
    (forall c :: OnBoard(g.kings.Of(c)) && At(g.board, g.kings.Of(c)) == Some(Piece(King, c))) &&
    (forall q :: OnBoard(q) && At(g.board, q).Some? && At(g.board, q).value.kind == King ==>
                   q == g.kings.Of(At(g.board, q).value.color))
  }

  /** The hypotheses of KingIndexKept. */
  ghost predicate KeepsKings(fuel: nat, g: Game, s: Pos, e: Pos)
  {
    IsGrid(g.board) && OnBoard(s) && OnBoard(e) &&
    At(g.board, s).Some? && At(g.board, s).value.color == g.turn &&
    ValidMove(fuel, g, At(g.board, s).value, s, e).0 &&
    Synced(g) &&
    (At(g.board, e).Some? ==> At(g.board, e).value.kind != King) &&
    ((At(g.board, s).value.kind == Pawn && g.enPassant == Some(e) && At(g.board, Pos(s.x, e.y)).Some?) ==>
       At(g.board, Pos(s.x, e.y)).value.kind != King)
  }

  /** The square a castling king passes was empty before the castling. */
  lemma PassedSquareEmpty(fuel: nat, g: Game, s: Pos, e: Pos)
    requires At(g.board, s).Some? && At(g.board, s).value.kind == King && !KingStep(s, e)
    requires ValidMove(fuel, g, At(g.board, s).value, s, e).0
    ensures At(g.board, Pos(s.x, (s.y + e.y) / 2)) == None
  {
    assert CastlingShape(g.board, At(g.board, s).value, s, e);
    assert EmptyRun(g.board, Pos(s.x, Min(s.y, e.y) + 1), 0, 1, 1);
  }

  /** On the cells a move leaves, a king that did not move is still on the
      square the old index records for it. */
  lemma KingStays(g: Game, b1: Board, p: Piece, s: Pos, e: Pos, c: Color)
    requires Synced(g) && At(g.board, s) == Some(p) && MovedCells(g, b1, p, s, e)
    requires !(p.kind == King && c == p.color)
    requires At(g.board, e).Some? ==> At(g.board, e).value.kind != King
    requires p.kind == Pawn && g.enPassant == Some(e) && At(g.board, Pos(s.x, e.y)).Some? ==>
               At(g.board, Pos(s.x, e.y)).value.kind != King
    requires p.kind == King && !KingStep(s, e) ==>
               At(g.board, Pos(s.x, (s.y + e.y) / 2)) == None &&
               At(g.board, Pos(s.x, RookColumn(s, e))) == Some(Piece(Rook, p.color))
    ensures At(b1, g.kings.Of(c)) == Some(Piece(King, c))
  {
    var k := g.kings.Of(c);
    assert At(g.board, k) == Some(Piece(King, c));
    assert !Touched(g, p, s, e, k);
  }

  /** On the cells a move leaves, every king stands where the new index
      records it. */
  lemma KingsIndexed(g: Game, b1: Board, kings1: KingIndex, p: Piece, s: Pos, e: Pos, q: Pos)
    requires Synced(g) && At(g.board, s) == Some(p) && MovedCells(g, b1, p, s, e)
    requires OnBoard(s)
    requires kings1 == if p.kind == King then g.kings.With(p.color, e) else g.kings
    requires OnBoard(q) && At(b1, q).Some? && At(b1, q).value.kind == King
    ensures q == kings1.Of(At(b1, q).value.color)
  {
    if !Touched(g, p, s, e, q) {
      var c := At(g.board, q).value.color;
      assert q == g.kings.Of(c);
      assert p.kind == King ==> g.kings.Of(p.color) == s;
    }
  }

  lemma KingsStillThere(fuel: nat, g: Game, s: Pos, e: Pos, c: Color)
    requires KeepsKings(fuel, g, s, e)
    ensures OnBoard(Played(fuel, g, s, e).kings.Of(c))
    ensures At(Played(fuel, g, s, e).board, Played(fuel, g, s, e).kings.Of(c)) == Some(Piece(King, c))
  {
    var p := At(g.board, s).value;
    var g1 := Played(fuel, g, s, e);
    PlayedBoard(fuel, g, s, e);
    if !(p.kind == King && c == p.color) {
      assert g1.kings.Of(c) == g.kings.Of(c);
      if p.kind == King && !KingStep(s, e) {
        PassedSquareEmpty(fuel, g, s, e);
        ValidationEffect(fuel, g, p, s, e);
        CastlingRule(fuel, g, p, s, e);
      }
      KingStays(g, g1.board, p, s, e, c);
    }
  }

  lemma NoOtherKings(fuel: nat, g: Game, s: Pos, e: Pos, q: Pos)
    requires KeepsKings(fuel, g, s, e)
    requires OnBoard(q)
    requires At(Played(fuel, g, s, e).board, q).Some?
    requires At(Played(fuel, g, s, e).board, q).value.kind == King
    ensures q == Played(fuel, g, s, e).kings.Of(At(Played(fuel, g, s, e).board, q).value.color)
  {
    var p := At(g.board, s).value;
    var g1 := Played(fuel, g, s, e);
    PlayedBoard(fuel, g, s, e);
    KingsIndexed(g, g1.board, g1.kings, p, s, e, q);
  }

  /** An accepted move keeps the king index in step with the board, unless
      it lands on a king or takes one en passant (neither is ruled out by the
      validators: a knight may land on any square of the right distance). */
  lemma KingIndexKept(fuel: nat, g: Game, s: Pos, e: Pos)
    requires KeepsKings(fuel, g, s, e)
    ensures Synced(Played(fuel, g, s, e))
  {
    forall c
      ensures OnBoard(Played(fuel, g, s, e).kings.Of(c)) &&
              At(Played(fuel, g, s, e).board, Played(fuel, g, s, e).kings.Of(c)) == Some(Piece(King, c))
    {
      KingsStillThere(fuel, g, s, e, c);
    }
    var g1 := Played(fuel, g, s, e);
    forall q | OnBoard(q) && At(g1.board, q).Some? && At(g1.board, q).value.kind == King
      ensures q == g1.kings.Of(At(g1.board, q).value.color)
    {
      NoOtherKings(fuel, g, s, e, q);
    }
  }
}
