/** The opening position and a few moves played on it. */
module Scenarios {
  import opened Pieces
  import opened Rules
  import opened PieceRules
  import opened AttackFacts
  import opened MateFacts
  import opened MoveFacts

  /** A new game has an 8x8 board whose king index records the two kings
      exactly, with pawns on rows 1 and 6 and the back ranks in the order
      Rook, Knight, Bishop, Queen, King, Bishop, Knight, Rook. */
  lemma InitialPosition()
    ensures IsGrid(InitialGame().board)
    ensures Synced(InitialGame())
    ensures forall y :: 0 <= y < 8 ==>
              At(InitialBoard(), Pos(1, y)) == Some(Piece(Pawn, Black)) &&
              At(InitialBoard(), Pos(6, y)) == Some(Piece(Pawn, White)) &&
              At(InitialBoard(), Pos(0, y)) == Some(Piece(BackRank[y], Black)) &&
              At(InitialBoard(), Pos(7, y)) == Some(Piece(BackRank[y], White))
    ensures forall x, y :: 2 <= x < 6 && 0 <= y < 8 ==> At(InitialBoard(), Pos(x, y)) == None
  {
    var g := InitialGame();
    forall q | OnBoard(q) && At(g.board, q).Some? && At(g.board, q).value.kind == King
      ensures q == g.kings.Of(At(g.board, q).value.color)
    {
      assert BackRank[q.y] == King ==> q.y == 4;
    }
  }

  /** White opens with the king's pawn two squares: the move is accepted
      and announced as Continue, Black is to move, the log holds that one
      move, the en-passant target is the square the pawn passed, and only
      the two squares changed. */
  lemma KingPawnOpening()
    ensures var (g1, r) := Submit(InitialGame(), Pos(6, 4), Pos(4, 4));
            r == Moved(Continue) &&
            g1.turn == Black &&
            g1.log == [Entry(Pos(6, 4), Pos(4, 4), "wP")] &&
            g1.enPassant == Some(Pos(5, 4)) &&
            g1.kings == InitialGame().kings &&
            At(g1.board, Pos(4, 4)) == Some(Piece(Pawn, White)) &&
            At(g1.board, Pos(6, 4)) == None &&
            (forall q :: q != Pos(6, 4) && q != Pos(4, 4) ==> At(g1.board, q) == At(InitialBoard(), q))
  {
    var g, s, e := InitialGame(), Pos(6, 4), Pos(4, 4);
    var pawn := Piece(Pawn, White);
    assert At(g.board, s) == Some(pawn);
    PawnRule(Depth, g, pawn, s, e);
    Acceptance(Depth, g, s, e);
    PlayedBoard(Depth, g, s, e);
    MateAnnouncement(Depth, g, s, e);
    KingPawnContinues(Depth);
  }

  /** In the opening position every black piece is too far from the white
      king's square, or off the lines it would need, to move onto it. */
  lemma BlackOutOfRange()
    ensures OutOfRange(InitialBoard(), Black, Pos(7, 4))
  {
    InitialPosition();
    forall q | At(InitialBoard(), q).Some? && At(InitialBoard(), q).value.color == Black
      ensures FarFrom(At(InitialBoard(), q).value.kind, q, Pos(7, 4))
    {
      assert q.x == 0 || q.x == 1;
      assert BackRank[4] == King;
    }
  }

  /** On the board after 1. e2-e4, a2-a3 is a pawn step onto an empty
      square, and after it every black piece is still out of range of e1. */
  lemma OpeningEscapeBoard(b1: Board)
    requires At(b1, Pos(4, 4)) == Some(Piece(Pawn, White)) && At(b1, Pos(6, 4)) == None
    requires forall q :: q != Pos(6, 4) && q != Pos(4, 4) ==> At(b1, q) == At(InitialBoard(), q)
    ensures At(b1, Pos(6, 0)) == Some(Piece(Pawn, White)) && At(b1, Pos(5, 0)) == None
    ensures OutOfRange(TrialBoard(b1, Piece(Pawn, White), Pos(6, 0), Pos(5, 0)), Black, Pos(7, 4))
  {
    InitialPosition();
    BlackOutOfRange();
    var tb := TrialBoard(b1, Piece(Pawn, White), Pos(6, 0), Pos(5, 0));
    forall q | At(tb, q).Some? && At(tb, q).value.color == Black
      ensures FarFrom(At(tb, q).value.kind, q, Pos(7, 4))
    {
      assert At(tb, q) == At(InitialBoard(), q);
    }
  }

  /** After 1. e2-e4 the side that moved is tested for checkmate, and White
      escapes with a2-a3 (no black piece reaches e1 after it), so the move
      is announced as Continue whatever the depth. */
  lemma KingPawnContinues(fuel: nat)
    ensures Play(fuel, InitialGame(), Pos(6, 4), Pos(4, 4)).1 == Moved(Continue)
  {
    var g, s, e := InitialGame(), Pos(6, 4), Pos(4, 4);
    var pawn := Piece(Pawn, White);
    InitialPosition();
    assert At(g.board, s) == Some(pawn);
    PawnRule(fuel, g, pawn, s, e);
    PlayedBoard(fuel, g, s, e);
    var g1 := Played(fuel, g, s, e);
    OpeningEscapeBoard(g1.board);
    PawnRule(fuel, g1, pawn, Pos(6, 0), Pos(5, 0));
    EscapeOutOfRange(fuel, g1, White, Pos(6, 0), Pos(5, 0));
    OneEscapeContinues(fuel, g, s, e, Pos(6, 0), Pos(5, 0));
  }

  /** In the opening position every white piece is too far from the black
      king's square, or off the lines it would need, to move onto it. */
  lemma WhiteOutOfRange()
    ensures OutOfRange(InitialBoard(), White, Pos(0, 4))
  {
    InitialPosition();
    forall q | At(InitialBoard(), q).Some? && At(InitialBoard(), q).value.color == White
      ensures FarFrom(At(InitialBoard(), q).value.kind, q, Pos(0, 4))
    {
      assert q.x == 6 || q.x == 7;
      assert BackRank[4] == King;
    }
  }

  /** The `n`-th ply of the fool's-mate line: f2-f3, e7-e5, g2-g4, Qd8-h4. */
  function FoolMove(n: nat): (Piece, Pos, Pos)
    requires 1 <= n <= 4
  {
    if n == 1 then (Piece(Pawn, White), Pos(6, 5), Pos(5, 5))
    else if n == 2 then (Piece(Pawn, Black), Pos(1, 4), Pos(3, 4))
    else if n == 3 then (Piece(Pawn, White), Pos(6, 6), Pos(4, 6))
    else (Piece(Queen, Black), Pos(0, 3), Pos(4, 7))
  }

  /** The game after the first `n` plies of the line, each played as
      move_piece's bookkeeping. */
  function Fool(n: nat): Game
    requires n <= 4
  {
    if n == 0 then InitialGame()
    else Apply(Fool(n - 1), FoolMove(n).0, FoolMove(n).1, FoolMove(n).2)
  }

  /** Each cell of the initial board is given by InitialCell. */
  lemma InitialAt()
    ensures IsGrid(InitialBoard())
    ensures forall q :: At(InitialBoard(), q) == if OnBoard(q) then InitialCell(q.x, q.y) else None
  {
  }

  /** The cell `q` after the first `n` plies of the line. */
  function FoolCell(n: nat, q: Pos): Option<Piece>
  {
    if n >= 4 && q == Pos(4, 7) then Some(Piece(Queen, Black))
    else if n >= 4 && q == Pos(0, 3) then None
    else if n >= 3 && q == Pos(4, 6) then Some(Piece(Pawn, White))
    else if n >= 3 && q == Pos(6, 6) then None
    else if n >= 2 && q == Pos(3, 4) then Some(Piece(Pawn, Black))
    else if n >= 2 && q == Pos(1, 4) then None
    else if n >= 1 && q == Pos(5, 5) then Some(Piece(Pawn, White))
    else if n >= 1 && q == Pos(6, 5) then None
    else if OnBoard(q) then InitialCell(q.x, q.y)
    else None
  }

  /** `b` is the 8x8 board of the line after `n` plies. */
  ghost predicate LineBoard(b: Board, n: nat)
  {
    IsGrid(b) && forall q :: At(b, q) == FoolCell(n, q)
  }

  /** The en-passant target after `n` plies of the line: the squares the
      two double steps passed. */
  function FoolTarget(n: nat): Option<Pos>
  {
    if n == 2 then Some(Pos(2, 4)) else if n == 3 then Some(Pos(5, 6)) else None
  }

  /** A game at ply `n` of the line: its board cell by cell, the kings at
      home, the side to move and the en-passant target. */
  ghost predicate LineGame(g: Game, n: nat)
  {
    LineBoard(g.board, n) && g.kings == KingIndex(Pos(7, 4), Pos(0, 4)) &&
    g.turn == (if n == 1 || n == 3 then Black else White) && g.enPassant == FoolTarget(n)
  }

  /** The opening position is ply 0 of the line. */
  lemma LineStart()
    ensures LineGame(InitialGame(), 0)
  {
    InitialAt();
  }

  /** Playing the `n`-th ply on a game at ply `n - 1` of the line gives a
      game at ply `n`. */
  lemma FoolStep(g: Game, n: nat)
    requires 1 <= n <= 4 && LineGame(g, n - 1)
    ensures LineGame(Apply(g, FoolMove(n).0, FoolMove(n).1, FoolMove(n).2), n)
  {
    ApplyPlain(g, FoolMove(n).0, FoolMove(n).1, FoolMove(n).2);
  }

  /** The game after the first `n` plies of the line is at ply `n`. */
  lemma {:induction false} FoolCells(n: nat)
    requires n <= 4
    ensures LineGame(Fool(n), n)
  {
    if n == 0 {
      LineStart();
    } else {
      FoolCells(n - 1);
      FoolStep(Fool(n - 1), n);
    }
  }

  /** Each of the three pawn plies of the line, played on a game with the
      board, kings, turn and en-passant target of the ply before, is
      accepted and played as move_piece's bookkeeping. */
  lemma PawnPly(fuel: nat, g: Game, n: nat)
    requires 1 <= n <= 3 && LineGame(g, n - 1)
    ensures Play(fuel, g, FoolMove(n).1, FoolMove(n).2).0 == Apply(g, FoolMove(n).0, FoolMove(n).1, FoolMove(n).2)
    ensures Play(fuel, g, FoolMove(n).1, FoolMove(n).2).1.Moved?
  {
    var p, s, e := FoolMove(n).0, FoolMove(n).1, FoolMove(n).2;
    assert At(g.board, s) == Some(p) && At(g.board, e) == None;
    PawnRule(fuel, g, p, s, e);
    NoCastlingPlay(fuel, g, s, e);
  }

  /** Before 2. ... Qd8-h4 the queen is on d8, and the diagonal e7, f6, g5
      and the square h4 are empty. */
  lemma QueenDiagonalBoard(b: Board)
    requires LineBoard(b, 3)
    ensures At(b, Pos(0, 3)) == Some(Piece(Queen, Black)) && At(b, Pos(4, 7)) == None
    ensures forall q :: Between(Pos(0, 3), Pos(4, 7), q) ==> At(b, q).None?
  {
    assert At(b, Pos(1, 4)) == None && At(b, Pos(2, 5)) == None && At(b, Pos(3, 6)) == None;
    forall q | Between(Pos(0, 3), Pos(4, 7), q)
      ensures At(b, q).None?
    {
      assert q == Pos(1, 4) || q == Pos(2, 5) || q == Pos(3, 6);
    }
  }

  /** After 2. ... Qd8-h4, a7-a6 leaves every white piece out of range of e8. */
  lemma FoolEscapeBoard(b: Board)
    requires LineBoard(b, 4)
    ensures At(b, Pos(1, 0)) == Some(Piece(Pawn, Black)) && At(b, Pos(2, 0)) == None
    ensures OutOfRange(TrialBoard(b, Piece(Pawn, Black), Pos(1, 0), Pos(2, 0)), White, Pos(0, 4))
  {
    InitialAt();
    WhiteOutOfRange();
    var tb := TrialBoard(b, Piece(Pawn, Black), Pos(1, 0), Pos(2, 0));
    forall q | At(tb, q).Some? && At(tb, q).value.color == White
      ensures FarFrom(At(tb, q).value.kind, q, Pos(0, 4))
    {
      if q != Pos(5, 5) && q != Pos(4, 6) {
        assert At(tb, q) == At(InitialBoard(), q);
      }
    }
  }

  /** 2. ... Qd8-h4, played on a game with the board, kings, turn and
      en-passant target of ply 3, is accepted and, since the side tested is
      Black, which has just moved and can play a7-a6, announced as Continue. */
  lemma QueenPly(fuel: nat, g: Game)
    requires LineGame(g, 3)
    ensures Play(fuel, g, Pos(0, 3), Pos(4, 7)) == (Apply(g, Piece(Queen, Black), Pos(0, 3), Pos(4, 7)), Moved(Continue))
  {
    var queen, s, e := Piece(Queen, Black), Pos(0, 3), Pos(4, 7);
    QueenDiagonalBoard(g.board);
    SliderRule(fuel, g, queen, s, e);
    NoCastlingPlay(fuel, g, s, e);
    var g4 := Apply(g, queen, s, e);
    FoolStep(g, 4);
    FoolEscapeBoard(g4.board);
    PawnRule(fuel, g4, Piece(Pawn, Black), Pos(1, 0), Pos(2, 0));
    EscapeOutOfRange(fuel, g4, Black, Pos(1, 0), Pos(2, 0));
    OneEscapeContinues(fuel, g, s, e, Pos(1, 0), Pos(2, 0));
  }

  /** After the fool's-mate line the queen on h4 faces the white king on
      e1 across the empty squares g3 and f2. */
  lemma QueenCheckBoard(b: Board)
    requires LineBoard(b, 4)
    ensures At(b, Pos(4, 7)) == Some(Piece(Queen, Black)) && At(b, Pos(7, 4)) == Some(Piece(King, White))
    ensures forall r :: Between(Pos(4, 7), Pos(7, 4), r) ==> At(b, r).None?
  {
    assert BackRank[4] == King;
    assert At(b, Pos(5, 6)) == None && At(b, Pos(6, 5)) == None;
    forall r | Between(Pos(4, 7), Pos(7, 4), r)
      ensures At(b, r).None?
    {
      assert r == Pos(5, 6) || r == Pos(6, 5);
    }
  }

  /** On the board of the fool's-mate line, with the kings at home, White
      is in check from the queen on h4. */
  lemma FoolCheck(fuel: nat, g: Game)
    requires LineGame(g, 4)
    ensures InCheck(fuel, g, White).0
  {
    var q, k := Pos(4, 7), Pos(7, 4);
    QueenCheckBoard(g.board);
    SliderRule(fuel, g, Piece(Queen, Black), q, k);
    assert AttackerAt(fuel, g, Black, q, k);
    AttackedQuiet(fuel, g, k, Black);
  }

  /** After the fool's-mate line, the trial Ke1-f2 blocks the queen's
      diagonal onto e1, and the search still tests e1, the recorded square:
      every black piece but the queen is out of range of e1, the queen is
      blocked, and the king stands on f2. */
  lemma StaleTrialBoard(b: Board)
    requires LineBoard(b, 4)
    ensures var tb := TrialBoard(b, Piece(King, White), Pos(7, 4), Pos(6, 5));
            At(b, Pos(7, 4)) == Some(Piece(King, White)) &&
            At(tb, Pos(4, 7)) == Some(Piece(Queen, Black)) && At(tb, Pos(6, 5)).Some? &&
            forall q :: q != Pos(4, 7) && At(tb, q).Some? && At(tb, q).value.color == Black ==>
                          FarFrom(At(tb, q).value.kind, q, Pos(7, 4))
  {
    InitialAt();
    BlackOutOfRange();
    assert BackRank[4] == King;
    var tb := TrialBoard(b, Piece(King, White), Pos(7, 4), Pos(6, 5));
    forall q | q != Pos(4, 7) && At(tb, q).Some? && At(tb, q).value.color == Black
      ensures FarFrom(At(tb, q).value.kind, q, Pos(7, 4))
    {
      if q != Pos(3, 4) {
        assert At(tb, q) == At(InitialBoard(), q);
      }
    }
  }

  /** After the fool's-mate line, Ke1-f2 is an escape for White: the
      search's check test looks at the recorded square e1, which the king
      itself now shields from the queen on h4. */
  lemma StaleKingEscape(fuel: nat, g: Game)
    requires LineGame(g, 4)
    ensures Escapes(fuel, g, White)(Pos(7, 4), Pos(6, 5))
  {
    var king, s, e, k := Piece(King, White), Pos(7, 4), Pos(6, 5), Pos(7, 4);
    StaleTrialBoard(g.board);
    var g1 := g.(board := TrialBoard(g.board, king, s, e));
    assert ValidMove(fuel, g, king, s, e).0 by {
      assert KingStep(s, e);
    }
    forall p | OnBoard(p) && At(g1.board, p).Some? && At(g1.board, p).value.color == Black
      ensures !ValidMove(fuel, g1, At(g1.board, p).value, p, k).0
    {
      if p == Pos(4, 7) {
        SliderRule(fuel, g1, Piece(Queen, Black), p, k);
        assert Between(p, k, e);
      } else {
        OutOfReach(fuel, g1, At(g1.board, p).value, p, k);
      }
    }
    assert !Threatened(fuel, g1, White);
  }

  /** Testing the side to move would not find the fool's mate either: after
      the line, is_in_checkmate of White answers false, because of the
      escape Ke1-f2 against the stale king record. */
  lemma FoolNotMateForWhite(fuel: nat, g: Game)
    requires LineGame(g, 4)
    ensures !InCheckmate(fuel, g, White).0
  {
    assert NoCastlingSetUp(g.board, White) by {
      forall s, e
        ensures !CastlingShape(g.board, Piece(King, White), s, e)
      {
        if s.y == 4 && (s.x == 0 || s.x == 7) && Abs(e.y - s.y) == 2 && s.x == e.x {
          assert At(g.board, Pos(s.x, Min(s.y, e.y) + 1)).Some? || At(g.board, Pos(s.x, RookColumn(s, e))).value.color == Black;
        }
      }
    }
    StaleKingEscape(fuel, g);
    CheckmateRule(fuel, g, White);
  }

  /** The fool's mate played through move_piece: all four moves are
      accepted, and after 2. ... Qd8-h4 White is in check, yet the move is
      announced as Continue, because the code searches for escapes of the
      side that has just moved (Black), not of the side now to move. */
  lemma FoolsMate()
    ensures var (g1, r1) := Submit(InitialGame(), Pos(6, 5), Pos(5, 5));
            var (g2, r2) := Submit(g1, Pos(1, 4), Pos(3, 4));
            var (g3, r3) := Submit(g2, Pos(6, 6), Pos(4, 6));
            var (g4, r4) := Submit(g3, Pos(0, 3), Pos(4, 7));
            r1.Moved? && r2.Moved? && r3.Moved? && r4 == Moved(Continue) &&
            g4.turn == White && InCheck(Depth, g4, White).0
  {
    FoolCells(0);
    PawnPly(Depth, InitialGame(), 1);
    FoolCells(1);
    PawnPly(Depth, Fool(1), 2);
    FoolCells(2);
    PawnPly(Depth, Fool(2), 3);
    FoolCells(3);
    QueenPly(Depth, Fool(3));
    FoolCells(4);
    FoolCheck(Depth, Fool(4));
  }

  /** Black may not move first: the game is left exactly as it was. */
  lemma BlackMovesFirst()
    ensures Submit(InitialGame(), Pos(1, 4), Pos(3, 4)) == (InitialGame(), Refused(NotYourTurn))
  {
    assert At(InitialBoard(), Pos(1, 4)) == Some(Piece(Pawn, Black));
  }

  /** A move from an empty square is refused and changes nothing. */
  lemma EmptyStart()
    ensures Submit(InitialGame(), Pos(4, 4), Pos(3, 4)) == (InitialGame(), Refused(NoPieceAtStart))
  {
    assert At(InitialBoard(), Pos(4, 4)) == None;
  }

  /** In the opening position a knight jumps over the pawns, a rook is
      blocked by its own pawn, and the king cannot castle past its bishop. */
  lemma OpeningMoves()
    ensures ValidMove(Depth, InitialGame(), Piece(Knight, White), Pos(7, 6), Pos(5, 5)).0
    ensures !ValidMove(Depth, InitialGame(), Piece(Rook, White), Pos(7, 0), Pos(5, 0)).0
    ensures !ValidMove(Depth, InitialGame(), Piece(King, White), Pos(7, 4), Pos(7, 6)).0
  {
    var g := InitialGame();
    KnightRule(Depth, g, Piece(Knight, White), Pos(7, 6), Pos(5, 5));
    SliderRule(Depth, g, Piece(Rook, White), Pos(7, 0), Pos(5, 0));
    assert Between(Pos(7, 0), Pos(5, 0), Pos(6, 0)) && At(g.board, Pos(6, 0)).Some?;
    assert !CastlingShape(g.board, Piece(King, White), Pos(7, 4), Pos(7, 6)) by {
      assert At(g.board, Pos(7, 5)).Some?;
    }
  }

  /** Both kings at home, the white king-side rook in its corner and the
      white king's knight on its home square; nothing else. */
  function KnightAtHome(): (b: Board)
    ensures IsGrid(b)
  {
    var empty: Board := seq(8, x => seq(8, y => None));
    Put(Put(Put(Put(empty, Pos(7, 4), Some(Piece(King, White))), Pos(7, 7), Some(Piece(Rook, White))),
            Pos(7, 6), Some(Piece(Knight, White))), Pos(0, 4), Some(Piece(King, Black)))
  }

  /** The only black piece on KnightAtHome is the king on (0, 4), and the
      square between the white king and its king-side knight is empty. */
  lemma KnightAtHomeCells()
    ensures forall q :: At(KnightAtHome(), q).Some? && At(KnightAtHome(), q).value.color == Black ==> q == Pos(0, 4)
    ensures At(KnightAtHome(), Pos(0, 4)) == Some(Piece(King, Black))
    ensures At(KnightAtHome(), Pos(7, 4)) == Some(Piece(King, White))
    ensures At(KnightAtHome(), Pos(7, 5)) == None
    ensures At(KnightAtHome(), Pos(7, 6)) == Some(Piece(Knight, White))
    ensures At(KnightAtHome(), Pos(7, 7)) == Some(Piece(Rook, White))
  {
  }

  /** On KnightAtHome the white king may castle king-side as far as the
      set-up goes: the rook is in its corner and (7, 5) is empty. */
  lemma KnightAtHomeShape()
    ensures CastlingShape(KnightAtHome(), Piece(King, White), Pos(7, 4), Pos(7, 6))
  {
    KnightAtHomeCells();
    assert EmptyRun(KnightAtHome(), Pos(7, 5), 0, 1, 1);
  }

  /** Black, having only a king on its home square, attacks nothing on row 7. */
  lemma NoAttackOnWhiteRank(fuel: nat, g: Game, pos: Pos)
    requires g.board == KnightAtHome() && pos.x == 7
    ensures Attacked(fuel, g, pos, Black) == (false, g.board)
  {
    KnightAtHomeCells();
    AttackedQuiet(fuel, g, pos, Black);
    forall p: Pos | OnBoard(p)
      ensures !AttackerAt(fuel, g, Black, p, pos)
    {
      if p == Pos(0, 4) {
        assert At(g.board, p) == Some(Piece(King, Black));
        assert !KingStep(p, pos) && !CastlingShape(g.board, Piece(King, Black), p, pos);
        assert !ValidMove(fuel, g, Piece(King, Black), p, pos).0;
        assert !AttackerAt(fuel, g, Black, p, pos);
      } else {
        assert At(g.board, p).None? || At(g.board, p).value.color != Black;
        assert !AttackerAt(fuel, g, Black, p, pos);
      }
    }
  }

  /** The castling test looks only at the squares between the king and its
      destination: with the king's knight still at home, castling king-side
      is accepted at every depth above 0 and the king would land on its own
      knight; at depth 0 the bound refuses it and the board is kept. */
  lemma CastlingOntoOwnKnight(fuel: nat)
    ensures var g := Game(KnightAtHome(), White, [], KingIndex(Pos(7, 4), Pos(0, 4)), None);
            At(g.board, Pos(7, 6)) == Some(Piece(Knight, White)) &&
            ValidMove(fuel, g, Piece(King, White), Pos(7, 4), Pos(7, 6)) ==
              if fuel > 0 then (true, CastledBoard(g.board, Pos(7, 4), Pos(7, 6))) else (false, g.board)
  {
    var b := KnightAtHome();
    var g := Game(b, White, [], KingIndex(Pos(7, 4), Pos(0, 4)), None);
    var king, s, e := Piece(King, White), Pos(7, 4), Pos(7, 6);
    KnightAtHomeCells();
    KnightAtHomeShape();
    if fuel > 0 {
      NoAttackOnWhiteRank(fuel - 1, g, s);
      NoAttackOnWhiteRank(fuel - 1, g, Pos(7, 5));
      NoAttackOnWhiteRank(fuel - 1, g, e);
    }
    CastlingRule(fuel, g, king, s, e);
  }
}
