# Chess rules engine of ChessGameWithLogin, in Dafny

This project models the rules engine of ChessGameWithLogin, the class
`ChessGame` in `backend/chess_game.py`. Its state has five parts:

- an 8x8 board of optional pieces;
- the colour to move;
- an append-only move log;
- a record of each side's king square;
- an optional en-passant target.

Its operations are:

- the per-piece move validators;
- castling, which moves the rook as a side effect of the validity test;
- the path scan;
- attack, check and checkmate detection, and the king search;
- the one-ply move executor `move_piece`.

Files:

- `pieces.dfy`, module `Pieces`: colours, piece kinds, the immutable piece value and its two-letter log label.
- `rules.dfy`, module `Rules`: the rules as functions over a game value.
  - Every query that can reach castling (validation, attack, check, checkmate) returns the board it leaves behind, because a successful castling test moves a rook.
  - `Submit` is `move_piece`: it returns the new game and a `MoveResult`. The three `ValueError`s become `Refused(...)`, and the checkmate announcement becomes `Moved(Checkmate(winner))`.
  - `Submit` is `Play` at the executor's recursion depth of 32. The executor lemmas are stated for `Play` at any depth.
- `game.dfy`, module `Engine`: the `ChessGame` class.
  - Its fields are the five parts of the state. Its methods are the source's loops and in-place updates.
  - Each method is proved to compute what the matching `Rules` function says. The methods that may move a rook state their result together with the new board.
- `piece_rules.dfy`, `attack_facts.dfy`, `mate_facts.dfy`, `move_facts.dfy`: what the validators, the path scan, the attack, check and checkmate queries and the executor guarantee, stated against independent definitions.
- `scenarios.dfy`: the opening position and moves played from it.

## Where the code differs from textbook chess

The model follows the code, not textbook chess:

- **Pawn double step.** It looks only at the destination square, not at the square passed over.
- **Knight.** It may land on any square at the right distance, including one held by a piece of its own colour.
- **Castling empty-square test.** The code checks only the squares strictly between the king and its destination, so only column 3 or column 5. A textbook castling also needs the squares up to the rook to be empty. As a result, the king may castle onto its own knight (`Scenarios.CastlingOntoOwnKnight`).
- **Castling attacker colour.** The passed square and the destination are tested against the opponent of the side to move, not of the king. So a king of the side not to move can never castle: its own step onto the passed square counts as an attack (`AttackFacts.CastlingRule`).
- **Checkmate search and king moves.** The search plays each trial move without updating the king record, so after a trial king move it still tests the old king square. After the fool's mate, Ke1-f2 therefore counts as an escape: the king on f2 shields e1, the square still tested, from the queen on h4 (`Scenarios.StaleKingEscape`).
- **Who is tested for checkmate.** After the turn has passed, `move_piece` tests the side that has just moved, and announces the side now to move as the winner (`MoveFacts.MateAnnouncement`). So after the fool's mate, a checkmate of White in textbook chess, `move_piece` announces Continue while White is in check (`Scenarios.FoolsMate`). In textbook chess the side now to move is the one tested; this model follows the code. Testing White instead would not make it a mate here either: `is_in_checkmate` of White answers false (`Scenarios.FoolNotMateForWhite`), because of the stale king square described above.
- **Log label.** It is the first letter of the colour and of the kind, so a knight and a king of one colour share a label (`Pieces.LabelCollision`).

## Model

| member | source | states |
|---|---|---|
| Pieces.Opponent | ChessGameWithLogin/backend/chess_game.py:218 | the opponent of a colour is never that colour |
| Pieces.LabelCollision | ChessGameWithLogin/backend/chess_game.py:6-7 | two pieces get the same log label exactly when they are equal, or are the knight and the king of one colour |
| Rules.Put | ChessGameWithLogin/backend/chess_game.py:51-52 | writing a cell changes that cell only (when it is on the grid) and keeps the grid's shape |
| Rules.KingIndex.With | ChessGameWithLogin/backend/chess_game.py:55-57 | recording a king square for one colour leaves the other colour's record as it was |
| Pieces.Label | ChessGameWithLogin/backend/chess_game.py:6-7 | reference definition of `__str__`: the first letter of the colour, then of the kind |
| Rules.InitialBoard | ChessGameWithLogin/backend/chess_game.py:17-31 | reference definition of initialize_board: pawns on rows 1 and 6, the back rank on rows 0 and 7 |
| Rules.InitialGame | ChessGameWithLogin/backend/chess_game.py:10-15 | reference definition of the constructor's state |
| Rules.PawnMove | ChessGameWithLogin/backend/chess_game.py:99-127 | reference definition of is_valid_pawn_move |
| Rules.KnightMove | ChessGameWithLogin/backend/chess_game.py:129-134 | reference definition of is_valid_knight_move |
| Rules.BishopMove | ChessGameWithLogin/backend/chess_game.py:136-143 | reference definition of is_valid_bishop_move |
| Rules.RookMove | ChessGameWithLogin/backend/chess_game.py:145-150 | reference definition of is_valid_rook_move |
| Rules.QueenMove | ChessGameWithLogin/backend/chess_game.py:152-153 | reference definition of is_valid_queen_move |
| Rules.KingStep | ChessGameWithLogin/backend/chess_game.py:155-160 | reference definition of is_valid_king_move |
| Rules.EmptyRun | ChessGameWithLogin/backend/chess_game.py:192-212 | reference definition of the emptiness tests of the three loops of is_path_clear |
| Rules.DestinationFree | ChessGameWithLogin/backend/chess_game.py:214 | reference definition of the last line of is_path_clear |
| Rules.PathClear | ChessGameWithLogin/backend/chess_game.py:188-214 | reference definition of is_path_clear |
| Rules.ValidMove | ChessGameWithLogin/backend/chess_game.py:83-97 | reference definition of is_valid_move, with the board it leaves |
| Rules.CastlingShape | ChessGameWithLogin/backend/chess_game.py:166-173 | reference definition of the set-up tests of is_valid_castling |
| Rules.ValidCastling | ChessGameWithLogin/backend/chess_game.py:162-179 | reference definition of is_valid_castling, with the rook move on success |
| Rules.CastleThroughCheck | ChessGameWithLogin/backend/chess_game.py:181-186 | reference definition of is_castle_through_check |
| Rules.InCheck | ChessGameWithLogin/backend/chess_game.py:216-219 | reference definition of is_in_check |
| Rules.Attacked | ChessGameWithLogin/backend/chess_game.py:228-236 | reference definition of is_attacked |
| Rules.AttackScan | ChessGameWithLogin/backend/chess_game.py:230-236 | reference definition of the row-major loops of is_attacked, from a given square on |
| Rules.InCheckmate | ChessGameWithLogin/backend/chess_game.py:238-258 | reference definition of is_in_checkmate |
| Rules.MateScan | ChessGameWithLogin/backend/chess_game.py:239-258 | reference definition of the loops over start squares of is_in_checkmate |
| Rules.SquareEscapes | ChessGameWithLogin/backend/chess_game.py:241-257 | reference definition of the test of one start square of is_in_checkmate |
| Rules.TrialScan | ChessGameWithLogin/backend/chess_game.py:243-257 | reference definition of the loops over destinations of is_in_checkmate |
| Rules.Trial | ChessGameWithLogin/backend/chess_game.py:245-257 | reference definition of one trial: validate, play, test check, undo |
| Rules.Apply | ChessGameWithLogin/backend/chess_game.py:50-75 | reference definition of the bookkeeping of an accepted move |
| Rules.Play | ChessGameWithLogin/backend/chess_game.py:37-81 | reference definition of move_piece at a given recursion depth |
| Rules.Submit | ChessGameWithLogin/backend/chess_game.py:37-81 | reference definition of move_piece at depth 32 |
| Engine.InitializeBoard | ChessGameWithLogin/backend/chess_game.py:17-31 | the two filling loops produce the standard initial position |
| Engine.ChessGame.constructor | ChessGameWithLogin/backend/chess_game.py:10-15 | a new game: initial board, White to move, empty log, kings on (7,4) and (0,4), no en-passant target |
| Engine.ChessGame.ScanRow | ChessGameWithLogin/backend/chess_game.py:192-196 | the row loop of is_path_clear answers whether every column strictly between is empty |
| Engine.ChessGame.ScanColumn | ChessGameWithLogin/backend/chess_game.py:198-202 | the column loop of is_path_clear answers whether every row strictly between is empty |
| Engine.ChessGame.ScanDiagonal | ChessGameWithLogin/backend/chess_game.py:204-212 | the diagonal loop stops when either coordinate reaches the destination's, and answers whether every square it steps onto, at distance 1 up to the smaller of the two gaps along the heading, is empty |
| Engine.ChessGame.IsPathClear | ChessGameWithLogin/backend/chess_game.py:188-214 | is_path_clear computes PathClear, which PathClearBetween characterises |
| Engine.ChessGame.IsValidBishopMove | ChessGameWithLogin/backend/chess_game.py:136-143 | the bishop validator: equal distances, then the path scan |
| Engine.ChessGame.IsValidRookMove | ChessGameWithLogin/backend/chess_game.py:145-150 | the rook validator: same row or column, then the path scan |
| Engine.ChessGame.IsValidMove | ChessGameWithLogin/backend/chess_game.py:83-97 | the dispatch on the kind; the answer and the board it leaves (a castling may move a rook) are those of ValidMove |
| Engine.ChessGame.IsValidCastling | ChessGameWithLogin/backend/chess_game.py:162-179 | the castling test, with its rook move on success |
| Engine.ChessGame.IsCastleThroughCheck | ChessGameWithLogin/backend/chess_game.py:181-186 | the passed square, then the destination, is tested against the opponent of the side to move |
| Engine.ChessGame.IsInCheck | ChessGameWithLogin/backend/chess_game.py:216-219 | check is an attack by the opponent on the recorded king square |
| Engine.ChessGame.FindKing | ChessGameWithLogin/backend/chess_game.py:221-226 | returns the first square in row-major order that holds the king of that colour; None (the source's "King not found") exactly when no such king exists |
| Engine.ChessGame.IsAttacked | ChessGameWithLogin/backend/chess_game.py:228-236 | the row-major scan stops at the first piece of the attacker with a valid move onto the square |
| Engine.ChessGame.AttackRow | ChessGameWithLogin/backend/chess_game.py:231-236 | the inner loop of is_attacked over one row either stops with the scan's answer and board, or hands the scan on to the next row with the board it leaves |
| Engine.ChessGame.AttackFrom | ChessGameWithLogin/backend/chess_game.py:232-235 | one square of is_attacked: a hit exactly when the scan at that square stops there; otherwise the scan goes on from the next square |
| Engine.ChessGame.TryMove | ChessGameWithLogin/backend/chess_game.py:245-257 | one trial of the checkmate search: play, test check, undo |
| Engine.ChessGame.TryMoves | ChessGameWithLogin/backend/chess_game.py:243-257 | the two inner loops over destinations, stopping at the first escape |
| Engine.ChessGame.TrialRow | ChessGameWithLogin/backend/chess_game.py:244-257 | the loop over destinations in one row either stops at an escape with the search's answer and board, or hands the search on to the next row |
| Engine.ChessGame.TrySquare | ChessGameWithLogin/backend/chess_game.py:241-257 | a square is searched only when it holds a piece of the tested colour |
| Engine.ChessGame.MateRow | ChessGameWithLogin/backend/chess_game.py:240-257 | the loop over start squares in one row either stops at an escape, answering "not mate" with the search's board, or hands the search on to the next row |
| Engine.ChessGame.IsInCheckmate | ChessGameWithLogin/backend/chess_game.py:238-258 | the four nested loops of is_in_checkmate compute InCheckmate, which CheckmateRule characterises |
| Engine.ChessGame.Commit | ChessGameWithLogin/backend/chess_game.py:50-75 | the bookkeeping of an accepted move, with the new state given by Apply |
| Engine.ChessGame.MovePiece | ChessGameWithLogin/backend/chess_game.py:37-81 | move_piece: the new state and the reported result are those of Submit |
| PieceRules.EmptyRunAll | ChessGameWithLogin/backend/chess_game.py:194-196 | a scan of n squares finds no piece exactly when every square of the run is empty |
| PieceRules.InRunCoordinates | ChessGameWithLogin/backend/chess_game.py:205-212 | the squares a scan visits, given by their coordinates |
| PieceRules.DiagonalRun | ChessGameWithLogin/backend/chess_game.py:204-212 | a diagonal scan of n squares finds no piece exactly when every square at distance 1 to n along the heading is empty |
| PieceRules.PathClearBetween | ChessGameWithLogin/backend/chess_game.py:188-214 | for squares on one row, column or diagonal, the path is clear exactly when every square strictly between is empty and the destination is empty or holds a piece of another colour than the start square's |
| PieceRules.SliderRule | ChessGameWithLogin/backend/chess_game.py:136-153 | bishop, rook and queen moves are valid exactly when their geometry fits and the line strictly between is empty and the destination is free; the board is untouched |
| PieceRules.KnightRule | ChessGameWithLogin/backend/chess_game.py:129-134 | a knight move is valid exactly for distances (2,1) and (1,2), whatever the board holds |
| PieceRules.KingStepRule | ChessGameWithLogin/backend/chess_game.py:155-160 | away from two-column moves along a row, a king move is valid exactly for a step of at most one in each direction; occupancy and check are not consulted |
| PieceRules.PawnRule | ChessGameWithLogin/backend/chess_game.py:99-127 | one rule for both colours: forward one step onto an empty square, two steps from the home row onto an empty square, diagonal capture of the other colour or onto the en-passant target |
| PieceRules.ValidMoveLeaves | ChessGameWithLogin/backend/chess_game.py:83-97 | no piece has a valid move onto its own square |
| PieceRules.OutOfReach | ChessGameWithLogin/backend/chess_game.py:99-160 | a piece three or more rows away, not on a diagonal if it is a bishop or queen and not on the row if it is a rook or queen, has no valid move to the square |
| AttackFacts.ValidMoveFrame | ChessGameWithLogin/backend/chess_game.py:176-177 | validation changes the board only through a castling test with depth left |
| AttackFacts.AttackScanQuiet | ChessGameWithLogin/backend/chess_game.py:230-236 | when the attacked square is not a castling destination of a king of the attacker (`!CastlingOnto`): the scan from row-major index i finds a hit exactly when some square at index i or later holds an attacker with a valid move, and the board is untouched |
| AttackFacts.AttackedQuiet | ChessGameWithLogin/backend/chess_game.py:228-236 | unless a king stands two columns away on the same back rank, a square is attacked exactly when some piece of the attacker has a valid move onto it, and the board is untouched |
| AttackFacts.CastlingRule | ChessGameWithLogin/backend/chess_game.py:162-186 | when the king's recorded square is not a castling destination of the opposing king (`Quiet`): castling is accepted exactly when the set-up is right, it is that king's side to move, and neither the recorded king square, the passed square nor the destination is attacked; on success only the rook moves, otherwise nothing changes |
| AttackFacts.ValidationEffect | ChessGameWithLogin/backend/chess_game.py:83-97 | for a piece on its start square (a king being the recorded one), a refused move leaves the board as it was and an accepted one changes it only by a castling's rook move |
| MateFacts.TrialUndone | ChessGameWithLogin/backend/chess_game.py:247-257 | undoing a trial restores the board exactly |
| MateFacts.NotThreatened | ChessGameWithLogin/backend/chess_game.py:228-236 | when every opposing piece is out of reach of the recorded king square, no opposing piece has a valid move onto it |
| MateFacts.EscapeOutOfRange | ChessGameWithLogin/backend/chess_game.py:245-257 | a valid move after which every opposing piece is out of reach of the recorded king square is an escape |
| MateFacts.TrialSettled | ChessGameWithLogin/backend/chess_game.py:245-257 | when the side tested cannot castle (it is not the side to move, or no king of it has a castling set-up) and its recorded king square is not a castling destination of the other king (`Settled`): a trial escapes exactly when the move is valid and afterwards no opposing piece has a valid move onto the recorded king square; the board is restored |
| MateFacts.TrialScanSettled | ChessGameWithLogin/backend/chess_game.py:243-257 | when the side tested cannot castle (it is not the side to move, or no king of it has a castling set-up) and its recorded king square is not a castling destination of the other king (`Settled`): the destination loops find an escape exactly when one exists among the remaining destinations |
| MateFacts.MateScanSettled | ChessGameWithLogin/backend/chess_game.py:239-258 | when the side tested cannot castle (it is not the side to move, or no king of it has a castling set-up) and its recorded king square is not a castling destination of the other king (`Settled`): the square loops report mate exactly when no remaining start square has an escape |
| MateFacts.CheckmateRule | ChessGameWithLogin/backend/chess_game.py:238-258 | when the side tested cannot castle (it is not the side to move, or no king of it has a castling set-up) and its recorded king square is not a castling destination of the other king (`Settled`): mate exactly when no valid move of that side leaves its recorded king square unattacked, and the board is restored |
| MoveFacts.Refusals | ChessGameWithLogin/backend/chess_game.py:37-81 | a move is refused for no piece, the wrong colour or an invalid move, tested in that order, and a refusal keeps the turn, log, king record and en-passant target |
| MoveFacts.RefusalKeepsGame | ChessGameWithLogin/backend/chess_game.py:43-81 | a refused move leaves the whole game unchanged, provided a king on the start square is the recorded one |
| MoveFacts.Acceptance | ChessGameWithLogin/backend/chess_game.py:50-78 | an accepted move passes the turn, appends exactly one log entry, moves a king's record with the king, sets the en-passant target to the square a double step passed (None otherwise), and names the side that did not move as winner |
| MoveFacts.PlayedBoard | ChessGameWithLogin/backend/chess_game.py:50-69 | for a move whose start square, if it holds a king, is the recorded one (`Indexed`): after an accepted move the destination holds the mover (a queen on row 0 or 7 for a pawn), the start is empty, an en-passant victim is removed, a castling rook has moved, and every other square is unchanged |
| MoveFacts.MovedOnto | ChessGameWithLogin/backend/chess_game.py:50-69 | the bookkeeping of an accepted move, on the board validation left, leaves the cells PlayedBoard describes |
| MoveFacts.MateAnnouncement | ChessGameWithLogin/backend/chess_game.py:74-78 | when a king on the start square is the recorded one (`Indexed`) and after the move the mover's recorded king square is not a castling destination of the other king (`Quiet`): checkmate is announced exactly when the side that just moved has no escape in the new position, and the search leaves that position unchanged |
| MoveFacts.PassedSquareEmpty | ChessGameWithLogin/backend/chess_game.py:173-177 | the square a castling king passes was empty |
| MoveFacts.ApplyPlain | ChessGameWithLogin/backend/chess_game.py:50-72 | a move that neither takes en passant nor promotes puts the mover on the destination, empties the start and keeps every other cell |
| MoveFacts.NoCastlingPlay | ChessGameWithLogin/backend/chess_game.py:49-78 | an accepted move of a piece other than a king, whose new position is quiet for the mover, gives the bookkeeping applied to the game as it stands and is reported as played |
| MoveFacts.OneEscapeContinues | ChessGameWithLogin/backend/chess_game.py:74-78 | when a king on the start square is the recorded one (`Indexed`) and after the move the mover's recorded king square is not a castling destination of the other king (`Quiet`): one escape of the side that has just moved is enough for the move to be announced as Continue |
| MoveFacts.KingStays | ChessGameWithLogin/backend/chess_game.py:50-69 | on the cells a move leaves, a king that did not move, was not captured and was not passed over stays on its recorded square |
| MoveFacts.KingsIndexed | ChessGameWithLogin/backend/chess_game.py:55-57 | on the cells a move leaves, every king stands on the square the updated record gives for its colour |
| MoveFacts.KingsStillThere | ChessGameWithLogin/backend/chess_game.py:55-57 | after an accepted move that takes no king, each recorded king square still holds that king |
| MoveFacts.NoOtherKings | ChessGameWithLogin/backend/chess_game.py:55-57 | for a game whose king record matched the board before the move (`Synced`), after an accepted move that takes no king, every king on the board stands on its recorded square |
| MoveFacts.KingIndexKept | ChessGameWithLogin/backend/chess_game.py:50-69 | an accepted move that neither lands on a king nor takes one en passant keeps the king record exactly in step with the board |
| Scenarios.InitialPosition | ChessGameWithLogin/backend/chess_game.py:10-31 | the initial board is 8x8, pawns and back ranks are in place, rows 2 to 5 are empty, and the king record matches the board |
| Scenarios.KingPawnOpening | ChessGameWithLogin/backend/chess_game.py:37-78 | White's pawn (6,4) to (4,4) is accepted and announced as Continue; Black is to move, the log holds that move, the en-passant target is (5,4), and only the two squares changed |
| Scenarios.BlackMovesFirst | ChessGameWithLogin/backend/chess_game.py:46-47 | a black move at the start is refused for the wrong turn and changes nothing |
| Scenarios.BlackOutOfRange | ChessGameWithLogin/backend/chess_game.py:17-31 | in the initial position no black piece can reach e1: each is too far away or off the lines it would need |
| Scenarios.WhiteOutOfRange | ChessGameWithLogin/backend/chess_game.py:17-31 | in the initial position no white piece can reach e8 |
| Scenarios.KingPawnContinues | ChessGameWithLogin/backend/chess_game.py:74-78 | at any depth, 1. e2-e4 is announced as Continue: White, which has just moved and is the side tested, escapes with a2-a3 |
| Scenarios.FoolStep | ChessGameWithLogin/backend/chess_game.py:50-75 | playing each ply of the line f2-f3, e7-e5, g2-g4, Qd8-h4 on the position before it gives the position after it: cells, king record, turn and en-passant target |
| Scenarios.FoolCells | ChessGameWithLogin/backend/chess_game.py:50-75 | after the first n plies of the line, the game is the position of ply n |
| Scenarios.PawnPly | ChessGameWithLogin/backend/chess_game.py:37-72 | each of the three pawn plies of the line is accepted and played as the bookkeeping |
| Scenarios.QueenPly | ChessGameWithLogin/backend/chess_game.py:37-78 | 2. ... Qd8-h4 is accepted and announced as Continue, since the side tested is Black, which can still play a7-a6 |
| Scenarios.FoolCheck | ChessGameWithLogin/backend/chess_game.py:216-219 | after the line White is in check from the queen on h4 |
| Scenarios.FoolsMate | ChessGameWithLogin/backend/chess_game.py:37-81 | the fool's mate played through move_piece: all four moves are accepted, and afterwards White is to move and in check, yet the last move is announced as Continue, because the code tests the side that has just moved |
| Scenarios.StaleTrialBoard | ChessGameWithLogin/backend/chess_game.py:238-258 | after the fool's-mate line, the trial Ke1-f2 leaves every black piece but the queen out of range of e1, and the king on f2 stands between the queen and e1 |
| Scenarios.StaleKingEscape | ChessGameWithLogin/backend/chess_game.py:245-257 | after the fool's-mate line, Ke1-f2 is an escape for White, because the check test looks at the recorded square e1, which the king now shields from the queen |
| Scenarios.FoolNotMateForWhite | ChessGameWithLogin/backend/chess_game.py:238-258 | after the fool's-mate line, is_in_checkmate of White answers false at every depth |
| Scenarios.EmptyStart | ChessGameWithLogin/backend/chess_game.py:44-45 | a move from an empty square is refused and changes nothing |
| Scenarios.OpeningMoves | ChessGameWithLogin/backend/chess_game.py:129-179 | in the opening position a knight jumps its pawns, a rook is blocked by its pawn, and the king cannot castle past its bishop |
| Scenarios.NoAttackOnWhiteRank | ChessGameWithLogin/backend/chess_game.py:228-236 | a lone black king on its home square attacks nothing on row 7 |
| Scenarios.CastlingOntoOwnKnight | ChessGameWithLogin/backend/chess_game.py:169-178 | with the king's knight still at home and the bishop's square empty, king-side castling is accepted at every depth above 0, and the rook moves; at depth 0 it is refused and the board is kept |

## Left out

- Recursion depth: castling asks whether the king is in check. That asks whether a square is attacked, which validates moves, which can reach castling again. The model bounds this recursion with a depth counter, and `move_piece` gives it 32 levels. When the depth runs out, castling answers false. Python would instead recurse until it raises `RecursionError`, which can only happen when the king record disagrees with the board.
- `is_path_clear` with an empty start square: Python raises `AttributeError` when the destination is occupied, and the model answers true. No caller reaches this case, because every caller passes the square of the piece being moved.
- Off-board coordinates: the class's methods require both squares on the board. In Python, negative indices wrap around and large ones raise `IndexError`. Off the grid, cell reads return None and writes do nothing.
- The board is a field holding a sequence of rows that the methods replace, not a mutable list of lists, so aliasing of rows is not modelled.
- `print_board` and the checkmate `print` (console output): the checkmate message becomes the returned `Checkmate(winner)` outcome.
- The React front end (`src/App.js` and `src/components/`) has no rule logic.
- MateFacts.CheckmateRule, MateFacts.TrialSettled, MateFacts.TrialScanSettled, MateFacts.MateScanSettled: proved only when the side tested cannot castle (it is not the side to move, or has no castling set-up) and its recorded king square is not a castling destination of the other king. Otherwise a trial can set off a castling that moves a rook during the search.
- MoveFacts.MateAnnouncement, MoveFacts.OneEscapeContinues: proved only under the same condition on the position after the move, and when a king on the start square is the recorded one.
- AttackFacts.AttackScanQuiet: proved only when the attacked square is not a castling destination of a king of the attacker. Otherwise the scan can run a castling test that moves a rook.
- AttackFacts.CastlingRule: proved only when the king's recorded square is not a castling destination of the opposing king. Otherwise the check test inside castling can itself run a castling test that moves a rook.
- MoveFacts.NoOtherKings, MoveFacts.KingsStillThere, MoveFacts.KingIndexKept: proved only for a game whose king record matched the board before the move, and for a move that takes no king.
- MoveFacts.RefusalKeepsGame, AttackFacts.ValidationEffect, MoveFacts.PlayedBoard: proved only when a king on the start square is the recorded one. Otherwise a nested castling test can move a rook even when the move is refused.
