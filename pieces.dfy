/** The value layer of the engine: colours, piece kinds and the immutable
    piece record (ChessPiece), with the two-letter label the move log uses. */
module Pieces {

  datatype Option<T> = None | Some(value: T)

  /** The two sides; White moves first. */
  datatype Color = White | Black

  /** The side that is not `c`. */
  function Opponent(c: Color): (o: Color)
    ensures o != c
  {
    if c == White then Black else White
  }

  datatype Kind = Pawn | Knight | Bishop | Rook | Queen | King

  /** A piece: its kind (the source's `name`) and its colour, fixed at
      construction; promotion places a new piece rather than changing one. */
  datatype Piece = Piece(kind: Kind, color: Color)

  /** First letter of the colour name ('white' / 'black'). */
  function ColorInitial(c: Color): char
  {
    if c == White then 'w' else 'b'
  }

  /** First letter of the kind name; Knight and King share 'K'. */
  function KindInitial(k: Kind): char
  {
    match k
    case Pawn => 'P'
    case Knight => 'K'
    case Bishop => 'B'
    case Rook => 'R'
    case Queen => 'Q'
    case King => 'K'
  }

  /** The printed form of a piece, as recorded in the move log. */
  function Label(p: Piece): string
  {
    [ColorInitial(p.color), KindInitial(p.kind)]
  }

  /** Two pieces get the same label exactly when they are equal or are the
      Knight and the King of one colour. */
  lemma LabelCollision(p: Piece, q: Piece)
    ensures Label(p) == Label(q) <==>
              p == q || (p.color == q.color && {p.kind, q.kind} == {Knight, King})
  {
    if Label(p) == Label(q) {
      assert Label(p)[0] == Label(q)[0] && Label(p)[1] == Label(q)[1];
    }
    if p.color == q.color && {p.kind, q.kind} == {Knight, King} {
      assert p.kind in {Knight, King} && q.kind in {Knight, King};
    }
  }
}
