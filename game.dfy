/**
 * The value part of the board module: player colours, move results, the layout
 * of the four piece sets, their accessors and the starting position.
 */
module GameTypes {
  import opened Bitboards

  datatype PlayerColor = White | Black {

    /** `!color`: the other player. */
    function Not(): (r: PlayerColor)
      ensures r != this
    {
      match this
      case White => Black
      case Black => White
    }
  }

  /** `!` on colours undoes itself, and every colour is one of a colour and its opposite. */
  lemma NotInvolution(c: PlayerColor, d: PlayerColor)
    ensures c.Not().Not() == c
    ensures c.Not() == d.Not() ==> c == d
  {}

  datatype Option<T> = None | Some(value: T)

  /** A move either is rejected or names the player who moves next. */
  datatype MoveResult = Valid(next: PlayerColor) | Invalid

  /** A position in the board's four-slot array. */
  type Slot = i: nat | i < 4

  // Positions of the four sets in the board's array.
  const WhiteMen: Slot := 0
  const BlackMen: Slot := 1
  const WhiteKings: Slot := 2
  const BlackKings: Slot := 3

  /** The contents of the board's `pieces: [Bitboard; 4]` array. */
  type PieceSets = p: seq<Bitboard> | |p| == 4
    witness [Bitboard(0), Bitboard(0), Bitboard(0), Bitboard(0)]

  /** `Checkerboard::index`: where the set of `color`'s men or kings is kept. */
  function Index(color: PlayerColor, king: bool): (i: Slot)
    ensures i % 2 == 0 <==> color == White
    ensures i >= 2 <==> king
  {
    match (color, king)
    case (White, false) => WhiteMen
    case (Black, false) => BlackMen
    case (White, true) => WhiteKings
    case (Black, true) => BlackKings
  }

  /** The four (colour, rank) pairs occupy the four slots, one each, and a colour's kings are kept two
      slots after its men. */
  lemma IndexLayout(c: PlayerColor, d: PlayerColor, k: bool, l: bool)
    ensures Index(c, true) == Index(c, false) + 2
    ensures Index(c, k) == Index(d, l) <==> c == d && k == l
  {}

  function Men(p: PieceSets, color: PlayerColor): (r: Bitboard)
    ensures r == p[Index(color, false)]
  {
    match color
    case White => p[WhiteMen]
    case Black => p[BlackMen]
  }

  function Kings(p: PieceSets, color: PlayerColor): (r: Bitboard)
    ensures r == p[Index(color, true)]
  {
    match color
    case White => p[WhiteKings]
    case Black => p[BlackKings]
  }

  /** All of `color`'s pieces, men and kings. */
  function Pieces(p: PieceSets, color: PlayerColor): (r: Bitboard)
    ensures forall s: Square :: r.Has(s) <==> Men(p, color).Has(s) || Kings(p, color).Has(s)
  {
    Men(p, color).Or(Kings(p, color))
  }

  /** The pieces of `color`'s opponent. */
  function Opponents(p: PieceSets, color: PlayerColor): (r: Bitboard)
    ensures forall s: Square :: r.Has(s) <==> Men(p, color.Not()).Has(s) || Kings(p, color.Not()).Has(s)
  {
    Pieces(p, color.Not())
  }

  /** The squares no piece stands on, among all 64 (not only the playable ones). */
  function Empty(p: PieceSets): (r: Bitboard)
    ensures forall s: Square :: r.Has(s) <==> !Occupied(p, s)
  {
    p[WhiteMen].Or(p[BlackMen]).Or(p[WhiteKings]).Or(p[BlackKings]).Not()
  }

  /** Some set holds square `s`. */
  predicate Occupied(p: PieceSets, s: Square) {
    p[0].Has(s) || p[1].Has(s) || p[2].Has(s) || p[3].Has(s)
  }

  /** Every square is occupied by one of the two colours or is empty. */
  lemma OccupiedByAColour(p: PieceSets, s: Square)
    ensures Occupied(p, s) <==> Pieces(p, White).Has(s) || Pieces(p, Black).Has(s)
    ensures Empty(p).Has(s) <==> !Pieces(p, White).Has(s) && !Pieces(p, Black).Has(s)
    ensures Opponents(p, White) == Pieces(p, Black) && Opponents(p, Black) == Pieces(p, White)
  {}

  /** The dark squares of the board, on which the game is played: those whose row and column add up to
      an even number. */
  const Playable: Bitboard := Bitboard(0xAA55AA55AA55AA55)

  lemma PlayableSquares(s: Square)
    ensures Playable.Has(s) <==> (Row(s) + Col(s)) % 2 == 0
  {}

  /** The invariant of a board: the four sets are pairwise disjoint and hold playable squares only. */
  predicate WellFormed(p: PieceSets) {
    Disjoint(p[0], p[1]) && Disjoint(p[0], p[2]) && Disjoint(p[0], p[3]) &&
    Disjoint(p[1], p[2]) && Disjoint(p[1], p[3]) && Disjoint(p[2], p[3]) &&
    p[0].IsSubsetOf(Playable) && p[1].IsSubsetOf(Playable) &&
    p[2].IsSubsetOf(Playable) && p[3].IsSubsetOf(Playable)
  }

  predicate Disjoint(a: Bitboard, b: Bitboard) {
    a.And(b).IsEmpty()
  }

  /** Disjoint bitboards share no square. */
  lemma {:induction false} DisjointIffNoCommonSquare(a: Bitboard, b: Bitboard)
    ensures Disjoint(a, b) <==> forall s: Square :: !(a.Has(s) && b.Has(s))
  {
    if !Disjoint(a, b) {
      var t := LowestMember(a.And(b));
    }
  }

  /** On a well-formed board every occupied square is playable and lies in exactly one set. */
  lemma {:induction false} WellFormedSquares(p: PieceSets, s: Square)
    requires WellFormed(p)
    ensures Occupied(p, s) ==> Playable.Has(s)
    ensures p[0].Has(s) ==> !p[1].Has(s) && !p[2].Has(s) && !p[3].Has(s)
    ensures p[1].Has(s) ==> !p[2].Has(s) && !p[3].Has(s)
    ensures p[2].Has(s) ==> !p[3].Has(s)
  {
    SubsetIffMembers(p[0], Playable);
    SubsetIffMembers(p[1], Playable);
    SubsetIffMembers(p[2], Playable);
    SubsetIffMembers(p[3], Playable);
    DisjointIffNoCommonSquare(p[0], p[1]);
    DisjointIffNoCommonSquare(p[0], p[2]);
    DisjointIffNoCommonSquare(p[0], p[3]);
    DisjointIffNoCommonSquare(p[1], p[2]);
    DisjointIffNoCommonSquare(p[1], p[3]);
    DisjointIffNoCommonSquare(p[2], p[3]);
  }

  /** What `WellFormed` asks of one square: if occupied it is playable and lies in one set only. */
  predicate SquareSound(p: PieceSets, s: Square) {
    (Occupied(p, s) ==> Playable.Has(s)) &&
    (p[0].Has(s) ==> !p[1].Has(s) && !p[2].Has(s) && !p[3].Has(s)) &&
    (p[1].Has(s) ==> !p[2].Has(s) && !p[3].Has(s)) &&
    (p[2].Has(s) ==> !p[3].Has(s))
  }

  /** A board whose every square is sound is well formed. */
  lemma {:induction false} WellFormedFromSquares(p: PieceSets)
    requires forall s: Square :: SquareSound(p, s)
    ensures WellFormed(p)
  {
    forall s: Square
      ensures p[0].Has(s) ==> Playable.Has(s) && !p[1].Has(s) && !p[2].Has(s) && !p[3].Has(s)
      ensures p[1].Has(s) ==> Playable.Has(s) && !p[2].Has(s) && !p[3].Has(s)
      ensures p[2].Has(s) ==> Playable.Has(s) && !p[3].Has(s)
      ensures p[3].Has(s) ==> Playable.Has(s)
    {
      assert SquareSound(p, s);
    }
    SubsetIffMembers(p[0], Playable);
    SubsetIffMembers(p[1], Playable);
    SubsetIffMembers(p[2], Playable);
    SubsetIffMembers(p[3], Playable);
    DisjointIffNoCommonSquare(p[0], p[1]);
    DisjointIffNoCommonSquare(p[0], p[2]);
    DisjointIffNoCommonSquare(p[0], p[3]);
    DisjointIffNoCommonSquare(p[1], p[2]);
    DisjointIffNoCommonSquare(p[1], p[3]);
    DisjointIffNoCommonSquare(p[2], p[3]);
  }

  /** The board of `Checkerboard::new`: white men on the playable squares of rows 0 to 2, black men on
      those of rows 5 to 7, no kings. */
  function StartSets(): (p: PieceSets) {
    [Bitboard(0x55AA55), Bitboard(0xAA55AA << 40), Bitboard.New(), Bitboard.New()]
  }

  /** Where the pieces of the starting position stand. */
  lemma StartSquares(s: Square)
    ensures Men(StartSets(), White).Has(s) <==> Playable.Has(s) && Row(s) < 3
    ensures Men(StartSets(), Black).Has(s) <==> Playable.Has(s) && Row(s) >= 5
    ensures !Kings(StartSets(), White).Has(s) && !Kings(StartSets(), Black).Has(s)
  {}

  /** Each side starts with twelve men, on these squares. */
  lemma WhiteStartSquares()
    ensures Men(StartSets(), White).Squares() == {0, 2, 4, 6, 9, 11, 13, 15, 16, 18, 20, 22}
    ensures |Men(StartSets(), White).Squares()| == 12
  {
    var w: set<Square> := {0, 2, 4, 6, 9, 11, 13, 15, 16, 18, 20, 22};
    forall s: Square ensures s in Men(StartSets(), White).Squares() <==> s in w {
      WhiteStartMember(s, w);
    }
    assert Men(StartSets(), White).Squares() == w;
    CountWhiteStart(w);
  }

  lemma BlackStartSquares()
    ensures Men(StartSets(), Black).Squares() == {41, 43, 45, 47, 48, 50, 52, 54, 57, 59, 61, 63}
    ensures |Men(StartSets(), Black).Squares()| == 12
  {
    var w: set<Square> := {41, 43, 45, 47, 48, 50, 52, 54, 57, 59, 61, 63};
    forall s: Square ensures s in Men(StartSets(), Black).Squares() <==> s in w {
      BlackStartMember(s, w);
    }
    assert Men(StartSets(), Black).Squares() == w;
    CountBlackStart(w);
  }

  lemma WhiteStartMember(s: Square, w: set<Square>)
    requires w == {0, 2, 4, 6, 9, 11, 13, 15, 16, 18, 20, 22}
    ensures Men(StartSets(), White).Has(s) <==> s in w
  {
    StartSquares(s);
  }

  lemma CountWhiteStart(w: set<Square>)
    requires w == {0, 2, 4, 6, 9, 11, 13, 15, 16, 18, 20, 22}
    ensures |w| == 12
  {}

  lemma BlackStartMember(s: Square, w: set<Square>)
    requires w == {41, 43, 45, 47, 48, 50, 52, 54, 57, 59, 61, 63}
    ensures Men(StartSets(), Black).Has(s) <==> s in w
  {
    StartSquares(s);
  }

  lemma CountBlackStart(w: set<Square>)
    requires w == {41, 43, 45, 47, 48, 50, 52, 54, 57, 59, 61, 63}
    ensures |w| == 12
  {}

  /** The starting position is well formed. */
  lemma StartWellFormed()
    ensures WellFormed(StartSets())
  {}
}
