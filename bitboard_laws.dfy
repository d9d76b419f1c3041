/**
 * Algebraic laws on whole bitboards, used to show that the move generators distribute over a union of
 * source squares.
 */
module BitboardLaws {
  import opened Bitboards

  /** `&` with a mask distributes over `|`. */
  lemma AndDistributes(x: Bitboard, y: Bitboard, m: Bitboard)
    ensures x.Or(y).And(m) == x.And(m).Or(y.And(m))
  {}

  /** `(a | a') | (b | b') == (a | b) | (a' | b')`. */
  lemma OrInterchange(a: Bitboard, b: Bitboard, a': Bitboard, b': Bitboard)
    ensures a.Or(a').Or(b.Or(b')) == a.Or(b).Or(a'.Or(b'))
  {}

  /** `<< 7` distributes over `|`. */
  lemma ShlDistributes7(x: Bitboard, y: Bitboard)
    ensures x.Or(y).Shl(7) == x.Shl(7).Or(y.Shl(7))
  {}

  /** `<< 9` distributes over `|`. */
  lemma ShlDistributes9(x: Bitboard, y: Bitboard)
    ensures x.Or(y).Shl(9) == x.Shl(9).Or(y.Shl(9))
  {}

  /** `>> 7` distributes over `|`. */
  lemma ShrDistributes7(x: Bitboard, y: Bitboard)
    ensures x.Or(y).Shr(7) == x.Shr(7).Or(y.Shr(7))
  {}

  /** `>> 9` distributes over `|`. */
  lemma ShrDistributes9(x: Bitboard, y: Bitboard)
    ensures x.Or(y).Shr(9) == x.Shr(9).Or(y.Shr(9))
  {}

  /** A union is empty exactly when both parts are. */
  lemma OrEmpty(x: Bitboard, y: Bitboard)
    ensures x.Or(y).IsEmpty() <==> x.IsEmpty() && y.IsEmpty()
  {}

  /** Intersecting with the complement of the empty set changes nothing. */
  lemma AndFull(x: Bitboard)
    ensures x.And(Bitboard.New().Not()) == x
  {}
}
