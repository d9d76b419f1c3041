/**
 * Square sets packed into one 64-bit word: the bitboard value type of the
 * checkers engine, its edge masks, and the midpoint-square operation.
 *
 * Bit `s` of the word stands for board square `s`, numbered 8 * row + column
 * from the bottom-left corner.
 */
module Bitboards {

  /** A board square, named by the index of its bit. */
  type Square = i: bv8 | i < 64

  function Row(s: Square): bv8 { s / 8 }

  function Col(s: Square): bv8 { s % 8 }

  /** The Rust `Bitboard`: a set of squares stored in the bits of a `u64`.
      `Bitboard(x)` is both `Bitboard::from_u64(x)` and `From<u64>`. */
  datatype Bitboard = Bitboard(bb: bv64) {

    /** Square `s` is a member of the set. */
    predicate Has(s: Square) {
      (bb >> s) & 1 == 1
    }

    /** The members among the squares below `n`, as a finite set. */
    ghost function SquaresBelow(n: bv8): (r: set<Square>)
      requires n <= 64
      ensures forall s: Square :: s in r <==> s < n && Has(s)
      decreases n as int
    {
      if n == 0 then {} else SquaresBelow(n - 1) + (if Has(n - 1) then {n - 1} else {})
    }

    /** The set of squares this bitboard stands for. */
    ghost function Squares(): (r: set<Square>)
      ensures forall s: Square :: s in r <==> Has(s)
    {
      SquaresBelow(64)
    }

    /** `Bitboard::new`: the empty set. */
    static function New(): (r: Bitboard)
      ensures forall s: Square :: !r.Has(s)
    {
      Bitboard(0)
    }

    predicate IsSingleSquare() {
      bb != 0 && bb & (bb - 1) == 0
    }

    predicate IsEmpty() {
      bb == 0
    }

    predicate IsNotEmpty() {
      bb != 0
    }

    /** `|`: set union. */
    function Or(rhs: Bitboard): (r: Bitboard)
      ensures forall s: Square :: r.Has(s) <==> Has(s) || rhs.Has(s)
    {
      var r := Bitboard(bb | rhs.bb);
      forall s: Square ensures r.Has(s) <==> Has(s) || rhs.Has(s) { OrBit(this, rhs, s); }
      r
    }

    /** `&`: set intersection. */
    function And(rhs: Bitboard): (r: Bitboard)
      ensures forall s: Square :: r.Has(s) <==> Has(s) && rhs.Has(s)
    {
      var r := Bitboard(bb & rhs.bb);
      forall s: Square ensures r.Has(s) <==> Has(s) && rhs.Has(s) { AndBit(this, rhs, s); }
      r
    }

    /** `^`: symmetric difference. */
    function Xor(rhs: Bitboard): (r: Bitboard)
      ensures forall s: Square :: r.Has(s) <==> Has(s) != rhs.Has(s)
    {
      var r := Bitboard(bb ^ rhs.bb);
      forall s: Square ensures r.Has(s) <==> Has(s) != rhs.Has(s) { XorBit(this, rhs, s); }
      r
    }

    /** `!`: complement with respect to all 64 squares. */
    function Not(): (r: Bitboard)
      ensures forall s: Square :: r.Has(s) <==> !Has(s)
    {
      var r := Bitboard(!bb);
      forall s: Square ensures r.Has(s) <==> !Has(s) { NotBit(this, s); }
      r
    }

    /** `<<`: every member moves `n` squares up the numbering; members pushed past square 63 are lost.
        Shifting a `u64` by 64 or more panics in Rust. What a shift does to each square is stated, for
        the amounts the move generators use, by the lemmas ShlSquares and ShrSquares. */
    function Shl(n: bv8): Bitboard
      requires n < 64
    {
      Bitboard(bb << n)
    }

    /** `>>`: every member moves `n` squares down the numbering; members pushed below square 0 are lost. */
    function Shr(n: bv8): Bitboard
      requires n < 64
    {
      Bitboard(bb >> n)
    }

    /** Every member of this set is a member of `other`. */
    predicate IsSubsetOf(other: Bitboard) {
      bb & !other.bb == 0
    }

    /** `trailing_zeros`: the number of low-order zero bits, which is 64 for the empty set and otherwise
        the index of the lowest member. Computed by halving the window, as the hardware instruction does. */
    function TrailingZeros(): (n: bv8)
      ensures n <= 64
      ensures n == 64 <==> IsEmpty()
      ensures n < 64 ==> Has(n)
      ensures forall s: Square :: s < n ==> !Has(s)
    {
      if bb == 0 then 64 else
      var n0: bv8 := if bb & 0xFFFF_FFFF == 0 then 32 else 0;
      var x1 := bb >> n0;
      var n1: bv8 := if x1 & 0xFFFF == 0 then 16 else 0;
      var x2 := x1 >> n1;
      var n2: bv8 := if x2 & 0xFF == 0 then 8 else 0;
      var x3 := x2 >> n2;
      var n3: bv8 := if x3 & 0xF == 0 then 4 else 0;
      var x4 := x3 >> n3;
      var n4: bv8 := if x4 & 0x3 == 0 then 2 else 0;
      var x5 := x4 >> n4;
      var n5: bv8 := if x5 & 0x1 == 0 then 1 else 0;
      n0 + n1 + n2 + n3 + n4 + n5
    }

    /** The digit `Display` shows for square `s`. */
    function Digit(s: Square): char {
      if Has(s) then '1' else '0'
    }

    /** The line for row `row`: its squares' digits, column 0 first, and a line break. */
    function RowDigits(row: bv8): string
      requires row < 8
    {
      [Digit(8 * row), Digit(8 * row + 1), Digit(8 * row + 2), Digit(8 * row + 3),
       Digit(8 * row + 4), Digit(8 * row + 5), Digit(8 * row + 6), Digit(8 * row + 7)] + "\n"
    }

    /** The squares of row `row` as a byte, column 0 in the lowest bit. */
    function RowByte(row: bv8): bv8
      requires row < 8
    {
      var shift := row * 8;
      var mask: bv64 := 0xff << shift;
      ((bb & mask) >> shift) as bv8
    }

    /** The text line that `Display` writes for row `row`: the row's byte, bit-reversed and printed
        as eight binary digits, most significant first. */
    function RowLine(row: bv8): string
      requires row < 8
    {
      Binary8(ReverseBits(RowByte(row))) + "\n"
    }

    /** What `Display` is meant to write: row 7 first, each row's squares column 0 first. */
    function Rendering(): (text: string)
      ensures |text| == 72
    {
      RowDigits(7) + RowDigits(6) + RowDigits(5) + RowDigits(4) +
      RowDigits(3) + RowDigits(2) + RowDigits(1) + RowDigits(0)
    }

    /** `Display`: a loop from row 7 down to row 0 that appends each row's line. */
    method ToString() returns (text: string)
      ensures text == Rendering()
    {
      text := "";
      var row: bv8 := 8;
      while row > 0
        invariant row <= 8
        invariant text == RowsAbove(row)
        decreases row as int
      {
        row := row - 1;
        RowLineDigits(this, row);
        text := text + RowLine(row);
      }
      AllRows(this);
    }

    /** The lines of rows 7 down to `row`. */
    function RowsAbove(row: bv8): string
      requires row <= 8
      decreases 8 - row as int
    {
      if row == 8 then "" else RowsAbove(row + 1) + RowDigits(row)
    }

    /** `midsquare`, as written: the Rust code multiplies the two words as 128-bit integers and takes the
        trailing-zero count of the product, which for single squares `a` and `b` is `a + b`; it returns
        the empty set when that count is even and otherwise the square with half the count. */
    static function Midsquare(left: Bitboard, right: Bitboard): (r: Bitboard)
      ensures !left.IsSingleSquare() || !right.IsSingleSquare() ==> r.IsEmpty()
      ensures r.IsEmpty() || r.IsSingleSquare()
    {
      if !left.IsSingleSquare() || !right.IsSingleSquare() then
        New()
      else
        var tz := left.TrailingZeros() + right.TrailingZeros();
        if tz & 1 == 0 then New() else SingleIsSingleSquare(tz >> 1); Single(tz >> 1)
    }

    /** `midsquare` as its doc comment describes it: for two single squares an even number of squares
        apart, the square halfway between them; the empty set otherwise. The index difference is even
        exactly when the index sum is. */
    static function DocumentedMidsquare(left: Bitboard, right: Bitboard): (r: Bitboard)
      ensures !left.IsSingleSquare() || !right.IsSingleSquare() ==> r.IsEmpty()
      ensures r.IsEmpty() || r.IsSingleSquare()
    {
      if !left.IsSingleSquare() || !right.IsSingleSquare() then
        New()
      else
        var sum := left.TrailingZeros() + right.TrailingZeros();
        if sum & 1 == 1 then New() else SingleIsSingleSquare(sum >> 1); Single(sum >> 1)
    }
  }

  /** The bitboard holding square `s` alone (`Bitboard::from(1 << s)`). */
  function Single(s: Square): (r: Bitboard)
    ensures forall t: Square :: r.Has(t) <==> t == s
  {
    var r := Bitboard((1 as bv64) << s);
    forall t: Square ensures r.Has(t) <==> t == s { SingleBit(s, t); }
    r
  }

  /** `occupied.reverse_bits()` on a `u8`. */
  function ReverseBits(v: bv8): bv8 {
    ((v & 0x01) << 7) | ((v & 0x02) << 5) | ((v & 0x04) << 3) | ((v & 0x08) << 1) |
    ((v & 0x10) >> 1) | ((v & 0x20) >> 3) | ((v & 0x40) >> 5) | ((v & 0x80) >> 7)
  }

  /** `format!("{:08b}", v)`: eight binary digits, most significant first. */
  function Binary8(v: bv8): string {
    [Bin(v, 7), Bin(v, 6), Bin(v, 5), Bin(v, 4), Bin(v, 3), Bin(v, 2), Bin(v, 1), Bin(v, 0)]
  }

  function Bin(v: bv8, k: bv8): char
    requires k < 8
  {
    if (v >> k) & 1 == 1 then '1' else '0'
  }

  // The edge masks. A shift that moves a square across a board edge would reappear on the opposite
  // edge, so the move generators clear these squares before shifting.
  const LeftEdge: Bitboard := Bitboard(1 | (1 << 16) | (1 << 32) | (1 << 48))
  const RightEdge: Bitboard := Bitboard(LeftEdge.bb << 15)
  const BottomEdge: Bitboard := Bitboard(0xff)
  const TopEdge: Bitboard := Bitboard(BottomEdge.bb << 56)

  const LeftTwo: Bitboard := Bitboard(LeftEdge.bb | (LeftEdge.bb << 9))
  const RightTwo: Bitboard := Bitboard(RightEdge.bb | (RightEdge.bb >> 9))
  const BottomTwo: Bitboard := Bitboard(BottomEdge.bb | (BottomEdge.bb << 9))
  const TopTwo: Bitboard := Bitboard(TopEdge.bb | (TopEdge.bb >> 9))

  /** The edge masks hold exactly these squares. The two-wide masks for the left and right edges add the
      playable squares of the next column in; those for the bottom and top edges add the word shifted by
      nine, which is squares 9 to 16 and 47 to 54, not the whole next row. */
  lemma EdgeMaskSquares(s: Square)
    ensures LeftEdge.Has(s) <==> s in {0, 16, 32, 48}
    ensures RightEdge.Has(s) <==> s in {15, 31, 47, 63}
    ensures BottomEdge.Has(s) <==> s < 8
    ensures TopEdge.Has(s) <==> 56 <= s
    ensures LeftTwo.Has(s) <==> s in {0, 16, 32, 48, 9, 25, 41, 57}
    ensures RightTwo.Has(s) <==> s in {15, 31, 47, 63, 6, 22, 38, 54}
    ensures BottomTwo.Has(s) <==> s < 8 || 9 <= s <= 16
    ensures TopTwo.Has(s) <==> 56 <= s || 47 <= s <= 54
  {}

  /** Two bitboards with the same members are equal: the lowest square of their difference would be a
      member of one and not of the other. */
  lemma {:induction false} Extensionality(x: Bitboard, y: Bitboard)
    requires forall s: Square :: x.Has(s) <==> y.Has(s)
    ensures x == y
  {
    if x.bb != y.bb {
      var t := Difference(x, y);
      assert false;
    }
  }

  lemma {:induction false} Difference(x: Bitboard, y: Bitboard) returns (t: Square)
    requires x.bb != y.bb
    ensures x.Has(t) != y.Has(t)
  {
    XorNonZero(x.bb, y.bb);
    t := LowestMember(x.Xor(y));
  }

  lemma LowestMember(d: Bitboard) returns (t: Square)
    requires d.bb != 0
    ensures d.Has(t)
  {
    t := d.TrailingZeros();
  }

  /** A set with a member is not empty. */
  lemma HasNonEmpty(x: Bitboard, s: Square)
    requires x.Has(s)
    ensures x.IsNotEmpty()
  {}

  /** `x` holds the square `s` and nothing else. */
  ghost predicate Only(x: Bitboard, s: Square) {
    forall u: Square :: x.Has(u) <==> u == s
  }

  /** Intersecting with a single square tests membership of that square, with the single square on
      either side of the `&`. */
  lemma {:induction false} SingleMeets(b: Bitboard, x: Bitboard, s: Square)
    requires Only(x, s)
    ensures x.And(b).IsNotEmpty() <==> b.Has(s)
    ensures b.And(x).IsNotEmpty() <==> b.Has(s)
  {
    if b.Has(s) {
      HasNonEmpty(x.And(b), s);
      HasNonEmpty(b.And(x), s);
    }
    if x.And(b).IsNotEmpty() {
      var u := LowestMember(x.And(b));
    }
    if b.And(x).IsNotEmpty() {
      var u := LowestMember(b.And(x));
    }
  }

  lemma XorNonZero(x: bv64, y: bv64)
    requires x != y
    ensures x ^ y != 0
  {}

  lemma ComplementWord(x: bv64)
    ensures !!x == x && x & !x == 0 && !(x | !x) == 0
  {}

  /** The empty test agrees with the set of squares. */
  lemma {:induction false} IsEmptyIffNoSquares(b: Bitboard)
    ensures b.IsEmpty() <==> b.Squares() == {}
    ensures b.IsNotEmpty() <==> !b.IsEmpty()
  {
    if !b.IsEmpty() {
      var t := b.TrailingZeros();
      assert t in b.Squares();
    }
  }

  /** `is_single_square` holds exactly when the bitboard has one member. */
  lemma {:induction false} SingleSquareIffOneMember(b: Bitboard)
    ensures b.IsSingleSquare() <==> |b.Squares()| == 1
  {
    if b.IsSingleSquare() {
      SingleSquareHasOneMember(b);
    }
    if |b.Squares()| == 1 {
      OneMemberIsSingleSquare(b);
    }
  }

  lemma {:induction false} SingleSquareHasOneMember(b: Bitboard)
    requires b.IsSingleSquare()
    ensures |b.Squares()| == 1
  {
    var t := SingleSquareIsSingle(b);
    SquaresOfSingle(t);
  }

  lemma SquaresOfSingle(t: Square)
    ensures Single(t).Squares() == {t}
  {}

  lemma {:induction false} OneMemberIsSingleSquare(b: Bitboard)
    requires |b.Squares()| == 1
    ensures b.IsSingleSquare()
  {
    var t := OneMember(b.Squares());
    SquaresOfSingle(t);
    SameSquares(b, Single(t));
    SingleIsSingleSquare(t);
  }

  /** Bitboards standing for the same set of squares are equal. */
  lemma {:induction false} SameSquares(x: Bitboard, y: Bitboard)
    requires x.Squares() == y.Squares()
    ensures x == y
  {
    forall s: Square ensures x.Has(s) <==> y.Has(s) {
      assert s in x.Squares() <==> s in y.Squares();
    }
    Extensionality(x, y);
  }

  lemma OneMember(S: set<Square>) returns (t: Square)
    requires |S| == 1
    ensures S == {t}
  {
    t :| t in S;
    assert |S - {t}| == 0;
  }

  /** `Single(s)` passes `is_single_square`. */
  lemma SingleIsSingleSquare(s: Square)
    ensures Single(s).IsSingleSquare()
  {
    PowerOfTwo(s);
  }

  /** The trailing-zero count of `Single(s)` is `s`. */
  lemma SingleTrailingZeros(s: Square)
    ensures Single(s).TrailingZeros() == s
  {
    PowerOfTwoZeros(s);
  }

  /** The bitboards that pass `is_single_square` are exactly the single squares. */
  lemma {:induction false} SingleSquareIsSingle(b: Bitboard) returns (t: Square)
    requires b.IsSingleSquare()
    ensures b == Single(t)
  {
    t := LowestMember(b);
    PowerOfTwoBit(b.bb, t);
  }

  /** For single squares `a` and `b`, `midsquare` as written gives the empty set when `a + b` is even and
      the square `(a + b) / 2` when it is odd. */
  lemma {:induction false} MidsquareOfSquares(a: Square, b: Square)
    ensures Bitboard.Midsquare(Single(a), Single(b)) ==
            if (a + b) % 2 == 0 then Bitboard.New() else Single((a + b) / 2)
  {
    SingleIsSingleSquare(a);
    SingleIsSingleSquare(b);
    SingleTrailingZeros(a);
    SingleTrailingZeros(b);
    HalfSum(a, b);
  }

  /** For single squares `a` and `b`, the documented `midsquare` gives the square `(a + b) / 2` when
      `a` and `b` are an even number of squares apart, and the empty set otherwise. */
  lemma {:induction false} DocumentedMidsquareOfSquares(a: Square, b: Square)
    ensures Bitboard.DocumentedMidsquare(Single(a), Single(b)) ==
            if (b as int - a as int) % 2 == 0 then Single((a + b) / 2) else Bitboard.New()
  {
    SingleIsSingleSquare(a);
    SingleIsSingleSquare(b);
    SingleTrailingZeros(a);
    SingleTrailingZeros(b);
    HalfSum(a, b);
    SumParity(a, b);
  }

  /** `midsquare` does not depend on the order of its arguments. */
  lemma MidsquareSymmetric(left: Bitboard, right: Bitboard)
    ensures Bitboard.Midsquare(left, right) == Bitboard.Midsquare(right, left)
  {}

  /** A capture moves a piece by 14 or 18 squares, so the index sum of start and end is even, and
      `midsquare` as written returns the empty set for every such pair: it never finds the jumped square,
      which its doc comment promises. */
  lemma {:induction false} MidsquareOfJumpIsEmpty(start: Square, end: Square)
    requires end as int - start as int in {14, 18, -14, -18}
    ensures Bitboard.Midsquare(Single(start), Single(end)).IsEmpty()
  {
    MidsquareOfSquares(start, end);
    EvenSum(start, end);
  }

  /** The repository's test expects `midsquare` of squares 27 and 41 to be square 34; as written the
      result is empty. */
  lemma MidsquareDocExample()
    ensures Bitboard.Midsquare(Single(27), Single(41)) == Bitboard.New()
    ensures Bitboard.Midsquare(Single(27), Single(41)) != Single(34)
  {
    MidsquareOfJumpIsEmpty(27, 41);
    assert Single(34).Has(34);
  }

  /** The complement reverses itself. */
  lemma NotInvolution(x: Bitboard)
    ensures x.Not().Not() == x
  {
    ComplementWord(x.bb);
  }

  /** A set meets its complement nowhere, and the two together cover the board. */
  lemma ComplementPartition(x: Bitboard)
    ensures x.And(x.Not()).IsEmpty()
    ensures x.Or(x.Not()).Not().IsEmpty()
  {
    ComplementWord(x.bb);
  }

  /** `IsSubsetOf` is set inclusion. */
  lemma {:induction false} SubsetIffMembers(a: Bitboard, b: Bitboard)
    ensures a.IsSubsetOf(b) <==> forall s: Square :: a.Has(s) ==> b.Has(s)
  {
    var d := a.And(b.Not());
    if !d.IsEmpty() {
      var t := d.TrailingZeros();
      assert a.Has(t) && !b.Has(t);
    } else {
      forall s: Square | a.Has(s) ensures b.Has(s) {
        assert !d.Has(s);
      }
    }
  }

  /** What the left shifts by the move generators' amounts do to each square. */
  lemma ShlSquares(x: Bitboard, s: Square)
    ensures x.Shl(7).Has(s) <==> 7 <= s && x.Has(s - 7)
    ensures x.Shl(9).Has(s) <==> 9 <= s && x.Has(s - 9)
  {}

  /** What the right shifts by the move generators' amounts do to each square. */
  lemma ShrSquares(x: Bitboard, s: Square)
    ensures x.Shr(7).Has(s) <==> s < 57 && x.Has(s + 7)
    ensures x.Shr(9).Has(s) <==> s < 55 && x.Has(s + 9)
  {}

  /** The character `Display` is meant to show for square `s` sits on line 7 - row, at the square's
      column. */
  lemma RenderingPlacesSquare(b: Bitboard, s: Square)
    ensures b.Rendering()[9 * (7 - Row(s) as int) + Col(s) as int] == b.Digit(s)
  {
  }

  lemma AllRows(b: Bitboard)
    ensures b.RowsAbove(0) == b.Rendering()
  {
    assert b.RowsAbove(7) == b.RowDigits(7);
  }

  lemma RowLineDigits(b: Bitboard, row: bv8)
    requires row < 8
    ensures b.RowLine(row) == b.RowDigits(row)
  {
    var v := b.RowByte(row);
    ReversedDigits(v);
    RowByteBit(b, row, 0);
    RowByteBit(b, row, 1);
    RowByteBit(b, row, 2);
    RowByteBit(b, row, 3);
    RowByteBit(b, row, 4);
    RowByteBit(b, row, 5);
    RowByteBit(b, row, 6);
    RowByteBit(b, row, 7);
  }

  /** Bit `c` of a row's byte shows square 8 * row + c. */
  lemma RowByteBit(b: Bitboard, row: bv8, c: bv8)
    requires row < 8 && c < 8
    ensures Bin(b.RowByte(row), c) == b.Digit(8 * row + c)
  {}

  /** Printing the reversed byte writes its bits lowest first. */
  lemma ReversedDigits(v: bv8)
    ensures Binary8(ReverseBits(v)) == [Bin(v, 0), Bin(v, 1), Bin(v, 2), Bin(v, 3), Bin(v, 4), Bin(v, 5), Bin(v, 6), Bin(v, 7)]
  {}

  /** The rendering of 0xAA55AA000055AA55 given in the repository's tests. */
  lemma DisplayExample()
    ensures Bitboard(0xAA55AA000055AA55).Rendering() ==
            "01010101\n" + "10101010\n" + "01010101\n" + "00000000\n" +
            "00000000\n" + "10101010\n" + "01010101\n" + "10101010\n"
  {
    var b := Bitboard(0xAA55AA000055AA55);
    assert b.RowDigits(7) == "01010101\n";
    assert b.RowDigits(6) == "10101010\n";
    assert b.RowDigits(5) == "01010101\n";
    assert b.RowDigits(4) == "00000000\n";
    assert b.RowDigits(3) == "00000000\n";
    assert b.RowDigits(2) == "10101010\n";
    assert b.RowDigits(1) == "01010101\n";
    assert b.RowDigits(0) == "10101010\n";
  }

  // Single-bit facts, each proved by the bit-vector solver for one square at a time.

  lemma OrBit(x: Bitboard, y: Bitboard, s: Square)
    ensures Bitboard(x.bb | y.bb).Has(s) <==> x.Has(s) || y.Has(s)
  {}

  lemma AndBit(x: Bitboard, y: Bitboard, s: Square)
    ensures Bitboard(x.bb & y.bb).Has(s) <==> x.Has(s) && y.Has(s)
  {}

  lemma XorBit(x: Bitboard, y: Bitboard, s: Square)
    ensures Bitboard(x.bb ^ y.bb).Has(s) <==> x.Has(s) != y.Has(s)
  {}

  lemma NotBit(x: Bitboard, s: Square)
    ensures Bitboard(!x.bb).Has(s) <==> !x.Has(s)
  {}

  lemma SingleBit(s: Square, t: Square)
    ensures Bitboard((1 as bv64) << s).Has(t) <==> t == s
  {}

  lemma PowerOfTwo(s: Square)
    ensures var x: bv64 := (1 as bv64) << s; x != 0 && x & (x - 1) == 0
  {}

  lemma PowerOfTwoZeros(s: Square)
    ensures Bitboard((1 as bv64) << s).TrailingZeros() == s
  {}

  lemma PowerOfTwoBit(x: bv64, s: Square)
    requires x != 0 && x & (x - 1) == 0 && (x >> s) & 1 == 1
    ensures x == (1 as bv64) << s
  {}

  lemma HalfSum(a: Square, b: Square)
    ensures (a + b) & 1 == 0 <==> (a + b) % 2 == 0
    ensures (a + b) >> 1 == (a + b) / 2
  {}

  lemma IntParity(a: Square)
    ensures (a as int) % 2 == (a % 2) as int
  {}

  lemma SumParityBits(a: Square, b: Square)
    ensures (a + b) % 2 == 0 <==> a % 2 == b % 2
  {}

  lemma DifferenceParity(x: int, y: int)
    ensures (y - x) % 2 == 0 <==> x % 2 == y % 2
  {}

  /** Two squares are an even number of squares apart exactly when their index sum is even. */
  lemma SumParity(a: Square, b: Square)
    ensures (a + b) % 2 == 0 <==> (b as int - a as int) % 2 == 0
  {
    IntParity(a);
    IntParity(b);
    SumParityBits(a, b);
    DifferenceParity(a as int, b as int);
    assert (a % 2) as int == (b % 2) as int <==> a % 2 == b % 2;
  }

  lemma EvenSum(a: Square, b: Square)
    requires b as int - a as int in {14, 18, -14, -18}
    ensures (a + b) % 2 == 0
  {}
}
