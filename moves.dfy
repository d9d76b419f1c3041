/**
 * The move generators: for a set of source squares, the squares reachable by
 * one diagonal step and by one jump over an opponent, computed by masking the
 * edge a shift would wrap across, shifting by 7 or 9, and intersecting with the
 * empty or the opponents' squares.
 */
module Moves {
  import opened Bitboards
  import opened BitboardLaws
  import opened GameTypes

  /** The four diagonal directions, named as seen from White's side of the board. */
  datatype Direction = UpLeft | UpRight | DownLeft | DownRight

  /** Men move forward only: White up the board, Black down; kings move in every direction. */
  predicate Allowed(color: PlayerColor, king: bool, d: Direction) {
    king || (color == White && (d == UpLeft || d == UpRight)) || (color == Black && (d == DownLeft || d == DownRight))
  }

  // The board's geometry, stated by rows and columns.

  /** The square one diagonal step from `s` in direction `d`, if it is on the board. */
  function Neighbor(s: Square, d: Direction): Option<Square> {
    match d
    case UpLeft => if Row(s) < 7 && Col(s) > 0 then Some(8 * (Row(s) + 1) + (Col(s) - 1)) else None
    case UpRight => if Row(s) < 7 && Col(s) < 7 then Some(8 * (Row(s) + 1) + (Col(s) + 1)) else None
    case DownLeft => if Row(s) > 0 && Col(s) > 0 then Some(8 * (Row(s) - 1) + (Col(s) - 1)) else None
    case DownRight => if Row(s) > 0 && Col(s) < 7 then Some(8 * (Row(s) - 1) + (Col(s) + 1)) else None
  }

  /** The square two diagonal steps from `s` in direction `d`, if it is on the board. */
  function Jump(s: Square, d: Direction): Option<Square> {
    if Neighbor(s, d).Some? then Neighbor(Neighbor(s, d).value, d) else None
  }

  /** The two jumps the capture masks leave out: the two-square masks for the top and bottom edges
      also hold squares 47 and 16, which can still jump up-left to 61 and down-right to 2. */
  predicate Missed(s: Square, d: Direction) {
    (s == 47 && d == UpLeft) || (s == 16 && d == DownRight)
  }

  // The generators' building blocks, as the Rust code computes them.

  /** `<< 7`, `<< 9`, `>> 9`, `>> 7`: the shift that carries a square one step in direction `d`. */
  function Towards(b: Bitboard, d: Direction): Bitboard {
    match d
    case UpLeft => b.Shl(7)
    case UpRight => b.Shl(9)
    case DownLeft => b.Shr(9)
    case DownRight => b.Shr(7)
  }

  /** The square that `Towards(_, d)` carries onto `t`, if any. */
  function Behind(t: Square, d: Direction): Option<Square> {
    match d
    case UpLeft => if t >= 7 then Some(t - 7) else None
    case UpRight => if t >= 9 then Some(t - 9) else None
    case DownLeft => if t < 55 then Some(t + 9) else None
    case DownRight => if t < 57 then Some(t + 7) else None
  }

  /** The edge squares a step in direction `d` may not start from (`!LEFT_EDGE & !TOP_EDGE` and so on). */
  predicate StepBlocked(s: Square, d: Direction) {
    match d
    case UpLeft => LeftEdge.Has(s) || TopEdge.Has(s)
    case UpRight => RightEdge.Has(s) || TopEdge.Has(s)
    case DownLeft => LeftEdge.Has(s) || BottomEdge.Has(s)
    case DownRight => RightEdge.Has(s) || BottomEdge.Has(s)
  }

  /** The squares near the edges a jump in direction `d` may not start from. */
  predicate JumpBlocked(s: Square, d: Direction) {
    match d
    case UpLeft => LeftTwo.Has(s) || TopTwo.Has(s)
    case UpRight => RightTwo.Has(s) || TopTwo.Has(s)
    case DownLeft => LeftTwo.Has(s) || BottomTwo.Has(s)
    case DownRight => RightTwo.Has(s) || BottomTwo.Has(s)
  }

  /** `squares & !LEFT_EDGE & !TOP_EDGE` and its three mirror images. */
  function StepSources(squares: Bitboard, d: Direction): (r: Bitboard)
    ensures forall s: Square :: r.Has(s) <==> squares.Has(s) && !StepBlocked(s, d)
  {
    match d
    case UpLeft => squares.And(LeftEdge.Not()).And(TopEdge.Not())
    case UpRight => squares.And(RightEdge.Not()).And(TopEdge.Not())
    case DownLeft => squares.And(LeftEdge.Not()).And(BottomEdge.Not())
    case DownRight => squares.And(RightEdge.Not()).And(BottomEdge.Not())
  }

  /** `squares & !LEFT_TWO & !TOP_TWO` and its three mirror images. */
  function JumpSources(squares: Bitboard, d: Direction): (r: Bitboard)
    ensures forall s: Square :: r.Has(s) <==> squares.Has(s) && !JumpBlocked(s, d)
  {
    match d
    case UpLeft => squares.And(LeftTwo.Not()).And(TopTwo.Not())
    case UpRight => squares.And(RightTwo.Not()).And(TopTwo.Not())
    case DownLeft => squares.And(LeftTwo.Not()).And(BottomTwo.Not())
    case DownRight => squares.And(RightTwo.Not()).And(BottomTwo.Not())
  }

  /** `ul`, `ur`, `dl`, `dr` of `piece_moves`: the empty squares one step in direction `d`. */
  function StepTargets(squares: Bitboard, d: Direction, empty: Bitboard): Bitboard {
    Towards(StepSources(squares, d), d).And(empty)
  }

  /** `ul`, `ur`, `dl`, `dr` of `piece_captures`: the empty squares two steps in direction `d` with an
      opponent on the square between. */
  function JumpTargets(squares: Bitboard, d: Direction, opponents: Bitboard, empty: Bitboard): Bitboard {
    Towards(Towards(JumpSources(squares, d), d).And(opponents), d).And(empty)
  }

  /** `piece_moves`: the squares the pieces on `squares`, of colour `color` and the given rank, can
      step to. */
  function PieceMoves(p: PieceSets, color: PlayerColor, king: bool, squares: Bitboard): (r: Bitboard)
    ensures forall t: Square :: r.Has(t) ==> Empty(p).Has(t)
  {
    var empty := Empty(p);
    var ul := StepTargets(squares, UpLeft, empty);
    var ur := StepTargets(squares, UpRight, empty);
    var dl := StepTargets(squares, DownLeft, empty);
    var dr := StepTargets(squares, DownRight, empty);
    Combine(color, king, ul, ur, dl, dr)
  }

  /** `piece_captures`: the squares the pieces on `squares` can land on by jumping an opponent. */
  function PieceCaptures(p: PieceSets, color: PlayerColor, king: bool, squares: Bitboard): (r: Bitboard)
    ensures forall t: Square :: r.Has(t) ==> Empty(p).Has(t)
  {
    var opponents := Opponents(p, color);
    var empty := Empty(p);
    var ul := JumpTargets(squares, UpLeft, opponents, empty);
    var ur := JumpTargets(squares, UpRight, opponents, empty);
    var dl := JumpTargets(squares, DownLeft, opponents, empty);
    var dr := JumpTargets(squares, DownRight, opponents, empty);
    Combine(color, king, ul, ur, dl, dr)
  }

  /** The tail the two generators share: a king takes all four directions, a man the two forward ones. */
  function Combine(color: PlayerColor, king: bool, ul: Bitboard, ur: Bitboard, dl: Bitboard, dr: Bitboard): Bitboard {
    if king then
      ul.Or(ur).Or(dl).Or(dr)
    else
      match color
      case White => ul.Or(ur)
      case Black => dl.Or(dr)
  }

  /** `color_moves`: the steps of `color`'s men, by the men's rule, and of its kings. */
  function ColorMoves(p: PieceSets, color: PlayerColor): Bitboard {
    PieceMoves(p, color, false, Men(p, color)).Or(PieceMoves(p, color, true, Kings(p, color)))
  }

  /** `color_captures`: the capture landings of `color`'s men and of its kings. */
  function ColorCaptures(p: PieceSets, color: PlayerColor): Bitboard {
    PieceCaptures(p, color, false, Men(p, color)).Or(PieceCaptures(p, color, true, Kings(p, color)))
  }

  // Per-square readings of the building blocks.

  lemma TowardsHas(b: Bitboard, d: Direction, t: Square)
    ensures Towards(b, d).Has(t) <==> Behind(t, d).Some? && b.Has(Behind(t, d).value)
  {
    match d
    case UpLeft => ShlSquares(b, t);
    case UpRight => ShlSquares(b, t);
    case DownLeft => ShrSquares(b, t);
    case DownRight => ShrSquares(b, t);
  }

  lemma StepTargetsHas(squares: Bitboard, d: Direction, empty: Bitboard, t: Square)
    ensures StepTargets(squares, d, empty).Has(t) <==>
            empty.Has(t) && Behind(t, d).Some? && squares.Has(Behind(t, d).value) &&
            !StepBlocked(Behind(t, d).value, d)
  {
    TowardsHas(StepSources(squares, d), d, t);
  }

  lemma JumpTargetsHas(squares: Bitboard, d: Direction, opponents: Bitboard, empty: Bitboard, t: Square)
    ensures JumpTargets(squares, d, opponents, empty).Has(t) <==>
            empty.Has(t) && Behind(t, d).Some? && opponents.Has(Behind(t, d).value) &&
            Behind(Behind(t, d).value, d).Some? && squares.Has(Behind(Behind(t, d).value, d).value) &&
            !JumpBlocked(Behind(Behind(t, d).value, d).value, d)
  {
    var inner := Towards(JumpSources(squares, d), d);
    TowardsHas(inner.And(opponents), d, t);
    if Behind(t, d).Some? {
      TowardsHas(JumpSources(squares, d), d, Behind(t, d).value);
    }
  }

  /** Which directions' targets the generators collect, by colour and rank. */
  lemma CombineHas(color: PlayerColor, king: bool, ul: Bitboard, ur: Bitboard, dl: Bitboard, dr: Bitboard, t: Square)
    ensures Combine(color, king, ul, ur, dl, dr).Has(t) <==>
            (Allowed(color, king, UpLeft) && ul.Has(t)) || (Allowed(color, king, UpRight) && ur.Has(t)) ||
            (Allowed(color, king, DownLeft) && dl.Has(t)) || (Allowed(color, king, DownRight) && dr.Has(t))
  {}

  lemma PieceMovesHas(p: PieceSets, color: PlayerColor, king: bool, squares: Bitboard, t: Square)
    ensures PieceMoves(p, color, king, squares).Has(t) <==>
            (Allowed(color, king, UpLeft) && StepTargets(squares, UpLeft, Empty(p)).Has(t)) ||
            (Allowed(color, king, UpRight) && StepTargets(squares, UpRight, Empty(p)).Has(t)) ||
            (Allowed(color, king, DownLeft) && StepTargets(squares, DownLeft, Empty(p)).Has(t)) ||
            (Allowed(color, king, DownRight) && StepTargets(squares, DownRight, Empty(p)).Has(t))
  {
    var e := Empty(p);
    assert PieceMoves(p, color, king, squares) ==
           Combine(color, king, StepTargets(squares, UpLeft, e), StepTargets(squares, UpRight, e),
                   StepTargets(squares, DownLeft, e), StepTargets(squares, DownRight, e));
    CombineHas(color, king, StepTargets(squares, UpLeft, e), StepTargets(squares, UpRight, e),
               StepTargets(squares, DownLeft, e), StepTargets(squares, DownRight, e), t);
  }

  lemma PieceCapturesHas(p: PieceSets, color: PlayerColor, king: bool, squares: Bitboard, t: Square)
    ensures PieceCaptures(p, color, king, squares).Has(t) <==>
            (Allowed(color, king, UpLeft) && JumpTargets(squares, UpLeft, Opponents(p, color), Empty(p)).Has(t)) ||
            (Allowed(color, king, UpRight) && JumpTargets(squares, UpRight, Opponents(p, color), Empty(p)).Has(t)) ||
            (Allowed(color, king, DownLeft) && JumpTargets(squares, DownLeft, Opponents(p, color), Empty(p)).Has(t)) ||
            (Allowed(color, king, DownRight) && JumpTargets(squares, DownRight, Opponents(p, color), Empty(p)).Has(t))
  {
    var o := Opponents(p, color);
    var e := Empty(p);
    assert PieceCaptures(p, color, king, squares) ==
           Combine(color, king, JumpTargets(squares, UpLeft, o, e), JumpTargets(squares, UpRight, o, e),
                   JumpTargets(squares, DownLeft, o, e), JumpTargets(squares, DownRight, o, e));
    CombineHas(color, king, JumpTargets(squares, UpLeft, o, e), JumpTargets(squares, UpRight, o, e),
               JumpTargets(squares, DownLeft, o, e), JumpTargets(squares, DownRight, o, e), t);
  }

  // Geometry: on playable squares the masks and shifts agree with rows and columns.

  /** From a playable square, a step is blocked exactly when it would leave the board, and otherwise the
      shift lands on the diagonal neighbour, which is playable. */
  lemma StepGeometry(s: Square, d: Direction)
    requires Playable.Has(s)
    ensures !StepBlocked(s, d) <==> Neighbor(s, d).Some?
    ensures Neighbor(s, d).Some? ==> Behind(Neighbor(s, d).value, d) == Some(s) && Playable.Has(Neighbor(s, d).value)
  {
    EdgeMaskSquares(s);
    PlayableSquares(s);
    if Neighbor(s, d).Some? {
      PlayableSquares(Neighbor(s, d).value);
    }
  }

  /** From a playable square, a jump is blocked exactly when it would leave the board or is one of the
      two missed jumps. */
  lemma JumpGeometry(s: Square, d: Direction)
    requires Playable.Has(s)
    ensures !JumpBlocked(s, d) <==> Jump(s, d).Some? && !Missed(s, d)
  {
    EdgeMaskSquares(s);
    PlayableSquares(s);
  }

  /** The double shift lands two steps away, on a playable square. */
  lemma JumpLanding(s: Square, d: Direction)
    requires Playable.Has(s) && Jump(s, d).Some?
    ensures Behind(Neighbor(s, d).value, d) == Some(s)
    ensures Behind(Jump(s, d).value, d) == Neighbor(s, d)
    ensures Playable.Has(Jump(s, d).value)
  {
    PlayableSquares(s);
    PlayableSquares(Jump(s, d).value);
  }
  /** `Behind` is one-to-one where it is defined. */
  lemma BehindInjective(a: Square, b: Square, d: Direction)
    requires Behind(a, d).Some? && Behind(a, d) == Behind(b, d)
    ensures a == b
  {}

  // What the generators compute, read square by square.

  /** The direction whose targets hold a given step target. */
  lemma StepDirection(p: PieceSets, color: PlayerColor, king: bool, squares: Bitboard, t: Square) returns (d: Direction)
    requires PieceMoves(p, color, king, squares).Has(t)
    ensures Allowed(color, king, d) && StepTargets(squares, d, Empty(p)).Has(t)
  {
    var e := Empty(p);
    PieceMovesHas(p, color, king, squares, t);
    if Allowed(color, king, UpLeft) && StepTargets(squares, UpLeft, e).Has(t) {
      d := UpLeft;
    } else if Allowed(color, king, UpRight) && StepTargets(squares, UpRight, e).Has(t) {
      d := UpRight;
    } else if Allowed(color, king, DownLeft) && StepTargets(squares, DownLeft, e).Has(t) {
      d := DownLeft;
    } else {
      d := DownRight;
    }
  }

  /** The direction whose targets hold a given capture landing. */
  lemma JumpDirection(p: PieceSets, color: PlayerColor, king: bool, squares: Bitboard, t: Square) returns (d: Direction)
    requires PieceCaptures(p, color, king, squares).Has(t)
    ensures Allowed(color, king, d) && JumpTargets(squares, d, Opponents(p, color), Empty(p)).Has(t)
  {
    var o := Opponents(p, color);
    var e := Empty(p);
    PieceCapturesHas(p, color, king, squares, t);
    if Allowed(color, king, UpLeft) && JumpTargets(squares, UpLeft, o, e).Has(t) {
      d := UpLeft;
    } else if Allowed(color, king, UpRight) && JumpTargets(squares, UpRight, o, e).Has(t) {
      d := UpRight;
    } else if Allowed(color, king, DownLeft) && JumpTargets(squares, DownLeft, o, e).Has(t) {
      d := DownLeft;
    } else {
      d := DownRight;
    }
  }

  /** A step target in one direction is the diagonal neighbour of a playable source square. */
  lemma StepTargetSource(squares: Bitboard, d: Direction, e: Bitboard, t: Square) returns (s: Square)
    requires squares.IsSubsetOf(Playable)
    requires StepTargets(squares, d, e).Has(t)
    ensures squares.Has(s) && Neighbor(s, d) == Some(t) && e.Has(t) && Playable.Has(t)
  {
    StepTargetsHas(squares, d, e, t);
    s := Behind(t, d).value;
    SubsetIffMembers(squares, Playable);
    StepGeometry(s, d);
    BehindInjective(t, Neighbor(s, d).value, d);
  }

  /** A jump target in one direction lies two diagonal steps from a playable source square, over an
      opponent, and is not one of the missed jumps. */
  lemma JumpTargetSource(squares: Bitboard, d: Direction, o: Bitboard, e: Bitboard, t: Square) returns (s: Square)
    requires squares.IsSubsetOf(Playable)
    requires JumpTargets(squares, d, o, e).Has(t)
    ensures squares.Has(s) && Jump(s, d) == Some(t) && !Missed(s, d)
    ensures o.Has(Neighbor(s, d).value) && e.Has(t) && Playable.Has(t)
  {
    JumpTargetsHas(squares, d, o, e, t);
    var m := Behind(t, d).value;
    s := Behind(m, d).value;
    SubsetIffMembers(squares, Playable);
    JumpGeometry(s, d);
    JumpLanding(s, d);
    BehindInjective(m, Neighbor(s, d).value, d);
    BehindInjective(t, Jump(s, d).value, d);
  }

  /** Every step target is an empty playable square one diagonal step, in a direction the piece may
      move in, from one of the source squares. */
  lemma PieceMovesSound(p: PieceSets, color: PlayerColor, king: bool, squares: Bitboard, t: Square)
      returns (s: Square, d: Direction)
    requires squares.IsSubsetOf(Playable)
    requires PieceMoves(p, color, king, squares).Has(t)
    ensures squares.Has(s) && Allowed(color, king, d) && Neighbor(s, d) == Some(t)
    ensures Empty(p).Has(t) && Playable.Has(t)
  {
    d := StepDirection(p, color, king, squares, t);
    s := StepTargetSource(squares, d, Empty(p), t);
  }

  /** Every empty diagonal neighbour of a playable source square, in a direction the piece may move in,
      is a step target. */
  lemma PieceMovesComplete(p: PieceSets, color: PlayerColor, king: bool, squares: Bitboard, s: Square, d: Direction)
    requires squares.Has(s) && Playable.Has(s) && Allowed(color, king, d)
    requires Neighbor(s, d).Some? && Empty(p).Has(Neighbor(s, d).value)
    ensures PieceMoves(p, color, king, squares).Has(Neighbor(s, d).value)
  {
    var t := Neighbor(s, d).value;
    StepGeometry(s, d);
    StepTargetsHas(squares, d, Empty(p), t);
    PieceMovesHas(p, color, king, squares, t);
  }

  /** Every capture landing is an empty playable square two diagonal steps, in a direction the piece may
      move in, from a source square, with an opponent's piece on the square between, and is not one of
      the two missed jumps. */
  lemma PieceCapturesSound(p: PieceSets, color: PlayerColor, king: bool, squares: Bitboard, t: Square)
      returns (s: Square, d: Direction)
    requires squares.IsSubsetOf(Playable)
    requires PieceCaptures(p, color, king, squares).Has(t)
    ensures squares.Has(s) && Allowed(color, king, d) && Jump(s, d) == Some(t) && !Missed(s, d)
    ensures Opponents(p, color).Has(Neighbor(s, d).value)
    ensures Empty(p).Has(t) && Playable.Has(t)
  {
    d := JumpDirection(p, color, king, squares, t);
    s := JumpTargetSource(squares, d, Opponents(p, color), Empty(p), t);
  }

  /** Every jump over an opponent onto an empty square, from a playable source square in a direction the
      piece may move in, is a capture landing, except for the two missed jumps. */
  lemma PieceCapturesComplete(p: PieceSets, color: PlayerColor, king: bool, squares: Bitboard, s: Square, d: Direction)
    requires squares.Has(s) && Playable.Has(s) && Allowed(color, king, d)
    requires Jump(s, d).Some? && !Missed(s, d)
    requires Opponents(p, color).Has(Neighbor(s, d).value) && Empty(p).Has(Jump(s, d).value)
    ensures PieceCaptures(p, color, king, squares).Has(Jump(s, d).value)
  {
    var t := Jump(s, d).value;
    JumpGeometry(s, d);
    JumpLanding(s, d);
    JumpTargetsHas(squares, d, Opponents(p, color), Empty(p), t);
    PieceCapturesHas(p, color, king, squares, t);
  }

  /** The jump from 47 up-left to 61 is on the board, but the generators never produce it, whatever the
      position and whoever moves. */
  lemma MissedJumpUpLeft(p: PieceSets, color: PlayerColor, king: bool)
    ensures Jump(47, UpLeft) == Some(61)
    ensures !PieceCaptures(p, color, king, Single(47)).Has(61)
  {
    forall d: Direction ensures !JumpTargets(Single(47), d, Opponents(p, color), Empty(p)).Has(61) {
      JumpTargetsHas(Single(47), d, Opponents(p, color), Empty(p), 61);
      EdgeMaskSquares(47);
    }
    PieceCapturesHas(p, color, king, Single(47), 61);
  }

  /** The jump from 16 down-right to 2 is on the board, but the generators never produce it. */
  lemma MissedJumpDownRight(p: PieceSets, color: PlayerColor, king: bool)
    ensures Jump(16, DownRight) == Some(2)
    ensures !PieceCaptures(p, color, king, Single(16)).Has(2)
  {
    forall d: Direction ensures !JumpTargets(Single(16), d, Opponents(p, color), Empty(p)).Has(2) {
      JumpTargetsHas(Single(16), d, Opponents(p, color), Empty(p), 2);
      EdgeMaskSquares(16);
    }
    PieceCapturesHas(p, color, king, Single(16), 2);
  }

  // Algebraic laws of the generators.

  /** Each of the generators' shifts distributes over `|`. */
  lemma TowardsDistributes(x: Bitboard, y: Bitboard, d: Direction)
    ensures Towards(x.Or(y), d) == Towards(x, d).Or(Towards(y, d))
  {
    match d
    case UpLeft => ShlDistributes7(x, y);
    case UpRight => ShlDistributes9(x, y);
    case DownLeft => ShrDistributes9(x, y);
    case DownRight => ShrDistributes7(x, y);
  }

  lemma StepSourcesUnion(a: Bitboard, b: Bitboard, d: Direction)
    ensures StepSources(a.Or(b), d) == StepSources(a, d).Or(StepSources(b, d))
  {
    match d
    case UpLeft =>
      AndDistributes(a, b, LeftEdge.Not());
      AndDistributes(a.And(LeftEdge.Not()), b.And(LeftEdge.Not()), TopEdge.Not());
    case UpRight =>
      AndDistributes(a, b, RightEdge.Not());
      AndDistributes(a.And(RightEdge.Not()), b.And(RightEdge.Not()), TopEdge.Not());
    case DownLeft =>
      AndDistributes(a, b, LeftEdge.Not());
      AndDistributes(a.And(LeftEdge.Not()), b.And(LeftEdge.Not()), BottomEdge.Not());
    case DownRight =>
      AndDistributes(a, b, RightEdge.Not());
      AndDistributes(a.And(RightEdge.Not()), b.And(RightEdge.Not()), BottomEdge.Not());
  }

  lemma JumpSourcesUnion(a: Bitboard, b: Bitboard, d: Direction)
    ensures JumpSources(a.Or(b), d) == JumpSources(a, d).Or(JumpSources(b, d))
  {
    match d
    case UpLeft =>
      AndDistributes(a, b, LeftTwo.Not());
      AndDistributes(a.And(LeftTwo.Not()), b.And(LeftTwo.Not()), TopTwo.Not());
    case UpRight =>
      AndDistributes(a, b, RightTwo.Not());
      AndDistributes(a.And(RightTwo.Not()), b.And(RightTwo.Not()), TopTwo.Not());
    case DownLeft =>
      AndDistributes(a, b, LeftTwo.Not());
      AndDistributes(a.And(LeftTwo.Not()), b.And(LeftTwo.Not()), BottomTwo.Not());
    case DownRight =>
      AndDistributes(a, b, RightTwo.Not());
      AndDistributes(a.And(RightTwo.Not()), b.And(RightTwo.Not()), BottomTwo.Not());
  }

  lemma StepTargetsUnion(a: Bitboard, b: Bitboard, d: Direction, e: Bitboard)
    ensures StepTargets(a.Or(b), d, e) == StepTargets(a, d, e).Or(StepTargets(b, d, e))
  {
    StepSourcesUnion(a, b, d);
    TowardsDistributes(StepSources(a, d), StepSources(b, d), d);
    AndDistributes(Towards(StepSources(a, d), d), Towards(StepSources(b, d), d), e);
  }

  lemma JumpTargetsUnion(a: Bitboard, b: Bitboard, d: Direction, o: Bitboard, e: Bitboard)
    ensures JumpTargets(a.Or(b), d, o, e) == JumpTargets(a, d, o, e).Or(JumpTargets(b, d, o, e))
  {
    var sa, sb := JumpSources(a, d), JumpSources(b, d);
    JumpSourcesUnion(a, b, d);
    TowardsDistributes(sa, sb, d);
    AndDistributes(Towards(sa, d), Towards(sb, d), o);
    var ma, mb := Towards(sa, d).And(o), Towards(sb, d).And(o);
    TowardsDistributes(ma, mb, d);
    AndDistributes(Towards(ma, d), Towards(mb, d), e);
  }

  lemma CombineUnion(color: PlayerColor, king: bool,
                     ul: Bitboard, ur: Bitboard, dl: Bitboard, dr: Bitboard,
                     ul': Bitboard, ur': Bitboard, dl': Bitboard, dr': Bitboard)
    ensures Combine(color, king, ul.Or(ul'), ur.Or(ur'), dl.Or(dl'), dr.Or(dr')) ==
            Combine(color, king, ul, ur, dl, dr).Or(Combine(color, king, ul', ur', dl', dr'))
  {
    OrInterchange(ul, ur, ul', ur');
    OrInterchange(dl, dr, dl', dr');
    OrInterchange(ul.Or(ur), dl, ul'.Or(ur'), dl');
    OrInterchange(ul.Or(ur).Or(dl), dr, ul'.Or(ur').Or(dl'), dr');
  }

  /** The generators distribute over a union of source squares. */
  lemma PieceMovesUnion(p: PieceSets, color: PlayerColor, king: bool, a: Bitboard, b: Bitboard)
    ensures PieceMoves(p, color, king, a.Or(b)) == PieceMoves(p, color, king, a).Or(PieceMoves(p, color, king, b))
  {
    var e := Empty(p);
    StepTargetsUnion(a, b, UpLeft, e);
    StepTargetsUnion(a, b, UpRight, e);
    StepTargetsUnion(a, b, DownLeft, e);
    StepTargetsUnion(a, b, DownRight, e);
    CombineUnion(color, king,
      StepTargets(a, UpLeft, e), StepTargets(a, UpRight, e), StepTargets(a, DownLeft, e), StepTargets(a, DownRight, e),
      StepTargets(b, UpLeft, e), StepTargets(b, UpRight, e), StepTargets(b, DownLeft, e), StepTargets(b, DownRight, e));
  }

  lemma PieceCapturesUnion(p: PieceSets, color: PlayerColor, king: bool, a: Bitboard, b: Bitboard)
    ensures PieceCaptures(p, color, king, a.Or(b)) == PieceCaptures(p, color, king, a).Or(PieceCaptures(p, color, king, b))
  {
    var o := Opponents(p, color);
    var e := Empty(p);
    JumpTargetsUnion(a, b, UpLeft, o, e);
    JumpTargetsUnion(a, b, UpRight, o, e);
    JumpTargetsUnion(a, b, DownLeft, o, e);
    JumpTargetsUnion(a, b, DownRight, o, e);
    CombineUnion(color, king,
      JumpTargets(a, UpLeft, o, e), JumpTargets(a, UpRight, o, e), JumpTargets(a, DownLeft, o, e), JumpTargets(a, DownRight, o, e),
      JumpTargets(b, UpLeft, o, e), JumpTargets(b, UpRight, o, e), JumpTargets(b, DownLeft, o, e), JumpTargets(b, DownRight, o, e));
  }

  /** A king moves as a white man and a black man together. */
  lemma CombineKing(color: PlayerColor, ul: Bitboard, ur: Bitboard, dl: Bitboard, dr: Bitboard)
    ensures Combine(color, true, ul, ur, dl, dr) == Combine(White, false, ul, ur, dl, dr).Or(Combine(Black, false, ul, ur, dl, dr))
  {}

  // Men and kings.

  /** A man's step targets are among those of a king on the same squares. */
  lemma ManMovesWithinKing(p: PieceSets, color: PlayerColor, squares: Bitboard)
    ensures PieceMoves(p, color, false, squares).IsSubsetOf(PieceMoves(p, color, true, squares))
  {
    forall t: Square ensures PieceMoves(p, color, false, squares).Has(t) ==> PieceMoves(p, color, true, squares).Has(t) {
      PieceMovesHas(p, color, false, squares, t);
      PieceMovesHas(p, color, true, squares, t);
    }
    SubsetIffMembers(PieceMoves(p, color, false, squares), PieceMoves(p, color, true, squares));
  }

  /** A man's capture landings are among those of a king on the same squares. */
  lemma ManCapturesWithinKing(p: PieceSets, color: PlayerColor, squares: Bitboard)
    ensures PieceCaptures(p, color, false, squares).IsSubsetOf(PieceCaptures(p, color, true, squares))
  {
    forall t: Square ensures PieceCaptures(p, color, false, squares).Has(t) ==> PieceCaptures(p, color, true, squares).Has(t) {
      PieceCapturesHas(p, color, false, squares, t);
      PieceCapturesHas(p, color, true, squares, t);
    }
    SubsetIffMembers(PieceCaptures(p, color, false, squares), PieceCaptures(p, color, true, squares));
  }

  /** A king steps where a white man and a black man on its squares would step together. */
  lemma KingMovesBothWays(p: PieceSets, color: PlayerColor, squares: Bitboard)
    ensures PieceMoves(p, color, true, squares) ==
            PieceMoves(p, White, false, squares).Or(PieceMoves(p, Black, false, squares))
  {
    var e := Empty(p);
    CombineKing(color, StepTargets(squares, UpLeft, e), StepTargets(squares, UpRight, e),
                StepTargets(squares, DownLeft, e), StepTargets(squares, DownRight, e));
  }

  // The colour-wide generators.

  /** Every square in `color_moves` is an empty square one diagonal step from one of `color`'s pieces, in a
      direction that piece may move in. */
  lemma ColorMovesSound(p: PieceSets, color: PlayerColor, t: Square) returns (s: Square, d: Direction)
    requires WellFormed(p)
    requires ColorMoves(p, color).Has(t)
    ensures Pieces(p, color).Has(s) && Allowed(color, Kings(p, color).Has(s), d)
    ensures Neighbor(s, d) == Some(t) && Empty(p).Has(t)
  {
    if PieceMoves(p, color, false, Men(p, color)).Has(t) {
      s, d := PieceMovesSound(p, color, false, Men(p, color), t);
      WellFormedSquares(p, s);
    } else {
      s, d := PieceMovesSound(p, color, true, Kings(p, color), t);
    }
  }

  /** Every empty diagonal neighbour of one of `color`'s pieces, in a direction that piece may move in, is
      in `color_moves`. */
  lemma ColorMovesComplete(p: PieceSets, color: PlayerColor, s: Square, d: Direction)
    requires WellFormed(p)
    requires Pieces(p, color).Has(s) && Allowed(color, Kings(p, color).Has(s), d)
    requires Neighbor(s, d).Some? && Empty(p).Has(Neighbor(s, d).value)
    ensures ColorMoves(p, color).Has(Neighbor(s, d).value)
  {
    WellFormedSquares(p, s);
    if Kings(p, color).Has(s) {
      PieceMovesComplete(p, color, true, Kings(p, color), s, d);
    } else {
      PieceMovesComplete(p, color, false, Men(p, color), s, d);
    }
  }

  /** Every square in `color_captures` is an empty square two diagonal steps from one of `color`'s pieces,
      in a direction that piece may move in, over an opponent's piece. */
  lemma ColorCapturesSound(p: PieceSets, color: PlayerColor, t: Square) returns (s: Square, d: Direction)
    requires WellFormed(p)
    requires ColorCaptures(p, color).Has(t)
    ensures Pieces(p, color).Has(s) && Allowed(color, Kings(p, color).Has(s), d)
    ensures Jump(s, d) == Some(t) && !Missed(s, d)
    ensures Opponents(p, color).Has(Neighbor(s, d).value) && Empty(p).Has(t)
  {
    if PieceCaptures(p, color, false, Men(p, color)).Has(t) {
      s, d := PieceCapturesSound(p, color, false, Men(p, color), t);
      WellFormedSquares(p, s);
    } else {
      s, d := PieceCapturesSound(p, color, true, Kings(p, color), t);
    }
  }

  /** Every jump by one of `color`'s pieces over an opponent onto an empty square, in a direction that
      piece may move in, is in `color_captures`, except for the two missed jumps. */
  lemma ColorCapturesComplete(p: PieceSets, color: PlayerColor, s: Square, d: Direction)
    requires WellFormed(p)
    requires Pieces(p, color).Has(s) && Allowed(color, Kings(p, color).Has(s), d)
    requires Jump(s, d).Some? && !Missed(s, d)
    requires Opponents(p, color).Has(Neighbor(s, d).value) && Empty(p).Has(Jump(s, d).value)
    ensures ColorCaptures(p, color).Has(Jump(s, d).value)
  {
    WellFormedSquares(p, s);
    if Kings(p, color).Has(s) {
      PieceCapturesComplete(p, color, true, Kings(p, color), s, d);
    } else {
      PieceCapturesComplete(p, color, false, Men(p, color), s, d);
    }
  }
}
