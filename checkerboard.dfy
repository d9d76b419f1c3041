/**
 * The board: `make_move` as a function on the four piece sets, the rules it
 * enforces stated square by square, and the `Checkerboard` object whose array
 * of sets the method updates in place.
 */
module Checkerboards {
  import opened Bitboards
  import opened BitboardLaws
  import opened GameTypes
  import opened Moves

  // The rules of a move, stated by squares and directions.

  /** A piece of the given rank on `s` may step in direction `d` onto the empty square `t`. */
  predicate StepMove(p: PieceSets, color: PlayerColor, king: bool, s: Square, d: Direction, t: Square) {
    Allowed(color, king, d) && Neighbor(s, d) == Some(t) && Empty(p).Has(t)
  }

  /** A piece of the given rank on `s` may jump in direction `d` over an opponent onto the empty square
      `t`; the two jumps the generators miss are not moves. */
  predicate JumpMove(p: PieceSets, color: PlayerColor, king: bool, s: Square, d: Direction, t: Square) {
    Allowed(color, king, d) && Jump(s, d) == Some(t) && !Missed(s, d) &&
    Opponents(p, color).Has(Neighbor(s, d).value) && Empty(p).Has(t)
  }

  predicate CanStep(p: PieceSets, color: PlayerColor, king: bool, s: Square, t: Square) {
    exists d: Direction :: StepMove(p, color, king, s, d, t)
  }

  predicate CanJump(p: PieceSets, color: PlayerColor, king: bool, s: Square, t: Square) {
    exists d: Direction :: JumpMove(p, color, king, s, d, t)
  }

  /** Whether the piece on `s` is a king. */
  predicate IsKing(p: PieceSets, color: PlayerColor, s: Square) {
    Kings(p, color).Has(s)
  }

  /** Some piece of `color` can capture, so a capture is compulsory. */
  ghost predicate MustCapture(p: PieceSets, color: PlayerColor) {
    exists s: Square, t: Square :: Pieces(p, color).Has(s) && CanJump(p, color, IsKing(p, color, s), s, t)
  }

  /** The move from `s` to `t` is legal for `color`: a piece of `color` stands on `s`, and it either
      captures onto `t` or steps onto `t` while no capture is available. */
  ghost predicate Legal(p: PieceSets, color: PlayerColor, s: Square, t: Square) {
    var king := IsKing(p, color, s);
    Pieces(p, color).Has(s) &&
    (CanJump(p, color, king, s, t) || (!MustCapture(p, color) && CanStep(p, color, king, s, t)))
  }

  /** A man reaching this edge is crowned: the top row for White, the bottom row for Black. */
  function PromotionEdge(color: PlayerColor): Bitboard {
    match color
    case White => TopEdge
    case Black => BottomEdge
  }

  predicate Promotes(color: PlayerColor, king: bool, t: Square) {
    !king && PromotionEdge(color).Has(t)
  }

  /** A man is crowned on the far row. */
  lemma PromotionRows(t: Square)
    ensures Promotes(White, false, t) <==> Row(t) == 7
    ensures Promotes(Black, false, t) <==> Row(t) == 0
    ensures !Promotes(White, true, t) && !Promotes(Black, true, t)
  {
    EdgeMaskSquares(t);
  }

  // `make_move` on the piece sets.

  /** The state a call to `make_move` leaves and the result it returns. */
  datatype Outcome = Outcome(pieces: PieceSets, result: MoveResult)

  /** The three checks `make_move` makes before it changes anything: both arguments are single squares,
      a piece of `color` stands on the start square, and the end square is reachable from it. */
  predicate Accepts(p: PieceSets, color: PlayerColor, start: Bitboard, end: Bitboard) {
    start.IsSingleSquare() && end.IsSingleSquare() && OwnsStart(p, color, start) &&
    Reaches(p, color, start.And(Kings(p, color)).IsNotEmpty(), start, end)
  }

  /** One of `color`'s kings or men stands on `start`. */
  predicate OwnsStart(p: PieceSets, color: PlayerColor, start: Bitboard) {
    start.And(Kings(p, color)).IsNotEmpty() || start.And(Men(p, color)).IsNotEmpty()
  }

  /** `end` is a capture landing of the piece on `start`, or one of its steps while `color` has no
      capture anywhere. */
  predicate Reaches(p: PieceSets, color: PlayerColor, king: bool, start: Bitboard, end: Bitboard) {
    Admits(PieceMoves(p, color, king, start).And(end), PieceCaptures(p, color, king, start).And(end),
           ColorCaptures(p, color).IsNotEmpty())
  }

  /** The test on `move_bb`, `capture_bb` and `must_capture`. */
  predicate Admits(moveBb: Bitboard, captureBb: Bitboard, mustCapture: bool) {
    !(captureBb.Or(moveBb).IsEmpty() || (captureBb.IsEmpty() && mustCapture))
  }

  /** A non-empty capture is always admitted; a step only when no capture is compulsory. */
  lemma AdmitsIff(moveBb: Bitboard, captureBb: Bitboard, mustCapture: bool)
    ensures Admits(moveBb, captureBb, mustCapture) <==>
            captureBb.IsNotEmpty() || (moveBb.IsNotEmpty() && !mustCapture)
  {
    OrEmpty(captureBb, moveBb);
  }

  /** The capture branch: the opponent's piece on the midsquare of the jump, which `midsquare` as
      written never finds, is cleared from the set that holds it. */
  function RemoveJumped(p: PieceSets, color: PlayerColor, start: Bitboard, end: Bitboard): PieceSets {
    ClearOpponent(p, color, Bitboard.Midsquare(start, end))
  }

  /** The capture branch as the doc comment of `midsquare` intends it, with the documented midsquare. */
  function DocumentedRemoveJumped(p: PieceSets, color: PlayerColor, start: Bitboard, end: Bitboard): PieceSets {
    ClearOpponent(p, color, Bitboard.DocumentedMidsquare(start, end))
  }

  /** `opp_square` is cleared from the opponent's kings when it holds one of them, else from its men. */
  function ClearOpponent(p: PieceSets, color: PlayerColor, opp: Bitboard): PieceSets {
    var oppKing := opp.And(Kings(p, color.Not())).IsNotEmpty();
    var oppIndex := Index(color.Not(), oppKing);
    p[oppIndex := p[oppIndex].And(opp.Not())]
  }

  /** The moving piece leaves `start` in slot `from` and arrives on `end` in slot `to`. */
  function Relocate(p: PieceSets, from: Slot, to: Slot, start: Bitboard, end: Bitboard): PieceSets
  {
    var p2 := p[from := p[from].And(start.Not())];
    p2[to := p2[to].Or(end)]
  }

  /** `make_move`: a rejected move returns `Invalid` and leaves the sets alone; an accepted one moves
      the piece, crowns a man that reaches the far row, and names the next player: the mover again
      when it captured, was not crowned and can capture again from `end`. */
  function Step(p: PieceSets, color: PlayerColor, start: Bitboard, end: Bitboard): (o: Outcome)
    ensures o.result.Invalid? ==> o.pieces == p
    ensures o.result.Valid? <==> Accepts(p, color, start, end)
  {
    if !Accepts(p, color, start, end) then Outcome(p, Invalid)
    else Accepted(p, color, start, end, start.And(Kings(p, color)).IsNotEmpty())
  }

  /** The accepted path: the capture branch, then the further-capture test on the board it leaves. */
  function Accepted(p: PieceSets, color: PlayerColor, start: Bitboard, end: Bitboard, king: bool): (o: Outcome)
    ensures o.result.Valid?
  {
    var capture := PieceCaptures(p, color, king, start).And(end).IsNotEmpty();
    var p1 := if capture then RemoveJumped(p, color, start, end) else p;
    var more := capture && PieceCaptures(p1, color, king, end).IsNotEmpty();
    Placed(p1, color, start, end, king, more)
  }

  /** The piece leaves `start` and lands on `end`, among the kings if it is a man reaching the far row,
      which ends the turn; otherwise the mover continues exactly when `more` holds. */
  function Placed(p: PieceSets, color: PlayerColor, start: Bitboard, end: Bitboard, king: bool, more: bool): (o: Outcome)
    ensures o.result.Valid?
  {
    var index := Index(color, king);
    if end.And(PromotionEdge(color)).IsNotEmpty() && !king then
      Outcome(Relocate(p, index, index + 2, start, end), Valid(color.Not()))
    else
      Outcome(Relocate(p, index, index, start, end), if more then Valid(color) else Valid(color.Not()))
  }

  // The generators on a single square, read through the rules.

  /** A set holding one playable square holds playable squares only. */
  lemma OnlyWithin(b: Bitboard, s: Square)
    requires Only(b, s) && Playable.Has(s)
    ensures b.IsSubsetOf(Playable)
  {
    SubsetIffMembers(b, Playable);
  }

  /** From a playable square, the capture generator finds exactly the legal jumps. */
  lemma PieceCapturesAt(p: PieceSets, color: PlayerColor, king: bool, b: Bitboard, s: Square, t: Square)
    requires Only(b, s) && Playable.Has(s)
    ensures PieceCaptures(p, color, king, b).Has(t) <==> CanJump(p, color, king, s, t)
  {
    if PieceCaptures(p, color, king, b).Has(t) {
      var d := JumpOfCapture(p, color, king, b, s, t);
    }
    if CanJump(p, color, king, s, t) {
      CaptureOfJump(p, color, king, b, s, t);
    }
  }

  lemma {:induction false} JumpOfCapture(p: PieceSets, color: PlayerColor, king: bool, b: Bitboard, s: Square, t: Square)
      returns (d: Direction)
    requires Only(b, s) && Playable.Has(s)
    requires PieceCaptures(p, color, king, b).Has(t)
    ensures JumpMove(p, color, king, s, d, t)
  {
    OnlyWithin(b, s);
    var s';
    s', d := PieceCapturesSound(p, color, king, b, t);
  }

  lemma {:induction false} CaptureOfJump(p: PieceSets, color: PlayerColor, king: bool, b: Bitboard, s: Square, t: Square)
    requires Only(b, s) && Playable.Has(s)
    requires CanJump(p, color, king, s, t)
    ensures PieceCaptures(p, color, king, b).Has(t)
  {
    var d :| JumpMove(p, color, king, s, d, t);
    PieceCapturesComplete(p, color, king, b, s, d);
  }

  /** From a playable square, the step generator finds exactly the legal steps. */
  lemma PieceMovesAt(p: PieceSets, color: PlayerColor, king: bool, b: Bitboard, s: Square, t: Square)
    requires Only(b, s) && Playable.Has(s)
    ensures PieceMoves(p, color, king, b).Has(t) <==> CanStep(p, color, king, s, t)
  {
    if PieceMoves(p, color, king, b).Has(t) {
      var d := StepOfMove(p, color, king, b, s, t);
    }
    if CanStep(p, color, king, s, t) {
      MoveOfStep(p, color, king, b, s, t);
    }
  }

  lemma {:induction false} StepOfMove(p: PieceSets, color: PlayerColor, king: bool, b: Bitboard, s: Square, t: Square)
      returns (d: Direction)
    requires Only(b, s) && Playable.Has(s)
    requires PieceMoves(p, color, king, b).Has(t)
    ensures StepMove(p, color, king, s, d, t)
  {
    OnlyWithin(b, s);
    var s';
    s', d := PieceMovesSound(p, color, king, b, t);
  }

  lemma {:induction false} MoveOfStep(p: PieceSets, color: PlayerColor, king: bool, b: Bitboard, s: Square, t: Square)
    requires Only(b, s) && Playable.Has(s)
    requires CanStep(p, color, king, s, t)
    ensures PieceMoves(p, color, king, b).Has(t)
  {
    var d :| StepMove(p, color, king, s, d, t);
    PieceMovesComplete(p, color, king, b, s, d);
  }

  /** `must_capture`: `color_captures` is non-empty exactly when some piece of `color` has a jump. */
  lemma MustCaptureIff(p: PieceSets, color: PlayerColor)
    requires WellFormed(p)
    ensures ColorCaptures(p, color).IsNotEmpty() <==> MustCapture(p, color)
  {
    if ColorCaptures(p, color).IsNotEmpty() {
      CaptureAvailable(p, color);
    }
    if MustCapture(p, color) {
      var s, t :| Pieces(p, color).Has(s) && CanJump(p, color, IsKing(p, color, s), s, t);
      CaptureFound(p, color, s, t);
    }
  }

  lemma {:induction false} CaptureAvailable(p: PieceSets, color: PlayerColor)
    requires WellFormed(p)
    requires ColorCaptures(p, color).IsNotEmpty()
    ensures MustCapture(p, color)
  {
    var t := LowestMember(ColorCaptures(p, color));
    var s, d := ColorCapturesSound(p, color, t);
    assert JumpMove(p, color, IsKing(p, color, s), s, d, t);
    assert CanJump(p, color, IsKing(p, color, s), s, t);
  }

  lemma {:induction false} CaptureFound(p: PieceSets, color: PlayerColor, s: Square, t: Square)
    requires WellFormed(p)
    requires Pieces(p, color).Has(s) && CanJump(p, color, IsKing(p, color, s), s, t)
    ensures ColorCaptures(p, color).IsNotEmpty()
  {
    var d :| JumpMove(p, color, IsKing(p, color, s), s, d, t);
    ColorCapturesComplete(p, color, s, d);
    HasNonEmpty(ColorCaptures(p, color), t);
  }

  // What `make_move` does.

  /** A call whose arguments are not both single squares is rejected and changes nothing. */
  lemma NotSingleRejected(p: PieceSets, color: PlayerColor, start: Bitboard, end: Bitboard)
    requires !start.IsSingleSquare() || !end.IsSingleSquare()
    ensures Step(p, color, start, end) == Outcome(p, Invalid)
  {}

  /** On a well-formed board, a move between two squares is accepted exactly when it is legal. */
  lemma ValidIffLegal(p: PieceSets, color: PlayerColor, s: Square, t: Square)
    requires WellFormed(p)
    ensures Step(p, color, Single(s), Single(t)).result.Valid? <==> Legal(p, color, s, t)
  {
    SingleIsSingleSquare(s);
    SingleIsSingleSquare(t);
    StartTest(p, color, Single(s), s);
    if Pieces(p, color).Has(s) {
      WellFormedSquares(p, s);
      ReachesIff(p, color, IsKing(p, color, s), Single(s), Single(t), s, t);
    }
  }

  /** The third check, read through the rules. */
  lemma {:induction false} ReachesIff(p: PieceSets, color: PlayerColor, king: bool, start: Bitboard, end: Bitboard, s: Square, t: Square)
    requires WellFormed(p) && Playable.Has(s)
    requires Only(start, s) && Only(end, t)
    ensures Reaches(p, color, king, start, end) <==>
            CanJump(p, color, king, s, t) || (!MustCapture(p, color) && CanStep(p, color, king, s, t))
  {
    var moveBb := PieceMoves(p, color, king, start).And(end);
    var captureBb := PieceCaptures(p, color, king, start).And(end);
    var mustCapture := ColorCaptures(p, color).IsNotEmpty();
    AdmitsIff(moveBb, captureBb, mustCapture);
    CaptureTest(p, color, king, start, end, s, t);
    MoveTest(p, color, king, start, end, s, t);
    MustCaptureIff(p, color);
  }

  /** The tests of `start` against the mover's kings and men. */
  lemma StartTest(p: PieceSets, color: PlayerColor, start: Bitboard, s: Square)
    requires Only(start, s)
    ensures start.And(Kings(p, color)).IsNotEmpty() <==> IsKing(p, color, s)
    ensures start.And(Men(p, color)).IsNotEmpty() <==> Men(p, color).Has(s)
    ensures OwnsStart(p, color, start) <==> Pieces(p, color).Has(s)
  {
    SingleMeets(Kings(p, color), start, s);
    SingleMeets(Men(p, color), start, s);
  }

  /** `capture_bb` is non-empty exactly when the piece can jump onto `end`. */
  lemma CaptureTest(p: PieceSets, color: PlayerColor, king: bool, start: Bitboard, end: Bitboard, s: Square, t: Square)
    requires Only(start, s) && Only(end, t) && Playable.Has(s)
    ensures PieceCaptures(p, color, king, start).And(end).IsNotEmpty() <==> CanJump(p, color, king, s, t)
  {
    SingleMeets(PieceCaptures(p, color, king, start), end, t);
    PieceCapturesAt(p, color, king, start, s, t);
  }

  /** `move_bb` is non-empty exactly when the piece can step onto `end`. */
  lemma MoveTest(p: PieceSets, color: PlayerColor, king: bool, start: Bitboard, end: Bitboard, s: Square, t: Square)
    requires Only(start, s) && Only(end, t) && Playable.Has(s)
    ensures PieceMoves(p, color, king, start).And(end).IsNotEmpty() <==> CanStep(p, color, king, s, t)
  {
    SingleMeets(PieceMoves(p, color, king, start), end, t);
    PieceMovesAt(p, color, king, start, s, t);
  }

  // What an accepted move does to the board.

  /** The mover can capture again from `t`, judged on the board as it stands before the move. */
  ghost predicate CanCaptureFrom(p: PieceSets, color: PlayerColor, king: bool, t: Square) {
    exists v: Square :: CanJump(p, color, king, t, v)
  }

  /** `piece_captures` from the landing square is non-empty exactly when another jump is available. */
  lemma MoreCapturesIff(p: PieceSets, color: PlayerColor, king: bool, b: Bitboard, t: Square)
    requires Only(b, t) && Playable.Has(t)
    ensures PieceCaptures(p, color, king, b).IsNotEmpty() <==> CanCaptureFrom(p, color, king, t)
  {
    if PieceCaptures(p, color, king, b).IsNotEmpty() {
      var v := LowestMember(PieceCaptures(p, color, king, b));
      PieceCapturesAt(p, color, king, b, t, v);
    }
    if CanCaptureFrom(p, color, king, t) {
      var v :| CanJump(p, color, king, t, v);
      PieceCapturesAt(p, color, king, b, t, v);
      HasNonEmpty(PieceCaptures(p, color, king, b), v);
    }
  }

  /** A jump moves a piece two rows and two columns, so the index sum of its ends is even and
      `midsquare` as written returns the empty set for it. */
  lemma JumpMidsquare(s: Square, d: Direction)
    requires Jump(s, d).Some?
    ensures Bitboard.Midsquare(Single(s), Single(Jump(s, d).value)).IsEmpty()
  {
    MidsquareOfSquares(s, Jump(s, d).value);
  }

  /** For every jump, the documented `midsquare` of its two ends is the square jumped over. */
  lemma {:induction false} JumpDocumentedMidsquare(s: Square, d: Direction)
    requires Jump(s, d).Some?
    ensures Bitboard.DocumentedMidsquare(Single(s), Single(Jump(s, d).value)) == Single(Neighbor(s, d).value)
  {
    var t := Jump(s, d).value;
    DocumentedMidsquareOfSquares(s, t);
    SumParity(s, t);
    assert (s + t) / 2 == Neighbor(s, d).value;
  }

  /** With the documented `midsquare`, a legal jump removes the opponent's piece it jumps over and no
      other piece of the opponent's. */
  lemma {:induction false} DocumentedCaptureClears(p: PieceSets, color: PlayerColor, king: bool, s: Square, d: Direction, t: Square, u: Square)
    requires WellFormed(p) && JumpMove(p, color, king, s, d, t)
    ensures Opponents(DocumentedRemoveJumped(p, color, Single(s), Single(t)), color).Has(u) <==>
            Opponents(p, color).Has(u) && u != Neighbor(s, d).value
  {
    var m := Neighbor(s, d).value;
    JumpDocumentedMidsquare(s, d);
    var opp := Single(m);
    ClearedSquare(p, color, opp, m, u, opp.And(Kings(p, color.Not())).IsNotEmpty());
  }

  /** With an empty midsquare the capture branch clears nothing. */
  lemma EmptyMidsquareKeeps(p: PieceSets, color: PlayerColor, start: Bitboard, end: Bitboard)
    requires Bitboard.Midsquare(start, end).IsEmpty()
    ensures RemoveJumped(p, color, start, end) == p
  {
    var opp := Bitboard.Midsquare(start, end);
    assert opp == Bitboard.New();
    var oppIndex := Index(color.Not(), opp.And(Kings(p, color.Not())).IsNotEmpty());
    AndFull(p[oppIndex]);
  }

  /** The capture branch on any board: the opponent loses the square `midsquare` returns, whichever of
      its sets holds it, and nothing else. */
  lemma RemoveJumpedClears(p: PieceSets, color: PlayerColor, start: Bitboard, end: Bitboard, u: Square)
    requires WellFormed(p)
    ensures Opponents(RemoveJumped(p, color, start, end), color).Has(u) <==>
            Opponents(p, color).Has(u) && !Bitboard.Midsquare(start, end).Has(u)
  {
    var opp := Bitboard.Midsquare(start, end);
    if opp.IsEmpty() {
      EmptyMidsquareKeeps(p, color, start, end);
      assert opp == Bitboard.New();
    } else {
      var m := SingleSquareIsSingle(opp);
      ClearedSquare(p, color, opp, m, u, opp.And(Kings(p, color.Not())).IsNotEmpty());
    }
  }

  /** Clearing the single square `m` from the set of the opponent's that `oppKing` names. */
  lemma {:induction false} ClearedSquare(p: PieceSets, color: PlayerColor, opp: Bitboard, m: Square, u: Square, oppKing: bool)
    requires WellFormed(p) && Only(opp, m) && oppKing == opp.And(Kings(p, color.Not())).IsNotEmpty()
    ensures var oppIndex := Index(color.Not(), oppKing);
            Opponents(p[oppIndex := p[oppIndex].And(opp.Not())], color).Has(u) <==>
            Opponents(p, color).Has(u) && u != m
  {
    SingleMeets(Kings(p, color.Not()), opp, m);
    WellFormedSquares(p, m);
    IndexLayout(color.Not(), color.Not(), oppKing, !oppKing);
  }

  /** The capture branch leaves the mover's sets alone. */
  lemma RemoveJumpedKeepsMover(p: PieceSets, color: PlayerColor, start: Bitboard, end: Bitboard)
    ensures var q := RemoveJumped(p, color, start, end);
            Men(q, color) == Men(p, color) && Kings(q, color) == Kings(p, color)
  {
    var oppKing := Bitboard.Midsquare(start, end).And(Kings(p, color.Not())).IsNotEmpty();
    IndexLayout(color.Not(), color, oppKing, false);
    IndexLayout(color.Not(), color, oppKing, true);
  }

  /** The square a legal move lands on is playable and empty. */
  lemma LandingPlayable(p: PieceSets, color: PlayerColor, king: bool, s: Square, t: Square)
    requires Playable.Has(s)
    requires CanJump(p, color, king, s, t) || CanStep(p, color, king, s, t)
    ensures Playable.Has(t) && Empty(p).Has(t)
  {
    if CanJump(p, color, king, s, t) {
      JumpLandingPlayable(p, color, king, s, t);
    } else {
      StepLandingPlayable(p, color, king, s, t);
    }
  }

  lemma {:induction false} JumpLandingPlayable(p: PieceSets, color: PlayerColor, king: bool, s: Square, t: Square)
    requires Playable.Has(s) && CanJump(p, color, king, s, t)
    ensures Playable.Has(t) && Empty(p).Has(t)
  {
    var d :| JumpMove(p, color, king, s, d, t);
    JumpLanding(s, d);
  }

  lemma {:induction false} StepLandingPlayable(p: PieceSets, color: PlayerColor, king: bool, s: Square, t: Square)
    requires Playable.Has(s) && CanStep(p, color, king, s, t)
    ensures Playable.Has(t) && Empty(p).Has(t)
  {
    var d :| StepMove(p, color, king, s, d, t);
    StepGeometry(s, d);
  }

  /** A call that passes the three checks takes the accepted path. */
  lemma StepAccepted(p: PieceSets, color: PlayerColor, start: Bitboard, end: Bitboard, king: bool)
    requires Accepts(p, color, start, end) && king == start.And(Kings(p, color)).IsNotEmpty()
    ensures Step(p, color, start, end) == Accepted(p, color, start, end, king)
  {}

  /** The accepted path of `make_move`, with its intermediate tests named: the capture branch (given
      that it clears nothing), the crowning test and the two placements. */
  lemma StepShape(p: PieceSets, color: PlayerColor, start: Bitboard, end: Bitboard,
                  king: bool, capture: bool, crowned: bool, keep: bool)
    requires capture == PieceCaptures(p, color, king, start).And(end).IsNotEmpty()
    requires crowned == (end.And(PromotionEdge(color)).IsNotEmpty() && !king)
    requires capture ==> RemoveJumped(p, color, start, end) == p
    requires keep == (capture && PieceCaptures(p, color, king, end).IsNotEmpty() && !crowned)
    ensures Accepted(p, color, start, end, king) ==
            Outcome(Relocate(p, Index(color, king), Index(color, king || crowned), start, end),
                    if keep then Valid(color) else Valid(color.Not()))
  {
    IndexLayout(color, color, king, king);
  }

  /** A legal move takes the piece off `s` and puts it on `t`, among the kings if it was one or is
      crowned; the mover keeps the turn exactly when it captured, was not crowned and can capture
      again from `t`. Nothing else changes: the jumped piece stays on the board. */
  lemma StepAsRelocate(p: PieceSets, color: PlayerColor, s: Square, t: Square)
    requires WellFormed(p) && Legal(p, color, s, t)
    ensures var king := IsKing(p, color, s);
            var o := Step(p, color, Single(s), Single(t));
            o.pieces == Relocate(p, Index(color, king), Index(color, king || Promotes(color, king, t)), Single(s), Single(t)) &&
            o.result == if CanJump(p, color, king, s, t) && !Promotes(color, king, t) && CanCaptureFrom(p, color, king, t)
                        then Valid(color) else Valid(color.Not())
  {
    ValidIffLegal(p, color, s, t);
    if CanJump(p, color, IsKing(p, color, s), s, t) {
      CaptureKeeps(p, color, IsKing(p, color, s), s, t);
    }
    StepAt(p, color, Single(s), Single(t), s, t);
    StepAccepted(p, color, Single(s), Single(t), IsKing(p, color, s));
  }

  /** The capture branch of a legal jump clears nothing. */
  lemma {:induction false} CaptureKeeps(p: PieceSets, color: PlayerColor, king: bool, s: Square, t: Square)
    requires CanJump(p, color, king, s, t)
    ensures RemoveJumped(p, color, Single(s), Single(t)) == p
  {
    var d :| JumpMove(p, color, king, s, d, t);
    JumpMidsquare(s, d);
    EmptyMidsquareKeeps(p, color, Single(s), Single(t));
  }

  lemma StepAt(p: PieceSets, color: PlayerColor, start: Bitboard, end: Bitboard, s: Square, t: Square)
    requires WellFormed(p) && Legal(p, color, s, t)
    requires Only(start, s) && Only(end, t)
    requires CanJump(p, color, IsKing(p, color, s), s, t) ==> RemoveJumped(p, color, start, end) == p
    ensures IsKing(p, color, s) == start.And(Kings(p, color)).IsNotEmpty()
    ensures var king := IsKing(p, color, s);
            Accepted(p, color, start, end, king) ==
            Outcome(Relocate(p, Index(color, king), Index(color, king || Promotes(color, king, t)), start, end),
                    if CanJump(p, color, king, s, t) && !Promotes(color, king, t) && CanCaptureFrom(p, color, king, t)
                    then Valid(color) else Valid(color.Not()))
  {
    var king := IsKing(p, color, s);
    StepFacts(p, color, start, end, s, t);
    var capture := CanJump(p, color, king, s, t);
    var crowned := Promotes(color, king, t);
    var keep := capture && PieceCaptures(p, color, king, end).IsNotEmpty() && !crowned;
    StepShape(p, color, start, end, king, capture, crowned, keep);
  }

  /** The tests `make_move` computes, read through the rules. */
  lemma {:induction false} StepFacts(p: PieceSets, color: PlayerColor, start: Bitboard, end: Bitboard, s: Square, t: Square)
    requires WellFormed(p) && Legal(p, color, s, t)
    requires Only(start, s) && Only(end, t)
    ensures var king := IsKing(p, color, s);
            (king == start.And(Kings(p, color)).IsNotEmpty()) &&
            (CanJump(p, color, king, s, t) == PieceCaptures(p, color, king, start).And(end).IsNotEmpty()) &&
            (Promotes(color, king, t) == (end.And(PromotionEdge(color)).IsNotEmpty() && !king)) &&
            (CanCaptureFrom(p, color, king, t) == PieceCaptures(p, color, king, end).IsNotEmpty())
  {
    var king := IsKing(p, color, s);
    StartTest(p, color, start, s);
    WellFormedSquares(p, s);
    CaptureTest(p, color, king, start, end, s, t);
    SingleMeets(PromotionEdge(color), end, t);
    LandingPlayable(p, color, king, s, t);
    MoreCapturesIff(p, color, king, end, t);
  }

  /** Slot by slot, `Relocate` takes `s` out of slot `from` and puts `t` into slot `to`. */
  lemma RelocateHas(p: PieceSets, from: Slot, to: Slot, start: Bitboard, end: Bitboard, s: Square, t: Square, k: Slot, u: Square)
    requires Only(start, s) && Only(end, t)
    ensures Relocate(p, from, to, start, end)[k].Has(u) <==>
            (p[k].Has(u) && !(k == from && u == s)) || (k == to && u == t)
  {}

  /** Moving a piece from an occupied square of its slot to an empty playable square keeps the board
      well formed. */
  lemma {:induction false} RelocateWellFormed(p: PieceSets, from: Slot, to: Slot, start: Bitboard, end: Bitboard, s: Square, t: Square)
    requires WellFormed(p) && Only(start, s) && Only(end, t)
    requires Playable.Has(t) && !Occupied(p, t)
    ensures WellFormed(Relocate(p, from, to, start, end))
  {
    var q := Relocate(p, from, to, start, end);
    forall u: Square ensures SquareSound(q, u) {
      WellFormedSquares(p, u);
      RelocateHas(p, from, to, start, end, s, t, 0, u);
      RelocateHas(p, from, to, start, end, s, t, 1, u);
      RelocateHas(p, from, to, start, end, s, t, 2, u);
      RelocateHas(p, from, to, start, end, s, t, 3, u);
    }
    WellFormedFromSquares(q);
  }

  /** A legal move keeps the board well formed. */
  lemma StepPreservesWellFormed(p: PieceSets, color: PlayerColor, s: Square, t: Square)
    requires WellFormed(p) && Legal(p, color, s, t)
    ensures WellFormed(Step(p, color, Single(s), Single(t)).pieces)
  {
    var king := IsKing(p, color, s);
    StepAsRelocate(p, color, s, t);
    WellFormedSquares(p, s);
    LandingPlayable(p, color, king, s, t);
    RelocateWellFormed(p, Index(color, king), Index(color, king || Promotes(color, king, t)), Single(s), Single(t), s, t);
  }

  /** Whatever it is called with, `make_move` keeps a well-formed board well formed. */
  lemma MakeMoveKeepsWellFormed(p: PieceSets, color: PlayerColor, start: Bitboard, end: Bitboard)
    requires WellFormed(p)
    ensures WellFormed(Step(p, color, start, end).pieces)
  {
    if Accepts(p, color, start, end) {
      var s := SingleSquareIsSingle(start);
      var t := SingleSquareIsSingle(end);
      ValidIffLegal(p, color, s, t);
      StepPreservesWellFormed(p, color, s, t);
    }
  }

  /** `q` holds `color`'s pieces of `p` with the one on `s` moved to `t`. */
  ghost predicate PieceMoved(p: PieceSets, q: PieceSets, color: PlayerColor, s: Square, t: Square) {
    forall u: Square :: Pieces(q, color).Has(u) <==> (Pieces(p, color).Has(u) && u != s) || u == t
  }

  /** In `q` the piece of `color` on `t` is a king exactly when `king` holds, and a man otherwise. */
  predicate LandedAs(q: PieceSets, color: PlayerColor, t: Square, king: bool) {
    (Kings(q, color).Has(t) <==> king) && (Men(q, color).Has(t) <==> !king)
  }

  /** After a legal move the mover's pieces are the old ones without `s` and with `t`. */
  lemma MoverAfterMove(p: PieceSets, color: PlayerColor, s: Square, t: Square)
    requires WellFormed(p) && Legal(p, color, s, t)
    ensures PieceMoved(p, Step(p, color, Single(s), Single(t)).pieces, color, s, t)
  {
    StepAsRelocate(p, color, s, t);
    MoverRelocated(p, color, s, t, IsKing(p, color, s));
  }

  /** The piece on `t` after a legal move is a king exactly when it was one or has just been crowned. */
  lemma LandingAfterMove(p: PieceSets, color: PlayerColor, s: Square, t: Square)
    requires WellFormed(p) && Legal(p, color, s, t)
    ensures var king := IsKing(p, color, s);
            LandedAs(Step(p, color, Single(s), Single(t)).pieces, color, t, king || Promotes(color, king, t))
  {
    StepAsRelocate(p, color, s, t);
    LandingRelocated(p, color, s, t, IsKing(p, color, s));
  }

  lemma MoverRelocated(p: PieceSets, color: PlayerColor, s: Square, t: Square, king: bool)
    requires WellFormed(p) && Legal(p, color, s, t) && king == IsKing(p, color, s)
    ensures var crowned := Promotes(color, king, t);
            PieceMoved(p, Relocate(p, Index(color, king), Index(color, king || crowned), Single(s), Single(t)), color, s, t)
  {
    MoveEnds(p, color, s, t, king);
    RelocatePieces(p, color, king, Promotes(color, king, t), Single(s), Single(t), s, t);
  }

  lemma LandingRelocated(p: PieceSets, color: PlayerColor, s: Square, t: Square, king: bool)
    requires WellFormed(p) && Legal(p, color, s, t) && king == IsKing(p, color, s)
    ensures var crowned := Promotes(color, king, t);
            LandedAs(Relocate(p, Index(color, king), Index(color, king || crowned), Single(s), Single(t)), color, t, king || crowned)
  {
    MoveEnds(p, color, s, t, king);
    RelocateLanding(p, color, king, Promotes(color, king, t), Single(s), Single(t), s, t);
  }

  /** A legal move starts from a square of the mover's slot, which no other slot of that colour holds,
      and ends on an empty square. */
  lemma MoveEnds(p: PieceSets, color: PlayerColor, s: Square, t: Square, king: bool)
    requires WellFormed(p) && Legal(p, color, s, t) && king == IsKing(p, color, s)
    ensures p[Index(color, king)].Has(s) && !p[Index(color, !king)].Has(s) && !Occupied(p, t)
  {
    WellFormedSquares(p, s);
    LandingPlayable(p, color, king, s, t);
  }

  /** Moving one of `color`'s pieces from `s` to the empty square `t` within its colour. */
  lemma {:induction false} RelocatePieces(p: PieceSets, color: PlayerColor, king: bool, crowned: bool,
                                          start: Bitboard, end: Bitboard, s: Square, t: Square)
    requires Only(start, s) && Only(end, t)
    requires p[Index(color, king)].Has(s) && !p[Index(color, !king)].Has(s) && !Occupied(p, t)
    ensures PieceMoved(p, Relocate(p, Index(color, king), Index(color, king || crowned), start, end), color, s, t)
  {
    var from := Index(color, king);
    var to := Index(color, king || crowned);
    IndexLayout(color, color, king, king);
    forall u: Square
      ensures Pieces(Relocate(p, from, to, start, end), color).Has(u) <==> (Pieces(p, color).Has(u) && u != s) || u == t
    {
      RelocateHas(p, from, to, start, end, s, t, Index(color, false), u);
      RelocateHas(p, from, to, start, end, s, t, Index(color, true), u);
    }
  }

  /** The moved piece lands among the kings exactly when it was one or is crowned. */
  lemma {:induction false} RelocateLanding(p: PieceSets, color: PlayerColor, king: bool, crowned: bool,
                                           start: Bitboard, end: Bitboard, s: Square, t: Square)
    requires Only(start, s) && Only(end, t) && !Occupied(p, t)
    ensures LandedAs(Relocate(p, Index(color, king), Index(color, king || crowned), start, end), color, t, king || crowned)
  {
    var from := Index(color, king);
    var to := Index(color, king || crowned);
    IndexLayout(color, color, king, king);
    RelocateHas(p, from, to, start, end, s, t, Index(color, false), t);
    RelocateHas(p, from, to, start, end, s, t, Index(color, true), t);
  }

  /** The opponent's sets are the same after a legal move, captures included: `midsquare` as written
      never names the jumped square, so the jumped piece is not removed. */
  lemma OpponentUntouched(p: PieceSets, color: PlayerColor, s: Square, t: Square)
    requires WellFormed(p) && Legal(p, color, s, t)
    ensures var q := Step(p, color, Single(s), Single(t)).pieces;
            Men(q, color.Not()) == Men(p, color.Not()) && Kings(q, color.Not()) == Kings(p, color.Not())
  {
    var king := IsKing(p, color, s);
    StepAsRelocate(p, color, s, t);
    RelocateKeepsOpponent(p, color, king, Promotes(color, king, t), Single(s), Single(t));
  }

  /** Moving within `color`'s two slots leaves the other colour's slots alone. */
  lemma {:induction false} RelocateKeepsOpponent(p: PieceSets, color: PlayerColor, king: bool, crowned: bool,
                                                 start: Bitboard, end: Bitboard)
    ensures var q := Relocate(p, Index(color, king), Index(color, king || crowned), start, end);
            Men(q, color.Not()) == Men(p, color.Not()) && Kings(q, color.Not()) == Kings(p, color.Not())
  {
    IndexLayout(color, color.Not(), king, false);
    IndexLayout(color, color.Not(), king, true);
    IndexLayout(color, color.Not(), king || crowned, false);
    IndexLayout(color, color.Not(), king || crowned, true);
  }

  /** Who moves next: the mover again exactly after a capture that did not crown and leaves another
      capture from the landing square; otherwise the opponent. */
  lemma TurnAfterMove(p: PieceSets, color: PlayerColor, s: Square, t: Square)
    requires WellFormed(p) && Legal(p, color, s, t)
    ensures var king := IsKing(p, color, s);
            var r := Step(p, color, Single(s), Single(t)).result;
            (r == Valid(color) <==> CanJump(p, color, king, s, t) && !Promotes(color, king, t) && CanCaptureFrom(p, color, king, t)) &&
            (r == Valid(color) || r == Valid(color.Not()))
  {
    StepAsRelocate(p, color, s, t);
  }

  // The starting position.

  /** No white piece can capture in the starting position: white men only move up, and the squares
      diagonally above rows 0 to 2 hold no black piece. */
  lemma StartNoCapture()
    ensures !MustCapture(StartSets(), White)
  {
    forall s: Square, t: Square | Pieces(StartSets(), White).Has(s)
      ensures !CanJump(StartSets(), White, IsKing(StartSets(), White, s), s, t)
    {
      StartSquares(s);
      forall d: Direction ensures !JumpMove(StartSets(), White, false, s, d, t) {
        StartNoJump(s, d, t);
      }
    }
  }

  lemma {:induction false} StartNoJump(s: Square, d: Direction, t: Square)
    requires Playable.Has(s) && Row(s) < 3
    ensures !JumpMove(StartSets(), White, false, s, d, t)
  {
    if Allowed(White, false, d) && Neighbor(s, d).Some? {
      var n := Neighbor(s, d).value;
      assert Row(n) <= 3;
      StartSquares(n);
    }
  }

  /** The first move checked for the starting position: White's man on 16 steps up-right to 25, and
      Black moves next. */
  lemma StartFirstMove()
    ensures Legal(StartSets(), White, 16, 25)
    ensures Step(StartSets(), White, Single(16), Single(25)).result == Valid(Black)
  {
    var p := StartSets();
    StartWellFormed();
    StartSquares(16);
    StartSquares(25);
    assert StepMove(p, White, false, 16, UpRight, 25);
    StartNoCapture();
    TurnAfterMove(p, White, 16, 25);
  }

  // The board object.

  /** The written characters of `raw_string`. */
  const WhiteManSymbol: char := '\U{25CB}'
  const BlackManSymbol: char := '\U{25CF}'
  const WhiteKingSymbol: char := '\U{2606}'
  const BlackKingSymbol: char := '\U{2605}'

  /** The character `raw_string` writes for square `s`: the first of the four sets, in slot order,
      that holds `s` decides; a square no set holds is a space. */
  function Symbol(p: PieceSets, s: Square): char {
    if p[WhiteMen].Has(s) then WhiteManSymbol
    else if p[BlackMen].Has(s) then BlackManSymbol
    else if p[WhiteKings].Has(s) then WhiteKingSymbol
    else if p[BlackKings].Has(s) then BlackKingSymbol
    else ' '
  }

  /** The characters for squares `0` to `n - 1`. */
  function RawPrefix(p: PieceSets, n: bv8): (text: string)
    requires n <= 64
    ensures |text| == n as int
    ensures forall i: Square :: i < n ==> text[i] == Symbol(p, i)
    decreases n as int
  {
    if n == 0 then [] else RawPrefix(p, n - 1) + [Symbol(p, n - 1)]
  }

  /** On a well-formed board each character names what stands on its square. */
  lemma SymbolMeaning(p: PieceSets, s: Square)
    requires WellFormed(p)
    ensures Symbol(p, s) == WhiteManSymbol <==> Men(p, White).Has(s)
    ensures Symbol(p, s) == BlackManSymbol <==> Men(p, Black).Has(s)
    ensures Symbol(p, s) == WhiteKingSymbol <==> Kings(p, White).Has(s)
    ensures Symbol(p, s) == BlackKingSymbol <==> Kings(p, Black).Has(s)
    ensures Symbol(p, s) == ' ' <==> Empty(p).Has(s)
  {
    WellFormedSquares(p, s);
  }

  /** `Checkerboard`: the four piece sets, kept in a four-slot array that `make_move` updates in place. */
  class Checkerboard {
    const pieces: array<Bitboard>

    /** The board invariant: four slots holding disjoint sets of playable squares. */
    ghost predicate Valid()
      reads this, pieces
    {
      pieces.Length == 4 && WellFormed(Sets())
    }

    /** The current contents of the four slots. */
    function Sets(): (p: PieceSets)
      requires pieces.Length == 4
      reads this, pieces
    {
      pieces[..]
    }

    /** `Checkerboard::new`: the starting position. */
    constructor ()
      ensures Valid() && fresh(pieces)
      ensures Sets() == StartSets()
    {
      pieces := new Bitboard[4] [Bitboard(0x55AA55), Bitboard(0xAA55AA << 40), Bitboard.New(), Bitboard.New()];
      new;
      StartWellFormed();
    }

    /** `self.pieces[k] &= rhs`. */
    method AndAssign(k: Slot, rhs: Bitboard)
      requires pieces.Length == 4
      modifies pieces
      ensures Sets() == old(Sets())[k := old(Sets())[k].And(rhs)]
    {
      pieces[k] := pieces[k].And(rhs);
    }

    /** `self.pieces[k] |= rhs`. */
    method OrAssign(k: Slot, rhs: Bitboard)
      requires pieces.Length == 4
      modifies pieces
      ensures Sets() == old(Sets())[k := old(Sets())[k].Or(rhs)]
    {
      pieces[k] := pieces[k].Or(rhs);
    }

    /** `make_move`: the result and the new contents of the four slots are those of `Step`, whose
        properties are the lemmas above. The three checks are the pure test `Accepts`. */
    method MakeMove(color: PlayerColor, start: Bitboard, end: Bitboard) returns (r: MoveResult)
      requires Valid()
      modifies pieces
      ensures Valid()
      ensures Outcome(Sets(), r) == Step(old(Sets()), color, start, end)
    {
      var board := Sets();
      MakeMoveKeepsWellFormed(board, color, start, end);
      if !Accepts(board, color, start, end) {
        return Invalid;
      }
      var king := start.And(Kings(board, color)).IsNotEmpty();
      var capture := PieceCaptures(board, color, king, start).And(end).IsNotEmpty();
      r := Apply(color, start, end, king, capture);
    }

    /** The second half of `make_move`, once the move is accepted: the capture branch and the placing. */
    method Apply(color: PlayerColor, start: Bitboard, end: Bitboard, king: bool, capture: bool) returns (r: MoveResult)
      requires pieces.Length == 4
      requires capture == PieceCaptures(Sets(), color, king, start).And(end).IsNotEmpty()
      modifies pieces
      ensures Outcome(Sets(), r) == Accepted(old(Sets()), color, start, end, king)
    {
      var moreCaptures := false;
      if capture {
        moreCaptures := CaptureBranch(color, start, end, king);
      }
      r := Place(color, start, end, king, moreCaptures);
    }

    /** The end of `make_move`: the piece leaves `start` and lands on `end` in its own set, or in the
        kings' set when a man reaches the promotion edge. */
    method Place(color: PlayerColor, start: Bitboard, end: Bitboard, king: bool, more: bool) returns (r: MoveResult)
      requires pieces.Length == 4
      modifies pieces
      ensures Outcome(Sets(), r) == Placed(old(Sets()), color, start, end, king, more)
    {
      var index := Index(color, king);
      AndAssign(index, start.Not());
      var promotionEdge := PromotionEdge(color);
      if end.And(promotionEdge).IsNotEmpty() && !king {
        OrAssign(index + 2, end);
        r := MoveResult.Valid(color.Not());
      } else {
        OrAssign(index, end);
        r := if more then MoveResult.Valid(color) else MoveResult.Valid(color.Not());
      }
    }

    /** The capture branch of `make_move`: clear the square `midsquare` returns from the opponent's set
        that holds it, then look for a further capture from `end`. */
    method CaptureBranch(color: PlayerColor, start: Bitboard, end: Bitboard, king: bool) returns (more: bool)
      requires pieces.Length == 4
      modifies pieces
      ensures Sets() == RemoveJumped(old(Sets()), color, start, end)
      ensures more == PieceCaptures(Sets(), color, king, end).IsNotEmpty()
    {
      var board := Sets();
      var oppSquare := Bitboard.Midsquare(start, end);
      var oppKing := oppSquare.And(Kings(board, color.Not())).IsNotEmpty();
      var oppIndex := Index(color.Not(), oppKing);
      AndAssign(oppIndex, oppSquare.Not());
      var after := Sets();
      more := PieceCaptures(after, color, king, end).IsNotEmpty();
    }

    /** `raw_string`: one character per square, square 0 first. */
    method RawString() returns (text: string)
      requires Valid()
      ensures text == RawPrefix(Sets(), 64)
      ensures |text| == 64 && forall s: Square :: text[s] == Symbol(Sets(), s)
    {
      var whiteMen := pieces[WhiteMen];
      var blackMen := pieces[BlackMen];
      var whiteKings := pieces[WhiteKings];
      var blackKings := pieces[BlackKings];
      text := "";
      var i: bv8 := 0;
      while i < 64
        invariant i <= 64
        invariant text == RawPrefix(Sets(), i)
        decreases 64 - i as int
      {
        var square := Single(i);
        SingleMeets(whiteMen, square, i);
        SingleMeets(blackMen, square, i);
        SingleMeets(whiteKings, square, i);
        SingleMeets(blackKings, square, i);
        var ch := if whiteMen.And(square).IsNotEmpty() then WhiteManSymbol
                  else if blackMen.And(square).IsNotEmpty() then BlackManSymbol
                  else if whiteKings.And(square).IsNotEmpty() then WhiteKingSymbol
                  else if blackKings.And(square).IsNotEmpty() then BlackKingSymbol
                  else ' ';
        text := text + [ch];
        i := i + 1;
      }
    }
  }
}
