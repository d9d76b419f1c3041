/**
 * The game object of the interface: a board, the side on move and the result, with the
 * verdict `game_over` gives on them.
 */
module Interface {
  import opened Bitboards
  import opened BitboardLaws
  import opened GameTypes
  import opened Moves
  import opened Checkerboards

  datatype GameResult = Victory(winner: PlayerColor) | Draw

  /** `CheckersGame`, with its board given by the four piece sets the board holds. */
  datatype CheckersGame = CheckersGame(board: PieceSets, onMove: PlayerColor, result: Option<GameResult>)

  /** `CheckersGame::new`: the starting position, White on move, no result yet. */
  function NewGame(): (g: CheckersGame)
    ensures g.board == StartSets() && WellFormed(g.board)
    ensures g.onMove == White && g.result == None
  {
    StartWellFormed();
    CheckersGame(StartSets(), White, None)
  }

  /** The landings of all the moves and captures `color` has. */
  function AllMoves(p: PieceSets, color: PlayerColor): Bitboard {
    ColorMoves(p, color).Or(ColorCaptures(p, color))
  }

  /** `CheckersGame::game_over` on a board and a side to move. */
  function Verdict(p: PieceSets, onMove: PlayerColor): (v: Option<GameResult>)
    ensures v != Some(Victory(onMove))
  {
    if Empty(p) == Playable then
      Some(Draw)
    else if onMove == White && AllMoves(p, White).IsEmpty() then
      Some(Victory(Black))
    else if onMove == Black && AllMoves(p, Black).IsEmpty() then
      Some(Victory(White))
    else
      None
  }

  /** `game_over` reads the game and gives its verdict, never a victory of the side on move. */
  function GameOver(g: CheckersGame): (v: Option<GameResult>)
    ensures v != Some(Victory(g.onMove))
    ensures WellFormed(g.board) ==> v != Some(Draw)
  {
    var v := Verdict(g.board, g.onMove);
    if WellFormed(g.board) then DrawUnreachable(g.board, g.onMove); v else v
  }

  /** `color` has some legal move. */
  ghost predicate HasMove(p: PieceSets, color: PlayerColor) {
    exists s: Square, t: Square :: Legal(p, color, s, t)
  }

  /** The draw is declared exactly when every playable square is empty and every other square is
      occupied, whoever is on move. */
  lemma DrawIff(p: PieceSets, onMove: PlayerColor)
    ensures Verdict(p, onMove) == Some(Draw) <==> forall s: Square :: Occupied(p, s) <==> !Playable.Has(s)
  {
    if forall s: Square :: Occupied(p, s) <==> !Playable.Has(s) {
      Extensionality(Empty(p), Playable);
    }
  }

  /** On a well-formed board the draw is never declared: square 1 is not playable and holds no piece,
      so it is among the empty squares while the playable set lacks it. */
  lemma DrawUnreachable(p: PieceSets, onMove: PlayerColor)
    requires WellFormed(p)
    ensures Verdict(p, onMove) != Some(Draw)
  {
    WellFormedSquares(p, 1);
    assert Empty(p).Has(1) && !Playable.Has(1);
  }

  /** `color`'s landings are not all empty exactly when `color` has a legal move. */
  lemma MovesIffLegal(p: PieceSets, color: PlayerColor)
    requires WellFormed(p)
    ensures AllMoves(p, color).IsNotEmpty() <==> HasMove(p, color)
  {
    OrEmpty(ColorMoves(p, color), ColorCaptures(p, color));
    if AllMoves(p, color).IsNotEmpty() {
      MoveFound(p, color);
    }
    if HasMove(p, color) {
      var s, t :| Legal(p, color, s, t);
      LegalLands(p, color, s, t, IsKing(p, color, s));
    }
  }

  /** Some landing gives some legal move. */
  lemma {:induction false} MoveFound(p: PieceSets, color: PlayerColor)
    requires WellFormed(p)
    requires ColorMoves(p, color).IsNotEmpty() || ColorCaptures(p, color).IsNotEmpty()
    ensures HasMove(p, color)
  {
    MustCaptureIff(p, color);
    if ColorCaptures(p, color).IsNotEmpty() {
      var s, t :| Pieces(p, color).Has(s) && CanJump(p, color, IsKing(p, color, s), s, t);
      assert Legal(p, color, s, t);
    } else {
      var t := LowestMember(ColorMoves(p, color));
      var s := StepFound(p, color, t);
    }
  }

  /** A step landing on `t` with no capture available is a legal move onto `t`. */
  lemma {:induction false} StepFound(p: PieceSets, color: PlayerColor, t: Square) returns (s: Square)
    requires WellFormed(p) && !MustCapture(p, color) && ColorMoves(p, color).Has(t)
    ensures Legal(p, color, s, t)
  {
    var d;
    s, d := ColorMovesSound(p, color, t);
    assert StepMove(p, color, IsKing(p, color, s), s, d, t);
  }

  /** A legal move lands on a square of the move or the capture landings. */
  lemma {:induction false} LegalLands(p: PieceSets, color: PlayerColor, s: Square, t: Square, king: bool)
    requires WellFormed(p) && Legal(p, color, s, t) && king == IsKing(p, color, s)
    ensures ColorMoves(p, color).IsNotEmpty() || ColorCaptures(p, color).IsNotEmpty()
  {
    if CanJump(p, color, king, s, t) {
      CaptureFound(p, color, s, t);
    } else {
      var d :| StepMove(p, color, king, s, d, t);
      ColorMovesComplete(p, color, s, d);
      HasNonEmpty(ColorMoves(p, color), t);
    }
  }

  /** On a well-formed board the opponent of the side on move is declared the winner exactly when the
      side on move has no legal move, and no verdict is given exactly when it has one. */
  lemma VictoryIffStuck(p: PieceSets, onMove: PlayerColor)
    requires WellFormed(p)
    ensures Verdict(p, onMove) == Some(Victory(onMove.Not())) <==> !HasMove(p, onMove)
    ensures Verdict(p, onMove) == None <==> HasMove(p, onMove)
  {
    DrawUnreachable(p, onMove);
    IsEmptyIffNoSquares(AllMoves(p, onMove));
    MovesIffLegal(p, onMove);
  }

  /** One call of `make_move`: the side moving and the two squares it names. */
  datatype Move = Move(color: PlayerColor, start: Bitboard, end: Bitboard)

  /** The board after the calls `ms`, in order, from `p`. */
  function Replay(p: PieceSets, ms: seq<Move>): PieceSets
    decreases |ms|
  {
    if |ms| == 0 then p else Replay(Step(p, ms[0].color, ms[0].start, ms[0].end).pieces, ms[1..])
  }

  /** Any run of `make_move` calls keeps the board well formed. */
  lemma {:induction false} ReplayKeepsWellFormed(p: PieceSets, ms: seq<Move>)
    requires WellFormed(p)
    ensures WellFormed(Replay(p, ms))
    decreases |ms|
  {
    if |ms| > 0 {
      MakeMoveKeepsWellFormed(p, ms[0].color, ms[0].start, ms[0].end);
      ReplayKeepsWellFormed(Step(p, ms[0].color, ms[0].start, ms[0].end).pieces, ms[1..]);
    }
  }

  /** No game begun by `CheckersGame::new` is ever declared drawn, whatever calls follow. */
  lemma NeverDrawn(ms: seq<Move>, onMove: PlayerColor)
    ensures Verdict(Replay(StartSets(), ms), onMove) != Some(Draw)
  {
    StartWellFormed();
    ReplayKeepsWellFormed(StartSets(), ms);
    DrawUnreachable(Replay(StartSets(), ms), onMove);
  }

  /** A new game is not over: White's man on 16 can step to 25. */
  lemma NewGameNotOver()
    ensures GameOver(NewGame()) == None
  {
    StartFirstMove();
    StartWellFormed();
    VictoryIffStuck(StartSets(), White);
  }
}
