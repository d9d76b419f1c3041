# A verified model of a bitboard checkers engine

This project models the rules engine of a checkers (draughts) program. The board is four 64-bit
bitboards in an array: white men, black men, white kings and black kings. Square `8 * row + col` is
bit `8 * row + col`. White starts on rows 0 to 2 and moves up. Black starts on rows 5 to 7 and moves
down. Only the 32 dark squares, where row + column is even, are used.

The model has five modules, one per layer of the program:

- `Bitboards` (`bitboard.dfy`): the `Bitboard` value type over `bv64` and its set algebra.
  - It has the eight edge masks, the single-square tests, `midsquare` and the binary `Display`.
  - A ghost reading gives each bitboard's set of squares, with rows and columns.
- `BitboardLaws` (`bitboard_laws.dfy`): distributivity laws used by the generator lemmas.
- `GameTypes` (`game.dfy`): the value part of the board module.
  - `PlayerColor` and `!`, `MoveResult`, the slot layout `index`.
  - The accessors `men`, `kings`, `pieces`, `opponents` and `empty`.
  - The starting position, and `WellFormed`: the invariant that the four sets are disjoint and hold
    playable squares only.
- `Moves` (`moves.dfy`): `piece_moves`, `piece_captures`, `color_moves` and `color_captures`, written
  with the same masks and shifts as the code.
  - Each is proved sound and complete against a row/column statement of the rules (`Neighbor`,
    `Jump`, `Allowed`).
- `Checkerboards` (`checkerboard.dfy`): `make_move`, in two forms.
  - The pure function `Step` gives the new piece sets and the result. The rules `Legal` (forced
    capture included) are stated by squares and directions, and the lemmas relate `Step` to them.
  - The class `Checkerboard` keeps the four sets in an `array`. Its `MakeMove` method updates the slots
    in place with `&=` and `|=`, as the code does, and is proved to agree with `Step`.
  - The class invariant `Valid` includes the board invariant `WellFormed`. The constructor sets it up
    and `MakeMove` keeps it.
  - `raw_string` is a loop method proved against a specification function.
- `Interface` (`interface.dfy`): `CheckersGame`, `new` and `game_over`, with the draw and victory
  rules related to the legal moves.

## What the code does, where it differs from its documentation

The model follows the code wherever the code, its comments and its tests disagree. The differences
are proved as lemmas.

- **`midsquare` never finds the jumped square.** It multiplies the two words and tests the trailing-zero
  count `a + b` for parity. It returns the empty set when `a + b` is *even*, and a jump always has an
  even index sum, since it spans 14 or 18 squares.
  - So `make_move` never removes the captured piece: its `&= !opp_square` clears nothing.
  - The doc comment at `src/bitboard.rs:42-46` promises otherwise, and so does the test at
    `src/tests.rs:98-102` (27, 41 → 34).
  - The test at `src/tests.rs:45-61` asserts nothing: its `assert_eq!` compares the `()` results of
    two `String::retain` calls. Only the layout it writes out, with no black man left on 34, shows
    that the captured piece was meant to be removed.
  - See `Bitboards.MidsquareOfSquares`, `Bitboards.MidsquareOfJumpIsEmpty`,
    `Bitboards.MidsquareDocExample`, `Checkerboards.CaptureKeeps` and `Checkerboards.StepAsRelocate`.
  - The documented behaviour is `Bitboards.Bitboard.DocumentedMidsquare`: for two single squares an
    even number of squares apart, the square halfway between them.
    - `Checkerboards.JumpDocumentedMidsquare` proves that for every jump it returns the square jumped over.
    - `Checkerboards.DocumentedCaptureClears` proves that the capture branch built on it removes exactly
      the jumped piece of the opponent's.
    - The rest of the model keeps the code as written.
  - `Checkerboards.RemoveJumpedClears` states the capture branch for any `midsquare` result: the
    opponent loses exactly that square, from whichever of its two sets holds it.
- **Two jumps are never generated.** `BOTTOM_TWO` and `TOP_TWO` are built by shifting the edge row by
  nine, so they also hold squares 16 and 47.
  - The down-right jump 16 → 2 and the up-left jump 47 → 61 are on the board but are never generated
    (`Moves.MissedJumpDownRight`, `Moves.MissedJumpUpLeft`).
  - The rules of the model (`Checkerboards.JumpMove`) follow the code and exclude those two jumps.
- **The draw test cannot succeed on a real board.** `game_over` declares a draw when `empty()` equals
  `0xAA55AA55AA55AA55`. That happens when every playable square is empty and every non-playable square
  is occupied (`Interface.DrawIff`).
  - So the code declares a draw when every playable square is empty, not when every playable square
    is occupied.
  - On a well-formed board square 1 is always empty and is not playable, so the draw is never declared
    (`Interface.DrawUnreachable`, `Interface.NeverDrawn`).
- **The further-capture test** is made after the capture branch and before the piece leaves `start`.
  It therefore looks at the board with the mover still on `start` and the jumped piece still in place.
  - On that board, a man that is crowned ends the turn whatever the test says.
  - `Checkerboards.TurnAfterMove` states this.

## Model

| member | source | states |
|---|---|---|
| Bitboards.Bitboard.New | src/bitboard.rs:21-23 | the new bitboard holds no square |
| Bitboards.Bitboard.Squares | src/bitboard.rs:15-18 | the ghost set of a bitboard holds exactly the squares whose bit is set |
| Bitboards.Bitboard.Or | src/bitboard.rs:68-74 | `\|` holds a square exactly when either operand does |
| Bitboards.Bitboard.And | src/bitboard.rs:84-98 | `&` holds a square exactly when both operands do; `& u64` is `&` on `Bitboard(rhs)` |
| Bitboards.Bitboard.Xor | src/bitboard.rs:100-106 | `^` holds a square exactly when one operand does and the other does not |
| Bitboards.Bitboard.Not | src/bitboard.rs:116-122 | `!` holds exactly the squares the operand lacks |
| Bitboards.Bitboard.TrailingZeros | src/bitboard.rs:53 | the trailing-zero count is 64 exactly for the empty word; otherwise it is the lowest square the word holds |
| Bitboards.Bitboard.Midsquare | src/bitboard.rs:47-59 | empty unless both arguments are single squares; always empty or a single square |
| Bitboards.Single | src/game/mod.rs:131-134 | `1 << s` holds square `s` and nothing else |
| Bitboards.Bitboard.Rendering | src/bitboard.rs:152-161 | the binary rendering is 8 lines of 8 digits and a newline |
| Bitboards.Bitboard.ToString | src/bitboard.rs:152-161 | the row loop of `Display`, row 7 first, writes exactly the rendering |
| Bitboards.RenderingPlacesSquare | src/bitboard.rs:154-158 | square `8r+c` is digit `c` of line `7-r` |
| Bitboards.RowLineDigits | src/bitboard.rs:155-158 | `{:08b}` of the reversed row byte lists the row's squares column 0 first |
| Bitboards.AllRows | src/bitboard.rs:154-159 | the lines of rows 7 down to 0 make up the whole rendering |
| Bitboards.DisplayExample | src/tests.rs:9-21 | `0xAA55AA000055AA55` renders as the repository's test expects |
| Bitboards.EdgeMaskSquares | src/bitboard.rs:4-12 | each of the eight masks holds exactly the listed squares, including 16 in `BOTTOM_TWO` and 47 in `TOP_TWO` |
| Bitboards.Extensionality | src/bitboard.rs:15-18 | two bitboards holding the same squares are equal |
| Bitboards.IsEmptyIffNoSquares | src/bitboard.rs:34-40 | `is_empty` holds exactly when no square is held, and `is_not_empty` is its negation |
| Bitboards.SingleSquareIffOneMember | src/bitboard.rs:29-32 | `bb != 0 && bb & (bb - 1) == 0` holds exactly when one square is held |
| Bitboards.SingleIsSingleSquare | src/bitboard.rs:29-32 | `1 << s` passes `is_single_square` |
| Bitboards.SingleSquareIsSingle | src/bitboard.rs:29-32 | a bitboard passing `is_single_square` is `1 << t` for some square `t` |
| Bitboards.SingleMeets | src/game/mod.rs:131-145 | intersecting with a single square is non-empty exactly when that square is held |
| Bitboards.MidsquareOfSquares | src/bitboard.rs:52-58 | for squares `a` and `b`: empty when `a + b` is even, otherwise the square `(a + b) / 2` |
| Bitboards.Bitboard.DocumentedMidsquare | src/bitboard.rs:42-46 | the doc comment's `midsquare`: empty unless both arguments are single squares; always empty or a single square |
| Bitboards.DocumentedMidsquareOfSquares | src/bitboard.rs:42-46 | for squares `a` and `b`: the square `(a + b) / 2` when `b - a` is even, otherwise empty |
| Bitboards.SumParity | src/bitboard.rs:42-46 | two squares are an even number of squares apart exactly when their index sum is even, so the code's parity test and the doc comment's agree |
| Bitboards.MidsquareSymmetric | src/bitboard.rs:47-59 | `midsquare` does not depend on the order of its arguments |
| Bitboards.MidsquareOfJumpIsEmpty | src/bitboard.rs:42-59 | for every pair 14 or 18 squares apart, the result is empty, against the doc comment |
| Bitboards.MidsquareDocExample | src/tests.rs:98-102 | `midsquare` of 27 and 41 is empty, not square 34 |
| Bitboards.NotInvolution | src/bitboard.rs:116-122 | `!!x == x` |
| Bitboards.ComplementPartition | src/bitboard.rs:116-122 | `x & !x` is empty and `x \| !x` is full |
| Bitboards.SubsetIffMembers | src/game/moves.rs:4-21 | a bitboard lies within another exactly when each of its squares does |
| Bitboards.ShlSquares | src/bitboard.rs:124-130 | `<< 7` and `<< 9` carry square `s - n` to `s` and bring in nothing else |
| Bitboards.ShrSquares | src/bitboard.rs:132-138 | `>> 7` and `>> 9` carry square `s + n` to `s` and bring in nothing else |
| BitboardLaws.AndDistributes | src/bitboard.rs:84-90 | `&` distributes over `\|` |
| BitboardLaws.OrInterchange | src/bitboard.rs:68-74 | unions may be regrouped |
| BitboardLaws.ShlDistributes7 | src/bitboard.rs:124-130 | `<< 7` distributes over `\|` |
| BitboardLaws.ShlDistributes9 | src/bitboard.rs:124-130 | `<< 9` distributes over `\|` |
| BitboardLaws.ShrDistributes7 | src/bitboard.rs:132-138 | `>> 7` distributes over `\|` |
| BitboardLaws.ShrDistributes9 | src/bitboard.rs:132-138 | `>> 9` distributes over `\|` |
| BitboardLaws.OrEmpty | src/game/mod.rs:59 | a union is empty exactly when both parts are |
| BitboardLaws.AndFull | src/game/mod.rs:70 | `&= !empty` changes nothing |
| GameTypes.PlayerColor.Not | src/game/mod.rs:197-206 | `!color` is the other colour |
| GameTypes.NotInvolution | src/game/mod.rs:197-206 | `!!c == c`, and `!` is one-to-one |
| GameTypes.Index | src/game/mod.rs:32-39 | the slot of a colour and rank is one of the four: even for White, and in the upper half for kings |
| GameTypes.IndexLayout | src/game/mod.rs:10-13 | the four (colour, rank) pairs occupy distinct slots, and the kings' slot is the men's slot plus 2, which `index + 2` at line 82 relies on |
| GameTypes.Men | src/game/mod.rs:94-99 | `men(color)` is the set in the colour's men slot |
| GameTypes.Kings | src/game/mod.rs:101-106 | `kings(color)` is the set in the colour's kings slot |
| GameTypes.Pieces | src/game/mod.rs:108-110 | a colour's pieces are its men and its kings |
| GameTypes.Opponents | src/game/mod.rs:112-114 | the opponents are the men and kings of the other colour |
| GameTypes.Empty | src/game/mod.rs:116-122 | `empty()` holds exactly the squares no set holds, among all 64 |
| GameTypes.OccupiedByAColour | src/game/mod.rs:108-122 | a square is occupied exactly when it holds a white or a black piece, and empty exactly when it holds neither |
| GameTypes.PlayableSquares | src/interface/mod.rs:23 | `0xAA55AA55AA55AA55` is the set of squares whose row and column add up to an even number |
| GameTypes.DisjointIffNoCommonSquare | src/game/mod.rs:21-23 | two sets are disjoint exactly when no square lies in both |
| GameTypes.WellFormedSquares | src/game/mod.rs:21-23 | on a well-formed board an occupied square is playable and lies in exactly one of the four sets |
| GameTypes.WellFormedFromSquares | src/game/mod.rs:21-23 | a board whose every square is sound in that sense is well formed |
| GameTypes.StartSquares | src/game/mod.rs:26-30 | the start has white men on the playable squares of rows 0-2, black men on those of rows 5-7, and no kings |
| GameTypes.WhiteStartSquares | src/game/mod.rs:27 | the twelve white men stand on 0, 2, 4, 6, 9, 11, 13, 15, 16, 18, 20 and 22 |
| GameTypes.BlackStartSquares | src/game/mod.rs:28 | the twelve black men stand on 41, 43, 45, 47, 48, 50, 52, 54, 57, 59, 61 and 63 |
| GameTypes.StartWellFormed | src/game/mod.rs:26-30 | the starting position is well formed |
| Moves.StepSources | src/game/moves.rs:25-28 | the masked sources of a step are the given squares that are not on the edge blocked for that direction |
| Moves.JumpSources | src/game/moves.rs:42-45 | the masked sources of a jump are the given squares that are not in the two-wide mask for that direction |
| Moves.PieceMoves | src/game/moves.rs:23-37 | every step target is an empty square |
| Moves.PieceCaptures | src/game/moves.rs:39-54 | every capture landing is an empty square |
| Moves.TowardsHas | src/game/moves.rs:13-20 | each shift of a direction carries the square behind `t` onto `t` |
| Moves.StepTargetsHas | src/game/moves.rs:25-28 | a step target in one direction is an empty square whose unmasked source is one of the given squares |
| Moves.JumpTargetsHas | src/game/moves.rs:42-45 | a jump target is an empty square with an opponent one step behind and an unmasked source two steps behind |
| Moves.CombineHas | src/game/moves.rs:29-36 | a king takes all four directions' targets, a white man the two upward ones, a black man the two downward ones |
| Moves.PieceMovesHas | src/game/moves.rs:23-37 | `piece_moves` is the union of the allowed directions' step targets |
| Moves.PieceCapturesHas | src/game/moves.rs:39-54 | `piece_captures` is the union of the allowed directions' jump targets |
| Moves.StepGeometry | src/game/moves.rs:4-28 | from a playable square a step mask blocks exactly the steps that would leave the board, and an unblocked shift lands on the playable diagonal neighbour |
| Moves.JumpGeometry | src/game/moves.rs:4-21 | from a playable square a jump mask blocks exactly the jumps that would leave the board, plus 47 up-left and 16 down-right |
| Moves.JumpLanding | src/game/moves.rs:17-20 | a jump lands two diagonal steps away, on a playable square |
| Moves.BehindInjective | src/game/moves.rs:13-16 | a shift never carries two squares onto the same square |
| Moves.StepDirection | src/game/moves.rs:29-36 | every step target comes from some allowed direction |
| Moves.JumpDirection | src/game/moves.rs:46-52 | every capture landing comes from some allowed direction |
| Moves.StepTargetSource | src/game/moves.rs:25-28 | a step target is the diagonal neighbour of one of the playable source squares |
| Moves.JumpTargetSource | src/game/moves.rs:42-45 | a jump target lies two steps from a playable source over an opponent, and is not one of the missed jumps |
| Moves.PieceMovesSound | src/game/moves.rs:23-37 | every step target is an empty playable neighbour of a source, in an allowed direction |
| Moves.PieceMovesComplete | src/game/moves.rs:23-37 | every empty neighbour of a playable source, in an allowed direction, is a step target |
| Moves.PieceCapturesSound | src/game/moves.rs:39-54 | every capture landing is an empty playable square two steps from a source, over an opponent, in an allowed direction |
| Moves.PieceCapturesComplete | src/game/moves.rs:39-54 | every such jump from a playable source, other than the two missed ones, is a capture landing |
| Moves.MissedJumpUpLeft | src/game/moves.rs:42 | 47 → 61 is a jump on the board, yet it is never a capture landing from 47 |
| Moves.MissedJumpDownRight | src/game/moves.rs:45 | 16 → 2 is a jump on the board, yet it is never a capture landing from 16 |
| Moves.TowardsDistributes | src/game/moves.rs:25-28 | each direction's shift distributes over `\|` |
| Moves.StepSourcesUnion | src/game/moves.rs:25-28 | the step masks distribute over `\|` |
| Moves.JumpSourcesUnion | src/game/moves.rs:42-45 | the jump masks distribute over `\|` |
| Moves.StepTargetsUnion | src/game/moves.rs:25-28 | a direction's step targets distribute over `\|` |
| Moves.JumpTargetsUnion | src/game/moves.rs:42-45 | a direction's jump targets distribute over `\|` |
| Moves.CombineUnion | src/game/moves.rs:29-36 | combining the directions distributes over `\|` |
| Moves.PieceMovesUnion | src/game/moves.rs:56-61 | `piece_moves` of a union of squares is the union of the `piece_moves` |
| Moves.PieceCapturesUnion | src/game/moves.rs:63-68 | `piece_captures` of a union of squares is the union of the `piece_captures` |
| Moves.CombineKing | src/game/moves.rs:29-36 | a king's directions are a white man's and a black man's together |
| Moves.ManMovesWithinKing | src/game/moves.rs:29-36 | a man's steps are among a king's on the same squares |
| Moves.ManCapturesWithinKing | src/game/moves.rs:46-53 | a man's captures are among a king's on the same squares |
| Moves.KingMovesBothWays | src/game/moves.rs:29-36 | a king steps where a white man and a black man would together |
| Moves.ColorMovesSound | src/game/moves.rs:56-61 | on a well-formed board every square of `color_moves` is an empty neighbour of one of the colour's pieces, in a direction its rank allows |
| Moves.ColorMovesComplete | src/game/moves.rs:56-61 | every empty neighbour of one of the colour's pieces, in a direction its rank allows, is in `color_moves` |
| Moves.ColorCapturesSound | src/game/moves.rs:63-68 | every square of `color_captures` is the landing of a jump by one of the colour's pieces over an opponent |
| Moves.ColorCapturesComplete | src/game/moves.rs:63-68 | every such jump, other than the two missed ones, lands in `color_captures` |
| Checkerboards.PromotionRows | src/game/mod.rs:77-81 | a man is crowned exactly on the far row, White's row 7 and Black's row 0; a king never is |
| Checkerboards.AdmitsIff | src/game/mod.rs:59 | the third check passes exactly when there is a capture, or a step while no capture is compulsory |
| Checkerboards.Step | src/game/mod.rs:45-92 | `make_move` returns `Valid` exactly when the three checks pass, and an `Invalid` call leaves the board unchanged |
| Checkerboards.Accepted | src/game/mod.rs:63-92 | an accepted move always returns `Valid` |
| Checkerboards.Placed | src/game/mod.rs:76-91 | placing the piece always returns `Valid` |
| Checkerboards.OnlyWithin | src/game/mod.rs:47 | a single playable square lies within the playable squares |
| Checkerboards.PieceCapturesAt | src/game/mod.rs:57 | from a playable square, `piece_captures` holds `t` exactly when the piece can jump onto `t` |
| Checkerboards.JumpOfCapture | src/game/mod.rs:57 | a capture landing from a single square is a jump by the rules |
| Checkerboards.CaptureOfJump | src/game/mod.rs:57 | a jump by the rules from a single square is a capture landing |
| Checkerboards.PieceMovesAt | src/game/mod.rs:56 | from a playable square, `piece_moves` holds `t` exactly when the piece can step onto `t` |
| Checkerboards.StepOfMove | src/game/mod.rs:56 | a step target from a single square is a step by the rules |
| Checkerboards.MoveOfStep | src/game/mod.rs:56 | a step by the rules from a single square is a step target |
| Checkerboards.MustCaptureIff | src/game/mod.rs:58 | `must_capture` holds exactly when some piece of the colour has a jump |
| Checkerboards.CaptureAvailable | src/game/mod.rs:58 | a non-empty `color_captures` gives a piece with a jump |
| Checkerboards.CaptureFound | src/game/mod.rs:58 | a piece with a jump makes `color_captures` non-empty |
| Checkerboards.NotSingleRejected | src/game/mod.rs:47-49 | a call whose arguments are not both single squares returns `Invalid` and changes nothing |
| Checkerboards.ValidIffLegal | src/game/mod.rs:45-61 | on a well-formed board a move between two squares returns `Valid` exactly when it is legal: the mover owns `s` and jumps to `t`, or steps to `t` while no capture is available |
| Checkerboards.ReachesIff | src/game/mod.rs:56-61 | the third check, read through the rules: a jump, or a step without a compulsory capture |
| Checkerboards.StartTest | src/game/mod.rs:51-54 | the `start` tests see a king exactly when the square holds one of the colour's kings, and pass exactly when it holds one of its pieces |
| Checkerboards.CaptureTest | src/game/mod.rs:57 | `capture_bb` is non-empty exactly when the piece can jump onto `end` |
| Checkerboards.MoveTest | src/game/mod.rs:56 | `move_bb` is non-empty exactly when the piece can step onto `end` |
| Checkerboards.MoreCapturesIff | src/game/mod.rs:71 | `piece_captures` from the landing square is non-empty exactly when a further jump from it exists |
| Checkerboards.JumpMidsquare | src/game/mod.rs:66 | for every jump, `midsquare(start, end)` is empty |
| Checkerboards.JumpDocumentedMidsquare | src/bitboard.rs:42-46 | for every jump, the documented `midsquare` of its ends is the square jumped over |
| Checkerboards.DocumentedCaptureClears | src/game/mod.rs:66-70 | with the documented `midsquare`, the capture branch of a legal jump removes the jumped opponent piece and no other |
| Checkerboards.EmptyMidsquareKeeps | src/game/mod.rs:66-70 | with an empty midsquare the capture branch leaves every set unchanged |
| Checkerboards.RemoveJumpedClears | src/game/mod.rs:66-70 | the capture branch takes from the opponent exactly the square `midsquare` returns, whether it was held by a man or a king |
| Checkerboards.ClearedSquare | src/game/mod.rs:67-70 | clearing a single square from the opponent's set that `opp_king` selects removes exactly that square from the opponent's pieces |
| Checkerboards.RemoveJumpedKeepsMover | src/game/mod.rs:68-70 | the capture branch never touches the mover's sets |
| Checkerboards.LandingPlayable | src/game/mod.rs:56-61 | the square a legal move lands on is playable and empty |
| Checkerboards.JumpLandingPlayable | src/game/mod.rs:57 | the landing of a jump is playable and empty |
| Checkerboards.StepLandingPlayable | src/game/mod.rs:56 | the landing of a step is playable and empty |
| Checkerboards.StepAccepted | src/game/mod.rs:45-63 | a call that passes the three checks takes the accepted path |
| Checkerboards.StepShape | src/game/mod.rs:63-91 | the accepted path, with its intermediate tests named, moves the piece from its slot to its slot or to `index + 2`, and returns the colour the tests select |
| Checkerboards.StepAsRelocate | src/game/mod.rs:63-91 | a legal move takes the piece off `s` and puts it on `t`, among the kings if it was a king or is crowned; the mover keeps the turn exactly after an uncrowned capture with a further jump; nothing else changes |
| Checkerboards.CaptureKeeps | src/game/mod.rs:65-70 | the capture branch of a legal jump clears nothing, because of `midsquare` |
| Checkerboards.StepAt | src/game/mod.rs:51-92 | for single squares and a legal move, the `king` test reads the rank of the piece on `s`, and the accepted path gives exactly that relocation and that result |
| Checkerboards.StepFacts | src/game/mod.rs:51-81 | each test `make_move` computes — `king`, `capture_bb`, the promotion test — matches its rule-level reading |
| Checkerboards.RelocateHas | src/game/mod.rs:76-85 | slot by slot, the piece leaves `s` in its old slot and appears on `t` in its new one |
| Checkerboards.RelocateWellFormed | src/game/mod.rs:76-85 | moving a piece onto an empty playable square keeps the board well formed |
| Checkerboards.StepPreservesWellFormed | src/game/mod.rs:45-92 | a legal move keeps the board well formed |
| Checkerboards.MakeMoveKeepsWellFormed | src/game/mod.rs:45-92 | whatever its arguments, `make_move` keeps a well-formed board well formed |
| Checkerboards.MoverAfterMove | src/game/mod.rs:76-85 | after a legal move the mover's pieces are the old ones with `s` replaced by `t` |
| Checkerboards.LandingAfterMove | src/game/mod.rs:81-85 | the piece on `t` is a king exactly when it was a king or is crowned, and a man otherwise |
| Checkerboards.MoverRelocated | src/game/mod.rs:76-85 | the relocation of a legal move replaces `s` by `t` among the mover's pieces |
| Checkerboards.LandingRelocated | src/game/mod.rs:81-85 | the relocation of a legal move puts the right rank on `t` |
| Checkerboards.MoveEnds | src/game/mod.rs:51-61 | a legal move starts from the slot of the piece's rank and lands on an unoccupied square |
| Checkerboards.RelocatePieces | src/game/mod.rs:76-85 | moving a piece from its own slot to an empty square moves exactly that piece among the colour's pieces |
| Checkerboards.RelocateLanding | src/game/mod.rs:81-85 | the landing square ends up in the kings' set exactly when the piece is or becomes a king |
| Checkerboards.OpponentUntouched | src/game/mod.rs:63-91 | a legal move leaves the opponent's men and kings unchanged, since the jumped piece is not removed |
| Checkerboards.RelocateKeepsOpponent | src/game/mod.rs:76-85 | moving within the mover's slots leaves the opponent's slots alone |
| Checkerboards.TurnAfterMove | src/game/mod.rs:81-91 | after a legal move the mover continues exactly when it captured, was not crowned and can jump again from `t`; otherwise the opponent moves |
| Checkerboards.StartNoCapture | src/game/mod.rs:26-30 | in the starting position White has no capture |
| Checkerboards.StartNoJump | src/game/mod.rs:26-30 | a white man on rows 0-2 of the start has no jump |
| Checkerboards.StartFirstMove | src/tests.rs:39-42 | from the start, White's 16 → 25 is legal and returns `Valid(Black)` |
| Checkerboards.RawPrefix | src/game/mod.rs:130-147 | the text for squares `0..n` has length `n`, and its `i`-th character is the symbol of square `i` |
| Checkerboards.SymbolMeaning | src/game/mod.rs:15-18 | on a well-formed board each of the four symbols appears exactly for a piece of that colour and rank, and a space exactly for an empty square |
| Checkerboards.Checkerboard.constructor | src/game/mod.rs:26-30 | `new` gives a fresh four-slot array holding the starting position, which meets the board invariant `Valid` |
| Checkerboards.Checkerboard.AndAssign | src/bitboard.rs:146-150 | `pieces[k] &= rhs` changes slot `k` to its intersection with `rhs` and nothing else |
| Checkerboards.Checkerboard.OrAssign | src/bitboard.rs:140-144 | `pieces[k] \|= rhs` changes slot `k` to its union with `rhs` and nothing else |
| Checkerboards.Checkerboard.MakeMove | src/game/mod.rs:45-92 | the in-place update keeps the board invariant `Valid`, leaves the array holding `Step`'s new sets and returns `Step`'s result |
| Checkerboards.Checkerboard.Apply | src/game/mod.rs:63-91 | once accepted, the capture branch and the placing give `Accepted`'s sets and result |
| Checkerboards.Checkerboard.Place | src/game/mod.rs:76-91 | the placing gives `Placed`'s sets and result |
| Checkerboards.Checkerboard.CaptureBranch | src/game/mod.rs:65-71 | the branch leaves `RemoveJumped`'s sets, and its result says whether a capture from `end` exists on them |
| Checkerboards.Checkerboard.RawString | src/game/mod.rs:124-149 | the loop writes 64 characters, character `s` being the symbol of square `s` |
| Interface.NewGame | src/interface/mod.rs:18-20 | a new game has the starting position, which is well formed, White on move and no result |
| Interface.Verdict | src/interface/mod.rs:22-37 | `game_over` never awards victory to the side on move |
| Interface.GameOver | src/interface/mod.rs:22-37 | the verdict of a game is never a victory of the side on move, and never a draw on a well-formed board |
| Interface.DrawIff | src/interface/mod.rs:23-29 | a draw is declared exactly when every non-playable square is occupied and every playable one is empty, whoever is on move |
| Interface.DrawUnreachable | src/interface/mod.rs:28-29 | on a well-formed board the draw is never declared |
| Interface.MovesIffLegal | src/interface/mod.rs:24-27 | `color_moves \| color_captures` is non-empty exactly when the colour has a legal move |
| Interface.MoveFound | src/interface/mod.rs:24-27 | a non-empty move or capture set gives a legal move |
| Interface.StepFound | src/interface/mod.rs:24-25 | a step target with no capture available is the landing of a legal move |
| Interface.LegalLands | src/interface/mod.rs:24-27 | a legal move lands in the colour's move or capture set |
| Interface.VictoryIffStuck | src/interface/mod.rs:30-35 | on a well-formed board the other colour wins exactly when the side on move has no legal move, and there is no verdict exactly when it has one |
| Interface.ReplayKeepsWellFormed | src/game/mod.rs:45-92 | any sequence of `make_move` calls keeps the board well formed |
| Interface.NeverDrawn | src/interface/mod.rs:28-29 | no game begun by `new` is ever declared drawn, whatever moves follow |
| Interface.NewGameNotOver | src/interface/mod.rs:18-37 | a new game is not over |

## Left out

- `src/interface/ui.rs` and `run` (`src/interface/mod.rs:46-58`) are left out: terminal rendering,
  keyboard input and the click driver are presentation. The only writes to a game's `on_move` and
  `result` fields are there, so `CheckersGame` is a value, and its board is the four piece sets.
- `src/main.rs`, `src/lib.rs`, and the older `src/game.rs` and `src/moves.rs` are outside the core
  and not part of this model. `src/tests.rs` is used only as the source of expected values.
- `Display` for `Checkerboard` and for `PlayerColor` (`src/game/mod.rs:152-179`, `187-195`) is left
  out as rendering. It is built on `Bitboard`'s `Display`, which is modelled.
- `Display` for `GameResult` and the `Debug` derivations are left out as rendering.
- `BitAnd<u64>` is used by `raw_string` (`white_men & (1 << i)` and the three other masks). It is
  modelled as `And(Single(i))` in `Checkerboards.Checkerboard.RawString`. `Bitboards.SingleMeets` ties
  that test to the membership test which `Checkerboards.RawPrefix` uses.
- `BitOr<u64>` and `BitXor<u64>` are left out: the engine never uses them. They compute the same as the
  `Bitboard` forms on `Bitboard(rhs)`.
- `From<u64>` and `from_u64` are the datatype constructor `Bitboard(...)`.
- `Bitboards.Bitboard.Midsquare`: the 128-bit product and its trailing-zero count are modelled by the
  sum of the two trailing-zero counts, which is what the count of a product of two powers of two is.
- `Bitboards.Bitboard.Shl` and `Bitboards.Bitboard.Shr` accept any shift below 64. Their square-level
  contract is proved only for the shifts 7 and 9 that the generators use.
- `Checkerboards.Checkerboard.MakeMove`: the checks are the pure predicate `Accepts`, and `king` and
  `capture_bb` are recomputed from the same array after it. The code computes them once, but as no
  write comes between, the values are the same.
- `Checkerboards.Checkerboard.RawString`: the Rust `String` is a sequence of characters. How it is
  encoded in UTF-8 is not modelled.
