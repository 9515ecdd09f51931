# Chess game controller in Dafny

This project models the game logic of `gameController.js`, a browser chess game
in which two players drag pieces on one page. The board is an 8×8 grid of
characters. Row 0 is Black's back rank and row 7 is White's. `'.'` marks an
empty square, upper-case letters are black pieces and lower-case letters are
white pieces.

The model has seven parts:

- `ChessBoard` (`board.dfy`): squares, the grid, the colours, ASCII case
  folding, and the starting position.
- `Movement` (`movement.dfy`): the board validator `validateMovementOnBoard`
  with its per-piece rules, and the path walk `validatePathIsClearOnBoard` as a
  loop proved against `PathClear`.
- `CheckDetection` (`check.dfy`): king search, the check test, the attacked-square
  test and the checkmate scan. Each one is a loop proved against a
  specification predicate (`FindKing`, `InCheck`, `SquareAttacked`, `Checkmate`).
- `Game` (`game.dfy`): the game state as a value, and `Step`, the value-level
  meaning of one call of `movePiece`. It also holds the castling test
  `CastlingOk` and the board-backed live validator `LiveValid`.
- `Controller` (`controller.dfy`): the class `ChessGame`. It holds the source's
  globals as fields, and its methods update them in place. `MovePiece` is
  proved to do exactly what `Step` says. `Release` is proved to do exactly what
  the mouse-release handler does, via `Released`.
- `GameProperties` (`properties.dfy`): what one move does to the state, how
  refusals arise, why castling never completes, and how the live validator
  compares with the board validator.
- `Corrected` (`corrected.dfy`): `IntendedStep`, the step as the code's
  castling branches and self-check show it was meant to work, with its
  properties, and two concrete positions on which the written and the intended
  step differ. The class `ChessGame` keeps the behaviour as written; the
  intended step stands beside it and is not wired into the class.

The alerts become an `Outcome` value:

- `Refused(why)`: the move did not happen, with the reason.
- `Normal`: the move happened and nobody is in check.
- `Check`: the side now to move is in check.
- `Mate`: checkmate; this also ends the game.

Behaviour of the code kept as written:

- **Castling never completes.** `movePiece` sets the mover's king flag
  (gameController.js:172, 207) before `validateCastling` reads it (line 625
  for White, line 643 for Black), so the rook relocation at lines 175-239 is
  never reached. `GameProperties.CastlingNeverCompletes` proves this. The
  self-check at lines 160-167 runs first: a castling request whose relocated
  king would stand in check is refused as `ExposesOwnKing` with no flag set
  (`GameProperties.RefusalReasons`). Every other two-column king step to
  column 6 or 2 returns `Refused(CastlingRefused)` with the king flag set.
- **Ordinary king moves set no flag.** A king move other than a two-column
  step never sets the king-moved flags (`GameProperties.CommittedFlagUpdates`).
- **The checkmate scan misses some moves.** It uses the board validator. So it
  ignores castling and en passant, and it counts a pawn's diagonal step onto an
  empty square as a legal way out (`GameProperties.BoardPawnDiagonalOntoEmpty`).
- **The live two-row pawn advance skips a check.** It does not look at the
  skipped square (`GameProperties.LivePawnJumpsSkippedSquare`).
- **The self-check test can miss an en-passant capture.** The test in
  `movePiece` (lines 160-167) moves the piece on a copy of the board but does
  not remove a pawn taken en passant. So an en-passant capture may leave the
  mover's own king attacked. `GameProperties.OwnKingSafeAfterCommit` therefore
  excludes that capture, and `Corrected.EnPassantExposesOwnKing` gives a
  position where it happens.

The rook relocation, the rook flags and the page updates that follow each
`validateCastling` call (lines 174-239) show that castling was meant to work;
as written it cannot, and the class keeps the code's behaviour. The table
under "## Findings" pairs each such quirk with a corrected step.

The live validator (`validateMovement` and its helpers, lines 346-479) reads
the page: which squares have a child element, and the `id` of the piece
image. The model assumes the page mirrors `curBoard` and reads the board
instead.

## Model

| member | source | states |
|---|---|---|
| ChessBoard.Opponent | gameController.js:303 | the turn switch always hands the move to the other colour |
| ChessBoard.Put | gameController.js:252-254 | writing one cell yields an 8×8 grid holding the new piece on that square and leaving every other square unchanged |
| ChessBoard.ToUpper | gameController.js:483-487 | `toUpperCase` on ASCII: lower-case letters map to the letter 32 below, every other character is unchanged |
| ChessBoard.ToLower | gameController.js:483-487 | `toLowerCase` on ASCII: upper-case letters map to the letter 32 above, every other character is unchanged |
| Movement.PawnDirection | gameController.js:539 | a pawn moves by exactly one row per step: +1 exactly for upper-case (black) pieces, so `P` advances by +1 and `p` by -1 |
| Movement.Along | gameController.js:550-563 | the k-th square of the path walk is on the board; it is the end square exactly at the last step and the start square at step 0 |
| Movement.PathIsClearOnBoard | gameController.js:550-563 | the walk returns true exactly when every square strictly between start and end is empty |
| Movement.ValidateMovementOnBoard | gameController.js:489-548 | the result is exactly `ValidMove`: same-colour destination refused, then the rook, knight, bishop, queen, king and pawn rules |
| Movement.SameColorDestinationRefused | gameController.js:490-492 | a destination holding a piece of the mover's case is always refused |
| Movement.SameColorOnLetters | gameController.js:483-487 | `isSameColor` is symmetric, never holds with an empty square, and on two piece letters holds exactly when both are upper case or both lower case |
| Movement.KnightGeometry | gameController.js:526-530 | a knight move is accepted iff the destination is open and the offset is (2,1) or (1,2) |
| Movement.KingGeometry | gameController.js:532-536 | a king move is accepted iff the destination is open and both offsets are at most 1 |
| Movement.LeapersIgnoreOtherSquares | gameController.js:526-536 | knight and king verdicts depend on the destination square only |
| Movement.SliderGeometry | gameController.js:505-524 | rook, bishop and queen moves are accepted iff the destination is open, the piece's line holds, and the path is clear |
| Movement.SliderBlocked | gameController.js:557-561 | any occupied square strictly between start and end refuses a sliding move |
| Movement.PathWalkStaysOnLine | gameController.js:550-563 | every square the walk inspects is on the board and on the line, at distance k from the start and Dist-k from the end |
| Movement.PawnGeometry | gameController.js:538-548 | a pawn move is accepted iff it is one diagonal step forward, one straight step onto an empty square, or two straight steps from the home row through two empty squares |
| Movement.ValidMoveDependsOnOccupancy | gameController.js:489-548 | apart from the destination's content, the verdict depends only on which squares are empty |
| CheckDetection.FindFrom | gameController.js:579-587 | a search result holds the king letter and is not before the search origin in row-major order |
| CheckDetection.FindKing | gameController.js:579-587 | a found king square is on the board and holds that colour's king letter |
| CheckDetection.FindKingPositionOnBoard | gameController.js:579-587 | the nested scan returns exactly `FindKing` |
| CheckDetection.IsKingInCheckBoard | gameController.js:565-577 | the scan returns true exactly when the king exists and some enemy piece has a valid board move onto it |
| CheckDetection.IsSquareAttacked | gameController.js:663-675 | the scan returns true exactly when some non-friendly piece has a valid board move onto the square |
| CheckDetection.PieceCanEscape | gameController.js:605-614 | the inner scan finds a destination exactly when some valid move of that piece leaves its king out of check on the scratch board |
| CheckDetection.IsCheckmate | gameController.js:599-619 | the scan returns true exactly when the side is in check and no friendly piece has a move that lifts the check |
| CheckDetection.ScratchMove | gameController.js:608-610 | the checkmate scan's scratch board has the piece's square emptied, the piece on the target square when the two differ, and every other square unchanged; a move onto its own square leaves that square empty |
| CheckDetection.FindFromFirst | gameController.js:579-587 | the search finds nothing iff no square from the origin on holds the letter, and otherwise the first such square |
| CheckDetection.FindKingFirst | gameController.js:579-587 | the king search returns null iff that colour has no king, and otherwise the first king square in row-major order |
| CheckDetection.NoKingNoCheck | gameController.js:566-567 | a side without a king is never in check |
| CheckDetection.ColourTests | gameController.js:589-597 | a piece is an enemy of one side exactly when it is a friend of the other; on a piece letter exactly one test holds, upper case being friendly to Black; `'.'` is neither; each side's king letter is its friend |
| CheckDetection.InCheckWitness | gameController.js:565-577 | in check iff some enemy piece on the board has a valid move onto the king square |
| CheckDetection.InCheckIsKingSquareAttacked | gameController.js:565-577 | on a board of piece letters, being in check is the same as the king's square being attacked in the `isSquareAttacked` sense |
| CheckDetection.FindFromRespectsMatches | gameController.js:579-587 | two boards whose squares agree on holding the searched letter give the same search result |
| CheckDetection.InCheckIgnoresFriendlyReplacement | gameController.js:565-577 | replacing one friendly non-king piece by another friendly non-king piece never changes whether that side is in check |
| Game.Relocate | gameController.js:161-163 | the self-check's simulated move puts the piece on the end square, empties the start square when the two differ, and leaves every other square unchanged; a move onto its own square keeps the piece |
| Game.LiveGateKeepsCaptureOnBoard | gameController.js:405-428 | every move the live validator accepts keeps the en-passant clear of `movePiece` on the board |
| Controller.ChessGame.StartGame | gameController.js:2-39 | the starting position, White to move, no game over (line 4's initial value; `startGame` itself does not reset it and runs once, at line 677), no en-passant target, all castling flags clear |
| Controller.ChessGame.PromotePawn | gameController.js:319-342 | a white pawn on row 0 becomes 'q', a black pawn on row 7 becomes 'Q'; nothing else changes |
| Controller.ChessGame.ValidateCastling | gameController.js:622-661 | the result is exactly `CastlingOk`: king on its home square, flags clear, squares between empty, and the three king squares not attacked |
| Controller.ChessGame.MovePiece | gameController.js:152-317 | the new globals and the outcome are exactly `Step` of the old globals |
| Controller.ChessGame.CommitMove | gameController.js:244-315 | the commit is exactly `Commit`: board, target, flags and turn updated, then the check and mate classification |
| Controller.ChessGame.ApplyMove | gameController.js:244-304 | the globals after the commit and turn switch are exactly `Committed` of the old ones |
| Controller.ChessGame.PlacePiece | gameController.js:244-289 | the board and en-passant target after the commit are exactly `Placed` of the old state |
| Controller.ChessGame.MoveOnBoard | gameController.js:244-266 | the board becomes the relocation followed by the en-passant clear; nothing else changes |
| Controller.ChessGame.SetEnPassantTarget | gameController.js:268-276 | the target becomes the skipped square after a two-row pawn advance and null otherwise; nothing else changes |
| Controller.ChessGame.PromoteIfDue | gameController.js:283-289 | a pawn that reached its far row is promoted; nothing else changes |
| Controller.ChessGame.UpdateRookFlags | gameController.js:291-300 | a rook of the side to move leaving its corner sets that corner's flag; nothing else changes |
| Controller.ChessGame.Announce | gameController.js:306-315 | the outcome is Normal, Check or Mate as the side to move is out of check, in check, or mated; only Mate sets `gameOver` |
| Controller.ChessGame.ValidatePathIsBlocked | gameController.js:440-455 | accepted exactly when the path is clear and the end square holds no friendly piece |
| Controller.ChessGame.ValidateKingMovement | gameController.js:381-393 | a two-column sideways step is accepted exactly when castling is valid; other steps exactly when they are one square and not onto a friendly piece |
| Controller.ChessGame.ValidateMovement | gameController.js:346-362 | the result is exactly `LiveValid` of the current globals |
| Controller.ChessGame.Release | gameController.js:135-141 | a drop on another square that the live validator accepts performs `movePiece`; otherwise nothing changes |
| GameProperties.CarriedStep | gameController.js:152-317 | a move that is carried out was made by the side to move, in an unfinished game, without exposing its own king and without being a castling request; its result is the commit followed by the classification |
| GameProperties.ClassifyEffects | gameController.js:306-315 | the announcement keeps the state except that Mate sets `gameOver`; Normal iff not in check, Mate iff checkmate |
| GameProperties.RefusalKeepsState | gameController.js:153-242 | a refused move changes nothing, except that a castling refusal has set its king flag |
| GameProperties.RefusalReasons | gameController.js:153-242 | each refusal occurs exactly when its test is the first one to fail: game over, empty start, foreign piece, own king exposed, castling request |
| GameProperties.CastlingNeverCompletes | gameController.js:170-239 | a king's two-column move to column 2 or 6 is always refused |
| GameProperties.CommittedMoveEffects | gameController.js:244-315 | after a carried-out move: start emptied; end holds the piece or its promoted queen; the en-passant square cleared; no other square changed; turn passed; target set; `gameOver` iff Mate; Normal iff no check; Mate iff checkmate |
| GameProperties.CommittedBoardEffects | gameController.js:244-289 | the committed board differs from the old one only on the start, end and en-passant squares, as stated above |
| GameProperties.OwnKingSafeAfterCommit | gameController.js:160-167 | unless the move was an en-passant capture, the mover's own king is not in check after the move, promotion included |
| GameProperties.MateEndsGame | gameController.js:153 | after a move ending in Mate, every later `movePiece` is refused at its first test and changes nothing |
| GameProperties.CastlingFlagsNeverClear | gameController.js:152-317 | none of the six castling flags is ever cleared by a move |
| GameProperties.CommittedFlagUpdates | gameController.js:170-300 | after a carried-out move, a king flag is set only by a two-column king step and a rook flag only by its rook leaving its corner |
| GameProperties.OwnsIsFriendly | gameController.js:157-158 | the ownership test of `movePiece` is the friendly-piece test for the side to move; a piece letter belongs to exactly one side |
| GameProperties.EndSquareTests | gameController.js:459-479 | the live end-square tests are the friendly and enemy tests for the side to move; on a piece letter or `'.'` they never both hold, and neither holds exactly on an empty square |
| GameProperties.LivePawnGeometry | gameController.js:405-428 | the live pawn test accepts exactly a straight step of one row forward, or two from the home row, onto a square with no piece of either side, or a diagonal step one row forward onto an enemy piece or the en-passant target with no friendly piece there |
| GameProperties.LiveAgreesWithBoardValidator | gameController.js:346-403 | for the mover's rooks, knights, bishops and queens, the live and board validators agree |
| GameProperties.LiveKingAgreesWithBoardValidator | gameController.js:381-393 | for a king step that is not a castling request, the live and board validators agree |
| GameProperties.LivePawnWithinBoardValidator | gameController.js:405-428 | every pawn move the live validator accepts, other than the two-row advance, the board validator accepts too |
| GameProperties.LivePawnJumpsSkippedSquare | gameController.js:415-427 | the live two-row advance is accepted with a piece on the skipped square, which the board validator refuses |
| GameProperties.BoardPawnDiagonalOntoEmpty | gameController.js:540 | the board validator accepts a pawn's diagonal step onto an empty square, which the live validator refuses without an en-passant target |
| GameProperties.CommittedBoardCells | gameController.js:244-289 | every square of the committed board holds `'.'`, the moving piece, a queen, or what it held before |
| GameProperties.StepBoard | gameController.js:152-315 | a refused move leaves the board as it was; a carried-out move leaves the committed board of the flagged state |
| GameProperties.CommittedKeepsPieceBoard | gameController.js:244-289 | committing a piece letter on a board of piece letters yields a board of piece letters |
| GameProperties.StepKeepsPieceBoard | gameController.js:152-315 | every call of `movePiece` keeps a board of piece letters a board of piece letters |
| GameProperties.InitialPieceBoard | gameController.js:18-30 | the starting position holds only piece letters and `'.'` |
| GameProperties.FindKingUnique | gameController.js:579-587 | a king that stands alone is the one the search finds |
| GameProperties.StartingPosition | gameController.js:18-39 | the starting state has White's king on (7,4), Black's on (0,4), White to move, no game over, no target, king flags clear |
| GameProperties.StartingPositionNoCheck | gameController.js:19-30 | neither side is in check in the starting position |
| Corrected.RookShifted | gameController.js:174-239 | the rook half of castling moves the rook from its corner to the square beside the king's destination and changes no other square |
| Corrected.SettleEffects | gameController.js:160-167 | the self-check on the result refuses exactly when the mover's king is attacked there, keeping the state; otherwise only the announcement follows |
| Corrected.IntendedRefusalKeepsState | gameController.js:169-173 | in the intended step a refused move changes nothing; no king flag is set before the castling test |
| Corrected.IntendedOwnKingSafe | gameController.js:160-167 | every move the intended step carries out, en-passant captures included, leaves the mover's own king unattacked and passes the turn |
| Corrected.IntendedCastlingCompletes | gameController.js:169-242 | a castling request `validateCastling` accepts, whose result leaves the king unattacked, is carried out: king on its destination, rook beside it, both start squares empty, no other square changed, king flag and that rook's flag set, the mover's other rook flag and the opponent's three flags unchanged, turn passed, no en-passant target, `gameOver` iff Mate |
| Corrected.WrittenStepOutsideCastling | gameController.js:152-315 | outside castling requests the written step is the self-check on the relocation followed by the commit |
| Corrected.SelfCheckOnCommittedBoard | gameController.js:160-167 | without an en-passant capture the self-check gives the same verdict on the committed board as on the relocation, promotion included |
| Corrected.IntendedAgreesElsewhere | gameController.js:152-315 | away from castling requests and en-passant captures the intended step and the written step agree |
| Corrected.LoneBlackKingHarmless | gameController.js:663-675 | with a lone black king on (0, 4) and only white kings and rooks below row 1, no square from row 2 down is attacked and White is not in check |
| Corrected.EnPassantBoards | gameController.js:160-266 | in the en-passant position the simulated board leaves White out of check while the committed board puts White in check |
| Corrected.EnPassantExposesOwnKing | gameController.js:160-266 | as written, an en-passant capture the live validator accepts is carried out and leaves the mover's own king in check |
| Corrected.IntendedRefusesEnPassantExposure | gameController.js:160-167 | the intended step refuses that capture as exposing the king and changes nothing |
| Corrected.CastlingBoards | gameController.js:170-188 | the castling position, its relocation and its castled board each hold a lone black king on (0, 4) |
| Corrected.KingsideCastlingRefused | gameController.js:170-175 | as written, a kingside castling that `validateCastling` accepts on the position before the move is refused, with the king flag set |
| Corrected.IntendedKingsideCastling | gameController.js:170-188 | the intended step carries out that castling: king on (7, 6), rook on (7, 5), the king's and rook's start squares empty, both flags set |

## Left out

- Rendering and the page: `loadPosition`, `loadPiece`, `getPieceImageSource`, `updateTurnIndicator` and all DOM updates inside `movePiece` and `promotePawn`. They only draw the board.
- Drag and drop (`setPieceHoldEvents`, lines 92-150): mouse coordinates, the pixel-to-square conversion and the held-piece globals. `Release` starts from the two squares the handler computes.
- The alerts are not modelled as effects. They are the `Outcome` value that `MovePiece` returns.
- Stalemate, threefold repetition and the fifty-move rule: the source does not implement them.
- Controller.ChessGame.MovePiece: requires that the en-passant clear lands on the board. The source indexes a row outside the array there and throws. `Game.LiveGateKeepsCaptureOnBoard` shows that every move reaching it through the live validator meets this requirement.
- Controller.ChessGame.ValidateMovement: reads the board where the source reads the page. This assumes the page mirrors `curBoard`.
- ChessBoard.ToUpper: case folding covers ASCII letters only. The board only ever holds ASCII piece letters and `'.'`.
- The rook relocation of castling (lines 175-188, 191-204, 210-223, 226-239) is not part of `Game.Step` or of the class, because as written it can never run (`GameProperties.CastlingNeverCompletes`). `Corrected.RookShifted` models it for the intended step only.
- Corrected.IntendedStep: places the castling test before the self-check, and runs the self-check on the whole board the move produces. The source gives no order for the intended code; this order refuses without setting any flag.
- Corrected.IntendedCastlingCompletes: requires that the castled board leaves the king unattacked rather than deriving it from `validateCastling`, because the rook's move could in principle change which squares are attacked.

## Findings

| source | as written | input that shows it | evidently intended | confidence | as-written member | corrected member |
|---|---|---|---|---|---|---|
| gameController.js:170-175 | the king flag is set (lines 172, 207) before `validateCastling` tests it (lines 625, 643), so every castling request is refused and its rook relocation never runs | `Corrected.CastlingPosition`: white king on (7,4), white rook on (7,7), a lone black king on (0,4); White drags the king to (7,6) | test castling on the position before the move, then set the flags and move king and rook | not executed; high | Corrected.KingsideCastlingRefused | Corrected.IntendedCastlingCompletes |
| gameController.js:160-167 | the self-check simulates only the relocation; the en-passant clear of lines 256-265 happens after it, so removing the captured pawn may expose the mover's own king | `Corrected.EnPassantPosition`: white king (3,0), white pawn (3,3), black pawn (3,4), black rook (3,7), black king (0,0), target (2,4); White plays (3,3) to (2,4) | judge the self-check on the board the move actually produces | not executed; high | Corrected.EnPassantExposesOwnKing | Corrected.IntendedOwnKingSafe |

Each as-written member is shown on its position beside a general lemma about
`Game.Step` (`GameProperties.CastlingNeverCompletes`,
`GameProperties.OwnKingSafeAfterCommit`). Each corrected member is proved for
every input of `Corrected.IntendedStep`, and `Corrected.IntendedKingsideCastling`
and `Corrected.IntendedRefusesEnPassantExposure` show it on the same positions.
`Corrected.IntendedAgreesElsewhere` proves that the two steps agree on every
other move.
