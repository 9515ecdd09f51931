/** The game state around the board (gameController.js:2-13) and the state
    transition of `movePiece`/`promotePawn` (gameController.js:152-342), with the
    castling test `validateCastling` (gameController.js:622-661) and the live
    validator `validateMovement` (gameController.js:346-479) that gates moves. */
module Game {
  import opened ChessBoard
  import opened Movement
  import opened CheckDetection

  /** The source's globals: board, side to move, game-over flag, en-passant
      target and the six castling flags. */
  datatype GameState = GameState(
    board: Grid,
    curPlayer: Color,
    gameOver: bool,
    enPassantTarget: Option<Square>,
    whiteKingMoved: bool,
    blackKingMoved: bool,
    whiteKingsideRookMoved: bool,
    whiteQueensideRookMoved: bool,
    blackKingsideRookMoved: bool,
    blackQueensideRookMoved: bool)

  /** Why `movePiece` returned without committing. Only `ExposesOwnKing` raises an
      alert in the source; the others return silently. */
  datatype Refusal = GameIsOver | EmptyStart | NotOwnPiece | ExposesOwnKing | CastlingRefused

  /** What `movePiece` reports; `Check` and `Mate` are the two alerts after a move. */
  datatype Outcome = Refused(why: Refusal) | Normal | Check | Mate

  /** The state `startGame` sets up (gameController.js:18-39, with line 4's `gameOver`). */
  const InitialState: GameState :=
    GameState(StarterPosition, White, false, None, false, false, false, false, false, false)

  predicate WellFormed(st: GameState) {
    IsGrid(st.board)
  }

  function BackRow(c: Color): int {
    if c == White then 7 else 0
  }

  function KingMoved(st: GameState, c: Color): bool {
    if c == White then st.whiteKingMoved else st.blackKingMoved
  }

  function KingsideRookMoved(st: GameState, c: Color): bool {
    if c == White then st.whiteKingsideRookMoved else st.blackKingsideRookMoved
  }

  function QueensideRookMoved(st: GameState, c: Color): bool {
    if c == White then st.whiteQueensideRookMoved else st.blackQueensideRookMoved
  }

  /** The ownership test of `movePiece` (gameController.js:157-158). */
  predicate Owns(c: Color, p: char) {
    p != Empty && ((IsUpperCase(p) && c == Black) || (IsLowerCase(p) && c == White))
  }

  predicate IsKing(p: char) { ToLower(p) == 'k' }
  predicate IsPawn(p: char) { ToLower(p) == 'p' }
  predicate IsRook(p: char) { ToLower(p) == 'r' }

  // ----- Castling -----

  /** `validateCastling(startPos, endPos)` for the side to move: the king on its
      home square, its flag and the rook's flag clear, the squares between king
      and rook empty, and the king's start, transit and destination squares not
      attacked. Only the destination's column is looked at. */
  ghost predicate CastlingOk(st: GameState, s: Square, e: Square)
    requires WellFormed(st)
  {
    var b, c := st.board, st.curPlayer;
    var r := BackRow(c);
    s == Square(r, 4) && !KingMoved(st, c)
    && if e.col == 6 then
         !KingsideRookMoved(st, c)
         && At(b, Square(r, 5)) == Empty && At(b, Square(r, 6)) == Empty
         && !SquareAttacked(b, Square(r, 4), c)
         && !SquareAttacked(b, Square(r, 5), c)
         && !SquareAttacked(b, Square(r, 6), c)
       else if e.col == 2 then
         !QueensideRookMoved(st, c)
         && At(b, Square(r, 1)) == Empty && At(b, Square(r, 2)) == Empty
         && At(b, Square(r, 3)) == Empty
         && !SquareAttacked(b, Square(r, 4), c)
         && !SquareAttacked(b, Square(r, 3), c)
         && !SquareAttacked(b, Square(r, 2), c)
       else false
  }

  function SetKingMoved(st: GameState): GameState {
    if st.curPlayer == White then st.(whiteKingMoved := true) else st.(blackKingMoved := true)
  }

  // ----- The move itself -----

  /** The plain relocation: start emptied, then the piece written on the end square.
      Written in this order, a move onto its own start square keeps the piece. */
  function Relocate(b: Grid, s: Square, e: Square, piece: char): (r: Grid)
    requires IsGrid(b) && OnBoard(s) && OnBoard(e)
    ensures IsGrid(r)
    ensures At(r, e) == piece
    ensures s != e ==> At(r, s) == Empty
    ensures forall q :: OnBoard(q) && q != s && q != e ==> At(r, q) == At(b, q)
  {
    Put(Put(b, s, Empty), e, piece)
  }

  /** The square `movePiece` clears after a pawn's sideways step onto an empty
      square: one row back from the end square, seen from the mover. */
  function CapturedSquare(c: Color, e: Square): Square {
    Square(if c == White then e.row + 1 else e.row - 1, e.col)
  }

  /** The source indexes the board at `CapturedSquare` without a bound check; the
      live validator guarantees it is on the board (`LiveGateKeepsCaptureOnBoard`). */
  predicate CaptureSquareOnBoard(st: GameState, s: Square, e: Square)
    requires WellFormed(st) && OnBoard(s) && OnBoard(e)
  {
    var p := At(st.board, s);
    (!st.gameOver && Owns(st.curPlayer, p) && IsPawn(p) && s.col != e.col
     && At(st.board, e) == Empty)
    ==> OnBoard(CapturedSquare(st.curPlayer, e))
  }

  /** `promotePawn(endPos, pawn)`: a white pawn on row 0 becomes 'q', a black
      pawn on row 7 becomes 'Q'; anything else is left alone. */
  function Promote(b: Grid, e: Square, pawn: char): (r: Grid)
    requires IsGrid(b) && OnBoard(e)
    ensures IsGrid(r)
  {
    if pawn == 'p' && e.row == 0 then Put(b, e, 'q')
    else if pawn == 'P' && e.row == 7 then Put(b, e, 'Q')
    else b
  }

  predicate PromotionSquare(p: char, e: Square) {
    (p == 'p' && e.row == 0) || (p == 'P' && e.row == 7)
  }

  /** The rook-moved flags after a rook of the side to move leaves `s`
      (gameController.js:292-300). */
  function RookFlags(st: GameState, s: Square, p: char): GameState {
    if !IsRook(p) then st
    else if st.curPlayer == White then
      st.(whiteKingsideRookMoved := st.whiteKingsideRookMoved || s == Square(7, 7),
          whiteQueensideRookMoved := st.whiteQueensideRookMoved || s == Square(7, 0))
    else
      st.(blackKingsideRookMoved := st.blackKingsideRookMoved || s == Square(0, 7),
          blackQueensideRookMoved := st.blackQueensideRookMoved || s == Square(0, 0))
  }

  /** The two-row pawn advance and the square it skipped. */
  function NextTarget(c: Color, s: Square, e: Square, p: char): Option<Square> {
    if IsPawn(p) && Abs(e.row - s.row) == 2 then
      Some(Square(if c == White then s.row - 1 else s.row + 1, s.col))
    else None
  }

  predicate IsSideStepOntoEmpty(b: Grid, s: Square, e: Square, p: char)
    requires IsGrid(b) && OnBoard(e)
  {
    IsPawn(p) && s.col != e.col && At(b, e) == Empty
  }

  /** The relocation and the en-passant clear of gameController.js:244-266. */
  function MovedBoard(b: Grid, c: Color, s: Square, e: Square, p: char): (r: Grid)
    requires IsGrid(b) && OnBoard(s) && OnBoard(e)
    requires IsSideStepOntoEmpty(b, s, e, p) ==> OnBoard(CapturedSquare(c, e))
    ensures IsGrid(r)
  {
    var b1 := Relocate(b, s, e, p);
    if IsSideStepOntoEmpty(b, s, e, p) then Put(b1, CapturedSquare(c, e), Empty) else b1
  }

  /** The board after the commit of gameController.js:244-289. */
  function CommittedBoard(st: GameState, s: Square, e: Square, p: char): (r: Grid)
    requires WellFormed(st) && OnBoard(s) && OnBoard(e)
    requires IsSideStepOntoEmpty(st.board, s, e, p) ==> OnBoard(CapturedSquare(st.curPlayer, e))
    ensures IsGrid(r)
  {
    var b2 := MovedBoard(st.board, st.curPlayer, s, e, p);
    if IsPawn(p) && PromotionSquare(p, e) then Promote(b2, e, p) else b2
  }

  /** The board and the en-passant target after the commit (gameController.js:244-289). */
  function Placed(st: GameState, s: Square, e: Square): (r: GameState)
    requires WellFormed(st) && OnBoard(s) && OnBoard(e)
    requires IsSideStepOntoEmpty(st.board, s, e, At(st.board, s))
             ==> OnBoard(CapturedSquare(st.curPlayer, e))
    ensures WellFormed(r)
  {
    var p := At(st.board, s);
    st.(board := CommittedBoard(st, s, e, p), enPassantTarget := NextTarget(st.curPlayer, s, e, p))
  }

  /** The state after the commit and the turn switch (gameController.js:244-304). */
  function Committed(st: GameState, s: Square, e: Square): (r: GameState)
    requires WellFormed(st) && OnBoard(s) && OnBoard(e)
    requires IsSideStepOntoEmpty(st.board, s, e, At(st.board, s))
             ==> OnBoard(CapturedSquare(st.curPlayer, e))
    ensures WellFormed(r)
  {
    RookFlags(Placed(st, s, e), s, At(st.board, s)).(curPlayer := Opponent(st.curPlayer))
  }

  /** The announcement after the turn switch (gameController.js:306-315): no
      check, check, or checkmate of the side now to move, which ends the game. */
  ghost function Classify(st: GameState): (GameState, Outcome)
    requires WellFormed(st)
  {
    if !InCheck(st.board, st.curPlayer) then (st, Normal)
    else if Checkmate(st.board, st.curPlayer) then (st.(gameOver := true), Mate)
    else (st, Check)
  }

  /** Commit, switch turn and classify (gameController.js:244-315). */
  ghost function Commit(st: GameState, s: Square, e: Square): (GameState, Outcome)
    requires WellFormed(st) && OnBoard(s) && OnBoard(e)
    requires IsSideStepOntoEmpty(st.board, s, e, At(st.board, s))
             ==> OnBoard(CapturedSquare(st.curPlayer, e))
  {
    Classify(Committed(st, s, e))
  }

  /** `movePiece(piece, startPos, endPos)` on the state `st`. */
  ghost function Step(st: GameState, s: Square, e: Square): (GameState, Outcome)
    requires WellFormed(st) && OnBoard(s) && OnBoard(e) && CaptureSquareOnBoard(st, s, e)
  {
    var b, me := st.board, st.curPlayer;
    var p := At(b, s);
    if st.gameOver then (st, Refused(GameIsOver))
    else if p == Empty then (st, Refused(EmptyStart))
    else if !Owns(me, p) then (st, Refused(NotOwnPiece))
    else if InCheck(Relocate(b, s, e, p), me) then (st, Refused(ExposesOwnKing))
    else if IsKing(p) && Abs(e.col - s.col) == 2 then
      var st1 := SetKingMoved(st);
      if e.col == 6 || e.col == 2 then
        // The flag was just set, so `validateCastling` fails on its flag test:
        // the rook relocation of gameController.js:175-188 and its three
        // siblings is never reached.
        assert !CastlingOk(st1, s, e); (st1, Refused(CastlingRefused))
      else Commit(st1, s, e)
    else Commit(st, s, e)
  }

  // ----- The live validator, with the board standing in for the page -----

  /** `isFriendlyPieceOnEndingPosition`: the end square holds a piece of the side to move. */
  predicate FriendlyAtEnd(st: GameState, e: Square)
    requires WellFormed(st) && OnBoard(e)
  {
    var d := At(st.board, e);
    d != Empty && ((IsUpperCase(d) && st.curPlayer == Black) || (IsLowerCase(d) && st.curPlayer == White))
  }

  /** `isEnemyPieceOnEndingPosition`: the end square holds a piece of the other side. */
  predicate EnemyAtEnd(st: GameState, e: Square)
    requires WellFormed(st) && OnBoard(e)
  {
    var d := At(st.board, e);
    d != Empty && ((IsUpperCase(d) && st.curPlayer == White) || (IsLowerCase(d) && st.curPlayer == Black))
  }

  /** `validatePathIsBlocked`: clear path and no friendly piece on the end square. */
  predicate LivePathOk(st: GameState, s: Square, e: Square)
    requires WellFormed(st) && OnBoard(s) && OnBoard(e) && Aligned(s, e)
  {
    PathClear(st.board, s, e) && !FriendlyAtEnd(st, e)
  }

  predicate OnDiagonal(s: Square, e: Square) {
    e.row - e.col == s.row - s.col || e.row + e.col == s.row + s.col
  }

  /** `validatePawnMovement(pawnColor, startPos, endPos)`. The two-row advance does
      not look at the skipped square. */
  predicate LivePawnOk(st: GameState, pawnColor: Color, s: Square, e: Square)
    requires WellFormed(st) && OnBoard(s) && OnBoard(e)
  {
    var dir := if pawnColor == Black then 1 else -1;
    var isCapture := e.row == s.row + dir && (e.col == s.col - 1 || e.col == s.col + 1)
                     && (EnemyAtEnd(st, e) || st.enPassantTarget == Some(e));
    var isFirstMove := (pawnColor == White && s.row == 6) || (pawnColor == Black && s.row == 1);
    if ((e.row == s.row + dir || (e.row == s.row + 2 * dir && isFirstMove)) && e.col == s.col)
       || isCapture
    then !FriendlyAtEnd(st, e) && (isCapture || !EnemyAtEnd(st, e))
    else false
  }

  /** `validateKingMovement`: a two-column sideways step is a castling request. */
  ghost predicate LiveKingOk(st: GameState, s: Square, e: Square)
    requires WellFormed(st) && OnBoard(s) && OnBoard(e)
  {
    var dx, dy := e.row - s.row, e.col - s.col;
    if Abs(dy) == 2 && dx == 0 then CastlingOk(st, s, e)
    else if -1 <= dx <= 1 && -1 <= dy <= 1 then !FriendlyAtEnd(st, e)
    else false
  }

  /** `validateMovement(startPos, endPos)`, dispatching on the letter on the start square. */
  ghost predicate LiveValid(st: GameState, s: Square, e: Square)
    requires WellFormed(st) && OnBoard(s) && OnBoard(e)
  {
    match At(st.board, s)
    case 'r' => (e.row == s.row || e.col == s.col) && LivePathOk(st, s, e)
    case 'R' => (e.row == s.row || e.col == s.col) && LivePathOk(st, s, e)
    case 'n' => KnightMove(s, e) && !FriendlyAtEnd(st, e)
    case 'N' => KnightMove(s, e) && !FriendlyAtEnd(st, e)
    case 'b' => OnDiagonal(s, e) && LivePathOk(st, s, e)
    case 'B' => OnDiagonal(s, e) && LivePathOk(st, s, e)
    case 'q' => (OnDiagonal(s, e) || e.row == s.row || e.col == s.col) && LivePathOk(st, s, e)
    case 'Q' => (OnDiagonal(s, e) || e.row == s.row || e.col == s.col) && LivePathOk(st, s, e)
    case 'k' => LiveKingOk(st, s, e)
    case 'K' => LiveKingOk(st, s, e)
    case 'p' => LivePawnOk(st, White, s, e)
    case 'P' => LivePawnOk(st, Black, s, e)
    case _ => false
  }

  /** The square cleared after an en-passant capture stays on the board for every
      move the live validator lets through: such a move is a pawn's diagonal one
      row forward, and the cleared square is on the start row. */
  lemma LiveGateKeepsCaptureOnBoard(st: GameState, s: Square, e: Square)
    requires WellFormed(st) && OnBoard(s) && OnBoard(e) && LiveValid(st, s, e)
    ensures CaptureSquareOnBoard(st, s, e)
  {
  }

  /** The mouse-release handler (gameController.js:135-141): a drop on a different
      square that the live validator accepts is passed to `movePiece`; anything
      else leaves the state alone. */
  ghost function Released(st: GameState, s: Square, e: Square): (GameState, Option<Outcome>)
    requires WellFormed(st) && OnBoard(s) && OnBoard(e)
  {
    if s != e && LiveValid(st, s, e) then
      LiveGateKeepsCaptureOnBoard(st, s, e);
      var (st2, o) := Step(st, s, e);
      (st2, Some(o))
    else (st, None)
  }
}
