/** What one call of `movePiece` does to the game state (gameController.js:152-342),
    stated over `Step`, and how the live validator relates to the board validator. */
module GameProperties {
  import opened ChessBoard
  import opened Movement
  import opened CheckDetection
  import opened Game

  /** The preconditions of `Step`, gathered in one place. */
  predicate Steppable(st: GameState, s: Square, e: Square) {
    WellFormed(st) && OnBoard(s) && OnBoard(e) && CaptureSquareOnBoard(st, s, e)
  }

  /** The move was carried out: `movePiece` got past all of its early returns. */
  ghost predicate Carried(st: GameState, s: Square, e: Square)
    requires Steppable(st, s, e)
  {
    !Step(st, s, e).1.Refused?
  }

  /** The state the commit starts from: a two-column king move has set its flag. */
  function WithKingFlag(st: GameState, s: Square, e: Square): (r: GameState)
    requires WellFormed(st) && OnBoard(s)
    ensures WellFormed(r) && r.board == st.board && r.curPlayer == st.curPlayer
    ensures r.gameOver == st.gameOver && r.enPassantTarget == st.enPassantTarget
  {
    if IsKing(At(st.board, s)) && Abs(e.col - s.col) == 2 then SetKingMoved(st) else st
  }

  /** A carried-out move passed every early return of `movePiece`, and its result
      is the announcement after the commit from `WithKingFlag`. */
  lemma CarriedStep(st: GameState, s: Square, e: Square)
    requires Steppable(st, s, e) && Carried(st, s, e)
    ensures var p := At(st.board, s);
      && !st.gameOver && Owns(st.curPlayer, p)
      && !InCheck(Relocate(st.board, s, e, p), st.curPlayer)
      && !(IsKing(p) && Abs(e.col - s.col) == 2 && (e.col == 2 || e.col == 6))
      && WellFormed(WithKingFlag(st, s, e)) && WithKingFlag(st, s, e).board == st.board
      && WithKingFlag(st, s, e).curPlayer == st.curPlayer
      && Step(st, s, e) == Classify(Game.Committed(WithKingFlag(st, s, e), s, e))
  {
    var p := At(st.board, s);
    if IsKing(p) && Abs(e.col - s.col) == 2 && (e.col == 2 || e.col == 6) {
      CastlingNeverCompletes(st, s, e);
    }
  }

  /** The announcement keeps the state, except that checkmate ends the game. */
  lemma ClassifyEffects(st: GameState)
    requires WellFormed(st)
    ensures var (st2, o) := Classify(st);
      && st2 == st.(gameOver := st.gameOver || o == Mate)
      && !o.Refused?
      && (o == Normal <==> !InCheck(st.board, st.curPlayer))
      && (o == Mate <==> Checkmate(st.board, st.curPlayer))
  {
  }

  // ----- Refusals -----

  /** A refused move leaves everything as it was, except that a castling request
      has already set its side's king flag (gameController.js:170-173). */
  lemma RefusalKeepsState(st: GameState, s: Square, e: Square)
    requires Steppable(st, s, e)
    ensures var (st2, o) := Step(st, s, e);
      o.Refused? ==> st2 == if o.why == CastlingRefused then SetKingMoved(st) else st
  {
  }

  /** The refusals follow the source's order of tests: a finished game, an empty
      start square, a piece of the other side, a move that leaves the mover's own
      king attacked, and a castling request. */
  lemma RefusalReasons(st: GameState, s: Square, e: Square)
    requires Steppable(st, s, e)
    ensures var o, p := Step(st, s, e).1, At(st.board, s);
      && (o == Refused(GameIsOver) <==> st.gameOver)
      && (o == Refused(EmptyStart) <==> !st.gameOver && p == Empty)
      && (o == Refused(NotOwnPiece) <==> !st.gameOver && p != Empty && !Owns(st.curPlayer, p))
      && (o == Refused(ExposesOwnKing) <==>
            !st.gameOver && Owns(st.curPlayer, p)
            && InCheck(Relocate(st.board, s, e, p), st.curPlayer))
      && (o == Refused(CastlingRefused) <==>
            !st.gameOver && Owns(st.curPlayer, p)
            && !InCheck(Relocate(st.board, s, e, p), st.curPlayer)
            && IsKing(p) && Abs(e.col - s.col) == 2 && (e.col == 2 || e.col == 6))
  {
    var p := At(st.board, s);
    if !st.gameOver && Owns(st.curPlayer, p) && !InCheck(Relocate(st.board, s, e, p), st.curPlayer)
       && IsKing(p) && Abs(e.col - s.col) == 2 && (e.col == 2 || e.col == 6) {
      CastlingNeverCompletes(st, s, e);
    }
  }

  /** Castling is never carried out: `movePiece` sets the king flag before
      `validateCastling` reads it, and that test then fails. */
  lemma CastlingNeverCompletes(st: GameState, s: Square, e: Square)
    requires Steppable(st, s, e)
    requires IsKing(At(st.board, s)) && Abs(e.col - s.col) == 2 && (e.col == 2 || e.col == 6)
    ensures Step(st, s, e).1.Refused?
  {
    var st1 := SetKingMoved(st);
    assert KingMoved(st1, st.curPlayer);
    assert !CastlingOk(st1, s, e);
  }

  // ----- A committed move -----

  /** What a committed move does: the mover owned the piece; the start square is
      emptied; the end square receives the piece, promoted to a queen of its side
      on the far row; a pawn's sideways step onto an empty square clears the square
      behind it; no other square changes; the other side is to move; the en-passant
      target is the square a two-row pawn advance skipped; and the outcome says
      whether the side now to move is in check or mated, the latter ending the game. */
  lemma CommittedMoveEffects(st: GameState, s: Square, e: Square)
    requires Steppable(st, s, e) && s != e && Carried(st, s, e)
    ensures var (st2, o) := Step(st, s, e);
      var p := At(st.board, s);
      var side := IsSideStepOntoEmpty(st.board, s, e, p);
      && WellFormed(st2)
      && !st.gameOver && Owns(st.curPlayer, p)
      && At(st2.board, s) == Empty
      && At(st2.board, e) == (if PromotionSquare(p, e) then (if p == 'p' then 'q' else 'Q') else p)
      && (side ==> OnBoard(CapturedSquare(st.curPlayer, e))
                   && At(st2.board, CapturedSquare(st.curPlayer, e)) == Empty)
      && (forall q :: OnBoard(q) && q != s && q != e && (side ==> q != CapturedSquare(st.curPlayer, e))
            ==> At(st2.board, q) == At(st.board, q))
      && st2.curPlayer == Opponent(st.curPlayer)
      && st2.enPassantTarget == NextTarget(st.curPlayer, s, e, p)
      && (st2.gameOver <==> o == Mate)
      && (o == Normal <==> !InCheck(st2.board, st2.curPlayer))
      && (o == Mate <==> Checkmate(st2.board, st2.curPlayer))
  {
    CarriedStep(st, s, e);
    var stc := WithKingFlag(st, s, e);
    ClassifyEffects(Game.Committed(stc, s, e));
    CommittedBoardEffects(stc, s, e, At(st.board, s));
  }

  /** The board part of `CommittedMoveEffects`. */
  lemma CommittedBoardEffects(st: GameState, s: Square, e: Square, p: char)
    requires WellFormed(st) && OnBoard(s) && OnBoard(e) && s != e
    requires p == At(st.board, s)
    requires IsSideStepOntoEmpty(st.board, s, e, p) ==> OnBoard(CapturedSquare(st.curPlayer, e))
    ensures var b2 := CommittedBoard(st, s, e, p);
      var side := IsSideStepOntoEmpty(st.board, s, e, p);
      && At(b2, s) == Empty
      && At(b2, e) == (if PromotionSquare(p, e) then (if p == 'p' then 'q' else 'Q') else p)
      && (side ==> At(b2, CapturedSquare(st.curPlayer, e)) == Empty)
      && (forall q :: OnBoard(q) && q != s && q != e && (side ==> q != CapturedSquare(st.curPlayer, e))
            ==> At(b2, q) == At(st.board, q))
  {
    var b1 := Relocate(st.board, s, e, p);
    var side := IsSideStepOntoEmpty(st.board, s, e, p);
    if side {
      var c := CapturedSquare(st.curPlayer, e);
      assert c != s && c != e;
    }
  }

  /** The self-check guard holds after the move, except after an en-passant
      capture: the simulation of gameController.js:161-167 does not remove the
      captured pawn, so the cleared square is not taken into account. Promotion
      replaces the pawn by a queen of the same side, which the check scan cannot
      tell apart. */
  lemma OwnKingSafeAfterCommit(st: GameState, s: Square, e: Square)
    requires Steppable(st, s, e) && Carried(st, s, e)
    requires !IsSideStepOntoEmpty(st.board, s, e, At(st.board, s))
    ensures WellFormed(Step(st, s, e).0) && !InCheck(Step(st, s, e).0.board, st.curPlayer)
  {
    var p := At(st.board, s);
    var me := st.curPlayer;
    CarriedStep(st, s, e);
    var stc := WithKingFlag(st, s, e);
    ClassifyEffects(Game.Committed(stc, s, e));
    var r := Relocate(st.board, s, e, p);
    assert MovedBoard(stc.board, me, s, e, p) == r;
    if IsPawn(p) && PromotionSquare(p, e) {
      var queen := if p == 'p' then 'q' else 'Q';
      assert Promote(r, e, p) == Put(r, e, queen);
      InCheckIgnoresFriendlyReplacement(r, e, queen, me);
    }
  }

  /** Once a move ends in checkmate the game is over: every later `movePiece`
      returns at its first test and changes nothing. */
  lemma MateEndsGame(st: GameState, s: Square, e: Square, s2: Square, e2: Square)
    requires Steppable(st, s, e) && Step(st, s, e).1 == Mate
    requires OnBoard(s2) && OnBoard(e2)
    ensures var st2 := Step(st, s, e).0;
      && st2.gameOver
      && Steppable(st2, s2, e2)
      && Step(st2, s2, e2) == (st2, Refused(GameIsOver))
  {
    CarriedStep(st, s, e);
    ClassifyEffects(Game.Committed(WithKingFlag(st, s, e), s, e));
  }

  // ----- The castling flags -----

  /** The six castling flags are only ever set, never cleared. */
  lemma CastlingFlagsNeverClear(st: GameState, s: Square, e: Square)
    requires Steppable(st, s, e)
    ensures var st2 := Step(st, s, e).0;
      && (st.whiteKingMoved ==> st2.whiteKingMoved)
      && (st.blackKingMoved ==> st2.blackKingMoved)
      && (st.whiteKingsideRookMoved ==> st2.whiteKingsideRookMoved)
      && (st.whiteQueensideRookMoved ==> st2.whiteQueensideRookMoved)
      && (st.blackKingsideRookMoved ==> st2.blackKingsideRookMoved)
      && (st.blackQueensideRookMoved ==> st2.blackQueensideRookMoved)
  {
    RefusalKeepsState(st, s, e);
    if Carried(st, s, e) {
      CommittedFlagUpdates(st, s, e);
    }
  }

  /** How a committed move changes the flags. A king flag is set only by a
      two-column king move (gameController.js:170-173); an ordinary king move
      leaves it clear. A rook flag is set when that side's rook leaves its corner
      (gameController.js:292-300). */
  lemma CommittedFlagUpdates(st: GameState, s: Square, e: Square)
    requires Steppable(st, s, e) && Carried(st, s, e)
    ensures var st2, p, me := Step(st, s, e).0, At(st.board, s), st.curPlayer;
      var castle := IsKing(p) && Abs(e.col - s.col) == 2;
      var rook := IsRook(p);
      && st2.whiteKingMoved == (st.whiteKingMoved || (castle && me == White))
      && st2.blackKingMoved == (st.blackKingMoved || (castle && me == Black))
      && st2.whiteKingsideRookMoved == (st.whiteKingsideRookMoved || (rook && me == White && s == Square(7, 7)))
      && st2.whiteQueensideRookMoved == (st.whiteQueensideRookMoved || (rook && me == White && s == Square(7, 0)))
      && st2.blackKingsideRookMoved == (st.blackKingsideRookMoved || (rook && me == Black && s == Square(0, 7)))
      && st2.blackQueensideRookMoved == (st.blackQueensideRookMoved || (rook && me == Black && s == Square(0, 0)))
  {
    CarriedStep(st, s, e);
    ClassifyEffects(Game.Committed(WithKingFlag(st, s, e), s, e));
  }

  // ----- The colour tests -----

  /** The ownership test of `movePiece` is the friendly-piece test of the check
      scan, read for the side to move. */
  lemma OwnsIsFriendly(c: Color, p: char)
    ensures Owns(c, p) == IsFriendlyPiece(p, c)
    ensures IsPieceChar(p) ==> (Owns(c, p) <==> !Owns(Opponent(c), p))
  {
    ColourTests(p, c);
  }

  /** The live end-square tests are the board tests for the side to move: a piece
      letter on the end square is either friendly or an enemy, never both, and the
      square is empty exactly when neither test holds. */
  lemma EndSquareTests(st: GameState, e: Square)
    requires WellFormed(st) && OnBoard(e)
    ensures var d := At(st.board, e);
      && FriendlyAtEnd(st, e) == IsFriendlyPiece(d, st.curPlayer)
      && EnemyAtEnd(st, e) == IsEnemyPiece(d, st.curPlayer)
      && (d == Empty || IsPieceChar(d) ==>
            && !(FriendlyAtEnd(st, e) && EnemyAtEnd(st, e))
            && (d == Empty <==> !FriendlyAtEnd(st, e) && !EnemyAtEnd(st, e)))
  {
    ColourTests(At(st.board, e), st.curPlayer);
  }

  /** `validatePawnMovement` in the terms of the board: a straight step of one row
      forward, or of two rows from the home row (6 for White, 1 for Black), onto a
      square with neither a friendly nor an enemy piece; or a diagonal step of one
      row forward onto an enemy piece or onto the en-passant target, provided no
      friendly piece stands there. */
  lemma LivePawnGeometry(st: GameState, pawnColor: Color, s: Square, e: Square)
    requires WellFormed(st) && OnBoard(s) && OnBoard(e)
    ensures var dir := if pawnColor == Black then 1 else -1;
      var home := if pawnColor == Black then 1 else 6;
      LivePawnOk(st, pawnColor, s, e) <==>
        || (e.col == s.col && (e.row == s.row + dir || (e.row == s.row + 2 * dir && s.row == home))
            && !FriendlyAtEnd(st, e) && !EnemyAtEnd(st, e))
        || (e.row == s.row + dir && Abs(e.col - s.col) == 1 && !FriendlyAtEnd(st, e)
            && (EnemyAtEnd(st, e) || st.enPassantTarget == Some(e)))
  {
  }

  // ----- The live validator against the board validator -----

  /** For rooks, knights, bishops and queens of the side to move, the live validator
      `validateMovement` and the board validator `validateMovementOnBoard` agree. */
  lemma LiveAgreesWithBoardValidator(st: GameState, s: Square, e: Square)
    requires WellFormed(st) && OnBoard(s) && OnBoard(e)
    requires At(st.board, s) in "rRnNbBqQ" && Owns(st.curPlayer, At(st.board, s))
    ensures LiveValid(st, s, e) == ValidMove(st.board, s, e, At(st.board, s))
  {
    var p, d := At(st.board, s), At(st.board, e);
    assert FriendlyAtEnd(st, e) == (d != Empty && IsSameColor(p, d));
    assert OnDiagonal(s, e) == (Abs(s.row - e.row) == Abs(s.col - e.col));
  }

  /** The same holds for a king step that is not a castling request. */
  lemma LiveKingAgreesWithBoardValidator(st: GameState, s: Square, e: Square)
    requires WellFormed(st) && OnBoard(s) && OnBoard(e)
    requires At(st.board, s) in "kK" && Owns(st.curPlayer, At(st.board, s))
    requires !(Abs(e.col - s.col) == 2 && e.row == s.row)
    ensures LiveValid(st, s, e) == ValidMove(st.board, s, e, At(st.board, s))
  {
    var p, d := At(st.board, s), At(st.board, e);
    assert FriendlyAtEnd(st, e) == (d != Empty && IsSameColor(p, d));
  }

  /** Every pawn move of the side to move that the live validator accepts, other
      than the two-row advance, is also accepted by the board validator. */
  lemma LivePawnWithinBoardValidator(st: GameState, s: Square, e: Square)
    requires WellFormed(st) && OnBoard(s) && OnBoard(e)
    requires At(st.board, s) in "pP" && Owns(st.curPlayer, At(st.board, s))
    requires e.row != s.row + 2 * PawnDirection(At(st.board, s))
    requires LiveValid(st, s, e)
    ensures ValidMove(st.board, s, e, At(st.board, s))
  {
    var p, d := At(st.board, s), At(st.board, e);
    assert FriendlyAtEnd(st, e) == (d != Empty && IsSameColor(p, d));
  }

  /** The live two-row pawn advance does not look at the skipped square: it is
      accepted with a piece standing there, which the board validator refuses. */
  lemma LivePawnJumpsSkippedSquare(st: GameState, s: Square, e: Square)
    requires WellFormed(st) && OnBoard(s) && OnBoard(e)
    requires At(st.board, s) in "pP" && Owns(st.curPlayer, At(st.board, s))
    requires var dir := PawnDirection(At(st.board, s));
      && s.row == (if dir == 1 then 1 else 6)
      && e == Square(s.row + 2 * dir, s.col)
      && At(st.board, e) == Empty
      && At(st.board, Square(s.row + dir, s.col)) != Empty
    ensures LiveValid(st, s, e)
    ensures !ValidMove(st.board, s, e, At(st.board, s))
  {
  }

  /** The board validator lets a pawn step diagonally onto an empty square, which
      the live validator refuses when no en-passant target is set; the checkmate
      scan therefore counts such a step as a way out of check. */
  lemma BoardPawnDiagonalOntoEmpty(b: Grid, s: Square, e: Square, p: char)
    requires IsGrid(b) && OnBoard(s) && OnBoard(e) && p in "pP" && At(b, s) == p
    requires e.row == s.row + PawnDirection(p) && Abs(e.col - s.col) == 1
    requires At(b, e) == Empty
    ensures ValidMove(b, s, e, p)
    ensures !LiveValid(GameState(b, if p == 'p' then White else Black, false, None,
                                 false, false, false, false, false, false), s, e)
  {
  }

  // ----- Boards hold piece letters -----

  /** Every square holds `'.'` or one of the twelve piece letters. */
  ghost predicate PieceBoard(b: Grid)
    requires IsGrid(b)
  {
    forall q :: OnBoard(q) ==> At(b, q) == Empty || IsPieceChar(At(b, q))
  }

  /** The commit writes only the moving piece, its queen, or `'.'`. */
  lemma CommittedBoardCells(st: GameState, s: Square, e: Square, p: char)
    requires WellFormed(st) && OnBoard(s) && OnBoard(e) && p == At(st.board, s)
    requires IsSideStepOntoEmpty(st.board, s, e, p) ==> OnBoard(CapturedSquare(st.curPlayer, e))
    ensures forall q :: OnBoard(q) ==>
      var c := At(CommittedBoard(st, s, e, p), q);
      c == Empty || c == p || c == 'q' || c == 'Q' || c == At(st.board, q)
  {
    var m := MovedBoard(st.board, st.curPlayer, s, e, p);
    forall q | OnBoard(q)
      ensures var c := At(m, q); c == Empty || c == p || c == At(st.board, q)
    {
      var r := Relocate(st.board, s, e, p);
      assert At(r, q) == Empty || At(r, q) == p || At(r, q) == At(st.board, q);
    }
  }

  /** The starting position holds piece letters only, and every move keeps it so:
      the check scans therefore never meet another character. */
  lemma StepKeepsPieceBoard(st: GameState, s: Square, e: Square)
    requires Steppable(st, s, e) && PieceBoard(st.board)
    ensures WellFormed(Step(st, s, e).0) && PieceBoard(Step(st, s, e).0.board)
  {
    StepBoard(st, s, e);
    if Carried(st, s, e) {
      CommittedKeepsPieceBoard(WithKingFlag(st, s, e), s, e, At(st.board, s));
    }
  }

  /** The board after a step: unchanged by a refusal, the committed board otherwise. */
  lemma StepBoard(st: GameState, s: Square, e: Square)
    requires Steppable(st, s, e)
    ensures WellFormed(Step(st, s, e).0)
    ensures !Carried(st, s, e) ==> Step(st, s, e).0.board == st.board
    ensures Carried(st, s, e) ==>
      && WellFormed(WithKingFlag(st, s, e)) && WithKingFlag(st, s, e).board == st.board
      && WithKingFlag(st, s, e).curPlayer == st.curPlayer
      && Step(st, s, e).0.board == CommittedBoard(WithKingFlag(st, s, e), s, e, At(st.board, s))
  {
    RefusalKeepsState(st, s, e);
    if Carried(st, s, e) {
      CarriedStep(st, s, e);
      ClassifyEffects(Game.Committed(WithKingFlag(st, s, e), s, e));
    }
  }

  /** Committing a piece letter on a board of piece letters gives one again. */
  lemma CommittedKeepsPieceBoard(st: GameState, s: Square, e: Square, p: char)
    requires WellFormed(st) && OnBoard(s) && OnBoard(e) && p == At(st.board, s)
    requires IsSideStepOntoEmpty(st.board, s, e, p) ==> OnBoard(CapturedSquare(st.curPlayer, e))
    requires PieceBoard(st.board) && p != Empty
    ensures PieceBoard(CommittedBoard(st, s, e, p))
  {
    var b2 := CommittedBoard(st, s, e, p);
    CommittedBoardCells(st, s, e, p);
    forall q | OnBoard(q) ensures At(b2, q) == Empty || IsPieceChar(At(b2, q)) {
      assert At(b2, q) == Empty || At(b2, q) == p || At(b2, q) == 'q' || At(b2, q) == 'Q'
             || At(b2, q) == At(st.board, q);
    }
  }

  /** `startGame` sets up a board of piece letters. */
  lemma InitialPieceBoard()
    ensures PieceBoard(InitialState.board)
  {
    var b := StarterPosition;
    forall q | OnBoard(q) ensures At(b, q) == Empty || IsPieceChar(At(b, q)) {
      if q.row == 0 {
        assert b[0] == ['R', 'N', 'B', 'Q', 'K', 'B', 'N', 'R'];
      } else if q.row == 7 {
        assert b[7] == ['r', 'n', 'b', 'q', 'k', 'b', 'n', 'r'];
      }
    }
  }

  // ----- The starting position -----

  /** A king standing alone on its square is the one `findKingPositionOnBoard` finds. */
  lemma FindKingUnique(b: Grid, c: Color, k: Square)
    requires IsGrid(b) && OnBoard(k) && At(b, k) == KingChar(c)
    requires forall q: Square :: OnBoard(q) && q != k ==> At(b, q) != KingChar(c)
    ensures FindKing(b, c) == Some(k)
  {
    FindKingFirst(b, c);
    var f := FindKing(b, c).value;
    assert f == k;
  }

  /** `startGame` puts White's king on (7, 4) and Black's on (0, 4), and gives
      White the first move with no game over, no en-passant target and every
      castling flag clear. */
  lemma StartingPosition()
    ensures WellFormed(InitialState)
    ensures FindKing(InitialState.board, White) == Some(Square(7, 4))
    ensures FindKing(InitialState.board, Black) == Some(Square(0, 4))
    ensures InitialState.curPlayer == White && !InitialState.gameOver
    ensures InitialState.enPassantTarget == None
    ensures !KingMoved(InitialState, White) && !KingMoved(InitialState, Black)
  {
    var b := StarterPosition;
    forall q: Square | OnBoard(q) && q != Square(7, 4) ensures At(b, q) != 'k' {
      assert b[q.row] == if q.row == 7 then ['r', 'n', 'b', 'q', 'k', 'b', 'n', 'r'] else b[q.row];
    }
    forall q: Square | OnBoard(q) && q != Square(0, 4) ensures At(b, q) != 'K' {
      assert b[q.row] == if q.row == 0 then ['R', 'N', 'B', 'Q', 'K', 'B', 'N', 'R'] else b[q.row];
    }
    FindKingUnique(b, White, Square(7, 4));
    FindKingUnique(b, Black, Square(0, 4));
  }

  /** Neither side is in check in the starting position. */
  lemma StartingPositionNoCheck()
    ensures !InCheck(StarterPosition, White) && !InCheck(StarterPosition, Black)
  {
    var b := StarterPosition;
    StartingPosition();
    forall q: Square ensures !EnemyAttacks(b, q, Square(7, 4), White) {
      if OnBoard(q) && IsEnemyPiece(At(b, q), White) {
        assert q.row <= 1;
      }
    }
    forall q: Square ensures !EnemyAttacks(b, q, Square(0, 4), Black) {
      if OnBoard(q) && IsEnemyPiece(At(b, q), Black) {
        assert q.row >= 6;
      }
    }
  }
}
