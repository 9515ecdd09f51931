/** `movePiece` as its comments and its dead branches show it was meant to work
    (gameController.js:152-315), beside the behaviour as written in `Game.Step`:
    castling is validated before the king flag is set, and the self-check looks at
    the whole board the move produces, so an en-passant capture is judged with the
    captured pawn gone. */
module Corrected {
  import opened ChessBoard
  import opened Movement
  import opened CheckDetection
  import opened Game
  import opened GameProperties

  /** The rook's corner and the square it moves to beside the castled king
      (gameController.js:175-177, 192-194, 210-212, 227-229). */
  function CastlingRookSquares(c: Color, e: Square): (Square, Square) {
    var r := BackRow(c);
    if e.col == 6 then (Square(r, 7), Square(r, 5)) else (Square(r, 0), Square(r, 3))
  }

  /** The rook half of castling on the board: the rook leaves its corner for the
      square beside the king's destination; no other square changes. */
  function RookShifted(b: Grid, c: Color, e: Square): (r: Grid)
    requires IsGrid(b)
    ensures IsGrid(r)
    ensures var (rf, rt) := CastlingRookSquares(c, e);
      && At(r, rt) == At(b, rf) && At(r, rf) == Empty
      && forall q :: OnBoard(q) && q != rf && q != rt ==> At(r, q) == At(b, q)
  {
    var (rf, rt) := CastlingRookSquares(c, e);
    Relocate(b, rf, rt, At(b, rf))
  }

  /** The rook flag castling sets for the side to move. */
  function SetCastlingRookMoved(st: GameState, e: Square): GameState {
    if st.curPlayer == White then
      if e.col == 6 then st.(whiteKingsideRookMoved := true) else st.(whiteQueensideRookMoved := true)
    else
      if e.col == 6 then st.(blackKingsideRookMoved := true) else st.(blackQueensideRookMoved := true)
  }

  /** The state castling hands to the common commit path: both flags set and the
      rook moved. */
  function PreCastled(st: GameState, e: Square): (r: GameState)
    requires WellFormed(st)
    ensures WellFormed(r)
  {
    SetCastlingRookMoved(SetKingMoved(st), e).(board := RookShifted(st.board, st.curPlayer, e))
  }

  /** A castling move carried out: king flag set, rook moved, then the common
      commit path moves the king and switches the turn. */
  function Castled(st: GameState, s: Square, e: Square): (r: GameState)
    requires WellFormed(st) && OnBoard(s) && OnBoard(e)
    requires s == Square(BackRow(st.curPlayer), 4) && (e.col == 6 || e.col == 2)
    requires IsKing(At(st.board, s))
    ensures WellFormed(r)
  {
    var st1 := PreCastled(st, e);
    assert At(st1.board, s) == At(st.board, s);
    Committed(st1, s, e)
  }

  /** The self-check on the board the move produces: refused, with the state as
      it was, when the mover's own king is attacked there; otherwise announced. */
  ghost function Settle(st: GameState, st2: GameState): (GameState, Outcome)
    requires WellFormed(st2)
  {
    if InCheck(st2.board, st.curPlayer) then (st, Refused(ExposesOwnKing)) else Classify(st2)
  }

  /** The self-check lets the move through exactly when the mover's king is
      unattacked on the result, and then only the announcement follows. */
  lemma SettleEffects(st: GameState, st2: GameState)
    requires WellFormed(st2)
    ensures var (st3, o) := Settle(st, st2);
      && (o.Refused? <==> InCheck(st2.board, st.curPlayer))
      && (o.Refused? ==> st3 == st)
      && (!o.Refused? ==> st3 == st2.(gameOver := st2.gameOver || o == Mate))
  {
    ClassifyEffects(st2);
  }

  /** A castling request: a king stepping two columns to column 6 or 2. */
  predicate CastlingRequest(p: char, s: Square, e: Square) {
    IsKing(p) && Abs(e.col - s.col) == 2 && (e.col == 6 || e.col == 2)
  }

  /** The state a move that passed the early returns produces, before the
      self-check: castled, or committed through the common path with the king
      flag of a two-column king step set as in the code. */
  ghost function Produced(st: GameState, s: Square, e: Square): (r: GameState)
    requires WellFormed(st) && OnBoard(s) && OnBoard(e) && CaptureSquareOnBoard(st, s, e)
    requires !st.gameOver && Owns(st.curPlayer, At(st.board, s))
    requires CastlingRequest(At(st.board, s), s, e) ==> CastlingOk(st, s, e)
    ensures WellFormed(r) && r.curPlayer == Opponent(st.curPlayer)
  {
    var p := At(st.board, s);
    if CastlingRequest(p, s, e) then Castled(st, s, e)
    else Committed(WithKingFlag(st, s, e), s, e)
  }

  /** The intended `movePiece`: the same early returns for a finished game, an
      empty start square and a piece of the other side; a castling request is
      validated before anything is set; and the self-check runs on the result. */
  ghost function IntendedStep(st: GameState, s: Square, e: Square): (GameState, Outcome)
    requires WellFormed(st) && OnBoard(s) && OnBoard(e) && CaptureSquareOnBoard(st, s, e)
  {
    var b, me := st.board, st.curPlayer;
    var p := At(b, s);
    if st.gameOver then (st, Refused(GameIsOver))
    else if p == Empty then (st, Refused(EmptyStart))
    else if !Owns(me, p) then (st, Refused(NotOwnPiece))
    else if CastlingRequest(p, s, e) && !CastlingOk(st, s, e) then (st, Refused(CastlingRefused))
    else Settle(st, Produced(st, s, e))
  }

  // ----- Properties of the intended step -----

  /** A refused move changes nothing at all: no king flag is set before the
      castling test. */
  lemma IntendedRefusalKeepsState(st: GameState, s: Square, e: Square)
    requires WellFormed(st) && OnBoard(s) && OnBoard(e) && CaptureSquareOnBoard(st, s, e)
    ensures IntendedStep(st, s, e).1.Refused? ==> IntendedStep(st, s, e).0 == st
  {
    var p := At(st.board, s);
    if !st.gameOver && p != Empty && Owns(st.curPlayer, p)
       && !(CastlingRequest(p, s, e) && !CastlingOk(st, s, e)) {
      SettleEffects(st, Produced(st, s, e));
    }
  }

  /** Every move the intended step carries out leaves the mover's own king
      unattacked and hands the move to the other side; no kind of move is
      excepted. */
  lemma IntendedOwnKingSafe(st: GameState, s: Square, e: Square)
    requires WellFormed(st) && OnBoard(s) && OnBoard(e) && CaptureSquareOnBoard(st, s, e)
    requires !IntendedStep(st, s, e).1.Refused?
    ensures var st2 := IntendedStep(st, s, e).0;
      WellFormed(st2) && !InCheck(st2.board, st.curPlayer) && st2.curPlayer == Opponent(st.curPlayer)
  {
    SettleEffects(st, Produced(st, s, e));
  }

  /** A castling request that `validateCastling` accepts, and whose result does not
      leave the king attacked, is carried out: the king stands on its destination,
      the rook beside it, both start squares are empty, no other square changes, the
      king flag and that rook's flag are set while the other four flags keep their
      values, the other side is to move and the game is over exactly on mate. */
  lemma IntendedCastlingCompletes(st: GameState, s: Square, e: Square)
    requires WellFormed(st) && OnBoard(s) && OnBoard(e) && CaptureSquareOnBoard(st, s, e)
    requires !st.gameOver && Owns(st.curPlayer, At(st.board, s)) && IsKing(At(st.board, s))
    requires Abs(e.col - s.col) == 2 && (e.col == 6 || e.col == 2) && CastlingOk(st, s, e)
    requires !InCheck(Castled(st, s, e).board, st.curPlayer)
    ensures var (st2, o) := IntendedStep(st, s, e);
      var (rf, rt) := CastlingRookSquares(st.curPlayer, e);
      && !o.Refused? && WellFormed(st2)
      && At(st2.board, e) == At(st.board, s) && At(st2.board, s) == Empty
      && At(st2.board, rt) == At(st.board, rf) && At(st2.board, rf) == Empty
      && (forall q :: OnBoard(q) && q != s && q != e && q != rf && q != rt
            ==> At(st2.board, q) == At(st.board, q))
      && KingMoved(st2, st.curPlayer)
      && (e.col == 6 ==> KingsideRookMoved(st2, st.curPlayer))
      && (e.col == 2 ==> QueensideRookMoved(st2, st.curPlayer))
      && (e.col == 6 ==> QueensideRookMoved(st2, st.curPlayer) == QueensideRookMoved(st, st.curPlayer))
      && (e.col == 2 ==> KingsideRookMoved(st2, st.curPlayer) == KingsideRookMoved(st, st.curPlayer))
      && KingMoved(st2, Opponent(st.curPlayer)) == KingMoved(st, Opponent(st.curPlayer))
      && KingsideRookMoved(st2, Opponent(st.curPlayer)) == KingsideRookMoved(st, Opponent(st.curPlayer))
      && QueensideRookMoved(st2, Opponent(st.curPlayer)) == QueensideRookMoved(st, Opponent(st.curPlayer))
      && st2.curPlayer == Opponent(st.curPlayer) && st2.enPassantTarget == None
      && st2.gameOver == (o == Mate)
  {
    var me := st.curPlayer;
    var (rf, rt) := CastlingRookSquares(me, e);
    var st1 := PreCastled(st, e);
    assert rf != s && rt != s && rf != e && rt != e && rf != rt;
    SettleEffects(st, Castled(st, s, e));
    ClassifyEffects(Castled(st, s, e));
    assert Castled(st, s, e).board == Relocate(st1.board, s, e, At(st.board, s));
  }

  /** Away from castling requests and en-passant captures, the intended step and
      the step as written agree. */
  lemma IntendedAgreesElsewhere(st: GameState, s: Square, e: Square)
    requires WellFormed(st) && OnBoard(s) && OnBoard(e) && CaptureSquareOnBoard(st, s, e)
    requires !CastlingRequest(At(st.board, s), s, e)
    requires !IsSideStepOntoEmpty(st.board, s, e, At(st.board, s))
    ensures IntendedStep(st, s, e) == Step(st, s, e)
  {
    var p, me := At(st.board, s), st.curPlayer;
    if !st.gameOver && p != Empty && Owns(me, p) {
      var st1 := WithKingFlag(st, s, e);
      var st2 := Committed(st1, s, e);
      WrittenStepOutsideCastling(st, s, e);
      SelfCheckOnCommittedBoard(st1, s, e, p);
      IntendedStepOutsideCastling(st, s, e);
      assert InCheck(st2.board, me) == InCheck(Relocate(st.board, s, e, p), me);
    }
  }

  /** The intended step on a move that is no castling request and passes the
      first three tests: the self-check on the committed state. */
  lemma IntendedStepOutsideCastling(st: GameState, s: Square, e: Square)
    requires WellFormed(st) && OnBoard(s) && OnBoard(e) && CaptureSquareOnBoard(st, s, e)
    requires !st.gameOver && Owns(st.curPlayer, At(st.board, s))
    requires !CastlingRequest(At(st.board, s), s, e)
    ensures IntendedStep(st, s, e) == Settle(st, Committed(WithKingFlag(st, s, e), s, e))
  {
    assert Produced(st, s, e) == Committed(WithKingFlag(st, s, e), s, e);
  }

  /** `Step` on a move that is no castling request and passes the first three
      tests: the self-check on the relocation, then the commit. */
  lemma WrittenStepOutsideCastling(st: GameState, s: Square, e: Square)
    requires WellFormed(st) && OnBoard(s) && OnBoard(e) && CaptureSquareOnBoard(st, s, e)
    requires !st.gameOver && Owns(st.curPlayer, At(st.board, s))
    requires !CastlingRequest(At(st.board, s), s, e)
    ensures Step(st, s, e) ==
      if InCheck(Relocate(st.board, s, e, At(st.board, s)), st.curPlayer)
      then (st, Refused(ExposesOwnKing)) else Classify(Committed(WithKingFlag(st, s, e), s, e))
  {
  }

  /** Without an en-passant capture, the committed board differs from the plain
      relocation at most by promotion, which replaces the pawn by a queen of the
      same side; the check scan cannot tell the two apart. */
  lemma SelfCheckOnCommittedBoard(st: GameState, s: Square, e: Square, p: char)
    requires WellFormed(st) && OnBoard(s) && OnBoard(e) && p == At(st.board, s)
    requires Owns(st.curPlayer, p) && !IsSideStepOntoEmpty(st.board, s, e, p)
    ensures Committed(st, s, e).board == CommittedBoard(st, s, e, p)
    ensures InCheck(CommittedBoard(st, s, e, p), st.curPlayer)
            == InCheck(Relocate(st.board, s, e, p), st.curPlayer)
  {
    var me := st.curPlayer;
    var r := Relocate(st.board, s, e, p);
    assert MovedBoard(st.board, me, s, e, p) == r;
    if IsPawn(p) && PromotionSquare(p, e) {
      var queen := if p == 'p' then 'q' else 'Q';
      assert Promote(r, e, p) == Put(r, e, queen);
      InCheckIgnoresFriendlyReplacement(r, e, queen, me);
    }
  }

  // ----- Two positions that tell the two steps apart -----

  const EmptyRow: seq<char> := ['.', '.', '.', '.', '.', '.', '.', '.']

  /** White to move with its pawn beside the black pawn that has just advanced
      two rows; the white king and a black rook share that row, the black pawn
      between them. */
  const EnPassantPosition: GameState := GameState(
    [['K', '.', '.', '.', '.', '.', '.', '.'],
     EmptyRow,
     EmptyRow,
     ['k', '.', '.', 'p', 'P', '.', '.', 'R'],
     EmptyRow,
     EmptyRow,
     EmptyRow,
     EmptyRow],
    White, false, Some(Square(2, 4)), false, false, false, false, false, false)

  /** White to move with king and kingside rook on their home squares, nothing
      between them, and a lone black king far away. */
  const CastlingPosition: GameState := GameState(
    [['.', '.', '.', '.', 'K', '.', '.', '.'],
     EmptyRow,
     EmptyRow,
     EmptyRow,
     EmptyRow,
     EmptyRow,
     EmptyRow,
     ['.', '.', '.', '.', 'k', '.', '.', 'r']],
    White, false, None, false, false, false, false, false, false)

  /** The only black piece is a king on (0, 4); rows 2 to 7 hold only white kings,
      white rooks and empty squares. */
  ghost predicate LoneBlackKing(b: Grid)
    requires IsGrid(b)
  {
    && At(b, Square(0, 4)) == 'K'
    && (forall q :: OnBoard(q) && q.row <= 1 && q != Square(0, 4) ==> At(b, q) == Empty)
    && (forall q :: OnBoard(q) && q.row >= 2 ==> At(b, q) in "kr.")
  }

  /** In such a position no square from row 2 down is attacked, and White is not
      in check. */
  lemma LoneBlackKingHarmless(b: Grid)
    requires IsGrid(b) && LoneBlackKing(b)
    ensures forall t :: OnBoard(t) && t.row >= 2 ==> !SquareAttacked(b, t, White)
    ensures !InCheck(b, White)
  {
    forall q, t | OnBoard(t) && t.row >= 2
      ensures !NonFriendAttacks(b, q, t, White) && !EnemyAttacks(b, q, t, White)
    {
      if OnBoard(q) && q != Square(0, 4) && q.row >= 2 {
        assert At(b, q) in "kr.";
      }
    }
    var k := FindKing(b, White);
    if k.Some? {
      assert At(b, k.value) == 'k';
      assert k.value.row >= 2;
    }
  }

  /** The board after the capture in `EnPassantPosition`: the simulated move of
      the self-check leaves the black pawn shielding the white king, the real
      move removes it and opens the row to the rook. */
  lemma EnPassantBoards()
    ensures var st, s, e := EnPassantPosition, Square(3, 3), Square(2, 4);
      && Steppable(st, s, e) && At(st.board, s) == 'p'
      && IsSideStepOntoEmpty(st.board, s, e, 'p')
      && !InCheck(Relocate(st.board, s, e, 'p'), White)
      && InCheck(Committed(st, s, e).board, White)
  {
    EnPassantSimulatedBoard();
    EnPassantCommittedBoard();
  }

  /** The simulated board: the black pawn on (3, 4) blocks the rook. */
  lemma EnPassantSimulatedBoard()
    ensures var st, s, e := EnPassantPosition, Square(3, 3), Square(2, 4);
      !InCheck(Relocate(st.board, s, e, 'p'), White)
  {
    var st, s, e := EnPassantPosition, Square(3, 3), Square(2, 4);
    var r := Relocate(st.board, s, e, 'p');
    EnPassantSimulatedPieces();
    FindKingUnique(r, White, Square(3, 0));
    forall q ensures !EnemyAttacks(r, q, Square(3, 0), White) {
      if q == Square(3, 7) {
        assert Along(q, Square(3, 0), 3) == Square(3, 4);
        SliderBlocked(r, q, Square(3, 0), 'R', 3);
      }
    }
  }

  /** Where the pieces of the simulated board stand: White's king only on (3, 0),
      Black's pieces only on (0, 0), (3, 4) and (3, 7). */
  lemma EnPassantSimulatedPieces()
    ensures var st, s, e := EnPassantPosition, Square(3, 3), Square(2, 4);
      var r := Relocate(st.board, s, e, 'p');
      && At(r, Square(3, 0)) == 'k'
      && (forall q :: OnBoard(q) && q != Square(3, 0) ==> At(r, q) != 'k')
      && (forall q :: OnBoard(q) && IsEnemyPiece(At(r, q), White) ==>
            q == Square(0, 0) || q == Square(3, 4) || q == Square(3, 7))
      && At(r, Square(0, 0)) == 'K' && At(r, Square(3, 4)) == 'P' && At(r, Square(3, 7)) == 'R'
  {
    var st, s, e := EnPassantPosition, Square(3, 3), Square(2, 4);
    var b := st.board;
    var r := Relocate(b, s, e, 'p');
    forall q | OnBoard(q) && q != s && q != e
      ensures At(b, q) != 'k' || q == Square(3, 0)
      ensures IsEnemyPiece(At(b, q), White) ==> q == Square(0, 0) || q == Square(3, 4) || q == Square(3, 7)
    {
    }
  }

  /** The committed board: the pawn on (3, 4) is gone and the rook sees the king. */
  lemma EnPassantCommittedBoard()
    ensures var st, s, e := EnPassantPosition, Square(3, 3), Square(2, 4);
      && Steppable(st, s, e) && At(st.board, s) == 'p'
      && IsSideStepOntoEmpty(st.board, s, e, 'p')
      && InCheck(Committed(st, s, e).board, White)
  {
    var st, s, e := EnPassantPosition, Square(3, 3), Square(2, 4);
    var b := st.board;
    var r := Relocate(b, s, e, 'p');
    var f := Committed(st, s, e).board;
    assert f == Put(r, Square(3, 4), Empty);
    forall q | OnBoard(q) && q != Square(3, 0) ensures At(f, q) != 'k' {
      if q != s && q != e && q != Square(3, 4) {
        assert At(b, q) != 'k';
      }
    }
    FindKingUnique(f, White, Square(3, 0));
    forall k | 0 < k < 7 ensures At(f, Along(Square(3, 7), Square(3, 0), k)) == Empty {
      assert Along(Square(3, 7), Square(3, 0), k) == Square(3, 7 - k);
    }
    assert EnemyAttacks(f, Square(3, 7), Square(3, 0), White);
  }

  /** As written, the en-passant capture in `EnPassantPosition` passes the live
      validator and the self-check, and leaves White's own king in check. */
  lemma EnPassantExposesOwnKing()
    ensures var st, s, e := EnPassantPosition, Square(3, 3), Square(2, 4);
      && Steppable(st, s, e) && s != e && LiveValid(st, s, e)
      && Released(st, s, e).1.Some? && !Released(st, s, e).1.value.Refused?
      && InCheck(Released(st, s, e).0.board, White)
  {
    var st, s, e := EnPassantPosition, Square(3, 3), Square(2, 4);
    EnPassantBoards();
    assert LiveValid(st, s, e);
    assert Step(st, s, e) == Classify(Committed(st, s, e));
    ClassifyEffects(Committed(st, s, e));
  }

  /** The intended step refuses the same capture, and changes nothing. */
  lemma IntendedRefusesEnPassantExposure()
    ensures var st, s, e := EnPassantPosition, Square(3, 3), Square(2, 4);
      IntendedStep(st, s, e) == (st, Refused(ExposesOwnKing))
  {
    var st, s, e := EnPassantPosition, Square(3, 3), Square(2, 4);
    EnPassantBoards();
    assert Produced(st, s, e) == Committed(st, s, e);
  }

  /** The castling boards of `CastlingPosition`: before the move, after the king
      alone is relocated, and after king and rook have both moved. */
  lemma CastlingBoards()
    ensures var st, s, e := CastlingPosition, Square(7, 4), Square(7, 6);
      && Steppable(st, s, e) && At(st.board, s) == 'k'
      && LoneBlackKing(st.board)
      && LoneBlackKing(Relocate(st.board, s, e, 'k'))
      && LoneBlackKing(Castled(st, s, e).board)
  {
    var st, s, e := CastlingPosition, Square(7, 4), Square(7, 6);
    var b := st.board;
    assert LoneBlackKing(b) by {
      forall q | OnBoard(q) && q.row >= 2 ensures At(b, q) in "kr." {
        if q.row == 7 {
          assert b[7] == ['.', '.', '.', '.', 'k', '.', '.', 'r'];
        }
      }
    }
    var c := Castled(st, s, e).board;
    var rb := RookShifted(b, White, e);
    assert c == Relocate(rb, s, e, 'k');
  }

  /** As written, castling from `CastlingPosition` is refused although
      `validateCastling` accepts it on the position before the move, and the king
      flag is set all the same. */
  lemma KingsideCastlingRefused()
    ensures var st, s, e := CastlingPosition, Square(7, 4), Square(7, 6);
      && Steppable(st, s, e) && LiveValid(st, s, e) && CastlingOk(st, s, e)
      && Step(st, s, e) == (SetKingMoved(st), Refused(CastlingRefused))
  {
    var st, s, e := CastlingPosition, Square(7, 4), Square(7, 6);
    CastlingBoards();
    LoneBlackKingHarmless(st.board);
    LoneBlackKingHarmless(Relocate(st.board, s, e, 'k'));
    assert CastlingOk(st, s, e);
    RefusalReasons(st, s, e);
    RefusalKeepsState(st, s, e);
  }

  /** The intended step carries out the same castling: king on (7, 6), rook on
      (7, 5), both corners of the move empty. */
  lemma IntendedKingsideCastling()
    ensures var st, s, e := CastlingPosition, Square(7, 4), Square(7, 6);
      var (st2, o) := IntendedStep(st, s, e);
      && !o.Refused?
      && At(st2.board, Square(7, 6)) == 'k' && At(st2.board, Square(7, 5)) == 'r'
      && At(st2.board, Square(7, 4)) == Empty && At(st2.board, Square(7, 7)) == Empty
      && st2.whiteKingMoved && st2.whiteKingsideRookMoved
  {
    var st, s, e := CastlingPosition, Square(7, 4), Square(7, 6);
    CastlingBoards();
    LoneBlackKingHarmless(st.board);
    LoneBlackKingHarmless(Castled(st, s, e).board);
    IntendedCastlingCompletes(st, s, e);
  }
}
