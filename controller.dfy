/** The controller's globals as one object, and the operations that update them
    in place: `startGame`, `movePiece`, `promotePawn`, `validateCastling` and
    the live validator `validateMovement` (gameController.js:2-39, 135-479). */
module Controller {
  import opened ChessBoard
  import opened Movement
  import opened CheckDetection
  import opened Game

  class ChessGame {
    var board: Grid
    var curPlayer: Color
    var gameOver: bool
    var enPassantTarget: Option<Square>
    var whiteKingMoved: bool
    var blackKingMoved: bool
    var whiteKingsideRookMoved: bool
    var whiteQueensideRookMoved: bool
    var blackKingsideRookMoved: bool
    var blackQueensideRookMoved: bool

    /** The globals as one value. */
    function State(): GameState
      reads this
    {
      GameState(board, curPlayer, gameOver, enPassantTarget,
                whiteKingMoved, blackKingMoved,
                whiteKingsideRookMoved, whiteQueensideRookMoved,
                blackKingsideRookMoved, blackQueensideRookMoved)
    }

    ghost predicate Valid()
      reads this
    {
      IsGrid(board)
    }

    /** `startGame`: the starting position, White to move, every castling flag clear. */
    constructor StartGame()
      ensures Valid() && State() == InitialState
    {
      board := StarterPosition;
      whiteKingMoved, blackKingMoved := false, false;
      whiteKingsideRookMoved, whiteQueensideRookMoved := false, false;
      blackKingsideRookMoved, blackQueensideRookMoved := false, false;
      enPassantTarget := None;
      curPlayer := White;
      gameOver := false;
    }

    /** `promotePawn(endPos, pawn)`: only the board changes. */
    method PromotePawn(e: Square, pawn: char)
      requires Valid() && OnBoard(e)
      modifies this
      ensures Valid()
      ensures State() == old(State()).(board := Promote(old(board), e, pawn))
    {
      if pawn == 'p' && e.row == 0 {
        board := Put(board, e, 'q');
      } else if pawn == 'P' && e.row == 7 {
        board := Put(board, e, 'Q');
      }
    }

    /** `validateCastling(startPos, endPos)` against the current globals. */
    method ValidateCastling(s: Square, e: Square) returns (ok: bool)
      requires Valid()
      ensures ok == CastlingOk(State(), s, e)
    {
      var r := if curPlayer == White then 7 else 0;
      var kingMoved := if curPlayer == White then whiteKingMoved else blackKingMoved;
      if !(s.row == r && s.col == 4) {
        return false;
      }
      if kingMoved {
        return false;
      }
      if e.col == 6 {
        var rookMoved := if curPlayer == White then whiteKingsideRookMoved else blackKingsideRookMoved;
        if rookMoved {
          return false;
        }
        if board[r][5] != Empty || board[r][6] != Empty {
          return false;
        }
        var attacked := IsSquareAttacked(board, Square(r, 4), curPlayer);
        if !attacked { attacked := IsSquareAttacked(board, Square(r, 5), curPlayer); }
        if !attacked { attacked := IsSquareAttacked(board, Square(r, 6), curPlayer); }
        return !attacked;
      } else if e.col == 2 {
        var rookMoved := if curPlayer == White then whiteQueensideRookMoved else blackQueensideRookMoved;
        if rookMoved {
          return false;
        }
        if board[r][1] != Empty || board[r][2] != Empty || board[r][3] != Empty {
          return false;
        }
        var attacked := IsSquareAttacked(board, Square(r, 4), curPlayer);
        if !attacked { attacked := IsSquareAttacked(board, Square(r, 3), curPlayer); }
        if !attacked { attacked := IsSquareAttacked(board, Square(r, 2), curPlayer); }
        return !attacked;
      }
      return false;
    }

    /** `movePiece(piece, startPos, endPos)`: the state changes exactly as `Step` says. */
    method MovePiece(s: Square, e: Square) returns (outcome: Outcome)
      requires Valid() && OnBoard(s) && OnBoard(e) && CaptureSquareOnBoard(State(), s, e)
      modifies this
      ensures Valid()
      ensures (State(), outcome) == Step(old(State()), s, e)
    {
      if gameOver {
        return Refused(GameIsOver);
      }
      var boardPiece := board[s.row][s.col];
      if boardPiece == Empty {
        return Refused(EmptyStart);
      }
      if !((IsUpperCase(boardPiece) && curPlayer == Black) || (IsLowerCase(boardPiece) && curPlayer == White)) {
        return Refused(NotOwnPiece);
      }

      // Simulate the move on a copy of the board.
      var tempBoard := board;
      tempBoard := Put(tempBoard, s, Empty);
      tempBoard := Put(tempBoard, e, boardPiece);
      var exposed := IsKingInCheckBoard(tempBoard, curPlayer);
      if exposed {
        return Refused(ExposesOwnKing);
      }

      // Castling: the flag is set before `validateCastling` reads it.
      if ToLower(boardPiece) == 'k' && Abs(e.col - s.col) == 2 {
        if curPlayer == White {
          whiteKingMoved := true;
        } else {
          blackKingMoved := true;
        }
        if e.col == 6 || e.col == 2 {
          var ok := ValidateCastling(s, e);
          if !ok {
            return Refused(CastlingRefused);
          }
          assert false;
        }
      }

      outcome := CommitMove(s, e);
    }

    /** The commit part of `movePiece` (gameController.js:244-315), reached once every
        refusal has been passed. */
    method CommitMove(s: Square, e: Square) returns (outcome: Outcome)
      requires Valid() && OnBoard(s) && OnBoard(e)
      requires IsSideStepOntoEmpty(board, s, e, board[s.row][s.col])
               ==> OnBoard(CapturedSquare(curPlayer, e))
      modifies this
      ensures Valid()
      ensures (State(), outcome) == Commit(old(State()), s, e)
    {
      ApplyMove(s, e);
      outcome := Announce();
    }

    /** `movePiece` at gameController.js:244-304: the board, the en-passant target, the rook
        flags and the turn. */
    method ApplyMove(s: Square, e: Square)
      requires Valid() && OnBoard(s) && OnBoard(e)
      requires IsSideStepOntoEmpty(board, s, e, board[s.row][s.col])
               ==> OnBoard(CapturedSquare(curPlayer, e))
      modifies this
      ensures Valid()
      ensures State() == Committed(old(State()), s, e)
    {
      var boardPiece := board[s.row][s.col];
      PlacePiece(s, e);
      UpdateRookFlags(s, boardPiece);
      curPlayer := if curPlayer == White then Black else White;
    }

    /** `movePiece` at gameController.js:244-289: the board and the en-passant target. */
    method PlacePiece(s: Square, e: Square)
      requires Valid() && OnBoard(s) && OnBoard(e)
      requires IsSideStepOntoEmpty(board, s, e, board[s.row][s.col])
               ==> OnBoard(CapturedSquare(curPlayer, e))
      modifies this
      ensures Valid()
      ensures State() == Placed(old(State()), s, e)
    {
      var boardPiece := board[s.row][s.col];
      MoveOnBoard(s, e, boardPiece);
      SetEnPassantTarget(s, e, boardPiece);
      PromoteIfDue(e, boardPiece);
    }

    /** `movePiece` at gameController.js:268-276: a two-row pawn advance records the skipped square. */
    method SetEnPassantTarget(s: Square, e: Square, boardPiece: char)
      modifies this
      ensures State() == old(State()).(enPassantTarget := NextTarget(old(curPlayer), s, e, boardPiece))
    {
      if ToLower(boardPiece) == 'p' && Abs(e.row - s.row) == 2 {
        enPassantTarget := if curPlayer == White then Some(Square(s.row - 1, s.col))
                           else Some(Square(s.row + 1, s.col));
      } else {
        enPassantTarget := None;
      }
    }

    /** `movePiece` at gameController.js:283-289: a pawn reaching the far row is promoted. */
    method PromoteIfDue(e: Square, boardPiece: char)
      requires Valid() && OnBoard(e)
      modifies this
      ensures Valid()
      ensures State() == old(State()).(board := if IsPawn(boardPiece) && PromotionSquare(boardPiece, e)
                                                then Promote(old(board), e, boardPiece)
                                                else old(board))
    {
      if ToLower(boardPiece) == 'p' {
        if (boardPiece == 'p' && e.row == 0) || (boardPiece == 'P' && e.row == 7) {
          PromotePawn(e, boardPiece);
        }
      }
    }

    /** `movePiece` at gameController.js:306-315: the check and checkmate announcement. */
    method Announce() returns (outcome: Outcome)
      requires Valid()
      modifies this
      ensures Valid()
      ensures (State(), outcome) == Classify(old(State()))
    {
      var inCheck := IsKingInCheckBoard(board, curPlayer);
      if inCheck {
        var mate := IsCheckmate(board, curPlayer);
        if mate {
          gameOver := true;
          outcome := Mate;
        } else {
          outcome := Check;
        }
      } else {
        outcome := Normal;
      }
    }

    /** `movePiece` at gameController.js:244-266: the relocation and the en-passant clear. */
    method MoveOnBoard(s: Square, e: Square, boardPiece: char)
      requires Valid() && OnBoard(s) && OnBoard(e)
      requires IsSideStepOntoEmpty(board, s, e, boardPiece) ==> OnBoard(CapturedSquare(curPlayer, e))
      modifies this
      ensures Valid()
      ensures State() == old(State()).(board := MovedBoard(old(board), old(curPlayer), s, e, boardPiece))
    {
      var isEnPassantCapture := ToLower(boardPiece) == 'p' && s.col != e.col && board[e.row][e.col] == Empty;
      var b := Put(board, s, Empty);
      b := Put(b, e, boardPiece);
      if isEnPassantCapture {
        // One row behind the end square as seen from the mover: e.row + 1 for White.
        b := Put(b, CapturedSquare(curPlayer, e), Empty);
      }
      board := b;
    }

    /** `movePiece` at gameController.js:292-300: a rook leaving its home corner sets its flag. */
    method UpdateRookFlags(s: Square, boardPiece: char)
      modifies this
      ensures State() == RookFlags(old(State()), s, boardPiece)
    {
      if ToLower(boardPiece) == 'r' {
        if curPlayer == White {
          if s.row == 7 && s.col == 7 { whiteKingsideRookMoved := true; }
          if s.row == 7 && s.col == 0 { whiteQueensideRookMoved := true; }
        } else {
          if s.row == 0 && s.col == 7 { blackKingsideRookMoved := true; }
          if s.row == 0 && s.col == 0 { blackQueensideRookMoved := true; }
        }
      }
    }
  
    /** `validatePathIsBlocked(startPos, endPos)`: walks the squares between start
        and end, then refuses a friendly piece on the end square. The board
        stands in for the page's squares. */
    method ValidatePathIsBlocked(s: Square, e: Square) returns (ok: bool)
      requires Valid() && OnBoard(s) && OnBoard(e) && Aligned(s, e)
      ensures ok == LivePathOk(State(), s, e)
    {
      var clear := PathIsClearOnBoard(board, s, e);
      if !clear {
        return false;
      }
      return !FriendlyAtEnd(State(), e);
    }

    /** `validateKingMovement(startPos, endPos)`. */
    method ValidateKingMovement(s: Square, e: Square) returns (ok: bool)
      requires Valid() && OnBoard(s) && OnBoard(e)
      ensures ok == LiveKingOk(State(), s, e)
    {
      var dx, dy := e.row - s.row, e.col - s.col;
      if Abs(dy) == 2 && dx == 0 {
        ok := ValidateCastling(s, e);
        return;
      }
      if -1 <= dx <= 1 && -1 <= dy <= 1 {
        return !FriendlyAtEnd(State(), e);
      }
      return false;
    }

    /** `validateMovement(startPos, endPos)`: the live validator, dispatching on the
        letter on the start square. */
    method ValidateMovement(s: Square, e: Square) returns (ok: bool)
      requires Valid() && OnBoard(s) && OnBoard(e)
      ensures ok == LiveValid(State(), s, e)
    {
      var boardPiece := board[s.row][s.col];
      if boardPiece == 'r' || boardPiece == 'R' {
        if e.row == s.row || e.col == s.col {
          ok := ValidatePathIsBlocked(s, e);
        } else {
          ok := false;
        }
      } else if boardPiece == 'n' || boardPiece == 'N' {
        ok := KnightMove(s, e) && !FriendlyAtEnd(State(), e);
      } else if boardPiece == 'b' || boardPiece == 'B' {
        if OnDiagonal(s, e) {
          ok := ValidatePathIsBlocked(s, e);
        } else {
          ok := false;
        }
      } else if boardPiece == 'q' || boardPiece == 'Q' {
        if OnDiagonal(s, e) || e.row == s.row || e.col == s.col {
          ok := ValidatePathIsBlocked(s, e);
        } else {
          ok := false;
        }
      } else if boardPiece == 'k' || boardPiece == 'K' {
        ok := ValidateKingMovement(s, e);
      } else if boardPiece == 'p' {
        ok := LivePawnOk(State(), White, s, e);
      } else if boardPiece == 'P' {
        ok := LivePawnOk(State(), Black, s, e);
      } else {
        ok := false;
      }
    }

    /** The mouse-release handler (gameController.js:135-141) once the drop square
        is known: a drop on another square that `validateMovement` accepts goes
        to `movePiece`. */
    method Release(s: Square, e: Square) returns (outcome: Option<Outcome>)
      requires Valid() && OnBoard(s) && OnBoard(e)
      modifies this
      ensures Valid()
      ensures (State(), outcome) == Released(old(State()), s, e)
    {
      if s == e {
        return None;
      }
      var ok := ValidateMovement(s, e);
      if !ok {
        return None;
      }
      LiveGateKeepsCaptureOnBoard(State(), s, e);
      var o := MovePiece(s, e);
      outcome := Some(o);
    }
  }
}
