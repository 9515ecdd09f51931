/** Check detection on a board (gameController.js:565-619, 663-675): locating a
    king, deciding whether it is attacked, the attack test for an arbitrary
    square, and the exhaustive checkmate scan. */
module CheckDetection {
  import opened ChessBoard
  import opened Movement

  function KingChar(c: Color): char {
    if c == Black then 'K' else 'k'
  }

  /** `isEnemyPieceOnBoard(piece, kingColor)`. */
  predicate IsEnemyPiece(p: char, kingColor: Color) {
    p != Empty && (if kingColor == Black then IsLowerCase(p) else IsUpperCase(p))
  }

  /** `isFriendlyPieceOnBoard(piece, kingColor)`. */
  predicate IsFriendlyPiece(p: char, kingColor: Color) {
    p != Empty && (if kingColor == Black then IsUpperCase(p) else IsLowerCase(p))
  }

  /** (i, j) comes strictly before (r, c) in the scan order: row by row, left to right. */
  predicate ScannedBefore(i: int, j: int, r: int, c: int) {
    i < r || (i == r && j < c)
  }

  /** The first square holding `ch` at or after (i, j) in the scan order. */
  function FindFrom(b: Grid, ch: char, i: int, j: int): (r: Option<Square>)
    requires IsGrid(b) && 0 <= i <= 8 && 0 <= j <= 8
    decreases 8 - i, 8 - j
    ensures r.Some? ==>
      OnBoard(r.value) && At(b, r.value) == ch && !ScannedBefore(r.value.row, r.value.col, i, j)
  {
    if i == 8 then None
    else if j == 8 then FindFrom(b, ch, i + 1, 0)
    else if b[i][j] == ch then Some(Square(i, j))
    else FindFrom(b, ch, i, j + 1)
  }

  /** `findKingPositionOnBoard`: the first square in scan order holding that colour's king. */
  function FindKing(b: Grid, c: Color): (r: Option<Square>)
    requires IsGrid(b)
    ensures r.Some? ==> OnBoard(r.value) && At(b, r.value) == KingChar(c)
  {
    FindFrom(b, KingChar(c), 0, 0)
  }

  /** The piece on `q` is an enemy of `kingColor` that may move to `t`. */
  ghost predicate EnemyAttacks(b: Grid, q: Square, t: Square, kingColor: Color)
    requires IsGrid(b) && OnBoard(t)
  {
    OnBoard(q) && At(b, q) != Empty && IsEnemyPiece(At(b, q), kingColor)
    && ValidMove(b, q, t, At(b, q))
  }

  /** `isKingInCheckBoard(board, kingColor)`. */
  ghost predicate InCheck(b: Grid, kingColor: Color)
    requires IsGrid(b)
  {
    var k := FindKing(b, kingColor);
    k.Some? && exists q :: EnemyAttacks(b, q, k.value, kingColor)
  }

  /** The piece on `q` is not a friend of `friendlyColor` and may move to `t`. */
  ghost predicate NonFriendAttacks(b: Grid, q: Square, t: Square, friendlyColor: Color)
    requires IsGrid(b) && OnBoard(t)
  {
    OnBoard(q) && At(b, q) != Empty && !IsFriendlyPiece(At(b, q), friendlyColor)
    && ValidMove(b, q, t, At(b, q))
  }

  /** `isSquareAttacked(square, friendlyColor)`, evaluated on board `b`. */
  ghost predicate SquareAttacked(b: Grid, t: Square, friendlyColor: Color)
    requires IsGrid(b) && OnBoard(t)
  {
    exists q :: NonFriendAttacks(b, q, t, friendlyColor)
  }

  /** The board copy `isCheckmate` builds: `piece` written on `t`, then `q` emptied.
      Written in this order, a move onto its own square leaves that square empty. */
  function ScratchMove(b: Grid, q: Square, t: Square): (r: Grid)
    requires IsGrid(b) && OnBoard(q) && OnBoard(t)
    ensures IsGrid(r)
    ensures At(r, q) == Empty
    ensures q != t ==> At(r, t) == At(b, q)
    ensures forall x :: OnBoard(x) && x != q && x != t ==> At(r, x) == At(b, x)
  {
    Put(Put(b, t, At(b, q)), q, Empty)
  }

  /** A friendly piece on `q` may move to `t` and the simulated move lifts the check. */
  ghost predicate Escapes(b: Grid, c: Color, q: Square, t: Square)
    requires IsGrid(b)
  {
    OnBoard(q) && OnBoard(t) && At(b, q) != Empty && IsFriendlyPiece(At(b, q), c)
    && ValidMove(b, q, t, At(b, q)) && !InCheck(ScratchMove(b, q, t), c)
  }

  /** No move of the piece on `q` lifts the check. */
  ghost predicate Stuck(b: Grid, c: Color, q: Square)
    requires IsGrid(b)
  {
    forall t: Square :: !Escapes(b, c, q, t)
  }

  /** `isCheckmate(kingColor)`, evaluated on board `b`. */
  ghost predicate Checkmate(b: Grid, c: Color)
    requires IsGrid(b)
  {
    InCheck(b, c) && forall q: Square, t: Square :: !Escapes(b, c, q, t)
  }

  // ----- The scans -----

  method FindKingPositionOnBoard(b: Grid, c: Color) returns (pos: Option<Square>)
    requires IsGrid(b)
    ensures pos == FindKing(b, c)
  {
    var kingChar := if c == Black then 'K' else 'k';
    for i := 0 to 8
      invariant FindKing(b, c) == FindFrom(b, kingChar, i, 0)
    {
      for j := 0 to 8
        invariant FindKing(b, c) == FindFrom(b, kingChar, i, j)
      {
        if b[i][j] == kingChar {
          return Some(Square(i, j));
        }
      }
    }
    return None;
  }

  method IsKingInCheckBoard(b: Grid, kingColor: Color) returns (inCheck: bool)
    requires IsGrid(b)
    ensures inCheck == InCheck(b, kingColor)
  {
    var kingPos := FindKingPositionOnBoard(b, kingColor);
    if kingPos.None? {
      return false;
    }
    var k := kingPos.value;
    for i := 0 to 8
      invariant forall q: Square :: ScannedBefore(q.row, q.col, i, 0) ==> !EnemyAttacks(b, q, k, kingColor)
    {
      for j := 0 to 8
        invariant forall q: Square :: ScannedBefore(q.row, q.col, i, j) ==> !EnemyAttacks(b, q, k, kingColor)
      {
        var piece := b[i][j];
        if piece != Empty && IsEnemyPiece(piece, kingColor) {
          var ok := ValidateMovementOnBoard(b, Square(i, j), k, piece);
          if ok {
            assert EnemyAttacks(b, Square(i, j), k, kingColor);
            return true;
          }
        }
      }
    }
    assert forall q: Square :: !EnemyAttacks(b, q, k, kingColor) by {
      forall q ensures !EnemyAttacks(b, q, k, kingColor) {
        if OnBoard(q) {
          assert ScannedBefore(q.row, q.col, 8, 0);
        }
      }
    }
    return false;
  }

  /** `isSquareAttacked`; the source reads the global board, here it is passed in. */
  method IsSquareAttacked(b: Grid, t: Square, friendlyColor: Color) returns (attacked: bool)
    requires IsGrid(b) && OnBoard(t)
    ensures attacked == SquareAttacked(b, t, friendlyColor)
  {
    for i := 0 to 8
      invariant forall q: Square :: ScannedBefore(q.row, q.col, i, 0) ==> !NonFriendAttacks(b, q, t, friendlyColor)
    {
      for j := 0 to 8
        invariant forall q: Square :: ScannedBefore(q.row, q.col, i, j) ==> !NonFriendAttacks(b, q, t, friendlyColor)
      {
        var piece := b[i][j];
        if piece != Empty && !IsFriendlyPiece(piece, friendlyColor) {
          var ok := ValidateMovementOnBoard(b, Square(i, j), t, piece);
          if ok {
            assert NonFriendAttacks(b, Square(i, j), t, friendlyColor);
            return true;
          }
        }
      }
    }
    assert forall q: Square :: !NonFriendAttacks(b, q, t, friendlyColor) by {
      forall q ensures !NonFriendAttacks(b, q, t, friendlyColor) {
        if OnBoard(q) {
          assert ScannedBefore(q.row, q.col, 8, 0);
        }
      }
    }
    return false;
  }

  /** The inner two loops of `isCheckmate` for the friendly piece on `q`: is
      there a destination whose simulated move lifts the check? */
  method PieceCanEscape(b: Grid, c: Color, q: Square) returns (escapes: bool)
    requires IsGrid(b) && OnBoard(q) && At(b, q) != Empty && IsFriendlyPiece(At(b, q), c)
    ensures escapes == exists t: Square :: Escapes(b, c, q, t)
  {
    var piece := b[q.row][q.col];
    for m := 0 to 8
      invariant forall t: Square :: ScannedBefore(t.row, t.col, m, 0) ==> !Escapes(b, c, q, t)
    {
      for n := 0 to 8
        invariant forall t: Square :: ScannedBefore(t.row, t.col, m, n) ==> !Escapes(b, c, q, t)
      {
        var ok := ValidateMovementOnBoard(b, q, Square(m, n), piece);
        if ok {
          var tempBoard := b;
          tempBoard := Put(tempBoard, Square(m, n), piece);
          tempBoard := Put(tempBoard, q, Empty);
          var stillInCheck := IsKingInCheckBoard(tempBoard, c);
          if !stillInCheck {
            assert Escapes(b, c, q, Square(m, n));
            return true;
          }
        }
      }
    }
    assert forall t: Square :: !Escapes(b, c, q, t) by {
      forall t: Square ensures !Escapes(b, c, q, t) {
        if OnBoard(t) {
          assert ScannedBefore(t.row, t.col, 8, 0);
        }
      }
    }
    return false;
  }

  /** `isCheckmate`; the source reads the global board, here it is passed in.
      Every friendly piece is tried on every destination the validator accepts,
      each on a fresh copy of the board. */
  method IsCheckmate(b: Grid, c: Color) returns (mate: bool)
    requires IsGrid(b)
    ensures mate == Checkmate(b, c)
  {
    var inCheck := IsKingInCheckBoard(b, c);
    if !inCheck {
      return false;
    }
    for i := 0 to 8
      invariant forall q: Square :: ScannedBefore(q.row, q.col, i, 0) ==> Stuck(b, c, q)
    {
      for j := 0 to 8
        invariant forall q: Square :: ScannedBefore(q.row, q.col, i, j) ==> Stuck(b, c, q)
      {
        var piece := b[i][j];
        if piece != Empty && IsFriendlyPiece(piece, c) {
          var escapes := PieceCanEscape(b, c, Square(i, j));
          if escapes {
            return false;
          }
        }
        assert Stuck(b, c, Square(i, j));
      }
    }
    assert forall q: Square, t: Square :: !Escapes(b, c, q, t) by {
      forall q: Square, t: Square ensures !Escapes(b, c, q, t) {
        if OnBoard(q) {
          assert ScannedBefore(q.row, q.col, 8, 0);
          assert Stuck(b, c, q);
        }
      }
    }
    return true;
  }

  // ----- Properties of the scans -----

  /** `FindFrom` returns the first square in scan order, from (i, j) on, holding `ch`,
      and nothing exactly when no such square exists. */
  lemma {:induction false} FindFromFirst(b: Grid, ch: char, i: int, j: int)
    requires IsGrid(b) && 0 <= i <= 8 && 0 <= j <= 8
    decreases 8 - i, 8 - j
    ensures FindFrom(b, ch, i, j).None? <==>
      forall q: Square :: OnBoard(q) && !ScannedBefore(q.row, q.col, i, j) ==> At(b, q) != ch
    ensures FindFrom(b, ch, i, j).Some? ==>
      var p := FindFrom(b, ch, i, j).value;
      forall q: Square ::
        (OnBoard(q) && !ScannedBefore(q.row, q.col, i, j) && ScannedBefore(q.row, q.col, p.row, p.col))
        ==> At(b, q) != ch
  {
    if i == 8 {
    } else if j == 8 {
      FindFromFirst(b, ch, i + 1, 0);
    } else if b[i][j] == ch {
      assert At(b, Square(i, j)) == ch;
    } else {
      FindFromFirst(b, ch, i, j + 1);
      assert At(b, Square(i, j)) != ch;
    }
  }

  /** `findKingPositionOnBoard` returns null exactly when the colour has no king,
      and otherwise the first king square in scan order. */
  lemma FindKingFirst(b: Grid, c: Color)
    requires IsGrid(b)
    ensures FindKing(b, c).None? <==> forall q: Square :: OnBoard(q) ==> At(b, q) != KingChar(c)
    ensures FindKing(b, c).Some? ==>
      var k := FindKing(b, c).value;
      At(b, k) == KingChar(c)
      && forall q: Square :: OnBoard(q) && ScannedBefore(q.row, q.col, k.row, k.col) ==> At(b, q) != KingChar(c)
  {
    FindFromFirst(b, KingChar(c), 0, 0);
  }

  /** The two colour tests of the check scan are mirror images: a piece is an
      enemy of one side exactly when it is a friend of the other. On a piece letter
      exactly one of them holds, upper case being Black's; an empty square is
      neither; and each side's own king letter is friendly to it. */
  lemma ColourTests(p: char, c: Color)
    ensures IsEnemyPiece(p, c) == IsFriendlyPiece(p, Opponent(c))
    ensures !IsEnemyPiece(Empty, c) && !IsFriendlyPiece(Empty, c)
    ensures IsPieceChar(p) ==>
              && (IsFriendlyPiece(p, c) <==> (IsUpperCase(p) <==> c == Black))
              && (IsEnemyPiece(p, c) <==> !IsFriendlyPiece(p, c))
    ensures IsFriendlyPiece(KingChar(c), c) && !IsEnemyPiece(KingChar(c), c)
  {
  }

  /** A side without a king is never in check. */
  lemma NoKingNoCheck(b: Grid, c: Color)
    requires IsGrid(b)
    requires forall q: Square :: OnBoard(q) ==> At(b, q) != KingChar(c)
    ensures !InCheck(b, c)
  {
    FindKingFirst(b, c);
  }

  /** A side with a king is in check exactly when some enemy piece's move to that
      king's square passes the validator. */
  lemma InCheckWitness(b: Grid, c: Color, k: Square)
    requires IsGrid(b) && FindKing(b, c) == Some(k)
    ensures InCheck(b, c) <==>
      exists q: Square :: OnBoard(q) && IsEnemyPiece(At(b, q), c) && ValidMove(b, q, k, At(b, q))
  {
    if InCheck(b, c) {
      var q :| EnemyAttacks(b, q, k, c);
      assert OnBoard(q) && IsEnemyPiece(At(b, q), c) && ValidMove(b, q, k, At(b, q));
    } else if exists q: Square :: OnBoard(q) && IsEnemyPiece(At(b, q), c) && ValidMove(b, q, k, At(b, q)) {
      var q: Square :| OnBoard(q) && IsEnemyPiece(At(b, q), c) && ValidMove(b, q, k, At(b, q));
      assert EnemyAttacks(b, q, k, c);
    }
  }

  /** On a board holding only piece letters and empty squares, the enemy test of
      the check scan and the not-a-friend test of the attack scan agree, so a king
      is in check exactly when its square is attacked. */
  lemma InCheckIsKingSquareAttacked(b: Grid, c: Color)
    requires IsGrid(b)
    requires forall q: Square :: OnBoard(q) ==> At(b, q) == Empty || IsPieceChar(At(b, q))
    requires FindKing(b, c).Some?
    ensures InCheck(b, c) <==> SquareAttacked(b, FindKing(b, c).value, c)
  {
    var k := FindKing(b, c).value;
    forall q: Square
      ensures EnemyAttacks(b, q, k, c) <==> NonFriendAttacks(b, q, k, c)
    {
      if OnBoard(q) && At(b, q) != Empty {
        assert IsPieceChar(At(b, q));
      }
    }
  }

  /** The boards agree on which squares hold `ch`. */
  ghost predicate SameMatches(b1: Grid, b2: Grid, ch: char)
    requires IsGrid(b1) && IsGrid(b2)
  {
    forall q: Square :: OnBoard(q) ==> (At(b1, q) == ch <==> At(b2, q) == ch)
  }

  lemma {:induction false} FindFromRespectsMatches(b1: Grid, b2: Grid, ch: char, i: int, j: int)
    requires IsGrid(b1) && IsGrid(b2) && 0 <= i <= 8 && 0 <= j <= 8
    requires SameMatches(b1, b2, ch)
    decreases 8 - i, 8 - j
    ensures FindFrom(b1, ch, i, j) == FindFrom(b2, ch, i, j)
  {
    if i == 8 {
    } else if j == 8 {
      FindFromRespectsMatches(b1, b2, ch, i + 1, 0);
    } else {
      assert At(b1, Square(i, j)) == ch <==> At(b2, Square(i, j)) == ch;
      FindFromRespectsMatches(b1, b2, ch, i, j + 1);
    }
  }

  /** Replacing one friendly non-king piece by another never changes whether that
      side is in check: the scan only sees that the square is occupied. */
  lemma InCheckIgnoresFriendlyReplacement(b: Grid, q: Square, ch: char, c: Color)
    requires IsGrid(b) && OnBoard(q)
    requires At(b, q) != Empty && !IsEnemyPiece(At(b, q), c) && At(b, q) != KingChar(c)
    requires ch != Empty && !IsEnemyPiece(ch, c) && ch != KingChar(c)
    ensures InCheck(Put(b, q, ch), c) == InCheck(b, c)
  {
    var b2 := Put(b, q, ch);
    FindFromRespectsMatches(b, b2, KingChar(c), 0, 0);
    var kp := FindKing(b, c);
    if kp.Some? {
      var k := kp.value;
      assert k != q;
      assert SameOccupancy(b, b2);
      forall a: Square
        ensures EnemyAttacks(b, a, k, c) == EnemyAttacks(b2, a, k, c)
      {
        if OnBoard(a) && a != q {
          ValidMoveDependsOnOccupancy(b, b2, a, k, At(b, a));
        }
      }
    }
  }
}
