/** The board-based pseudo-legal move validator `validateMovementOnBoard`
    (gameController.js:483-563): per-piece geometry plus the path walk for the
    sliding pieces. It looks at the board only; check is not considered. */
module Movement {
  import opened ChessBoard

  function Abs(x: int): (r: nat)
    ensures r == x || r == -x
  {
    if x < 0 then -x else x
  }

  /** `isSameColor`: both squares hold something and their letters have the same case. */
  predicate IsSameColor(p1: char, p2: char) {
    if p1 == Empty || p2 == Empty then false
    else (IsUpperCase(p1) && IsUpperCase(p2)) || (IsLowerCase(p1) && IsLowerCase(p2))
  }

  /** Start and end lie on one rank, one file or one diagonal. */
  predicate Aligned(s: Square, e: Square) {
    s.row == e.row || s.col == e.col || Abs(e.row - s.row) == Abs(e.col - s.col)
  }

  /** Number of single steps from `s` to `e` along their common line. */
  function Dist(s: Square, e: Square): nat {
    var dr, dc := Abs(e.row - s.row), Abs(e.col - s.col);
    if dr < dc then dc else dr
  }

  /** The distance covered by `k` steps of size 1 in the direction of `d`. */
  function Offset(d: int, k: int): int {
    if d > 0 then k else if d < 0 then -k else 0
  }

  /** The square reached after `k` steps from `s` towards `e`. */
  function Along(s: Square, e: Square, k: int): (q: Square)
    requires OnBoard(s) && OnBoard(e) && Aligned(s, e) && 0 <= k <= Dist(s, e)
    ensures OnBoard(q)
    ensures q == e <==> k == Dist(s, e)
    ensures k == 0 ==> q == s
  {
    Square(s.row + Offset(e.row - s.row, k), s.col + Offset(e.col - s.col, k))
  }

  /** Every square strictly between `s` and `e` is empty. */
  predicate PathClear(b: Grid, s: Square, e: Square)
    requires IsGrid(b) && OnBoard(s) && OnBoard(e) && Aligned(s, e)
  {
    forall k :: 0 < k < Dist(s, e) ==> At(b, Along(s, e, k)) == Empty
  }

  predicate RookMove(b: Grid, s: Square, e: Square)
    requires IsGrid(b) && OnBoard(s) && OnBoard(e)
  {
    (s.row == e.row || s.col == e.col) && PathClear(b, s, e)
  }

  predicate BishopMove(b: Grid, s: Square, e: Square)
    requires IsGrid(b) && OnBoard(s) && OnBoard(e)
  {
    Abs(s.row - e.row) == Abs(s.col - e.col) && PathClear(b, s, e)
  }

  predicate QueenMove(b: Grid, s: Square, e: Square)
    requires IsGrid(b) && OnBoard(s) && OnBoard(e)
  {
    (s.row == e.row || s.col == e.col || Abs(s.row - e.row) == Abs(s.col - e.col))
    && PathClear(b, s, e)
  }

  predicate KnightMove(s: Square, e: Square) {
    var dx, dy := Abs(s.row - e.row), Abs(s.col - e.col);
    (dx == 2 && dy == 1) || (dx == 1 && dy == 2)
  }

  predicate KingMove(s: Square, e: Square) {
    Abs(s.row - e.row) <= 1 && Abs(s.col - e.col) <= 1
  }

  /** Black pawns (upper case) advance towards row 7, white pawns towards row 0. */
  function PawnDirection(piece: char): (d: int)
    ensures d == 1 || d == -1
    ensures d == 1 <==> IsUpperCase(piece)
    ensures piece == 'P' ==> d == 1
    ensures piece == 'p' ==> d == -1
  {
    if IsUpperCase(piece) then 1 else -1
  }

  predicate PawnMove(b: Grid, s: Square, e: Square, piece: char)
    requires IsGrid(b) && OnBoard(s) && OnBoard(e)
  {
    var dir := PawnDirection(piece);
    if e.row == s.row + dir && Abs(e.col - s.col) == 1 then true
    else if e.col == s.col && e.row == s.row + dir && At(b, e) == Empty then true
    else
      e.col == s.col
      && ((piece == 'P' && s.row == 1) || (piece == 'p' && s.row == 6))
      && e.row == s.row + 2 * dir
      && At(b, Square(s.row + dir, s.col)) == Empty
      && At(b, e) == Empty
  }

  /** `validateMovementOnBoard(board, start, end, piece)`. */
  predicate ValidMove(b: Grid, s: Square, e: Square, piece: char)
    requires IsGrid(b) && OnBoard(s) && OnBoard(e)
  {
    if At(b, e) != Empty && IsSameColor(piece, At(b, e)) then false
    else
      match ToUpper(piece)
      case 'R' => RookMove(b, s, e)
      case 'N' => KnightMove(s, e)
      case 'B' => BishopMove(b, s, e)
      case 'Q' => QueenMove(b, s, e)
      case 'K' => KingMove(s, e)
      case 'P' => PawnMove(b, s, e, piece)
      case _ => false
  }

  /** `validatePathIsClearOnBoard`: steps from `s` towards `e` one square at a
      time and fails at the first occupied square before `e`. */
  method PathIsClearOnBoard(b: Grid, s: Square, e: Square) returns (clear: bool)
    requires IsGrid(b) && OnBoard(s) && OnBoard(e) && Aligned(s, e)
    ensures clear == PathClear(b, s, e)
  {
    var dx, dy := e.row - s.row, e.col - s.col;
    var xStep := if dx == 0 then 0 else if dx > 0 then 1 else -1;
    var yStep := if dy == 0 then 0 else if dy > 0 then 1 else -1;
    var x, y := s.row + xStep, s.col + yStep;
    ghost var k := 1;
    while x != e.row || y != e.col
      invariant 1 <= k && (k <= Dist(s, e) || (Dist(s, e) == 0 && k == 1))
      invariant x == s.row + Offset(dx, k) && y == s.col + Offset(dy, k)
      invariant forall j :: 0 < j < k ==> At(b, Along(s, e, j)) == Empty
      decreases Dist(s, e) - k
    {
      assert Square(x, y) == Along(s, e, k);
      if b[x][y] != Empty {
        return false;
      }
      x, y, k := x + xStep, y + yStep, k + 1;
    }
    assert Dist(s, e) != 0 ==> Along(s, e, k) == e;
    return true;
  }

  /** `validateMovementOnBoard` with its per-piece helpers. */
  method ValidateMovementOnBoard(b: Grid, s: Square, e: Square, piece: char) returns (ok: bool)
    requires IsGrid(b) && OnBoard(s) && OnBoard(e)
    ensures ok == ValidMove(b, s, e, piece)
  {
    if b[e.row][e.col] != Empty && IsSameColor(piece, b[e.row][e.col]) {
      return false;
    }
    var kind := ToUpper(piece);
    if kind == 'R' {
      ok := s.row == e.row || s.col == e.col;
      if ok { ok := PathIsClearOnBoard(b, s, e); }
    } else if kind == 'N' {
      var dx, dy := Abs(s.row - e.row), Abs(s.col - e.col);
      ok := (dx == 2 && dy == 1) || (dx == 1 && dy == 2);
    } else if kind == 'B' {
      ok := Abs(s.row - e.row) == Abs(s.col - e.col);
      if ok { ok := PathIsClearOnBoard(b, s, e); }
    } else if kind == 'Q' {
      ok := s.row == e.row || s.col == e.col || Abs(s.row - e.row) == Abs(s.col - e.col);
      if ok { ok := PathIsClearOnBoard(b, s, e); }
    } else if kind == 'K' {
      ok := Abs(s.row - e.row) <= 1 && Abs(s.col - e.col) <= 1;
    } else if kind == 'P' {
      ok := PawnMove(b, s, e, piece);
    } else {
      ok := false;
    }
  }

  // ----- Properties of the validator -----

  /** `isSameColor` on two piece letters: both black (upper case) or both white
      (lower case). It is symmetric, and an empty square matches nothing. */
  lemma SameColorOnLetters(p1: char, p2: char)
    ensures IsSameColor(p1, p2) == IsSameColor(p2, p1)
    ensures !IsSameColor(p1, Empty) && !IsSameColor(Empty, p2)
    ensures IsPieceChar(p1) && IsPieceChar(p2) ==>
              (IsSameColor(p1, p2) <==> (IsUpperCase(p1) <==> IsUpperCase(p2)))
  {
  }

  /** A destination holding a piece of the mover's case is always refused. */
  lemma SameColorDestinationRefused(b: Grid, s: Square, e: Square, piece: char)
    requires IsGrid(b) && OnBoard(s) && OnBoard(e)
    requires IsPieceChar(piece) && IsPieceChar(At(b, e))
    requires IsUpperCase(piece) == IsUpperCase(At(b, e))
    ensures !ValidMove(b, s, e, piece)
  {
  }

  /** The destination is not blocked by a piece of the mover's own colour. */
  predicate EndOpen(b: Grid, e: Square, piece: char)
    requires IsGrid(b) && OnBoard(e)
  {
    !(At(b, e) != Empty && IsSameColor(piece, At(b, e)))
  }

  /** A knight is accepted exactly on the (2,1) and (1,2) offsets. */
  lemma KnightGeometry(b: Grid, s: Square, e: Square, piece: char)
    requires IsGrid(b) && OnBoard(s) && OnBoard(e) && (piece == 'n' || piece == 'N')
    ensures ValidMove(b, s, e, piece) <==>
      EndOpen(b, e, piece)
      && ((Abs(e.row - s.row) == 2 && Abs(e.col - s.col) == 1)
          || (Abs(e.row - s.row) == 1 && Abs(e.col - s.col) == 2))
  {
  }

  /** A king is accepted exactly on the eight neighbouring squares (and on its own
      square, which always holds its own colour and is refused). */
  lemma KingGeometry(b: Grid, s: Square, e: Square, piece: char)
    requires IsGrid(b) && OnBoard(s) && OnBoard(e) && (piece == 'k' || piece == 'K')
    ensures ValidMove(b, s, e, piece) <==>
      EndOpen(b, e, piece) && Abs(e.row - s.row) <= 1 && Abs(e.col - s.col) <= 1
  {
  }

  /** Knight and king moves never look at any square but the destination. */
  lemma LeapersIgnoreOtherSquares(b1: Grid, b2: Grid, s: Square, e: Square, piece: char)
    requires IsGrid(b1) && IsGrid(b2) && OnBoard(s) && OnBoard(e)
    requires ToUpper(piece) == 'N' || ToUpper(piece) == 'K'
    requires At(b1, e) == At(b2, e)
    ensures ValidMove(b1, s, e, piece) == ValidMove(b2, s, e, piece)
  {
  }

  /** Rook, bishop and queen: the line the piece needs, an open destination, and
      every square strictly between start and end empty. */
  lemma SliderGeometry(b: Grid, s: Square, e: Square, piece: char)
    requires IsGrid(b) && OnBoard(s) && OnBoard(e)
    requires ToUpper(piece) == 'R' || ToUpper(piece) == 'B' || ToUpper(piece) == 'Q'
    ensures ValidMove(b, s, e, piece) <==>
      EndOpen(b, e, piece)
      && (if ToUpper(piece) == 'R' then s.row == e.row || s.col == e.col
          else if ToUpper(piece) == 'B' then Abs(e.row - s.row) == Abs(e.col - s.col)
          else Aligned(s, e))
      && Aligned(s, e)
      && forall k :: 0 < k < Dist(s, e) ==> At(b, Along(s, e, k)) == Empty
  {
  }

  /** One occupied square between start and end refuses a sliding move,
      whatever stands on the destination. */
  lemma SliderBlocked(b: Grid, s: Square, e: Square, piece: char, k: int)
    requires IsGrid(b) && OnBoard(s) && OnBoard(e) && Aligned(s, e)
    requires ToUpper(piece) == 'R' || ToUpper(piece) == 'B' || ToUpper(piece) == 'Q'
    requires 0 < k < Dist(s, e) && At(b, Along(s, e, k)) != Empty
    ensures !ValidMove(b, s, e, piece)
  {
  }

  /** Every square the path walk inspects is on the board and on the line from
      `s` to `e`, strictly before `e`. */
  lemma PathWalkStaysOnLine(s: Square, e: Square, k: int)
    requires OnBoard(s) && OnBoard(e) && Aligned(s, e) && 0 < k < Dist(s, e)
    ensures OnBoard(Along(s, e, k)) && Along(s, e, k) != s && Along(s, e, k) != e
    ensures Aligned(s, Along(s, e, k)) && Aligned(Along(s, e, k), e)
    ensures Dist(s, Along(s, e, k)) == k && Dist(Along(s, e, k), e) == Dist(s, e) - k
  {
  }

  /** Pawns: one diagonal step forward is always accepted, one straight step only
      onto an empty square, two straight steps only from the home row through two
      empty squares; nothing else. */
  lemma PawnGeometry(b: Grid, s: Square, e: Square, piece: char)
    requires IsGrid(b) && OnBoard(s) && OnBoard(e) && (piece == 'p' || piece == 'P')
    ensures var dir := if piece == 'P' then 1 else -1;
      ValidMove(b, s, e, piece) <==>
        EndOpen(b, e, piece)
        && ((e.row == s.row + dir && Abs(e.col - s.col) == 1)
            || (e.row == s.row + dir && e.col == s.col && At(b, e) == Empty)
            || (e.row == s.row + 2 * dir && e.col == s.col
                && s.row == (if piece == 'P' then 1 else 6)
                && At(b, Square(s.row + dir, s.col)) == Empty && At(b, e) == Empty))
  {
  }

  /** Two boards with the same empty squares. */
  ghost predicate SameOccupancy(b1: Grid, b2: Grid)
    requires IsGrid(b1) && IsGrid(b2)
  {
    forall q :: OnBoard(q) ==> (At(b1, q) == Empty <==> At(b2, q) == Empty)
  }

  /** The validator reads the destination's content and, elsewhere, only whether
      squares are empty. */
  lemma ValidMoveDependsOnOccupancy(b1: Grid, b2: Grid, s: Square, e: Square, piece: char)
    requires IsGrid(b1) && IsGrid(b2) && OnBoard(s) && OnBoard(e)
    requires SameOccupancy(b1, b2) && At(b1, e) == At(b2, e)
    ensures ValidMove(b1, s, e, piece) == ValidMove(b2, s, e, piece)
  {
    if Aligned(s, e) {
      assert PathClear(b1, s, e) == PathClear(b2, s, e) by {
        forall k | 0 < k < Dist(s, e)
          ensures (At(b1, Along(s, e, k)) == Empty) == (At(b2, Along(s, e, k)) == Empty)
        {
          assert OnBoard(Along(s, e, k));
        }
      }
    }
    if PawnDirection(piece) == 1 && s.row + 1 < 8 {
      assert OnBoard(Square(s.row + 1, s.col)) ==> (At(b1, Square(s.row + 1, s.col)) == Empty <==> At(b2, Square(s.row + 1, s.col)) == Empty);
    }
    if PawnDirection(piece) == -1 && s.row - 1 >= 0 {
      assert OnBoard(Square(s.row - 1, s.col)) ==> (At(b1, Square(s.row - 1, s.col)) == Empty <==> At(b2, Square(s.row - 1, s.col)) == Empty);
    }
  }
}
