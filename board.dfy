/** The 8x8 board of characters and the squares on it.
    Row 0 is black's back rank and row 7 is white's back rank; `'.'` marks an
    empty square, upper-case letters are black pieces and lower-case letters
    are white pieces. */
module ChessBoard {

  datatype Option<T> = None | Some(value: T)

  /** The two sides; the source keeps them as the strings 'white' and 'black'. */
  datatype Color = White | Black

  function Opponent(c: Color): (r: Color)
    ensures r != c
  {
    if c == White then Black else White
  }

  const Empty: char := '.'

  /** A square as the source's `[row, col]` pair. */
  datatype Square = Square(row: int, col: int)

  predicate OnBoard(q: Square) {
    0 <= q.row < 8 && 0 <= q.col < 8
  }

  type Grid = seq<seq<char>>

  predicate IsGrid(b: Grid) {
    |b| == 8 && forall r :: 0 <= r < 8 ==> |b[r]| == 8
  }

  function At(b: Grid, q: Square): char
    requires IsGrid(b) && OnBoard(q)
  {
    b[q.row][q.col]
  }

  /** The board with one cell overwritten; every other cell keeps its content. */
  function Put(b: Grid, q: Square, c: char): (r: Grid)
    requires IsGrid(b) && OnBoard(q)
    ensures IsGrid(r)
    ensures At(r, q) == c
    ensures forall p :: OnBoard(p) && p != q ==> At(r, p) == At(b, p)
  {
    b[q.row := b[q.row][q.col := c]]
  }

  /** JavaScript's `toUpperCase` and `toLowerCase`, restricted to ASCII letters. */
  function ToUpper(c: char): (r: char)
    ensures 'a' <= c <= 'z' ==> 'A' <= r <= 'Z' && r as int == c as int - 32
    ensures !('a' <= c <= 'z') ==> r == c
  {
    if 'a' <= c <= 'z' then (c as int - 32) as char else c
  }

  function ToLower(c: char): (r: char)
    ensures 'A' <= c <= 'Z' ==> 'a' <= r <= 'z' && r as int == c as int + 32
    ensures !('A' <= c <= 'Z') ==> r == c
  {
    if 'A' <= c <= 'Z' then (c as int + 32) as char else c
  }

  /** `p === p.toUpperCase()`: true of upper-case letters and of every non-letter. */
  predicate IsUpperCase(c: char) {
    c == ToUpper(c)
  }

  /** `p === p.toLowerCase()`: true of lower-case letters and of every non-letter. */
  predicate IsLowerCase(c: char) {
    c == ToLower(c)
  }

  /** The position `startGame` loads (gameController.js:19-30). */
  const StarterPosition: Grid := [
    ['R', 'N', 'B', 'Q', 'K', 'B', 'N', 'R'],
    ['P', 'P', 'P', 'P', 'P', 'P', 'P', 'P'],
    ['.', '.', '.', '.', '.', '.', '.', '.'],
    ['.', '.', '.', '.', '.', '.', '.', '.'],
    ['.', '.', '.', '.', '.', '.', '.', '.'],
    ['.', '.', '.', '.', '.', '.', '.', '.'],
    ['p', 'p', 'p', 'p', 'p', 'p', 'p', 'p'],
    ['r', 'n', 'b', 'q', 'k', 'b', 'n', 'r']
  ]

  /** One of the twelve piece letters. */
  predicate IsPieceChar(c: char) {
    c in "RNBQKPrnbqkp"
  }
}
