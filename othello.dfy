/** Boards, stone counts, legal-move scans and the Othello engine's primitives,
    as the tournament harness and the reference strategies use them. */
module Othello {
  import opened Wrappers

  /** A board: rows of cell codes, read as board[y][x]. */
  type Board = seq<seq<int>>

  const EMPTY := 0
  const BLACK := 1
  const WHITE := 2

  /** The other colour, written `3 - stone` throughout the source. */
  function Opponent(stone: int): int { 3 - stone }

  /** len(board[0]): the width every scan of the source uses for all rows. */
  function Width(b: Board): nat { if |b| == 0 then 0 else |b[0]| }

  /** Every row as wide as the first one. */
  predicate Rect(b: Board) { forall y :: 0 <= y < |b| ==> |b[y]| == Width(b) }

  /** Every row reaches the width the scans use, so board[y][x] is defined
      on every cell they visit. */
  predicate Wide(b: Board) { forall y :: 0 <= y < |b| ==> Width(b) <= |b[y]| }

  /** The cells the scans of the source visit. */
  predicate InGrid(b: Board, x: int, y: int) { 0 <= y < |b| && 0 <= x < Width(b) }

  /** The row lengths of a board. */
  function Shape(b: Board): seq<nat> { seq(|b|, y requires 0 <= y < |b| => |b[y]|) }

  /** row.count(stone) */
  function RowCount(row: seq<int>, stone: int): nat
  {
    if |row| == 0 then 0
    else RowCount(row[..|row| - 1], stone) + (if row[|row| - 1] == stone then 1 else 0)
  }

  /** count_stones(board, stone): the sum of row.count(stone) over the rows. */
  function CountStones(b: Board, stone: int): nat
  {
    if |b| == 0 then 0 else CountStones(b[..|b| - 1], stone) + RowCount(b[|b| - 1], stone)
  }

  /** All cells, row after row. */
  function Flatten(b: Board): seq<int>
  {
    if |b| == 0 then [] else Flatten(b[..|b| - 1]) + b[|b| - 1]
  }

  lemma {:induction false} RowCountIsOccurrences(row: seq<int>, stone: int)
    ensures RowCount(row, stone) == multiset(row)[stone]
  {
    if |row| > 0 {
      RowCountIsOccurrences(row[..|row| - 1], stone);
      assert row == row[..|row| - 1] + [row[|row| - 1]];
    }
  }

  /** The stone count is the number of cells holding that stone. */
  lemma {:induction false} CountStonesIsOccurrences(b: Board, stone: int)
    ensures CountStones(b, stone) == multiset(Flatten(b))[stone]
  {
    if |b| > 0 {
      CountStonesIsOccurrences(b[..|b| - 1], stone);
      RowCountIsOccurrences(b[|b| - 1], stone);
    }
  }

  /** The engine's primitives, which this model takes as given:
      can_place_x_y(board, stone, x, y), can_place(board, stone) and
      move_stone(board, stone, x, y), the last returning the updated board. */
  datatype Engine = Engine(
    canPlaceXY: (Board, int, int, int) -> bool,
    canPlace: (Board, int) -> bool,
    moveStone: (Board, int, int, int) -> Board)

  /** A move the engine accepts fills at least one empty cell. */
  ghost predicate FillsACell(e: Engine)
  {
    forall b, s, x, y :: e.canPlaceXY(b, s, x, y) ==>
      CountStones(e.moveStone(b, s, x, y), EMPTY) < CountStones(b, EMPTY)
  }

  /** A move the engine accepts changes cells, never the board's dimensions. */
  ghost predicate KeepsShape(e: Engine)
  {
    forall b, s, x, y :: e.canPlaceXY(b, s, x, y) ==> Shape(e.moveStone(b, s, x, y)) == Shape(b)
  }

  /** What safe_place(ai, copy(board), stone) gives back to a match loop:
      an exception, or a pair whose components may be None. */
  datatype Reply = Raised | Returned(x: Option<int>, y: Option<int>)

  /** A strategy as a match loop calls it through safe_place. */
  type Player = (Board, int) -> Reply

  /** A stone placed by move_stone. */
  datatype Move = Move(stone: int, x: int, y: int)

  /** Applies the moves in order; None as soon as one is not accepted by can_place_x_y. */
  function Replay(e: Engine, b: Board, moves: seq<Move>): Option<Board>
    decreases |moves|
  {
    if |moves| == 0 then Some(b)
    else if e.canPlaceXY(b, moves[0].stone, moves[0].x, moves[0].y)
    then Replay(e, e.moveStone(b, moves[0].stone, moves[0].x, moves[0].y), moves[1..])
    else None
  }

  /** Row-major order on (x, y) cells: the row first, then the column. */
  predicate Before(p: (int, int), q: (int, int))
  {
    p.1 < q.1 || (p.1 == q.1 && p.0 < q.0)
  }

  predicate RowMajor(s: seq<(int, int)>)
  {
    forall i, j :: 0 <= i < j < |s| ==> Before(s[i], s[j])
  }

  /** A cell the scans visit and the engine accepts for `stone`. */
  predicate Legal(e: Engine, b: Board, stone: int, p: (int, int))
  {
    InGrid(b, p.0, p.1) && e.canPlaceXY(b, stone, p.0, p.1)
  }

  /** The accepted cells (x, y) of row y with x < n, left to right. */
  function RowMoves(e: Engine, b: Board, stone: int, y: int, n: nat): (r: seq<(int, int)>)
    ensures forall p :: p in r <==> p.1 == y && 0 <= p.0 < n && e.canPlaceXY(b, stone, p.0, p.1)
    ensures forall i :: 0 <= i < |r| ==> r[i].1 == y
    ensures RowMajor(r)
  {
    if n == 0 then []
    else RowMoves(e, b, stone, y, n - 1) + (if e.canPlaceXY(b, stone, n - 1, y) then [(n - 1, y)] else [])
  }

  /** The accepted cells of the first m rows, in row-major order. */
  function MovesUpTo(e: Engine, b: Board, stone: int, m: nat): (r: seq<(int, int)>)
    requires m <= |b|
    ensures forall p :: p in r <==> 0 <= p.1 < m && 0 <= p.0 < Width(b) && e.canPlaceXY(b, stone, p.0, p.1)
    ensures forall i :: 0 <= i < |r| ==> 0 <= r[i].1 < m
    ensures RowMajor(r)
  {
    if m == 0 then []
    else
      var front := MovesUpTo(e, b, stone, m - 1);
      var last := RowMoves(e, b, stone, m - 1, Width(b));
      assert forall i, j :: 0 <= i < |front| && 0 <= j < |last| ==> Before(front[i], last[j]);
      front + last
  }

  /** In a row-major list, a cell listed before another is listed earlier. */
  lemma RowMajorIndex(s: seq<(int, int)>, i: nat, j: nat)
    requires RowMajor(s) && i < |s| && j < |s|
    requires Before(s[j], s[i])
    ensures j < i
  {
  }

  /** get_valid_moves(board, stone) as a value. */
  function LegalMoves(e: Engine, b: Board, stone: int): (r: seq<(int, int)>)
    ensures forall p :: p in r <==> Legal(e, b, stone, p)
    ensures RowMajor(r)
  {
    MovesUpTo(e, b, stone, |b|)
  }

  /** The position of a legal cell in the list of legal moves. */
  lemma LegalIndex(e: Engine, b: Board, stone: int, x: int, y: int) returns (j: nat)
    requires Legal(e, b, stone, (x, y))
    ensures j < |LegalMoves(e, b, stone)| && LegalMoves(e, b, stone)[j] == (x, y)
  {
    var moves := LegalMoves(e, b, stone);
    assert (x, y) in moves;
    j :| 0 <= j < |moves| && moves[j] == (x, y);
  }

  /** Every listed move is legal. */
  lemma LegalAt(e: Engine, b: Board, stone: int, k: nat)
    requires k < |LegalMoves(e, b, stone)|
    ensures Legal(e, b, stone, LegalMoves(e, b, stone)[k])
  {
    assert LegalMoves(e, b, stone)[k] in LegalMoves(e, b, stone);
  }

  /** The inner loop of get_valid_moves: row y, left to right. */
  method ScanRow(e: Engine, b: Board, stone: int, y: int, moves: seq<(int, int)>) returns (moves': seq<(int, int)>)
    ensures moves' == moves + RowMoves(e, b, stone, y, Width(b))
  {
    moves' := moves;
    var x := 0;
    while x < Width(b)
      invariant 0 <= x <= Width(b)
      invariant moves' == moves + RowMoves(e, b, stone, y, x)
    {
      if e.canPlaceXY(b, stone, x, y) {
        moves' := moves' + [(x, y)];
      }
      x := x + 1;
    }
    assert x == Width(b);
  }

  /** get_valid_moves (ai/corner_ai.py; ai/lookahead_ai.py and test_AI.py hold
      the same code): every accepted cell, each once, in row-major order. */
  method ScanValidMoves(e: Engine, b: Board, stone: int) returns (moves: seq<(int, int)>)
    ensures moves == LegalMoves(e, b, stone)
  {
    moves := [];
    var y := 0;
    while y < |b|
      invariant 0 <= y <= |b|
      invariant moves == MovesUpTo(e, b, stone, y)
    {
      moves := ScanRow(e, b, stone, y, moves);
      y := y + 1;
    }
    assert y == |b|;
  }
}
