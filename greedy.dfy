/** The greedy reference strategy (ai/greedy_ai.py): count the stones a move
    would turn, direction by direction, and play the first cell in row-major
    order that turns the most. */
module Greedy {
  import opened Wrappers
  import opened Othello
  import Select

  /** The eight directions of count_flips, in its order. */
  const Directions: seq<(int, int)> :=
    [(-1, -1), (-1, 0), (-1, 1), (0, -1), (0, 1), (1, -1), (1, 0), (1, 1)]

  /** A step of one cell in some direction. */
  predicate UnitStep(dx: int, dy: int)
  {
    -1 <= dx <= 1 && -1 <= dy <= 1 && (dx != 0 || dy != 0)
  }

  lemma DirectionsAreUnitSteps()
    ensures forall d :: 0 <= d < |Directions| ==> UnitStep(Directions[d].0, Directions[d].1)
  {
  }

  /** The coordinate `i` unit steps from `x` in direction `dx`: x + i * dx. */
  function Along(x: int, dx: int, i: int): int
  {
    if dx > 0 then x + i else if dx < 0 then x - i else x
  }

  /** Cells left before a walk from (x, y) in direction (dx, dy) leaves the
      grid; it goes down at every step taken on the grid. */
  function Reach(b: Board, x: int, y: int, dx: int, dy: int): int
  {
    (if dx > 0 then Width(b) - x else if dx < 0 then x + 1 else 0) +
    (if dy > 0 then |b| - y else if dy < 0 then y + 1 else 0)
  }

  /** Cell (x, y) is on the grid and holds `v`. */
  predicate Holds(b: Board, x: int, y: int, v: int)
    requires Wide(b)
  {
    InGrid(b, x, y) && b[y][x] == v
  }

  /** How many cells in a row, from the i-th step on, hold `opp`. */
  function Run(b: Board, opp: int, x: int, y: int, dx: int, dy: int, i: nat): nat
    requires Wide(b) && UnitStep(dx, dy)
    decreases Reach(b, Along(x, dx, i), Along(y, dy, i), dx, dy)
  {
    if Holds(b, Along(x, dx, i), Along(y, dy, i), opp) then 1 + Run(b, opp, x, y, dx, dy, i + 1) else 0
  }

  /** The stones turned in one direction: the run of opponent stones next to
      (x, y), when it is not empty and the mover's own stone closes it. */
  function DirFlips(b: Board, stone: int, x: int, y: int, dx: int, dy: int): nat
    requires Wide(b) && UnitStep(dx, dy)
  {
    var k := Run(b, 3 - stone, x, y, dx, dy, 1);
    if k > 0 && Holds(b, Along(x, dx, k + 1), Along(y, dy, k + 1), stone) then k else 0
  }

  /** The stones turned in the first n directions. */
  function DirSum(b: Board, stone: int, x: int, y: int, n: nat): nat
    requires Wide(b) && n <= |Directions|
  {
    if n == 0 then 0
    else
      DirectionsAreUnitSteps();
      DirSum(b, stone, x, y, n - 1) + DirFlips(b, stone, x, y, Directions[n - 1].0, Directions[n - 1].1)
  }

  /** count_flips(board, stone, x, y) as a value. */
  function Flips(e: Engine, b: Board, stone: int, x: int, y: int): nat
    requires Wide(b)
  {
    if !e.canPlaceXY(b, stone, x, y) then 0 else DirSum(b, stone, x, y, |Directions|)
  }

  /** The k cells after (x, y) in direction (dx, dy) hold the opponent's
      stones and the next one the mover's: a move at (x, y) brackets them. */
  predicate Brackets(b: Board, stone: int, x: int, y: int, dx: int, dy: int, k: nat)
    requires Wide(b)
  {
    (forall i :: 1 <= i <= k ==> Holds(b, Along(x, dx, i), Along(y, dy, i), 3 - stone)) &&
    Holds(b, Along(x, dx, k + 1), Along(y, dy, k + 1), stone)
  }

  /** A run holds `opp` on every cell it counts and stops at the first cell
      that does not. */
  lemma {:induction false} RunCells(b: Board, opp: int, x: int, y: int, dx: int, dy: int, i: nat)
    requires Wide(b) && UnitStep(dx, dy)
    ensures var k := Run(b, opp, x, y, dx, dy, i);
      (forall j :: i <= j < i + k ==> Holds(b, Along(x, dx, j), Along(y, dy, j), opp)) &&
      !Holds(b, Along(x, dx, i + k), Along(y, dy, i + k), opp)
    decreases Reach(b, Along(x, dx, i), Along(y, dy, i), dx, dy)
  {
    if Holds(b, Along(x, dx, i), Along(y, dy, i), opp) {
      RunCells(b, opp, x, y, dx, dy, i + 1);
    }
  }

  /** One direction turns exactly k > 0 stones when, and only when, the k
      cells next to the move are bracketed by the mover's stone. */
  lemma DirFlipsBrackets(b: Board, stone: int, x: int, y: int, dx: int, dy: int, k: nat)
    requires Wide(b) && UnitStep(dx, dy) && k > 0
    ensures DirFlips(b, stone, x, y, dx, dy) == k <==> Brackets(b, stone, x, y, dx, dy, k)
  {
    var r := Run(b, 3 - stone, x, y, dx, dy, 1);
    RunCells(b, 3 - stone, x, y, dx, dy, 1);
  }

  /** The while loop of count_flips: walks from the cell next to (x, y) over
      the opponent's stones and stops on the first cell that is not one. */
  method CountRun(b: Board, opponent: int, x: int, y: int, dx: int, dy: int)
    returns (tempCount: nat, nx: int, ny: int)
    requires |b| > 0 && Wide(b) && UnitStep(dx, dy)
    ensures tempCount == Run(b, opponent, x, y, dx, dy, 1)
    ensures nx == Along(x, dx, tempCount + 1) && ny == Along(y, dy, tempCount + 1)
  {
    nx, ny := x + dx, y + dy;
    tempCount := 0;
    while 0 <= nx < Width(b) && 0 <= ny < |b| && b[ny][nx] == opponent
      invariant nx == Along(x, dx, tempCount + 1) && ny == Along(y, dy, tempCount + 1)
      invariant Run(b, opponent, x, y, dx, dy, 1) == tempCount + Run(b, opponent, x, y, dx, dy, tempCount + 1)
      decreases Reach(b, nx, ny, dx, dy)
    {
      assert Holds(b, Along(x, dx, tempCount + 1), Along(y, dy, tempCount + 1), opponent);
      tempCount := tempCount + 1;
      nx, ny := nx + dx, ny + dy;
    }
    assert !Holds(b, Along(x, dx, tempCount + 1), Along(y, dy, tempCount + 1), opponent);
  }

  /** count_flips: 0 where can_place_x_y refuses the cell, otherwise the sum
      over the eight directions of the stones bracketed there. */
  method CountFlips(e: Engine, b: Board, stone: int, x: int, y: int) returns (flipCount: nat)
    requires |b| > 0 && Wide(b)
    ensures flipCount == Flips(e, b, stone, x, y)
  {
    if !e.canPlaceXY(b, stone, x, y) {
      return 0;
    }
    var opponent := 3 - stone;
    flipCount := 0;
    DirectionsAreUnitSteps();
    for d := 0 to |Directions|
      invariant flipCount == DirSum(b, stone, x, y, d)
    {
      var dx, dy := Directions[d].0, Directions[d].1;
      var tempCount, nx, ny := CountRun(b, opponent, x, y, dx, dy);
      if tempCount > 0 && 0 <= nx < Width(b) && 0 <= ny < |b| && b[ny][nx] == stone {
        flipCount := flipCount + tempCount;
      }
    }
  }

  /** max_flips starts at -1 and best_move at None. */
  const Start := Select.Lead(None, Some(-1))

  /** The flip counts of the listed cells. */
  function FlipCounts(e: Engine, b: Board, stone: int, moves: seq<(int, int)>): (r: seq<int>)
    requires Wide(b)
    ensures |r| == |moves|
    ensures forall i :: 0 <= i < |moves| ==> r[i] == Flips(e, b, stone, moves[i].0, moves[i].1)
  {
    if |moves| == 0 then []
    else
      var last := moves[|moves| - 1];
      FlipCounts(e, b, stone, moves[..|moves| - 1]) + [Flips(e, b, stone, last.0, last.1)]
  }

  /** greedy_place(board, stone) as a value: the first cell of the legal
      moves, in row-major order, with the largest flip count. */
  function GreedyChoice(e: Engine, b: Board, stone: int): Option<(int, int)>
    requires Wide(b)
  {
    var moves := LegalMoves(e, b, stone);
    Select.Pick(moves, Select.Scan(FlipCounts(e, b, stone, moves), Start).index)
  }

  /** best_move and max_flips are what the scan keeps over the cells seen. */
  ghost predicate Leading(e: Engine, b: Board, stone: int, seen: seq<(int, int)>, best: Option<(int, int)>, maxFlips: int)
    requires Wide(b)
  {
    var l := Select.Scan(FlipCounts(e, b, stone, seen), Start);
    l.score == Some(maxFlips) && best == Select.Pick(seen, l.index)
  }

  lemma LeadingStep(e: Engine, b: Board, stone: int, seen: seq<(int, int)>, best: Option<(int, int)>, maxFlips: int, x: int, y: int)
    requires Wide(b) && Leading(e, b, stone, seen, best, maxFlips)
    ensures var f := Flips(e, b, stone, x, y);
      Leading(e, b, stone, seen + [(x, y)],
        if f > maxFlips then Some((x, y)) else best, if f > maxFlips then f else maxFlips)
  {
    var vals := FlipCounts(e, b, stone, seen);
    assert (seen + [(x, y)])[..|seen|] == seen;
    assert FlipCounts(e, b, stone, seen + [(x, y)]) == vals + [Flips(e, b, stone, x, y)];
    Select.ScanAppend(seen, vals, (x, y), Flips(e, b, stone, x, y), Start);
  }

  /** The body of greedy_place's inner loop, at cell (x, y). */
  method GreedyCell(e: Engine, b: Board, stone: int, x: int, y: int, ghost seen: seq<(int, int)>,
                    best: Option<(int, int)>, maxFlips: int)
    returns (best': Option<(int, int)>, maxFlips': int)
    requires |b| > 0 && Wide(b)
    requires Leading(e, b, stone, seen, best, maxFlips)
    ensures Leading(e, b, stone, seen + (if e.canPlaceXY(b, stone, x, y) then [(x, y)] else []), best', maxFlips')
  {
    best', maxFlips' := best, maxFlips;
    if e.canPlaceXY(b, stone, x, y) {
      var flips := CountFlips(e, b, stone, x, y);
      LeadingStep(e, b, stone, seen, best, maxFlips, x, y);
      if flips > maxFlips {
        maxFlips' := flips;
        best' := Some((x, y));
      }
    } else {
      assert seen + [] == seen;
    }
  }

  lemma RowMovesNext(e: Engine, b: Board, stone: int, y: int, x: nat, seen: seq<(int, int)>)
    ensures seen + RowMoves(e, b, stone, y, x + 1) ==
      seen + RowMoves(e, b, stone, y, x) + (if e.canPlaceXY(b, stone, x, y) then [(x, y)] else [])
  {
  }

  /** The inner loop of greedy_place: row y, left to right. */
  method GreedyRow(e: Engine, b: Board, stone: int, y: int, ghost seen: seq<(int, int)>,
                   best: Option<(int, int)>, maxFlips: int)
    returns (best': Option<(int, int)>, maxFlips': int)
    requires |b| > 0 && Wide(b)
    requires Leading(e, b, stone, seen, best, maxFlips)
    ensures Leading(e, b, stone, seen + RowMoves(e, b, stone, y, Width(b)), best', maxFlips')
  {
    best', maxFlips' := best, maxFlips;
    var x := 0;
    assert seen + RowMoves(e, b, stone, y, 0) == seen;
    while x < Width(b)
      invariant 0 <= x <= Width(b)
      invariant Leading(e, b, stone, seen + RowMoves(e, b, stone, y, x), best', maxFlips')
    {
      best', maxFlips' := GreedyCell(e, b, stone, x, y, seen + RowMoves(e, b, stone, y, x), best', maxFlips');
      RowMovesNext(e, b, stone, y, x, seen);
      x := x + 1;
    }
    assert x == Width(b);
  }

  /** greedy_place: scans every cell and keeps the first one with the most
      flips. */
  method GreedyPlace(e: Engine, b: Board, stone: int) returns (bestMove: Option<(int, int)>)
    requires Wide(b)
    ensures bestMove == GreedyChoice(e, b, stone)
  {
    bestMove := None;
    var maxFlips := -1;
    var y := 0;
    while y < |b|
      invariant 0 <= y <= |b|
      invariant Leading(e, b, stone, MovesUpTo(e, b, stone, y), bestMove, maxFlips)
    {
      bestMove, maxFlips := GreedyRow(e, b, stone, y, MovesUpTo(e, b, stone, y), bestMove, maxFlips);
      assert MovesUpTo(e, b, stone, y + 1) == MovesUpTo(e, b, stone, y) + RowMoves(e, b, stone, y, Width(b));
      y := y + 1;
    }
    assert y == |b|;
  }

  /** greedy_place returns None exactly when no cell is a legal move. */
  lemma GreedyChoiceNone(e: Engine, b: Board, stone: int)
    requires Wide(b)
    ensures GreedyChoice(e, b, stone).None? <==> forall x, y :: !Legal(e, b, stone, (x, y))
  {
    var moves := LegalMoves(e, b, stone);
    var vals := FlipCounts(e, b, stone, moves);
    Select.ScanFirstMax(vals, Start);
    if |moves| > 0 {
      assert Select.Beats(vals[0], Start.score);
      var p := moves[0];
      assert Legal(e, b, stone, (p.0, p.1));
    } else {
      forall x, y ensures !Legal(e, b, stone, (x, y)) {
        assert (x, y) !in moves;
      }
    }
  }

  /** A move greedy_place returns is legal, turns at least as many stones as
      any legal move, and more than every legal move before it in row-major
      order. */
  lemma GreedyChoiceBest(e: Engine, b: Board, stone: int)
    requires Wide(b)
    ensures var r := GreedyChoice(e, b, stone);
      r.Some? ==>
        Legal(e, b, stone, r.value) &&
        (forall x, y :: Legal(e, b, stone, (x, y)) ==> Flips(e, b, stone, x, y) <= Flips(e, b, stone, r.value.0, r.value.1)) &&
        (forall x, y :: Legal(e, b, stone, (x, y)) && Before((x, y), r.value) ==>
          Flips(e, b, stone, x, y) < Flips(e, b, stone, r.value.0, r.value.1))
  {
    var moves := LegalMoves(e, b, stone);
    var vals := FlipCounts(e, b, stone, moves);
    Select.ScanFirstMax(vals, Start);
    var r := GreedyChoice(e, b, stone);
    if r.Some? {
      var i := Select.Scan(vals, Start).index.value;
      var m := moves[i];
      assert r.value == m;
      assert m in moves;
      forall x, y | Legal(e, b, stone, (x, y))
        ensures Flips(e, b, stone, x, y) <= Flips(e, b, stone, m.0, m.1)
        ensures Before((x, y), m) ==> Flips(e, b, stone, x, y) < Flips(e, b, stone, m.0, m.1)
      {
        var j := LegalIndex(e, b, stone, x, y);
        assert vals[j] == Flips(e, b, stone, x, y);
        if Before((x, y), m) {
          RowMajorIndex(moves, i, j);
        }
      }
    }
  }
}
