/** The submitted two-ply strategy (test_AI.py, myai): the search of
    ai/lookahead_ai.py with the stone-count evaluation replaced by a sum of
    position weights, taken from a 6x6 or an 8x8 table. */
module TestAI {
  import opened Wrappers
  import opened Othello
  import Select
  import TwoPly

  /** get_position_score_6x6() */
  const Table6: seq<seq<int>> := [
    [100, -20,  10,  10, -20, 100],
    [-20, -20,   5,   5, -20, -20],
    [ 10,   5,   1,   1,   5,  10],
    [ 10,   5,   1,   1,   5,  10],
    [-20, -20,   5,   5, -20, -20],
    [100, -20,  10,  10, -20, 100]
  ]

  /** get_position_score_8x8() */
  const Table8: seq<seq<int>> := [
    [100, -20,  10,   5,   5,  10, -20, 100],
    [-20, -20,  -5,  -5,  -5,  -5, -20, -20],
    [ 10,  -5,   5,   3,   3,   5,  -5,  10],
    [  5,  -5,   3,   1,   1,   3,  -5,   5],
    [  5,  -5,   3,   1,   1,   3,  -5,   5],
    [ 10,  -5,   5,   3,   3,   5,  -5,  10],
    [-20, -20,  -5,  -5,  -5,  -5, -20, -20],
    [100, -20,  10,   5,   5,  10, -20, 100]
  ]

  /** A table of n rows of n weights. */
  predicate Square(t: seq<seq<int>>, n: nat)
  {
    |t| == n && forall y :: 0 <= y < n ==> |t[y]| == n
  }

  /** Each row reads the same from both ends (a left-right mirror). */
  predicate MirrorRows(t: seq<seq<int>>, n: nat)
    requires Square(t, n)
  {
    forall y, x :: 0 <= y < n && 0 <= x < n ==> t[y][x] == t[y][n - 1 - x]
  }

  /** Row y equals row n - 1 - y (a top-bottom mirror). */
  predicate MirrorCols(t: seq<seq<int>>, n: nat)
    requires Square(t, n)
  {
    forall y :: 0 <= y < n ==> t[y] == t[n - 1 - y]
  }

  /** The table equals its transposition. */
  predicate Transposed(t: seq<seq<int>>, n: nat)
    requires Square(t, n)
  {
    forall y, x {:trigger t[y][x]} :: 0 <= y < n && 0 <= x < n ==> t[y][x] == t[x][y]
  }

  /** Every corner weighs 100, and no cell weighs more. */
  predicate CornersBest(t: seq<seq<int>>, n: nat)
    requires Square(t, n) && n > 0
  {
    t[0][0] == 100 && t[0][n - 1] == 100 && t[n - 1][0] == 100 && t[n - 1][n - 1] == 100 &&
    forall y, x :: 0 <= y < n && 0 <= x < n ==> t[y][x] <= 100
  }

  lemma Table6Square() ensures Square(Table6, 6) { }
  lemma Table8Square() ensures Square(Table8, 8) { }
  lemma Table6MirrorRows() ensures Square(Table6, 6) && MirrorRows(Table6, 6) { }
  lemma Table8MirrorRows() ensures Square(Table8, 8) && MirrorRows(Table8, 8) { }
  lemma Table6MirrorCols() ensures Square(Table6, 6) && MirrorCols(Table6, 6) { }
  lemma Table8MirrorCols() ensures Square(Table8, 8) && MirrorCols(Table8, 8) { }
  lemma Table6Transposed() ensures Square(Table6, 6) && Transposed(Table6, 6) { }
  lemma Table8Transposed() ensures Square(Table8, 8) && Transposed(Table8, 8) { }
  lemma Table6CornersBest() ensures Square(Table6, 6) && CornersBest(Table6, 6) { }
  lemma Table8CornersBest() ensures Square(Table8, 8) && CornersBest(Table8, 8) { }

  /** Both tables are square, have the symmetries of the square and weigh
      the corners most. */
  lemma TablesDesign()
    ensures Square(Table6, 6) && MirrorRows(Table6, 6) && MirrorCols(Table6, 6) && Transposed(Table6, 6) && CornersBest(Table6, 6)
    ensures Square(Table8, 8) && MirrorRows(Table8, 8) && MirrorCols(Table8, 8) && Transposed(Table8, 8) && CornersBest(Table8, 8)
  {
    Table6MirrorRows(); Table6MirrorCols(); Table6Transposed(); Table6CornersBest();
    Table8MirrorRows(); Table8MirrorCols(); Table8Transposed(); Table8CornersBest();
  }

  /** get_position_score(board): the 8x8 table for a board of 8 rows, the
      6x6 table for every other number of rows. */
  function PositionScore(b: Board): (t: seq<seq<int>>)
    ensures Square(t, |t|) && (|t| == 6 || |t| == 8)
    ensures |b| == 6 || |b| == 8 ==> |t| == |b|
    ensures |b| != 8 ==> t == Table6
    ensures |b| == 8 ==> t == Table8
  {
    Table6Square();
    Table8Square();
    if |b| == 6 then Table6
    else if |b| == 8 then Table8
    else Table6
  }

  /** position_scores[y][x] where the table has that cell; the search only
      reads weights on boards that fit their table (Fits below). */
  function Weight(t: seq<seq<int>>, y: int, x: int): int
  {
    if 0 <= y < |t| && 0 <= x < |t[y]| then t[y][x] else 0
  }

  /** The weights of the cells x < n of row y that hold `s`, added left to
      right. */
  function RowScore(t: seq<seq<int>>, row: seq<int>, y: int, s: int, n: nat): int
  {
    if n == 0 then 0
    else RowScore(t, row, y, s, n - 1) + (if n - 1 < |row| && row[n - 1] == s then Weight(t, y, n - 1) else 0)
  }

  /** The weights of the cells of the first m rows that hold `s`, over the
      width len(board[0]) the loops of evaluate_board use. */
  function Score(t: seq<seq<int>>, b: Board, s: int, m: nat): int
    requires m <= |b|
  {
    if m == 0 then 0
    else Score(t, b, s, m - 1) + RowScore(t, b[m - 1], m - 1, s, Width(b))
  }

  /** evaluate_board(board, stone) as a value: my_score - opponent_score. */
  function Weighted(b: Board, stone: int): int
  {
    var t := PositionScore(b);
    Score(t, b, stone, |b|) - Score(t, b, 3 - stone, |b|)
  }

  /** The mover's and the opponent's weighted evaluations are opposite. */
  lemma WeightedSwap(b: Board, stone: int)
    ensures Weighted(b, 3 - stone) == -Weighted(b, stone)
  {
  }

  /** The sum of the values, added left to right. */
  function Sum(v: seq<int>): int
  {
    if |v| == 0 then 0 else Sum(v[..|v| - 1]) + v[|v| - 1]
  }

  /** The sequence read back to front. */
  function Reverse<T>(v: seq<T>): (r: seq<T>)
    ensures |r| == |v| && forall i :: 0 <= i < |v| ==> r[i] == v[|v| - 1 - i]
  {
    seq(|v|, i requires 0 <= i < |v| => v[|v| - 1 - i])
  }

  lemma {:induction false} SumConcat(a: seq<int>, c: seq<int>)
    ensures Sum(a + c) == Sum(a) + Sum(c)
    decreases |c|
  {
    if |c| == 0 {
      assert a + c == a;
    } else {
      SumConcat(a, c[..|c| - 1]);
      assert (a + c)[..|a + c| - 1] == a + c[..|c| - 1];
    }
  }

  /** Adding back to front gives the same sum. */
  lemma {:induction false} SumReverse(v: seq<int>)
    ensures Sum(Reverse(v)) == Sum(v)
    decreases |v|
  {
    if |v| > 0 {
      var front := v[..|v| - 1];
      SumReverse(front);
      assert Reverse(v) == [v[|v| - 1]] + Reverse(front);
      SumConcat([v[|v| - 1]], Reverse(front));
      assert [v[|v| - 1]][..0] == [];
    }
  }

  /** What each cell x < n of row y adds to the sum for `s`. */
  function RowCells(t: seq<seq<int>>, row: seq<int>, y: int, s: int, n: nat): (v: seq<int>)
    ensures |v| == n
    ensures forall x :: 0 <= x < n ==> v[x] == if x < |row| && row[x] == s then Weight(t, y, x) else 0
  {
    seq(n, x requires 0 <= x < n => if x < |row| && row[x] == s then Weight(t, y, x) else 0)
  }

  lemma {:induction false} RowScoreIsSum(t: seq<seq<int>>, row: seq<int>, y: int, s: int, n: nat)
    ensures RowScore(t, row, y, s, n) == Sum(RowCells(t, row, y, s, n))
  {
    if n > 0 {
      RowScoreIsSum(t, row, y, s, n - 1);
      assert RowCells(t, row, y, s, n)[..n - 1] == RowCells(t, row, y, s, n - 1);
    }
  }

  /** A row read right to left scores the same under a row of weights that
      reads the same from both ends. */
  lemma RowScoreReversed(t: seq<seq<int>>, row: seq<int>, y: int, s: int)
    requires 0 <= y < |t| && |row| == |t[y]|
    requires forall x :: 0 <= x < |row| ==> t[y][x] == t[y][|row| - 1 - x]
    ensures RowScore(t, Reverse(row), y, s, |row|) == RowScore(t, row, y, s, |row|)
  {
    var n := |row|;
    RowScoreIsSum(t, row, y, s, n);
    RowScoreIsSum(t, Reverse(row), y, s, n);
    assert RowCells(t, Reverse(row), y, s, n) == Reverse(RowCells(t, row, y, s, n));
    SumReverse(RowCells(t, row, y, s, n));
  }

  /** The score of a row depends on the weights of its row of the table, not
      on where that row lies. */
  lemma {:induction false} RowScoreSameWeights(t: seq<seq<int>>, row: seq<int>, y: int, y': int, s: int, n: nat)
    requires 0 <= y < |t| && 0 <= y' < |t| && t[y] == t[y']
    ensures RowScore(t, row, y, s, n) == RowScore(t, row, y', s, n)
  {
    if n > 0 {
      RowScoreSameWeights(t, row, y, y', s, n - 1);
    }
  }

  /** The board mirrored left to right. */
  function MirrorLR(b: Board): (r: Board)
    ensures |r| == |b| && forall y :: 0 <= y < |b| ==> r[y] == Reverse(b[y])
  {
    seq(|b|, y requires 0 <= y < |b| => Reverse(b[y]))
  }

  /** A square board of one of the two sizes the tables are made for. */
  predicate Full(b: Board)
  {
    Rect(b) && Width(b) == |b| && (|b| == 6 || |b| == 8)
  }

  lemma {:induction false} ScoreMirrorLR(t: seq<seq<int>>, b: Board, s: int, m: nat)
    requires Full(b) && Square(t, |b|) && MirrorRows(t, |b|) && m <= |b|
    ensures Score(t, MirrorLR(b), s, m) == Score(t, b, s, m)
  {
    if m > 0 {
      ScoreMirrorLR(t, b, s, m - 1);
      RowScoreReversed(t, b[m - 1], m - 1, s);
    }
  }

  /** The per-row scores of the first m rows. */
  function RowTotals(t: seq<seq<int>>, b: Board, s: int, m: nat): (v: seq<int>)
    requires m <= |b|
    ensures |v| == m
    ensures forall y :: 0 <= y < m ==> v[y] == RowScore(t, b[y], y, s, Width(b))
  {
    seq(m, y requires 0 <= y < m => RowScore(t, b[y], y, s, Width(b)))
  }

  lemma {:induction false} ScoreIsSum(t: seq<seq<int>>, b: Board, s: int, m: nat)
    requires m <= |b|
    ensures Score(t, b, s, m) == Sum(RowTotals(t, b, s, m))
  {
    if m > 0 {
      ScoreIsSum(t, b, s, m - 1);
      assert RowTotals(t, b, s, m)[..m - 1] == RowTotals(t, b, s, m - 1);
    }
  }

  lemma ScoreMirrorTB(t: seq<seq<int>>, b: Board, s: int)
    requires Full(b) && Square(t, |b|) && MirrorCols(t, |b|)
    ensures Score(t, Reverse(b), s, |b|) == Score(t, b, s, |b|)
  {
    var n := |b|;
    var rb := Reverse(b);
    assert Width(rb) == Width(b);
    forall y | 0 <= y < n
      ensures RowTotals(t, rb, s, n)[y] == Reverse(RowTotals(t, b, s, n))[y]
    {
      RowScoreSameWeights(t, b[n - 1 - y], y, n - 1 - y, s, Width(b));
    }
    assert RowTotals(t, rb, s, n) == Reverse(RowTotals(t, b, s, n));
    ScoreIsSum(t, b, s, n);
    ScoreIsSum(t, rb, s, n);
    SumReverse(RowTotals(t, b, s, n));
  }

  /** On a square board of 6 or 8 rows, the weighted evaluation does not
      change when the board is mirrored left to right or top to bottom. */
  lemma WeightedMirrors(b: Board, stone: int)
    requires Full(b)
    ensures Weighted(MirrorLR(b), stone) == Weighted(b, stone)
    ensures Weighted(Reverse(b), stone) == Weighted(b, stone)
  {
    var t := PositionScore(b);
    TablesDesign();
    ScoreMirrorLR(t, b, stone, |b|);
    ScoreMirrorLR(t, b, 3 - stone, |b|);
    ScoreMirrorTB(t, b, stone);
    ScoreMirrorTB(t, b, 3 - stone);
  }

  /** A board whose every visited cell exists and has a weight in its table,
      so that evaluate_board raises no IndexError on it. */
  predicate Fits(b: Board)
  {
    Wide(b) && |b| <= |PositionScore(b)| && Width(b) <= |PositionScore(b)|
  }

  /** A move the engine accepts keeps a fitting board fitting. */
  lemma FitsKept(e: Engine, b: Board, s: int, x: int, y: int)
    requires KeepsShape(e) && Fits(b) && e.canPlaceXY(b, s, x, y)
    ensures Fits(e.moveStone(b, s, x, y))
  {
    var b' := e.moveStone(b, s, x, y);
    assert Shape(b') == Shape(b);
    assert |b'| == |Shape(b')|;
    forall i | 0 <= i < |b'|
      ensures |b'[i]| == |b[i]|
    {
      assert Shape(b')[i] == Shape(b)[i];
    }
  }

  /** Every board the opponent's accepted replies lead to from b1 fits. */
  ghost predicate RepliesFit(e: Engine, b1: Board, opponent: int)
  {
    forall x, y :: e.canPlaceXY(b1, opponent, x, y) ==> Fits(e.moveStone(b1, opponent, x, y))
  }

  /** A fitting board's accepted replies lead to fitting boards. */
  lemma RepliesKeepFit(e: Engine, b1: Board, opponent: int)
    requires KeepsShape(e) && Fits(b1)
    ensures RepliesFit(e, b1, opponent)
  {
    forall x, y | e.canPlaceXY(b1, opponent, x, y)
      ensures Fits(e.moveStone(b1, opponent, x, y))
    {
      FitsKept(e, b1, opponent, x, y);
    }
  }

  /** Every board myai evaluates after the move (x, y) fits. */
  lemma FitsAhead(e: Engine, b: Board, stone: int, x: int, y: int)
    requires KeepsShape(e) && Fits(b) && e.canPlaceXY(b, stone, x, y)
    ensures Fits(e.moveStone(b, stone, x, y)) && RepliesFit(e, e.moveStone(b, stone, x, y), 3 - stone)
  {
    FitsKept(e, b, stone, x, y);
    RepliesKeepFit(e, e.moveStone(b, stone, x, y), 3 - stone);
  }

  /** The inner loop of evaluate_board for row y: what the row adds to
      my_score and to opponent_score. */
  method WeightedRow(t: seq<seq<int>>, row: seq<int>, y: nat, stone: int, n: nat) returns (my: int, opp: int)
    requires n <= |row| && y < |t| && n <= |t[y]|
    ensures my == RowScore(t, row, y, stone, n) && opp == RowScore(t, row, y, 3 - stone, n)
  {
    var opponent := 3 - stone;
    my, opp := 0, 0;
    for x := 0 to n
      invariant my == RowScore(t, row, y, stone, x) && opp == RowScore(t, row, y, opponent, x)
    {
      if row[x] == stone {
        my := my + t[y][x];
      } else if row[x] == opponent {
        opp := opp + t[y][x];
      }
    }
  }

  /** evaluate_board: both sums over the rows, then their difference. */
  method WeightedBoard(b: Board, stone: int) returns (v: int)
    requires Fits(b)
    ensures v == Weighted(b, stone)
  {
    var positionScores := PositionScore(b);
    var myScore, opponentScore := 0, 0;
    for y := 0 to |b|
      invariant myScore == Score(positionScores, b, stone, y)
      invariant opponentScore == Score(positionScores, b, 3 - stone, y)
    {
      var my, opp := WeightedRow(positionScores, b[y], y, stone, Width(b));
      myScore, opponentScore := myScore + my, opponentScore + opp;
    }
    v := myScore - opponentScore;
  }

  /** The inner loop of myai: the least weighted evaluation over the
      opponent's replies. */
  method WorstReply(e: Engine, b1: Board, stone: int, replies: seq<(int, int)>) returns (worst: Option<int>)
    requires RepliesFit(e, b1, 3 - stone)
    requires replies == LegalMoves(e, b1, 3 - stone)
    ensures worst == Select.Worst(TwoPly.ReplyScores(e, Weighted, b1, stone, replies))
  {
    worst := None;
    for j := 0 to |replies|
      invariant worst == Select.Worst(TwoPly.ReplyScores(e, Weighted, b1, stone, replies[..j]))
    {
      var ox, oy := replies[j].0, replies[j].1;
      assert replies[j] in replies;
      var b2 := e.moveStone(b1, 3 - stone, ox, oy);
      var score := WeightedBoard(b2, stone);
      TwoPly.ReplyScoresStep(e, Weighted, b1, stone, replies, j);
      Select.WorstAppend(TwoPly.ReplyScores(e, Weighted, b1, stone, replies[..j]), score);
      if worst.None? || score < worst.value {
        worst := Some(score);
      }
    }
    assert replies[..|replies|] == replies;
  }

  /** The body of myai's outer loop up to the score of (x, y). */
  method ScoreMove(e: Engine, b: Board, stone: int, x: int, y: int) returns (score: int)
    requires Fits(e.moveStone(b, stone, x, y)) && RepliesFit(e, e.moveStone(b, stone, x, y), 3 - stone)
    ensures score == TwoPly.MoveScore(e, Weighted, b, stone, (x, y))
  {
    var opponent := 3 - stone;
    var testBoard := e.moveStone(b, stone, x, y);
    var opponentMoves := ScanValidMoves(e, testBoard, opponent);
    TwoPly.MoveScoreCases(e, Weighted, b, stone, x, y, opponentMoves);
    if |opponentMoves| == 0 {
      score := WeightedBoard(testBoard, stone);
    } else {
      var worstScore := WorstReply(e, testBoard, stone, opponentMoves);
      score := worstScore.value;
    }
  }

  /** The body of myai's outer loop, for the move (x, y). */
  method TryMove(e: Engine, b: Board, stone: int, x: int, y: int, ghost seen: seq<(int, int)>,
                 best: Option<(int, int)>, bestScore: Option<int>)
    returns (best': Option<(int, int)>, bestScore': Option<int>)
    requires Fits(e.moveStone(b, stone, x, y)) && RepliesFit(e, e.moveStone(b, stone, x, y), 3 - stone)
    requires TwoPly.Ahead(e, Weighted, b, stone, seen, best, bestScore)
    ensures TwoPly.Ahead(e, Weighted, b, stone, seen + [(x, y)], best', bestScore')
  {
    var score := ScoreMove(e, b, stone, x, y);
    TwoPly.AheadStep(e, Weighted, b, stone, seen, best, bestScore, (x, y));
    best', bestScore' := best, bestScore;
    if bestScore.None? || score > bestScore.value {
      bestScore' := Some(score);
      best' := Some((x, y));
    }
  }

  /** myai(board, stone): None without a legal move, otherwise the first
      legal move whose worst weighted outcome is greatest. */
  method MyAI(e: Engine, b: Board, stone: int) returns (bestMove: Option<(int, int)>)
    requires KeepsShape(e) && Fits(b)
    ensures bestMove == TwoPly.Choice(e, Weighted, b, stone)
  {
    var validMoves := ScanValidMoves(e, b, stone);
    if |validMoves| == 0 {
      return None;
    }
    bestMove := None;
    var bestScore: Option<int> := None;
    for i := 0 to |validMoves|
      invariant TwoPly.Ahead(e, Weighted, b, stone, validMoves[..i], bestMove, bestScore)
    {
      assert validMoves[i] in validMoves;
      FitsAhead(e, b, stone, validMoves[i].0, validMoves[i].1);
      bestMove, bestScore := TryMove(e, b, stone, validMoves[i].0, validMoves[i].1, validMoves[..i], bestMove, bestScore);
      Select.PrefixStep(validMoves, i);
    }
    assert validMoves[..|validMoves|] == validMoves;
  }
}
