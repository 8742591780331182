/** The two-ply reference strategy (ai/lookahead_ai.py): for each legal move,
    assume the opponent answers with the reply that is worst for the mover,
    and play the first move whose worst case is best. */
module Lookahead {
  import opened Wrappers
  import opened Othello
  import Select
  import TwoPly

  /** count_stones: the row counts added up row by row. */
  method CountStonesIn(b: Board, stone: int) returns (count: nat)
    ensures count == CountStones(b, stone)
  {
    count := 0;
    for i := 0 to |b|
      invariant count == CountStones(b[..i], stone)
    {
      assert b[..i + 1][..i] == b[..i];
      count := count + RowCount(b[i], stone);
    }
    assert b[..|b|] == b;
  }

  /** evaluate_board(board, my_stone): the mover's cells minus the
      opponent's. */
  function Evaluate(b: Board, myStone: int): int
  {
    CountStones(b, myStone) - CountStones(b, 3 - myStone)
  }

  /** The evaluation counts the cells holding each colour, and it changes
      sign with the point of view. */
  lemma EvaluateCounts(b: Board, myStone: int)
    ensures Evaluate(b, myStone) == multiset(Flatten(b))[myStone] as int - multiset(Flatten(b))[3 - myStone] as int
    ensures Evaluate(b, 3 - myStone) == -Evaluate(b, myStone)
  {
    CountStonesIsOccurrences(b, myStone);
    CountStonesIsOccurrences(b, 3 - myStone);
  }

  method EvaluateBoard(b: Board, myStone: int) returns (v: int)
    ensures v == Evaluate(b, myStone)
  {
    var opponent := 3 - myStone;
    var myCount := CountStonesIn(b, myStone);
    var oppCount := CountStonesIn(b, opponent);
    v := myCount as int - oppCount as int;
  }

  /** The inner loop of lookahead_2: the least evaluation over the replies. */
  method WorstReply(e: Engine, b1: Board, stone: int, replies: seq<(int, int)>) returns (worst: Option<int>)
    ensures worst == Select.Worst(TwoPly.ReplyScores(e, Evaluate, b1, stone, replies))
  {
    worst := None;
    for j := 0 to |replies|
      invariant worst == Select.Worst(TwoPly.ReplyScores(e, Evaluate, b1, stone, replies[..j]))
    {
      var ox, oy := replies[j].0, replies[j].1;
      var b2 := e.moveStone(b1, 3 - stone, ox, oy);
      var score := EvaluateBoard(b2, stone);
      TwoPly.ReplyScoresStep(e, Evaluate, b1, stone, replies, j);
      Select.WorstAppend(TwoPly.ReplyScores(e, Evaluate, b1, stone, replies[..j]), score);
      if worst.None? || score < worst.value {
        worst := Some(score);
      }
    }
    assert replies[..|replies|] == replies;
  }

  /** The body of lookahead_2's outer loop up to the score of (x, y). */
  method ScoreMove(e: Engine, b: Board, stone: int, x: int, y: int) returns (score: int)
    ensures score == TwoPly.MoveScore(e, Evaluate, b, stone, (x, y))
  {
    var opponent := 3 - stone;
    var tempBoard := e.moveStone(b, stone, x, y);
    var opponentMoves := ScanValidMoves(e, tempBoard, opponent);
    TwoPly.MoveScoreCases(e, Evaluate, b, stone, x, y, opponentMoves);
    if |opponentMoves| == 0 {
      score := EvaluateBoard(tempBoard, stone);
    } else {
      var worstScore := WorstReply(e, tempBoard, stone, opponentMoves);
      score := worstScore.value;
    }
  }

  /** The body of lookahead_2's outer loop, for the move (x, y). */
  method TryMove(e: Engine, b: Board, stone: int, x: int, y: int, ghost seen: seq<(int, int)>,
                 best: Option<(int, int)>, bestScore: Option<int>)
    returns (best': Option<(int, int)>, bestScore': Option<int>)
    requires TwoPly.Ahead(e, Evaluate, b, stone, seen, best, bestScore)
    ensures TwoPly.Ahead(e, Evaluate, b, stone, seen + [(x, y)], best', bestScore')
  {
    var score := ScoreMove(e, b, stone, x, y);
    TwoPly.AheadStep(e, Evaluate, b, stone, seen, best, bestScore, (x, y));
    best', bestScore' := best, bestScore;
    if bestScore.None? || score > bestScore.value {
      bestScore' := Some(score);
      best' := Some((x, y));
    }
  }

  /** lookahead_2: None without a legal move, otherwise the first move of
      greatest score. */
  method Lookahead2(e: Engine, b: Board, stone: int) returns (bestMove: Option<(int, int)>)
    ensures bestMove == TwoPly.Choice(e, Evaluate, b, stone)
  {
    var myMoves := ScanValidMoves(e, b, stone);
    if |myMoves| == 0 {
      return None;
    }
    bestMove := None;
    var bestScore: Option<int> := None;
    for i := 0 to |myMoves|
      invariant TwoPly.Ahead(e, Evaluate, b, stone, myMoves[..i], bestMove, bestScore)
    {
      bestMove, bestScore := TryMove(e, b, stone, myMoves[i].0, myMoves[i].1, myMoves[..i], bestMove, bestScore);
      Select.PrefixStep(myMoves, i);
    }
    assert myMoves[..|myMoves|] == myMoves;
  }
}
