/** The two-ply search shared by ai/lookahead_ai.py (lookahead_2) and
    test_AI.py (myai), for any evaluation `ev` of a board from the mover's
    point of view: every legal move is scored by the worst evaluation the
    opponent can force with one reply, and the first move of greatest score
    is played. */
module TwoPly {
  import opened Wrappers
  import opened Othello
  import Select

  /** The mover's evaluation after each listed reply of the opponent. */
  function ReplyScores(e: Engine, ev: (Board, int) -> int, b1: Board, stone: int, replies: seq<(int, int)>): (r: seq<int>)
    ensures |r| == |replies|
    ensures forall i :: 0 <= i < |replies| ==>
      r[i] == ev(e.moveStone(b1, 3 - stone, replies[i].0, replies[i].1), stone)
  {
    if |replies| == 0 then []
    else
      var last := replies[|replies| - 1];
      ReplyScores(e, ev, b1, stone, replies[..|replies| - 1]) + [ev(e.moveStone(b1, 3 - stone, last.0, last.1), stone)]
  }

  /** One more reply: its evaluation is appended. */
  lemma ReplyScoresStep(e: Engine, ev: (Board, int) -> int, b1: Board, stone: int, replies: seq<(int, int)>, j: nat)
    requires j < |replies|
    ensures ReplyScores(e, ev, b1, stone, replies[..j + 1]) ==
      ReplyScores(e, ev, b1, stone, replies[..j]) + [ev(e.moveStone(b1, 3 - stone, replies[j].0, replies[j].1), stone)]
  {
    assert replies[..j + 1][..j] == replies[..j];
  }

  /** The value of the board b1 the mover's move leads to: its evaluation
      when the opponent has no reply, otherwise the least evaluation over
      the opponent's replies. */
  function ReplyValue(e: Engine, ev: (Board, int) -> int, b1: Board, stone: int): int
  {
    var replies := LegalMoves(e, b1, 3 - stone);
    if |replies| == 0 then ev(b1, stone)
    else
      var scores := ReplyScores(e, ev, b1, stone, replies);
      Select.WorstSome(scores);
      Select.Worst(scores).value
  }

  /** The score of the move m. */
  function MoveScore(e: Engine, ev: (Board, int) -> int, b: Board, stone: int, m: (int, int)): int
  {
    ReplyValue(e, ev, e.moveStone(b, stone, m.0, m.1), stone)
  }

  /** The two cases of the score of (x, y), given the opponent's replies. */
  lemma MoveScoreCases(e: Engine, ev: (Board, int) -> int, b: Board, stone: int, x: int, y: int, replies: seq<(int, int)>)
    requires replies == LegalMoves(e, e.moveStone(b, stone, x, y), 3 - stone)
    ensures var b1 := e.moveStone(b, stone, x, y);
      var w := Select.Worst(ReplyScores(e, ev, b1, stone, replies));
      (|replies| == 0 ==> MoveScore(e, ev, b, stone, (x, y)) == ev(b1, stone)) &&
      (|replies| > 0 ==> w.Some? && MoveScore(e, ev, b, stone, (x, y)) == w.value)
  {
    if |replies| > 0 {
      Select.WorstSome(ReplyScores(e, ev, e.moveStone(b, stone, x, y), stone, replies));
    }
  }

  /** The scores of the listed moves. */
  function MoveScores(e: Engine, ev: (Board, int) -> int, b: Board, stone: int, moves: seq<(int, int)>): (r: seq<int>)
    ensures |r| == |moves|
    ensures forall i :: 0 <= i < |moves| ==> r[i] == MoveScore(e, ev, b, stone, moves[i])
  {
    if |moves| == 0 then []
    else MoveScores(e, ev, b, stone, moves[..|moves| - 1]) + [MoveScore(e, ev, b, stone, moves[|moves| - 1])]
  }

  /** best_move starts at None and best_score at float('-inf'). */
  const Start := Select.Lead(None, None)

  /** lookahead_2 (with Lookahead.Evaluate) and myai (with TestAI.Weighted)
      as a value: None without a legal move, otherwise the first legal move,
      in row-major order, of greatest score. */
  function Choice(e: Engine, ev: (Board, int) -> int, b: Board, stone: int): Option<(int, int)>
  {
    var moves := LegalMoves(e, b, stone);
    if |moves| == 0 then None
    else Select.Pick(moves, Select.Scan(MoveScores(e, ev, b, stone, moves), Start).index)
  }

  /** best_move and best_score are what the scan keeps over the moves seen. */
  ghost predicate Ahead(e: Engine, ev: (Board, int) -> int, b: Board, stone: int, seen: seq<(int, int)>, best: Option<(int, int)>, bestScore: Option<int>)
  {
    var l := Select.Scan(MoveScores(e, ev, b, stone, seen), Start);
    l.score == bestScore && best == Select.Pick(seen, l.index)
  }

  lemma AheadStep(e: Engine, ev: (Board, int) -> int, b: Board, stone: int, seen: seq<(int, int)>, best: Option<(int, int)>, bestScore: Option<int>, m: (int, int))
    requires Ahead(e, ev, b, stone, seen, best, bestScore)
    ensures var v := MoveScore(e, ev, b, stone, m);
      Ahead(e, ev, b, stone, seen + [m],
        if Select.Beats(v, bestScore) then Some(m) else best,
        if Select.Beats(v, bestScore) then Some(v) else bestScore)
  {
    var vals := MoveScores(e, ev, b, stone, seen);
    assert (seen + [m])[..|seen|] == seen;
    assert MoveScores(e, ev, b, stone, seen + [m]) == vals + [MoveScore(e, ev, b, stone, m)];
    Select.ScanAppend(seen, vals, m, MoveScore(e, ev, b, stone, m), Start);
  }

  /** Without a reply for the opponent, the value is the evaluation. */
  lemma ReplyValueNoReply(e: Engine, ev: (Board, int) -> int, b1: Board, stone: int)
    requires forall x, y :: !Legal(e, b1, 3 - stone, (x, y))
    ensures ReplyValue(e, ev, b1, stone) == ev(b1, stone)
  {
    var replies := LegalMoves(e, b1, 3 - stone);
    if |replies| > 0 {
      LegalAt(e, b1, 3 - stone, 0);
      assert false;
    }
  }

  /** No reply of the opponent leaves the mover better off than the value. */
  lemma ReplyValueBelow(e: Engine, ev: (Board, int) -> int, b1: Board, stone: int, x: int, y: int)
    requires Legal(e, b1, 3 - stone, (x, y))
    ensures ReplyValue(e, ev, b1, stone) <= ev(e.moveStone(b1, 3 - stone, x, y), stone)
  {
    var scores := ReplyScores(e, ev, b1, stone, LegalMoves(e, b1, 3 - stone));
    var j := LegalIndex(e, b1, 3 - stone, x, y);
    assert scores[j] == ev(e.moveStone(b1, 3 - stone, x, y), stone);
    Select.WorstIsMin(scores);
  }

  /** When the opponent has a reply, some legal reply brings the mover down
      to the value. */
  lemma ReplyValueReached(e: Engine, ev: (Board, int) -> int, b1: Board, stone: int, x: int, y: int) returns (rx: int, ry: int)
    requires Legal(e, b1, 3 - stone, (x, y))
    ensures Legal(e, b1, 3 - stone, (rx, ry))
    ensures ReplyValue(e, ev, b1, stone) == ev(e.moveStone(b1, 3 - stone, rx, ry), stone)
  {
    var replies := LegalMoves(e, b1, 3 - stone);
    var scores := ReplyScores(e, ev, b1, stone, replies);
    var j := LegalIndex(e, b1, 3 - stone, x, y);
    var k := Select.WorstAt(scores);
    assert k < |replies|;
    assert replies[k] in replies;
    rx, ry := replies[k].0, replies[k].1;
    assert replies[k] == (rx, ry);
    assert scores[k] == ev(e.moveStone(b1, 3 - stone, rx, ry), stone);
  }

  /** The search returns None exactly when there is no legal move. */
  lemma ChoiceNone(e: Engine, ev: (Board, int) -> int, b: Board, stone: int)
    ensures Choice(e, ev, b, stone).None? <==> forall x, y :: !Legal(e, b, stone, (x, y))
  {
    var moves := LegalMoves(e, b, stone);
    var vals := MoveScores(e, ev, b, stone, moves);
    Select.ScanFirstMax(vals, Start);
    if |moves| > 0 {
      assert Select.Beats(vals[0], Start.score);
      var p := moves[0];
      assert Legal(e, b, stone, (p.0, p.1));
    } else {
      forall x, y ensures !Legal(e, b, stone, (x, y)) {
        assert (x, y) !in moves;
      }
    }
  }

  /** A move the search returns is legal, its score is at least that of any
      legal move, and above that of every legal move before it in row-major
      order. */
  lemma ChoiceBest(e: Engine, ev: (Board, int) -> int, b: Board, stone: int)
    ensures var r := Choice(e, ev, b, stone);
      r.Some? ==>
        Legal(e, b, stone, r.value) &&
        (forall x, y :: Legal(e, b, stone, (x, y)) ==> MoveScore(e, ev, b, stone, (x, y)) <= MoveScore(e, ev, b, stone, r.value)) &&
        (forall x, y :: Legal(e, b, stone, (x, y)) && Before((x, y), r.value) ==>
          MoveScore(e, ev, b, stone, (x, y)) < MoveScore(e, ev, b, stone, r.value))
  {
    var moves := LegalMoves(e, b, stone);
    var vals := MoveScores(e, ev, b, stone, moves);
    Select.ScanFirstMax(vals, Start);
    var r := Choice(e, ev, b, stone);
    if r.Some? {
      var i := Select.Scan(vals, Start).index.value;
      var m := moves[i];
      assert r.value == m;
      assert m in moves;
      forall x, y | Legal(e, b, stone, (x, y))
        ensures MoveScore(e, ev, b, stone, (x, y)) <= MoveScore(e, ev, b, stone, m)
        ensures Before((x, y), m) ==> MoveScore(e, ev, b, stone, (x, y)) < MoveScore(e, ev, b, stone, m)
      {
        var j := LegalIndex(e, b, stone, x, y);
        assert vals[j] == MoveScore(e, ev, b, stone, (x, y));
        if Before((x, y), m) {
          RowMajorIndex(moves, i, j);
        }
      }
    }
  }
}
