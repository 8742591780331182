/** run_match (tournament.py): one game between two strategies, turn by turn,
    reported as (result, black_count, white_count). */
module Match {
  import opened Wrappers
  import opened Othello

  /** result: 1 black wins, 2 white wins, 0 draw, -1 error. */
  datatype MatchResult = MatchResult(code: int, black: int, white: int)

  const DefaultMaxTurns := 100

  /** The starting position: 8x8 for size 8, 6x6 for every other size. */
  function InitialBoard(size: int): (b: Board)
    ensures |b| == (if size == 8 then 8 else 6) && Rect(b) && Width(b) == |b|
  {
    if size == 8 then
      [[0,0,0,0,0,0,0,0],
       [0,0,0,0,0,0,0,0],
       [0,0,0,0,0,0,0,0],
       [0,0,0,1,2,0,0,0],
       [0,0,0,2,1,0,0,0],
       [0,0,0,0,0,0,0,0],
       [0,0,0,0,0,0,0,0],
       [0,0,0,0,0,0,0,0]]
    else
      [[0,0,0,0,0,0],
       [0,0,0,0,0,0],
       [0,0,1,2,0,0],
       [0,0,2,1,0,0],
       [0,0,0,0,0,0],
       [0,0,0,0,0,0]]
  }

  /** What one side's turn did. */
  datatype Turn = Passed | Played(move: Move, board: Board) | Forfeited | Crashed

  /** A reply the engine accepts as this side's move on this board. */
  predicate Accepted(e: Engine, board: Board, stone: int, reply: Reply)
  {
    reply.Returned? && reply.x.Some? && reply.y.Some? &&
    e.canPlaceXY(board, stone, reply.x.value, reply.y.value)
  }

  /** One side's turn: it passes when it cannot place; otherwise its reply is
      played if the engine accepts it, and any other reply ends the game. */
  function TakeTurn(e: Engine, ai: Player, stone: int, board: Board): (t: Turn)
    ensures t.Passed? <==> !e.canPlace(board, stone)
    ensures t.Played? <==> e.canPlace(board, stone) && Accepted(e, board, stone, ai(board, stone))
    ensures t.Crashed? <==> e.canPlace(board, stone) && ai(board, stone).Raised?
    ensures t.Played? ==>
      t.move.stone == stone &&
      e.canPlaceXY(board, stone, t.move.x, t.move.y) &&
      t.board == e.moveStone(board, stone, t.move.x, t.move.y)
  {
    if !e.canPlace(board, stone) then Passed
    else
      var reply := ai(board, stone);
      if reply.Raised? then Crashed
      else if Accepted(e, board, stone, reply) then
        Played(Move(stone, reply.x.value, reply.y.value), e.moveStone(board, stone, reply.x.value, reply.y.value))
      else Forfeited
  }

  /** One side's turn as both game loops run it, on the board the loop holds. */
  method PlayTurn(e: Engine, ai: Player, stone: int, board: Board) returns (t: Turn, board': Board)
    ensures t == TakeTurn(e, ai, stone, board)
    ensures board' == After(t, board)
  {
    board' := board;
    if !e.canPlace(board, stone) {
      t := Passed;
    } else {
      var reply := ai(board, stone);
      if reply.Raised? {
        t := Crashed;
      } else if reply.x.Some? && reply.y.Some? && e.canPlaceXY(board, stone, reply.x.value, reply.y.value) {
        board' := e.moveStone(board, stone, reply.x.value, reply.y.value);
        t := Played(Move(stone, reply.x.value, reply.y.value), board');
      } else {
        t := Forfeited;
      }
    }
  }

  /** The board after a turn that did not end the game. */
  function After(t: Turn, board: Board): Board
  {
    if t.Played? then t.board else board
  }

  /** The moves a turn that did not end the game made. */
  function MovesOf(t: Turn): seq<Move>
  {
    if t.Played? then [t.move] else []
  }

  /** How a game ended: normally (nobody can move, or the round limit), by a
      forfeit of one side, or by an exception raised by a strategy. */
  datatype Ending = GameOver | BlackForfeit | WhiteForfeit | RuntimeFault

  /** A finished game: its ending, final board, the moves made and the rounds played. */
  datatype Game = Game(ending: Ending, board: Board, moves: seq<Move>, rounds: nat)

  /** The game from `board` with at most `turnsLeft` rounds to go. */
  function Play(e: Engine, ai1: Player, ai2: Player, board: Board, turnsLeft: nat): (g: Game)
    ensures g.rounds <= turnsLeft
    ensures turnsLeft > 0 ==> g.rounds > 0
    decreases turnsLeft
  {
    if turnsLeft == 0 then Game(GameOver, board, [], 0)
    else
      var t1 := TakeTurn(e, ai1, BLACK, board);
      if t1.Crashed? then Game(RuntimeFault, board, [], 1)
      else if t1.Forfeited? then Game(BlackForfeit, board, [], 1)
      else
        var b1 := After(t1, board);
        var t2 := TakeTurn(e, ai2, WHITE, b1);
        if t2.Crashed? then Game(RuntimeFault, b1, MovesOf(t1), 1)
        else if t2.Forfeited? then Game(WhiteForfeit, b1, MovesOf(t1), 1)
        else
          var b2 := After(t2, b1);
          var moved := t1.Played? || t2.Played?;
          if (!e.canPlace(b2, BLACK) && !e.canPlace(b2, WHITE)) || !moved || turnsLeft == 1 then
            Game(GameOver, b2, MovesOf(t1) + MovesOf(t2), 1)
          else
            var rest := Play(e, ai1, ai2, b2, turnsLeft - 1);
            Game(rest.ending, rest.board, MovesOf(t1) + MovesOf(t2) + rest.moves, rest.rounds + 1)
  }

  /** The verdict on stone counts. */
  function Verdict(black: int, white: int): (r: MatchResult)
    ensures r.black == black && r.white == white
    ensures r.code == 1 <==> black > white
    ensures r.code == 2 <==> black < white
    ensures r.code == 0 <==> black == white
  {
    if black > white then MatchResult(1, black, white)
    else if black < white then MatchResult(2, black, white)
    else MatchResult(0, black, white)
  }

  /** What run_match returns for a finished game. */
  function Outcome(g: Game): (r: MatchResult)
    ensures r.code in {-1, 0, 1, 2}
    ensures r.code == -1 <==> g.ending == RuntimeFault
    ensures r.code == -1 ==> r.black == 0 && r.white == 0
    ensures r.code != -1 ==> r.black == CountStones(g.board, BLACK) && r.white == CountStones(g.board, WHITE)
    ensures g.ending == BlackForfeit ==> r.code == 2
    ensures g.ending == WhiteForfeit ==> r.code == 1
    ensures g.ending == GameOver ==> r == Verdict(CountStones(g.board, BLACK), CountStones(g.board, WHITE))
  {
    match g.ending
    case RuntimeFault => MatchResult(-1, 0, 0)
    case BlackForfeit => MatchResult(2, CountStones(g.board, BLACK), CountStones(g.board, WHITE))
    case WhiteForfeit => MatchResult(1, CountStones(g.board, BLACK), CountStones(g.board, WHITE))
    case GameOver => Verdict(CountStones(g.board, BLACK), CountStones(g.board, WHITE))
  }

  /** The game run_match plays from the starting position of `size`. */
  function MatchGame(e: Engine, ai1: Player, ai2: Player, size: int, maxTurns: int): Game
  {
    Play(e, ai1, ai2, InitialBoard(size), if maxTurns < 0 then 0 else maxTurns)
  }

  /** run_match(ai1, ai2, board_size, max_turns). */
  method RunMatch(e: Engine, ai1: Player, ai2: Player, boardSize: int, maxTurns: int) returns (r: MatchResult)
    ensures r == Outcome(MatchGame(e, ai1, ai2, boardSize, maxTurns))
    ensures r.code in {-1, 0, 1, 2}
    ensures r.code == -1 ==> r.black == 0 && r.white == 0
  {
    var board := InitialBoard(boardSize);
    ghost var target := Outcome(MatchGame(e, ai1, ai2, boardSize, maxTurns));
    ghost var limit: nat := if maxTurns < 0 then 0 else maxTurns;
    var moved := true;
    var turnCount := 0;
    while moved && turnCount < maxTurns
      invariant 0 <= turnCount <= limit
      invariant moved ==> Outcome(Play(e, ai1, ai2, board, limit - turnCount)) == target
      invariant !moved ==> Verdict(CountStones(board, BLACK), CountStones(board, WHITE)) == target
    {
      moved := false;
      turnCount := turnCount + 1;

      var t1, b1 := PlayTurn(e, ai1, BLACK, board);
      OutcomeRound(e, ai1, ai2, board, limit - turnCount + 1);
      if t1.Crashed? {
        return MatchResult(-1, 0, 0);
      } else if t1.Forfeited? {
        return MatchResult(2, CountStones(board, BLACK), CountStones(board, WHITE));
      }
      var t2, b2 := PlayTurn(e, ai2, WHITE, b1);
      if t2.Crashed? {
        return MatchResult(-1, 0, 0);
      } else if t2.Forfeited? {
        return MatchResult(1, CountStones(b1, BLACK), CountStones(b1, WHITE));
      }
      board, moved := b2, t1.Played? || t2.Played?;

      if !e.canPlace(board, BLACK) && !e.canPlace(board, WHITE) {
        break;
      }
    }
    r := Verdict(CountStones(board, BLACK), CountStones(board, WHITE));
  }

  /** What run_match returns, after one round of the game from `board`. */
  lemma OutcomeRound(e: Engine, ai1: Player, ai2: Player, board: Board, turnsLeft: nat)
    requires turnsLeft > 0
    ensures var t1 := TakeTurn(e, ai1, BLACK, board);
      var b1 := After(t1, board);
      var t2 := TakeTurn(e, ai2, WHITE, b1);
      var b2 := After(t2, b1);
      var o := Outcome(Play(e, ai1, ai2, board, turnsLeft));
      (t1.Crashed? ==> o == MatchResult(-1, 0, 0)) &&
      (t1.Forfeited? ==> o == MatchResult(2, CountStones(board, BLACK), CountStones(board, WHITE))) &&
      (!t1.Crashed? && !t1.Forfeited? ==>
        (t2.Crashed? ==> o == MatchResult(-1, 0, 0)) &&
        (t2.Forfeited? ==> o == MatchResult(1, CountStones(b1, BLACK), CountStones(b1, WHITE))) &&
        (!t2.Crashed? && !t2.Forfeited? ==>
          if (!e.canPlace(b2, BLACK) && !e.canPlace(b2, WHITE)) || !(t1.Played? || t2.Played?) || turnsLeft == 1
          then o == Verdict(CountStones(b2, BLACK), CountStones(b2, WHITE))
          else o == Outcome(Play(e, ai1, ai2, b2, turnsLeft - 1))))
  {
  }

  /** The board only ever changes through move_stone on a move that
      can_place_x_y accepted at that moment. */
  lemma {:induction false} PlayReplays(e: Engine, ai1: Player, ai2: Player, board: Board, turnsLeft: nat)
    ensures Replay(e, board, Play(e, ai1, ai2, board, turnsLeft).moves) == Some(Play(e, ai1, ai2, board, turnsLeft).board)
    decreases turnsLeft
  {
    if turnsLeft > 0 {
      var t1 := TakeTurn(e, ai1, BLACK, board);
      if !t1.Crashed? && !t1.Forfeited? {
        var b1 := After(t1, board);
        var t2 := TakeTurn(e, ai2, WHITE, b1);
        if t2.Crashed? || t2.Forfeited? {
          ReplayStep(e, t1, board, []);
          assert MovesOf(t1) + [] == MovesOf(t1);
        } else {
          var b2 := After(t2, b1);
          var g := Play(e, ai1, ai2, board, turnsLeft);
          var tail: seq<Move>;
          if (!e.canPlace(b2, BLACK) && !e.canPlace(b2, WHITE)) || !(t1.Played? || t2.Played?) || turnsLeft == 1 {
            tail := [];
            assert g.moves == MovesOf(t1) + MovesOf(t2) + tail;
            assert g.board == b2;
          } else {
            PlayReplays(e, ai1, ai2, b2, turnsLeft - 1);
            var rest := Play(e, ai1, ai2, b2, turnsLeft - 1);
            tail := rest.moves;
            assert g.moves == MovesOf(t1) + MovesOf(t2) + tail;
            assert Replay(e, b2, tail) == Some(g.board);
          }
          ReplayRound(e, t1, t2, board, tail);
        }
      }
    }
  }

  /** Replaying a played turn's move and then the rest. */
  lemma ReplayStep(e: Engine, t: Turn, board: Board, rest: seq<Move>)
    requires t.Played? ==>
      e.canPlaceXY(board, t.move.stone, t.move.x, t.move.y) &&
      t.board == e.moveStone(board, t.move.stone, t.move.x, t.move.y)
    ensures Replay(e, board, MovesOf(t) + rest) == Replay(e, After(t, board), rest)
  {
    if t.Played? {
      assert (MovesOf(t) + rest)[0] == t.move;
      assert (MovesOf(t) + rest)[1..] == rest;
    } else {
      assert MovesOf(t) + rest == rest;
    }
  }

  /** Replaying a round of two turns and then the rest. */
  lemma ReplayRound(e: Engine, t1: Turn, t2: Turn, board: Board, rest: seq<Move>)
    requires t1.Played? ==>
      e.canPlaceXY(board, t1.move.stone, t1.move.x, t1.move.y) &&
      t1.board == e.moveStone(board, t1.move.stone, t1.move.x, t1.move.y)
    requires t2.Played? ==>
      e.canPlaceXY(After(t1, board), t2.move.stone, t2.move.x, t2.move.y) &&
      t2.board == e.moveStone(After(t1, board), t2.move.stone, t2.move.x, t2.move.y)
    ensures Replay(e, board, MovesOf(t1) + MovesOf(t2) + rest) == Replay(e, After(t2, After(t1, board)), rest)
  {
    ReplayStep(e, t2, After(t1, board), rest);
    ReplayStep(e, t1, board, MovesOf(t2) + rest);
    assert MovesOf(t1) + MovesOf(t2) + rest == MovesOf(t1) + (MovesOf(t2) + rest);
  }

  /** How each ending comes about: a forfeit only when the side could place and
      its reply was not an accepted move, a runtime fault only when the side to
      move raised, and a normal end only when nobody can move or the round
      limit is used up. */
  lemma {:induction false} PlayEnding(e: Engine, ai1: Player, ai2: Player, board: Board, turnsLeft: nat)
    ensures var g := Play(e, ai1, ai2, board, turnsLeft);
      (g.ending == BlackForfeit ==>
        e.canPlace(g.board, BLACK) && ai1(g.board, BLACK).Returned? && !Accepted(e, g.board, BLACK, ai1(g.board, BLACK))) &&
      (g.ending == WhiteForfeit ==>
        e.canPlace(g.board, WHITE) && ai2(g.board, WHITE).Returned? && !Accepted(e, g.board, WHITE, ai2(g.board, WHITE))) &&
      (g.ending == RuntimeFault ==>
        (e.canPlace(g.board, BLACK) && ai1(g.board, BLACK).Raised?) ||
        (e.canPlace(g.board, WHITE) && ai2(g.board, WHITE).Raised?)) &&
      (g.ending == GameOver ==>
        g.rounds == turnsLeft || (!e.canPlace(g.board, BLACK) && !e.canPlace(g.board, WHITE)))
    decreases turnsLeft
  {
    if turnsLeft > 0 {
      var t1 := TakeTurn(e, ai1, BLACK, board);
      if !t1.Crashed? && !t1.Forfeited? {
        var b1 := After(t1, board);
        var t2 := TakeTurn(e, ai2, WHITE, b1);
        if !t2.Crashed? && !t2.Forfeited? {
          var b2 := After(t2, b1);
          if (!e.canPlace(b2, BLACK) && !e.canPlace(b2, WHITE)) || !(t1.Played? || t2.Played?) || turnsLeft == 1 {
            if !(t1.Played? || t2.Played?) {
              assert b2 == board;
            }
          } else {
            PlayEnding(e, ai1, ai2, b2, turnsLeft - 1);
          }
        }
      }
    }
  }

  /** A side that can move but replies with no move or a move the engine
      rejects loses at once, on the current counts. */
  lemma IllegalReplyForfeits(e: Engine, ai1: Player, ai2: Player, board: Board, turnsLeft: nat)
    requires turnsLeft > 0
    requires e.canPlace(board, BLACK) && ai1(board, BLACK).Returned? && !Accepted(e, board, BLACK, ai1(board, BLACK))
    ensures Outcome(Play(e, ai1, ai2, board, turnsLeft)) == MatchResult(2, CountStones(board, BLACK), CountStones(board, WHITE))
  {
  }
}
