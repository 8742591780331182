/** battle.py: live games between two strategies, the two-game match of
    battle_myais and the round robins of battle_tournament and battle_user_ais,
    without the canvas, progress bar and delays. */
module Battle {
  import opened Wrappers
  import opened Othello
  import opened Match
  import PyDict
  import Ranking
  import Scoring

  /** count_stone(board): the numbers of black and of white cells. */
  function CountStone(b: Board): (r: (nat, nat))
    ensures r.0 == multiset(Flatten(b))[BLACK]
    ensures r.1 == multiset(Flatten(b))[WHITE]
  {
    CountStonesIsOccurrences(b, BLACK);
    CountStonesIsOccurrences(b, WHITE);
    (CountStones(b, BLACK), CountStones(b, WHITE))
  }

  /** The board argument of run_othello_live: absent, a size, or a position. */
  datatype BoardArg = NoBoard | Size(n: int) | Given(b: Board)

  /** A size argument must be one of the two sizes with a starting position. */
  predicate ArgOk(arg: BoardArg)
  {
    arg.Size? ==> arg.n == 6 || arg.n == 8
  }

  /** The position run_othello_live starts from: the 8x8 start for 8, the 6x6
      start for 6 or no argument, a copy of a given position otherwise. */
  function StartBoard(arg: BoardArg): (b: Board)
    requires ArgOk(arg)
    ensures arg.Given? ==> b == arg.b
    ensures arg.Size? ==> |b| == arg.n && Rect(b) && Width(b) == arg.n
    ensures arg.NoBoard? ==> |b| == 6 && Rect(b) && Width(b) == 6
    ensures arg.Size? && arg.n == 8 ==> b == InitialBoard(8)
    ensures arg.NoBoard? || (arg.Size? && arg.n == 6) ==> b == InitialBoard(6)
  {
    if arg.Size? && arg.n == 8 then InitialBoard(8)
    else if arg.NoBoard? || arg.Size? then InitialBoard(6)
    else arg.b
  }

  /** How a live game stopped: its final board, whether black or white
      faulted (an exception or an illegal move), and the moves made. */
  datatype LiveGame = LiveGame(board: Board, blackError: bool, whiteError: bool, moves: seq<Move>)

  /** The live game loop from `board`: black then white each round, a side
      that cannot place is skipped, and the game stops at the first fault or
      when neither side can place. There is no round limit; the game ends
      because every accepted move fills an empty cell. */
  function Live(e: Engine, blackAI: Player, whiteAI: Player, board: Board): (g: LiveGame)
    requires FillsACell(e)
    ensures !(g.blackError && g.whiteError)
    decreases CountStones(board, EMPTY)
  {
    var t1 := TakeTurn(e, blackAI, BLACK, board);
    if t1.Crashed? || t1.Forfeited? then LiveGame(board, true, false, [])
    else
      var b1 := After(t1, board);
      var t2 := TakeTurn(e, whiteAI, WHITE, b1);
      if t2.Crashed? || t2.Forfeited? then LiveGame(b1, false, true, MovesOf(t1))
      else
        var b2 := After(t2, b1);
        if !e.canPlace(b2, BLACK) && !e.canPlace(b2, WHITE) then LiveGame(b2, false, false, MovesOf(t1) + MovesOf(t2))
        else
          var rest := Live(e, blackAI, whiteAI, b2);
          LiveGame(rest.board, rest.blackError, rest.whiteError, MovesOf(t1) + MovesOf(t2) + rest.moves)
  }

  /** The winner run_othello_live reports. ('error' is documented as a
      possible winner but never returned.) */
  datatype Winner = BlackWins | WhiteWins | Draw

  /** (black, white, winner) as run_othello_live returns it. */
  datatype LiveResult = LiveResult(black: int, white: int, winner: Winner)

  /** The reported result: a faulting side is counted as 0 stones, the other
      keeps its count, and the winner follows the adjusted counts. */
  function Final(g: LiveGame): (r: LiveResult)
    ensures g.blackError ==> r.black == 0 && r.white == CountStone(g.board).1
    ensures !g.blackError && g.whiteError ==> r.black == CountStone(g.board).0 && r.white == 0
    ensures !g.blackError && !g.whiteError ==> (r.black, r.white) == CountStone(g.board)
    ensures r.winner == BlackWins <==> r.black > r.white
    ensures r.winner == WhiteWins <==> r.black < r.white
    ensures r.winner == Draw <==> r.black == r.white
    ensures g.blackError ==> r.winner != BlackWins
    ensures !g.blackError && g.whiteError ==> r.winner != WhiteWins
  {
    var counts := CountStone(g.board);
    var black := if g.blackError then 0 else counts.0;
    var white := if !g.blackError && g.whiteError then 0 else counts.1;
    LiveResult(black, white, if black > white then BlackWins else if black < white then WhiteWins else Draw)
  }

  /** run_othello_live(blackai, whiteai, board): the game loop and the verdict. */
  method RunLive(e: Engine, blackAI: Player, whiteAI: Player, arg: BoardArg) returns (r: LiveResult)
    requires FillsACell(e)
    requires ArgOk(arg)
    ensures r == Final(Live(e, blackAI, whiteAI, StartBoard(arg)))
  {
    var board := StartBoard(arg);
    ghost var target := Final(Live(e, blackAI, whiteAI, board));
    var blackError, whiteError := false, false;
    var moved := true;
    while moved || e.canPlace(board, BLACK) || e.canPlace(board, WHITE)
      invariant !whiteError
      invariant !blackError ==> Final(Live(e, blackAI, whiteAI, board)) == target
      invariant blackError ==> Final(LiveGame(board, true, false, [])) == target
      decreases CountStones(board, EMPTY)
    {
      var t1, b1 := PlayTurn(e, blackAI, BLACK, board);
      LiveRound(e, blackAI, whiteAI, board);
      if t1.Crashed? || t1.Forfeited? {
        blackError := true;
        break;
      }
      var t2, b2 := PlayTurn(e, whiteAI, WHITE, b1);
      if t2.Crashed? || t2.Forfeited? {
        board, whiteError := b1, true;
        break;
      }
      board, moved := b2, t1.Played? || t2.Played?;
      if !e.canPlace(board, BLACK) && !e.canPlace(board, WHITE) {
        break;
      }
    }
    assert Final(LiveGame(board, blackError, whiteError, [])) == target;
    r := Report(board, blackError, whiteError);
  }

  /** The live game from `board`, after its first round. */
  lemma LiveRound(e: Engine, blackAI: Player, whiteAI: Player, board: Board)
    requires FillsACell(e)
    ensures var t1 := TakeTurn(e, blackAI, BLACK, board);
      var b1 := After(t1, board);
      var t2 := TakeTurn(e, whiteAI, WHITE, b1);
      var b2 := After(t2, b1);
      var f := Final(Live(e, blackAI, whiteAI, board));
      (t1.Crashed? || t1.Forfeited? ==> f == Final(LiveGame(board, true, false, []))) &&
      (!t1.Crashed? && !t1.Forfeited? ==>
        (t2.Crashed? || t2.Forfeited? ==> f == Final(LiveGame(b1, false, true, []))) &&
        (!t2.Crashed? && !t2.Forfeited? ==>
          if !e.canPlace(b2, BLACK) && !e.canPlace(b2, WHITE)
          then f == Final(LiveGame(b2, false, false, []))
          else f == Final(Live(e, blackAI, whiteAI, b2))))
  {
  }

  /** The end of run_othello_live: the stone counts, a faulting side's set to
      0, and the winner they give. */
  method Report(board: Board, blackError: bool, whiteError: bool) returns (r: LiveResult)
    ensures r == Final(LiveGame(board, blackError, whiteError, []))
  {
    var black, white;
    if blackError {
      black, white := 0, CountStone(board).1;
    } else if whiteError {
      black, white := CountStone(board).0, 0;
    } else {
      black, white := CountStone(board).0, CountStone(board).1;
    }
    var winner;
    if black > white {
      winner := BlackWins;
    } else if black < white {
      winner := WhiteWins;
    } else {
      winner := Draw;
    }
    r := LiveResult(black, white, winner);
  }

  /** A live game that ends without a fault ends with neither side able to place. */
  lemma {:induction false} LiveEndsBlocked(e: Engine, blackAI: Player, whiteAI: Player, board: Board)
    requires FillsACell(e)
    ensures var g := Live(e, blackAI, whiteAI, board);
      !g.blackError && !g.whiteError ==> !e.canPlace(g.board, BLACK) && !e.canPlace(g.board, WHITE)
    decreases CountStones(board, EMPTY)
  {
    var t1 := TakeTurn(e, blackAI, BLACK, board);
    if !(t1.Crashed? || t1.Forfeited?) {
      var b1 := After(t1, board);
      var t2 := TakeTurn(e, whiteAI, WHITE, b1);
      if !(t2.Crashed? || t2.Forfeited?) {
        var b2 := After(t2, b1);
        if e.canPlace(b2, BLACK) || e.canPlace(b2, WHITE) {
          LiveEndsBlocked(e, blackAI, whiteAI, b2);
        }
      }
    }
  }

  /** A live game reports a side in error only when that side, on the final
      board, could place and either raised or answered an unaccepted cell. */
  lemma {:induction false} LiveFaultsAreReal(e: Engine, blackAI: Player, whiteAI: Player, board: Board)
    requires FillsACell(e)
    ensures var g := Live(e, blackAI, whiteAI, board);
      (g.blackError ==> var t := TakeTurn(e, blackAI, BLACK, g.board); t.Crashed? || t.Forfeited?) &&
      (g.whiteError ==> var t := TakeTurn(e, whiteAI, WHITE, g.board); t.Crashed? || t.Forfeited?)
    decreases CountStones(board, EMPTY)
  {
    var t1 := TakeTurn(e, blackAI, BLACK, board);
    if !(t1.Crashed? || t1.Forfeited?) {
      var b1 := After(t1, board);
      var t2 := TakeTurn(e, whiteAI, WHITE, b1);
      if !(t2.Crashed? || t2.Forfeited?) {
        var b2 := After(t2, b1);
        if e.canPlace(b2, BLACK) || e.canPlace(b2, WHITE) {
          LiveFaultsAreReal(e, blackAI, whiteAI, b2);
        }
      }
    }
  }

  /** Every move of a live game was accepted by the engine where it was made:
      replaying them from the start reaches the final board. */
  lemma {:induction false} LiveReplays(e: Engine, blackAI: Player, whiteAI: Player, board: Board)
    requires FillsACell(e)
    ensures Replay(e, board, Live(e, blackAI, whiteAI, board).moves) == Some(Live(e, blackAI, whiteAI, board).board)
    decreases CountStones(board, EMPTY)
  {
    var t1 := TakeTurn(e, blackAI, BLACK, board);
    if !(t1.Crashed? || t1.Forfeited?) {
      var b1 := After(t1, board);
      var t2 := TakeTurn(e, whiteAI, WHITE, b1);
      if t2.Crashed? || t2.Forfeited? {
        ReplayStep(e, t1, board, []);
        assert MovesOf(t1) + [] == MovesOf(t1);
      } else {
        var b2 := After(t2, b1);
        var g := Live(e, blackAI, whiteAI, board);
        var tail: seq<Move>;
        if !e.canPlace(b2, BLACK) && !e.canPlace(b2, WHITE) {
          tail := [];
          assert g.moves == MovesOf(t1) + MovesOf(t2) + tail;
          assert g.board == b2;
        } else {
          LiveReplays(e, blackAI, whiteAI, b2);
          var rest := Live(e, blackAI, whiteAI, b2);
          tail := rest.moves;
          assert g.moves == MovesOf(t1) + MovesOf(t2) + tail;
          assert Replay(e, b2, tail) == Some(g.board);
        }
        ReplayRound(e, t1, t2, board, tail);
      }
    }
  }

  /** battle_myais's tally of the two games, the first strategy playing black
      in game 1 and white in game 2: (wins1, wins2, draws). */
  function TwoGameWins(winner1: Winner, winner2: Winner): (r: (nat, nat, nat))
    ensures r.0 + r.1 + r.2 == 2
  {
    var wins1 := (if winner1 == BlackWins then 1 else 0) + (if winner2 == WhiteWins then 1 else 0);
    var wins2 := (if winner1 == WhiteWins then 1 else 0) + (if winner2 == BlackWins then 1 else 0);
    var draws := (if winner1 == Draw then 1 else 0) + (if winner2 == Draw then 1 else 0);
    (wins1, wins2, draws)
  }

  /** What battle_myais returns: both games' results and, per name, (wins, stones). */
  datatype DoubleResult = DoubleResult(game1: LiveResult, game2: LiveResult, total: map<string, (int, int)>)

  /** The return value built from the two games: each strategy's stones are
      its black count in the game it played black plus its white count in the
      other. A second name equal to the first overwrites its entry. */
  function DoubleOf(game1: LiveResult, game2: LiveResult, name1: string, name2: string): (r: DoubleResult)
  {
    var wins := TwoGameWins(game1.winner, game2.winner);
    DoubleResult(game1, game2, map[name1 := (wins.0, game1.black + game2.white)][name2 := (wins.1, game1.white + game2.black)])
  }

  /** battle_myais(myai1, myai2, name1, name2, board_size): game 1 with myai1 as
      black, game 2 with myai2 as black, and the tally. */
  method BattleMyais(e: Engine, ai1: Player, ai2: Player, name1: string, name2: string, size: int) returns (r: DoubleResult)
    requires FillsACell(e)
    requires ArgOk(Size(size))
    ensures r.game1 == Final(Live(e, ai1, ai2, StartBoard(Size(size))))
    ensures r.game2 == Final(Live(e, ai2, ai1, StartBoard(Size(size))))
    ensures r == DoubleOf(r.game1, r.game2, name1, name2)
  {
    var game1 := RunLive(e, ai1, ai2, Size(size));
    var game2 := RunLive(e, ai2, ai1, Size(size));
    var draws;
    r, draws := TallyGames(game1, game2, name1, name2);
  }

  /** The overall result of battle_myais: stone totals and the counters
      wins1, wins2 and draws. */
  method TallyGames(game1: LiveResult, game2: LiveResult, name1: string, name2: string) returns (r: DoubleResult, draws: nat)
    ensures r == DoubleOf(game1, game2, name1, name2)
    ensures draws == TwoGameWins(game1.winner, game2.winner).2
    ensures name1 != name2 ==> (r.total[name1].0, r.total[name2].0, draws) == TwoGameWins(game1.winner, game2.winner)
  {
    var total1 := game1.black + game2.white;
    var total2 := game1.white + game2.black;

    var wins1: nat, wins2: nat;
    wins1, wins2, draws := 0, 0, 0;
    if game1.winner == BlackWins {
      wins1 := wins1 + 1;
    } else if game1.winner == WhiteWins {
      wins2 := wins2 + 1;
    } else {
      draws := draws + 1;
    }
    if game2.winner == BlackWins {
      wins2 := wins2 + 1;
    } else if game2.winner == WhiteWins {
      wins1 := wins1 + 1;
    } else {
      draws := draws + 1;
    }
    r := DoubleResult(game1, game2, map[name1 := (wins1, total1)][name2 := (wins2, total2)]);
  }

  /** Swapping the two strategies and their names swaps the two games and
      leaves the standings as they were. */
  lemma DoubleMirror(game1: LiveResult, game2: LiveResult, name1: string, name2: string)
    requires name1 != name2
    ensures DoubleOf(game2, game1, name2, name1) == DoubleResult(game2, game1, DoubleOf(game1, game2, name1, name2).total)
  {
    TwoGameWinsSwap(game1.winner, game2.winner);
    assert DoubleOf(game2, game1, name2, name1).total == DoubleOf(game1, game2, name1, name2).total;
  }

  lemma TwoGameWinsSwap(winner1: Winner, winner2: Winner)
    ensures var r := TwoGameWins(winner1, winner2);
      TwoGameWins(winner2, winner1) == (r.1, r.0, r.2)
  {
  }

  /** The overall winner battle_myais announces. */
  datatype Champion = FirstStrategy | SecondStrategy | CompleteDraw

  /** More wins decide; equal wins go to more stones; otherwise a complete draw. */
  function Overall(wins1: int, wins2: int, total1: int, total2: int): (c: Champion)
    ensures c == FirstStrategy <==> !Ranking.KeyLe((wins1, total1), (wins2, total2))
    ensures c == SecondStrategy <==> !Ranking.KeyLe((wins2, total2), (wins1, total1))
    ensures c == CompleteDraw <==> wins1 == wins2 && total1 == total2
  {
    if wins1 > wins2 then FirstStrategy
    else if wins1 < wins2 then SecondStrategy
    else if total1 > total2 then FirstStrategy
    else if total1 < total2 then SecondStrategy
    else CompleteDraw
  }

  /** One row of a round-robin table. */
  datatype Standing = Standing(wins: int, losses: int, draws: int, stones: int)

  /** The rows of a round-robin results dict, by name. The key order is fixed
      when the dict is built and kept by every update. */
  type Table = map<string, Standing>

  const Blank := Standing(0, 0, 0, 0)

  /** Two rows added column by column. */
  function Plus(a: Standing, b: Standing): Standing
  {
    Standing(a.wins + b.wins, a.losses + b.losses, a.draws + b.draws, a.stones + b.stones)
  }

  lemma PlusBlank(a: Standing)
    ensures Plus(Blank, a) == a
  {
    assert Plus(Blank, a) == Standing(a.wins, a.losses, a.draws, a.stones);
  }

  function Minus(a: Standing, b: Standing): Standing
  {
    Standing(a.wins - b.wins, a.losses - b.losses, a.draws - b.draws, a.stones - b.stones)
  }

  /** The key order of {name: ... for name in names}: each name once, where it
      first appears. */
  function KeyOrder(names: seq<string>): (keys: seq<string>)
    ensures PyDict.Distinct(keys)
    ensures forall k :: k in keys <==> k in names
    decreases |names|
  {
    if |names| == 0 then []
    else
      var front := KeyOrder(names[..|names| - 1]);
      var last := names[|names| - 1];
      assert forall k :: k in names <==> k in names[..|names| - 1] || k == last by {
        assert names == names[..|names| - 1] + [last];
      }
      if last in front then front
      else
        assert (front + [last])[..|front|] == front;
        front + [last]
  }

  /** The position where `k` first appears in `names`. */
  function FirstAt(names: seq<string>, k: string): (i: nat)
    requires k in names
    ensures i < |names| && names[i] == k
    ensures forall j :: 0 <= j < i ==> names[j] != k
    decreases |names|
  {
    if names[0] == k then 0
    else
      assert names == [names[0]] + names[1..];
      1 + FirstAt(names[1..], k)
  }

  /** A name already in the front of the list first appears where it did there. */
  lemma FirstAtPrefix(names: seq<string>, k: string)
    requires |names| > 0 && k in names[..|names| - 1]
    ensures FirstAt(names, k) == FirstAt(names[..|names| - 1], k)
  {
    var p := FirstAt(names[..|names| - 1], k);
    var q := FirstAt(names, k);
    assert names[p] == k;
    assert q <= p;
    assert names[..|names| - 1][q] == k;
  }

  /** A name new at the end of the list first appears there. */
  lemma FirstAtLast(names: seq<string>)
    requires |names| > 0 && names[|names| - 1] !in names[..|names| - 1]
    ensures FirstAt(names, names[|names| - 1]) == |names| - 1
  {
    forall j | 0 <= j < |names| - 1
      ensures names[j] != names[|names| - 1]
    {
      assert names[j] == names[..|names| - 1][j];
    }
  }

  /** The keys come in the order in which the names first appear. */
  lemma {:induction false} KeyOrderFirstSeen(names: seq<string>)
    ensures forall i, j :: 0 <= i < j < |KeyOrder(names)| ==>
      FirstAt(names, KeyOrder(names)[i]) < FirstAt(names, KeyOrder(names)[j])
    decreases |names|
  {
    if |names| > 0 {
      var front_names := names[..|names| - 1];
      var front := KeyOrder(front_names);
      var last := names[|names| - 1];
      KeyOrderFirstSeen(front_names);
      forall k | k in front
        ensures FirstAt(names, k) == FirstAt(front_names, k) < |names| - 1
      {
        FirstAtPrefix(names, k);
      }
      if last !in front {
        FirstAtLast(names);
        var keys := front + [last];
        assert KeyOrder(names) == keys;
        forall i, j | 0 <= i < j < |keys|
          ensures FirstAt(names, keys[i]) < FirstAt(names, keys[j])
        {
          assert keys[i] == front[i] && keys[i] in front;
          if j < |front| {
            assert keys[j] == front[j] && keys[j] in front;
            assert FirstAt(front_names, front[i]) < FirstAt(front_names, front[j]);
          } else {
            assert keys[j] == last;
          }
        }
      } else {
        assert KeyOrder(names) == front;
      }
    }
  }

  /** {name: {'wins': 0, 'losses': 0, 'draws': 0, 'stones': 0} for name in names} */
  function FreshTable(names: seq<string>): (t: Table)
    ensures forall k :: k in t <==> k in names
    ensures forall k :: k in t ==> t[k] == Blank
  {
    map k | k in names :: Blank
  }

  /** results[name1]['stones'] += black; results[name2]['stones'] += white */
  function AddStones(t: Table, name1: string, name2: string, black: int, white: int): (t': Table)
    requires name1 in t && name2 in t
    ensures t'.Keys == t.Keys
  {
    var t1 := t[name1 := t[name1].(stones := t[name1].stones + black)];
    t1[name2 := t1[name2].(stones := t1[name2].stones + white)]
  }

  /** Black's row after the game: a win, a loss or a draw more. */
  function BlackCredit(s: Standing, winner: Winner): Standing
  {
    match winner
    case BlackWins => s.(wins := s.wins + 1)
    case WhiteWins => s.(losses := s.losses + 1)
    case Draw => s.(draws := s.draws + 1)
  }

  /** White's row after the game. */
  function WhiteCredit(s: Standing, winner: Winner): Standing
  {
    match winner
    case BlackWins => s.(losses := s.losses + 1)
    case WhiteWins => s.(wins := s.wins + 1)
    case Draw => s.(draws := s.draws + 1)
  }

  /** The win and loss, or the two draws, of one game: black's row first, then
      white's, so equal names update one row twice. */
  function AddOutcome(t: Table, name1: string, name2: string, winner: Winner): (t': Table)
    requires name1 in t && name2 in t
    ensures t'.Keys == t.Keys
  {
    var t1 := t[name1 := BlackCredit(t[name1], winner)];
    t1[name2 := WhiteCredit(t1[name2], winner)]
  }

  /** The table after one game with name1 as black and name2 as white. */
  function RecordGame(t: Table, name1: string, name2: string, r: LiveResult): (t': Table)
    requires name1 in t && name2 in t
    ensures t'.Keys == t.Keys
  {
    AddOutcome(AddStones(t, name1, name2, r.black, r.white), name1, name2, r.winner)
  }

  /** `keys` lists the names of table t, each once. */
  ghost predicate Lists(keys: seq<string>, t: Table)
  {
    PyDict.Distinct(keys) && forall k :: k in t <==> k in keys
  }

  /** The column totals of the rows named by `keys`. */
  function SumRows(keys: seq<string>, t: Table): Standing
    requires forall k :: k in keys ==> k in t
    decreases |keys|
  {
    if |keys| == 0 then Blank else Plus(SumRows(keys[..|keys| - 1], t), t[keys[|keys| - 1]])
  }

  lemma {:induction false} SumRowsUntouched(keys: seq<string>, t: Table, k: string, s: Standing)
    requires forall k' :: k' in keys ==> k' in t
    requires k !in keys
    ensures SumRows(keys, t[k := s]) == SumRows(keys, t)
    decreases |keys|
  {
    if |keys| > 0 {
      SumRowsUntouched(keys[..|keys| - 1], t, k, s);
    }
  }

  /** Replacing one listed row changes the totals by the difference of the rows. */
  lemma {:induction false} SumRowsUpdate(keys: seq<string>, t: Table, k: string, s: Standing)
    requires forall k' :: k' in keys ==> k' in t
    requires PyDict.Distinct(keys) && k in keys
    ensures SumRows(keys, t[k := s]) == Plus(Minus(SumRows(keys, t), t[k]), s)
    decreases |keys|
  {
    var front := keys[..|keys| - 1];
    assert keys == front + [keys[|keys| - 1]];
    if keys[|keys| - 1] == k {
      SumRowsUntouched(front, t, k, s);
    } else {
      SumRowsUpdate(front, t, k, s);
    }
  }

  /** What one game adds to the column totals: a win and a loss, or two draws,
      and the stones of both sides. */
  function Share(r: LiveResult): Standing
  {
    if r.winner == Draw then Standing(0, 0, 2, r.black + r.white) else Standing(1, 1, 0, r.black + r.white)
  }

  /** The stones of a game go to the stones column and nowhere else. */
  lemma AddStonesTotals(keys: seq<string>, t: Table, name1: string, name2: string, black: int, white: int)
    requires Lists(keys, t) && name1 in t && name2 in t
    ensures SumRows(keys, AddStones(t, name1, name2, black, white)) == Plus(SumRows(keys, t), Standing(0, 0, 0, black + white))
  {
    var t1 := t[name1 := t[name1].(stones := t[name1].stones + black)];
    SumRowsUpdate(keys, t, name1, t[name1].(stones := t[name1].stones + black));
    SumRowsUpdate(keys, t1, name2, t1[name2].(stones := t1[name2].stones + white));
  }

  /** A decided game adds one win and one loss, a drawn game two draws. */
  lemma AddOutcomeTotals(keys: seq<string>, t: Table, name1: string, name2: string, winner: Winner)
    requires Lists(keys, t) && name1 in t && name2 in t
    ensures SumRows(keys, AddOutcome(t, name1, name2, winner)) ==
      Plus(SumRows(keys, t), if winner == Draw then Standing(0, 0, 2, 0) else Standing(1, 1, 0, 0))
  {
    var t1 := t[name1 := BlackCredit(t[name1], winner)];
    SumRowsUpdate(keys, t, name1, BlackCredit(t[name1], winner));
    SumRowsUpdate(keys, t1, name2, WhiteCredit(t1[name2], winner));
  }

  /** Each game adds exactly its share to the column totals. */
  lemma RecordGameTotals(keys: seq<string>, t: Table, name1: string, name2: string, r: LiveResult)
    requires Lists(keys, t) && name1 in t && name2 in t
    ensures SumRows(keys, RecordGame(t, name1, name2, r)) == Plus(SumRows(keys, t), Share(r))
  {
    AddStonesTotals(keys, t, name1, name2, r.black, r.white);
    AddOutcomeTotals(keys, AddStones(t, name1, name2, r.black, r.white), name1, name2, r.winner);
  }

  /** A game that was played and recorded: black's name, white's name, result. */
  datatype Bout = Bout(black: string, white: string, result: LiveResult)

  /** Every player of `games` has a row in t. */
  ghost predicate Seated(t: Table, games: seq<Bout>)
    decreases |games|
  {
    |games| == 0 ||
    (Seated(t, games[..|games| - 1]) && games[|games| - 1].black in t && games[|games| - 1].white in t)
  }

  /** The table after recording `games` in order. */
  function Record(t: Table, games: seq<Bout>): (t': Table)
    requires Seated(t, games)
    ensures t'.Keys == t.Keys
    decreases |games|
  {
    if |games| == 0 then t
    else
      var g := games[|games| - 1];
      RecordGame(Record(t, games[..|games| - 1]), g.black, g.white, g.result)
  }

  /** The shares of `games`, added up. */
  function Shares(games: seq<Bout>): Standing
    decreases |games|
  {
    if |games| == 0 then Blank else Plus(Shares(games[..|games| - 1]), Share(games[|games| - 1].result))
  }

  /** Recording games adds exactly their shares to the column totals. */
  lemma {:induction false} RecordTotals(keys: seq<string>, t: Table, games: seq<Bout>)
    requires Lists(keys, t) && Seated(t, games)
    ensures SumRows(keys, Record(t, games)) == Plus(SumRows(keys, t), Shares(games))
    decreases |games|
  {
    if |games| > 0 {
      var front := games[..|games| - 1];
      var g := games[|games| - 1];
      RecordTotals(keys, t, front);
      RecordGameTotals(keys, Record(t, front), g.black, g.white, g.result);
    }
  }

  /** The number of drawn games among `games`. */
  function DrawnCount(games: seq<Bout>): nat
    decreases |games|
  {
    if |games| == 0 then 0
    else DrawnCount(games[..|games| - 1]) + (if games[|games| - 1].result.winner == Draw then 1 else 0)
  }

  /** The shares balance: as many wins as losses, one win or two draws per
      game, and every reported stone. */
  lemma {:induction false} SharesBalance(games: seq<Bout>)
    ensures Shares(games).wins == Shares(games).losses == |games| - DrawnCount(games)
    ensures Shares(games).draws == 2 * DrawnCount(games)
    decreases |games|
  {
    if |games| > 0 {
      SharesBalance(games[..|games| - 1]);
    }
  }

  /** A fresh table totals zero in every column. */
  lemma {:induction false} FreshTotals(keys: seq<string>, names: seq<string>)
    requires forall k :: k in keys ==> k in names
    ensures SumRows(keys, FreshTable(names)) == Blank
    decreases |keys|
  {
    if |keys| > 0 {
      FreshTotals(keys[..|keys| - 1], names);
    }
  }

  /** Lexicographic order on (i, j): the outer loop's index first. */
  predicate Earlier(p: (int, int), q: (int, int))
  {
    p.0 < q.0 || (p.0 == q.0 && p.1 < q.1)
  }

  /** The pairs (i, c) the inner loop visits for c < j, skipping i itself. */
  function RowPairs(i: int, j: nat): (r: seq<(int, int)>)
    ensures |r| == if 0 <= i < j then j - 1 else j
    decreases j
  {
    if j == 0 then [] else RowPairs(i, j - 1) + (if i != j - 1 then [(i, j - 1)] else [])
  }

  lemma {:induction false} RowPairsIndex(i: int, j: nat)
    ensures forall x :: 0 <= x < |RowPairs(i, j)| ==>
      RowPairs(i, j)[x].0 == i && 0 <= RowPairs(i, j)[x].1 < j && RowPairs(i, j)[x].1 != i
    decreases j
  {
    if j > 0 {
      RowPairsIndex(i, j - 1);
    }
  }

  /** Row i visits every other column below j. */
  lemma {:induction false} RowPairsCover(i: int, j: nat)
    ensures forall a, c :: (a, c) in RowPairs(i, j) <==> a == i && 0 <= c < j && c != i
    decreases j
  {
    if j > 0 {
      RowPairsCover(i, j - 1);
    }
  }

  /** Row i visits its columns in increasing order. */
  lemma {:induction false} RowPairsSorted(i: int, j: nat)
    ensures forall x, y :: 0 <= x < y < |RowPairs(i, j)| ==> RowPairs(i, j)[x].1 < RowPairs(i, j)[y].1
    decreases j
  {
    if j > 0 {
      RowPairsSorted(i, j - 1);
      RowPairsIndex(i, j - 1);
    }
  }

  /** The ordered pairs of the first m rounds of the outer loop over n
      entrants, in the order the loops visit them. */
  function Pairs(n: nat, m: nat): seq<(int, int)>
    requires m <= n
    decreases m
  {
    if m == 0 then [] else Pairs(n, m - 1) + RowPairs(m - 1, n)
  }

  /** Every scheduled pair is two different entrants, the first below m. */
  lemma {:induction false} PairsIndex(n: nat, m: nat)
    requires m <= n
    ensures forall x :: 0 <= x < |Pairs(n, m)| ==>
      0 <= Pairs(n, m)[x].0 < m && 0 <= Pairs(n, m)[x].1 < n && Pairs(n, m)[x].0 != Pairs(n, m)[x].1
    decreases m
  {
    if m > 0 {
      PairsIndex(n, m - 1);
      RowPairsIndex(m - 1, n);
    }
  }

  /** The first m rounds hold every ordered pair of two different entrants
      whose first index is below m. */
  lemma {:induction false} PairsCover(n: nat, m: nat)
    requires m <= n
    ensures forall a, b :: (a, b) in Pairs(n, m) <==> 0 <= a < m && 0 <= b < n && a != b
    decreases m
  {
    if m > 0 {
      PairsCover(n, m - 1);
      RowPairsCover(m - 1, n);
      forall a, b
        ensures (a, b) in Pairs(n, m) <==> 0 <= a < m && 0 <= b < n && a != b
      {
        assert (a, b) in Pairs(n, m) <==> (a, b) in Pairs(n, m - 1) || (a, b) in RowPairs(m - 1, n);
      }
    }
  }

  /** The loops visit the pairs in increasing order, so none twice. */
  lemma {:induction false} PairsOrdered(n: nat, m: nat)
    requires m <= n
    ensures forall x, y :: 0 <= x < y < |Pairs(n, m)| ==> Earlier(Pairs(n, m)[x], Pairs(n, m)[y])
    decreases m
  {
    if m > 0 {
      PairsOrdered(n, m - 1);
      PairsIndex(n, m - 1);
      RowPairsIndex(m - 1, n);
      RowPairsSorted(m - 1, n);
    }
  }

  lemma MulStep(m: int, k: int)
    ensures m * k == (m - 1) * k + k
  {
  }

  /** m rounds over n entrants schedule m * (n - 1) games. */
  lemma {:induction false} PairsCount(n: nat, m: nat)
    requires m <= n
    ensures |Pairs(n, m)| == m * (n - 1)
    decreases m
  {
    if m > 0 {
      PairsCount(n, m - 1);
      MulStep(m, n - 1);
    }
  }

  /** The games of `pairs` that did not raise, in order. */
  function Played(games: (int, int) -> Option<Bout>, pairs: seq<(int, int)>): (r: seq<Bout>)
    ensures |r| <= |pairs|
    decreases |pairs|
  {
    if |pairs| == 0 then []
    else
      var p := pairs[|pairs| - 1];
      Played(games, pairs[..|pairs| - 1]) + (if games(p.0, p.1).Some? then [games(p.0, p.1).value] else [])
  }

  /** With no game raising, every pair is played. */
  lemma {:induction false} AllPlayed(games: (int, int) -> Option<Bout>, pairs: seq<(int, int)>)
    requires forall x :: 0 <= x < |pairs| ==> games(pairs[x].0, pairs[x].1).Some?
    ensures |Played(games, pairs)| == |pairs|
    decreases |pairs|
  {
    if |pairs| > 0 {
      AllPlayed(games, pairs[..|pairs| - 1]);
    }
  }

  /** The names of the entrants, in order. */
  function NamesOf(ais: seq<(string, Player)>): (r: seq<string>)
    ensures |r| == |ais|
    ensures forall k :: 0 <= k < |ais| ==> r[k] == ais[k].0
  {
    seq(|ais|, k requires 0 <= k < |ais| => ais[k].0)
  }

  /** games(i, j) is the recorded game of entrant i as black against entrant
      j as white, under their names, or None when no game was recorded. */
  ghost predicate Fits(names: seq<string>, games: (int, int) -> Option<Bout>)
  {
    forall i, j {:trigger games(i, j)} :: games(i, j).Some? ==>
      0 <= i < |names| && 0 <= j < |names| && games(i, j).value.black == names[i] && games(i, j).value.white == names[j]
  }

  /** What Fits says about one recorded game. */
  lemma FitsAt(names: seq<string>, games: (int, int) -> Option<Bout>, i: int, j: int)
    requires Fits(names, games) && games(i, j).Some?
    ensures 0 <= i < |names| && 0 <= j < |names|
    ensures games(i, j).value.black == names[i] && games(i, j).value.white == names[j]
  {
  }

  /** The game of entrant i as black against entrant j as white, None when
      it raised or run_othello_live cannot start from the board argument. */
  ghost function Fixture(e: Engine, ais: seq<(string, Player)>, arg: BoardArg, raised: (int, int) -> bool, i: int, j: int): (g: Option<Bout>)
    ensures g.Some? <==> 0 <= i < |ais| && 0 <= j < |ais| && !raised(i, j) && FillsACell(e) && ArgOk(arg)
    ensures g.Some? ==> g.value == Bout(ais[i].0, ais[j].0, Final(Live(e, ais[i].1, ais[j].1, StartBoard(arg))))
  {
    if 0 <= i < |ais| && 0 <= j < |ais| && !raised(i, j) && FillsACell(e) && ArgOk(arg)
    then Some(Bout(ais[i].0, ais[j].0, Final(Live(e, ais[i].1, ais[j].1, StartBoard(arg)))))
    else None
  }

  /** All the games of a round robin over `ais`. */
  ghost function LiveGames(e: Engine, ais: seq<(string, Player)>, arg: BoardArg, raised: (int, int) -> bool): (games: (int, int) -> Option<Bout>)
    ensures Fits(NamesOf(ais), games)
    ensures forall i, j :: games(i, j) == Fixture(e, ais, arg, raised, i, j)
  {
    (i: int, j: int) => Fixture(e, ais, arg, raised, i, j)
  }

  /** Every recorded game is between two entrants. */
  lemma {:induction false} PlayedSeated(names: seq<string>, games: (int, int) -> Option<Bout>, pairs: seq<(int, int)>)
    requires Fits(names, games)
    ensures Seated(FreshTable(names), Played(games, pairs))
    decreases |pairs|
  {
    if |pairs| > 0 {
      var front := pairs[..|pairs| - 1];
      PlayedSeated(names, games, front);
      var p := pairs[|pairs| - 1];
      if games(p.0, p.1).Some? {
        var g := games(p.0, p.1).value;
        var r := Played(games, front) + [g];
        assert Played(games, pairs) == r;
        assert r[..|r| - 1] == Played(games, front);
        FitsAt(names, games, p.0, p.1);
      } else {
        assert Played(games, pairs) == Played(games, front) + [] == Played(games, front);
      }
    }
  }

  /** The games a round robin records, in the order of the loops. */
  ghost function Schedule(names: seq<string>, games: (int, int) -> Option<Bout>): (r: seq<Bout>)
    requires Fits(names, games)
    ensures Seated(FreshTable(names), r)
  {
    PlayedSeated(names, games, Pairs(|names|, |names|));
    Played(games, Pairs(|names|, |names|))
  }

  /** The table after the recorded games of `pairs`, one pair at a time as
      the loops go. */
  ghost function Progress(names: seq<string>, games: (int, int) -> Option<Bout>, pairs: seq<(int, int)>): (t: Table)
    requires Fits(names, games)
    ensures t.Keys == FreshTable(names).Keys
    decreases |pairs|
  {
    if |pairs| == 0 then FreshTable(names)
    else
      var before := Progress(names, games, pairs[..|pairs| - 1]);
      var g := games(pairs[|pairs| - 1].0, pairs[|pairs| - 1].1);
      if g.Some? then
        FitsAt(names, games, pairs[|pairs| - 1].0, pairs[|pairs| - 1].1);
        RecordGame(before, g.value.black, g.value.white, g.value.result) else before
  }

  /** The results table of a round robin. */
  ghost function RoundRobinTable(names: seq<string>, games: (int, int) -> Option<Bout>): Table
    requires Fits(names, games)
  {
    Progress(names, games, Pairs(|names|, |names|))
  }

  /** Recording pair by pair is recording the played games in order. */
  lemma {:induction false} ProgressIsRecord(names: seq<string>, games: (int, int) -> Option<Bout>, pairs: seq<(int, int)>)
    requires Fits(names, games)
    ensures Seated(FreshTable(names), Played(games, pairs))
    ensures Progress(names, games, pairs) == Record(FreshTable(names), Played(games, pairs))
    decreases |pairs|
  {
    PlayedSeated(names, games, pairs);
    if |pairs| > 0 {
      var front := pairs[..|pairs| - 1];
      var p := pairs[|pairs| - 1];
      ProgressIsRecord(names, games, front);
      if games(p.0, p.1).Some? {
        var r := Played(games, front) + [games(p.0, p.1).value];
        assert Played(games, pairs) == r;
        assert r[..|r| - 1] == Played(games, front);
      } else {
        assert Played(games, pairs) == Played(games, front) + [] == Played(games, front);
      }
    }
  }

  /** Over the whole table, wins equal losses, each recorded game counts once
      (one win or two draws) and the stones are the reported ones. */
  lemma RoundRobinBalance(names: seq<string>, games: (int, int) -> Option<Bout>)
    requires Fits(names, games)
    ensures var played := Schedule(names, games);
      var totals := SumRows(KeyOrder(names), RoundRobinTable(names, games));
      totals == Shares(played) &&
      totals.wins == totals.losses == |played| - DrawnCount(played) &&
      totals.draws == 2 * DrawnCount(played)
  {
    var keys := KeyOrder(names);
    var played := Schedule(names, games);
    var empty := FreshTable(names);
    ProgressIsRecord(names, games, Pairs(|names|, |names|));
    assert RoundRobinTable(names, games) == Record(empty, played);
    RecordTotals(keys, empty, played);
    FreshTotals(keys, names);
    var shares := Shares(played);
    PlusBlank(shares);
    SharesBalance(played);
  }

  /** A game between two entrants that does not raise is played. */
  lemma FixtureSome(e: Engine, ais: seq<(string, Player)>, arg: BoardArg, raised: (int, int) -> bool, i: int, j: int)
    requires FillsACell(e) && ArgOk(arg) && !raised(i, j)
    requires 0 <= i < |ais| && 0 <= j < |ais|
    ensures LiveGames(e, ais, arg, raised)(i, j).Some?
  {
    assert LiveGames(e, ais, arg, raised)(i, j) == Fixture(e, ais, arg, raised, i, j);
  }

  /** With no game raising, a round robin over n entrants plays n * (n - 1) games. */
  lemma RoundRobinCount(e: Engine, ais: seq<(string, Player)>, arg: BoardArg, raised: (int, int) -> bool)
    requires FillsACell(e) && ArgOk(arg) && forall i, j :: !raised(i, j)
    ensures |Schedule(NamesOf(ais), LiveGames(e, ais, arg, raised))| == |ais| * (|ais| - 1)
  {
    var games := LiveGames(e, ais, arg, raised);
    forall i, j | 0 <= i < |ais| && 0 <= j < |ais|
      ensures games(i, j).Some?
    {
      FixtureSome(e, ais, arg, raised, i, j);
    }
    PairsPlayed(games, |ais|);
  }

  /** What the hypothesis of PairsPlayed says about one pair. */
  lemma GameAt(games: (int, int) -> Option<Bout>, n: nat, i: int, j: int)
    requires forall a, b :: 0 <= a < n && 0 <= b < n ==> games(a, b).Some?
    requires 0 <= i < n && 0 <= j < n
    ensures games(i, j).Some?
  {
  }

  /** When every game between n entrants is recorded, the schedule of all
      rounds plays n * (n - 1) games. */
  lemma PairsPlayed(games: (int, int) -> Option<Bout>, n: nat)
    requires forall a, b :: 0 <= a < n && 0 <= b < n ==> games(a, b).Some?
    ensures |Played(games, Pairs(n, n))| == n * (n - 1)
  {
    var pairs := Pairs(n, n);
    PairsIndex(n, n);
    forall x | 0 <= x < |pairs|
      ensures games(pairs[x].0, pairs[x].1).Some?
    {
      var p := pairs[x];
      GameAt(games, n, p.0, p.1);
    }
    AllPlayed(games, pairs);
    PairsCount(n, n);
  }

  /** The in-place updates of one game's result: the stones of both sides,
      then black's and white's outcome. */
  method RecordResult(rows: Table, name1: string, name2: string, r: LiveResult) returns (rows': Table)
    requires name1 in rows && name2 in rows
    ensures rows' == RecordGame(rows, name1, name2, r)
  {
    rows' := rows[name1 := rows[name1].(stones := rows[name1].stones + r.black)];
    rows' := rows'[name2 := rows'[name2].(stones := rows'[name2].stones + r.white)];
    if r.winner == BlackWins {
      rows' := rows'[name1 := rows'[name1].(wins := rows'[name1].wins + 1)];
      rows' := rows'[name2 := rows'[name2].(losses := rows'[name2].losses + 1)];
    } else if r.winner == WhiteWins {
      rows' := rows'[name1 := rows'[name1].(losses := rows'[name1].losses + 1)];
      rows' := rows'[name2 := rows'[name2].(wins := rows'[name2].wins + 1)];
    } else {
      rows' := rows'[name1 := rows'[name1].(draws := rows'[name1].draws + 1)];
      rows' := rows'[name2 := rows'[name2].(draws := rows'[name2].draws + 1)];
    }
  }

  /** One scheduled game: played and recorded, unless it raises or the board
      argument is one run_othello_live cannot start from. */
  method PlayPair(e: Engine, ais: seq<(string, Player)>, arg: BoardArg, raised: (int, int) -> bool,
                  rows: Table, ghost done: seq<(int, int)>, i: int, j: int) returns (rows': Table)
    requires FillsACell(e)
    requires 0 <= i < |ais| && 0 <= j < |ais|
    requires rows == Progress(NamesOf(ais), LiveGames(e, ais, arg, raised), done)
    ensures rows' == Progress(NamesOf(ais), LiveGames(e, ais, arg, raised), done + [(i, j)])
  {
    var next := done + [(i, j)];
    assert next[..|next| - 1] == done;
    assert LiveGames(e, ais, arg, raised)(i, j) == Fixture(e, ais, arg, raised, i, j);
    rows' := rows;
    if !raised(i, j) && ArgOk(arg) {
      var r := RunLive(e, ais[i].1, ais[j].1, arg);
      rows' := RecordResult(rows, ais[i].0, ais[j].0, r);
    }
  }

  /** The inner loop's next column adds the pair (i, j), unless j is i. */
  lemma NextPair(n: nat, i: nat, j: nat)
    requires i <= n
    ensures Pairs(n, i) + RowPairs(i, j + 1) ==
      if i != j then Pairs(n, i) + RowPairs(i, j) + [(i, j)] else Pairs(n, i) + RowPairs(i, j)
  {
    assert RowPairs(i, j + 1) == RowPairs(i, j) + (if i != j then [(i, j)] else []);
  }

  /** Row i of the schedule starts empty... */
  lemma PairsStart(n: nat, i: nat)
    requires i <= n
    ensures Pairs(n, i) + RowPairs(i, 0) == Pairs(n, i)
  {
    assert RowPairs(i, 0) == [];
  }

  /** ...and when complete extends the schedule by one row. */
  lemma PairsStep(n: nat, i: nat)
    requires i < n
    ensures Pairs(n, i + 1) == Pairs(n, i) + RowPairs(i, n)
  {
  }

  /** One step of the inner loop: column j of row i, skipped when j is i. */
  method PlayCell(e: Engine, ais: seq<(string, Player)>, arg: BoardArg, raised: (int, int) -> bool,
                  rows: Table, i: int, j: int) returns (rows': Table)
    requires FillsACell(e)
    requires 0 <= i < |ais| && 0 <= j < |ais|
    requires rows == Progress(NamesOf(ais), LiveGames(e, ais, arg, raised), Pairs(|ais|, i) + RowPairs(i, j))
    ensures rows' == Progress(NamesOf(ais), LiveGames(e, ais, arg, raised), Pairs(|ais|, i) + RowPairs(i, j + 1))
  {
    NextPair(|ais|, i, j);
    rows' := rows;
    if i != j {
      rows' := PlayPair(e, ais, arg, raised, rows, Pairs(|ais|, i) + RowPairs(i, j), i, j);
    }
  }

  /** The inner loop for entrant i as black: every other entrant as white. */
  method PlayRow(e: Engine, ais: seq<(string, Player)>, arg: BoardArg, raised: (int, int) -> bool,
                 rows: Table, i: int) returns (rows': Table)
    requires FillsACell(e)
    requires 0 <= i < |ais|
    requires rows == Progress(NamesOf(ais), LiveGames(e, ais, arg, raised), Pairs(|ais|, i))
    ensures rows' == Progress(NamesOf(ais), LiveGames(e, ais, arg, raised), Pairs(|ais|, i + 1))
  {
    rows' := rows;
    PairsStart(|ais|, i);
    var j := 0;
    while j < |ais|
      invariant 0 <= j <= |ais|
      invariant rows' == Progress(NamesOf(ais), LiveGames(e, ais, arg, raised), Pairs(|ais|, i) + RowPairs(i, j))
    {
      rows' := PlayCell(e, ais, arg, raised, rows', i, j);
      j := j + 1;
    }
    assert j == |ais|;
    PairsStep(|ais|, i);
  }

  /** The round robin of battle_tournament and battle_user_ais: every entrant
      plays every other entrant as black, in the order of the two loops. */
  method RoundRobin(e: Engine, ais: seq<(string, Player)>, arg: BoardArg, raised: (int, int) -> bool)
    returns (results: PyDict.Dict<Standing>)
    requires FillsACell(e)
    ensures PyDict.Valid(results)
    ensures results == PyDict.Dict(KeyOrder(NamesOf(ais)), RoundRobinTable(NamesOf(ais), LiveGames(e, ais, arg, raised)))
  {
    var names := NamesOf(ais);
    var rows := FreshTable(names);
    var i := 0;
    while i < |ais|
      invariant 0 <= i <= |ais|
      invariant rows == Progress(names, LiveGames(e, ais, arg, raised), Pairs(|ais|, i))
    {
      rows := PlayRow(e, ais, arg, raised, rows, i);
      i := i + 1;
    }
    assert i == |ais|;
    results := PyDict.Dict(KeyOrder(names), rows);
  }

  /** battle_tournament(ai_list, board_size): the round robin over the given
      strategies. A game that raises ends the whole call, so none may. */
  method BattleTournament(e: Engine, aiList: seq<(string, Player)>, boardSize: int) returns (results: PyDict.Dict<Standing>)
    requires FillsACell(e)
    requires ArgOk(Size(boardSize))
    ensures PyDict.Valid(results)
    ensures results == PyDict.Dict(KeyOrder(NamesOf(aiList)), RoundRobinTable(NamesOf(aiList), LiveGames(e, aiList, Size(boardSize), NoRaise)))
  {
    results := RoundRobin(e, aiList, Size(boardSize), NoRaise);
  }

  /** No game raises. */
  const NoRaise: (int, int) -> bool := (i: int, j: int) => false

  /** battle_tournament plays every ordered pair of two different entrants:
      n * (n - 1) games, each counted once on each side of the ledger. */
  lemma TournamentPlaysAll(e: Engine, aiList: seq<(string, Player)>, boardSize: int)
    requires FillsACell(e) && ArgOk(Size(boardSize))
    ensures |Schedule(NamesOf(aiList), LiveGames(e, aiList, Size(boardSize), NoRaise))| == |aiList| * (|aiList| - 1)
  {
    RoundRobinCount(e, aiList, Size(boardSize), NoRaise);
  }

  /** f"{generation_id} (user: {user_id})", the user id defaulting to 'unknown'. */
  function EntrantName(u: Scoring.Submission): string
  {
    u.generationId + " (user: " + (if u.userId.Some? then u.userId.value else "unknown") + ")"
  }

  /** The submissions that loaded, named, in order. */
  function Entrants(users: seq<Scoring.Submission>): seq<(string, Player)>
    decreases |users|
  {
    if |users| == 0 then []
    else
      var u := users[|users| - 1];
      Entrants(users[..|users| - 1]) + if u.loadFailed then [] else [(EntrantName(u), u.player)]
  }

  /** The entrants are exactly the submissions that loaded, at most one per
      submission. */
  lemma {:induction false} EntrantsLoaded(users: seq<Scoring.Submission>)
    ensures var r := Entrants(users);
      |r| <= |users| &&
      (forall u :: u in users && !u.loadFailed ==> (EntrantName(u), u.player) in r) &&
      (forall x :: x in r ==> exists u :: u in users && !u.loadFailed && x == (EntrantName(u), u.player))
    decreases |users|
  {
    if |users| > 0 {
      var front := users[..|users| - 1];
      var u := users[|users| - 1];
      assert users == front + [u];
      EntrantsLoaded(front);
    }
  }

  /** One more submission adds its entry when it loaded. */
  lemma EntrantsStep(users: seq<Scoring.Submission>, k: nat)
    requires k < |users|
    ensures Entrants(users[..k + 1]) ==
      Entrants(users[..k]) + if users[k].loadFailed then [] else [(EntrantName(users[k]), users[k].player)]
  {
    assert users[..k + 1][..k] == users[..k];
  }

  /** valid_ais: the loop of battle_user_ais keeping, in order, each
      submission that loaded, under its display name. */
  method LoadedEntrants(users: seq<Scoring.Submission>) returns (valid: seq<(string, Player)>)
    ensures valid == Entrants(users)
  {
    valid := [];
    var k := 0;
    while k < |users|
      invariant 0 <= k <= |users|
      invariant valid == Entrants(users[..k])
    {
      EntrantsStep(users, k);
      if !users[k].loadFailed {
        valid := valid + [(EntrantName(users[k]), users[k].player)];
      }
      k := k + 1;
    }
    assert k == |users|;
    assert users[..k] == users;
  }

  /** battle_user_ais(jsonl_path, board_size): a round robin over the
      submissions that loaded, or None when there are no submissions or
      fewer than two of them loaded. */
  method BattleUserAIs(e: Engine, users: seq<Scoring.Submission>, boardSize: int, raised: (int, int) -> bool)
    returns (results: Option<PyDict.Dict<Standing>>)
    requires FillsACell(e)
    ensures results.None? <==> |Entrants(users)| < 2
    ensures results.Some? ==> PyDict.Valid(results.value)
    ensures results.Some? ==>
      var valid := Entrants(users);
      results.value == PyDict.Dict(KeyOrder(NamesOf(valid)), RoundRobinTable(NamesOf(valid), LiveGames(e, valid, Size(boardSize), raised)))
  {
    if |users| == 0 {
      return None;
    }
    var valid := LoadedEntrants(users);
    if |valid| < 2 {
      return None;
    }
    var table := RoundRobin(e, valid, Size(boardSize), raised);
    return Some(table);
  }

  /** The ranking key of both leaderboards: (3 * wins + draws, stones). */
  function Points(item: (string, Standing)): (int, int)
  {
    (3 * item.1.wins + item.1.draws, item.1.stones)
  }

  /** The printed leaderboard: every row of the results, by descending points
      and then stones. Both functions print it and return the results unsorted. */
  function Leaderboard(results: PyDict.Dict<Standing>): (r: seq<(string, Standing)>)
    requires PyDict.Valid(results)
    ensures multiset(r) == multiset(PyDict.Items(results))
    ensures forall i, j :: 0 <= i < j < |r| ==> Ranking.KeyLe(Points(r[j]), Points(r[i]))
  {
    Ranking.SortDesc(PyDict.Items(results), Points)
  }
}
