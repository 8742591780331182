/** calculate_scores (tournament.py): every submission plays each reference
    strategy twice, first as black, then as white, and scores 3/2/1 per won,
    drawn or lost game; an error zeroes the submission. Also the final ranking
    of main. */
module Scoring {
  import opened Wrappers
  import opened Othello
  import opened Match
  import PyDict
  import Ranking

  /** A loaded submission: its generation id, the userId of its record (None
      when absent), whether loading it failed (adapter.error is set), and the
      strategy the adapter presents. */
  datatype Submission = Submission(generationId: string, userId: Option<string>, loadFailed: bool, player: Player)

  /** A reference strategy and its class name (GreedyAI, CornerAI, LookaheadAI). */
  datatype Reference = Reference(name: string, player: Player)

  /** The fields calculate_scores adds to a submission's record: its score,
      stonesCount_total and, per opponent name, the stones it ended with as
      black (stonesCount_<name>_senkou) and as white (stonesCount_<name>_koukou). */
  datatype Record = Record(score: int, stonesTotal: int, byOpponent: map<string, (int, int)>)

  /** Points of the submission's black game: result 1 (black won) 3, 0 (draw)
      2, 2 (white won) 1; None for anything else, an error. */
  function BlackGamePoints(code: int): (p: Option<int>)
    ensures p == Some(3) <==> code == 1
    ensures p == Some(2) <==> code == 0
    ensures p == Some(1) <==> code == 2
    ensures p.None? <==> code !in {0, 1, 2}
  {
    if code == 1 then Some(3) else if code == 0 then Some(2) else if code == 2 then Some(1) else None
  }

  /** Points of the submission's white game: result 2 (white won) 3, 0 (draw)
      2, 1 (black won) 1; None for anything else, an error. */
  function WhiteGamePoints(code: int): (p: Option<int>)
    ensures p == Some(3) <==> code == 2
    ensures p == Some(2) <==> code == 0
    ensures p == Some(1) <==> code == 1
    ensures p.None? <==> code !in {0, 1, 2}
  {
    if code == 2 then Some(3) else if code == 0 then Some(2) else if code == 1 then Some(1) else None
  }

  /** The variables of calculate_scores' loop over the panel: total_score,
      total_stones_taken, stones_by_opponent, matches_played, is_ai_working. */
  datatype Tally = Tally(score: int, stones: int, byOpponent: map<string, (int, int)>, played: nat, working: bool)

  /** One reference strategy's pair of games added to the tally; once an error
      has occurred nothing more is played. */
  function Step(t: Tally, name: string, asBlack: MatchResult, asWhite: MatchResult): Tally
  {
    if !t.working then t
    else match BlackGamePoints(asBlack.code)
      case None => t.(working := false)
      case Some(p1) =>
        match WhiteGamePoints(asWhite.code)
        case None => t.(score := t.score + p1, stones := t.stones + asBlack.black, played := t.played + 1, working := false)
        case Some(p2) =>
          Tally(t.score + p1 + p2, t.stones + asBlack.black + asWhite.white,
                t.byOpponent[name := (asBlack.black, asWhite.white)], t.played + 2, true)
  }

  /** The submission's game as black against a reference strategy. */
  function BlackGame(e: Engine, u: Submission, ref: Reference, size: int): MatchResult
  {
    Outcome(MatchGame(e, u.player, ref.player, size, DefaultMaxTurns))
  }

  /** The submission's game as white against a reference strategy. */
  function WhiteGame(e: Engine, u: Submission, ref: Reference, size: int): MatchResult
  {
    Outcome(MatchGame(e, ref.player, u.player, size, DefaultMaxTurns))
  }

  /** run_match(user_ai, ref_ai, board_size): the submission plays black. */
  method PlayAsBlack(e: Engine, u: Submission, ref: Reference, size: int) returns (r: MatchResult)
    ensures r == BlackGame(e, u, ref, size)
  {
    r := RunMatch(e, u.player, ref.player, size, DefaultMaxTurns);
  }

  /** run_match(ref_ai, user_ai, board_size): the submission plays white. */
  method PlayAsWhite(e: Engine, u: Submission, ref: Reference, size: int) returns (r: MatchResult)
    ensures r == WhiteGame(e, u, ref, size)
  {
    r := RunMatch(e, ref.player, u.player, size, DefaultMaxTurns);
  }

  /** The submission's pair of games against a reference strategy. */
  function Games(e: Engine, u: Submission, size: int): Reference -> (MatchResult, MatchResult)
  {
    ref => (BlackGame(e, u, ref, size), WhiteGame(e, u, ref, size))
  }

  /** The tally after playing the panel in order, given the results of each pair of games. */
  function PanelTally(panel: seq<Reference>, games: Reference -> (MatchResult, MatchResult)): Tally
    decreases |panel|
  {
    if |panel| == 0 then Tally(0, 0, map[], 0, true)
    else
      var ref := panel[|panel| - 1];
      Step(PanelTally(panel[..|panel| - 1], games), ref.name, games(ref).0, games(ref).1)
  }

  /** The names of the panel. */
  function Names(panel: seq<Reference>): set<string>
  {
    set i | 0 <= i < |panel| :: panel[i].name
  }

  /** The record of a submission that scores 0: every stone field 0. */
  function ZeroRecord(panel: seq<Reference>): Record
  {
    Record(0, 0, map n | n in Names(panel) :: (0, 0))
  }

  /** The record calculate_scores stores for a submission. */
  function SubmissionRecord(e: Engine, u: Submission, panel: seq<Reference>, size: int): Record
  {
    if u.loadFailed then ZeroRecord(panel)
    else
      var t := PanelTally(panel, Games(e, u, size));
      if t.working then Record(t.score, t.stones, t.byOpponent) else ZeroRecord(panel)
  }

  /** The results dictionary after the first n submissions. */
  function Results(e: Engine, users: seq<Submission>, panel: seq<Reference>, size: int): (d: PyDict.Dict<Record>)
    ensures PyDict.Valid(d)
    decreases |users|
  {
    if |users| == 0 then PyDict.Empty()
    else
      var u := users[|users| - 1];
      PyDict.Put(Results(e, users[..|users| - 1], panel, size), u.generationId, SubmissionRecord(e, u, panel, size))
  }

  /** One pass of calculate_scores' inner loop: both games against one
      reference strategy, the first error clearing is_ai_working. */
  method PlayReference(e: Engine, u: Submission, ref: Reference, size: int, before: Tally) returns (t: Tally)
    requires before.working
    ensures t == Step(before, ref.name, BlackGame(e, u, ref, size), WhiteGame(e, u, ref, size))
  {
    t := before;
    // the submission as black: 3 for a win, 2 for a draw, 1 for a loss
    var r1 := PlayAsBlack(e, u, ref, size);
    var p1 := BlackGamePoints(r1.code);
    if p1.None? {
      t := t.(working := false);
      return;
    }
    t := t.(score := t.score + p1.value, stones := t.stones + r1.black, played := t.played + 1);
    // the submission as white
    var r2 := PlayAsWhite(e, u, ref, size);
    var p2 := WhiteGamePoints(r2.code);
    if p2.None? {
      t := t.(working := false);
      return;
    }
    t := t.(score := t.score + p2.value, stones := t.stones + r2.white, played := t.played + 1);
    t := t.(byOpponent := t.byOpponent[ref.name := (r1.black, r2.white)]);
  }

  /** The inner loop of calculate_scores for a submission that loaded: both
      games against each reference strategy, stopping at the first error. */
  method PlayPanel(e: Engine, u: Submission, panel: seq<Reference>, size: int) returns (t: Tally)
    ensures t == PanelTally(panel, Games(e, u, size))
  {
    t := Tally(0, 0, map[], 0, true);
    var i := 0;
    assert panel[..0] == [];
    while i < |panel|
      invariant 0 <= i <= |panel|
      invariant t == PanelTally(panel[..i], Games(e, u, size))
      invariant t.working
    {
      PanelTallyLast(panel, Games(e, u, size), i);
      t := PlayReference(e, u, panel[i], size, t);
      if !t.working {
        FailureIsFinal(panel, Games(e, u, size), i + 1);
        return;
      }
      i := i + 1;
    }
    assert i == |panel|;
    assert panel[..i] == panel;
  }

  /** calculate_scores(user_ais, reference_ais, board_size). */
  method CalculateScores(e: Engine, users: seq<Submission>, panel: seq<Reference>, size: int)
    returns (results: PyDict.Dict<Record>)
    ensures results == Results(e, users, panel, size)
    ensures results.values.Keys == Ids(users)
  {
    results := PyDict.Empty();
    var n := 0;
    while n < |users|
      invariant 0 <= n <= |users|
      invariant results == Results(e, users[..n], panel, size)
    {
      var u := users[n];
      assert users[..n + 1][..n] == users[..n];
      var rec: Record;
      if u.loadFailed {
        rec := ZeroRecord(panel);
      } else {
        var t := PlayPanel(e, u, panel, size);
        if !t.working {
          rec := ZeroRecord(panel);
        } else {
          rec := Record(t.score, t.stones, t.byOpponent);
        }
      }
      results := PyDict.Put(results, u.generationId, rec);
      n := n + 1;
    }
    assert n == |users|;
    assert users[..n] == users;
    ResultsKeys(e, users, panel, size);
  }

  /** The tally after panel[..i + 1] is one step past the tally after panel[..i]. */
  lemma PanelTallyLast(panel: seq<Reference>, games: Reference -> (MatchResult, MatchResult), i: nat)
    requires i < |panel|
    ensures PanelTally(panel[..i + 1], games) ==
      Step(PanelTally(panel[..i], games), panel[i].name, games(panel[i]).0, games(panel[i]).1)
  {
    assert panel[..i + 1][..i] == panel[..i];
  }

  /** Once an error has stopped the panel, later reference strategies change nothing. */
  lemma {:induction false} FailureIsFinal(panel: seq<Reference>, games: Reference -> (MatchResult, MatchResult), k: nat)
    requires k <= |panel|
    requires !PanelTally(panel[..k], games).working
    ensures PanelTally(panel, games) == PanelTally(panel[..k], games)
    decreases |panel|
  {
    if k < |panel| {
      assert panel[..|panel| - 1][..k] == panel[..k];
      FailureIsFinal(panel[..|panel| - 1], games, k);
    } else {
      assert panel[..k] == panel;
    }
  }

  /** The generation ids of the submissions. */
  function Ids(users: seq<Submission>): set<string>
  {
    set i | 0 <= i < |users| :: users[i].generationId
  }

  /** Every submission is listed in the results, and nothing else is. */
  lemma {:induction false} ResultsKeys(e: Engine, users: seq<Submission>, panel: seq<Reference>, size: int)
    ensures Results(e, users, panel, size).values.Keys == Ids(users)
    decreases |users|
  {
    if |users| > 0 {
      var front := users[..|users| - 1];
      ResultsKeys(e, front, panel, size);
      assert Ids(users) == Ids(front) + {users[|users| - 1].generationId} by {
        forall id | id in Ids(users) ensures id in Ids(front) + {users[|users| - 1].generationId} {
          var i :| 0 <= i < |users| && users[i].generationId == id;
          if i < |users| - 1 {
            assert front[i].generationId == id;
          }
        }
        forall id | id in Ids(front) ensures id in Ids(users) {
          var i :| 0 <= i < |front| && front[i].generationId == id;
          assert users[i].generationId == id;
        }
      }
    }
  }

  /** The record stored under a generation id is that of the last submission
      with this id. */
  lemma {:induction false} ResultsRecord(e: Engine, users: seq<Submission>, panel: seq<Reference>, size: int, i: nat)
    requires i < |users|
    requires forall j :: i < j < |users| ==> users[j].generationId != users[i].generationId
    ensures users[i].generationId in Results(e, users, panel, size).values
    ensures Results(e, users, panel, size).values[users[i].generationId] == SubmissionRecord(e, users[i], panel, size)
    decreases |users|
  {
    var front := users[..|users| - 1];
    if i < |users| - 1 {
      assert front[i] == users[i];
      ResultsRecord(e, front, panel, size, i);
    }
  }

  /** A submission that plays its whole panel without error has played
      2 x |panel| games and scores between 2 and 6 points per reference strategy;
      one that met an error has played fewer. */
  lemma {:induction false} PanelTallyBounds(panel: seq<Reference>, games: Reference -> (MatchResult, MatchResult))
    ensures var t := PanelTally(panel, games);
      (t.working ==> t.played == 2 * |panel| && 2 * |panel| <= t.score <= 6 * |panel|) &&
      (!t.working ==> t.played < 2 * |panel|)
    decreases |panel|
  {
    if |panel| > 0 {
      PanelTallyBounds(panel[..|panel| - 1], games);
    }
  }

  /** The stones of the panel games named by `names`, black and white summed. */
  function FieldSum(byOpponent: map<string, (int, int)>, panel: seq<Reference>): int
    requires forall i :: 0 <= i < |panel| ==> panel[i].name in byOpponent
  {
    if |panel| == 0 then 0
    else
      var last := byOpponent[panel[|panel| - 1].name];
      FieldSum(byOpponent, panel[..|panel| - 1]) + last.0 + last.1
  }

  /** With distinct reference names, stonesCount_total is the sum of the
      per-opponent black and white stone fields. */
  lemma {:induction false} StonesAreFieldSum(panel: seq<Reference>, games: Reference -> (MatchResult, MatchResult))
    requires forall i, j :: 0 <= i < j < |panel| ==> panel[i].name != panel[j].name
    requires PanelTally(panel, games).working
    ensures var t := PanelTally(panel, games);
      (forall i :: 0 <= i < |panel| ==> panel[i].name in t.byOpponent) &&
      t.stones == FieldSum(t.byOpponent, panel)
    decreases |panel|
  {
    if |panel| > 0 {
      var front := panel[..|panel| - 1];
      var ref := panel[|panel| - 1];
      var t0 := PanelTally(front, games);
      var black, white := games(ref).0, games(ref).1;
      StepWorking(t0, ref.name, black, white);
      assert forall i, j :: 0 <= i < j < |front| ==> front[i].name != front[j].name by {
        forall i, j | 0 <= i < j < |front| ensures front[i].name != front[j].name {
          assert front[i] == panel[i] && front[j] == panel[j];
        }
      }
      StonesAreFieldSum(front, games);
      assert forall i :: 0 <= i < |front| ==> front[i].name in t0.byOpponent && front[i].name != ref.name by {
        forall i | 0 <= i < |front| ensures front[i].name in t0.byOpponent && front[i].name != ref.name {
          assert front[i] == panel[i];
        }
      }
      FieldSumUntouched(t0.byOpponent, front, ref.name, (black.black, white.white));
    }
  }

  /** A step that leaves the submission working adds both games. */
  lemma StepWorking(t: Tally, name: string, black: MatchResult, white: MatchResult)
    requires Step(t, name, black, white).working
    ensures t.working
    ensures Step(t, name, black, white).stones == t.stones + black.black + white.white
    ensures Step(t, name, black, white).byOpponent == t.byOpponent[name := (black.black, white.white)]
  {
  }

  lemma {:induction false} FieldSumUntouched(m: map<string, (int, int)>, panel: seq<Reference>, name: string, v: (int, int))
    requires forall i :: 0 <= i < |panel| ==> panel[i].name in m && panel[i].name != name
    ensures FieldSum(m[name := v], panel) == FieldSum(m, panel)
    decreases |panel|
  {
    if |panel| > 0 {
      FieldSumUntouched(m, panel[..|panel| - 1], name, v);
    }
  }

  /** A submission that failed to load, or met an error against the panel,
      scores 0 with every stone field 0, whatever it scored before. */
  lemma ErrorZeroes(e: Engine, u: Submission, panel: seq<Reference>, size: int)
    requires u.loadFailed || !PanelTally(panel, Games(e, u, size)).working
    ensures var r := SubmissionRecord(e, u, panel, size);
      r.score == 0 && r.stonesTotal == 0 &&
      r.byOpponent.Keys == Names(panel) &&
      forall n :: n in r.byOpponent ==> r.byOpponent[n] == (0, 0)
  {
  }

  /** A submission that raises on every call, against a panel that is not
      empty and a start where black can move, scores exactly 0. */
  lemma AlwaysRaisingScoresZero(e: Engine, u: Submission, panel: seq<Reference>, size: int)
    requires forall b, s :: u.player(b, s) == Raised
    requires |panel| > 0
    requires e.canPlace(InitialBoard(size), BLACK)
    ensures SubmissionRecord(e, u, panel, size) == ZeroRecord(panel)
  {
    var games := Games(e, u, size);
    assert panel[..1][..0] == panel[..0];
    assert games(panel[0]).0.code == -1;
    assert !PanelTally(panel[..1], games).working;
    FailureIsFinal(panel, games, 1);
  }

  /** main's leaderboard: the results ordered by descending score. */
  function RankByScore(results: PyDict.Dict<Record>): (r: seq<(string, Record)>)
    requires PyDict.Valid(results)
    ensures multiset(r) == multiset(PyDict.Items(results))
    ensures forall i, j :: 0 <= i < j < |r| ==> r[i].1.score >= r[j].1.score
  {
    Ranking.SortDesc(PyDict.Items(results), (item: (string, Record)) => (item.1.score, 0))
  }
}
