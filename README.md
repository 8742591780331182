# Othello tournament harness: a Dafny model

The harness runs Othello games between strategies. A strategy is either a
reference AI (greedy, corner-first, two-ply lookahead) or a user submission
loaded from source text and wrapped in `UserAIAdapter`. The harness has two
entry points:

- `tournament.py` plays every submission against the reference panel, once as
  black and once as white, scores 3/2/1/0 for win/draw/loss/fault, records
  the stones taken per opponent, and ranks the submissions by score.
- `battle.py` plays two strategies head to head (`battle_myais`), or a round
  robin in which every ordered pair meets (`battle_tournament`,
  `battle_user_ais`), and keeps a wins/losses/draws/stones table.

The model is split by module:

- `Othello` (othello.dfy): boards as `seq<seq<int>>`. The game engine
  (`can_place_x_y`, `can_place`, `move_stone`, `copy`) is taken as three
  function values, and `copy` is the identity on values. This module also
  holds stone counting, the shared row-major legal-move scan
  (`get_valid_moves`, which three files define identically) and the replay
  of a move list.
- `Select` (select.dfy): the "first strict maximum" and "strict minimum"
  folds. The greedy and lookahead loops keep these, and the loops are proved
  equal to them.
- `Match` (match.dfy): `run_match`, the turn logic, the forfeit and fault
  rules, the turn bound and the verdict.
- `Scoring` (scoring.dfy): `calculate_scores` and the score sort of `main`.
  `PyDict` (pydict.dfy) models an insertion-ordered Python dict. `Ranking`
  (ranking.dfy) models `sorted(..., reverse=True)` as a descending
  insertion sort.
- `Battle` (battle.dfy): `count_stone`, `run_othello_live`, `battle_myais`,
  `battle_tournament` and `battle_user_ais`.
- `Greedy`, `Corner` and `Lookahead` (greedy.dfy, corner.dfy,
  lookahead.dfy): the reference strategies.
- `TwoPly` (twoply.dfy): the two-ply minimax that `lookahead_2` and
  `test_AI.myai` share, generic in the board evaluation.
- `TestAI` (testai.dfy): the position-weighted `test_AI.py` strategy and its
  two weight tables.
- `Adapter` (adapter.dfy): `UserAIAdapter`. This covers the entry-point
  search after the user code has run, the method/arity dispatch of `place`
  and the normalisation of its answer.

A strategy call `safe_place(ai, copy(board), stone)` is a value of type
`Player = (Board, int) -> Reply`. It either raises or returns a pair whose
parts may be `None`.

## Model

| member | source | states |
|---|---|---|
| Othello.CountStonesIsOccurrences | tournament.py:221-223 | count_stones(board, stone) is the number of cells of the board that hold `stone` |
| Othello.RowCountIsOccurrences | ai/lookahead_ai.py:26-27 | row.count(stone) is the number of occurrences of `stone` in the row |
| Othello.RowMoves | ai/corner_ai.py:51-53 | one row of the scan lists exactly the accepted cells of that row, left to right |
| Othello.MovesUpTo | ai/corner_ai.py:50-53 | the first m rows of the scan list exactly the accepted cells of those rows, in row-major order |
| Othello.LegalMoves | ai/corner_ai.py:38-54 | get_valid_moves lists a cell iff can_place_x_y accepts it, in row-major order |
| Othello.RowMajorIndex | ai/corner_ai.py:50-53 | in a row-major list, a cell that comes before another in board order has a smaller position |
| Othello.LegalIndex | ai/corner_ai.py:38-54 | every legal cell has a position in the get_valid_moves list |
| Othello.LegalAt | ai/corner_ai.py:38-54 | every cell listed by get_valid_moves is legal |
| Othello.ScanRow | ai/lookahead_ai.py:43-45 | the inner loop appends exactly the accepted cells of row y |
| Othello.ScanValidMoves | ai/lookahead_ai.py:30-46 | the double loop of get_valid_moves returns LegalMoves |
| Select.ScanFirstMax | ai/lookahead_ai.py:119-122 | a scan that keeps `score > best` finds nothing iff no value beats the start; otherwise it finds a maximum that is strictly greater than every earlier value |
| Select.ScanAppend | ai/greedy_ai.py:70-72 | one more value replaces the lead exactly when it beats the current lead |
| Select.WorstAppend | ai/lookahead_ai.py:114-115 | one more value replaces the minimum exactly when it is strictly smaller |
| Select.WorstIsMin | ai/lookahead_ai.py:103-117 | the running minimum is absent iff there are no values, and otherwise it is at most every value |
| Select.WorstAt | ai/lookahead_ai.py:103-117 | the minimum of a non-empty list is one of its values |
| Match.InitialBoard | tournament.py:236-257 | the start board is 8x8 for size 8 and 6x6 otherwise, and it is rectangular |
| Match.TakeTurn | tournament.py:266-298 | a player passes iff it cannot place; it plays iff it can and its answer is accepted, and then the board is move_stone of the accepted cell; it crashes iff it can and the call raised |
| Match.PlayTurn | tournament.py:266-298 | one side's turn as imperative code equals TakeTurn |
| Match.Play | tournament.py:259-302 | the loop runs at most max_turns rounds, and at least one when max_turns > 0 |
| Match.Verdict | tournament.py:304-313 | code 1 iff black has more stones, 2 iff white has more, 0 iff equal, with both counts returned |
| Match.Outcome | tournament.py:259-318 | code -1 iff a strategy raised (with counts 0, 0); a black forfeit gives 2 and a white forfeit gives 1, with the counts at the forfeit; otherwise the verdict on the final board |
| Match.RunMatch | tournament.py:226-318 | run_match as a while loop equals Outcome of the modelled game; the code is one of -1, 0, 1, 2 |
| Match.OutcomeRound | tournament.py:262-302 | one round: black's crash or forfeit ends the match, then white's, then the game stops when both are blocked, when nobody moved, or when the turn budget is used up; otherwise it continues from the new board |
| Match.PlayReplays | tournament.py:262-302 | replaying the recorded moves from the start board reproduces the final board, so every move was legal |
| Match.PlayEnding | tournament.py:262-302 | a forfeit means the side could place but answered an unaccepted cell; a fault means a side that could place raised; a normal end means the turn budget is used up or both sides are blocked |
| Match.IllegalReplyForfeits | tournament.py:267-277 | if black can place and answers an unaccepted cell, white wins at once with the current counts |
| Scoring.BlackGamePoints | tournament.py:372-392 | as black: 3 points iff code 1, 2 iff 0, 1 iff 2, none (fault) for any other code |
| Scoring.WhiteGamePoints | tournament.py:397-417 | as white: 3 points iff code 2, 2 iff 0, 1 iff 1, none (fault) for any other code |
| Scoring.PlayReference | tournament.py:366-423 | one reference opponent, two games, equals the Step of the tally |
| Scoring.PlayPanel | tournament.py:366-423 | the loop over the panel with its `break` equals PanelTally |
| Scoring.CalculateScores | tournament.py:321-450 | the results dict equals Results, and its keys are exactly the generation ids |
| Scoring.Results | tournament.py:339-450 | the results dict is well formed: its key order lists each key once |
| Scoring.FailureIsFinal | tournament.py:388-392 | once a game faults, no later opponent changes the tally |
| Scoring.PanelTallyBounds | tournament.py:366-423 | a working submission played 2 games per opponent and scored between 2 and 6 per opponent; a faulty one played fewer games |
| Scoring.StonesAreFieldSum | tournament.py:363-444 | with distinct opponent names, stonesCount_total is the sum of the per-opponent black and white fields |
| Scoring.ResultsKeys | tournament.py:341-445 | the results have exactly one entry per generation id |
| Scoring.ResultsRecord | tournament.py:341-445 | the entry for a generation id is the record of its last submission |
| Scoring.ErrorZeroes | tournament.py:349-359 | a submission that failed to load or faulted scores 0, takes 0 stones and has a (0, 0) field for every opponent |
| Scoring.AlwaysRaisingScoresZero | tournament.py:426-436 | a strategy that always raises scores 0 against any non-empty panel, when black can move on the start board |
| Scoring.RankByScore | tournament.py:508 | the ranking is a permutation of the result items, by non-increasing score |
| Ranking.Insert | tournament.py:508 | inserting into a sorted list keeps it sorted and adds exactly the one item |
| Ranking.SortDesc | battle.py:486-490 | sorted(..., reverse=True) returns a permutation of its input, by non-increasing key |
| PyDict.Put | tournament.py:445 | assignment to a dict keeps each key once, appends a new key at the end, and keeps the place of an existing key |
| PyDict.TotalPut | battle.py:464-465 | an assignment changes the sum over all entries by the new value minus the old one |
| PyDict.Items | battle.py:487 | items() lists the keys in insertion order with their values |
| Battle.CountStone | battle.py:40-44 | count_stone returns the number of black cells and the number of white cells |
| Battle.StartBoard | battle.py:62-84 | size 8 gives exactly the 8x8 starting position, None or 6 exactly the 6x6 starting position, and a given board is used as is |
| Battle.Live | battle.py:130-216 | the live loop never ends with both sides in error |
| Battle.Final | battle.py:218-241 | an erring side counts 0 stones; the winner is black iff black > white, white iff black < white, otherwise a draw; the side in error never wins |
| Battle.RunLive | battle.py:130-241 | run_othello_live as a while loop equals Final of the modelled game |
| Battle.LiveRound | battle.py:131-216 | one round: black's error or illegal move ends the game, then white's, then the game stops when both are blocked, otherwise it continues |
| Battle.Report | battle.py:218-241 | the final count and verdict as code equals Final |
| Battle.LiveEndsBlocked | battle.py:131-216 | a game that ends without error ends with both sides blocked |
| Battle.LiveFaultsAreReal | battle.py:131-216 | a side is reported in error only if, on the final board, it could place and either raised or answered a cell the engine does not accept |
| Battle.LiveReplays | battle.py:131-216 | replaying the recorded moves from the start board reproduces the final board |
| Battle.TwoGameWins | battle.py:346-363 | wins1, wins2 and draws, each counted from the two winners, add up to 2: every game is a win for one side or a draw |
| Battle.TwoGameWinsSwap | battle.py:346-363 | swapping the games swaps the two win counts |
| Battle.BattleMyais | battle.py:287-387 | game 1 has ai1 as black and game 2 has ai2 as black, on the board of the given size, and the totals are tallied from them |
| Battle.TallyGames | battle.py:342-387 | the counters as code give the returned dict of DoubleOf, and wins1, wins2 and draws equal TwoGameWins |
| Battle.DoubleMirror | battle.py:342-387 | swapping the strategies and names swaps the games and leaves the totals the same |
| Battle.Overall | battle.py:368-377 | the first strategy wins overall iff (wins, stones) is lexicographically greater, the second iff smaller, and it is a draw iff both are equal |
| Battle.KeyOrder | battle.py:518-519 | the dict comprehension keeps each name once, and its keys are exactly the names |
| Battle.KeyOrderFirstSeen | battle.py:518-519 | the keys come in the order in which the names first appear in the list |
| Battle.FreshTable | battle.py:518-519 | the table starts with every name at zero |
| Battle.RecordGameTotals | battle.py:537-549 | recording a game adds to the column totals exactly its stones and one win and one loss, or two draws |
| Battle.RecordTotals | battle.py:537-549 | recording a list of games adds the sum of their shares to the column totals |
| Battle.SharesBalance | battle.py:541-549 | over any list of games, the wins equal the losses equal the decided games, and the draws are twice the drawn games |
| Battle.RoundRobinBalance | battle.py:527-549 | in the final table, total wins equal total losses equal the decided games, and the draws are twice the drawn games |
| Battle.PairsCover | battle.py:527-530 | the double loop visits the pair (i, j) iff both are entrants and i differs from j |
| Battle.PairsOrdered | battle.py:527-530 | the pairs are visited in row-major order |
| Battle.PairsCount | battle.py:521-530 | n entrants give n * (n - 1) pairs |
| Battle.RoundRobinCount | battle.py:521 | when no game raises, the number of games played is len(ai_list) * (len(ai_list) - 1), total_matches |
| Battle.RecordResult | battle.py:537-549 | recording one result in place equals RecordGame |
| Battle.RoundRobin | battle.py:452-478 | the double loop, with games that raise skipped, returns the well-formed table of all games played |
| Battle.BattleTournament | battle.py:505-573 | battle_tournament returns the table of every ordered pair of distinct entrants |
| Battle.TournamentPlaysAll | battle.py:521 | battle_tournament plays every one of the total_matches games |
| Battle.EntrantsLoaded | battle.py:430-437 | the valid AIs are exactly the submissions that loaded, at most one per submission |
| Battle.LoadedEntrants | battle.py:430-437 | the filtering loop equals Entrants |
| Battle.BattleUserAIs | battle.py:407-502 | no table iff fewer than two submissions loaded, otherwise the round-robin table of the loaded ones |
| Battle.Leaderboard | battle.py:556-561 | the standings are a permutation of the table, by non-increasing (3 * wins + draws, stones) |
| Greedy.DirectionsAreUnitSteps | ai/greedy_ai.py:32 | every direction moves one cell |
| Greedy.RunCells | ai/greedy_ai.py:40-43 | the run covers opponent stones only, and stops at the first cell that is not one |
| Greedy.DirFlipsBrackets | ai/greedy_ai.py:39-47 | one direction turns exactly k > 0 stones iff k opponent stones are closed by the mover's stone |
| Greedy.CountRun | ai/greedy_ai.py:36-43 | the while loop counts the opponent run and stops one cell past it |
| Greedy.CountFlips | ai/greedy_ai.py:16-49 | count_flips is 0 on a refused cell, otherwise the sum of the bracketed runs over the eight directions |
| Greedy.FlipCounts | ai/greedy_ai.py:69 | the flip count of every listed cell |
| Greedy.GreedyCell | ai/greedy_ai.py:68-72 | one cell of the scan keeps the lead over the legal cells seen |
| Greedy.GreedyRow | ai/greedy_ai.py:67-72 | one row of the scan keeps the lead over the legal cells seen |
| Greedy.GreedyPlace | ai/greedy_ai.py:51-74 | the double loop equals GreedyChoice |
| Greedy.GreedyChoiceNone | ai/greedy_ai.py:62-74 | greedy_place returns None iff there is no legal move |
| Greedy.GreedyChoiceBest | ai/greedy_ai.py:66-72 | the move returned is legal, flips at least as many as any legal move, and strictly more than every legal move before it |
| Corner.CornersAreTheFour | ai/corner_ai.py:16-36 | a cell is listed iff it is in the first or last column and the first or last row |
| Corner.FirstAcceptedIsFirst | ai/corner_ai.py:73-75 | the corner loop finds nothing iff no corner is accepted, and otherwise the first accepted one |
| Corner.CornerPlace | ai/corner_ai.py:56-83 | corner_place with its early return equals CornerChoice for the random draw |
| Corner.CornerComesFirst | ai/corner_ai.py:73-75 | whatever the draw, the first accepted corner in get_corners order is played |
| Corner.NoCornerDrawsAMove | ai/corner_ai.py:77-83 | with no corner accepted, the result is None iff there is no legal move, and otherwise a legal move |
| Corner.EveryMoveIsDrawn | ai/corner_ai.py:77-83 | with no corner accepted, every legal move is the outcome of some draw |
| Lookahead.CountStonesIn | ai/lookahead_ai.py:14-28 | the loop counts the cells that hold the stone |
| Lookahead.EvaluateCounts | ai/lookahead_ai.py:48-62 | the evaluation is own cells minus opponent cells, and it changes sign with the point of view |
| Lookahead.EvaluateBoard | ai/lookahead_ai.py:48-62 | evaluate_board as code equals Evaluate |
| Lookahead.WorstReply | ai/lookahead_ai.py:103-117 | the inner loop computes the strict minimum of the reply evaluations |
| Lookahead.ScoreMove | ai/lookahead_ai.py:92-117 | the score of a move is the evaluation after it when the opponent has no reply, and the worst reply otherwise |
| Lookahead.TryMove | ai/lookahead_ai.py:90-122 | one pass of the outer loop keeps the first strict maximum over the moves seen |
| Lookahead.Lookahead2 | ai/lookahead_ai.py:64-124 | lookahead_2 equals the two-ply choice with the stone-count evaluation |
| TwoPly.ReplyScores | ai/lookahead_ai.py:105-111 | the reply scores are the evaluations of every reply board, in order |
| TwoPly.MoveScores | ai/lookahead_ai.py:90-117 | the move scores are the scores of every move, in order |
| TwoPly.MoveScoreCases | ai/lookahead_ai.py:96-117 | the score of a move is the evaluation after it when the opponent has no reply, and otherwise the least reply evaluation, which exists |
| TwoPly.AheadStep | ai/lookahead_ai.py:119-122 | a move replaces the best exactly when its score beats the best score |
| TwoPly.ReplyValueNoReply | ai/lookahead_ai.py:98-100 | with no reply, the value is the evaluation of the board itself |
| TwoPly.ReplyValueBelow | ai/lookahead_ai.py:102-117 | the value is at most the evaluation after any legal reply |
| TwoPly.ReplyValueReached | ai/lookahead_ai.py:102-117 | with a reply, the value is the evaluation after some legal reply |
| TwoPly.ChoiceNone | ai/lookahead_ai.py:80-83 | the result is None iff there is no legal move |
| TwoPly.ChoiceBest | ai/lookahead_ai.py:119-122 | the move returned is legal, scores at least as much as every legal move, and strictly more than every legal move before it |
| TestAI.TablesDesign | test_AI.py:22-44 | both tables are square, symmetric under left-right and top-bottom mirroring and transposition, with 100 in the corners and nothing above 100 |
| TestAI.PositionScore | test_AI.py:46-54 | the 8x8 table for a board of 8 rows and the 6x6 table for any other size; either is square |
| TestAI.WeightedSwap | test_AI.py:69-83 | the weighted evaluation changes sign with the point of view |
| TestAI.WeightedMirrors | test_AI.py:69-83 | on a 6x6 or 8x8 board, mirroring left-right or top-bottom does not change the weighted evaluation |
| TestAI.FitsKept | test_AI.py:117-118 | a legal move keeps the board inside the weight table |
| TestAI.WeightedRow | test_AI.py:76-80 | the inner loop sums the weights of the own and the opponent cells of one row |
| TestAI.WeightedBoard | test_AI.py:56-83 | evaluate_board equals the weighted own score minus the weighted opponent score |
| TestAI.WorstReply | test_AI.py:128-142 | the inner loop computes the strict minimum of the reply evaluations |
| TestAI.ScoreMove | test_AI.py:116-142 | the score of a move is the evaluation after it when the opponent has no reply, and the worst reply otherwise |
| TestAI.TryMove | test_AI.py:115-147 | one pass of the outer loop keeps the first strict maximum over the moves seen |
| TestAI.MyAI | test_AI.py:94-151 | myai equals the two-ply choice with the weighted evaluation |
| Adapter.First | tournament.py:96-99 | the search returns the first name, from a given position on, that is bound to a value of the wanted kind, or nothing when there is none |
| Adapter.ChosenFunctionIsFirst | tournament.py:93-99 | the entry function is the first of the seven names bound to a callable, and there is none iff no name is |
| Adapter.FindFunction | tournament.py:93-99 | the loop with its break equals ChosenFunction |
| Adapter.ClassSearchStops | tournament.py:101-109 | the first name bound to a class decides the instance, even when its constructor raises |
| Adapter.FindInstance | tournament.py:101-109 | the loop builds a new instance exactly when ChosenInstance gives one |
| Adapter.LoadErrorIff | tournament.py:93-112 | there is no error iff the code ran and either a listed function name is bound to a callable or the first listed name bound to a class constructs a true object; a missing entry point means no function name is bound to a callable |
| Adapter.Instance.constructor | tournament.py:106 | a new instance has the methods of its class and no board |
| Adapter.UserAIAdapter.constructor | tournament.py:23-31 | a new adapter holds the entry and error that _load_ai derives from the run of the code |
| Adapter.CheckNeverSwaps | tournament.py:171-182 | an answer is kept iff it is an int pair inside the board, and it is never swapped |
| Adapter.PlaceValueIff | tournament.py:171-186 | place returns (x, y) iff the dispatched call answered (x, y) inside the board; an exception gives None |
| Adapter.InstanceFirst | tournament.py:139-169 | with a truthy instance, the function found does not matter |
| Adapter.UserAIAdapter.Place | tournament.py:133-186 | place returns PlaceValue of the current entry, and it sets the instance's board only when get_ai_move is the method called |

## Left out

- The game engine (`othello.py`: `can_place_x_y`, `can_place`, `move_stone`, `copy`, `safe_place`) is not part of this model. It is a set of function parameters. The only assumptions are the ones stated as requires: `FillsACell` (a legal move fills one empty cell), which bounds the live loop, and `KeepsShape` (a legal move keeps the row lengths), which `test_AI.py` needs for its table lookups. An exception raised by the engine itself is not modelled.
- Running the user code (`exec`, the SIGALRM timeout, the saving and restoring of `sys.modules`, tournament.py:33-90 and 114-128) is replaced by an `ExecOutcome` input: the code either raised or produced a namespace.
- `inspect.signature` is the `arity` field of a callable. A signature or a `__bool__` that raises is not modelled, nor are answers that are tuples of non-integers.
- `random.choice` in `corner_place` is the `roll` parameter: the move at position `roll % len(moves)`.
- The float sentinels `float('-inf')`/`float('inf')` are `Option` values (`None` is below/above every score).
- Printing, the progress bar, the Canvas display, `time.sleep`, think times and JSON reading and writing (`load_user_ais`, `save_results`) are left out. `max_turns` in battle.py only sizes the progress bar.
- Strategies are deterministic and stateless: `safe_place(ai, board, stone)` is a function of the board and the stone. Class instances that keep state between moves are modelled only through the board that `place` stores.
- Ranking.SortDesc: does not model that Python's sort is stable, only a descending permutation.
- Battle.Final: the `'error'` winner of the docstring is never produced by the code, and is not modelled.
- Battle.RoundRobin: a game that raises is a `raised(i, j)` input, since the engine's own exceptions are not modelled.
- TestAI.WeightedBoard: requires the board to fit the weight table (`Fits`), whereas Python raises only when a stone lies outside it.
- TestAI.MyAI: requires `KeepsShape` of the engine and a board that fits the table, for the same reason.
- Greedy.CountFlips: requires a non-empty board whose rows are at least as long as the first (`len(board[0])` must exist).
- Corner.CornerPlace: requires a non-empty board, as `get_corners` reads `board[0]`.
- The class wrappers `GreedyAI`, `CornerAI` and `LookaheadAI` (`face`, `place`) and `ai/__init__.py` only forward to the functions modelled here.
- `_battle_single` (battle.py:244-285) only forwards to `run_othello_live` with the board size; `BattleMyais` calls the model of `run_othello_live` directly.
