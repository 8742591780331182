/** The corner-first reference strategy (ai/corner_ai.py): take the first
    corner the engine accepts, otherwise a legal move drawn at random. The
    random draw is the parameter `roll`: random.choice(moves) is
    moves[roll % |moves|]. */
module Corner {
  import opened Wrappers
  import opened Othello

  /** get_corners(board): top-left, top-right, bottom-left, bottom-right,
      from len(board[0]) and len(board) (board[0] needs a first row). */
  function Corners(b: Board): seq<(int, int)>
    requires |b| > 0
  {
    var w := |b[0]|;
    var h := |b|;
    [(0, 0), (w - 1, 0), (0, h - 1), (w - 1, h - 1)]
  }

  /** The listed cells are exactly the cells in the first or last column and
      the first or last row. */
  lemma CornersAreTheFour(b: Board, x: int, y: int)
    requires |b| > 0
    ensures (x, y) in Corners(b) <==> (x == 0 || x == Width(b) - 1) && (y == 0 || y == |b| - 1)
  {
    var cs := Corners(b);
    if (x == 0 || x == Width(b) - 1) && (y == 0 || y == |b| - 1) {
      if x == 0 && y == 0 { assert cs[0] == (x, y); }
      else if x == 0 { assert cs[2] == (x, y); }
      else if y == 0 { assert cs[1] == (x, y); }
      else { assert cs[3] == (x, y); }
    }
  }

  /** The first listed cell can_place_x_y accepts. */
  function FirstAccepted(e: Engine, b: Board, stone: int, cs: seq<(int, int)>): Option<(int, int)>
    decreases |cs|
  {
    if |cs| == 0 then None
    else if e.canPlaceXY(b, stone, cs[0].0, cs[0].1) then Some(cs[0])
    else FirstAccepted(e, b, stone, cs[1..])
  }

  /** FirstAccepted finds the accepted cell of least position, and nothing
      when no listed cell is accepted. */
  lemma {:induction false} FirstAcceptedIsFirst(e: Engine, b: Board, stone: int, cs: seq<(int, int)>)
    ensures var r := FirstAccepted(e, b, stone, cs);
      (r.None? <==> forall i :: 0 <= i < |cs| ==> !e.canPlaceXY(b, stone, cs[i].0, cs[i].1)) &&
      (r.Some? ==>
        exists i :: 0 <= i < |cs| && cs[i] == r.value && e.canPlaceXY(b, stone, cs[i].0, cs[i].1) &&
          forall j :: 0 <= j < i ==> !e.canPlaceXY(b, stone, cs[j].0, cs[j].1))
    decreases |cs|
  {
    if |cs| > 0 {
      FirstAcceptedIsFirst(e, b, stone, cs[1..]);
      if !e.canPlaceXY(b, stone, cs[0].0, cs[0].1) {
        var r := FirstAccepted(e, b, stone, cs[1..]);
        if r.Some? {
          var i :| 0 <= i < |cs| - 1 && cs[1..][i] == r.value && e.canPlaceXY(b, stone, cs[1..][i].0, cs[1..][i].1) &&
            forall j :: 0 <= j < i ==> !e.canPlaceXY(b, stone, cs[1..][j].0, cs[1..][j].1);
          assert cs[i + 1] == r.value;
          assert forall j :: 1 <= j < i + 1 ==> cs[j] == cs[1..][j - 1];
        }
      }
    }
  }

  /** corner_place(board, stone) as a value, for the draw `roll`. */
  function CornerChoice(e: Engine, b: Board, stone: int, roll: nat): Option<(int, int)>
    requires |b| > 0
  {
    var corner := FirstAccepted(e, b, stone, Corners(b));
    if corner.Some? then corner
    else
      var moves := LegalMoves(e, b, stone);
      if |moves| == 0 then None else Some(moves[roll % |moves|])
  }

  /** corner_place: the corners in order with an early return, then
      random.choice over get_valid_moves, and None when there is no move. */
  method CornerPlace(e: Engine, b: Board, stone: int, roll: nat) returns (r: Option<(int, int)>)
    requires |b| > 0
    ensures r == CornerChoice(e, b, stone, roll)
  {
    var corners := Corners(b);
    for i := 0 to |corners|
      invariant FirstAccepted(e, b, stone, corners) == FirstAccepted(e, b, stone, corners[i..])
    {
      var x, y := corners[i].0, corners[i].1;
      if e.canPlaceXY(b, stone, x, y) {
        return Some((x, y));
      }
      assert corners[i..][1..] == corners[i + 1..];
    }
    assert corners[|corners|..] == [];
    var validMoves := ScanValidMoves(e, b, stone);
    if |validMoves| > 0 {
      return Some(validMoves[roll % |validMoves|]);
    }
    return None;
  }

  /** When a corner is accepted, every draw gives the first accepted corner
      in the order of get_corners. */
  lemma CornerComesFirst(e: Engine, b: Board, stone: int, roll: nat, i: nat)
    requires |b| > 0 && i < 4
    requires e.canPlaceXY(b, stone, Corners(b)[i].0, Corners(b)[i].1)
    requires forall j :: 0 <= j < i ==> !e.canPlaceXY(b, stone, Corners(b)[j].0, Corners(b)[j].1)
    ensures CornerChoice(e, b, stone, roll) == Some(Corners(b)[i])
  {
    var cs := Corners(b);
    FirstAcceptedIsFirst(e, b, stone, cs);
    var r := FirstAccepted(e, b, stone, cs);
    var k :| 0 <= k < |cs| && cs[k] == r.value && e.canPlaceXY(b, stone, cs[k].0, cs[k].1) &&
      forall j :: 0 <= j < k ==> !e.canPlaceXY(b, stone, cs[j].0, cs[j].1);
    assert k == i;
  }

  lemma NoCornerAccepted(e: Engine, b: Board, stone: int)
    requires |b| > 0
    requires forall i :: 0 <= i < 4 ==> !e.canPlaceXY(b, stone, Corners(b)[i].0, Corners(b)[i].1)
    ensures FirstAccepted(e, b, stone, Corners(b)) == None
  {
    FirstAcceptedIsFirst(e, b, stone, Corners(b));
  }

  /** With no corner accepted, corner_place gives None exactly when there is
      no legal move, and otherwise a legal move. */
  lemma NoCornerDrawsAMove(e: Engine, b: Board, stone: int, roll: nat)
    requires |b| > 0
    requires forall i :: 0 <= i < 4 ==> !e.canPlaceXY(b, stone, Corners(b)[i].0, Corners(b)[i].1)
    ensures CornerChoice(e, b, stone, roll).None? <==> forall x, y :: !Legal(e, b, stone, (x, y))
    ensures CornerChoice(e, b, stone, roll).Some? ==> Legal(e, b, stone, CornerChoice(e, b, stone, roll).value)
  {
    NoCornerAccepted(e, b, stone);
    var moves := LegalMoves(e, b, stone);
    if |moves| > 0 {
      var p := moves[roll % |moves|];
      assert p in moves;
      assert Legal(e, b, stone, (p.0, p.1));
    } else {
      forall x, y ensures !Legal(e, b, stone, (x, y)) {
        assert (x, y) !in moves;
      }
    }
  }

  /** A draw below the number of moves picks the move at that position. */
  lemma SmallDraw(roll: nat, n: nat)
    requires roll < n
    ensures roll % n == roll
  {
  }

  /** With no corner accepted, every legal move is the outcome of some draw. */
  lemma EveryMoveIsDrawn(e: Engine, b: Board, stone: int, x: int, y: int) returns (roll: nat)
    requires |b| > 0
    requires forall i :: 0 <= i < 4 ==> !e.canPlaceXY(b, stone, Corners(b)[i].0, Corners(b)[i].1)
    requires Legal(e, b, stone, (x, y))
    ensures CornerChoice(e, b, stone, roll) == Some((x, y))
  {
    NoCornerAccepted(e, b, stone);
    roll := LegalIndex(e, b, stone, x, y);
    SmallDraw(roll, |LegalMoves(e, b, stone)|);
  }
}
