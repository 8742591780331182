/** The two scans the reference strategies run over their candidate moves: a
    first-maximum scan with a strict `>` (best_move, best_score or max_flips)
    and a minimum scan with a strict `<` (worst_score). Both run over the
    values of the candidates, in the order the candidates were listed. */
module Select {
  import opened Wrappers

  /** The running state of a first-maximum scan: the position of the entry
      kept and its value. A value of None stands for float('-inf'). */
  datatype Lead = Lead(index: Option<nat>, score: Option<int>)

  /** `v > score`, with None below every integer. */
  predicate Beats(v: int, score: Option<int>)
  {
    score.None? || v > score.value
  }

  /** The state after scanning `vals` from `start`: an entry replaces the one
      kept only when its value is strictly larger. */
  function Scan(vals: seq<int>, start: Lead): (l: Lead)
    ensures l.index.Some? ==> l.index.value < |vals| || l.index == start.index
    decreases |vals|
  {
    if |vals| == 0 then start
    else
      var before := Scan(vals[..|vals| - 1], start);
      if Beats(vals[|vals| - 1], before.score) then Lead(Some(|vals| - 1), Some(vals[|vals| - 1]))
      else before
  }

  /** A prefix one longer is the prefix with the next item appended. */
  lemma PrefixStep<T>(s: seq<T>, i: nat)
    requires i < |s|
    ensures s[..i + 1] == s[..i] + [s[i]]
  {
  }

  /** The item at the position a scan kept, if any. */
  function Pick<T>(items: seq<T>, index: Option<nat>): Option<T>
  {
    if index.Some? && index.value < |items| then Some(items[index.value]) else None
  }

  /** One more item and its value: it is kept exactly when its value beats
      the value kept so far. */
  lemma ScanAppend<T>(items: seq<T>, vals: seq<int>, item: T, v: int, start: Lead)
    requires |items| == |vals| && start.index.None?
    ensures var l := Scan(vals, start);
      var l' := Scan(vals + [v], start);
      l' == (if Beats(v, l.score) then Lead(Some(|vals|), Some(v)) else l) &&
      Pick(items + [item], l'.index) == (if Beats(v, l.score) then Some(item) else Pick(items, l.index))
  {
    assert (vals + [v])[..|vals|] == vals;
    var l := Scan(vals, start);
    if l.index.Some? && l.index.value < |items| {
      assert (items + [item])[l.index.value] == items[l.index.value];
    }
  }

  /** A scan that starts with nothing kept ends either with nothing kept,
      when no value beats the start, or with the FIRST position of a largest
      value, which beats the start. */
  lemma {:induction false} ScanFirstMax(vals: seq<int>, start: Lead)
    requires start.index.None?
    ensures var l := Scan(vals, start);
      (l.index.None? <==> forall j :: 0 <= j < |vals| ==> !Beats(vals[j], start.score)) &&
      (l.index.None? ==> l == start) &&
      (l.index.Some? ==>
        var i := l.index.value;
        i < |vals| && l.score == Some(vals[i]) && Beats(vals[i], start.score) &&
        (forall j :: 0 <= j < |vals| ==> vals[j] <= vals[i]) &&
        (forall j :: 0 <= j < i ==> vals[j] < vals[i]))
    decreases |vals|
  {
    if |vals| > 0 {
      var front := vals[..|vals| - 1];
      ScanFirstMax(front, start);
      var before := Scan(front, start);
      var v := vals[|vals| - 1];
      if before.index.Some? {
        var i := before.index.value;
        assert vals[i] == front[i];
        if Beats(v, before.score) {
          assert forall j :: 0 <= j < |vals| - 1 ==> vals[j] == front[j] && front[j] <= front[i];
        } else {
          assert forall j :: 0 <= j < |vals| - 1 ==> vals[j] == front[j];
        }
      } else {
        assert forall j :: 0 <= j < |vals| - 1 ==> vals[j] == front[j];
      }
    }
  }

  /** The minimum of the values seen so far; None stands for float('inf'). */
  function Worst(vals: seq<int>): Option<int>
    decreases |vals|
  {
    if |vals| == 0 then None
    else
      var before := Worst(vals[..|vals| - 1]);
      var v := vals[|vals| - 1];
      if before.None? || v < before.value then Some(v) else before
  }

  /** One more value: it becomes the minimum exactly when it is below the
      minimum so far. */
  lemma WorstAppend(vals: seq<int>, v: int)
    ensures var w := Worst(vals);
      Worst(vals + [v]) == if w.None? || v < w.value then Some(v) else w
  {
    assert (vals + [v])[..|vals|] == vals;
  }

  lemma WorstSome(vals: seq<int>)
    requires |vals| > 0
    ensures Worst(vals).Some?
  {
  }

  /** The minimum scan finds a value exactly when there are values, and no
      value is below it. */
  lemma {:induction false} WorstIsMin(vals: seq<int>)
    ensures Worst(vals).None? <==> |vals| == 0
    ensures Worst(vals).Some? ==> forall j :: 0 <= j < |vals| ==> Worst(vals).value <= vals[j]
    decreases |vals|
  {
    if |vals| > 0 {
      var front := vals[..|vals| - 1];
      WorstIsMin(front);
      assert forall j :: 0 <= j < |vals| - 1 ==> vals[j] == front[j];
    }
  }

  /** The value the minimum scan finds is one of the values. */
  lemma {:induction false} WorstAt(vals: seq<int>) returns (k: nat)
    requires |vals| > 0
    ensures k < |vals| && Worst(vals) == Some(vals[k])
    decreases |vals|
  {
    var front := vals[..|vals| - 1];
    if |front| == 0 {
      k := 0;
    } else {
      var i := WorstAt(front);
      if vals[|vals| - 1] < front[i] {
        k := |vals| - 1;
      } else {
        k := i;
      }
    }
  }
}
