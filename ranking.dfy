/** sorted(items, key=..., reverse=True): the leaderboards of both front ends. */
module Ranking {
  /** Lexicographic order on the (points, stones) keys the source sorts by. */
  predicate KeyLe(a: (int, int), b: (int, int))
  {
    a.0 < b.0 || (a.0 == b.0 && a.1 <= b.1)
  }

  /** Descending by key: nothing is ranked above an entry with a larger key. */
  predicate SortedDesc<T>(s: seq<T>, key: T -> (int, int))
  {
    forall i, j :: 0 <= i < j < |s| ==> KeyLe(key(s[j]), key(s[i]))
  }

  /** No entry of s has a key larger than k. */
  predicate AllAtMost<T>(s: seq<T>, key: T -> (int, int), k: (int, int))
  {
    forall i :: 0 <= i < |s| ==> KeyLe(key(s[i]), k)
  }

  /** A bound on every key survives a permutation. */
  lemma AllAtMostPerm<T>(a: seq<T>, b: seq<T>, key: T -> (int, int), k: (int, int))
    requires multiset(a) == multiset(b)
    requires AllAtMost(b, key, k)
    ensures AllAtMost(a, key, k)
  {
    forall i | 0 <= i < |a| ensures KeyLe(key(a[i]), k) {
      assert a[i] in multiset(b);
      var j :| 0 <= j < |b| && b[j] == a[i];
    }
  }

  /** Places x in front of the first entry whose key is not larger. */
  function Insert<T>(x: T, s: seq<T>, key: T -> (int, int)): (r: seq<T>)
    requires SortedDesc(s, key)
    ensures multiset(r) == multiset(s) + multiset{x}
    ensures SortedDesc(r, key)
  {
    if |s| == 0 || KeyLe(key(s[0]), key(x)) then [x] + s
    else
      var rest := Insert(x, s[1..], key);
      assert AllAtMost(s[1..] + [x], key, key(s[0]));
      AllAtMostPerm(rest, s[1..] + [x], key, key(s[0]));
      assert s == [s[0]] + s[1..];
      [s[0]] + rest
  }

  /** The ranking: a permutation of the entries, ordered by descending key. */
  function SortDesc<T>(s: seq<T>, key: T -> (int, int)): (r: seq<T>)
    ensures multiset(r) == multiset(s)
    ensures SortedDesc(r, key)
  {
    if |s| == 0 then []
    else
      assert s == [s[0]] + s[1..];
      Insert(s[0], SortDesc(s[1..], key), key)
  }
}
