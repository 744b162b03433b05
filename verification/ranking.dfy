/** Python's stable sort with `reverse=True` over scored items, on indices:
    higher keys first, equal keys in their original order. A key is a score
    with a tie-breaking second score, compared as a tuple. */
module Ranking {

  /** The sort key `(primary, secondary)`. */
  datatype Key = Key(primary: real, secondary: real)

  /** Tuple order: a larger primary, or the same primary and a larger
      secondary. */
  predicate Higher(a: Key, b: Key) {
    a.primary > b.primary || (a.primary == b.primary && a.secondary > b.secondary)
  }

  /** Index a goes before index b: a higher key, or the same key and an
      earlier position in the input. */
  predicate Precedes(keys: seq<Key>, a: nat, b: nat)
    requires a < |keys| && b < |keys|
  {
    Higher(keys[a], keys[b]) || (keys[a] == keys[b] && a < b)
  }

  predicate InRange(keys: seq<Key>, s: seq<nat>) {
    forall p :: 0 <= p < |s| ==> s[p] < |keys|
  }

  /** Every earlier entry precedes every later one; in particular no index repeats. */
  predicate SortedBy(keys: seq<Key>, s: seq<nat>) {
    InRange(keys, s) && forall p, q :: 0 <= p < q < |s| ==> Precedes(keys, s[p], s[q])
  }

  /** s lists each input position exactly once, in stable descending key order. */
  predicate IsRanking(keys: seq<Key>, s: seq<nat>) {
    |s| == |keys| && SortedBy(keys, s) && forall x :: 0 <= x < |keys| ==> x in s
  }

  /** Insert a new index into a sorted list, after everything that precedes it. */
  function Insert(keys: seq<Key>, s: seq<nat>, i: nat): (r: seq<nat>)
    requires i < |keys| && SortedBy(keys, s) && i !in s
    ensures |r| == |s| + 1 && SortedBy(keys, r)
    ensures forall x: nat :: x in r <==> x in s || x == i
  {
    if |s| == 0 then [i]
    else if Precedes(keys, s[0], i) then
      var rest := Insert(keys, s[1..], i);
      assert forall x :: x in s[1..] ==> Precedes(keys, s[0], x);
      [s[0]] + rest
    else
      assert forall q :: 0 <= q < |s| ==> Precedes(keys, i, s[q]);
      [i] + s
  }

  /** The first n indices, ranked. */
  function RankPrefix(keys: seq<Key>, n: nat): (r: seq<nat>)
    requires n <= |keys|
    ensures |r| == n && SortedBy(keys, r)
    ensures forall x: nat :: x in r <==> x < n
  {
    if n == 0 then [] else Insert(keys, RankPrefix(keys, n - 1), n - 1)
  }

  /** `sorted(range(len(keys)), key=keys.__getitem__, reverse=True)`. */
  function RankKeys(keys: seq<Key>): (order: seq<nat>)
    ensures IsRanking(keys, order)
    ensures forall p, q :: 0 <= p < q < |order| ==> !Higher(keys[order[q]], keys[order[p]])
  {
    RankPrefix(keys, |keys|)
  }

  /** Plain scores as keys with no tie-breaker. */
  function Plain(scores: seq<real>): (keys: seq<Key>)
    ensures |keys| == |scores|
    ensures forall i :: 0 <= i < |scores| ==> keys[i] == Key(scores[i], 0.0)
  {
    seq(|scores|, i requires 0 <= i < |scores| => Key(scores[i], 0.0))
  }

  /** Ranking plain scores. */
  function Rank(scores: seq<real>): (order: seq<nat>)
    ensures IsRanking(Plain(scores), order)
    ensures forall p, q :: 0 <= p < q < |order| ==> scores[order[p]] >= scores[order[q]]
  {
    RankKeys(Plain(scores))
  }

  /** Two sorted lists over the same indices are the same list. */
  lemma {:induction false} SortedSameElements(keys: seq<Key>, s: seq<nat>, t: seq<nat>)
    requires SortedBy(keys, s) && SortedBy(keys, t)
    requires |s| == |t| && forall x :: x in s <==> x in t
    ensures s == t
    decreases |s|
  {
    if |s| > 0 {
      assert s[0] in t;
      assert t[0] in t;
      var p :| 0 <= p < |s| && s[p] == t[0];
      var q :| 0 <= q < |t| && t[q] == s[0];
      assert s[0] == t[0];
      assert forall x :: x in s[1..] <==> x in s && x != s[0];
      assert forall x :: x in t[1..] <==> x in t && x != t[0];
      SortedSameElements(keys, s[1..], t[1..]);
      assert s == [s[0]] + s[1..] && t == [t[0]] + t[1..];
    }
  }

  /** The stable descending order is unique: `Rank` is the only ranking. */
  lemma RankUnique(keys: seq<Key>, s: seq<nat>)
    requires IsRanking(keys, s)
    ensures s == RankKeys(keys)
  {
    var r := RankKeys(keys);
    forall x ensures x in s <==> x in r {
      if x in s {
        var p :| 0 <= p < |s| && s[p] == x;
      }
    }
    SortedSameElements(keys, s, r);
  }
}
