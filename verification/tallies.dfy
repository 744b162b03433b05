/** Correct/total tallies keyed by question type, skill or trap, kept in the
    order keys are first seen: the `{'correct': 0, 'total': 0}` dictionaries
    the drill, the diagnostic and its evaluation build up answer by answer. */
module Tallies {
  import opened Wrappers

  datatype Tally<K> = Tally(key: K, correct: nat, total: nat)

  /** A dictionary of tallies as an insertion-ordered list. */
  type Table<K> = seq<Tally<K>>

  predicate DistinctKeys<K(==)>(table: Table<K>) {
    forall i, j :: 0 <= i < j < |table| ==> table[i].key != table[j].key
  }

  /** The tally for a key, if there is one. */
  function Lookup<K(==)>(table: Table<K>, key: K): (t: Option<Tally<K>>)
    ensures t.Some? ==> t.value.key == key && t.value in table
    ensures t.None? <==> forall i :: 0 <= i < |table| ==> table[i].key != key
  {
    if |table| == 0 then None
    else if table[0].key == key then Some(table[0])
    else Lookup(table[1..], key)
  }

  /** A key's tally after one more occurrence. */
  function Bumped<K>(t: Option<Tally<K>>, key: K, correct: bool): Tally<K> {
    var bump := if correct then 1 else 0;
    match t
    case None => Tally(key, bump, 1)
    case Some(x) => Tally(key, x.correct + bump, x.total + 1)
  }

  /** One occurrence of `key`: add to its tally in place, or create the tally
      at the end on first sight. */
  function Record<K(==)>(table: Table<K>, key: K, correct: bool): (r: Table<K>)
    ensures |r| == |table| + (if Lookup(table, key).None? then 1 else 0)
    ensures forall i :: 0 <= i < |table| ==> r[i].key == table[i].key
    ensures Lookup(table, key).None? ==> r[|table|].key == key
  {
    if |table| == 0 then [Bumped(None, key, correct)]
    else if table[0].key == key then [Bumped(Some(table[0]), key, correct)] + table[1..]
    else [table[0]] + Record(table[1..], key, correct)
  }

  /** One occurrence of each key in turn (a repeated key counts twice). */
  function RecordAll<K(==)>(table: Table<K>, keys: seq<K>, correct: bool): Table<K> {
    if |keys| == 0 then table
    else Record(RecordAll(table, keys[..|keys| - 1], correct), keys[|keys| - 1], correct)
  }

  /** Occurrences of a key in a list of keys. */
  function Occurrences<K(==)>(keys: seq<K>, key: K): (n: nat)
    ensures n <= |keys|
  {
    if |keys| == 0 then 0
    else Occurrences(keys[..|keys| - 1], key) + (if keys[|keys| - 1] == key then 1 else 0)
  }

  function CorrectOf<K(==)>(table: Table<K>, key: K): nat {
    match Lookup(table, key)
    case None => 0
    case Some(t) => t.correct
  }

  function TotalOf<K(==)>(table: Table<K>, key: K): nat {
    match Lookup(table, key)
    case None => 0
    case Some(t) => t.total
  }

  /** The sum of all totals. */
  function SumTotals<K>(table: Table<K>): nat {
    if |table| == 0 then 0 else table[0].total + SumTotals(table[1..])
  }

  /** `correct / total if total > 0 else 0.0`. */
  function Ratio(correct: nat, total: nat): (a: real)
    ensures correct <= total ==> 0.0 <= a <= 1.0
    ensures total == 0 ==> a == 0.0
    ensures total > 0 ==> a * total as real == correct as real
  {
    if total > 0 then correct as real / total as real else 0.0
  }

  /** A tally's accuracy. */
  function Accuracy<K>(t: Tally<K>): (a: real)
    ensures t.correct <= t.total ==> 0.0 <= a <= 1.0
    ensures t.total == 0 ==> a == 0.0
    ensures t.total > 0 ==> a * t.total as real == t.correct as real
  {
    Ratio(t.correct, t.total)
  }

  /** Every tally has correct <= total and at least one occurrence. */
  predicate Sound<K>(table: Table<K>) {
    forall i :: 0 <= i < |table| ==> table[i].correct <= table[i].total && table[i].total > 0
  }

  /** In a table without repeated keys, looking up an entry's key finds that
      entry. */
  lemma {:induction false} LookupEntry<K>(table: Table<K>, i: nat)
    requires DistinctKeys(table) && i < |table|
    ensures Lookup(table, table[i].key) == Some(table[i])
  {
    if i > 0 {
      assert DistinctKeys(table[1..]) by {
        assert forall a :: 0 <= a < |table[1..]| ==> table[1..][a] == table[a + 1];
      }
      LookupEntry(table[1..], i - 1);
    }
  }

  /** Recording one occurrence bumps that key's tally and no other. */
  lemma {:induction false} RecordLookup<K>(table: Table<K>, key: K, correct: bool, other: K)
    ensures Lookup(Record(table, key, correct), other)
      == if other == key then Some(Bumped(Lookup(table, key), key, correct)) else Lookup(table, other)
  {
    if |table| > 0 && table[0].key != key {
      RecordLookup(table[1..], key, correct, other);
      assert Record(table, key, correct)[1..] == Record(table[1..], key, correct);
    }
  }

  lemma {:induction false} RecordDistinct<K>(table: Table<K>, key: K, correct: bool)
    requires DistinctKeys(table)
    ensures DistinctKeys(Record(table, key, correct))
  {
    var r := Record(table, key, correct);
    if Lookup(table, key).None? {
      assert forall i :: 0 <= i < |table| ==> r[i].key != r[|table|].key;
    }
  }

  /** Recording adds exactly one occurrence to the grand total. */
  lemma {:induction false} RecordSum<K>(table: Table<K>, key: K, correct: bool)
    ensures SumTotals(Record(table, key, correct)) == SumTotals(table) + 1
  {
    var r := Record(table, key, correct);
    if |table| == 0 {
      assert r == [Bumped(None, key, correct)];
    } else if table[0].key == key {
      assert r[0].total == table[0].total + 1;
      assert r[1..] == table[1..];
    } else {
      RecordSum(table[1..], key, correct);
      assert r[0] == table[0];
      assert r[1..] == Record(table[1..], key, correct);
    }
  }

  /** Recording keeps every tally sound. */
  lemma {:induction false} RecordSound<K>(table: Table<K>, key: K, correct: bool)
    requires Sound(table)
    ensures Sound(Record(table, key, correct))
  {
    var r := Record(table, key, correct);
    if |table| > 0 {
      if table[0].key == key {
        assert r[1..] == table[1..];
        assert forall i :: 1 <= i < |r| ==> r[i] == table[i];
      } else {
        assert Sound(table[1..]) by {
          assert forall i :: 0 <= i < |table[1..]| ==> table[1..][i] == table[i + 1];
        }
        RecordSound(table[1..], key, correct);
        assert r == [table[0]] + Record(table[1..], key, correct);
      }
    }
  }

  /** One occurrence adds one to the key's total, one to its correct count
      when correct, and nothing to any other key's. */
  lemma RecordCounts<K>(table: Table<K>, key: K, correct: bool, other: K)
    ensures var r := Record(table, key, correct);
      var n := if other == key then 1 else 0;
      && (Lookup(r, other).Some? <==> Lookup(table, other).Some? || n > 0)
      && CorrectOf(r, other) == CorrectOf(table, other) + (if correct then n else 0)
      && TotalOf(r, other) == TotalOf(table, other) + n
  {
    RecordLookup(table, key, correct, other);
  }

  /** After recording a list of keys, a key has a tally if it had one or occurs in the list. */
  lemma {:induction false} RecordAllPresence<K>(table: Table<K>, keys: seq<K>, correct: bool, other: K)
    ensures Lookup(RecordAll(table, keys, correct), other).Some?
      <==> Lookup(table, other).Some? || Occurrences(keys, other) > 0
  {
    if |keys| > 0 {
      var k := |keys| - 1;
      RecordAllPresence(table, keys[..k], correct, other);
      RecordCounts(RecordAll(table, keys[..k], correct), keys[k], correct, other);
    }
  }

  /** Recording a list of keys adds, when correct, each key's occurrences to its correct count. */
  lemma {:induction false} RecordAllCorrect<K>(table: Table<K>, keys: seq<K>, correct: bool, other: K)
    ensures CorrectOf(RecordAll(table, keys, correct), other)
      == CorrectOf(table, other) + (if correct then Occurrences(keys, other) else 0)
  {
    if |keys| > 0 {
      var k := |keys| - 1;
      RecordAllCorrect(table, keys[..k], correct, other);
      RecordCounts(RecordAll(table, keys[..k], correct), keys[k], correct, other);
    }
  }

  /** Recording a list of keys adds each key's occurrences to its total. */
  lemma {:induction false} RecordAllTotal<K>(table: Table<K>, keys: seq<K>, correct: bool, other: K)
    ensures TotalOf(RecordAll(table, keys, correct), other) == TotalOf(table, other) + Occurrences(keys, other)
  {
    if |keys| > 0 {
      var k := |keys| - 1;
      RecordAllTotal(table, keys[..k], correct, other);
      RecordCounts(RecordAll(table, keys[..k], correct), keys[k], correct, other);
    }
  }

  /** Recording a list of keys never gives a key two tallies. */
  lemma {:induction false} RecordAllDistinct<K>(table: Table<K>, keys: seq<K>, correct: bool)
    requires DistinctKeys(table)
    ensures DistinctKeys(RecordAll(table, keys, correct))
  {
    if |keys| > 0 {
      var k := |keys| - 1;
      RecordAllDistinct(table, keys[..k], correct);
      RecordDistinct(RecordAll(table, keys[..k], correct), keys[k], correct);
    }
  }

  /** Recording a list of keys keeps every tally sound. */
  lemma {:induction false} RecordAllSound<K>(table: Table<K>, keys: seq<K>, correct: bool)
    requires Sound(table)
    ensures Sound(RecordAll(table, keys, correct))
  {
    if |keys| > 0 {
      var k := |keys| - 1;
      RecordAllSound(table, keys[..k], correct);
      RecordSound(RecordAll(table, keys[..k], correct), keys[k], correct);
    }
  }

  /** A key occurs in a list at least once exactly when it is in the list. */
  lemma {:induction false} OccurrencesPositive<K>(keys: seq<K>, key: K)
    ensures Occurrences(keys, key) > 0 <==> key in keys
  {
    if |keys| > 0 {
      var k := |keys| - 1;
      OccurrencesPositive(keys[..k], key);
      assert keys == keys[..k] + [keys[k]];
    }
  }

  /** A key occurs in a list as often as the strictly increasing list of
      positions that hold it is long. */
  lemma {:induction false} OccurrencesAtPositions<K>(keys: seq<K>, key: K, ps: seq<nat>)
    requires forall j :: 0 < j < |ps| ==> ps[j - 1] < ps[j]
    requires forall j :: 0 <= j < |ps| ==> ps[j] < |keys|
    requires forall k :: 0 <= k < |keys| ==> (keys[k] == key <==> k in ps)
    ensures Occurrences(keys, key) == |ps|
  {
    if |keys| > 0 {
      var n := |keys| - 1;
      var rest := keys[..n];
      if keys[n] == key {
        var m := |ps| - 1;
        assert ps[m] == n by {
          var j :| 0 <= j < |ps| && ps[j] == n;
          if j < m { Increasing(ps, j, m); }
        }
        forall j | 0 <= j < m ensures ps[j] < n {
          Increasing(ps, j, m);
        }
        OccurrencesAtPositions(rest, key, ps[..m]);
      } else {
        assert n !in ps;
        OccurrencesAtPositions(rest, key, ps);
      }
    }
  }

  lemma {:induction false} Increasing(ps: seq<nat>, i: nat, j: nat)
    requires forall k :: 0 < k < |ps| ==> ps[k - 1] < ps[k]
    requires i < j < |ps|
    ensures ps[i] < ps[j]
    decreases j - i
  {
    if i + 1 < j {
      Increasing(ps, i + 1, j);
    }
  }
}
