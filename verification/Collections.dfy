/** Iteration orders of hash maps, and sequences without repetition. */
module Collections {

  predicate NoDuplicates<T(==)>(s: seq<T>) {
    forall i, j | 0 <= i < j < |s| :: s[i] != s[j]
  }

  /** `order` visits every key exactly once. */
  predicate Enumerates<K(==)>(order: seq<K>, keys: set<K>) {
    NoDuplicates(order) && (forall k | k in order :: k in keys) && (forall k | k in keys :: k in order)
  }

  function ToSet<T>(s: seq<T>): set<T> {
    set x | x in s
  }

  lemma {:induction false} NoDuplicatesCardinality<T>(s: seq<T>)
    requires NoDuplicates(s)
    ensures |ToSet(s)| == |s|
  {
    if s != [] {
      NoDuplicatesCardinality(s[1..]);
      assert ToSet(s) == ToSet(s[1..]) + {s[0]};
    }
  }

  /** The part of a map that an iteration has visited. */
  function Visited<K, V>(m: map<K, V>, order: seq<K>): map<K, V>
    requires forall k | k in order :: k in m
  {
    map k | k in order :: m[k]
  }

  lemma VisitsOneMore<K, V>(m: map<K, V>, order: seq<K>)
    requires order != [] && forall k | k in order :: k in m
    ensures forall k | k in order[..|order| - 1] :: k in m
    ensures Visited(m, order) == Visited(m, order[..|order| - 1])[order[|order| - 1] := m[order[|order| - 1]]]
  {
    var n := |order| - 1;
    assert order == order[..n] + [order[n]];
  }

  lemma VisitsAll<K, V>(m: map<K, V>, order: seq<K>)
    requires Enumerates(order, m.Keys)
    ensures Visited(m, order) == m
  {
  }
}
