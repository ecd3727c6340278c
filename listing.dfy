/** What a `find(...).sort('-field')` listing and a `$sum` aggregation promise, over a
    store modelled as a map from document id to document. */
module Listing {

  /** `ids` lists documents of `m` with `key` non-increasing: newest first. */
  predicate SortedDesc<K, T>(m: map<K, T>, ids: seq<K>, key: T -> int)
    requires forall i :: 0 <= i < |ids| ==> ids[i] in m
  {
    forall i, j :: 0 <= i < j < |ids| ==> key(m[ids[i]]) >= key(m[ids[j]])
  }

  predicate Distinct<K(==)>(ids: seq<K>)
  {
    forall i, j :: 0 <= i < j < |ids| ==> ids[i] != ids[j]
  }

  /** Every non-empty finite set of documents has one whose key is largest. */
  lemma {:induction false} NewestExists<K, T>(m: map<K, T>, ids: set<K>, key: T -> int)
    requires ids <= m.Keys && ids != {}
    ensures exists k :: k in ids && forall j :: j in ids ==> key(m[j]) <= key(m[k])
    decreases ids
  {
    var x :| x in ids;
    if ids != {x} {
      NewestExists(m, ids - {x}, key);
      var k :| k in ids - {x} && forall j :: j in ids - {x} ==> key(m[j]) <= key(m[k]);
      if key(m[x]) > key(m[k]) {
        assert forall j :: j in ids ==> key(m[j]) <= key(m[x]);
      } else {
        assert forall j :: j in ids ==> key(m[j]) <= key(m[k]);
      }
    } else {
      assert forall j :: j in ids ==> j == x;
    }
  }

  /** The documents `ids` of `m`, each exactly once, ordered by `key` descending.
      Documents with equal keys may come in any order. */
  ghost function NewestFirst<K, T>(m: map<K, T>, ids: set<K>, key: T -> int): (r: seq<K>)
    requires ids <= m.Keys
    ensures |r| == |ids|
    ensures forall i :: 0 <= i < |r| ==> r[i] in ids
    ensures forall k :: k in ids ==> k in r
    ensures Distinct(r)
    ensures SortedDesc(m, r, key)
    decreases ids
  {
    if ids == {} then []
    else
      NewestExists(m, ids, key);
      var k :| k in ids && forall j :: j in ids ==> key(m[j]) <= key(m[k]);
      [k] + NewestFirst(m, ids - {k}, key)
  }

  /** Sum of `f` over the documents `ids` of `m` (the `$sum` accumulator; 0 for no documents). */
  ghost function SumOver<K, T>(m: map<K, T>, ids: set<K>, f: T -> int): int
    requires ids <= m.Keys
    decreases ids
  {
    if ids == {} then 0
    else
      var k :| k in ids;
      f(m[k]) + SumOver(m, ids - {k}, f)
  }

  /** The sum does not depend on the order the documents are visited in. */
  lemma {:induction false} SumOverRemove<K, T>(m: map<K, T>, ids: set<K>, f: T -> int, x: K)
    requires ids <= m.Keys && x in ids
    ensures SumOver(m, ids, f) == f(m[x]) + SumOver(m, ids - {x}, f)
    decreases ids
  {
    var y :| y in ids && SumOver(m, ids, f) == f(m[y]) + SumOver(m, ids - {y}, f);
    if y != x {
      SumOverRemove(m, ids - {y}, f, x);
      SumOverRemove(m, ids - {x}, f, y);
      assert ids - {y} - {x} == ids - {x} - {y};
    }
  }

  /** Summing over two disjoint groups is summing over their union. */
  lemma {:induction false} SumOverUnion<K, T>(m: map<K, T>, a: set<K>, b: set<K>, f: T -> int)
    requires a <= m.Keys && b <= m.Keys && a !! b
    ensures SumOver(m, a + b, f) == SumOver(m, a, f) + SumOver(m, b, f)
    decreases a
  {
    if a != {} {
      var x :| x in a;
      SumOverRemove(m, a + b, f, x);
      SumOverRemove(m, a, f, x);
      assert (a + b) - {x} == (a - {x}) + b;
      SumOverUnion(m, a - {x}, b, f);
    } else {
      assert a + b == b;
    }
  }

  /** Cardinality of a union of disjoint groups. */
  lemma DisjointCard<K>(a: set<K>, b: set<K>)
    requires a !! b
    ensures |a + b| == |a| + |b|
  {
  }
}
