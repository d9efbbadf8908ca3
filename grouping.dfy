/**
 * GroupingAggregator.aggregate: Collectors.groupingBy(classifier, the
 * composite collector). groupingBy runs one pass: for each element it
 * finds (or creates from the composite supplier) the container list of the
 * element's key, feeds the element to it, and at the end finishes every
 * key's list. Partial maps of a parallel run are merged key by key with the
 * composite combiner.
 */
module Grouping {
  import opened Wrappers
  import opened Results
  import opened Fusion

  /** The distinct keys of the elements. */
  function KeysOf<E, K(==, !new)>(key: E -> K, xs: seq<E>): (r: set<K>)
    ensures forall k :: k in r <==> exists i :: 0 <= i < |xs| && key(xs[i]) == k
  {
    if |xs| == 0 then {}
    else
      var front := xs[..|xs| - 1];
      assert forall i :: 0 <= i < |front| ==> xs[i] == front[i];
      KeysOf(key, front) + {key(xs[|xs| - 1])}
  }

  /** The elements with key k, in encounter order. */
  function Filter<E, K(==, !new)>(key: E -> K, xs: seq<E>, k: K): (r: seq<E>)
    ensures |r| <= |xs|
    ensures forall i :: 0 <= i < |r| ==> key(r[i]) == k
    ensures |r| == 0 <==> k !in KeysOf(key, xs)
  {
    if |xs| == 0 then []
    else
      var front := Filter(key, xs[..|xs| - 1], k);
      if key(xs[|xs| - 1]) == k then front + [xs[|xs| - 1]] else front
  }

  /** Every container list of a grouped state fits the tasks. */
  predicate GroupsFit<E, K(==, !new)>(ts: seq<AggregationTask<E>>, m: map<K, seq<Acc>>)
  {
    forall k :: k in m ==> FitsAll(ts, m[k])
  }

  /** groupingBy's accumulator over the elements: computeIfAbsent, then the composite accumulator. */
  function GroupFold<E, K(==, !new)>(ts: seq<AggregationTask<E>>, key: E -> K, xs: seq<E>): (r: map<K, seq<Acc>>)
    ensures GroupsFit(ts, r)
  {
    if |xs| == 0 then map[]
    else
      var m := GroupFold(ts, key, xs[..|xs| - 1]);
      var x := xs[|xs| - 1];
      var c := if key(x) in m then m[key(x)] else Supply(ts);
      m[key(x) := AccumulateAll(ts, c, x)]
  }

  /** groupingBy's combiner: union of keys, the composite combiner on keys both parts have. */
  function GroupMerge<E, K(==, !new)>(ts: seq<AggregationTask<E>>, m1: map<K, seq<Acc>>, m2: map<K, seq<Acc>>): (r: map<K, seq<Acc>>)
    requires GroupsFit(ts, m1) && GroupsFit(ts, m2)
    ensures GroupsFit(ts, r)
    ensures r.Keys == m1.Keys + m2.Keys
  {
    map k | k in m1.Keys + m2.Keys ::
      if k in m1 && k in m2 then CombineAll(ts, m1[k], m2[k])
      else if k in m1 then m1[k] else m2[k]
  }

  /** groupingBy's finisher: every key's list finished by the composite finisher. */
  function GroupFinish<E, K(==, !new)>(ts: seq<AggregationTask<E>>, m: map<K, seq<Acc>>): (r: map<K, map<string, Value>>)
    requires GroupsFit(ts, m)
    ensures r.Keys == m.Keys
  {
    map k | k in m :: FinishAll(ts, m[k])
  }

  /** The grouped result a sequential stream produces. */
  function GroupAggregate<E, K(==, !new)>(ts: seq<AggregationTask<E>>, key: E -> K, xs: seq<E>): (r: map<K, map<string, Value>>)
    ensures r.Keys == KeysOf(key, xs)
  {
    GroupFoldIsPartition(ts, key, xs);
    GroupFinish(ts, GroupFold(ts, key, xs))
  }

  /** A parallel groupingBy under a split plan: each part grouped on its own, then merged. */
  function GroupParallelFold<E, K(==, !new)>(ts: seq<AggregationTask<E>>, key: E -> K, xs: seq<E>, plan: SplitPlan): (r: map<K, seq<Acc>>)
    ensures GroupsFit(ts, r)
    decreases plan
  {
    match plan
    case Whole => GroupFold(ts, key, xs)
    case Fork(at, left, right) =>
      var m := if at <= |xs| then at else |xs|;
      GroupMerge(ts, GroupParallelFold(ts, key, xs[..m], left), GroupParallelFold(ts, key, xs[m..], right))
  }

  // ---------------------------------------------------------------------

  /**
   * The one-pass grouping is partition-then-fold: its keys are exactly the
   * keys of the elements, and each key holds the composite fold over
   * exactly the elements with that key.
   */
  lemma {:induction false} GroupFoldIsPartition<E, K(!new)>(ts: seq<AggregationTask<E>>, key: E -> K, xs: seq<E>)
    ensures GroupFold(ts, key, xs).Keys == KeysOf(key, xs)
    ensures forall k :: k in GroupFold(ts, key, xs) ==> GroupFold(ts, key, xs)[k] == Fold(ts, Filter(key, xs, k))
  {
    if |xs| > 0 {
      var front := xs[..|xs| - 1];
      GroupFoldIsPartition(ts, key, front);
      var m, r := GroupFold(ts, key, front), GroupFold(ts, key, xs);
      forall k | k in r
        ensures r[k] == Fold(ts, Filter(key, xs, k))
      {
        GroupFoldStepAt(ts, key, xs, front, m, r, k);
      }
    }
  }

  /** One element more, at one key: the element's key's list takes it, every other key's list is kept. */
  lemma GroupFoldStepAt<E, K(!new)>(ts: seq<AggregationTask<E>>, key: E -> K, xs: seq<E>,
                                  front: seq<E>, m: map<K, seq<Acc>>, r: map<K, seq<Acc>>, k: K)
    requires |xs| > 0 && front == xs[..|xs| - 1]
    requires m == GroupFold(ts, key, front) && r == GroupFold(ts, key, xs)
    requires m.Keys == KeysOf(key, front)
    requires forall k :: k in m ==> m[k] == Fold(ts, Filter(key, front, k))
    requires k in r
    ensures r[k] == Fold(ts, Filter(key, xs, k))
  {
    if k == key(xs[|xs| - 1]) {
      GroupFoldStepOwnKey(ts, key, xs, front, m, r);
    } else {
      assert Filter(key, xs, k) == Filter(key, front, k);
    }
  }

  /** The new element's own key: its list, or a fresh supply, takes the element. */
  lemma GroupFoldStepOwnKey<E, K(!new)>(ts: seq<AggregationTask<E>>, key: E -> K, xs: seq<E>,
                                      front: seq<E>, m: map<K, seq<Acc>>, r: map<K, seq<Acc>>)
    requires |xs| > 0 && front == xs[..|xs| - 1]
    requires m == GroupFold(ts, key, front) && r == GroupFold(ts, key, xs)
    requires m.Keys == KeysOf(key, front)
    requires forall k :: k in m ==> m[k] == Fold(ts, Filter(key, front, k))
    ensures key(xs[|xs| - 1]) in r
    ensures r[key(xs[|xs| - 1])] == Fold(ts, Filter(key, xs, key(xs[|xs| - 1])))
  {
    var x := xs[|xs| - 1];
    var before := Filter(key, front, key(x));
    var fx := Filter(key, xs, key(x));
    assert fx == before + [x];
    assert fx[..|fx| - 1] == before;
    assert Fold(ts, before) == if key(x) in m then m[key(x)] else Supply(ts);
  }

  /** Each key's result is the composite collector run over exactly that key's elements. */
  lemma {:induction false} GroupResultIsFilteredAggregate<E, K(!new)>(ts: seq<AggregationTask<E>>, key: E -> K, xs: seq<E>)
    ensures GroupAggregate(ts, key, xs).Keys == KeysOf(key, xs)
    ensures forall k :: k in GroupAggregate(ts, key, xs) ==>
      GroupAggregate(ts, key, xs)[k] == Aggregate(ts, Filter(key, xs, k))
  {
    GroupFoldIsPartition(ts, key, xs);
  }

  /** No tasks: one empty result per key. */
  lemma {:induction false} NoTasksEmptyGroups<E, K(!new)>(key: E -> K, xs: seq<E>)
    ensures GroupAggregate([], key, xs).Keys == KeysOf(key, xs)
    ensures forall k :: k in GroupAggregate([], key, xs) ==> GroupAggregate([], key, xs)[k] == map[]
  {
    GroupResultIsFilteredAggregate([], key, xs);
  }

  lemma {:induction false} FilterConcat<E, K(!new)>(key: E -> K, a: seq<E>, b: seq<E>, k: K)
    ensures Filter(key, a + b, k) == Filter(key, a, k) + Filter(key, b, k)
  {
    if |b| == 0 {
      assert a + b == a;
    } else {
      var front := b[..|b| - 1];
      assert (a + b)[..|a + b| - 1] == a + front;
      FilterConcat(key, a, front, k);
    }
  }

  lemma {:induction false} KeysOfConcat<E, K(!new)>(key: E -> K, a: seq<E>, b: seq<E>)
    ensures KeysOf(key, a + b) == KeysOf(key, a) + KeysOf(key, b)
  {
    if |b| == 0 {
      assert a + b == a;
    } else {
      var front := b[..|b| - 1];
      assert (a + b)[..|a + b| - 1] == a + front;
      KeysOfConcat(key, a, front);
    }
  }

  /** The partition property at one key, stated without the key set. */
  lemma GroupFoldAt<E, K(!new)>(ts: seq<AggregationTask<E>>, key: E -> K, xs: seq<E>, k: K)
    ensures k in GroupFold(ts, key, xs) <==> |Filter(key, xs, k)| > 0
    ensures k in GroupFold(ts, key, xs) ==> GroupFold(ts, key, xs)[k] == Fold(ts, Filter(key, xs, k))
  {
    GroupFoldIsPartition(ts, key, xs);
  }

  /** One key of the merge: whichever parts hold the key, their folds combine to the fold over a ++ b. */
  lemma {:induction false} GroupMergeAt<E, K(!new)>(ts: seq<AggregationTask<E>>, key: E -> K, a: seq<E>, b: seq<E>, k: K)
    requires k in GroupFold(ts, key, a) || k in GroupFold(ts, key, b)
    ensures k in GroupFold(ts, key, a + b)
    ensures GroupMerge(ts, GroupFold(ts, key, a), GroupFold(ts, key, b))[k] == GroupFold(ts, key, a + b)[k]
  {
    var fa, fb := Filter(key, a, k), Filter(key, b, k);
    GroupFoldAt(ts, key, a, k);
    GroupFoldAt(ts, key, b, k);
    GroupFoldAt(ts, key, a + b, k);
    FilterConcat(key, a, b, k);
    if |fa| > 0 && |fb| > 0 {
      FoldSplit(ts, fa, fb);
    } else if |fa| > 0 {
      assert fa + fb == fa;
    } else {
      assert fa + fb == fb;
    }
  }

  /** Merging the groupings of a and of b gives the grouping of a ++ b. */
  lemma {:induction false} GroupMergeSplit<E, K(!new)>(ts: seq<AggregationTask<E>>, key: E -> K, a: seq<E>, b: seq<E>)
    ensures GroupMerge(ts, GroupFold(ts, key, a), GroupFold(ts, key, b)) == GroupFold(ts, key, a + b)
  {
    var merged := GroupMerge(ts, GroupFold(ts, key, a), GroupFold(ts, key, b));
    var mab := GroupFold(ts, key, a + b);
    assert merged.Keys == mab.Keys by {
      GroupFoldIsPartition(ts, key, a);
      GroupFoldIsPartition(ts, key, b);
      GroupFoldIsPartition(ts, key, a + b);
      KeysOfConcat(key, a, b);
    }
    forall k | k in merged ensures merged[k] == mab[k] {
      GroupMergeAt(ts, key, a, b, k);
    }
  }

  /** However a parallel stream splits the elements, the grouped state is the sequential one. */
  lemma {:induction false} GroupParallelAgrees<E, K(!new)>(ts: seq<AggregationTask<E>>, key: E -> K, xs: seq<E>, plan: SplitPlan)
    ensures GroupParallelFold(ts, key, xs, plan) == GroupFold(ts, key, xs)
    decreases plan
  {
    match plan
    case Whole =>
    case Fork(at, left, right) =>
      var m := if at <= |xs| then at else |xs|;
      GroupParallelAgrees(ts, key, xs[..m], left);
      GroupParallelAgrees(ts, key, xs[m..], right);
      assert xs[..m] + xs[m..] == xs;
      GroupMergeSplit(ts, key, xs[..m], xs[m..]);
  }

  /** There are never more groups than elements. */
  lemma {:induction false} GroupsAtMostElements<E, K(!new)>(key: E -> K, xs: seq<E>)
    ensures |KeysOf(key, xs)| <= |xs|
  {
    if |xs| > 0 {
      GroupsAtMostElements(key, xs[..|xs| - 1]);
    }
  }

  // ---------------------------------------------------------------------
  // Group sizes add up to the collection size.

  ghost function Pick<K(!new)>(s: set<K>): K
    requires s != {}
  {
    var k :| k in s; k
  }

  /** The total size of the groups with keys in ks. */
  ghost function GroupSizes<E, K(!new)>(key: E -> K, xs: seq<E>, ks: set<K>): nat
    decreases ks
  {
    if ks == {} then 0
    else
      var k := Pick(ks);
      |Filter(key, xs, k)| + GroupSizes(key, xs, ks - {k})
  }

  lemma {:induction false} GroupSizesRemove<E, K(!new)>(key: E -> K, xs: seq<E>, ks: set<K>, k0: K)
    requires k0 in ks
    ensures GroupSizes(key, xs, ks) == |Filter(key, xs, k0)| + GroupSizes(key, xs, ks - {k0})
    decreases ks
  {
    var p := Pick(ks);
    if p != k0 {
      GroupSizesRemove(key, xs, ks - {p}, k0);
      GroupSizesRemove(key, xs, ks - {k0}, p);
      assert ks - {p} - {k0} == ks - {k0} - {p};
    }
  }

  /** Appending x grows exactly the group of x's key by one. */
  lemma {:induction false} GroupSizesAppend<E, K(!new)>(key: E -> K, xs: seq<E>, x: E, ks: set<K>)
    ensures GroupSizes(key, xs + [x], ks) == GroupSizes(key, xs, ks) + (if key(x) in ks then 1 else 0)
    decreases ks
  {
    if ks != {} {
      var k := Pick(ks);
      assert (xs + [x])[..|xs + [x]| - 1] == xs;
      GroupSizesAppend(key, xs, x, ks - {k});
    }
  }

  /** The groups partition the elements: their sizes add up to the collection size. */
  lemma {:induction false} GroupSizesCoverAll<E, K(!new)>(key: E -> K, xs: seq<E>)
    ensures GroupSizes(key, xs, KeysOf(key, xs)) == |xs|
  {
    if |xs| > 0 {
      var front, x := xs[..|xs| - 1], xs[|xs| - 1];
      assert xs == front + [x];
      GroupSizesCoverAll(key, front);
      var ks := KeysOf(key, xs);
      GroupSizesAppend(key, front, x, ks);
      if key(x) !in KeysOf(key, front) {
        GroupSizesRemove(key, front, ks, key(x));
        assert ks - {key(x)} == KeysOf(key, front);
      } else {
        assert ks == KeysOf(key, front);
      }
    }
  }

  /**
   * A counting task with an alias of its own stores, in each group, the
   * size of that group; and those counts add up to the collection size.
   */
  lemma {:induction false} GroupCountsAreSizes<E, K(!new)>(ts: seq<AggregationTask<E>>, key: E -> K, xs: seq<E>, i: nat)
    requires i < |ts| && ts[i].kind.Counting?
    requires forall j :: 0 <= j < |ts| && j != i ==> ts[j].alias != ts[i].alias
    ensures forall k :: k in GroupAggregate(ts, key, xs) ==>
      ts[i].alias in GroupAggregate(ts, key, xs)[k] &&
      GroupAggregate(ts, key, xs)[k][ts[i].alias] == CountValue(|Filter(key, xs, k)|)
    ensures GroupSizes(key, xs, GroupAggregate(ts, key, xs).Keys) == |xs|
  {
    GroupResultIsFilteredAggregate(ts, key, xs);
    forall k | k in GroupAggregate(ts, key, xs)
      ensures ts[i].alias in GroupAggregate(ts, key, xs)[k]
      ensures GroupAggregate(ts, key, xs)[k][ts[i].alias] == CountValue(|Filter(key, xs, k)|)
    {
      ResultOfTask(ts, Filter(key, xs, k), i);
      CountIsLength(Filter(key, xs, k));
    }
    GroupSizesCoverAll(key, xs);
  }
}
