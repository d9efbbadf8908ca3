/**
 * The fluent builders: Aggregator (Aggregator.java) and GroupingAggregator
 * (GroupingAggregator.java, with the members it inherits from
 * AbstractAggregator.java). A builder holds the collection, a parallel flag
 * and a task list; the task list is a separate heap object, so two builders
 * can share one list or hold copies.
 */
module Aggregation {
  import opened Decimals
  import opened Wrappers
  import opened Results
  import opened Fusion
  import opened Grouping

  /** The mutable ArrayList<AggregationTask<T>> a builder appends to. */
  class TaskList<E> {
    var items: seq<AggregationTask<E>>

    /** new ArrayList<>() */
    constructor ()
      ensures items == []
    {
      items := [];
    }

    /** add(task): one task at the end. */
    method Add(t: AggregationTask<E>)
      modifies this
      ensures items == old(items) + [t]
    {
      items := items + [t];
    }

    /** addAll(tasks), one element at a time, in order. */
    method AddAll(ts: seq<AggregationTask<E>>)
      modifies this
      ensures items == old(items) + ts
    {
      for i := 0 to |ts|
        invariant items == old(items) + ts[..i]
      {
        assert ts[..i + 1] == ts[..i] + [ts[i]];
        items := items + [ts[i]];
      }
      assert ts[..|ts|] == ts;
    }
  }

  /** The composite classifier of groupBy: the classifiers' outputs, in classifier order. */
  function CompositeKey<E, V>(classifiers: seq<E -> V>, e: E): (r: seq<V>)
    ensures |r| == |classifiers|
    ensures forall i :: 0 <= i < |classifiers| ==> r[i] == classifiers[i](e)
  {
    seq(|classifiers|, i requires 0 <= i < |classifiers| => classifiers[i](e))
  }

  /** Two elements share a group exactly when every classifier gives them the same value. */
  lemma SameGroupIff<E, V>(classifiers: seq<E -> V>, a: E, b: E)
    ensures CompositeKey(classifiers, a) == CompositeKey(classifiers, b) <==>
      forall i :: 0 <= i < |classifiers| ==> classifiers[i](a) == classifiers[i](b)
  {
    if forall i :: 0 <= i < |classifiers| ==> classifiers[i](a) == classifiers[i](b) {
      assert CompositeKey(classifiers, a) == CompositeKey(classifiers, b);
    }
  }

  class Aggregator<E> {
    const collection: seq<E>
    const parallel: bool
    const tasks: TaskList<E>

    constructor (collection: seq<E>, parallel: bool, tasks: TaskList<E>)
      ensures this.collection == collection && this.parallel == parallel && this.tasks == tasks
    {
      this.collection := collection;
      this.parallel := parallel;
      this.tasks := tasks;
    }

    /** of(collection): sequential, with a new empty task list. */
    static method Of(collection: seq<E>) returns (a: Aggregator<E>)
      ensures fresh(a) && fresh(a.tasks)
      ensures a.collection == collection && !a.parallel && a.tasks.items == []
    {
      var ts := new TaskList();
      a := new Aggregator(collection, false, ts);
    }

    /** parallel(): a new builder on the same collection that shares this builder's task list. */
    method Parallel() returns (a: Aggregator<E>)
      ensures fresh(a)
      ensures a.collection == collection && a.parallel && a.tasks == tasks
    {
      a := new Aggregator(collection, true, tasks);
    }

    method Count(alias: string) returns (r: Aggregator<E>)
      modifies tasks
      ensures r == this
      ensures tasks.items == old(tasks.items) + [AggregationTask(alias, Counting)]
    {
      tasks.Add(AggregationTask(alias, Counting));
      r := this;
    }

    /** sum(key, mapper): the mapper's value already read as a BigDecimal. */
    method Sum(alias: string, f: E -> Decimal) returns (r: Aggregator<E>)
      modifies tasks
      ensures r == this
      ensures tasks.items == old(tasks.items) + [AggregationTask(alias, Reducing(f))]
    {
      tasks.Add(AggregationTask(alias, Reducing(f)));
      r := this;
    }

    method Min(alias: string, f: E -> Decimal) returns (r: Aggregator<E>)
      modifies tasks
      ensures r == this
      ensures tasks.items == old(tasks.items) + [AggregationTask(alias, MinBy(f))]
    {
      tasks.Add(AggregationTask(alias, MinBy(f)));
      r := this;
    }

    method Max(alias: string, f: E -> Decimal) returns (r: Aggregator<E>)
      modifies tasks
      ensures r == this
      ensures tasks.items == old(tasks.items) + [AggregationTask(alias, MaxBy(f))]
    {
      tasks.Add(AggregationTask(alias, MaxBy(f)));
      r := this;
    }

    method Median(alias: string, f: E -> Decimal) returns (r: Aggregator<E>)
      modifies tasks
      ensures r == this
      ensures tasks.items == old(tasks.items) + [AggregationTask(alias, MedianCollector(f))]
    {
      tasks.Add(AggregationTask(alias, MedianCollector(f)));
      r := this;
    }

    method Distinct(alias: string, f: E -> Decimal) returns (r: Aggregator<E>)
      modifies tasks
      ensures r == this
      ensures tasks.items == old(tasks.items) + [AggregationTask(alias, ToSet(f))]
    {
      tasks.Add(AggregationTask(alias, ToSet(f)));
      r := this;
    }

    /**
     * aggregate(): an empty result when there are no tasks, otherwise the
     * composite collector over the collection. A parallel stream splits the
     * elements as `plan` says; a sequential one ignores it.
     */
    method Aggregate(plan: SplitPlan) returns (res: AggregationResult)
      ensures fresh(res)
      ensures res.results == Fusion.Aggregate(tasks.items, collection)
    {
      if |tasks.items| == 0 {
        res := new AggregationResult();
        return;
      }
      var split := if parallel then plan else Whole;
      res := Collect(tasks.items, collection, split);
    }

    /** groupBy(collection, classifiers...): grouped by the list of classifier outputs, no tasks yet. */
    static method GroupBy<V(==, !new)>(collection: seq<E>, classifiers: seq<E -> V>) returns (g: GroupingAggregator<E, seq<V>>)
      ensures fresh(g) && fresh(g.tasks)
      ensures g.collection == collection && !g.parallel && g.tasks.items == []
      ensures forall e :: g.classifier(e) == CompositeKey(classifiers, e)
    {
      var none := new TaskList();
      g := new GroupingAggregator(collection, e => CompositeKey(classifiers, e), false, none);
    }

    /** newInstance(collection, parallel, tasks), as written: the tasks argument is ignored and this builder's list reused. */
    method NewInstance(collection: seq<E>, parallel: bool, given: TaskList<E>) returns (a: Aggregator<E>)
      ensures fresh(a)
      ensures a.collection == collection && a.parallel == parallel && a.tasks == this.tasks
    {
      a := new Aggregator(collection, parallel, tasks);
    }

    /** newInstance as its grouping twin does it: the builder takes the list it is given. */
    method NewInstanceWithTasks(collection: seq<E>, parallel: bool, given: TaskList<E>) returns (a: Aggregator<E>)
      ensures fresh(a)
      ensures a.collection == collection && a.parallel == parallel && a.tasks == given
    {
      a := new Aggregator(collection, parallel, given);
    }
  }

  class GroupingAggregator<E, K(==, !new)> {
    const collection: seq<E>
    const classifier: E -> K
    var parallel: bool
    const tasks: TaskList<E>

    /** The constructor copies the given tasks into a list of the builder's own. */
    constructor (collection: seq<E>, classifier: E -> K, parallel: bool, given: TaskList<E>)
      ensures this.collection == collection && this.classifier == classifier && this.parallel == parallel
      ensures fresh(tasks) && tasks.items == given.items
    {
      var own := new TaskList();
      own.AddAll(given.items);
      this.collection := collection;
      this.classifier := classifier;
      this.parallel := parallel;
      this.tasks := own;
    }

    /** newInstance(collection, parallel, tasks): same classifier, the given flag, a copy of the given tasks. */
    method NewInstance(collection: seq<E>, parallel: bool, given: TaskList<E>) returns (g: GroupingAggregator<E, K>)
      ensures fresh(g) && fresh(g.tasks)
      ensures g.collection == collection && g.classifier == classifier && g.parallel == parallel
      ensures g.tasks.items == given.items
    {
      g := new GroupingAggregator(collection, classifier, parallel, given);
    }

    /** AbstractAggregator.parallel(): sets the flag on this builder and returns it. */
    method Parallel() returns (r: GroupingAggregator<E, K>)
      modifies this
      ensures r == this && parallel
    {
      parallel := true;
      r := this;
    }

    method Count(alias: string) returns (r: GroupingAggregator<E, K>)
      modifies tasks
      ensures r == this
      ensures tasks.items == old(tasks.items) + [AggregationTask(alias, Counting)]
    {
      tasks.Add(AggregationTask(alias, Counting));
      r := this;
    }

    method Distinct(alias: string, f: E -> Decimal) returns (r: GroupingAggregator<E, K>)
      modifies tasks
      ensures r == this
      ensures tasks.items == old(tasks.items) + [AggregationTask(alias, ToSet(f))]
    {
      tasks.Add(AggregationTask(alias, ToSet(f)));
      r := this;
    }

    method Sum(alias: string, f: E -> Decimal) returns (r: GroupingAggregator<E, K>)
      modifies tasks
      ensures r == this
      ensures tasks.items == old(tasks.items) + [AggregationTask(alias, Reducing(f))]
    {
      tasks.Add(AggregationTask(alias, Reducing(f)));
      r := this;
    }

    method Min(alias: string, f: E -> Decimal) returns (r: GroupingAggregator<E, K>)
      modifies tasks
      ensures r == this
      ensures tasks.items == old(tasks.items) + [AggregationTask(alias, MinBy(f))]
    {
      tasks.Add(AggregationTask(alias, MinBy(f)));
      r := this;
    }

    method Max(alias: string, f: E -> Decimal) returns (r: GroupingAggregator<E, K>)
      modifies tasks
      ensures r == this
      ensures tasks.items == old(tasks.items) + [AggregationTask(alias, MaxBy(f))]
    {
      tasks.Add(AggregationTask(alias, MaxBy(f)));
      r := this;
    }

    method Median(alias: string, f: E -> Decimal) returns (r: GroupingAggregator<E, K>)
      modifies tasks
      ensures r == this
      ensures tasks.items == old(tasks.items) + [AggregationTask(alias, MedianCollector(f))]
    {
      tasks.Add(AggregationTask(alias, MedianCollector(f)));
      r := this;
    }

    /**
     * aggregate(): groupingBy(classifier, composite collector), split as
     * `plan` says when parallel. Whatever the split, the keys are the
     * classifier values of the elements and each key's result is the
     * composite collector over exactly the elements with that key.
     */
    function Aggregate(plan: SplitPlan): (r: map<K, map<string, Value>>)
      reads this, tasks
      ensures r.Keys == KeysOf(classifier, collection)
      ensures forall k :: k in r ==> r[k] == Fusion.Aggregate(tasks.items, Filter(classifier, collection, k))
    {
      var split := if parallel then plan else Whole;
      GroupParallelAgrees(tasks.items, classifier, collection, split);
      GroupResultIsFilteredAggregate(tasks.items, classifier, collection);
      GroupFinish(tasks.items, GroupParallelFold(tasks.items, classifier, collection, split))
    }
  }
}
