/**
 * The composite collector of Aggregator.aggregate and its twin
 * AbstractAggregator.buildCompositeCollector: one accumulator slot per
 * declared task, every element fed to every slot, two partial slot lists
 * combined slot by slot, and each slot finished into the result map under
 * its task's alias.
 *
 * The JDK collectors behind the builder methods are a closed set of kinds,
 * each with its own accumulator state, so the unchecked casts and the
 * `instanceof Optional` test of the source become pattern matches here.
 */
module Fusion {
  import opened Decimals
  import opened Wrappers
  import Median
  import opened Results

  /**
   * The collector a task carries. Each extractor reads one value of an
   * element: Collectors.counting(), reducing(ZERO, ..., add), minBy and
   * maxBy under natural order, toSet(), and MedianCollector.
   */
  datatype Kind<!E> =
    | Counting
    | Reducing(f: E -> Decimal)
    | MinBy(f: E -> Decimal)
    | MaxBy(f: E -> Decimal)
    | ToSet(f: E -> Decimal)
    | MedianCollector(f: E -> Decimal)

  /** An (alias, collector) pair, as AggregationTask.java holds it. */
  datatype AggregationTask<!E> = AggregationTask(alias: string, kind: Kind<E>)

  /**
   * The mutable container a collector's supplier creates: a long counter,
   * a one-value box, an optional-value box (present or not), a HashSet, and
   * the median's ArrayList.
   */
  datatype Acc =
    | CountAcc(n: nat)
    | SumAcc(total: Decimal)
    | BestAcc(best: Option<Decimal>)
    | SetAcc(elements: set<Decimal>)
    | ListAcc(items: seq<Decimal>)

  /** The container shape a kind of collector works on. */
  predicate Fits<E>(k: Kind<E>, a: Acc)
  {
    match k
    case Counting => a.CountAcc?
    case Reducing(_) => a.SumAcc?
    case MinBy(_) => a.BestAcc?
    case MaxBy(_) => a.BestAcc?
    case ToSet(_) => a.SetAcc?
    case MedianCollector(_) => a.ListAcc?
  }

  /** BinaryOperator.minBy(naturalOrder()): compareTo(a, b) <= 0 ? a : b, so ties keep the earlier value. */
  function MinOf(a: Decimal, b: Decimal): (r: Decimal)
    ensures r == a || r == b
    ensures NumLe(r, a) && NumLe(r, b)
    ensures NumLe(a, b) ==> r == a
  {
    if NumLe(a, b) then a else b
  }

  /** BinaryOperator.maxBy(naturalOrder()): compareTo(a, b) >= 0 ? a : b, so ties keep the earlier value. */
  function MaxOf(a: Decimal, b: Decimal): (r: Decimal)
    ensures r == a || r == b
    ensures NumLe(a, r) && NumLe(b, r)
    ensures NumLe(b, a) ==> r == a
  {
    if NumLe(b, a) then a else b
  }

  /** The supplier of one collector: a fresh, empty container. */
  function Init<E>(k: Kind<E>): (a: Acc)
    ensures Fits(k, a)
  {
    match k
    case Counting => CountAcc(0)
    case Reducing(_) => SumAcc(Zero)
    case MinBy(_) => BestAcc(None)
    case MaxBy(_) => BestAcc(None)
    case ToSet(_) => SetAcc({})
    case MedianCollector(_) => ListAcc([])
  }

  /** The accumulator of one collector: fold one element into its container. */
  function Step<E>(k: Kind<E>, a: Acc, x: E): (r: Acc)
    requires Fits(k, a)
    ensures Fits(k, r)
  {
    match k
    case Counting => CountAcc(a.n + 1)
    case Reducing(f) => SumAcc(Add(a.total, f(x)))
    case MinBy(f) => BestAcc(Some(if a.best.Some? then MinOf(a.best.value, f(x)) else f(x)))
    case MaxBy(f) => BestAcc(Some(if a.best.Some? then MaxOf(a.best.value, f(x)) else f(x)))
    case ToSet(f) => SetAcc(a.elements + {f(x)})
    case MedianCollector(f) => ListAcc(a.items + [f(x)])
  }

  /** The optional-value box's combiner: a present right-hand value is fed to the left box. */
  function CombineBest(a: Option<Decimal>, b: Option<Decimal>, keepMin: bool): (r: Option<Decimal>)
    ensures r.None? <==> a.None? && b.None?
    ensures r.Some? ==> (a.Some? && r.value == a.value) || (b.Some? && r.value == b.value)
    ensures r.Some? && a.Some? ==> if keepMin then NumLe(r.value, a.value) else NumLe(a.value, r.value)
    ensures r.Some? && b.Some? ==> if keepMin then NumLe(r.value, b.value) else NumLe(b.value, r.value)
  {
    if b.None? then a
    else if a.None? then b
    else Some(if keepMin then MinOf(a.value, b.value) else MaxOf(a.value, b.value))
  }

  /** The combiner of one collector: merge the container of a right-hand part into a left-hand one. */
  function CombineAcc<E>(k: Kind<E>, a: Acc, b: Acc): (r: Acc)
    requires Fits(k, a) && Fits(k, b)
    ensures Fits(k, r)
  {
    match k
    case Counting => CountAcc(a.n + b.n)
    case Reducing(_) => SumAcc(Add(a.total, b.total))
    case MinBy(_) => BestAcc(CombineBest(a.best, b.best, true))
    case MaxBy(_) => BestAcc(CombineBest(a.best, b.best, false))
    case ToSet(_) => SetAcc(a.elements + b.elements)
    case MedianCollector(_) => ListAcc(a.items + b.items)
  }

  /**
   * The finisher of one collector, with an empty Optional and a null
   * (the median of nothing) both read as absent.
   */
  function FinishAcc<E>(k: Kind<E>, a: Acc): (r: Option<Value>)
    requires Fits(k, a)
    ensures r.None? <==> (a.BestAcc? && a.best.None?) || (a.ListAcc? && |a.items| == 0)
  {
    match k
    case Counting => Some(CountValue(a.n))
    case Reducing(_) => Some(DecimalValue(a.total))
    case MinBy(_) => if a.best.Some? then Some(DecimalValue(a.best.value)) else None
    case MaxBy(_) => if a.best.Some? then Some(DecimalValue(a.best.value)) else None
    case ToSet(_) => Some(SetValue(a.elements))
    case MedianCollector(_) =>
      var m := Median.MedianOf(a.items);
      if m.Some? then Some(DecimalValue(m.value)) else None
  }

  /** One container per task, each of the shape its task's collector works on. */
  predicate FitsAll<E>(ts: seq<AggregationTask<E>>, accs: seq<Acc>)
  {
    |accs| == |ts| && forall i :: 0 <= i < |ts| ==> Fits(ts[i].kind, accs[i])
  }

  /** The composite supplier: a fresh container per task, in task order. */
  function Supply<E>(ts: seq<AggregationTask<E>>): (r: seq<Acc>)
    ensures FitsAll(ts, r)
  {
    seq(|ts|, i requires 0 <= i < |ts| => Init(ts[i].kind))
  }

  /** The composite accumulator: the element goes to every slot once. */
  function AccumulateAll<E>(ts: seq<AggregationTask<E>>, accs: seq<Acc>, x: E): (r: seq<Acc>)
    requires FitsAll(ts, accs)
    ensures FitsAll(ts, r)
  {
    seq(|ts|, i requires 0 <= i < |ts| => Step(ts[i].kind, accs[i], x))
  }

  /** The composite combiner: slot i of the result combines the two slots i. */
  function CombineAll<E>(ts: seq<AggregationTask<E>>, a: seq<Acc>, b: seq<Acc>): (r: seq<Acc>)
    requires FitsAll(ts, a) && FitsAll(ts, b)
    ensures FitsAll(ts, r)
  {
    seq(|ts|, i requires 0 <= i < |ts| => CombineAcc(ts[i].kind, a[i], b[i]))
  }

  /** A sequential collect: the composite accumulator over the elements in encounter order. */
  function Fold<E>(ts: seq<AggregationTask<E>>, xs: seq<E>): (r: seq<Acc>)
    ensures FitsAll(ts, r)
  {
    if |xs| == 0 then Supply(ts)
    else AccumulateAll(ts, Fold(ts, xs[..|xs| - 1]), xs[|xs| - 1])
  }

  /** One collector run alone over the elements: the reference each slot is compared with. */
  function SlotFold<E>(k: Kind<E>, xs: seq<E>): (a: Acc)
    ensures Fits(k, a)
  {
    if |xs| == 0 then Init(k)
    else Step(k, SlotFold(k, xs[..|xs| - 1]), xs[|xs| - 1])
  }

  /**
   * The composite finisher: each slot finished in task order and put under
   * its alias, an absent value leaving the map as it was. The keys are
   * exactly the aliases of tasks whose finished value is present.
   */
  function FinishAll<E>(ts: seq<AggregationTask<E>>, accs: seq<Acc>): (r: map<string, Value>)
    requires FitsAll(ts, accs)
    ensures forall key :: key in r <==>
      exists i :: 0 <= i < |ts| && ts[i].alias == key && FinishAcc(ts[i].kind, accs[i]).Some?
  {
    if |ts| == 0 then map[]
    else
      var n := |ts| - 1;
      var prev := FinishAll(ts[..n], accs[..n]);
      assert forall i :: 0 <= i < n ==> ts[..n][i] == ts[i] && accs[..n][i] == accs[i];
      var r := PutValue(prev, ts[n].alias, FinishAcc(ts[n].kind, accs[n]));
      FinishStepKeys(ts, accs, prev, r);
      r
  }

  /** The finisher's last put adds the last alias exactly when its value is present. */
  lemma FinishStepKeys<E>(ts: seq<AggregationTask<E>>, accs: seq<Acc>, prev: map<string, Value>, r: map<string, Value>)
    requires FitsAll(ts, accs) && |ts| > 0
    requires forall key :: key in prev <==>
      exists i :: 0 <= i < |ts| - 1 && ts[i].alias == key && FinishAcc(ts[i].kind, accs[i]).Some?
    requires r == PutValue(prev, ts[|ts| - 1].alias, FinishAcc(ts[|ts| - 1].kind, accs[|ts| - 1]))
    ensures forall key :: key in r <==>
      exists i :: 0 <= i < |ts| && ts[i].alias == key && FinishAcc(ts[i].kind, accs[i]).Some?
  {
    var n := |ts| - 1;
    forall key
      ensures key in r <==> exists i :: 0 <= i < |ts| && ts[i].alias == key && FinishAcc(ts[i].kind, accs[i]).Some?
    {
      if key in r && !(key in prev) {
        assert ts[n].alias == key && FinishAcc(ts[n].kind, accs[n]).Some?;
      }
    }
  }

  /** Aggregator.aggregate(): no tasks gives an empty result without a pass; otherwise collect and finish. */
  function Aggregate<E>(ts: seq<AggregationTask<E>>, xs: seq<E>): (r: map<string, Value>)
    ensures |ts| == 0 ==> r == map[]
  {
    if |ts| == 0 then map[] else FinishAll(ts, Fold(ts, xs))
  }

  /** How a parallel stream may split the elements: the scheduler's choice, left as a parameter. */
  datatype SplitPlan = Whole | Fork(at: nat, left: SplitPlan, right: SplitPlan)

  /**
   * A parallel collect: each leaf part is folded from a fresh supply, and
   * the parts' containers are combined left to right in encounter order.
   */
  function ParallelFold<E>(ts: seq<AggregationTask<E>>, xs: seq<E>, plan: SplitPlan): (r: seq<Acc>)
    ensures FitsAll(ts, r)
    decreases plan
  {
    match plan
    case Whole => Fold(ts, xs)
    case Fork(at, left, right) =>
      var m := if at <= |xs| then at else |xs|;
      CombineAll(ts, ParallelFold(ts, xs[..m], left), ParallelFold(ts, xs[m..], right))
  }

  // ---------------------------------------------------------------------
  // Per-collector algebra: the identity, step-as-combine and associativity
  // that make the combiner agree with the accumulator.

  lemma MinOfAssociates(a: Decimal, b: Decimal, c: Decimal)
    ensures MinOf(MinOf(a, b), c) == MinOf(a, MinOf(b, c))
  {
  }

  lemma MaxOfAssociates(a: Decimal, b: Decimal, c: Decimal)
    ensures MaxOf(MaxOf(a, b), c) == MaxOf(a, MaxOf(b, c))
  {
  }

  /** A fresh container is an identity of the combiner on both sides. */
  lemma {:induction false} CombineInit<E>(k: Kind<E>, a: Acc)
    requires Fits(k, a)
    ensures CombineAcc(k, Init(k), a) == a
    ensures CombineAcc(k, a, Init(k)) == a
  {
    match k
    case Reducing(_) => AddZero(a.total);
    case ToSet(_) => assert {} + a.elements == a.elements;
    case MedianCollector(_) => assert [] + a.items == a.items;
    case _ =>
  }

  /** The combiner of one collector is associative. */
  lemma {:induction false} CombineAccAssociates<E>(k: Kind<E>, a: Acc, b: Acc, c: Acc)
    requires Fits(k, a) && Fits(k, b) && Fits(k, c)
    ensures CombineAcc(k, CombineAcc(k, a, b), c) == CombineAcc(k, a, CombineAcc(k, b, c))
  {
    match k
    case Reducing(_) => AddAssociates(a.total, b.total, c.total);
    case MinBy(_) =>
      if a.best.Some? && b.best.Some? && c.best.Some? {
        MinOfAssociates(a.best.value, b.best.value, c.best.value);
      }
    case MaxBy(_) =>
      if a.best.Some? && b.best.Some? && c.best.Some? {
        MaxOfAssociates(a.best.value, b.best.value, c.best.value);
      }
    case MedianCollector(_) => assert (a.items + b.items) + c.items == a.items + (b.items + c.items);
    case _ =>
  }

  /** Accumulating one element is combining with the container of that element alone. */
  lemma {:induction false} StepIsCombine<E>(k: Kind<E>, a: Acc, x: E)
    requires Fits(k, a)
    ensures Step(k, a, x) == CombineAcc(k, a, Step(k, Init(k), x))
  {
    match k
    case Reducing(f) => AddZero(f(x));
    case ToSet(f) => assert {} + {f(x)} == {f(x)};
    case MedianCollector(f) => assert [] + [f(x)] == [f(x)];
    case _ =>
  }

  // ---------------------------------------------------------------------
  // Fan-out and split invariance.

  /** Every slot of the composite fold is its own collector run over all elements. */
  lemma {:induction false} FanOut<E>(ts: seq<AggregationTask<E>>, xs: seq<E>)
    ensures forall i :: 0 <= i < |ts| ==> Fold(ts, xs)[i] == SlotFold(ts[i].kind, xs)
  {
    if |xs| > 0 {
      FanOut(ts, xs[..|xs| - 1]);
    }
  }

  /** One collector over a ++ b is the combine of its runs over a and over b. */
  lemma {:induction false} SlotSplit<E>(k: Kind<E>, a: seq<E>, b: seq<E>)
    ensures SlotFold(k, a + b) == CombineAcc(k, SlotFold(k, a), SlotFold(k, b))
  {
    if |b| == 0 {
      assert a + b == a;
      CombineInit(k, SlotFold(k, a));
    } else {
      var front, x := b[..|b| - 1], b[|b| - 1];
      assert (a + b)[..|a + b| - 1] == a + front;
      assert (a + b)[|a + b| - 1] == x;
      SlotSplit(k, a, front);
      var left, mid := SlotFold(k, a), SlotFold(k, front);
      StepIsCombine(k, CombineAcc(k, left, mid), x);
      CombineAccAssociates(k, left, mid, Step(k, Init(k), x));
      StepIsCombine(k, mid, x);
    }
  }

  /** Folding a ++ b equals combining the folds of a and of b. */
  lemma {:induction false} FoldSplit<E>(ts: seq<AggregationTask<E>>, a: seq<E>, b: seq<E>)
    ensures Fold(ts, a + b) == CombineAll(ts, Fold(ts, a), Fold(ts, b))
  {
    FanOut(ts, a);
    FanOut(ts, b);
    FanOut(ts, a + b);
    forall i | 0 <= i < |ts|
      ensures Fold(ts, a + b)[i] == CombineAll(ts, Fold(ts, a), Fold(ts, b))[i]
    {
      SlotSplit(ts[i].kind, a, b);
    }
  }

  /** The composite combiner is associative. */
  lemma {:induction false} CombineAllAssociates<E>(ts: seq<AggregationTask<E>>, a: seq<Acc>, b: seq<Acc>, c: seq<Acc>)
    requires FitsAll(ts, a) && FitsAll(ts, b) && FitsAll(ts, c)
    ensures CombineAll(ts, CombineAll(ts, a, b), c) == CombineAll(ts, a, CombineAll(ts, b, c))
  {
    forall i | 0 <= i < |ts|
      ensures CombineAll(ts, CombineAll(ts, a, b), c)[i] == CombineAll(ts, a, CombineAll(ts, b, c))[i]
    {
      CombineAccAssociates(ts[i].kind, a[i], b[i], c[i]);
    }
  }

  /** The composite supply is an identity of the composite combiner on both sides. */
  lemma {:induction false} CombineAllSupply<E>(ts: seq<AggregationTask<E>>, a: seq<Acc>)
    requires FitsAll(ts, a)
    ensures CombineAll(ts, Supply(ts), a) == a
    ensures CombineAll(ts, a, Supply(ts)) == a
  {
    forall i | 0 <= i < |ts|
      ensures CombineAll(ts, Supply(ts), a)[i] == a[i] && CombineAll(ts, a, Supply(ts))[i] == a[i]
    {
      CombineInit(ts[i].kind, a[i]);
    }
  }

  /** However a parallel stream splits the elements, it gets the sequential fold. */
  lemma {:induction false} ParallelAgrees<E>(ts: seq<AggregationTask<E>>, xs: seq<E>, plan: SplitPlan)
    ensures ParallelFold(ts, xs, plan) == Fold(ts, xs)
    decreases plan
  {
    match plan
    case Whole =>
    case Fork(at, left, right) =>
      var m := if at <= |xs| then at else |xs|;
      ParallelAgrees(ts, xs[..m], left);
      ParallelAgrees(ts, xs[m..], right);
      assert xs[..m] + xs[m..] == xs;
      FoldSplit(ts, xs[..m], xs[m..]);
  }

  // ---------------------------------------------------------------------
  // Finishing: absent values skipped, later aliases overwrite earlier ones.

  /**
   * The value stored under an alias is that of the last task with the alias
   * whose finished value is present.
   */
  lemma {:induction false} LastWriterWins<E>(ts: seq<AggregationTask<E>>, accs: seq<Acc>, i: nat)
    requires FitsAll(ts, accs) && i < |ts|
    requires FinishAcc(ts[i].kind, accs[i]).Some?
    requires forall j :: i < j < |ts| && ts[j].alias == ts[i].alias ==> FinishAcc(ts[j].kind, accs[j]).None?
    ensures ts[i].alias in FinishAll(ts, accs)
    ensures FinishAll(ts, accs)[ts[i].alias] == FinishAcc(ts[i].kind, accs[i]).value
  {
    var n := |ts| - 1;
    FinishAllLast(ts, accs);
    if i < n {
      LastWriterPrefix(ts, accs, i, ts[..n], accs[..n]);
      LastWriterWins(ts[..n], accs[..n], i);
      LastWriterKept(ts, accs, i, FinishAll(ts[..n], accs[..n]));
    }
  }

  /** The preconditions of the last-writer property carry over to all tasks but the last. */
  lemma LastWriterPrefix<E>(ts: seq<AggregationTask<E>>, accs: seq<Acc>, i: nat, front: seq<AggregationTask<E>>, frontAccs: seq<Acc>)
    requires FitsAll(ts, accs) && i < |ts| - 1
    requires FinishAcc(ts[i].kind, accs[i]).Some?
    requires forall j :: i < j < |ts| && ts[j].alias == ts[i].alias ==> FinishAcc(ts[j].kind, accs[j]).None?
    requires front == ts[..|ts| - 1] && frontAccs == accs[..|ts| - 1]
    ensures FitsAll(front, frontAccs)
    ensures front[i] == ts[i] && frontAccs[i] == accs[i]
    ensures forall j :: i < j < |front| && front[j].alias == front[i].alias ==> FinishAcc(front[j].kind, frontAccs[j]).None?
  {
    assert forall j :: 0 <= j < |front| ==> front[j] == ts[j] && frontAccs[j] == accs[j];
  }

  /** A value stored by the earlier tasks survives the last put unless the last task writes the same alias. */
  lemma LastWriterKept<E>(ts: seq<AggregationTask<E>>, accs: seq<Acc>, i: nat, prev: map<string, Value>)
    requires FitsAll(ts, accs) && i < |ts| - 1
    requires FinishAcc(ts[i].kind, accs[i]).Some?
    requires ts[|ts| - 1].alias == ts[i].alias ==> FinishAcc(ts[|ts| - 1].kind, accs[|ts| - 1]).None?
    requires ts[i].alias in prev && prev[ts[i].alias] == FinishAcc(ts[i].kind, accs[i]).value
    ensures var r := PutValue(prev, ts[|ts| - 1].alias, FinishAcc(ts[|ts| - 1].kind, accs[|ts| - 1]));
      ts[i].alias in r && r[ts[i].alias] == FinishAcc(ts[i].kind, accs[i]).value
  {
  }

  /** The finisher's loop, one iteration: the last task's value is put over the earlier tasks' map. */
  lemma FinishAllLast<E>(ts: seq<AggregationTask<E>>, accs: seq<Acc>)
    requires FitsAll(ts, accs) && |ts| > 0
    ensures FitsAll(ts[..|ts| - 1], accs[..|ts| - 1])
    ensures FinishAll(ts, accs) ==
      PutValue(FinishAll(ts[..|ts| - 1], accs[..|ts| - 1]), ts[|ts| - 1].alias, FinishAcc(ts[|ts| - 1].kind, accs[|ts| - 1]))
  {
    var n := |ts| - 1;
    assert forall j :: 0 <= j < n ==> ts[..n][j] == ts[j] && accs[..n][j] == accs[j];
  }

  /** A task whose alias no other task shares stores its own collector's finished value, or nothing. */
  lemma {:induction false} ResultOfTask<E>(ts: seq<AggregationTask<E>>, xs: seq<E>, i: nat)
    requires i < |ts|
    requires forall j :: 0 <= j < |ts| && j != i ==> ts[j].alias != ts[i].alias
    ensures ts[i].alias in Aggregate(ts, xs) <==> FinishAcc(ts[i].kind, SlotFold(ts[i].kind, xs)).Some?
    ensures ts[i].alias in Aggregate(ts, xs) ==>
      Aggregate(ts, xs)[ts[i].alias] == FinishAcc(ts[i].kind, SlotFold(ts[i].kind, xs)).value
  {
    FanOut(ts, xs);
    if FinishAcc(ts[i].kind, SlotFold(ts[i].kind, xs)).Some? {
      LastWriterWins(ts, Fold(ts, xs), i);
    }
  }

  // ---------------------------------------------------------------------
  // What each collector computes.

  /** The exact sum of the extracted values. */
  function RealSum<E>(f: E -> Decimal, xs: seq<E>): real
  {
    if |xs| == 0 then 0.0 else RealSum(f, xs[..|xs| - 1]) + ToReal(f(xs[|xs| - 1]))
  }

  /** The largest scale among the extracted values, 0 for none (the scale of ZERO). */
  function MaxScale<E>(f: E -> Decimal, xs: seq<E>): nat
  {
    if |xs| == 0 then 0 else Max(MaxScale(f, xs[..|xs| - 1]), f(xs[|xs| - 1]).scale)
  }

  /** The extracted values in encounter order. */
  function Values<E>(f: E -> Decimal, xs: seq<E>): (r: seq<Decimal>)
    ensures |r| == |xs|
    ensures forall i :: 0 <= i < |xs| ==> r[i] == f(xs[i])
  {
    if |xs| == 0 then [] else Values(f, xs[..|xs| - 1]) + [f(xs[|xs| - 1])]
  }

  /** counting() over n elements is n. */
  lemma {:induction false} CountIsLength<E>(xs: seq<E>)
    ensures SlotFold(Counting, xs) == CountAcc(|xs|)
  {
    if |xs| > 0 {
      CountIsLength(xs[..|xs| - 1]);
    }
  }

  /** The sum starts at ZERO and adds each value exactly; its scale is the largest scale seen. */
  lemma {:induction false} SumIsExact<E>(f: E -> Decimal, xs: seq<E>)
    ensures ToReal(SlotFold(Reducing(f), xs).total) == RealSum(f, xs)
    ensures SlotFold(Reducing(f), xs).total.scale == MaxScale(f, xs)
  {
    if |xs| > 0 {
      SumIsExact(f, xs[..|xs| - 1]);
    }
  }

  /** v is the first of the extracted values that no other value is below. */
  predicate IsFirstMin<E>(f: E -> Decimal, xs: seq<E>, v: Decimal)
  {
    exists i :: 0 <= i < |xs| && f(xs[i]) == v &&
      (forall j :: 0 <= j < |xs| ==> NumLe(v, f(xs[j]))) &&
      (forall j :: 0 <= j < i ==> !NumLe(f(xs[j]), v))
  }

  /** v is the first of the extracted values that no other value is above. */
  predicate IsFirstMax<E>(f: E -> Decimal, xs: seq<E>, v: Decimal)
  {
    exists i :: 0 <= i < |xs| && f(xs[i]) == v &&
      (forall j :: 0 <= j < |xs| ==> NumLe(f(xs[j]), v)) &&
      (forall j :: 0 <= j < i ==> !NumLe(v, f(xs[j])))
  }

  /** One more element: the earlier first minimum, unless the new value is strictly below it. */
  lemma FirstMinStep<E>(f: E -> Decimal, front: seq<E>, x: E, c: Decimal)
    requires IsFirstMin(f, front, c)
    ensures IsFirstMin(f, front + [x], MinOf(c, f(x)))
  {
    var xs := front + [x];
    var i :| 0 <= i < |front| && f(front[i]) == c &&
      (forall j :: 0 <= j < |front| ==> NumLe(c, f(front[j]))) &&
      (forall j :: 0 <= j < i ==> !NumLe(f(front[j]), c));
    assert forall j :: 0 <= j < |front| ==> xs[j] == front[j];
    if NumLe(c, f(x)) {
      assert f(xs[i]) == MinOf(c, f(x));
    } else {
      assert f(xs[|front|]) == MinOf(c, f(x));
    }
  }

  /** One more element: the earlier first maximum, unless the new value is strictly above it. */
  lemma FirstMaxStep<E>(f: E -> Decimal, front: seq<E>, x: E, c: Decimal)
    requires IsFirstMax(f, front, c)
    ensures IsFirstMax(f, front + [x], MaxOf(c, f(x)))
  {
    var xs := front + [x];
    var i :| 0 <= i < |front| && f(front[i]) == c &&
      (forall j :: 0 <= j < |front| ==> NumLe(f(front[j]), c)) &&
      (forall j :: 0 <= j < i ==> !NumLe(c, f(front[j])));
    assert forall j :: 0 <= j < |front| ==> xs[j] == front[j];
    if NumLe(f(x), c) {
      assert f(xs[i]) == MaxOf(c, f(x));
    } else {
      assert f(xs[|front|]) == MaxOf(c, f(x));
    }
  }

  /** minBy is absent exactly on empty input, and otherwise the first minimal value. */
  lemma {:induction false} MinIsFirstMinimum<E>(f: E -> Decimal, xs: seq<E>)
    ensures SlotFold(MinBy(f), xs).best.None? <==> |xs| == 0
    ensures |xs| > 0 ==> IsFirstMin(f, xs, SlotFold(MinBy(f), xs).best.value)
  {
    if |xs| > 0 {
      var front, x := xs[..|xs| - 1], xs[|xs| - 1];
      MinIsFirstMinimum(f, front);
      assert xs == front + [x];
      if |front| == 0 {
        assert f(xs[0]) == SlotFold(MinBy(f), xs).best.value;
      } else {
        FirstMinStep(f, front, x, SlotFold(MinBy(f), front).best.value);
      }
    }
  }

  /** maxBy is absent exactly on empty input, and otherwise the first maximal value. */
  lemma {:induction false} MaxIsFirstMaximum<E>(f: E -> Decimal, xs: seq<E>)
    ensures SlotFold(MaxBy(f), xs).best.None? <==> |xs| == 0
    ensures |xs| > 0 ==> IsFirstMax(f, xs, SlotFold(MaxBy(f), xs).best.value)
  {
    if |xs| > 0 {
      var front, x := xs[..|xs| - 1], xs[|xs| - 1];
      MaxIsFirstMaximum(f, front);
      assert xs == front + [x];
      if |front| == 0 {
        assert f(xs[0]) == SlotFold(MaxBy(f), xs).best.value;
      } else {
        FirstMaxStep(f, front, x, SlotFold(MaxBy(f), front).best.value);
      }
    }
  }

  /** toSet() holds exactly the extracted values (BigDecimal.equals, so 1.0 and 1.00 both stay). */
  lemma {:induction false} DistinctIsValueSet<E>(f: E -> Decimal, xs: seq<E>)
    ensures forall v :: v in SlotFold(ToSet(f), xs).elements <==> exists i :: 0 <= i < |xs| && f(xs[i]) == v
  {
    if |xs| > 0 {
      var front := xs[..|xs| - 1];
      DistinctIsValueSet(f, front);
      assert forall j :: 0 <= j < |front| ==> xs[j] == front[j];
    }
  }

  /** The median's list holds the extracted values in encounter order. */
  lemma {:induction false} MedianListIsValues<E>(f: E -> Decimal, xs: seq<E>)
    ensures SlotFold(MedianCollector(f), xs).items == Values(f, xs)
  {
    if |xs| > 0 {
      MedianListIsValues(f, xs[..|xs| - 1]);
    }
  }

  // ---------------------------------------------------------------------
  // The collect itself, as stream.collect runs the composite collector.

  /** The composite accumulator: each slot's container updated in place by one element. */
  method Accumulator<E>(ts: seq<AggregationTask<E>>, accs: array<Acc>, x: E)
    requires FitsAll(ts, accs[..])
    modifies accs
    ensures accs[..] == AccumulateAll(ts, old(accs[..]), x)
  {
    for i := 0 to |ts|
      invariant accs.Length == |ts|
      invariant forall j :: 0 <= j < i ==> accs[j] == Step(ts[j].kind, old(accs[j]), x)
      invariant forall j :: i <= j < |ts| ==> accs[j] == old(accs[j])
    {
      accs[i] := Step(ts[i].kind, accs[i], x);
    }
  }

  /** The composite combiner: a new list built slot by slot. */
  method Combiner<E>(ts: seq<AggregationTask<E>>, a: seq<Acc>, b: seq<Acc>) returns (combined: seq<Acc>)
    requires FitsAll(ts, a) && FitsAll(ts, b)
    ensures combined == CombineAll(ts, a, b)
  {
    combined := [];
    for i := 0 to |ts|
      invariant |combined| == i
      invariant forall j :: 0 <= j < i ==> combined[j] == CombineAcc(ts[j].kind, a[j], b[j])
    {
      combined := combined + [CombineAcc(ts[i].kind, a[i], b[i])];
    }
  }

  /** The composite finisher: a new result filled with put, task by task. */
  method Finisher<E>(ts: seq<AggregationTask<E>>, accs: seq<Acc>) returns (result: AggregationResult)
    requires FitsAll(ts, accs)
    ensures fresh(result)
    ensures result.results == FinishAll(ts, accs)
  {
    result := new AggregationResult();
    for i := 0 to |ts|
      invariant fresh(result)
      invariant result.results == FinishAll(ts[..i], accs[..i])
    {
      assert ts[..i + 1][..i] == ts[..i] && accs[..i + 1][..i] == accs[..i];
      result.Put(ts[i].alias, FinishAcc(ts[i].kind, accs[i]));
    }
    assert ts[..|ts|] == ts && accs[..|accs|] == accs;
  }

  /** A sequential collect of one part: a fresh supply, then every element in encounter order. */
  method CollectPart<E>(ts: seq<AggregationTask<E>>, xs: seq<E>) returns (accs: seq<Acc>)
    ensures accs == Fold(ts, xs)
  {
    var supply := Supply(ts);
    var slots := new Acc[|ts|](i requires 0 <= i < |ts| => supply[i]);
    assert slots[..] == Fold(ts, xs[..0]);
    for n := 0 to |xs|
      invariant slots.Length == |ts|
      invariant slots[..] == Fold(ts, xs[..n])
    {
      assert xs[..n + 1][..n] == xs[..n];
      Accumulator(ts, slots, xs[n]);
    }
    assert xs[..|xs|] == xs;
    accs := slots[..];
  }

  /** A collect under a split plan: parts collected separately and combined in encounter order. */
  method CollectSplit<E>(ts: seq<AggregationTask<E>>, xs: seq<E>, plan: SplitPlan) returns (accs: seq<Acc>)
    ensures accs == Fold(ts, xs)
    decreases plan
  {
    match plan {
      case Whole =>
        accs := CollectPart(ts, xs);
      case Fork(at, left, right) =>
        var m := if at <= |xs| then at else |xs|;
        var a := CollectSplit(ts, xs[..m], left);
        var b := CollectSplit(ts, xs[m..], right);
        accs := Combiner(ts, a, b);
        assert xs[..m] + xs[m..] == xs;
        FoldSplit(ts, xs[..m], xs[m..]);
    }
  }

  /** stream.collect(composite collector), sequential or split. */
  method Collect<E>(ts: seq<AggregationTask<E>>, xs: seq<E>, plan: SplitPlan) returns (result: AggregationResult)
    ensures fresh(result)
    ensures result.results == FinishAll(ts, Fold(ts, xs))
  {
    var accs := CollectSplit(ts, xs, plan);
    result := Finisher(ts, accs);
  }
}
