/**
 * Whole-library scenarios: the ones the repository's tests exercise
 * (AggregatorTest.java), and the aliasing and copying of task lists
 * between builders.
 */
module Scenarios {
  import opened Decimals
  import opened Wrappers
  import opened Results
  import opened Fusion
  import Median
  import opened Aggregation

  /** The tests' TestEmployee: an int age and a BigDecimal salary. */
  datatype Employee = Employee(age: int, salary: Decimal)

  /** getAge read as a decimal: new BigDecimal(Integer.toString(age)) has scale 0. */
  function Age(e: Employee): Decimal { Decimal(e.age, 0) }

  function Salary(e: Employee): Decimal { e.salary }

  /** Five employees, ages 20, 20, 30, 40, 50 and salaries 100.00 .. 500.00. */
  function Employees(): seq<Employee>
  {
    [Employee(20, Decimal(10000, 2)), Employee(20, Decimal(20000, 2)), Employee(30, Decimal(30000, 2)),
     Employee(40, Decimal(40000, 2)), Employee(50, Decimal(50000, 2))]
  }

  /** The tasks of testAllAggregationsSequentially, without the floating-point average. */
  function TestTasks(): seq<AggregationTask<Employee>>
  {
    [AggregationTask("count", Counting),
     AggregationTask("distinctAges", ToSet(Age)),
     AggregationTask("sum", Reducing(Salary)),
     AggregationTask("sumAge", Reducing(Age)),
     AggregationTask("minSalary", MinBy(Salary)),
     AggregationTask("maxAge", MaxBy(Age)),
     AggregationTask("minAge", MinBy(Age)),
     AggregationTask("medianSalary", MedianCollector(Salary))]
  }

  lemma SlotFoldSnoc<E>(k: Kind<E>, xs: seq<E>, x: E)
    ensures SlotFold(k, xs + [x]) == Step(k, SlotFold(k, xs), x)
  {
    assert (xs + [x])[..|xs|] == xs;
  }

  /** A collector run over five elements is five steps from its supply. */
  lemma SlotFoldOfFive<E>(k: Kind<E>, a: E, b: E, c: E, d: E, e: E)
    ensures SlotFold(k, [a, b, c, d, e]) ==
      Step(k, Step(k, Step(k, Step(k, Step(k, Init(k), a), b), c), d), e)
  {
    SlotFoldSnoc(k, [], a);
    assert [] + [a] == [a];
    SlotFoldSnoc(k, [a], b);
    assert [a] + [b] == [a, b];
    SlotFoldSnoc(k, [a, b], c);
    assert [a, b] + [c] == [a, b, c];
    SlotFoldSnoc(k, [a, b, c], d);
    assert [a, b, c] + [d] == [a, b, c, d];
    SlotFoldSnoc(k, [a, b, c, d], e);
    assert [a, b, c, d] + [e] == [a, b, c, d, e];
  }

  lemma CountSlot()
    ensures SlotFold(Counting, Employees()) == CountAcc(5)
  {
    CountIsLength(Employees());
  }

  lemma DistinctAgesSlot()
    ensures SlotFold(ToSet(Age), Employees()) ==
      SetAcc({Decimal(20, 0), Decimal(30, 0), Decimal(40, 0), Decimal(50, 0)})
  {
    var es := Employees();
    SlotFoldOfFive(ToSet(Age), es[0], es[1], es[2], es[3], es[4]);
  }

  lemma SumSlot()
    ensures SlotFold(Reducing(Salary), Employees()) == SumAcc(Decimal(150000, 2))
  {
    var es := Employees();
    SlotFoldOfFive(Reducing(Salary), es[0], es[1], es[2], es[3], es[4]);
    SumOfFiveAtOneScale(es[0].salary, es[1].salary, es[2].salary, es[3].salary, es[4].salary);
  }

  /** Five decimals of one scale summed from zero: the unscaled values added at that scale. */
  lemma SumOfFiveAtOneScale(a: Decimal, b: Decimal, c: Decimal, d: Decimal, e: Decimal)
    requires a.scale == b.scale == c.scale == d.scale == e.scale
    ensures Add(Add(Add(Add(Add(Zero, a), b), c), d), e) ==
      Decimal(a.unscaled + b.unscaled + c.unscaled + d.unscaled + e.unscaled, a.scale)
  {
    AddZero(a);
    AddSameScale(a, b);
    AddSameScale(Decimal(a.unscaled + b.unscaled, a.scale), c);
    AddSameScale(Decimal(a.unscaled + b.unscaled + c.unscaled, a.scale), d);
    AddSameScale(Decimal(a.unscaled + b.unscaled + c.unscaled + d.unscaled, a.scale), e);
  }

  lemma SumAgeSlot()
    ensures SlotFold(Reducing(Age), Employees()) == SumAcc(Decimal(160, 0))
  {
    var es := Employees();
    SlotFoldOfFive(Reducing(Age), es[0], es[1], es[2], es[3], es[4]);
    SumOfFiveAtOneScale(Age(es[0]), Age(es[1]), Age(es[2]), Age(es[3]), Age(es[4]));
  }

  lemma MinSalarySlot()
    ensures SlotFold(MinBy(Salary), Employees()) == BestAcc(Some(Decimal(10000, 2)))
  {
    var es := Employees();
    SlotFoldOfFive(MinBy(Salary), es[0], es[1], es[2], es[3], es[4]);
    assert Pow10(2) == 100;
  }

  lemma MaxAgeSlot()
    ensures SlotFold(MaxBy(Age), Employees()) == BestAcc(Some(Decimal(50, 0)))
  {
    var es := Employees();
    SlotFoldOfFive(MaxBy(Age), es[0], es[1], es[2], es[3], es[4]);
  }

  lemma MinAgeSlot()
    ensures SlotFold(MinBy(Age), Employees()) == BestAcc(Some(Decimal(20, 0)))
  {
    var es := Employees();
    SlotFoldOfFive(MinBy(Age), es[0], es[1], es[2], es[3], es[4]);
  }

  lemma MedianSalarySlot(items: seq<Decimal>)
    requires items == [Decimal(10000, 2), Decimal(20000, 2), Decimal(30000, 2), Decimal(40000, 2), Decimal(50000, 2)]
    ensures SlotFold(MedianCollector(Salary), Employees()) == ListAcc(items)
  {
    var es := Employees();
    SlotFoldOfFive(MedianCollector(Salary), es[0], es[1], es[2], es[3], es[4]);
  }

  /** The median of the five salaries, accumulated in order, is 300.00. */
  lemma TestMedian(items: seq<Decimal>)
    requires items == [Decimal(10000, 2), Decimal(20000, 2), Decimal(30000, 2), Decimal(40000, 2), Decimal(50000, 2)]
    ensures Median.MedianOf(items) == Some(Decimal(30000, 2))
  {
    Median.MedianOfFive(items[0], items[1], items[2], items[3], items[4], items);
  }

  /** A task with a unique alias whose collector finishes to v stores v under that alias. */
  lemma StoredValue<E>(ts: seq<AggregationTask<E>>, xs: seq<E>, i: nat, v: Value)
    requires i < |ts|
    requires forall j :: 0 <= j < |ts| && j != i ==> ts[j].alias != ts[i].alias
    requires FinishAcc(ts[i].kind, SlotFold(ts[i].kind, xs)) == Some(v)
    ensures ts[i].alias in Fusion.Aggregate(ts, xs) && Fusion.Aggregate(ts, xs)[ts[i].alias] == v
  {
    ResultOfTask(ts, xs, i);
  }

  /** A median task with a unique alias stores the median of its buffer. */
  lemma MedianStored<E>(ts: seq<AggregationTask<E>>, xs: seq<E>, i: nat, m: Decimal)
    requires i < |ts| && ts[i].kind.MedianCollector?
    requires forall j :: 0 <= j < |ts| && j != i ==> ts[j].alias != ts[i].alias
    requires Median.MedianOf(SlotFold(ts[i].kind, xs).items) == Some(m)
    ensures ts[i].alias in Fusion.Aggregate(ts, xs) && Fusion.Aggregate(ts, xs)[ts[i].alias] == DecimalValue(m)
  {
    StoredValue(ts, xs, i, DecimalValue(m));
  }

  /** testAllAggregationsSequentially: the value under "count". */
  lemma TestResultCount(ts: seq<AggregationTask<Employee>>, es: seq<Employee>)
    requires ts == TestTasks() && es == Employees()
    ensures "count" in Fusion.Aggregate(ts, es) && Fusion.Aggregate(ts, es)["count"] == CountValue(5)
  {
    assert ts[0] == AggregationTask("count", Counting);
    DistinctAliases(0);
    CountSlot();
    StoredValue(ts, es, 0, CountValue(5));
  }

  /** testAllAggregationsSequentially: the value under "distinctAges". */
  lemma TestResultDistinctAges(ts: seq<AggregationTask<Employee>>, es: seq<Employee>)
    requires ts == TestTasks() && es == Employees()
    ensures "distinctAges" in Fusion.Aggregate(ts, es) && Fusion.Aggregate(ts, es)["distinctAges"] == SetValue({Decimal(20, 0), Decimal(30, 0), Decimal(40, 0), Decimal(50, 0)})
  {
    assert ts[1] == AggregationTask("distinctAges", ToSet(Age));
    DistinctAliases(1);
    DistinctAgesSlot();
    StoredValue(ts, es, 1, SetValue({Decimal(20, 0), Decimal(30, 0), Decimal(40, 0), Decimal(50, 0)}));
  }

  /** testAllAggregationsSequentially: the value under "sum". */
  lemma TestResultSum(ts: seq<AggregationTask<Employee>>, es: seq<Employee>)
    requires ts == TestTasks() && es == Employees()
    ensures "sum" in Fusion.Aggregate(ts, es) && Fusion.Aggregate(ts, es)["sum"] == DecimalValue(Decimal(150000, 2))
  {
    assert ts[2] == AggregationTask("sum", Reducing(Salary));
    DistinctAliases(2);
    SumSlot();
    StoredValue(ts, es, 2, DecimalValue(Decimal(150000, 2)));
  }

  /** testAllAggregationsSequentially: the value under "sumAge". */
  lemma TestResultSumAge(ts: seq<AggregationTask<Employee>>, es: seq<Employee>)
    requires ts == TestTasks() && es == Employees()
    ensures "sumAge" in Fusion.Aggregate(ts, es) && Fusion.Aggregate(ts, es)["sumAge"] == DecimalValue(Decimal(160, 0))
  {
    assert ts[3] == AggregationTask("sumAge", Reducing(Age));
    DistinctAliases(3);
    SumAgeSlot();
    StoredValue(ts, es, 3, DecimalValue(Decimal(160, 0)));
  }

  /** testAllAggregationsSequentially: the value under "minSalary". */
  lemma TestResultMinSalary(ts: seq<AggregationTask<Employee>>, es: seq<Employee>)
    requires ts == TestTasks() && es == Employees()
    ensures "minSalary" in Fusion.Aggregate(ts, es) && Fusion.Aggregate(ts, es)["minSalary"] == DecimalValue(Decimal(10000, 2))
  {
    assert ts[4] == AggregationTask("minSalary", MinBy(Salary));
    DistinctAliases(4);
    MinSalarySlot();
    StoredValue(ts, es, 4, DecimalValue(Decimal(10000, 2)));
  }

  /** testAllAggregationsSequentially: the value under "maxAge". */
  lemma TestResultMaxAge(ts: seq<AggregationTask<Employee>>, es: seq<Employee>)
    requires ts == TestTasks() && es == Employees()
    ensures "maxAge" in Fusion.Aggregate(ts, es) && Fusion.Aggregate(ts, es)["maxAge"] == DecimalValue(Decimal(50, 0))
  {
    assert ts[5] == AggregationTask("maxAge", MaxBy(Age));
    DistinctAliases(5);
    MaxAgeSlot();
    StoredValue(ts, es, 5, DecimalValue(Decimal(50, 0)));
  }

  /** testAllAggregationsSequentially: the value under "minAge". */
  lemma TestResultMinAge(ts: seq<AggregationTask<Employee>>, es: seq<Employee>)
    requires ts == TestTasks() && es == Employees()
    ensures "minAge" in Fusion.Aggregate(ts, es) && Fusion.Aggregate(ts, es)["minAge"] == DecimalValue(Decimal(20, 0))
  {
    assert ts[6] == AggregationTask("minAge", MinBy(Age));
    DistinctAliases(6);
    MinAgeSlot();
    StoredValue(ts, es, 6, DecimalValue(Decimal(20, 0)));
  }

  /** testAllAggregationsSequentially: the value under "medianSalary". */
  lemma TestResultMedianSalary(ts: seq<AggregationTask<Employee>>, es: seq<Employee>)
    requires ts == TestTasks() && es == Employees()
    ensures "medianSalary" in Fusion.Aggregate(ts, es) && Fusion.Aggregate(ts, es)["medianSalary"] == DecimalValue(Decimal(30000, 2))
  {
    assert ts[7] == AggregationTask("medianSalary", MedianCollector(Salary));
    DistinctAliases(7);
    var items := [Decimal(10000, 2), Decimal(20000, 2), Decimal(30000, 2), Decimal(40000, 2), Decimal(50000, 2)];
    MedianSalarySlot(items);
    TestMedian(items);
    MedianStored(ts, es, 7, Decimal(30000, 2));
  }

  lemma DistinctAliases(i: nat)
    requires i < |TestTasks()|
    ensures forall j :: 0 <= j < |TestTasks()| && j != i ==> TestTasks()[j].alias != TestTasks()[i].alias
  {
  }

  /** An in-range integral sum read as Integer: 160 stays 160. */
  lemma SumOfAgesAsInteger()
    ensures Narrow(TruncateToInteger(Decimal(160, 0)), IntegerType) == 160
  {
    assert TruncateToInteger(Decimal(160, 0)) == 160;
    assert Pow2(8) == 256;
    Pow2Monotone(8, 31);
  }

  /** The test's builder chain, on a given builder (sequential or parallel). */
  method DeclareTestTasks(a: Aggregator<Employee>)
    modifies a.tasks
    ensures a.tasks.items == old(a.tasks.items) + TestTasks()
  {
    var _ := a.Count("count");
    var _ := a.Distinct("distinctAges", Age);
    var _ := a.Sum("sum", Salary);
    var _ := a.Sum("sumAge", Age);
    var _ := a.Min("minSalary", Salary);
    var _ := a.Max("maxAge", Age);
    var _ := a.Min("minAge", Age);
    var _ := a.Median("medianSalary", Salary);
  }

  /** Reads the test's keys back through the typed getters. */
  method ReadTestResult(res: AggregationResult, ts: seq<AggregationTask<Employee>>, es: seq<Employee>)
      returns (count: Result<Option<nat>>, distinctAges: Result<Option<set<Decimal>>>, sum: Result<Decimal>,
               sumAge: Result<Decimal>, sumAgeAsInteger: Result<Number>, minSalary: Option<Value>,
               maxAge: Option<Value>, minAge: Option<Value>, medianSalary: Option<Value>)
    requires ts == TestTasks() && es == Employees()
    requires res.results == Fusion.Aggregate(ts, es)
    ensures count == Ok(Some(5))
    ensures distinctAges == Ok(Some({Decimal(20, 0), Decimal(30, 0), Decimal(40, 0), Decimal(50, 0)}))
    ensures sum == Ok(Decimal(150000, 2))
    ensures sumAge == Ok(Decimal(160, 0))
    ensures sumAgeAsInteger == Ok(FixedWidth(IntegerType, 160))
    ensures minSalary == Some(DecimalValue(Decimal(10000, 2)))
    ensures maxAge == Some(DecimalValue(Decimal(50, 0)))
    ensures minAge == Some(DecimalValue(Decimal(20, 0)))
    ensures medianSalary == Some(DecimalValue(Decimal(30000, 2)))
  {
    TestResultCount(ts, es);
    TestResultDistinctAges(ts, es);
    TestResultSum(ts, es);
    TestResultSumAge(ts, es);
    TestResultMinSalary(ts, es);
    TestResultMaxAge(ts, es);
    TestResultMinAge(ts, es);
    TestResultMedianSalary(ts, es);
    SumOfAgesAsInteger();
    count := res.GetCount("count");
    distinctAges := res.GetDistinct("distinctAges");
    sum := res.GetSum("sum");
    sumAge := res.GetSum("sumAge");
    sumAgeAsInteger := res.GetSumAs("sumAge", IntegerType);
    minSalary := res.GetMin("minSalary");
    maxAge := res.GetMax("maxAge");
    minAge := res.GetMax("minAge");
    medianSalary := res.GetMedian("medianSalary");
  }

  /** testAllAggregationsSequentially, without the average. */
  method TestAllAggregationsSequentially()
      returns (count: Result<Option<nat>>, distinctAges: Result<Option<set<Decimal>>>, sum: Result<Decimal>,
               sumAge: Result<Decimal>, sumAgeAsInteger: Result<Number>, minSalary: Option<Value>,
               maxAge: Option<Value>, minAge: Option<Value>, medianSalary: Option<Value>)
    ensures count == Ok(Some(5))
    ensures distinctAges == Ok(Some({Decimal(20, 0), Decimal(30, 0), Decimal(40, 0), Decimal(50, 0)}))
    ensures sum == Ok(Decimal(150000, 2)) && sumAge == Ok(Decimal(160, 0))
    ensures sumAgeAsInteger == Ok(FixedWidth(IntegerType, 160))
    ensures minSalary == Some(DecimalValue(Decimal(10000, 2)))
    ensures maxAge == Some(DecimalValue(Decimal(50, 0))) && minAge == Some(DecimalValue(Decimal(20, 0)))
    ensures medianSalary == Some(DecimalValue(Decimal(30000, 2)))
  {
    var es := Employees();
    var a := Aggregator.Of(es);
    DeclareTestTasks(a);
    var res := a.Aggregate(Whole);
    count, distinctAges, sum, sumAge, sumAgeAsInteger, minSalary, maxAge, minAge, medianSalary :=
      ReadTestResult(res, a.tasks.items, es);
  }

  /**
   * testAllAggregationsParallel, with the sequential test's tasks: the
   * tasks are declared through the parallel builder, the original builder
   * sees them too, and a stream split in three parts gives the same values.
   */
  method TestAllAggregationsParallel()
      returns (seenByOriginal: seq<AggregationTask<Employee>>, count: Result<Option<nat>>,
               distinctAges: Result<Option<set<Decimal>>>, sum: Result<Decimal>,
               minSalary: Option<Value>, maxAge: Option<Value>, medianSalary: Option<Value>)
    ensures seenByOriginal == TestTasks()
    ensures count == Ok(Some(5)) && sum == Ok(Decimal(150000, 2))
    ensures distinctAges == Ok(Some({Decimal(20, 0), Decimal(30, 0), Decimal(40, 0), Decimal(50, 0)}))
    ensures minSalary == Some(DecimalValue(Decimal(10000, 2))) && maxAge == Some(DecimalValue(Decimal(50, 0)))
    ensures medianSalary == Some(DecimalValue(Decimal(30000, 2)))
  {
    var es := Employees();
    var a := Aggregator.Of(es);
    var p := a.Parallel();
    DeclareTestTasks(p);
    seenByOriginal := a.tasks.items;
    var res := p.Aggregate(Fork(2, Whole, Fork(1, Whole, Whole)));
    var sumAge, sumAgeAsInteger, minAge;
    count, distinctAges, sum, sumAge, sumAgeAsInteger, minSalary, maxAge, minAge, medianSalary :=
      ReadTestResult(res, p.tasks.items, es);
  }

  /** The tasks of testEmptyCollection. */
  function EmptyTestTasks(): seq<AggregationTask<Employee>>
  {
    [AggregationTask("count", Counting),
     AggregationTask("sum", Reducing(Salary)),
     AggregationTask("distinct", ToSet(Age)),
     AggregationTask("min", MinBy(Age)),
     AggregationTask("max", MaxBy(Age)),
     AggregationTask("median", MedianCollector(Salary))]
  }

  lemma EmptyAliases(i: nat)
    requires i < |EmptyTestTasks()|
    ensures forall j :: 0 <= j < |EmptyTestTasks()| && j != i ==> EmptyTestTasks()[j].alias != EmptyTestTasks()[i].alias
  {
  }

  /** Over no elements, each task's entry is its collector's finished initial container. */
  lemma EmptyResultAt(ts: seq<AggregationTask<Employee>>, es: seq<Employee>, i: nat)
    requires ts == EmptyTestTasks() && es == [] && i < |ts|
    ensures ts[i].alias in Fusion.Aggregate(ts, es) <==> FinishAcc(ts[i].kind, Init(ts[i].kind)).Some?
    ensures ts[i].alias in Fusion.Aggregate(ts, es) ==>
      Fusion.Aggregate(ts, es)[ts[i].alias] == FinishAcc(ts[i].kind, Init(ts[i].kind)).value
  {
    EmptyAliases(i);
    ResultOfTask(ts, es, i);
  }

  /** Over no elements: count 0, sum ZERO and an empty distinct set are stored. */
  lemma EmptyResultStored(ts: seq<AggregationTask<Employee>>, es: seq<Employee>)
    requires ts == EmptyTestTasks() && es == []
    ensures "count" in Fusion.Aggregate(ts, es) && Fusion.Aggregate(ts, es)["count"] == CountValue(0)
    ensures "sum" in Fusion.Aggregate(ts, es) && Fusion.Aggregate(ts, es)["sum"] == DecimalValue(Zero)
    ensures "distinct" in Fusion.Aggregate(ts, es) && Fusion.Aggregate(ts, es)["distinct"] == SetValue({})
  {
    EmptyResultAt(ts, es, 0);
    EmptyResultAt(ts, es, 1);
    EmptyResultAt(ts, es, 2);
  }

  /** Over no elements: min, max and median are not stored, nor is a key no task declares. */
  lemma EmptyResultAbsent(ts: seq<AggregationTask<Employee>>, es: seq<Employee>)
    requires ts == EmptyTestTasks() && es == []
    ensures "min" !in Fusion.Aggregate(ts, es) && "max" !in Fusion.Aggregate(ts, es)
    ensures "median" !in Fusion.Aggregate(ts, es) && "sumAge" !in Fusion.Aggregate(ts, es)
  {
    EmptyResultAt(ts, es, 3);
    EmptyResultAt(ts, es, 4);
    EmptyResultAt(ts, es, 5);
  }

  /** testEmptyCollection: count 0, sums zero, an empty distinct set, and no min, max or median. */
  method TestEmptyCollection()
      returns (count: Result<Option<nat>>, sumAgeAsInteger: Result<Number>, sum: Result<Decimal>,
               distinct: Result<Option<set<Decimal>>>, min: Option<Value>, max: Option<Value>, median: Option<Value>)
    ensures count == Ok(Some(0))
    ensures sumAgeAsInteger == Ok(FixedWidth(IntegerType, 0))
    ensures sum == Ok(Zero)
    ensures distinct == Ok(Some({}))
    ensures min.None? && max.None? && median.None?
  {
    var a := Aggregator.Of([]);
    var _ := a.Count("count");
    var _ := a.Sum("sum", Salary);
    var _ := a.Distinct("distinct", Age);
    var _ := a.Min("min", Age);
    var _ := a.Max("max", Age);
    var _ := a.Median("median", Salary);
    var res := a.Aggregate(Whole);
    EmptyResultStored(a.tasks.items, []);
    EmptyResultAbsent(a.tasks.items, []);
    assert TruncateToInteger(Zero) == 0;
    count := res.GetCount("count");
    sumAgeAsInteger := res.GetSumAs("sumAge", IntegerType);
    sum := res.GetSum("sum");
    distinct := res.GetDistinct("distinct");
    min := res.GetMin("min");
    max := res.GetMax("max");
    median := res.GetMedian("median");
  }

  /** parallel() shares the task list: tasks added through either builder are seen by both. */
  method ParallelSharesTaskList<E>(xs: seq<E>, f: E -> Decimal)
      returns (viaOriginal: seq<AggregationTask<E>>, viaParallel: seq<AggregationTask<E>>, originalParallel: bool, copyParallel: bool)
    ensures viaOriginal == viaParallel == [AggregationTask("count", Counting), AggregationTask("sum", Reducing(f))]
    ensures !originalParallel && copyParallel
  {
    var a := Aggregator.Of(xs);
    var p := a.Parallel();
    var _ := p.Count("count");
    var _ := a.Sum("sum", f);
    viaOriginal, viaParallel := a.tasks.items, p.tasks.items;
    originalParallel, copyParallel := a.parallel, p.parallel;
  }

  /** The grouping constructor copies: a task added to the argument list later is not seen. */
  method GroupingCopiesTasks<E, K(==, !new)>(xs: seq<E>, classifier: E -> K)
      returns (own: seq<AggregationTask<E>>, argument: seq<AggregationTask<E>>)
    ensures own == [AggregationTask("count", Counting)]
    ensures argument == [AggregationTask("count", Counting), AggregationTask("late", Counting)]
  {
    var given := new TaskList();
    given.Add(AggregationTask("count", Counting));
    var g := new GroupingAggregator(xs, classifier, false, given);
    given.Add(AggregationTask("late", Counting));
    own, argument := g.tasks.items, given.items;
  }

  /** Aggregator.newInstance as written: the task list it is handed is not used. */
  method NewInstanceDropsTasks<E>(xs: seq<E>) returns (used: seq<AggregationTask<E>>, handed: seq<AggregationTask<E>>)
    ensures handed == [AggregationTask("count", Counting)]
    ensures used == []
  {
    var a := Aggregator.Of(xs);
    var given := new TaskList();
    given.Add(AggregationTask("count", Counting));
    var b := a.NewInstance(xs, true, given);
    used, handed := b.tasks.items, given.items;
  }

  /** newInstance as the grouping twin does it: the handed task list is the one used. */
  method NewInstanceWithTasksKeepsTasks<E>(xs: seq<E>) returns (used: seq<AggregationTask<E>>, handed: seq<AggregationTask<E>>)
    ensures handed == [AggregationTask("count", Counting)]
    ensures used == handed
  {
    var a := Aggregator.Of(xs);
    var given := new TaskList();
    given.Add(AggregationTask("count", Counting));
    var b := a.NewInstanceWithTasks(xs, true, given);
    used, handed := b.tasks.items, given.items;
  }

  /**
   * groupBy(...).count("count").aggregate(): one group per distinct
   * composite key, each group's count is its size, and the counts add up
   * to the collection size.
   */
  method GroupByAndCount<E(!new), V(==, !new)>(xs: seq<E>, classifiers: seq<E -> V>, plan: SplitPlan)
      returns (key: E -> seq<V>, groups: map<seq<V>, map<string, Value>>)
    ensures forall e :: key(e) == CompositeKey(classifiers, e)
    ensures groups.Keys == Grouping.KeysOf(key, xs)
    ensures forall k :: k in groups ==> "count" in groups[k] && groups[k]["count"] == CountValue(|Grouping.Filter(key, xs, k)|)
    ensures Grouping.GroupSizes(key, xs, groups.Keys) == |xs|
  {
    var g := Aggregator.GroupBy(xs, classifiers);
    key := g.classifier;
    var _ := g.Count("count");
    groups := g.Aggregate(plan);
    CountedGroups(g.tasks.items, key, xs, groups);
  }

  lemma CountedGroups<E, K(!new)>(ts: seq<AggregationTask<E>>, key: E -> K, xs: seq<E>, groups: map<K, map<string, Value>>)
    requires ts == [AggregationTask("count", Counting)]
    requires groups.Keys == Grouping.KeysOf(key, xs)
    requires forall k :: k in groups ==> groups[k] == Fusion.Aggregate(ts, Grouping.Filter(key, xs, k))
    ensures forall k :: k in groups ==> "count" in groups[k] && groups[k]["count"] == CountValue(|Grouping.Filter(key, xs, k)|)
    ensures Grouping.GroupSizes(key, xs, groups.Keys) == |xs|
  {
    forall k | k in groups
      ensures "count" in groups[k] && groups[k]["count"] == CountValue(|Grouping.Filter(key, xs, k)|)
    {
      CountOfOneGroup(ts, Grouping.Filter(key, xs, k));
    }
    Grouping.GroupSizesCoverAll(key, xs);
  }

  lemma CountOfOneGroup<E>(ts: seq<AggregationTask<E>>, xs: seq<E>)
    requires ts == [AggregationTask("count", Counting)]
    ensures "count" in Fusion.Aggregate(ts, xs) && Fusion.Aggregate(ts, xs)["count"] == CountValue(|xs|)
  {
    ResultOfTask(ts, xs, 0);
    CountIsLength(xs);
  }
}
