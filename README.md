# advantum-commons-aggregator, modelled in Dafny

The library lets a caller declare several named reductions over one
collection through a fluent builder: `count`, `sum`, `min`, `max`,
`distinct` and `median`, each under an alias. It then runs all of them in a
single fused pass. The pass uses one composite collector. Its accumulator is
a list with one slot per task. Every element is fed to every slot, and two
partial lists are combined slot by slot. Each slot is then finished into an
alias-keyed `AggregationResult`, and an absent (empty `Optional` or null)
value leaves its key unset. A grouping variant partitions the collection by
a composite key (the list of the classifiers' outputs) and runs the same
fused pass per group.

The modules follow the program's structure:

| file | module | models |
|---|---|---|
| wrappers.dfy | Wrappers | `Option`, standing for Java's null and `Optional` |
| decimal.dfy | Decimals | the part of `BigDecimal` the library uses: an exact value `(unscaled, scale)`, `add`, `compareTo`, `divide(2, 10, HALF_UP)`, `toBigInteger`, and two's-complement narrowing |
| median.dfy | Median | `MedianCollector`: the list buffer, the in-place sort, and the middle-element arithmetic |
| result.dfy | Results | `AggregationResult`: the string-keyed map and its typed getters |
| fusion.dfy | Fusion | the composite collector of `Aggregator.aggregate` and `AbstractAggregator.buildCompositeCollector`: supplier, accumulator, combiner and finisher |
| grouping.dfy | Grouping | `groupingBy(classifier, composite)`: partition, then fold |
| aggregator.dfy | Aggregation | the builders `Aggregator` and `GroupingAggregator` as classes, with a shared or a copied task list |
| scenarios.dfy | Scenarios | the unit tests' scenarios, proved, plus the task-list aliasing facts |

The task list is a heap object (`Aggregation.TaskList`) that builders point
to, so two facts can be stated and proved:

- `parallel()` on an `Aggregator` shares one list between the two builders.
- The `GroupingAggregator` constructor copies the list.

Each collector is one constructor of the closed datatype `Fusion.Kind`. Its
per-kind accumulator is `Fusion.Acc`. This replaces the unchecked casts and
the `instanceof Optional` test of the Java code. A parallel stream's
splitting is a parameter, `Fusion.SplitPlan`: a tree of split points chosen
by the scheduler. The model proves that every plan gives the sequential
result.

The two copies of the fusion engine are one model. These are
`Aggregator.aggregate` (Aggregator.java:145-204) and
`AbstractAggregator.buildCompositeCollector` (AbstractAggregator.java:66-107);
their supplier, accumulator, combiner and finisher are line-for-line the
same. They differ only when there are no tasks:

- `aggregate` returns a new empty result without touching the stream.
- `buildCompositeCollector` counts the elements and then discards the count.

Both give an empty result, which the model states as
`Fusion.Aggregate([], xs) == map[]`.

## Model

Source paths are relative to the repository root.

| member | source | states |
|---|---|---|
| Decimals.Add | src/main/java/ru/advantum/commons/aggregator/Aggregator.java:73 | `BigDecimal::add` is exact: the real value of the sum is the sum of the real values, and its scale is the larger of the two scales |
| Decimals.AddCommutes | src/main/java/ru/advantum/commons/aggregator/Aggregator.java:73 | decimal addition commutes, value and scale alike |
| Decimals.AddAssociates | src/main/java/ru/advantum/commons/aggregator/Aggregator.java:73 | decimal addition is associative, value and scale alike, so the reducing collector can be split anywhere |
| Decimals.SameValueSameScale | src/main/java/ru/advantum/commons/aggregator/Aggregator.java:73 | two decimals with the same value and the same scale are the same representation |
| Decimals.AddSameScale | src/main/java/ru/advantum/commons/aggregator/Aggregator.java:73 | at a shared scale, add adds the unscaled values and keeps the scale |
| Decimals.AddZero | src/main/java/ru/advantum/commons/aggregator/Aggregator.java:73 | `BigDecimal.ZERO` (scale 0) is a two-sided identity of addition, scale included |
| Decimals.SortLeAntisymmetric | src/main/java/ru/advantum/commons/aggregator/collectors/MedianCollector.java:47 | the order the median sort uses (value, then scale) is antisymmetric on representations |
| Decimals.SameScaleOrder | src/main/java/ru/advantum/commons/aggregator/collectors/MedianCollector.java:47 | at a shared scale both compareTo and the sort order compare the unscaled values |
| Decimals.SortLeTotal | src/main/java/ru/advantum/commons/aggregator/collectors/MedianCollector.java:47 | that order is total |
| Decimals.SortLeTransitive | src/main/java/ru/advantum/commons/aggregator/collectors/MedianCollector.java:47 | that order is transitive |
| Decimals.RoundHalfUp | src/main/java/ru/advantum/commons/aggregator/collectors/MedianCollector.java:55 | integer division rounded half away from zero: the remainder is at most half the divisor, and exact halves round away from zero on both signs |
| Decimals.Halve | src/main/java/ru/advantum/commons/aggregator/collectors/MedianCollector.java:55 | `divide(2, 10, HALF_UP)`: the result has scale 10 and is within half a unit of the last place of the exact half, with ties rounded away from zero |
| Decimals.TruncateToInteger | src/main/java/ru/advantum/commons/aggregator/AggregationResult.java:73 | `toBigInteger`: rounds toward zero, so the result times 10^scale lies within one unit of the unscaled value, on the zero side |
| Decimals.Wrap | src/main/java/ru/advantum/commons/aggregator/AggregationResult.java:58-69 | two's-complement narrowing to `bits`: the result is in the signed range, a value already in range is unchanged, and the result differs from the input by a multiple of 2^bits (written `2 * Pow2(bits - 1)`), so only the low bits are kept |
| Median.Insert | src/main/java/ru/advantum/commons/aggregator/collectors/MedianCollector.java:47 | inserting into a sorted list keeps it sorted and adds exactly one copy of the element |
| Median.Sort | src/main/java/ru/advantum/commons/aggregator/collectors/MedianCollector.java:47 | the reference sort returns a sorted permutation of its input |
| Median.SortedUnique | src/main/java/ru/advantum/commons/aggregator/collectors/MedianCollector.java:47 | two sorted lists with the same elements are equal, so any correct sort gives the same list |
| Median.MiddleOf | src/main/java/ru/advantum/commons/aggregator/collectors/MedianCollector.java:48-59 | the middle-element arithmetic on a list: null exactly for an empty list; for odd n an element of the list; for even n a decimal of scale 10 |
| Median.MedianOf | src/main/java/ru/advantum/commons/aggregator/collectors/MedianCollector.java:42-61 | the median is null exactly for an empty list. For odd n it is the sorted element at n/2, an element of the input with its own scale. For even n it is the HALF_UP half, at scale 10, of the sum of the sorted elements at n/2-1 and n/2 |
| Median.MedianPermutationInvariant | src/main/java/ru/advantum/commons/aggregator/collectors/MedianCollector.java:42-61 | the model's median depends only on the multiset of values, not on the order they were accumulated or combined in. In Java the value is order-independent too; the even median's scale is always 10, and so is order-independent as well. The odd median's scale can depend on encounter order, but only when the middle value occurs several times at different scales (see Median.SortInPlace under Left out). The composite `Collector.of` at Aggregator.java:195 declares no characteristics, so a parallel stream still combines its parts in encounter order |
| Median.MedianWithinRange | src/main/java/ru/advantum/commons/aggregator/collectors/MedianCollector.java:56-59 | for odd n the median is an element of the input, and in sort order it lies between the smallest and the largest element |
| Median.Swap | src/main/java/ru/advantum/commons/aggregator/collectors/MedianCollector.java:47 | swapping two cells exchanges exactly them and keeps the multiset |
| Median.SortInPlace | src/main/java/ru/advantum/commons/aggregator/collectors/MedianCollector.java:47 | `Collections.sort` on the buffer: afterwards the array is sorted, is a permutation of what it held, and equals the reference sort of the old contents |
| Median.SiftDown | src/main/java/ru/advantum/commons/aggregator/collectors/MedianCollector.java:47 | one insertion step: a sorted prefix grows by one cell, and the multiset is kept |
| Median.SiftStep | src/main/java/ru/advantum/commons/aggregator/collectors/MedianCollector.java:47 | swapping an out-of-order adjacent pair moves the gap in the ordering one place left |
| Median.SiftDone | src/main/java/ru/advantum/commons/aggregator/collectors/MedianCollector.java:47 | once the moving element is at the front or above its left neighbour, the prefix is sorted |
| Median.MedianBuffer.constructor | src/main/java/ru/advantum/commons/aggregator/collectors/MedianCollector.java:24-26 | the supplier starts an empty list |
| Median.MedianBuffer.Append | src/main/java/ru/advantum/commons/aggregator/collectors/MedianCollector.java:29-31 | the accumulator appends one value at the end |
| Median.MedianBuffer.AppendAll | src/main/java/ru/advantum/commons/aggregator/collectors/MedianCollector.java:34-39 | the combiner appends the second list after the first in place and returns the first list itself; the lengths add |
| Median.MedianBuffer.Finish | src/main/java/ru/advantum/commons/aggregator/collectors/MedianCollector.java:42-61 | the finisher leaves the buffer sorted in place and returns the median of what was accumulated, or null for an empty buffer |
| Median.MedianOfTwoSalaries | src/main/java/ru/advantum/commons/aggregator/collectors/MedianCollector.java:51-55 | 100.00 plus 200.00, halved HALF_UP at scale 10, is 150.0000000000 |
| Median.MedianOfTwo | src/main/java/ru/advantum/commons/aggregator/collectors/MedianCollector.java:51-55 | two decimals of one scale, the first below the second: the median is the HALF_UP half of their sum at scale 10, whatever order they arrive in |
| Median.MedianOfSortedOdd | src/main/java/ru/advantum/commons/aggregator/collectors/MedianCollector.java:47-59 | for an odd count, the median is the middle element of any sorted arrangement of the input |
| Median.MedianOfFive | src/main/java/ru/advantum/commons/aggregator/collectors/MedianCollector.java:47-59 | five decimals of one scale with strictly increasing unscaled values, given in any order: the median is the third one, with its own scale |
| Median.SortedAtOneScale | src/main/java/ru/advantum/commons/aggregator/collectors/MedianCollector.java:47 | decimals of one scale whose unscaled values strictly increase are already in sort order |
| Results.PutValue | src/main/java/ru/advantum/commons/aggregator/AggregationResult.java:24-28 | putting null is a no-op; putting a value adds or overwrites exactly that key and leaves every other key as it was |
| Results.AggregationResult.constructor | src/main/java/ru/advantum/commons/aggregator/AggregationResult.java:14-17 | a new container is empty |
| Results.AggregationResult.Put | src/main/java/ru/advantum/commons/aggregator/AggregationResult.java:24-28 | `put` updates the map in place as `PutValue` says |
| Results.AggregationResult.Merge | src/main/java/ru/advantum/commons/aggregator/AggregationResult.java:35-38 | `merge` returns this; the keys are the union; the other container's values win on shared keys; this container's other values stay |
| Results.AggregationResult.Get | src/main/java/ru/advantum/commons/aggregator/AggregationResult.java:47-49 | `get` returns the stored value exactly when the key is present, and null otherwise |
| Results.AggregationResult.GetSum | src/main/java/ru/advantum/commons/aggregator/AggregationResult.java:51-55 | zero for a missing key; the stored decimal otherwise; ClassCastException exactly when the stored value is not a decimal |
| Results.AggregationResult.GetSumAs | src/main/java/ru/advantum/commons/aggregator/AggregationResult.java:56-77 | a failing `getSum` propagates. BigDecimal returns the sum unchanged. BigInteger returns its truncation. Integer, Long, Short and Byte return a value in the type's range, which equals the truncated sum whenever that is in range. Any other type raises IllegalArgumentException("Unsupported Number type: " + name) |
| Results.ConvertSum | src/main/java/ru/advantum/commons/aggregator/AggregationResult.java:58-76 | the conversion of a present sum: BigDecimal unchanged, BigInteger truncated toward zero, Integer/Long/Short/Byte wrapped to the type's width and equal to the truncation when that fits, any other type an IllegalArgumentException naming the type |
| Results.AggregationResult.GetCount | src/main/java/ru/advantum/commons/aggregator/AggregationResult.java:91-93 | null for a missing key (no default); the stored count; a cast failure for any other kind of value |
| Results.AggregationResult.GetDistinct | src/main/java/ru/advantum/commons/aggregator/AggregationResult.java:105-107 | null for a missing key (no empty-set default); the stored set; a cast failure otherwise |
| Results.AggregationResult.GetMin | src/main/java/ru/advantum/commons/aggregator/AggregationResult.java:83-85 | the stored value exactly when the key is present, otherwise null |
| Results.AggregationResult.GetMax | src/main/java/ru/advantum/commons/aggregator/AggregationResult.java:87-89 | the stored value exactly when the key is present, otherwise null |
| Results.AggregationResult.GetMedian | src/main/java/ru/advantum/commons/aggregator/AggregationResult.java:95-97 | the stored value exactly when the key is present, otherwise null |
| Results.Narrow | src/main/java/ru/advantum/commons/aggregator/AggregationResult.java:58-69 | `intValue`, `longValue`, `shortValue` and `byteValue` of the integer part: the result is in the target's range and equals the input when the input is in range |
| Results.NarrowTwice | src/main/java/ru/advantum/commons/aggregator/AggregationResult.java:66-69 | narrowing to 32 bits and then to 16 or 8 bits keeps any value that fits the smaller width |
| Fusion.Init | src/main/java/ru/advantum/commons/aggregator/AbstractAggregator.java:75-77 | each collector's supplier gives a container of that collector's kind |
| Fusion.Step | src/main/java/ru/advantum/commons/aggregator/AbstractAggregator.java:79-83 | accumulating one element keeps the container of its collector's kind |
| Fusion.CombineAcc | src/main/java/ru/advantum/commons/aggregator/AbstractAggregator.java:85-91 | combining two containers of a kind gives one of that kind |
| Fusion.FinishAcc | src/main/java/ru/advantum/commons/aggregator/Aggregator.java:181-189 | a slot finishes to absent exactly when it is a min or max over no elements (empty Optional) or a median over no elements (null); count, sum and distinct are always present |
| Fusion.Supply | src/main/java/ru/advantum/commons/aggregator/Aggregator.java:157-159 | the supplier gives one fresh container per task, each of its task's kind |
| Fusion.AccumulateAll | src/main/java/ru/advantum/commons/aggregator/Aggregator.java:162-166 | feeding one element keeps one container per task, each of its kind |
| Fusion.CombineAll | src/main/java/ru/advantum/commons/aggregator/Aggregator.java:169-175 | the combined list has one container per task, each of its kind |
| Fusion.Fold | src/main/java/ru/advantum/commons/aggregator/Aggregator.java:157-166 | a sequential pass yields one well-kinded container per task |
| Fusion.FinishAll | src/main/java/ru/advantum/commons/aggregator/Aggregator.java:178-192 | the result's keys are exactly the aliases of tasks whose finished value is present |
| Fusion.FinishStepKeys | src/main/java/ru/advantum/commons/aggregator/Aggregator.java:178-192 | one iteration of the finisher: after the last put the keys are the aliases of all tasks, the last included, whose value is present |
| Fusion.FinishAllLast | src/main/java/ru/advantum/commons/aggregator/Aggregator.java:178-192 | the finisher's map over all tasks is the map over all but the last, with the last task's value put over it (or left as it was when absent) |
| Fusion.Aggregate | src/main/java/ru/advantum/commons/aggregator/Aggregator.java:146-148 | with no tasks the result is empty |
| Fusion.ParallelFold | src/main/java/ru/advantum/commons/aggregator/Aggregator.java:169-175 | a split-and-combine evaluation yields one well-kinded container per task |
| Fusion.MinOf | src/main/java/ru/advantum/commons/aggregator/Aggregator.java:98-101 | `minBy`'s operator returns one of its arguments, numerically no larger than either, and the first one when `compareTo` does not put the second strictly below it |
| Fusion.MaxOf | src/main/java/ru/advantum/commons/aggregator/Aggregator.java:110-113 | `maxBy`'s operator returns one of its arguments, numerically no smaller than either, and the first one when `compareTo` does not put the second strictly above it |
| Fusion.CombineBest | src/main/java/ru/advantum/commons/aggregator/AbstractAggregator.java:50-58 | the min or max box's combiner: absent exactly when both sides are absent; otherwise one of the present values, and no larger (min) or no smaller (max) than each present value |
| Fusion.MinOfAssociates | src/main/java/ru/advantum/commons/aggregator/Aggregator.java:99 | `minBy(naturalOrder())`, which keeps the earlier value on ties, is associative |
| Fusion.MaxOfAssociates | src/main/java/ru/advantum/commons/aggregator/Aggregator.java:111 | `maxBy(naturalOrder())`, which keeps the earlier value on ties, is associative |
| Fusion.CombineInit | src/main/java/ru/advantum/commons/aggregator/AbstractAggregator.java:85-91 | a fresh container is a two-sided identity of each collector's combiner |
| Fusion.CombineAccAssociates | src/main/java/ru/advantum/commons/aggregator/AbstractAggregator.java:85-91 | each collector's combiner is associative |
| Fusion.StepIsCombine | src/main/java/ru/advantum/commons/aggregator/AbstractAggregator.java:79-91 | accumulating an element equals combining with the container of that element alone |
| Fusion.FanOut | src/main/java/ru/advantum/commons/aggregator/Aggregator.java:162-166 | slot i of the fused pass is exactly task i's collector run alone over all elements |
| Fusion.SlotSplit | src/main/java/ru/advantum/commons/aggregator/Aggregator.java:169-175 | one collector over a ++ b equals the combine of its runs over a and over b |
| Fusion.FoldSplit | src/main/java/ru/advantum/commons/aggregator/Aggregator.java:162-175 | the fused pass over a ++ b equals the slot-wise combine of the passes over a and b |
| Fusion.CombineAllAssociates | src/main/java/ru/advantum/commons/aggregator/Aggregator.java:169-175 | the slot-wise combiner is associative |
| Fusion.CombineAllSupply | src/main/java/ru/advantum/commons/aggregator/Aggregator.java:157-175 | the supplier's list is a two-sided identity of the slot-wise combiner |
| Fusion.ParallelAgrees | src/main/java/ru/advantum/commons/aggregator/Aggregator.java:202-203 | for every split plan, the parallel evaluation equals the sequential one |
| Fusion.LastWriterWins | src/main/java/ru/advantum/commons/aggregator/Aggregator.java:178-192 | when task i's value is present and no later task of the same alias has a present value, the alias holds task i's value. A later absent value does not erase an earlier present one, and a later present value overwrites it |
| Fusion.ResultOfTask | src/main/java/ru/advantum/commons/aggregator/Aggregator.java:145-204 | for a task whose alias is unique, the alias is in the result exactly when that task's collector alone finishes to a present value, and it holds that value |
| Fusion.Values | src/main/java/ru/advantum/commons/aggregator/Aggregator.java:123 | `mapping(mapper, ...)` hands the collector the mapped values, one per element, in order |
| Fusion.CountIsLength | src/main/java/ru/advantum/commons/aggregator/Aggregator.java:58-61 | `counting()` over n elements gives n |
| Fusion.SumIsExact | src/main/java/ru/advantum/commons/aggregator/Aggregator.java:70-77 | the sum starts at ZERO; its value is the exact sum of the mapped values, and its scale is the largest of their scales (0 when empty) |
| Fusion.MinIsFirstMinimum | src/main/java/ru/advantum/commons/aggregator/Aggregator.java:98-101 | min is absent exactly for empty input; otherwise it is some element's value, no value is numerically smaller, and it is the first minimal one |
| Fusion.FirstMinStep | src/main/java/ru/advantum/commons/aggregator/Aggregator.java:98-101 | one more element keeps the first minimum unless its value is strictly smaller, in which case it becomes the first minimum |
| Fusion.MaxIsFirstMaximum | src/main/java/ru/advantum/commons/aggregator/Aggregator.java:110-113 | max is absent exactly for empty input; otherwise it is some element's value, no value is numerically larger, and it is the first maximal one |
| Fusion.FirstMaxStep | src/main/java/ru/advantum/commons/aggregator/Aggregator.java:110-113 | one more element keeps the first maximum unless its value is strictly larger, in which case it becomes the first maximum |
| Fusion.DistinctIsValueSet | src/main/java/ru/advantum/commons/aggregator/Aggregator.java:134-139 | the distinct set holds exactly the mapped values of the elements |
| Fusion.MedianListIsValues | src/main/java/ru/advantum/commons/aggregator/Aggregator.java:122-125 | the median buffer holds exactly the mapped values, in encounter order |
| Fusion.Accumulator | src/main/java/ru/advantum/commons/aggregator/Aggregator.java:162-166 | the indexed loop updates every slot of the accumulator list in place, exactly once, as the per-kind step says |
| Fusion.Combiner | src/main/java/ru/advantum/commons/aggregator/Aggregator.java:169-175 | the loop builds a new list whose slot i combines the two slots i |
| Fusion.Finisher | src/main/java/ru/advantum/commons/aggregator/Aggregator.java:178-192 | the loop fills a fresh result with `put`, in task order, skipping absent values |
| Fusion.CollectPart | src/main/java/ru/advantum/commons/aggregator/Aggregator.java:157-166 | one sequential pass over an array of elements equals the fused fold |
| Fusion.CollectSplit | src/main/java/ru/advantum/commons/aggregator/Aggregator.java:169-175 | a split evaluation, leaves folded sequentially and halves combined, equals the fused fold |
| Fusion.Collect | src/main/java/ru/advantum/commons/aggregator/Aggregator.java:195-203 | collecting with the composite collector gives a fresh result holding the finished fold |
| Grouping.KeysOf | src/main/java/ru/advantum/commons/aggregator/GroupingAggregator.java:27-31 | a key is a group key exactly when some element's classifier value equals it |
| Grouping.Filter | src/main/java/ru/advantum/commons/aggregator/GroupingAggregator.java:30 | a group holds only elements with its key, is no longer than the input, and is empty exactly for a key no element has |
| Grouping.GroupMerge | src/main/java/ru/advantum/commons/aggregator/GroupingAggregator.java:30 | merging two partial group maps gives the union of their keys |
| Grouping.GroupFinish | src/main/java/ru/advantum/commons/aggregator/GroupingAggregator.java:30 | finishing keeps the group keys |
| Grouping.GroupFold | src/main/java/ru/advantum/commons/aggregator/GroupingAggregator.java:27-31 | every group's container list has one container per task, each of its task's kind; which elements each group folds over is stated by Grouping.GroupFoldIsPartition |
| Grouping.GroupAggregate | src/main/java/ru/advantum/commons/aggregator/GroupingAggregator.java:27-31 | the key set of the grouped result is exactly the set of the elements' classifier values |
| Grouping.GroupParallelFold | src/main/java/ru/advantum/commons/aggregator/GroupingAggregator.java:29-30 | every group's container list has one well-kinded container per task; its agreement with the sequential grouping is stated by Grouping.GroupParallelAgrees |
| Grouping.GroupFoldIsPartition | src/main/java/ru/advantum/commons/aggregator/GroupingAggregator.java:27-31 | single-pass grouping has exactly the classifier values as keys, and each key's containers are the fused fold over exactly the elements with that key |
| Grouping.GroupFoldStepAt | src/main/java/ru/advantum/commons/aggregator/GroupingAggregator.java:27-31 | one more element: every key's containers stay the fold over exactly that key's elements |
| Grouping.GroupResultIsFilteredAggregate | src/main/java/ru/advantum/commons/aggregator/GroupingAggregator.java:27-31 | each group's result equals the ungrouped aggregation of exactly that group's elements, with no leakage between groups |
| Grouping.NoTasksEmptyGroups | src/main/java/ru/advantum/commons/aggregator/AbstractAggregator.java:67-69 | with no tasks every group is still present and maps to an empty result |
| Grouping.FilterConcat | src/main/java/ru/advantum/commons/aggregator/GroupingAggregator.java:30 | filtering distributes over concatenation |
| Grouping.KeysOfConcat | src/main/java/ru/advantum/commons/aggregator/GroupingAggregator.java:30 | the keys of a ++ b are the union of the keys of a and of b |
| Grouping.GroupFoldAt | src/main/java/ru/advantum/commons/aggregator/GroupingAggregator.java:30 | a key has a group exactly when its filtered sublist is non-empty, and the group is the fold of that sublist |
| Grouping.GroupMergeAt | src/main/java/ru/advantum/commons/aggregator/GroupingAggregator.java:30 | at any key present on either side, merging the groupings of a and b gives the grouping of a ++ b |
| Grouping.GroupMergeSplit | src/main/java/ru/advantum/commons/aggregator/GroupingAggregator.java:30 | grouping a ++ b equals merging the groupings of a and b |
| Grouping.GroupParallelAgrees | src/main/java/ru/advantum/commons/aggregator/GroupingAggregator.java:29-30 | for every split plan, parallel grouping equals sequential grouping |
| Grouping.GroupsAtMostElements | src/main/java/ru/advantum/commons/aggregator/GroupingAggregator.java:27-31 | there are never more groups than elements |
| Grouping.GroupSizesRemove | src/main/java/ru/advantum/commons/aggregator/GroupingAggregator.java:30 | the group sizes over a key set split as one key's size plus the rest |
| Grouping.GroupSizesAppend | src/main/java/ru/advantum/commons/aggregator/GroupingAggregator.java:30 | appending an element adds one to the total size exactly when its key is counted |
| Grouping.GroupSizesCoverAll | src/main/java/ru/advantum/commons/aggregator/GroupingAggregator.java:27-31 | the group sizes add up to the collection size |
| Grouping.GroupCountsAreSizes | src/main/java/ru/advantum/commons/aggregator/GroupingAggregator.java:27-31 | with a count task, each group's count is its size, and the counts add up to the collection size |
| Aggregation.TaskList.constructor | src/main/java/ru/advantum/commons/aggregator/Aggregator.java:42 | `new ArrayList<>()` is empty |
| Aggregation.TaskList.Add | src/main/java/ru/advantum/commons/aggregator/Aggregator.java:59 | `add` appends one task at the end |
| Aggregation.TaskList.AddAll | src/main/java/ru/advantum/commons/aggregator/GroupingAggregator.java:19 | `addAll` appends the given tasks, in order |
| Aggregation.CompositeKey | src/main/java/ru/advantum/commons/aggregator/Aggregator.java:207-210 | the composite key has one entry per classifier, the i-th being classifier i's value |
| Aggregation.SameGroupIff | src/main/java/ru/advantum/commons/aggregator/Aggregator.java:207-210 | two elements share a group exactly when every classifier agrees on them |
| Aggregation.Aggregator.constructor | src/main/java/ru/advantum/commons/aggregator/Aggregator.java:28-33 | stores the collection, the flag and the given list object itself |
| Aggregation.Aggregator.Of | src/main/java/ru/advantum/commons/aggregator/Aggregator.java:41-43 | a fresh sequential builder with a fresh, empty task list |
| Aggregation.Aggregator.Parallel | src/main/java/ru/advantum/commons/aggregator/Aggregator.java:49-51 | a fresh builder on the same collection, flagged parallel, sharing this builder's task list object |
| Aggregation.Aggregator.Count | src/main/java/ru/advantum/commons/aggregator/Aggregator.java:58-61 | appends one counting task under the alias, keeps the earlier tasks, returns this |
| Aggregation.Aggregator.Sum | src/main/java/ru/advantum/commons/aggregator/Aggregator.java:70-77 | appends one reducing task under the alias, keeps the earlier tasks, returns this |
| Aggregation.Aggregator.Min | src/main/java/ru/advantum/commons/aggregator/Aggregator.java:98-101 | appends one minBy task, keeps the earlier tasks, returns this |
| Aggregation.Aggregator.Max | src/main/java/ru/advantum/commons/aggregator/Aggregator.java:110-113 | appends one maxBy task, keeps the earlier tasks, returns this |
| Aggregation.Aggregator.Median | src/main/java/ru/advantum/commons/aggregator/Aggregator.java:122-125 | appends one median task, keeps the earlier tasks, returns this |
| Aggregation.Aggregator.Distinct | src/main/java/ru/advantum/commons/aggregator/Aggregator.java:134-139 | appends one toSet task, keeps the earlier tasks, returns this |
| Aggregation.Aggregator.Aggregate | src/main/java/ru/advantum/commons/aggregator/Aggregator.java:145-204 | a fresh result equal to the finished fused fold of the current tasks over the collection, whether sequential or parallel, and empty when there are no tasks |
| Aggregation.Aggregator.GroupBy | src/main/java/ru/advantum/commons/aggregator/Aggregator.java:206-212 | a fresh sequential grouping builder with an empty list of its own, classifying by the composite key |
| Aggregation.Aggregator.NewInstance | src/main/java/ru/advantum/commons/aggregator/Aggregator.java:213-216 | as written: the new builder takes the collection and flag but reuses this builder's task list, ignoring the argument |
| Aggregation.Aggregator.NewInstanceWithTasks | src/main/java/ru/advantum/commons/aggregator/GroupingAggregator.java:22-25 | corrected: the new builder takes the collection, the flag and the given task list |
| Aggregation.GroupingAggregator.constructor | src/main/java/ru/advantum/commons/aggregator/GroupingAggregator.java:15-20 | stores collection, classifier and flag, and copies the given tasks into a fresh list of its own |
| Aggregation.GroupingAggregator.NewInstance | src/main/java/ru/advantum/commons/aggregator/GroupingAggregator.java:22-25 | same classifier, the given collection and flag, a fresh copy of the given tasks |
| Aggregation.GroupingAggregator.Parallel | src/main/java/ru/advantum/commons/aggregator/AbstractAggregator.java:25-28 | sets the flag on this builder, leaves the tasks alone, returns this |
| Aggregation.GroupingAggregator.Count | src/main/java/ru/advantum/commons/aggregator/AbstractAggregator.java:30-33 | appends one counting task, keeps the earlier tasks, returns this |
| Aggregation.GroupingAggregator.Distinct | src/main/java/ru/advantum/commons/aggregator/AbstractAggregator.java:35-38 | appends one toSet task, keeps the earlier tasks, returns this |
| Aggregation.GroupingAggregator.Sum | src/main/java/ru/advantum/commons/aggregator/AbstractAggregator.java:40-43 | appends one reducing task, keeps the earlier tasks, returns this |
| Aggregation.GroupingAggregator.Min | src/main/java/ru/advantum/commons/aggregator/AbstractAggregator.java:50-53 | appends one minBy task, keeps the earlier tasks, returns this |
| Aggregation.GroupingAggregator.Max | src/main/java/ru/advantum/commons/aggregator/AbstractAggregator.java:55-58 | appends one maxBy task, keeps the earlier tasks, returns this |
| Aggregation.GroupingAggregator.Median | src/main/java/ru/advantum/commons/aggregator/AbstractAggregator.java:60-63 | appends one median task, keeps the earlier tasks, returns this |
| Aggregation.GroupingAggregator.Aggregate | src/main/java/ru/advantum/commons/aggregator/GroupingAggregator.java:27-31 | for any split, the keys are exactly the elements' classifier values, and each key maps to the fused aggregation over exactly the elements with that key |
| Scenarios.SlotFoldSnoc | src/main/java/ru/advantum/commons/aggregator/Aggregator.java:162-166 | folding one more element is one more step |
| Scenarios.CountSlot | src/test/java/ru/advantum/commons/aggregator/AggregatorTest.java:61 | counting the five employees gives 5 |
| Scenarios.DistinctAgesSlot | src/test/java/ru/advantum/commons/aggregator/AggregatorTest.java:62 | the distinct ages are {20, 30, 40, 50} |
| Scenarios.SumSlot | src/test/java/ru/advantum/commons/aggregator/AggregatorTest.java:63 | the salaries sum to 1500.00, at scale 2 |
| Scenarios.SumAgeSlot | src/test/java/ru/advantum/commons/aggregator/AggregatorTest.java:64 | the ages sum to 160, at scale 0 |
| Scenarios.MinSalarySlot | src/test/java/ru/advantum/commons/aggregator/AggregatorTest.java:67 | the smallest salary is 100.00 |
| Scenarios.MaxAgeSlot | src/test/java/ru/advantum/commons/aggregator/AggregatorTest.java:68-69 | the largest age is 50 |
| Scenarios.MinAgeSlot | src/test/java/ru/advantum/commons/aggregator/AggregatorTest.java:70 | the smallest age is 20 |
| Scenarios.MedianSalarySlot | src/test/java/ru/advantum/commons/aggregator/AggregatorTest.java:71 | the median buffer holds the five salaries in encounter order |
| Scenarios.TestMedian | src/test/java/ru/advantum/commons/aggregator/AggregatorTest.java:71 | the median of the five salaries is 300.00 |
| Scenarios.TestResultCount | src/test/java/ru/advantum/commons/aggregator/AggregatorTest.java:61 | the result stores count 5 |
| Scenarios.TestResultDistinctAges | src/test/java/ru/advantum/commons/aggregator/AggregatorTest.java:62 | the result stores the age set {20, 30, 40, 50} |
| Scenarios.TestResultSum | src/test/java/ru/advantum/commons/aggregator/AggregatorTest.java:63 | the result stores sum 1500.00 |
| Scenarios.TestResultSumAge | src/test/java/ru/advantum/commons/aggregator/AggregatorTest.java:64 | the result stores age sum 160 |
| Scenarios.TestResultMinSalary | src/test/java/ru/advantum/commons/aggregator/AggregatorTest.java:67 | the result stores min salary 100.00 |
| Scenarios.TestResultMaxAge | src/test/java/ru/advantum/commons/aggregator/AggregatorTest.java:68-69 | the result stores max age 50 |
| Scenarios.TestResultMinAge | src/test/java/ru/advantum/commons/aggregator/AggregatorTest.java:70 | the result stores min age 20 |
| Scenarios.TestResultMedianSalary | src/test/java/ru/advantum/commons/aggregator/AggregatorTest.java:71 | the result stores median salary 300.00 |
| Scenarios.StoredValue | src/test/java/ru/advantum/commons/aggregator/AggregatorTest.java:49-59 | a task whose alias is unique and whose collector finishes to a value stores exactly that value in the result |
| Scenarios.MedianStored | src/test/java/ru/advantum/commons/aggregator/AggregatorTest.java:71 | a median task with a unique alias stores the median of its collected list |
| Scenarios.SumOfAgesAsInteger | src/test/java/ru/advantum/commons/aggregator/AggregatorTest.java:65 | the age sum read as an Integer is 160 |
| Scenarios.DeclareTestTasks | src/test/java/ru/advantum/commons/aggregator/AggregatorTest.java:50-58 | the test's builder chain appends its eight tasks, in order |
| Scenarios.ReadTestResult | src/test/java/ru/advantum/commons/aggregator/AggregatorTest.java:61-71 | every getter the test calls returns the asserted value; "minAge" is read with `getMax`, as the test does |
| Scenarios.TestAllAggregationsSequentially | src/test/java/ru/advantum/commons/aggregator/AggregatorTest.java:47-72 | the sequential test's assertions (except the average) hold |
| Scenarios.TestAllAggregationsParallel | src/test/java/ru/advantum/commons/aggregator/AggregatorTest.java:74-94 | tasks declared on the parallel builder are seen by the original one. A split evaluation gives the test's asserted count 5, distinct ages {20, 30, 40, 50}, sum 1500.00, min salary 100.00, max age 50 and median salary 300.00 |
| Scenarios.EmptyResultAt | src/test/java/ru/advantum/commons/aggregator/AggregatorTest.java:28-36 | over an empty collection each alias is stored exactly when its collector's fresh container finishes to a present value |
| Scenarios.EmptyResultStored | src/test/java/ru/advantum/commons/aggregator/AggregatorTest.java:38-41 | over no elements, count 0, sum ZERO and the empty set are stored |
| Scenarios.EmptyResultAbsent | src/test/java/ru/advantum/commons/aggregator/AggregatorTest.java:39-44 | over no elements, min, max and median are not stored, nor is the undeclared "sumAge" |
| Scenarios.TestEmptyCollection | src/test/java/ru/advantum/commons/aggregator/AggregatorTest.java:27-45 | the empty-collection test's assertions hold: count 0, Integer sum 0 of a missing key, sum ZERO, empty distinct set, and null min, max and median |
| Scenarios.ParallelSharesTaskList | src/main/java/ru/advantum/commons/aggregator/Aggregator.java:49-51 | tasks added through either the original or the parallel builder are seen by both, and only the copy is parallel |
| Scenarios.GroupingCopiesTasks | src/main/java/ru/advantum/commons/aggregator/GroupingAggregator.java:15-20 | a task added to the argument list after construction is not seen by the grouping builder |
| Scenarios.NewInstanceDropsTasks | src/main/java/ru/advantum/commons/aggregator/Aggregator.java:213-216 | as written, `newInstance` handed a one-task list yields a builder with no tasks |
| Scenarios.NewInstanceWithTasksKeepsTasks | src/main/java/ru/advantum/commons/aggregator/GroupingAggregator.java:22-25 | the corrected `newInstance` yields a builder with exactly the tasks it was handed |
| Scenarios.GroupByAndCount | src/main/java/ru/advantum/commons/aggregator/Aggregator.java:206-212 | `groupBy(...).count("count").aggregate()`: the keys are the composite keys of the elements, each group's count is its size, and the counts add up to the collection size |
| Scenarios.CountOfOneGroup | src/main/java/ru/advantum/commons/aggregator/Aggregator.java:58-61 | a lone count task over any elements stores their number |

## Left out

- `average` and `getAverage` are not modelled. They are built on `Collectors.averagingDouble`, which is floating-point arithmetic.
- Results.AggregationResult.GetSumAs: Double and Float targets return an unevaluated `Floating(type, sum)`. The binary rounding of `doubleValue`/`floatValue` is not modelled.
- Real parallel execution is not modelled: `parallelStream`, fork/join scheduling, and the thread safety of the `ConcurrentHashMap` inside `AggregationResult`. The scheduler's choice of split points is the `SplitPlan` parameter, and the model proves that every plan gives the sequential result.
- Mapper lambdas are total functions that return the value already as a decimal. Exceptions thrown inside a mapper are not modelled. Nor are `new BigDecimal(n.toString())` in `sum` and `toBigDecimal` in the median collector (MedianCollector.java:68-73). The model folds these conversions into the mapper. For integral Numbers and BigDecimals the conversion keeps value and scale. For a Double or Float it does not: the decimal is read from the `toString` digits (0.1d gives 0.1, not its binary value, and 1.0E7 gives scale -6).
- Negative scales are not modelled: `Decimal` has a natural-number scale. A mapper can yield a BigDecimal of negative scale, such as `new BigDecimal("1E+3")`, the result of `stripTrailingZeros()`, or a Double read as above. min, max, distinct and the odd-length median return such values unchanged, and the model cannot represent them. Sums are less affected: they start at ZERO of scale 0, so the scale of a sum is never negative.
- Distinct, min and max values are decimals; Java allows any value there. An Integer age is the decimal of scale 0. Two consequences follow:
  - `getDistinct` in the test compares against a set of Integers; the model compares against decimals of scale 0.
  - The model never sees the ClassCastException that `getSum` raises on an Integer min or max.
- Fusion.MinOf and Fusion.MaxOf follow the JDK's `minBy`/`maxBy` exactly: numeric comparison, earlier value kept on ties. The `HashSet` of `toSet` is a mathematical set of decimals. Like `BigDecimal.equals`, it keeps 1.0 and 1.00 apart.
- Median.MedianOf: for an odd length, the model returns the middle element of its own total order, which can differ in scale from the copy Java returns. Median.SortInPlace orders by numeric value and then by scale. `Collections.sort` is stable on `compareTo`, so it keeps equal values of different scales in encounter order. The model fixes one total order instead. This matters only for the odd-length median, which returns the middle element itself (MedianCollector.java:58). When that middle value occurs several times at different scales, Java returns whichever copy encounter order puts in the middle. For example, [1.0, 1.00, 5] gives 1.00 and [1.00, 1.0, 5] gives 1.0; the model gives 1.00 for both. The even-length median is `divide(2, 10, HALF_UP)` of a sum (MedianCollector.java:55), so its scale is always 10 and its value depends only on the numeric middle values; encounter order cannot change it.
- Scenarios.TestAllAggregationsParallel declares the sequential test's eight tasks. The parallel test (AggregatorTest.java:76-85) declares six of them plus the average. The two extra tasks, "sumAge" and "minAge", have aliases of their own, so they change nothing the parallel test reads.
- Long overflow of `counting()` is not modelled; a count is an unbounded natural number.
- `Aggregator` redeclares the `collection`, `parallel` and `tasks` fields of `AbstractAggregator`, shadowing them. The inherited copies of these fields (an always-empty list and a false flag) are never read by `Aggregator`, so the model keeps only `Aggregator`'s own fields.
- Aggregation.GroupingAggregator.Aggregate returns each group as a map rather than as an `AggregationResult` object. The map is that object's contents.
- With no tasks, `buildCompositeCollector` counts the elements and then discards the count. The model uses the empty task list, which finishes to the same empty result.
- `toString` is not modelled. It is text formatting only.
- Slot containers are values. The in-place mutation of each collector's container (a `HashSet`, an `ArrayList`, a reduction's mutable box) is modelled by reassigning the slot of the accumulator array. The combiner's reuse of `list1` is modelled separately in Median.MedianBuffer.AppendAll.
- `AggregationTask` (an alias plus a collector) is folded into the datatype `Fusion.AggregationTask`.

## Findings

| source | as written | input that shows it | evidently intended | confidence | as-written member | corrected member |
|---|---|---|---|---|---|---|
| src/main/java/ru/advantum/commons/aggregator/Aggregator.java:213-216 | `newInstance(collection, parallel, aggregationTasks)` builds the new instance with `this.tasks`, so its task-list argument is ignored | a builder with no tasks, asked for `newInstance(xs, false, [count])`, gives a builder with no tasks | use the given list, as the grouping twin does at GroupingAggregator.java:22-25. The defect is latent: `newInstance` is protected, and nothing in the library calls it, so it cannot be seen through the public API | not executed; high that the argument is meant to be used | Aggregation.Aggregator.NewInstance, Scenarios.NewInstanceDropsTasks | Aggregation.Aggregator.NewInstanceWithTasks, Scenarios.NewInstanceWithTasksKeepsTasks |
