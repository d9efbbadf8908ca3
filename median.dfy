/**
 * The median reduction (collectors/MedianCollector.java). Its accumulator is
 * the list of every extracted value; combining concatenates two lists; the
 * finisher sorts the list in place and takes the middle element, or the
 * mean of the two middle elements at scale 10 rounded HALF_UP.
 */
module Median {
  import opened Decimals
  import opened Wrappers

  predicate Sorted(s: seq<Decimal>)
  {
    forall i, j :: 0 <= i < j < |s| ==> SortLe(s[i], s[j])
  }

  /** Insert x into a sorted sequence, in front of the first element not below it. */
  function Insert(s: seq<Decimal>, x: Decimal): (r: seq<Decimal>)
    requires Sorted(s)
    ensures Sorted(r)
    ensures multiset(r) == multiset(s) + multiset{x}
  {
    if |s| == 0 then [x]
    else if SortLe(x, s[0]) then
      InsertFront(s, x);
      [x] + s
    else
      var t := Insert(s[1..], x);
      assert s == [s[0]] + s[1..];
      SortLeTotal(x, s[0]);
      InsertBehind(s[0], s[1..], x, t);
      [s[0]] + t
  }

  lemma InsertFront(s: seq<Decimal>, x: Decimal)
    requires Sorted(s) && |s| > 0 && SortLe(x, s[0])
    ensures Sorted([x] + s)
  {
    forall j | 0 < j < |s| + 1 ensures SortLe(x, ([x] + s)[j]) {
      SortLeTransitive(x, s[0], s[j - 1]);
    }
  }

  lemma InsertBehind(h: Decimal, s: seq<Decimal>, x: Decimal, t: seq<Decimal>)
    requires Sorted([h] + s) && SortLe(h, x) && Sorted(t)
    requires multiset(t) == multiset(s) + multiset{x}
    ensures Sorted([h] + t)
  {
    forall j | 0 <= j < |t| ensures SortLe(h, t[j]) {
      assert t[j] in multiset(t);
      if t[j] != x {
        assert t[j] in multiset(s);
        var k :| 0 <= k < |s| && s[k] == t[j];
        assert ([h] + s)[0] == h && ([h] + s)[k + 1] == t[j];
      }
    }
    forall p, q | 0 <= p < q < |t| + 1 ensures SortLe(([h] + t)[p], ([h] + t)[q]) {
      if p > 0 {
        assert ([h] + t)[p] == t[p - 1] && ([h] + t)[q] == t[q - 1];
      }
    }
  }

  /** The order Collections.sort leaves the list in: a sorted permutation. */
  function Sort(s: seq<Decimal>): (r: seq<Decimal>)
    ensures Sorted(r)
    ensures multiset(r) == multiset(s)
  {
    if |s| == 0 then []
    else
      assert s == s[..|s| - 1] + [s[|s| - 1]];
      Insert(Sort(s[..|s| - 1]), s[|s| - 1])
  }

  /** A sorted permutation is unique, so any correct in-place sort agrees with Sort. */
  lemma {:induction false} SortedUnique(a: seq<Decimal>, b: seq<Decimal>)
    requires Sorted(a) && Sorted(b) && multiset(a) == multiset(b)
    ensures a == b
  {
    assert |a| == |multiset(a)| == |multiset(b)| == |b|;
    if |a| > 0 {
      assert a[0] in multiset(b);
      var j :| 0 <= j < |b| && b[j] == a[0];
      assert b[0] in multiset(a);
      var i :| 0 <= i < |a| && a[i] == b[0];
      assert SortLe(a[0], b[0]) by {
        if i > 0 { assert SortLe(a[0], a[i]); }
      }
      assert SortLe(b[0], a[0]) by {
        if j > 0 { assert SortLe(b[0], b[j]); }
      }
      SortLeAntisymmetric(a[0], b[0]);
      assert a == [a[0]] + a[1..];
      assert b == [b[0]] + b[1..];
      assert multiset(a) == multiset{a[0]} + multiset(a[1..]);
      assert multiset(b) == multiset{a[0]} + multiset(b[1..]);
      MultisetCancel(a[0], multiset(a[1..]), multiset(b[1..]));
      assert Sorted(a[1..]) by {
        forall p, q | 0 <= p < q < |a| - 1 ensures SortLe(a[1..][p], a[1..][q]) {
          assert a[1..][p] == a[p + 1] && a[1..][q] == a[q + 1];
        }
      }
      assert Sorted(b[1..]) by {
        forall p, q | 0 <= p < q < |b| - 1 ensures SortLe(b[1..][p], b[1..][q]) {
          assert b[1..][p] == b[p + 1] && b[1..][q] == b[q + 1];
        }
      }
      SortedUnique(a[1..], b[1..]);
    }
  }

  lemma MultisetCancel(x: Decimal, m1: multiset<Decimal>, m2: multiset<Decimal>)
    requires multiset{x} + m1 == multiset{x} + m2
    ensures m1 == m2
  {
    assert m1 == (multiset{x} + m1) - multiset{x};
    assert m2 == (multiset{x} + m2) - multiset{x};
  }

  /** The finisher's index arithmetic on the already sorted list. */
  function MiddleOf(s: seq<Decimal>): (r: Option<Decimal>)
    ensures r.None? <==> |s| == 0
    ensures |s| % 2 == 1 ==> r.Some? && r.value in multiset(s)
    ensures |s| > 0 && |s| % 2 == 0 ==> r.Some? && r.value.scale == MedianScale
  {
    var size := |s|;
    var mid := size / 2;
    if size == 0 then None
    else if size % 2 == 0 then Some(Halve(Add(s[mid - 1], s[mid])))
    else Some(s[mid])
  }

  /** What the finisher returns for an accumulated list (None is null). */
  function MedianOf(items: seq<Decimal>): (r: Option<Decimal>)
    ensures r.None? <==> |items| == 0
    ensures |items| % 2 == 1 ==> r.Some? && r.value in multiset(items)
    ensures |items| % 2 == 1 ==> r == Some(Sort(items)[|items| / 2])
    ensures |items| > 0 && |items| % 2 == 0 ==>
      r == Some(Halve(Add(Sort(items)[|items| / 2 - 1], Sort(items)[|items| / 2])))
  {
    var s := Sort(items);
    assert |s| == |multiset(s)| == |items|;
    MiddleOf(s)
  }

  /** The median does not depend on the order values were accumulated or combined in. */
  lemma {:induction false} MedianPermutationInvariant(xs: seq<Decimal>, ys: seq<Decimal>)
    requires multiset(xs) == multiset(ys)
    ensures MedianOf(xs) == MedianOf(ys)
  {
    SortedUnique(Sort(xs), Sort(ys));
  }

  /** For an odd count the median is an element, and it lies between the smallest and the largest in sort order. */
  lemma MedianWithinRange(items: seq<Decimal>)
    requires |items| % 2 == 1
    ensures MedianOf(items).value in multiset(items)
    ensures SortLe(Sort(items)[0], MedianOf(items).value)
    ensures SortLe(MedianOf(items).value, Sort(items)[|items| - 1])
  {
    var s := Sort(items);
    assert |s| == |multiset(s)| == |multiset(items)| == |items|;
    var mid := |items| / 2;
    assert s[mid] in multiset(s);
    assert mid > 0 ==> SortLe(s[0], s[mid]);
    assert mid < |s| - 1 ==> SortLe(s[mid], s[|s| - 1]);
  }

  method Swap(a: array<Decimal>, i: int, j: int)
    requires 0 <= i < a.Length && 0 <= j < a.Length
    modifies a
    ensures a[..] == old(a[..])[i := old(a[j])][j := old(a[i])]
    ensures multiset(a[..]) == old(multiset(a[..]))
  {
    a[i], a[j] := a[j], a[i];
  }

  /** Collections.sort on the accumulated list: insertion sort by adjacent swaps. */
  method SortInPlace(a: array<Decimal>)
    modifies a
    ensures Sorted(a[..])
    ensures multiset(a[..]) == old(multiset(a[..]))
    ensures a[..] == Sort(old(a[..]))
  {
    if a.Length == 0 {
      return;
    }
    var i := 1;
    while i < a.Length
      invariant 1 <= i <= a.Length
      invariant Sorted(a[..i])
      invariant multiset(a[..]) == old(multiset(a[..]))
    {
      SiftDown(a, i);
      i := i + 1;
    }
    assert a[..] == a[..i];
    SortedUnique(a[..], Sort(old(a[..])));
  }

  /** Moves a[i] left past every larger element, extending the sorted prefix by one. */
  method SiftDown(a: array<Decimal>, i: nat)
    requires 0 < i < a.Length && Sorted(a[..i])
    modifies a
    ensures Sorted(a[..i + 1])
    ensures multiset(a[..]) == old(multiset(a[..]))
  {
    var j := i;
    SiftStart(a[..], i);
    while j > 0 && !SortLe(a[j - 1], a[j])
      invariant 0 <= j <= i
      invariant OrderedAround(a[..], i, j) && BelowRest(a[..], i, j)
      invariant multiset(a[..]) == old(multiset(a[..]))
    {
      ghost var before := a[..];
      Swap(a, j - 1, j);
      SiftStep(before, a[..], i, j);
      j := j - 1;
    }
    SiftDone(a[..], i, j);
  }

  /** The first i + 1 elements are in order, leaving out the one at position j. */
  predicate OrderedAround(s: seq<Decimal>, i: nat, j: nat)
    requires i < |s|
  {
    forall p, q :: 0 <= p < q <= i && p != j && q != j ==> SortLe(s[p], s[q])
  }

  /** The element at j is below every element after it, up to position i. */
  predicate BelowRest(s: seq<Decimal>, i: nat, j: nat)
    requires j <= i < |s|
  {
    forall q :: j < q <= i ==> SortLe(s[j], s[q])
  }

  /** Before the first swap: the prefix is sorted and the new element stands alone at i. */
  lemma SiftStart(s: seq<Decimal>, i: nat)
    requires i < |s| && Sorted(s[..i])
    ensures OrderedAround(s, i, i) && BelowRest(s, i, i)
  {
    assert forall p :: 0 <= p < i ==> s[..i][p] == s[p];
  }

  /** One swap of the sift: the out-of-order pair at j - 1, j changes places and the gap moves left. */
  lemma SiftStep(s: seq<Decimal>, t: seq<Decimal>, i: nat, j: nat)
    requires 0 < j <= i < |s|
    requires t == s[j - 1 := s[j]][j := s[j - 1]]
    requires !SortLe(s[j - 1], s[j])
    requires OrderedAround(s, i, j) && BelowRest(s, i, j)
    ensures OrderedAround(t, i, j - 1) && BelowRest(t, i, j - 1)
  {
    SortLeTotal(s[j - 1], s[j]);
  }

  /** The sift stops at the front or below an element not above it: the prefix is sorted. */
  lemma SiftDone(s: seq<Decimal>, i: nat, j: nat)
    requires j <= i < |s|
    requires OrderedAround(s, i, j) && BelowRest(s, i, j)
    requires j > 0 ==> SortLe(s[j - 1], s[j])
    ensures Sorted(s[..i + 1])
  {
    forall p | 0 <= p < j ensures SortLe(s[p], s[j]) {
      if p < j - 1 {
        SortLeTransitive(s[p], s[j - 1], s[j]);
      }
    }
    assert forall p :: 0 <= p <= i ==> s[..i + 1][p] == s[p];
  }

  /** MedianCollector's mutable accumulation container (an ArrayList). */
  class MedianBuffer {
    var items: seq<Decimal>

    /** supplier(): ArrayList::new */
    constructor ()
      ensures items == []
    {
      items := [];
    }

    /** accumulator(): List::add */
    method Append(x: Decimal)
      modifies this
      ensures items == old(items) + [x]
    {
      items := items + [x];
    }

    /** combiner(): list1.addAll(list2), returning list1 itself. */
    method AppendAll(other: MedianBuffer) returns (r: MedianBuffer)
      modifies this
      ensures r == this
      ensures items == old(items) + old(other.items)
      ensures |items| == |old(items)| + |old(other.items)|
    {
      items := items + other.items;
      r := this;
    }

    /** finisher(): sorts the list in place, then takes the median. */
    method Finish() returns (m: Option<Decimal>)
      modifies this
      ensures items == Sort(old(items))
      ensures m == MedianOf(old(items))
    {
      if |items| == 0 {
        return None;
      }
      var xs := items;
      var a := new Decimal[|xs|](i requires 0 <= i < |xs| => xs[i]);
      assert a[..] == xs;
      SortInPlace(a);
      items := a[..];
      var size := |items|;
      var mid := size / 2;
      if size % 2 == 0 {
        m := Some(Halve(Add(items[mid - 1], items[mid])));
      } else {
        m := Some(items[mid]);
      }
    }
  }

  /** A list at one scale with strictly increasing unscaled values is sorted. */
  lemma SortedAtOneScale(s: seq<Decimal>)
    requires forall i :: 0 <= i < |s| ==> s[i].scale == s[0].scale
    requires forall i :: 0 <= i < |s| - 1 ==> s[i].unscaled < s[i + 1].unscaled
    ensures Sorted(s)
  {
    forall i, j | 0 <= i < j < |s|
      ensures SortLe(s[i], s[j])
    {
      UnscaledIncreasing(s, i, j);
      SameScaleOrder(s[i], s[j]);
    }
  }

  lemma {:induction false} UnscaledIncreasing(s: seq<Decimal>, i: nat, j: nat)
    requires forall i :: 0 <= i < |s| - 1 ==> s[i].unscaled < s[i + 1].unscaled
    requires i < j < |s|
    ensures s[i].unscaled < s[j].unscaled
    decreases j - i
  {
    if i + 1 < j {
      UnscaledIncreasing(s, i + 1, j);
    }
  }

  /** Two values at one scale, the smaller first: the median is their HALF_UP half. */
  lemma MedianOfTwo(a: Decimal, b: Decimal)
    requires a.scale == b.scale && a.unscaled < b.unscaled
    ensures MedianOf([a, b]) == Some(Halve(Add(a, b)))
  {
    var s := [a, b];
    SortedAtOneScale(s);
    SortedUnique(Sort(s), s);
  }

  /** The even-length case [100.00, 200.00]: the mean 150 comes out at scale 10. */
  lemma MedianOfTwoSalaries()
    ensures Halve(Add(Decimal(10000, 2), Decimal(20000, 2))) == Decimal(1500000000000, 10)
  {
    assert Pow10(2) == 100;
    assert Pow10(10) == 10000000000;
  }

  /** For odd n the median is the middle of any sorted arrangement of the same values. */
  lemma MedianOfSortedOdd(items: seq<Decimal>, s: seq<Decimal>)
    requires Sorted(s) && multiset(items) == multiset(s) && |s| % 2 == 1
    ensures MedianOf(items) == Some(s[|s| / 2])
  {
    SortedUnique(Sort(items), s);
    assert |items| == |multiset(items)| == |s|;
  }

  /** Five values at one scale, in any arrangement: the median is the third smallest. */
  lemma MedianOfFive(a: Decimal, b: Decimal, c: Decimal, d: Decimal, e: Decimal, xs: seq<Decimal>)
    requires a.scale == b.scale == c.scale == d.scale == e.scale
    requires a.unscaled < b.unscaled < c.unscaled < d.unscaled < e.unscaled
    requires multiset(xs) == multiset([a, b, c, d, e])
    ensures MedianOf(xs) == Some(c)
  {
    var s := [a, b, c, d, e];
    SortedAtOneScale(s);
    MedianOfSortedOdd(xs, s);
  }
}
