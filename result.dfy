/**
 * The result container (AggregationResult.java): a map from a reduction's
 * alias to its finished value, with typed getters. A getter whose declared
 * Java return type does not match the stored value fails the way the
 * compiler-inserted cast does, with ClassCastException.
 */
module Results {
  import opened Decimals
  import opened Wrappers

  /** A finished value: a Long count, a BigDecimal, or a Set of distinct values. */
  datatype Value = CountValue(count: nat) | DecimalValue(decimal: Decimal) | SetValue(elements: set<Decimal>)

  datatype Error = ClassCastException | IllegalArgumentException(message: string)

  datatype Result<T> = Ok(value: T) | Err(error: Error)

  /** The Class<T> argument of getSum(key, targetType). */
  datatype NumberType =
    | IntegerType | LongType | DoubleType | FloatType | ShortType | ByteType
    | BigDecimalType | BigIntegerType
    | OtherType(name: string)

  /**
   * What getSum(key, targetType) returns. Floating(t, d) is the double or
   * float nearest to d; the binary rounding itself is not modelled.
   */
  datatype Number =
    | FixedWidth(width: NumberType, integer: int)
    | BigDecimalNumber(decimal: Decimal)
    | BigIntegerNumber(big: int)
    | Floating(precision: NumberType, approximates: Decimal)

  /** The width in bits of Java's int, long, short and byte. */
  function Bits(t: NumberType): nat
  {
    match t
    case IntegerType => 32
    case LongType => 64
    case ShortType => 16
    case ByteType => 8
    case _ => 0
  }

  /** put(key, value): a null value (None) is ignored, any other sets or overwrites the key. */
  function PutValue(m: map<string, Value>, key: string, value: Option<Value>): (r: map<string, Value>)
    ensures value.None? ==> r == m
    ensures value.Some? ==> r.Keys == m.Keys + {key} && r[key] == value.value
    ensures forall k :: k in m && k != key ==> k in r && r[k] == m[k]
  {
    if value.Some? then m[key := value.value] else m
  }

  class AggregationResult {
    var results: map<string, Value>

    constructor ()
      ensures results == map[]
    {
      results := map[];
    }

    method Put(key: string, value: Option<Value>)
      modifies this
      ensures results == PutValue(old(results), key, value)
    {
      if value.Some? {
        results := results[key := value.value];
      }
    }

    /** merge(other): putAll, so the other container wins on shared keys; returns this. */
    method Merge(other: AggregationResult) returns (r: AggregationResult)
      modifies this
      ensures r == this
      ensures results.Keys == old(results).Keys + old(other.results).Keys
      ensures forall k :: k in old(other.results) ==> results[k] == old(other.results)[k]
      ensures forall k :: k in old(results) && k !in old(other.results) ==> results[k] == old(results)[k]
    {
      results := results + other.results;
      r := this;
    }

    /** get(key): the stored value, or null (None) for a missing key. */
    function Get(key: string): (r: Option<Value>)
      reads this
      ensures r.Some? <==> key in results
      ensures r.Some? ==> r.value == results[key]
    {
      if key in results then Some(results[key]) else None
    }

    /** getSum(key): zero for a missing key, the stored BigDecimal otherwise. */
    function GetSum(key: string): (r: Result<Decimal>)
      reads this
      ensures key !in results ==> r == Ok(Zero)
      ensures key in results ==> (r.Ok? <==> results[key].DecimalValue?)
      ensures key in results && r.Ok? ==> r.value == results[key].decimal
      ensures r.Err? ==> r.error == ClassCastException
    {
      match Get(key)
      case None => Ok(Zero)
      case Some(DecimalValue(d)) => Ok(d)
      case Some(_) => Err(ClassCastException)
    }

    /** getSum(key, targetType): the sum narrowed to the requested Number type. */
    function GetSumAs(key: string, target: NumberType): (r: Result<Number>)
      reads this
      ensures GetSum(key).Err? ==> r == Err(ClassCastException)
      ensures GetSum(key).Ok? && target == BigDecimalType ==> r == Ok(BigDecimalNumber(GetSum(key).value))
      ensures GetSum(key).Ok? && target == BigIntegerType ==> r == Ok(BigIntegerNumber(TruncateToInteger(GetSum(key).value)))
      ensures GetSum(key).Ok? && Bits(target) > 0 ==>
        r.Ok? && r.value.FixedWidth? && r.value.width == target &&
        -Pow2(Bits(target) - 1) <= r.value.integer < Pow2(Bits(target) - 1)
      ensures GetSum(key).Ok? && Bits(target) > 0 &&
              -Pow2(Bits(target) - 1) <= TruncateToInteger(GetSum(key).value) < Pow2(Bits(target) - 1)
              ==> r == Ok(FixedWidth(target, TruncateToInteger(GetSum(key).value)))
      ensures GetSum(key).Ok? && target.OtherType? ==>
        r == Err(IllegalArgumentException("Unsupported Number type: " + target.name))
    {
      match GetSum(key)
      case Err(e) => Err(e)
      case Ok(sum) => ConvertSum(sum, target)
    }

    /** getCount(key): the stored Long, or null. */
    function GetCount(key: string): (r: Result<Option<nat>>)
      reads this
      ensures key !in results ==> r == Ok(None)
      ensures key in results ==> (r.Ok? <==> results[key].CountValue?)
      ensures key in results && r.Ok? ==> r.value == Some(results[key].count)
    {
      match Get(key)
      case None => Ok(None)
      case Some(CountValue(n)) => Ok(Some(n))
      case Some(_) => Err(ClassCastException)
    }

    /** getDistinct(key): the stored Set, or null (no empty-set default). */
    function GetDistinct(key: string): (r: Result<Option<set<Decimal>>>)
      reads this
      ensures key !in results ==> r == Ok(None)
      ensures key in results ==> (r.Ok? <==> results[key].SetValue?)
      ensures key in results && r.Ok? ==> r.value == Some(results[key].elements)
    {
      match Get(key)
      case None => Ok(None)
      case Some(SetValue(s)) => Ok(Some(s))
      case Some(_) => Err(ClassCastException)
    }

    /** getMin(key): generic in its return type, so no cast: the stored value or null. */
    function GetMin(key: string): (r: Option<Value>)
      reads this
      ensures r.Some? <==> key in results
      ensures r.Some? ==> r.value == results[key]
    {
      Get(key)
    }

    /** getMax(key): the stored value or null. */
    function GetMax(key: string): (r: Option<Value>)
      reads this
      ensures r.Some? <==> key in results
      ensures r.Some? ==> r.value == results[key]
    {
      Get(key)
    }

    /** getMedian(key): the stored value or null. */
    function GetMedian(key: string): (r: Option<Value>)
      reads this
      ensures r.Some? <==> key in results
      ensures r.Some? ==> r.value == results[key]
    {
      Get(key)
    }
  }

  /** The targetType dispatch of getSum(key, targetType) applied to the sum. */
  function ConvertSum(sum: Decimal, target: NumberType): (r: Result<Number>)
    ensures target == BigDecimalType ==> r == Ok(BigDecimalNumber(sum))
    ensures target == BigIntegerType ==> r == Ok(BigIntegerNumber(TruncateToInteger(sum)))
    ensures Bits(target) > 0 ==>
      r.Ok? && r.value.FixedWidth? && r.value.width == target &&
      -Pow2(Bits(target) - 1) <= r.value.integer < Pow2(Bits(target) - 1)
    ensures Bits(target) > 0 && -Pow2(Bits(target) - 1) <= TruncateToInteger(sum) < Pow2(Bits(target) - 1)
      ==> r == Ok(FixedWidth(target, TruncateToInteger(sum)))
    ensures target.OtherType? ==> r == Err(IllegalArgumentException("Unsupported Number type: " + target.name))
  {
    var whole := TruncateToInteger(sum);
    if Bits(target) > 0 then Ok(FixedWidth(target, Narrow(whole, target)))
    else
      match target
      case DoubleType => Ok(Floating(DoubleType, sum))
      case FloatType => Ok(Floating(FloatType, sum))
      case BigDecimalType => Ok(BigDecimalNumber(sum))
      case BigIntegerType => Ok(BigIntegerNumber(whole))
      case OtherType(name) => Err(IllegalArgumentException("Unsupported Number type: " + name))
  }

  /**
   * intValue(), longValue(), shortValue(), byteValue() of the integer part:
   * int and long keep the low 32 or 64 bits; short and byte are Number's
   * default narrowing of intValue(), so they wrap twice.
   */
  function Narrow(v: int, t: NumberType): (w: int)
    requires Bits(t) > 0
    ensures -Pow2(Bits(t) - 1) <= w < Pow2(Bits(t) - 1)
    ensures -Pow2(Bits(t) - 1) <= v < Pow2(Bits(t) - 1) ==> w == v
  {
    match t
    case IntegerType => Wrap(v, 32)
    case LongType => Wrap(v, 64)
    case ShortType =>
      NarrowTwice(v, 16);
      Wrap(Wrap(v, 32), 16)
    case ByteType =>
      NarrowTwice(v, 8);
      Wrap(Wrap(v, 32), 8)
  }

  lemma NarrowTwice(v: int, bits: nat)
    requires 1 <= bits <= 32
    ensures -Pow2(bits - 1) <= v < Pow2(bits - 1) ==> Wrap(Wrap(v, 32), bits) == v
  {
    if -Pow2(bits - 1) <= v < Pow2(bits - 1) {
      Pow2Monotone(bits - 1, 31);
    }
  }

  lemma {:induction false} Pow2Monotone(a: nat, b: nat)
    requires a <= b
    ensures Pow2(a) <= Pow2(b)
  {
    if a < b {
      Pow2Monotone(a, b - 1);
    }
  }
}
