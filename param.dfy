/**
 * Parameter values and their descriptors: the value types, the value
 * ranges with their bounds and the membership test of a value in a range.
 * Single-precision floats are modelled as exact reals plus NaN.
 */
module Param {
  import opened Common

  type I32 = x: int | -0x8000_0000 <= x <= I32_MAX

  /** A 32-bit float: a number, or NaN, which is unordered. */
  datatype F32 = Num(r: real) | NaN

  datatype Direction = Input | Output

  /** `Value`; its derived ordering ranks the variants in declaration order. */
  datatype Value = Bool(b: bool) | I32(i: I32) | U32(u: U32) | F32(f: F32)

  datatype ValueType = BoolType | I32Type | U32Type | F32Type

  function TypeOf(v: Value): ValueType
  {
    match v
    case Bool(_) => BoolType
    case I32(_) => I32Type
    case U32(_) => U32Type
    case F32(_) => F32Type
  }

  datatype Ordering = Less | Equal | Greater

  function Compare(a: int, b: int): (r: Ordering)
    ensures r == Less <==> a < b
    ensures r == Equal <==> a == b
    ensures r == Greater <==> a > b
  {
    if a < b then Less else if a == b then Equal else Greater
  }

  function CompareReal(a: real, b: real): (r: Ordering)
    ensures r == Less <==> a < b
    ensures r == Equal <==> a == b
    ensures r == Greater <==> a > b
  {
    if a < b then Less else if a == b then Equal else Greater
  }

  function Rank(v: Value): nat
  {
    match v
    case Bool(_) => 0
    case I32(_) => 1
    case U32(_) => 2
    case F32(_) => 3
  }

  function BoolToInt(b: bool): int
  {
    if b then 1 else 0
  }

  /**
   * The derived `partial_cmp` of `Value`: values of different variants
   * are ordered by variant, values of one variant by their contents;
   * only a NaN makes two values incomparable.
   */
  function PartialCmp(a: Value, b: Value): (r: Option<Ordering>)
    ensures r.None? <==> a.F32? && b.F32? && (a.f.NaN? || b.f.NaN?)
    ensures Rank(a) != Rank(b) ==> r == Some(Compare(Rank(a), Rank(b)))
  {
    if Rank(a) != Rank(b) then Some(Compare(Rank(a), Rank(b)))
    else match (a, b)
      case (Bool(x), Bool(y)) => Some(Compare(BoolToInt(x), BoolToInt(y)))
      case (I32(x), I32(y)) => Some(Compare(x, y))
      case (U32(x), U32(y)) => Some(Compare(x, y))
      case (F32(x), F32(y)) =>
        if x.NaN? || y.NaN? then None else Some(CompareReal(x.r, y.r))
  }

  /** Equality of values as `PartialEq` sees it: a NaN equals nothing. */
  predicate ValueEq(a: Value, b: Value)
  {
    PartialCmp(a, b) == Some(Equal)
  }

  /** A value holds no NaN. */
  predicate IsNumber(v: Value)
  {
    !(v.F32? && v.f.NaN?)
  }

  lemma ValueEqIsEqualityOnNumbers(a: Value, b: Value)
    requires IsNumber(a) && IsNumber(b)
    ensures ValueEq(a, b) <==> a == b
  {
  }

  datatype Bound = Unbounded | Included(v: Value) | Excluded(v: Value)

  predicate BoundEq(a: Bound, b: Bound)
  {
    match (a, b)
    case (Unbounded, Unbounded) => true
    case (Included(x), Included(y)) => ValueEq(x, y)
    case (Excluded(x), Excluded(y)) => ValueEq(x, y)
    case _ => false
  }

  datatype ValueRangeDescriptor = ValueRangeDescriptor(min: Bound, max: Bound)

  /** `ValueRangeDescriptor::unbounded`, which is also the default range. */
  function UnboundedRange(): (r: ValueRangeDescriptor)
    ensures r.min.Unbounded? && r.max.Unbounded?
  {
    ValueRangeDescriptor(Unbounded, Unbounded)
  }

  /** `ValueRangeDescriptor::default`. */
  function DefaultRange(): ValueRangeDescriptor
  {
    UnboundedRange()
  }

  lemma DefaultRangeIsUnbounded()
    ensures DefaultRange() == UnboundedRange()
  {
  }

  /** Both bounds of a bounded range have the same value type. */
  predicate BoundTypesAgree(range: ValueRangeDescriptor)
  {
    !range.min.Unbounded? && !range.max.Unbounded? ==> TypeOf(range.min.v) == TypeOf(range.max.v)
  }

  /** `ValueRangeDescriptor::value_type`: the type of a present bound, none if unbounded. */
  function RangeValueType(range: ValueRangeDescriptor): (r: Option<ValueType>)
    requires BoundTypesAgree(range)
    ensures r.None? <==> range.min.Unbounded? && range.max.Unbounded?
    ensures !range.min.Unbounded? ==> r == Some(TypeOf(range.min.v))
    ensures !range.max.Unbounded? ==> r == Some(TypeOf(range.max.v))
  {
    match (range.min, range.max)
    case (Unbounded, Unbounded) => None
    case (Included(min), Unbounded) => Some(TypeOf(min))
    case (Excluded(min), Unbounded) => Some(TypeOf(min))
    case (Unbounded, Included(max)) => Some(TypeOf(max))
    case (Unbounded, Excluded(max)) => Some(TypeOf(max))
    case (Included(min), _) => Some(TypeOf(min))
    case (Excluded(min), _) => Some(TypeOf(min))
  }

  /** The outcome of checking one bound: `Some(false)` rejects, `Some(true)` passes, `None` is incomparable. */
  function CheckMin(min: Bound, value: Value): Option<bool>
  {
    match min
    case Unbounded => Some(true)
    case Included(m) =>
      var o := PartialCmp(value, m);
      if o.None? then None else Some(o.value != Less)
    case Excluded(m) =>
      var o := PartialCmp(value, m);
      if o.None? then None else Some(o.value == Greater)
  }

  function CheckMax(max: Bound, value: Value): Option<bool>
  {
    match max
    case Unbounded => Some(true)
    case Included(m) =>
      var o := PartialCmp(value, m);
      if o.None? then None else Some(o.value != Greater)
    case Excluded(m) =>
      var o := PartialCmp(value, m);
      if o.None? then None else Some(o.value == Less)
  }

  /**
   * `contains_value` as written: the minimum is checked first, and a
   * rejection or an incomparable minimum ends the check.
   */
  function ContainsValue(range: ValueRangeDescriptor, value: Value): (r: Option<bool>)
    ensures CheckMin(range.min, value) == Some(false) ==> r == Some(false)
    ensures CheckMin(range.min, value).None? ==> r.None?
    ensures CheckMin(range.min, value) == Some(true) ==> r == CheckMax(range.max, value)
  {
    match CheckMin(range.min, value)
    case None => None
    case Some(false) => Some(false)
    case Some(true) => CheckMax(range.max, value)
  }

  /** The payload of a number value on the real line. */
  function Magnitude(v: Value): real
    requires IsNumber(v)
  {
    match v
    case Bool(b) => BoolToInt(b) as real
    case I32(i) => i as real
    case U32(u) => u as real
    case F32(f) => f.r
  }

  /** A bound of the same type as `value` that holds no NaN. */
  predicate Comparable(b: Bound, value: Value)
  {
    b.Unbounded? || (TypeOf(b.v) == TypeOf(value) && IsNumber(b.v))
  }

  predicate AboveMin(min: Bound, value: Value)
    requires IsNumber(value) && Comparable(min, value)
  {
    match min
    case Unbounded => true
    case Included(m) => Magnitude(m) <= Magnitude(value)
    case Excluded(m) => Magnitude(m) < Magnitude(value)
  }

  predicate BelowMax(max: Bound, value: Value)
    requires IsNumber(value) && Comparable(max, value)
  {
    match max
    case Unbounded => true
    case Included(m) => Magnitude(value) <= Magnitude(m)
    case Excluded(m) => Magnitude(value) < Magnitude(m)
  }

  /**
   * For a value and bounds of one type, none of them NaN, a value is in
   * the range iff it lies above an included minimum or strictly above an
   * excluded one, and likewise below the maximum.
   */
  lemma ContainsValueInRange(range: ValueRangeDescriptor, value: Value)
    requires IsNumber(value) && Comparable(range.min, value) && Comparable(range.max, value)
    ensures ContainsValue(range, value) == Some(AboveMin(range.min, value) && BelowMax(range.max, value))
  {
  }

  /** An unbounded range contains every value, NaN included. */
  lemma UnboundedContainsAll(value: Value)
    ensures ContainsValue(UnboundedRange(), value) == Some(true)
  {
  }

  /** The check is inconclusive only when a NaN takes part in a comparison. */
  lemma ContainsValueNone(range: ValueRangeDescriptor, value: Value)
    requires ContainsValue(range, value).None?
    ensures value.F32? && (value.f.NaN? || exists b | b in {range.min, range.max} :: !b.Unbounded? && b.v.F32? && b.v.f.NaN?)
  {
    if CheckMin(range.min, value).None? {
      assert range.min in {range.min, range.max};
    } else {
      assert range.max in {range.min, range.max};
    }
  }

  /**
   * As written, a value of another type than the bounds is compared by
   * its variant instead of being refused: a number lies above a boolean
   * minimum.
   */
  lemma MixedTypesCompared()
    ensures ContainsValue(ValueRangeDescriptor(Included(Bool(false)), Unbounded), I32(3)) == Some(true)
    ensures ContainsValue(ValueRangeDescriptor(Unbounded, Included(I32(10))), U32(5)) == Some(false)
  {
  }

  /** A bound that is present and of another type than the value. */
  predicate Mistyped(b: Bound, value: Value)
  {
    !b.Unbounded? && TypeOf(b.v) != TypeOf(value)
  }

  /** `contains_value` refusing, with `None`, to compare values of different types. */
  function ContainsValueCorrected(range: ValueRangeDescriptor, value: Value): (r: Option<bool>)
    ensures Mistyped(range.min, value) || Mistyped(range.max, value) ==> r.None?
  {
    if Mistyped(range.min, value) || Mistyped(range.max, value) then None
    else ContainsValue(range, value)
  }

  /**
   * Corrected, the result is `None` iff a bound has another type or a
   * comparison meets a NaN; for values and bounds of one type without
   * NaN, it is the membership in the range.
   */
  lemma ContainsValueCorrectedSpec(range: ValueRangeDescriptor, value: Value)
    ensures ContainsValueCorrected(range, value).None? <==>
              Mistyped(range.min, value) || Mistyped(range.max, value) || ContainsValue(range, value).None?
    ensures IsNumber(value) && Comparable(range.min, value) && Comparable(range.max, value) ==>
              ContainsValueCorrected(range, value) == Some(AboveMin(range.min, value) && BelowMax(range.max, value))
  {
    if IsNumber(value) && Comparable(range.min, value) && Comparable(range.max, value) {
      ContainsValueInRange(range, value);
    }
  }

  datatype ValueDescriptor = ValueDescriptor(default: Value, range: ValueRangeDescriptor)

  /** `ValueDescriptor::default`: the default value with an unbounded range. */
  function DefaultValueDescriptor(default: Value): (d: ValueDescriptor)
    ensures d.default == default && d.range == DefaultRange()
  {
    ValueDescriptor(default, UnboundedRange())
  }

  /** `ValueDescriptor::value_type`: the type of the default value. */
  function DescriptorValueType(d: ValueDescriptor): (t: ValueType)
    ensures t == BoolType <==> d.default.Bool?
    ensures t == I32Type <==> d.default.I32?
    ensures t == U32Type <==> d.default.U32?
    ensures t == F32Type <==> d.default.F32?
  {
    TypeOf(d.default)
  }

  /** A default descriptor has the type of its value and an untyped, unbounded range. */
  lemma DefaultValueDescriptorType(v: Value)
    ensures DescriptorValueType(DefaultValueDescriptor(v)) == TypeOf(v)
    ensures RangeValueType(DefaultValueDescriptor(v).range).None?
    ensures forall x :: ContainsValue(DefaultValueDescriptor(v).range, x) == Some(true)
  {
  }

  datatype Descriptor = Descriptor(name: string, unit: Option<string>, direction: Direction, value: ValueDescriptor)

  /** The derived `PartialEq` of descriptors, under which a NaN equals nothing. */
  predicate DescriptorEq(a: Descriptor, b: Descriptor)
  {
    && a.name == b.name && a.unit == b.unit && a.direction == b.direction
    && ValueEq(a.value.default, b.value.default)
    && BoundEq(a.value.range.min, b.value.range.min)
    && BoundEq(a.value.range.max, b.value.range.max)
  }

  predicate BoundIsNumber(b: Bound)
  {
    b.Unbounded? || IsNumber(b.v)
  }

  /** A descriptor equals itself iff none of its values is NaN. */
  lemma DescriptorEqReflexive(d: Descriptor)
    ensures DescriptorEq(d, d) <==>
              IsNumber(d.value.default) && BoundIsNumber(d.value.range.min) && BoundIsNumber(d.value.range.max)
  {
  }

  /** Stable, permanent parameter address. */
  type Address = string
}
