/**
 * Property values of a map feature and the cross-encoding equality the
 * filter evaluator compares them with.
 */
module Values {

  /** A signed 64-bit integer (`int64_t`). */
  newtype Int64 = x: int | -0x8000_0000_0000_0000 <= x < 0x8000_0000_0000_0000

  /** An unsigned 64-bit integer (`uint64_t`). */
  newtype UInt64 = x: int | 0 <= x < 0x1_0000_0000_0000_0000

  /**
   * A property value, one variant per alternative of the property value
   * variant: boolean, signed and unsigned 64-bit integers, a floating
   * number (modelled as an exact real) and a string.
   */
  datatype Value =
    | Bool(b: bool)
    | Int(i: Int64)
    | UInt(u: UInt64)
    | Double(d: real)
    | String(s: string)

  /** Integers and doubles are numbers; booleans are not. */
  predicate IsNumber(v: Value) {
    v.Int? || v.UInt? || v.Double?
  }

  /** The mathematical value of a number, whatever its encoding. */
  function NumericValue(v: Value): real
    requires IsNumber(v)
  {
    match v
    case Int(i) => i as real
    case UInt(u) => u as real
    case Double(d) => d
  }

  /**
   * The reference notion of "the same value": all numbers collapse to their
   * mathematical value, while booleans and strings stay distinct kinds.
   */
  datatype Canon = Boolean(b: bool) | Number(r: real) | Text(s: string)

  function Canonical(v: Value): Canon {
    match v
    case Bool(b) => Boolean(b)
    case String(s) => Text(s)
    case _ => Number(NumericValue(v))
  }

  /**
   * Equality as the evaluator applies it: two values of the same
   * alternative compare directly, two numbers of any encodings compare by
   * value, and every other pairing is unequal.
   */
  function Equal(a: Value, b: Value): (r: bool)
    ensures r <==> Canonical(a) == Canonical(b)
  {
    if a.Bool? && b.Bool? then a.b == b.b
    else if a.String? && b.String? then a.s == b.s
    else IsNumber(a) && IsNumber(b) && NumericValue(a) == NumericValue(b)
  }

  /** `Equal` is an equivalence relation, so `==` filters behave as equality. */
  lemma EqualIsEquivalence(a: Value, b: Value, c: Value)
    ensures Equal(a, a)
    ensures Equal(a, b) == Equal(b, a)
    ensures Equal(a, b) && Equal(b, c) ==> Equal(a, c)
  {
  }

  /** Numbers compare by value: the encoding never decides equality. */
  lemma NumericEqualityIgnoresEncoding(a: Value, b: Value)
    requires IsNumber(a) && IsNumber(b)
    ensures Equal(a, b) <==> NumericValue(a) == NumericValue(b)
  {
  }

  /** The same integer in all three numeric encodings is one value. */
  lemma SameNumberInEveryEncoding(n: int)
    requires 0 <= n < 0x8000_0000_0000_0000
    ensures Equal(Int(n as Int64), UInt(n as UInt64))
    ensures Equal(Int(n as Int64), Double(n as real))
    ensures Equal(UInt(n as UInt64), Double(n as real))
  {
  }

  /** A number never equals a string or a boolean, in either order. */
  lemma NumberNeverEqualsStringOrBool(n: Value, w: Value)
    requires IsNumber(n)
    requires w.String? || w.Bool?
    ensures !Equal(n, w) && !Equal(w, n)
  {
  }
}
