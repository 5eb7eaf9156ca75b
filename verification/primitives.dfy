/** Runtime primitives the value objects are built from: the C# integer types
    with their unchecked (wrapping) arithmetic, the opaque library value types
    (Guid, decimal, DateTime, string), the boxed form a field value takes when
    it is read through reflection, and the hash code each boxed value reports. */
module Primitives {

  datatype Option<+T> = None | Some(value: T)

  const TwoTo32: int := 0x1_0000_0000

  /** C# `int`. */
  newtype int32 = x: int | -0x8000_0000 <= x < 0x8000_0000

  /** C# `long`. */
  newtype int64 = x: int | -0x8000_0000_0000_0000 <= x < 0x8000_0000_0000_0000

  /** The low 32 bits of `x` read as a two's-complement `int`: what an unchecked
      C# `int` expression yields when the exact result does not fit. */
  function Wrap32(x: int): (r: int32)
    ensures (r as int - x) % TwoTo32 == 0
    ensures -0x8000_0000 <= x < 0x8000_0000 ==> r as int == x
  {
    var m := x % TwoTo32;
    if m < 0x8000_0000 then m as int32 else (m - TwoTo32) as int32
  }

  /** System.Guid: a 128-bit value compared bit for bit. */
  datatype Guid = Guid(bits: bv128)

  /** Guid.Empty, the value of an `Id` field nobody assigned. */
  const EmptyGuid: Guid := Guid(0)

  /** System.DateTime, opaque: two values are equal when they have the same ticks
      (`DateTime.Equals` ignores the `Kind`). */
  datatype DateTime = DateTime(ticks: int)

  /** System.Decimal, opaque: `token` stands for the numeric value, so that
      numerically equal decimals are the same token. */
  datatype Decimal = Decimal(token: int)

  /** A non-null field value as `FieldInfo.GetValue` returns it (boxed). A
      nullable field without a value boxes to null, written `None` by callers. */
  datatype Boxed =
    | BoxedInt(i: int32)
    | BoxedDecimal(d: Decimal)
    | BoxedString(s: string)
    | BoxedDateTime(t: DateTime)

  /** `value.Equals(other)` for a boxed `value` and a possibly null `other`:
      the types must agree and so must the values; null is never equal. */
  predicate BoxedEquals(value: Boxed, other: Option<Boxed>)
  {
    other.Some? && other.value == value
  }

  /** The hash code a boxed value reports. `Int32.GetHashCode` is the value
      itself; the hash codes of strings (randomised per process), decimals and
      date-times are stood in for by fixed functions of their value, which is
      all the equality engine relies on. */
  function HashCodeOf(b: Boxed): int32
  {
    match b
    case BoxedInt(i) => i
    case BoxedDecimal(d) => Wrap32(d.token)
    case BoxedString(s) => StringHash(s)
    case BoxedDateTime(t) => Wrap32(t.ticks)
  }

  /** Stand-in for the process-wide string hash: any fixed function of the characters. */
  function StringHash(s: string): int32
  {
    if s == [] then 0 else Wrap32(StringHash(s[..|s| - 1]) as int * 31 + s[|s| - 1] as int)
  }

  /** Upper-casing of one character, for the letters a to z. */
  function UpperChar(c: char): char
  {
    if 'a' <= c <= 'z' then (c as int - 'a' as int + 'A' as int) as char else c
  }

  predicate IsUpper(s: string)
  {
    forall i :: 0 <= i < |s| ==> !('a' <= s[i] <= 'z')
  }

  /** `String.ToUpper()`, restricted to the letters a to z (it is only applied to
      the literals "DKK" and "USD"). */
  function ToUpper(s: string): (r: string)
    ensures |r| == |s|
    ensures IsUpper(r)
    ensures forall i :: 0 <= i < |s| ==> r[i] == UpperChar(s[i])
  {
    if s == [] then [] else [UpperChar(s[0])] + ToUpper(s[1..])
  }

  /** Upper-casing changes nothing in a string that has no lower-case letter,
      so it is idempotent. */
  lemma ToUpperOfUpper(s: string)
    requires IsUpper(s)
    ensures ToUpper(s) == s
  {
  }

  /** Lower- and upper-case spellings of a currency code normalise alike. */
  lemma CurrencyCaseInsensitive()
    ensures ToUpper("usd") == ToUpper("USD") == "USD"
    ensures ToUpper("dkk") == ToUpper("DKK") == "DKK"
  {
  }
}
