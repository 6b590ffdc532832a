/** Small shared vocabulary: optional values, identifiers, Java integer arithmetic and
    the lookup every Java enum's `fromString` performs. */
module Common {

  datatype Option<T> = None | Some(value: T)

  /** A UUID. In the Go services the zero value plays the role of `uuid.Nil`. */
  type Uuid = nat

  const NilUuid: Uuid := 0

  /** A 32-bit Java `int`, such as the value of `UUID.hashCode()`. */
  type Int32 = x: int | -0x8000_0000 <= x < 0x8000_0000

  const Int32Min: Int32 := -0x8000_0000

  /** Java's `/` on integers (and `Duration.toMinutes`/`toHours`): division truncated toward
      zero. */
  function JavaDiv(a: int, b: int): (q: int)
    requires b > 0
    ensures a >= 0 ==> q * b <= a < q * b + b
    ensures a < 0 ==> q * b - b < a <= q * b
  {
    if a >= 0 then a / b else -((-a) / b)
  }

  /** Java's `%` on integers: what is left after truncating division, so it takes the
      sign of the dividend. */
  function JavaRem(a: int, b: int): (r: int)
    requires b > 0
    ensures a >= 0 ==> 0 <= r < b
    ensures a < 0 ==> -b < r <= 0
  {
    a - JavaDiv(a, b) * b
  }

  /** Java's `Math.abs` on an `int`: the magnitude, except that `Integer.MIN_VALUE` has no
      positive counterpart and comes back unchanged. */
  function JavaAbs(x: Int32): (r: Int32)
    ensures x == Int32Min ==> r == Int32Min
    ensures x != Int32Min ==> r >= 0 && (r == x || r == -x)
  {
    if x == Int32Min then x else if x < 0 then -x else x
  }

  /** The first constant of an enum (listed in declaration order in `all`) whose string value
      is `v`; `None` where Java's `fromString` throws `IllegalArgumentException`. */
  function FindByValue<T>(all: seq<T>, value: T -> string, v: string): (r: Option<T>)
    ensures r.Some? ==> r.value in all && value(r.value) == v
    ensures r.None? ==> forall x :: x in all ==> value(x) != v
  {
    if all == [] then None
    else if value(all[0]) == v then Some(all[0])
    else
      FindByValue(all[1..], value, v)
  }
}
