/**
 * Java's fixed-width integer and character types as ranges of Dafny's unbounded `int`,
 * and the two's-complement wrap-around of 32-bit `int` arithmetic.
 */
module JavaTypes {

  const TWO_8: int := 0x100
  const TWO_16: int := 0x1_0000
  const TWO_30: int := 0x4000_0000
  const TWO_31: int := 0x8000_0000
  const TWO_32: int := 0x1_0000_0000

  /** Java `byte` as stored in a stream or buffer: the unsigned octet 0..255. */
  type Byte = x: int | 0 <= x < 0x100

  /** Java `short`. */
  type Short = x: int | -0x8000 <= x < 0x8000

  /** Java `int`. */
  type Int32 = x: int | -0x8000_0000 <= x < 0x8000_0000

  /** A Java `char`: one UTF-16 code unit. */
  type CodeUnit = x: int | 0 <= x < 0x1_0000

  /** A Java `String`: a sequence of UTF-16 code units. */
  type JString = seq<CodeUnit>

  /** The 32-bit two's-complement value of `x`, as Java `int` arithmetic leaves it. */
  function Wrap32(x: int): (r: Int32)
    ensures (r - x) % TWO_32 == 0
    ensures -TWO_31 <= x < TWO_31 ==> r == x
  {
    var m := x % TWO_32;
    if m >= TWO_31 then m - TWO_32 else m
  }

  /** Java `/` on `int` operands, before any wrap-around: the quotient rounded toward zero. */
  function JDiv(a: int, b: int): (q: int)
    requires b != 0
    ensures a >= 0 && b > 0 ==> q == a / b
  {
    if a >= 0 && b > 0 then a / b
    else
      var n := (if a < 0 then -a else a) / (if b < 0 then -b else b);
      if (a < 0) != (b < 0) then -n else n
  }

  /** Java `/` on two `int`s: the one quotient outside the range, `MIN_VALUE / -1`, wraps round to `MIN_VALUE`. */
  function IntDiv(a: Int32, b: Int32): (q: Int32)
    requires b != 0
    ensures q == Wrap32(JDiv(a, b))
    ensures a >= 0 && b > 0 ==> q == a / b
  {
    var n := JDiv(a, b);
    if n == TWO_31 then -TWO_31 else n
  }

  /** Java `%` on `int` operands: the remainder takes the sign of the dividend. */
  function JRem(a: int, b: int): (r: int)
    requires b != 0
    ensures a >= 0 && b > 0 ==> r == a % b
    ensures (a >= 0 ==> 0 <= r) && (a < 0 ==> r <= 0)
    ensures -b < r < b || b < r < -b
  {
    if a >= 0 && b > 0 then a % b
    else
      var m := (if a < 0 then -a else a) % (if b < 0 then -b else b);
      if a < 0 then -m else m
  }

  /** Quotient and remainder recompose the dividend, as the Java Language Specification requires. */
  lemma JDivRem(a: int, b: int)
    requires b != 0
    ensures JDiv(a, b) * b + JRem(a, b) == a
  {
    var A := if a < 0 then -a else a;
    var B := if b < 0 then -b else b;
    assert A == (A / B) * B + A % B;
  }

  /** Division and remainder round toward zero: -7 / 2 is -3 and -7 % 2 is -1. */
  lemma JDivRounds()
    ensures JDiv(-7, 2) == -3 && JRem(-7, 2) == -1 && JDiv(7, -2) == -3 && JRem(7, -2) == 1
  {
  }
}
