/** The parts of C integer arithmetic the driver depends on: division that
    truncates toward zero, unsigned wrap-around, and two's-complement fields. */
module CInt {

  type byte = x: int | 0 <= x < 256
  type uint32 = x: int | 0 <= x < 0x1_0000_0000

  const INT_MAX := 0x7FFF_FFFF
  const ERANGE := 34

  /** The value fits a 32-bit signed int, so the C expression is defined. */
  predicate FitsInt(x: int) {
    -INT_MAX - 1 <= x <= INT_MAX
  }

  /** Conversion to uint32_t. */
  function U32(x: int): uint32 {
    x % 0x1_0000_0000
  }

  /** Conversion to uint8_t. */
  function U8(x: int): byte {
    x % 256
  }

  /** Conversion to char, which is signed on some targets and unsigned on others. */
  function Char(x: int, charSigned: bool): int {
    if charSigned && U8(x) >= 128 then U8(x) - 256 else U8(x)
  }

  /** The C operator `/` for a positive divisor. */
  function TruncDiv(a: int, b: int): int
    requires b > 0
  {
    if a >= 0 then a / b else -((-a) / b)
  }

  /** The C operator `%` for a positive divisor. */
  function TruncMod(a: int, b: int): int
    requires b > 0
  {
    a - b * TruncDiv(a, b)
  }

  function Min(a: int, b: int): int {
    if a < b then a else b
  }

  lemma MulMono(a: int, b: int, c: int)
    requires a <= b && 0 <= c
    ensures a * c <= b * c
  {
  }

  /** Euclidean quotients are pinned by the products around them. */
  lemma DivIs(a: int, b: int, q: int)
    requires b > 0 && q * b <= a < (q + 1) * b
    ensures a / b == q
  {
    if a / b < q {
      MulMono(a / b + 1, q, b);
    } else if a / b > q {
      MulMono(q + 1, a / b, b);
    }
  }

  lemma DivBelow(a: int, b: int, k: int)
    requires b > 0 && a < k * b
    ensures a / b < k
  {
    if a / b >= k {
      MulMono(k, a / b, b);
    }
  }

  lemma DivAtLeast(a: int, b: int, k: int)
    requires b > 0 && k * b <= a
    ensures k <= a / b
  {
    if a / b < k {
      MulMono(a / b + 1, k, b);
    }
  }

  lemma DivBelowIff(a: int, b: int, k: int)
    requires b > 0
    ensures a / b < k <==> a < k * b
  {
    if a < k * b { DivBelow(a, b, k); } else { DivAtLeast(a, b, k); }
  }

  /** How a truncated quotient compares with a limit, for either sign. */
  lemma TruncDivBounds(a: int, b: int, lo: int, hi: int)
    requires b > 0 && lo <= 0 <= hi
    ensures TruncDiv(a, b) <= hi <==> a < (hi + 1) * b
    ensures lo <= TruncDiv(a, b) <==> (lo - 1) * b < a
  {
    if a >= 0 {
      DivBelowIff(a, b, hi + 1);
      DivAtLeast(a, b, 0);
      MulMono(lo - 1, -1, b);
    } else {
      DivBelowIff(-a, b, 1 - lo);
      DivAtLeast(-a, b, 0);
      MulMono(1, hi + 1, b);
      MulNeg(lo - 1, b);
    }
  }

  lemma MulNeg(a: int, b: int)
    ensures (-a) * b == -(a * b)
  {
  }

  lemma TruncDivMono(a1: int, a2: int, b: int)
    requires b > 0 && a1 <= a2
    ensures TruncDiv(a1, b) <= TruncDiv(a2, b)
  {
    if a1 >= 0 {
      DivAtLeast(a2, b, a1 / b);
    } else if a2 < 0 {
      DivAtLeast(-a1, b, (-a2) / b);
    } else {
      DivAtLeast(-a1, b, 0);
      DivAtLeast(a2, b, 0);
    }
  }
}
