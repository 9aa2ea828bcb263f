/** Machine integer ranges and the small wrapper types shared by every module. */
module Common {

  /** Unsigned integer widths of the Rust source (`u8`, `u16`, `u32`). */
  type uint8 = x: int | 0 <= x < 0x100
  type uint16 = x: int | 0 <= x < 0x1_0000
  type uint32 = x: int | 0 <= x < 0x1_0000_0000

  const UINT32_MAX: uint32 := 0xFFFF_FFFF

  datatype Option<+T> = None | Some(value: T) {
    function GetOr(default: T): T {
      match this
      case Some(v) => v
      case None => default
    }
  }

  /** `Err` stands for a Rust `assert!` that aborts the program. */
  datatype Result<+T, +E> = Ok(value: T) | Err(error: E)

  function Min(a: int, b: int): int {
    if a <= b then a else b
  }
}

/** Facts about multiplication and rounded-down division that the solver does not
    find on its own when the divisor is not a constant. */
module Arith {

  lemma DivBounds(x: nat, d: nat)
    requires d > 0
    ensures (x / d) * d <= x < (x / d) * d + d
  {
  }

  lemma DivLe(x: nat, d: nat)
    requires d > 0
    ensures x / d <= x
  {
    var q := x / d;
    DivBounds(x, d);
    MulLe(1, d, q);
    assert 1 * q == q && d * q == q * d;
  }

  /** Rounded-down quotient, with the facts about it that callers need. */
  function Quotient(x: nat, d: nat): (q: nat)
    requires d > 0
    ensures q * d <= x < q * d + d
    ensures q <= x
  {
    DivBounds(x, d);
    DivLe(x, d);
    x / d
  }

  lemma MulLe(a: nat, b: nat, d: nat)
    requires a <= b
    ensures a * d <= b * d
  {
    assert b * d == a * d + (b - a) * d;
  }

  /** The quotient is the only `q` with `x == d * q + rem` and `0 <= rem < d`. */
  lemma DivUnique(x: nat, d: nat, q: nat, rem: nat)
    requires d > 0 && x == d * q + rem && rem < d
    ensures x / d == q
  {
    var k := x / d;
    DivBounds(x, d);
    if k < q {
      MulLe(k + 1, q, d);
    } else if k > q {
      MulLe(q + 1, k, d);
    }
  }

  lemma DivAtLeast(x: nat, d: nat, m: nat)
    requires d > 0
    ensures x / d >= m <==> x >= m * d
  {
    DivBounds(x, d);
    if x / d >= m {
      MulLe(m, x / d, d);
    } else {
      MulLe(x / d + 1, m, d);
    }
  }

  /** The quotient capped at `cap`: below the cap it is the rounded-down quotient, and
      it reaches the cap exactly when `x >= cap * d`. */
  function SaturatedQuotient(x: nat, d: nat, cap: nat): (r: nat)
    requires d > 0
    ensures r <= cap
    ensures r < cap ==> r * d <= x < r * d + d
    ensures r == cap <==> x >= cap * d
  {
    DivBounds(x, d);
    DivAtLeast(x, d, cap);
    if x / d <= cap then x / d else cap
  }

  /** Dividing twice, rounding down each time, is one division by the product. */
  lemma DivDiv(x: nat, a: nat, b: nat)
    requires a > 0 && b > 0
    ensures x / a / b == x / (a * b)
  {
    var q := x / a;
    var r := q / b;
    DivBounds(x, a);
    DivBounds(q, b);
    var r1 := x - q * a;
    var r2 := q - r * b;
    assert x == a * q + r1;
    assert q == b * r + r2;
    MulLe(r2, b - 1, a);
    assert a * q == (a * b) * r + a * r2;
    assert a * (b - 1) + a == a * b;
    DivUnique(x, a * b, r, a * r2 + r1);
  }
}
