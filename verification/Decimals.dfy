/** `Decimal256`: a natural number of atoms, 10^18 atoms to the unit, held in 256 bits.
    Multiplication and division round down; a result wider than 256 bits is an error. */
module Decimals {
  import opened Wrappers

  const ONE: nat := 1_000_000_000_000_000_000
  const MAX_ATOMS: nat := 0xffffffff_ffffffff_ffffffff_ffffffff_ffffffff_ffffffff_ffffffff_ffffffff

  datatype DecimalError = Overflow | DivideByZero

  function Fit(atoms: int): Result<nat, DecimalError> {
    if 0 <= atoms <= MAX_ATOMS then Ok(atoms) else Err(Overflow)
  }

  function Max(a: int, b: int): int {
    if a < b then b else a
  }

  function Min(a: int, b: int): int {
    if a < b then a else b
  }

  function Abs(a: int): nat {
    if a < 0 then -a else a
  }

  function FloorDiv(n: nat, d: nat): nat
    requires d > 0
  {
    n / d
  }

  function MulFloor(a: nat, b: nat): nat {
    FloorDiv(a * b, ONE)
  }

  function DivFloor(a: nat, b: nat): nat
    requires b > 0
  {
    FloorDiv(a * ONE, b)
  }

  /** The two bounds that define division rounding down. */
  lemma FloorDivBounds(n: nat, d: nat)
    requires d > 0
    ensures FloorDiv(n, d) * d <= n < FloorDiv(n, d) * d + d
  {
  }

  function CheckedAdd(a: nat, b: nat): Result<nat, DecimalError> {
    Fit(a + b)
  }

  function CheckedSub(a: nat, b: nat): Result<nat, DecimalError> {
    Fit(a - b)
  }

  function CheckedMul(a: nat, b: nat): Result<nat, DecimalError> {
    Fit(MulFloor(a, b))
  }

  function CheckedDiv(a: nat, b: nat): Result<nat, DecimalError> {
    if b == 0 then Err(DivideByZero) else Fit(DivFloor(a, b))
  }

  /** The absolute value of a difference of signed decimals, as `Number::checked_sub` then `abs_unsigned`. */
  function CheckedDistance(a: int, b: int): Result<nat, DecimalError> {
    Fit(Abs(a - b))
  }

  lemma MulNonNegative(a: int, b: int)
    requires a >= 0 && b >= 0
    ensures a * b >= 0
  {
  }

  lemma MulGap(a: int, b: int, c: int)
    requires a >= b
    requires c >= 0
    ensures a * c == b * c + (a - b) * c >= b * c
    ensures a > b ==> a * c >= b * c + c
  {
    var d := a - b;
    assert (b + d) * c == b * c + d * c;
    MulNonNegative(d, c);
    if d > 0 {
      MulNonNegative(d - 1, c);
      assert (d - 1 + 1) * c == (d - 1) * c + c;
    }
  }

  /** Cancels a positive common factor of an inequality between products. */
  lemma CancelLe(a: int, b: int, c: int)
    requires c > 0
    requires a * c <= b * c
    ensures a <= b
  {
    if a > b {
      MulGap(a, b, c);
      assert false;
    }
  }

  lemma CancelLt(a: int, b: int, c: int)
    requires c > 0
    requires a * c < b * c
    ensures a < b
  {
    if a >= b {
      MulGap(a, b, c);
      assert false;
    }
  }

  lemma FloorDivLe(n: nat, d: nat, bound: nat)
    requires d > 0
    requires n <= bound * d
    ensures FloorDiv(n, d) <= bound
  {
    FloorDivBounds(n, d);
    CancelLe(FloorDiv(n, d), bound, d);
  }
}
