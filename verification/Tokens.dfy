/** Token amounts on the chain: decimals that the bank can only move in whole token units. */
module Tokens {
  import opened Wrappers
  import opened Decimals

  /** Atoms per token unit: 10^(18 - decimal places). */
  type Unit = u: nat | 0 < u witness 1

  const MAX_UNITS: nat := 0xffffffff_ffffffff_ffffffff_ffffffff

  /** `Token::round_down_to_precision`, without the width check. */
  function RoundDown(amount: nat, unit: Unit): nat {
    FloorDiv(amount, unit) * unit
  }

  lemma RoundDownBounds(amount: nat, unit: Unit)
    ensures 0 <= RoundDown(amount, unit) <= amount < RoundDown(amount, unit) + unit
  {
    FloorDivBounds(amount, unit);
  }

  /** `Token::into_transfer_msg`: the atoms that arrive. An amount below one unit moves nothing (`None`);
      one beyond 128 bits of units is an error. */
  function Transfer(amount: nat, unit: Unit): Result<Option<nat>, DecimalError> {
    RoundDownBounds(amount, unit);
    if FloorDiv(amount, unit) > MAX_UNITS then Err(Overflow)
    else if FloorDiv(amount, unit) == 0 then Ok(None)
    else Ok(Some(RoundDown(amount, unit)))
  }

  /** Rounding down leaves out the remainder. */
  lemma WholeUnits(amount: nat, unit: Unit)
    ensures RoundDown(amount, unit) == amount - amount % unit
  {
  }

  /** A transfer moves the whole units of the amount, all but its remainder, and moves something exactly if the
      amount reaches one unit; it fails exactly for more units than 128 bits hold. */
  lemma TransferKeepsDust(amount: nat, unit: Unit)
    ensures Transfer(amount, unit).Ok? <==> amount < (MAX_UNITS + 1) * unit
    ensures Transfer(amount, unit).Ok? ==>
              var moved := Transfer(amount, unit).value;
              && (moved.Some? <==> unit <= amount)
              && (moved.Some? ==> moved.value == amount - amount % unit)
              && (moved.Some? ==> 0 < moved.value <= amount < moved.value + unit)
  {
    RoundDownBounds(amount, unit);
    FloorDivBounds(amount, unit);
    WholeUnits(amount, unit);
    var units := FloorDiv(amount, unit);
    if units > 0 {
      MulGap(units, 1, unit);
    }
    if units > MAX_UNITS {
      MulGap(units, MAX_UNITS + 1, unit);
    } else {
      MulGap(MAX_UNITS + 1, units + 1, unit);
      MulGap(units + 1, units, unit);
    }
  }
}
