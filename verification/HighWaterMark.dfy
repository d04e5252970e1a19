/** The leader's commission: a rate on the profit above the high water mark. */
module HighWaterMark {
  import opened Wrappers
  import opened Decimals

  /** A signed decimal: its absolute value must fit. */
  function FitSigned(atoms: int): Result<int, DecimalError> {
    if Abs(atoms) <= MAX_ATOMS then Ok(atoms) else Err(Overflow)
  }

  /** Net profit so far and the highest it has been. */
  datatype Mark = Mark(current: int, hwm: nat)

  const START: Mark := Mark(0, 0)

  /** The mark after one more profit or loss, and the commission on what exceeds the old mark. */
  function Assess(mark: Mark, pnl: int, rate: nat): Result<(Mark, nat), DecimalError> {
    var current :- FitSigned(mark.current + pnl);
    if current <= mark.hwm then Ok((Mark(current, mark.hwm), 0))
    else
      var commission :- CheckedMul(current - mark.hwm, rate);
      Ok((Mark(current, current), commission))
  }

  class HighWaterMark {
    var current: int
    var hwm: nat

    constructor (mark: Mark)
      ensures Value() == mark
    {
      current, hwm := mark.current, mark.hwm;
    }

    function Value(): Mark
      reads this
    {
      Mark(current, hwm)
    }

    /** `add_pnl`, updating the mark in place; an error may leave `current` written, and reverts the call. */
    method AddPnl(pnl: int, rate: nat) returns (r: Result<nat, DecimalError>)
      modifies this
      ensures r.Ok? <==> Assess(old(Value()), pnl, rate).Ok?
      ensures r.Ok? ==> (Value(), r.value) == Assess(old(Value()), pnl, rate).value
    {
      current :- FitSigned(current + pnl);
      if current <= hwm {
        return Ok(0);
      }
      var profit := current - hwm;
      hwm := current;
      r := CheckedMul(profit, rate);
    }
  }

  // ----- Any history of profits and losses -----

  /** A closed position's profit or loss, and the commission rate in force when it was assessed. */
  datatype Charge = Charge(pnl: int, rate: nat)

  function NetProfit(charges: seq<Charge>): int {
    if charges == [] then 0 else NetProfit(charges[..|charges| - 1]) + charges[|charges| - 1].pnl
  }

  /** `top` is the highest net profit at any time of the history, and at least zero. */
  ghost predicate IsHighest(charges: seq<Charge>, top: int) {
    && (forall k | 0 <= k <= |charges| :: NetProfit(charges[..k]) <= top)
    && 0 <= top
    && (top == 0 || exists k | 0 <= k <= |charges| :: NetProfit(charges[..k]) == top)
  }

  datatype Ledger = Ledger(mark: Mark, commission: nat, highs: nat)

  const NEW_LEDGER: Ledger := Ledger(START, 0, 0)

  function AssessNext(ledger: Ledger, charge: Charge): Result<Ledger, DecimalError> {
    var step :- Assess(ledger.mark, charge.pnl, charge.rate);
    Ok(Ledger(step.0, ledger.commission + step.1, ledger.highs + if step.0.hwm > ledger.mark.hwm then 1 else 0))
  }

  /** All commission assessed on a history from the default mark, and how often the mark rose. */
  function AssessAll(charges: seq<Charge>): Result<Ledger, DecimalError> {
    if charges == [] then Ok(NEW_LEDGER)
    else
      var before :- AssessAll(charges[..|charges| - 1]);
      AssessNext(before, charges[|charges| - 1])
  }

  lemma HighestStep(charges: seq<Charge>, last: Charge, top: int)
    requires IsHighest(charges, top)
    ensures IsHighest(charges + [last], Max(top, NetProfit(charges + [last])))
  {
    var all := charges + [last];
    assert all[..|all| - 1] == charges && all[..|all|] == all;
    forall k | 0 <= k <= |all|
      ensures NetProfit(all[..k]) <= Max(top, NetProfit(all))
    {
      if k <= |charges| {
        assert all[..k] == charges[..k];
      }
    }
    if top != 0 && top >= NetProfit(all) {
      var k :| 0 <= k <= |charges| && NetProfit(charges[..k]) == top;
      assert all[..k] == charges[..k];
    }
  }

  /** The mark is the running net profit with its highest value, which the profit never exceeds. */
  lemma {:induction false} MarkIsHighest(charges: seq<Charge>)
    requires AssessAll(charges).Ok?
    ensures var mark := AssessAll(charges).value.mark;
            && mark.current == NetProfit(charges)
            && IsHighest(charges, mark.hwm)
            && mark.current <= mark.hwm
  {
    if charges == [] {
    } else {
      var before := charges[..|charges| - 1];
      MarkIsHighest(before);
      HighestStep(before, charges[|charges| - 1], AssessAll(before).value.mark.hwm);
      assert before + [charges[|charges| - 1]] == charges;
    }
  }

  /** Every rate of the history lies within these bounds; a fixed rate is both of them. */
  ghost predicate RatesWithin(charges: seq<Charge>, least: nat, most: nat) {
    forall i | 0 <= i < |charges| :: least <= charges[i].rate <= most
  }

  /** The commission lies between the two rates on the mark, short of the lower by less than one atom for
      each rise. */
  ghost predicate Charged(commission: nat, hwm: nat, highs: nat, least: nat, most: nat) {
    && commission * ONE <= most * hwm
    && least * hwm <= commission * ONE + highs * (ONE - 1)
  }

  lemma CommissionStep(commission: nat, hwm: nat, highs: nat, profit: nat, rate: nat, least: nat, most: nat)
    requires Charged(commission, hwm, highs, least, most)
    requires least <= rate <= most
    ensures Charged(commission + MulFloor(profit, rate), hwm + profit, highs + 1, least, most)
  {
    FloorDivBounds(profit * rate, ONE);
    MulGap(most, rate, profit);
    MulGap(rate, least, profit);
    assert most * (hwm + profit) == most * hwm + most * profit;
    assert least * (hwm + profit) == least * hwm + least * profit;
  }

  /** No profit is charged twice: over any history the commission is the rate on the highest profit, between
      the least and the greatest rate in force, and short of it by less than one atom for each new high. */
  lemma {:induction false} CommissionIsRateOnHighest(charges: seq<Charge>, least: nat, most: nat)
    requires AssessAll(charges).Ok? && RatesWithin(charges, least, most)
    ensures var ledger := AssessAll(charges).value;
            Charged(ledger.commission, ledger.mark.hwm, ledger.highs, least, most)
  {
    if charges == [] {
    } else {
      var before := charges[..|charges| - 1];
      CommissionIsRateOnHighest(before, least, most);
      var ledger := AssessAll(before).value;
      var after := AssessAll(charges).value;
      if after.mark.hwm > ledger.mark.hwm {
        CommissionStep(ledger.commission, ledger.mark.hwm, ledger.highs, after.mark.hwm - ledger.mark.hwm,
                       charges[|charges| - 1].rate, least, most);
      }
    }
  }

  /** A commission is charged only on a closing profit, so the profit of a charged position is never negative. */
  lemma ChargedProfitIsPositive(mark: Mark, pnl: int, rate: nat)
    requires mark.current <= mark.hwm
    requires Assess(mark, pnl, rate).Ok?
    ensures Assess(mark, pnl, rate).value.1 > 0 ==> pnl > 0
    ensures Assess(mark, pnl, rate).value.1 * ONE <= Max(pnl, 0) * rate
    ensures Assess(mark, pnl, rate).value.0.current <= Assess(mark, pnl, rate).value.0.hwm
  {
    var after := Assess(mark, pnl, rate).value;
    if after.0.hwm > mark.hwm {
      var profit := after.0.current - mark.hwm;
      FloorDivBounds(profit * rate, ONE);
      MulGap(pnl, profit, rate);
    }
  }
}
