/** The countertrade contract's search for the unpopular open interest that brings the popular
    side's annual funding rate to a target, in the contract's own fixed-point arithmetic. */
module SmartSearch {
  import opened Wrappers
  import opened Decimals

  /** The market parameters the rate depends on; `dnfSensitivity` and `dnfCap` are the delta
      neutrality fee's. */
  datatype FundingConfig = FundingConfig(
    sensitivity: nat,
    maxAnnualized: nat,
    dnfSensitivity: nat,
    dnfCap: nat)

  datatype RateError = Arithmetic(cause: DecimalError) | AssertionFailed

  datatype SearchError = NoRate(reason: RateError) | IterationLimit

  const HALF: nat := ONE / 2
  /** 0.00001 */
  const EPSILON: nat := 10_000_000_000_000
  const TWO: nat := 2 * ONE

  function Lift<T>(r: Result<T, DecimalError>): Result<T, RateError> {
    match r
    case Ok(v) => Ok(v)
    case Err(e) => Err(Arithmetic(e))
  }

  // ----- The funding rate -----

  function EffectiveSensitivity(total: nat, config: FundingConfig): Result<nat, RateError> {
    var highCap :- Lift(CheckedMul(config.dnfSensitivity, config.dnfCap));
    var scaled :- Lift(CheckedMul(config.maxAnnualized, total));
    var fromDeltaNeutrality :- Lift(CheckedDiv(scaled, highCap));
    Ok(Max(config.sensitivity, fromDeltaNeutrality))
  }

  /** The popular side's rate when both sides hold interest and differ. */
  function PopularRate(longs: nat, shorts: nat, total: nat, config: FundingConfig): Result<nat, RateError> {
    var sensitivity :- EffectiveSensitivity(total, config);
    var imbalance :- Lift(CheckedDiv(Abs(longs - shorts), total));
    var uncapped :- Lift(CheckedMul(sensitivity, imbalance));
    Ok(Min(uncapped, config.maxAnnualized))
  }

  /** The popular side's annual rate: zero in a one-sided market, and a failed assertion when both
      sides hold interest yet either side's rate comes out as zero. */
  function DeriveRate(popular: nat, unpopular: nat, config: FundingConfig): Result<nat, RateError> {
    var total :- Lift(CheckedAdd(popular, unpopular));
    var _ :- EffectiveSensitivity(total, config);
    if popular == 0 || unpopular == 0 then Ok(0)
    else if popular == unpopular then Err(AssertionFailed)
    else
      var rate :- PopularRate(popular, unpopular, total, config);
      var larger, smaller := Max(popular, unpopular), Min(popular, unpopular);
      var leverage :- Lift(CheckedDiv(larger, smaller));
      var received :- Lift(CheckedMul(rate, leverage));
      if popular < unpopular || rate == 0 || received == 0 then Err(AssertionFailed) else Ok(rate)
  }

  // ----- One probe of the search -----

  /** The unpopular interest a probe asks for, and the rate it would bring. */
  datatype Probe = Probe(desired: nat, rate: nat)

  type Curve = nat -> Result<Probe, RateError>

  /** The unpopular interest that makes up share `ratio` of the market. */
  function DesiredUnpopular(popular: nat, ratio: nat): Result<nat, RateError> {
    var part :- Lift(CheckedMul(ratio, popular));
    var rest :- Lift(CheckedSub(ONE, ratio));
    Lift(CheckedDiv(part, rest))
  }

  function ProbeAt(popular: nat, ratio: nat, config: FundingConfig): Result<Probe, RateError> {
    var desired :- DesiredUnpopular(popular, ratio);
    if popular < desired then Err(AssertionFailed)
    else
      var rate :- DeriveRate(popular, desired, config);
      Ok(Probe(desired, rate))
  }

  /** The market seen from its popular side. */
  function MarketCurve(popular: nat, config: FundingConfig): Curve {
    (ratio: nat) => ProbeAt(popular, ratio, config)
  }

  /** A share of at most one half never asks for more than the popular side holds, so the assertion
      that guards a probe never fires inside the search. */
  lemma DesiredAtMostPopular(popular: nat, ratio: nat)
    requires ratio <= HALF
    ensures DesiredUnpopular(popular, ratio).Ok? ==> DesiredUnpopular(popular, ratio).value <= popular
  {
    if DesiredUnpopular(popular, ratio).Ok? {
      FloorDivBounds(ratio * popular, ONE);
      PartOfRest(popular, ratio, MulFloor(ratio, popular));
    }
  }

  lemma PartOfRest(popular: nat, ratio: nat, part: nat)
    requires ratio <= HALF && part * ONE <= ratio * popular
    ensures DivFloor(part, ONE - ratio) <= popular
  {
    var rest := ONE - ratio;
    MulGap(HALF, ratio, popular);
    MulGap(rest, HALF, popular);
    assert part * ONE <= HALF * popular <= rest * popular;
    Commute(rest, popular);
    FloorDivLe(part * ONE, rest, popular);
  }

  lemma Commute(a: int, b: int)
    ensures a * b == b * a
  {
  }

  /** A curve whose probes never ask for more than `popular` up to one half. */
  ghost predicate Bounded(curve: Curve, popular: nat) {
    forall ratio: nat :: ratio <= HALF && curve(ratio).Ok? ==> curve(ratio).value.desired <= popular
  }

  // ----- The search -----

  /** A probe the search passes over: it asks for more interest than there is, at a rate off target. */
  ghost predicate Rejected(curve: Curve, unpopular: nat, target: int, ratio: nat) {
    && curve(ratio).Ok?
    && unpopular <= curve(ratio).value.desired
    && Abs(curve(ratio).value.rate - target) >= EPSILON
  }

  /** What the two ends of the bracket record: each is where the search began or a rejected probe
      whose rate lies on its own side of the target. */
  ghost predicate Bracket(curve: Curve, unpopular: nat, target: int, start: nat, low: nat, high: nat) {
    && start <= low <= high <= HALF
    && (low == start || (Rejected(curve, unpopular, target, low) && curve(low).value.rate > target))
    && (high == HALF || (Rejected(curve, unpopular, target, high) && curve(high).value.rate <= target))
  }

  function Pow2(n: nat): (p: nat)
    ensures p > 0
  {
    if n == 0 then 1 else 2 * Pow2(n - 1)
  }

  /** A width reached by `n` halvings, each rounded by at most one atom. */
  ghost predicate Halved(width0: int, width: int, n: nat)
    decreases n, 1
  {
    if n == 0 then width == width0
    else exists before: int :: HalvedBefore(width0, before, width, n)
  }

  ghost predicate HalvedBefore(width0: int, before: int, width: int, n: nat)
    requires n > 0
    decreases n, 0
  {
    Halved(width0, before, n - 1) && 2 * width <= before + 1
  }

  /** After `n` halvings the width is that fraction of the first, up to one atom. */
  ghost predicate Narrowed(width0: int, width: int, n: nat) {
    Pow2(n) * (width - 1) <= width0 - 1
  }

  lemma {:induction false} HalvedNarrows(width0: int, width: int, n: nat)
    requires Halved(width0, width, n)
    ensures Narrowed(width0, width, n)
    decreases n
  {
    if n > 0 {
      var before :| HalvedBefore(width0, before, width, n);
      HalvedNarrows(width0, before, n - 1);
      NarrowStep(width0, before, width, Pow2(n - 1));
      assert Pow2(n) == 2 * Pow2(n - 1);
    }
  }

  lemma NarrowStep(width0: int, before: int, width: int, power: nat)
    requires power * (before - 1) <= width0 - 1 && 2 * width <= before + 1
    ensures 2 * power * (width - 1) <= width0 - 1
  {
    MulGap(before - 1, 2 * (width - 1), power);
    Commute(before - 1, power);
    Double(power, width - 1);
  }

  lemma Double(a: int, b: int)
    ensures 2 * b * a == 2 * a * b
  {
  }

  /** The accepted answers: an interest already past the probe asks for nothing; otherwise the answer
      moves the unpopular side to a probe whose rate is within EPSILON of the target. */
  ghost predicate Accepted(curve: Curve, unpopular: nat, target: int, start: nat, ratio: nat, delta: nat) {
    && start <= ratio <= HALF
    && curve(ratio).Ok?
    && var probe := curve(ratio).value;
    if probe.desired < unpopular then delta == 0
    else unpopular + delta == probe.desired && Abs(probe.rate - target) < EPSILON
  }

  ghost predicate Found(curve: Curve, unpopular: nat, target: int, start: nat, delta: nat) {
    exists ratio: nat :: Accepted(curve, unpopular, target, start, ratio, delta)
  }

  /** A bracket around the target that `probes` probes have halved, whose middle is rejected too. */
  ghost predicate Bracketed(curve: Curve, unpopular: nat, target: int, start: nat, probes: nat) {
    exists low: nat, high: nat ::
      && Bracket(curve, unpopular, target, start, low, high)
      && Narrowed(HALF - start, high - low, probes)
      && Rejected(curve, unpopular, target, (low + high) / 2)
  }

  /** Why a probe aborts the search: its own failure, or a distance to the target too wide for a decimal. */
  ghost predicate Unusable(curve: Curve, target: int, ratio: nat, e: RateError) {
    match curve(ratio)
    case Err(own) => own == e
    case Ok(probe) => Lift(CheckedDistance(probe.rate, target)) == Err(e)
  }

  ghost predicate Aborted(curve: Curve, target: int, start: nat, e: RateError) {
    exists ratio: nat :: start <= ratio <= HALF && Unusable(curve, target, ratio, e)
  }

  lemma GaveUp(curve: Curve, unpopular: nat, target: int, start: nat, low: nat, high: nat, probes: nat)
    requires Bracket(curve, unpopular, target, start, low, high)
    requires Halved(HALF - start, high - low, probes)
    requires Rejected(curve, unpopular, target, (low + high) / 2)
    ensures Bracketed(curve, unpopular, target, start, probes)
  {
    HalvedNarrows(HALF - start, high - low, probes);
  }

  /** Everything a finished search promises, whichever way it ended. */
  ghost predicate Outcome(curve: Curve, popular: nat, unpopular: nat, target: int, start: nat, allowedIterations: nat,
                          r: Result<nat, SearchError>, rounds: nat)
  {
    // The loop ends in time; with a limit that fits a u8 its u8 counter never wraps.
    && rounds <= Max(1, allowedIterations)
    && match r
       // The answer never makes the unpopular side the popular one.
       case Ok(delta) => unpopular + delta <= popular && Found(curve, unpopular, target, start, delta)
       case Err(NoRate(reason)) => Aborted(curve, target, start, reason)
       // Giving up leaves a bracket around the target that every probe but the last has halved.
       case Err(IterationLimit) =>
         && rounds == Max(1, allowedIterations)
         && Bracketed(curve, unpopular, target, start, rounds - 1)
  }

  /** The bisection loop, from the share `start` already held. `rounds` counts the probes. */
  method Bisect(curve: Curve, popular: nat, unpopular: nat, target: int, start: nat, allowedIterations: nat)
    returns (r: Result<nat, SearchError>, rounds: nat)
    requires Bounded(curve, popular)
    requires unpopular <= popular
    requires start <= HALF
    ensures Outcome(curve, popular, unpopular, target, start, allowedIterations, r, rounds)
  {
    rounds := 0;
    var low, high := start, HALF;
    while true
      invariant Bracket(curve, unpopular, target, start, low, high)
      invariant Halved(HALF - start, high - low, rounds)
      invariant rounds == 0 || rounds < allowedIterations
      decreases Max(1, allowedIterations) - rounds
    {
      ghost var probed := rounds;
      rounds := rounds + 1;
      var ratio := (low + high) / 2;
      if curve(ratio).Err? {
        assert Unusable(curve, target, ratio, curve(ratio).error);
        return Err(NoRate(curve(ratio).error)), rounds;
      }
      var probe := curve(ratio).value;
      var difference := Lift(CheckedDistance(probe.rate, target));
      if difference.Err? {
        assert Unusable(curve, target, ratio, difference.error);
        return Err(NoRate(difference.error)), rounds;
      } else if probe.desired < unpopular {
        assert Accepted(curve, unpopular, target, start, ratio, 0);
        return Ok(0), rounds;
      } else if difference.value < EPSILON {
        assert Accepted(curve, unpopular, target, start, ratio, probe.desired - unpopular);
        return Ok(probe.desired - unpopular), rounds;
      } else if rounds >= allowedIterations {
        GaveUp(curve, unpopular, target, start, low, high, probed);
        return Err(IterationLimit), rounds;
      }
      ghost var width := high - low;
      if probe.rate > target {
        low := ratio;
      } else {
        high := ratio;
      }
      assert HalvedBefore(HALF - start, width, high - low, rounds);
    }
  }

  /** The checked sum and quotient that take the middle of the bracket never fail. */
  lemma Midpoint(low: nat, high: nat)
    requires low <= high <= HALF
    ensures CheckedAdd(high, low) == Ok(high + low)
    ensures CheckedDiv(high + low, TWO) == Ok((high + low) / 2)
  {
  }

  /** The share the unpopular side already holds. */
  function StartRatio(popular: nat, unpopular: nat): nat
    requires popular + unpopular > 0
  {
    DivFloor(unpopular, popular + unpopular)
  }

  lemma StartAtMostHalf(unpopular: nat, popular: nat)
    requires unpopular <= popular
    requires popular > 0
    ensures StartRatio(popular, unpopular) <= HALF
    ensures CheckedDiv(unpopular, popular + unpopular) == Ok(StartRatio(popular, unpopular))
  {
    HalfShare(unpopular * ONE, popular + unpopular);
  }

  lemma HalfShare(part: nat, whole: nat)
    requires whole > 0 && part <= HALF * whole
    ensures FloorDiv(part, whole) <= HALF
  {
    FloorDivLe(part, whole, HALF);
  }

  lemma MarketCurveBounded(popular: nat, config: FundingConfig)
    ensures Bounded(MarketCurve(popular, config), popular)
  {
    forall ratio: nat | ratio <= HALF && MarketCurve(popular, config)(ratio).Ok?
      ensures MarketCurve(popular, config)(ratio).value.desired <= popular
    {
      DesiredAtMostPopular(popular, ratio);
    }
  }

  /** `smart_search`: how much interest to add to the unpopular side. */
  method Search(long: nat, short: nat, target: int, config: FundingConfig, allowedIterations: nat)
    returns (r: Result<nat, SearchError>, rounds: nat)
    requires allowedIterations <= 255
    ensures long == 0 && short == 0 ==> r == Ok(0) && rounds == 0
    ensures long + short > MAX_ATOMS ==> r == Err(NoRate(Arithmetic(Overflow)))
    ensures 0 < long + short <= MAX_ATOMS ==>
              Outcome(MarketCurve(Max(long, short), config), Max(long, short), Min(long, short), target,
                      StartRatio(Max(long, short), Min(long, short)), allowedIterations, r, rounds)
  {
    rounds := 0;
    var popular, unpopular := if long > short then long else short, if long > short then short else long;
    if unpopular == 0 && popular == 0 {
      return Ok(0), 0;
    }
    var total := Lift(CheckedAdd(popular, unpopular));
    if total.Err? {
      return Err(NoRate(total.error)), 0;
    }
    var start := StartRatio(popular, unpopular);
    StartAtMostHalf(unpopular, popular);
    MarketCurveBounded(popular, config);
    r, rounds := Bisect(MarketCurve(popular, config), popular, unpopular, target, start, allowedIterations);
  }

  // ----- The position the contract aims for -----

  /** The contract's open position, seen from the notional side it stands on. */
  datatype Position = Position(isLong: bool, size: nat)

  /** One side's interest without the contract's own position. */
  function Without(interest: nat, own: Option<Position>, isLong: bool): Result<nat, DecimalError> {
    match own
    case Some(p) => CheckedSub(interest, if p.isLong == isLong then p.size else 0)
    case None => Ok(interest)
  }

  /** The contract's own position is taken off the side it stands on, and off no other. */
  lemma OwnIsTakenOff(long: nat, short: nat, own: Position)
    ensures var others := (Without(long, Some(own), true), Without(short, Some(own), false));
            var (same, other) := if own.isLong then (long, short) else (short, long);
            var (less, rest) := if own.isLong then others else (others.1, others.0);
            && (less.Ok? <==> own.size <= same <= MAX_ATOMS + own.size) && (less.Ok? ==> less.value + own.size == same)
            && (rest.Ok? <==> other <= MAX_ATOMS) && (rest.Ok? ==> rest.value == other)
  {
  }

  /** `determine_target_notional`: the signed size the contract's position should have. It is what the search asks
      for in the market without the contract, on the side that is unpopular there, and never outgrows the other
      side; it fails only where the market without the contract, or the search in it, does. */
  method TargetNotional(long: nat, short: nat, target: int, config: FundingConfig,
                        allowedIterations: nat, own: Option<Position>)
    returns (r: Result<int, SearchError>, ghost rounds: nat)
    requires allowedIterations <= 255
    ensures r.Ok? ==> Without(long, own, true).Ok? && Without(short, own, false).Ok?
    ensures Without(long, own, true).Ok? && Without(short, own, false).Ok? ==>
              var others := (Without(long, own, true).value, Without(short, own, false).value);
              var popular, unpopular := Max(others.0, others.1), Min(others.0, others.1);
              && (r.Ok? && others.0 < others.1 ==> 0 <= r.value && others.0 + r.value <= others.1)
              && (r.Ok? && others.0 >= others.1 ==> r.value <= 0 && others.1 - r.value <= others.0)
              && (popular == 0 ==> r == Ok(0))
              && (popular + unpopular > MAX_ATOMS ==> r.Err?)
              && (0 < popular + unpopular <= MAX_ATOMS ==>
                    Outcome(MarketCurve(popular, config), popular, unpopular, target, StartRatio(popular, unpopular),
                            allowedIterations, if r.Ok? then Ok(Abs(r.value)) else Err(r.error), rounds))
  {
    rounds := 0;
    var otherLong, otherShort := Lift(Without(long, own, true)), Lift(Without(short, own, false));
    if otherLong.Err? {
      return Err(NoRate(otherLong.error)), 0;
    } else if otherShort.Err? {
      return Err(NoRate(otherShort.error)), 0;
    }
    var others: (nat, nat) := (otherLong.value, otherShort.value);
    var desired, probes := Search(others.0, others.1, target, config, allowedIterations);
    if desired.Err? {
      return Err(desired.error), probes;
    }
    var size: int := desired.value;
    return Ok(if others.0 < others.1 then size else -size), probes;
  }

  /** A derived rate is zero exactly in a one-sided market; otherwise the popular side really is the
      larger one and the rate lies between zero and the annual cap. */
  lemma RateRange(popular: nat, unpopular: nat, config: FundingConfig)
    requires DeriveRate(popular, unpopular, config).Ok?
    ensures var rate := DeriveRate(popular, unpopular, config).value;
            if popular == 0 || unpopular == 0 then rate == 0
            else unpopular < popular && 0 < rate <= config.maxAnnualized
  {
  }

  // ----- When the assertion on the rate's sign fails -----

  /** The larger side's rate before its cap: the sensitivity times that side's lead, both rounded down. */
  function Uncapped(popular: nat, unpopular: nat, sensitivity: nat): nat
    requires popular + unpopular > 0
  {
    MulFloor(sensitivity, DivFloor(Abs(popular - unpopular), popular + unpopular))
  }

  function Leverage(popular: nat, unpopular: nat): nat
    requires popular > 0 && unpopular > 0
  {
    DivFloor(Max(popular, unpopular), Min(popular, unpopular))
  }

  /** For every input: the assertion on the sign of the rates fails if and only if both sides hold interest, the
      amounts the rates are derived from fit, and the two sides are level, or the side called popular is the
      smaller one, or its rate rounds to zero. The other side's rate never rounds to zero unless this one does. */
  lemma SignAssertionFails(popular: nat, unpopular: nat, config: FundingConfig)
    ensures DeriveRate(popular, unpopular, config) == Err(AssertionFailed) <==>
              && 0 < popular && 0 < unpopular && popular + unpopular <= MAX_ATOMS
              && EffectiveSensitivity(popular + unpopular, config).Ok?
              && var sensitivity := EffectiveSensitivity(popular + unpopular, config).value;
              var uncapped, leverage := Uncapped(popular, unpopular, sensitivity), Leverage(popular, unpopular);
              var rate := Min(uncapped, config.maxAnnualized);
              (|| popular == unpopular
               || (&& uncapped <= MAX_ATOMS && leverage <= MAX_ATOMS && MulFloor(rate, leverage) <= MAX_ATOMS
                   && (popular < unpopular || rate == 0)))
  {
    var total := popular + unpopular;
    NoSensitivityFails(total, config);
    if 0 < popular && 0 < unpopular && total <= MAX_ATOMS && EffectiveSensitivity(total, config).Ok? {
      hide EffectiveSensitivity, DivFloor, MulFloor;
      var uncapped := Uncapped(popular, unpopular, EffectiveSensitivity(total, config).value);
      if popular != unpopular {
        LeadFits(popular, unpopular);
        LeverageAtLeastOne(Max(popular, unpopular), Min(popular, unpopular));
        ReceivedKeepsRate(Min(uncapped, config.maxAnnualized), Leverage(popular, unpopular));
      }
    }
  }

  /** For every input: a rate is derived if and only if the amounts it is derived from fit and either a side holds
      nothing, or the popular one leads at a rate that does not round to zero. */
  lemma RateIsDerived(popular: nat, unpopular: nat, config: FundingConfig)
    ensures DeriveRate(popular, unpopular, config).Ok? <==>
              && popular + unpopular <= MAX_ATOMS && EffectiveSensitivity(popular + unpopular, config).Ok?
              && (popular != 0 && unpopular != 0 ==>
                    var sensitivity := EffectiveSensitivity(popular + unpopular, config).value;
                    var uncapped, leverage := Uncapped(popular, unpopular, sensitivity), Leverage(popular, unpopular);
                    var rate := Min(uncapped, config.maxAnnualized);
                    && unpopular < popular && uncapped <= MAX_ATOMS && leverage <= MAX_ATOMS
                    && MulFloor(rate, leverage) <= MAX_ATOMS && rate > 0)
  {
    var total := popular + unpopular;
    if 0 < popular && 0 < unpopular && total <= MAX_ATOMS && EffectiveSensitivity(total, config).Ok? {
      hide EffectiveSensitivity, DivFloor, MulFloor;
      var uncapped := Uncapped(popular, unpopular, EffectiveSensitivity(total, config).value);
      if popular != unpopular {
        LeadFits(popular, unpopular);
        LeverageAtLeastOne(Max(popular, unpopular), Min(popular, unpopular));
        ReceivedKeepsRate(Min(uncapped, config.maxAnnualized), Leverage(popular, unpopular));
      }
    }
  }

  /** The sensitivity exists exactly when the delta neutrality fee's does not round to zero and the amounts fit. */
  lemma SensitivityExists(total: nat, config: FundingConfig)
    ensures var high, scaled := MulFloor(config.dnfSensitivity, config.dnfCap), MulFloor(config.maxAnnualized, total);
            EffectiveSensitivity(total, config).Ok? <==>
              0 < high <= MAX_ATOMS && scaled <= MAX_ATOMS && DivFloor(scaled, high) <= MAX_ATOMS
  {
    hide MulFloor, DivFloor;
  }

  lemma NoSensitivityFails(total: nat, config: FundingConfig)
    ensures EffectiveSensitivity(total, config) != Err(AssertionFailed)
  {
  }

  lemma LeadFits(popular: nat, unpopular: nat)
    requires popular + unpopular > 0
    ensures DivFloor(Abs(popular - unpopular), popular + unpopular) <= ONE <= MAX_ATOMS
  {
    var lead, total := Abs(popular - unpopular), popular + unpopular;
    MulGap(total, lead, ONE);
    Commute(total, ONE);
    FloorDivLe(lead * ONE, total, ONE);
  }

  lemma LeverageAtLeastOne(larger: nat, smaller: nat)
    requires 0 < smaller <= larger
    ensures DivFloor(larger, smaller) >= ONE
  {
    FloorDivBounds(larger * ONE, smaller);
    MulGap(larger, smaller, ONE);
    Commute(smaller, ONE);
    CancelLt(ONE, DivFloor(larger, smaller) + 1, smaller);
  }

  /** A rate times a leverage of at least one rounds to no less than the rate. */
  lemma ReceivedKeepsRate(rate: nat, leverage: nat)
    requires leverage >= ONE
    ensures MulFloor(rate, leverage) >= rate
    ensures rate == 0 ==> MulFloor(rate, leverage) == 0
  {
    var product := rate * leverage;
    FloorDivBounds(product, ONE);
    MulGap(leverage, ONE, rate);
    Commute(rate, leverage);
    CancelLt(rate, MulFloor(rate, leverage) + 1, ONE);
  }

  /** In particular for two sides so close that the lead is less than an atom, at any sensitivity and cap. */
  lemma NearBalanceHasNoRate(popular: nat, unpopular: nat, config: FundingConfig)
    requires 0 < unpopular < popular && popular + unpopular <= MAX_ATOMS
    requires (popular - unpopular) * ONE < popular + unpopular
    requires EffectiveSensitivity(popular + unpopular, config).Ok?
    ensures DeriveRate(popular, unpopular, config) == Err(AssertionFailed)
  {
    var sensitivity := EffectiveSensitivity(popular + unpopular, config).value;
    SignAssertionFails(popular, unpopular, config);
    hide EffectiveSensitivity, DivFloor, MulFloor, DeriveRate;
    NoShare(popular - unpopular, popular + unpopular);
    NoProduct(sensitivity);
    LeverageFits(popular, unpopular);
    NoProduct(Leverage(popular, unpopular));
  }

  lemma NoShare(part: nat, whole: nat)
    requires part * ONE < whole
    ensures DivFloor(part, whole) == 0
  {
    FloorDivBounds(part * ONE, whole);
    CancelLt(DivFloor(part, whole), 1, whole);
  }

  lemma NoProduct(factor: nat)
    ensures MulFloor(factor, 0) == 0 == MulFloor(0, factor)
  {
    FloorDivBounds(0, ONE);
  }

  lemma LeverageFits(popular: nat, unpopular: nat)
    requires 0 < unpopular < popular && (popular - unpopular) * ONE < popular + unpopular
    ensures Leverage(popular, unpopular) <= 2 * ONE <= MAX_ATOMS
  {
    assert popular < 2 * unpopular;
    FloorDivLe(popular * ONE, unpopular, 2 * ONE);
  }

  /** A lead of an atom is lost too, when the sensitivity is a tenth. */
  lemma SmallSensitivityHasNoRate()
    ensures var popular, unpopular := ONE + 3, ONE;
            && (popular - unpopular) * ONE >= popular + unpopular
            && DeriveRate(popular, unpopular, FundingConfig(ONE / 10, ONE, 1_000_000 * ONE, ONE))
               == Err(AssertionFailed)
  {
    var config := FundingConfig(ONE / 10, ONE, 1_000_000 * ONE, ONE);
    assert EffectiveSensitivity(2 * ONE + 3, config) == Ok(ONE / 10);
    assert DivFloor(3, 2 * ONE + 3) == 1 && MulFloor(ONE / 10, 1) == 0;
    assert DivFloor(ONE + 3, ONE) == ONE + 3;
    NoProduct(ONE + 3);
    SignAssertionFails(ONE + 3, ONE, config);
  }

  /** In the search itself: a probe up to one half fails an assertion if and only if the interest it asks for is a
      decimal at which the rate's assertion fails. */
  lemma ProbeAssertionFails(popular: nat, ratio: nat, config: FundingConfig)
    requires ratio <= HALF
    ensures ProbeAt(popular, ratio, config) == Err(AssertionFailed) <==>
              && DesiredUnpopular(popular, ratio).Ok?
              && DeriveRate(popular, DesiredUnpopular(popular, ratio).value, config) == Err(AssertionFailed)
  {
    DesiredAtMostPopular(popular, ratio);
  }
}
