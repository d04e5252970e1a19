/** The countertrade search in exact arithmetic: bisecting the falling funding curve reaches every
    target within tolerance of an attainable rate, as fast as the curve's slope allows, and no other. */
module RealSearch {
  import opened Wrappers
  import opened FundingCurve
  import opened Reals

  const EPSILON: real := 0.00001

  function Pow2(n: nat): (p: real)
    ensures p >= 1.0
  {
    if n == 0 then 1.0 else 2.0 * Pow2(n - 1)
  }

  lemma PowStep(n: nat)
    ensures Pow2(n + 1) == 2.0 * Pow2(n)
  {
  }

  type Curve = real -> real

  /** Between two shares the curve does not rise, and falls at most `slope` times the step. */
  ghost predicate FallsBetween(curve: Curve, slope: real, a: real, b: real) {
    0.0 <= curve(a) - curve(b) <= slope * (b - a)
  }

  /** Positive short of balance, zero there, and falling everywhere up to it. */
  ghost predicate Falling(curve: Curve, slope: real) {
    && curve(0.5) == 0.0
    && (forall a: real :: 0.0 <= a < 0.5 ==> curve(a) > 0.0)
    && (forall a: real, b: real {:trigger FallsBetween(curve, slope, a, b)} ::
          0.0 <= a <= b <= 0.5 ==> FallsBetween(curve, slope, a, b))
  }

  lemma FundingCurveFalls(shape: Shape)
    requires shape.Valid()
    ensures Falling(CurveOf(shape), shape.Lipschitz())
  {
    FallsBy(shape, shape.Lipschitz());
  }

  lemma FallsBy(shape: Shape, slope: real)
    requires shape.Valid()
    requires 2.0 * shape.sensitivity <= slope && 4.0 * shape.steepness <= slope
    ensures Falling(CurveOf(shape), slope)
  {
    var curve := CurveOf(shape);
    CurveAtBalance(shape);
    forall a: real | 0.0 <= a < 0.5 ensures curve(a) > 0.0 {
      CurvePositive(shape, a);
    }
    forall a: real, b: real | 0.0 <= a <= b <= 0.5 ensures FallsBetween(curve, slope, a, b) {
      FallsAt(shape, slope, a, b);
    }
  }

  lemma FallsAt(shape: Shape, slope: real, a: real, b: real)
    requires shape.Valid()
    requires 2.0 * shape.sensitivity <= slope && 4.0 * shape.steepness <= slope
    requires 0.0 <= a <= b <= 0.5
    ensures FallsBetween(CurveOf(shape), slope, a, b)
  {
    CurveDrop(shape, slope, a, b);
  }

  // ----- The bracket -----

  /** The attainable rate nearest to the target. */
  function Nearest(curve: Curve, start: real, target: real): real {
    if target < 0.0 then 0.0 else if target < curve(start) then target else curve(start)
  }

  /** The tolerance left once the target has been moved into reach: positive exactly when some share
      between the start and balance has a rate close enough to the target. */
  function Slack(curve: Curve, start: real, target: real): real {
    EPSILON - AbsReal(target - Nearest(curve, start, target))
  }

  /** The bracket holds the attainable rate nearest to the target and has been halved `n` times. */
  ghost predicate Bracket(curve: Curve, start: real, target: real, low: real, high: real, n: nat) {
    && 0.0 <= start <= low < high <= 0.5
    && (high - low) * Pow2(n) == 0.5 - start
    && curve(low) >= Nearest(curve, start, target) >= curve(high)
  }

  /** After `n` halvings the most the curve can still fall exceeds the slack. */
  ghost predicate Wide(curve: Curve, slope: real, start: real, target: real, n: nat) {
    Affords(slope * (0.5 - start), Slack(curve, start, target), n)
  }

  ghost predicate Affords(fall: real, slack: real, n: nat) {
    slack * Pow2(n) <= fall
  }

  /** Keeping the half on the target's side keeps the bracket. */
  lemma HalveBracket(curve: Curve, slope: real, start: real, target: real, low: real, high: real, n: nat)
    requires Falling(curve, slope)
    requires Bracket(curve, start, target, low, high, n)
    ensures var mid := (low + high) / 2.0;
            if curve(mid) > target then Bracket(curve, start, target, mid, high, n + 1)
            else Bracket(curve, start, target, low, mid, n + 1)
  {
    var mid := (low + high) / 2.0;
    assert curve(mid) > 0.0 && FallsBetween(curve, slope, start, mid);
    HalfWidth(low, high, mid, Pow2(n));
  }

  lemma HalfWidth(low: real, high: real, mid: real, p: real)
    requires mid == (low + high) / 2.0
    ensures (high - mid) * (2.0 * p) == (high - low) * p
    ensures (mid - low) * (2.0 * p) == (high - low) * p
  {
    assert 2.0 * (high - mid) == high - low && 2.0 * (mid - low) == high - low;
  }

  /** A rejected middle: the curve falls by at least the slack over half the bracket. */
  lemma RejectedDrop(curve: Curve, slope: real, start: real, target: real, low: real, high: real, mid: real)
    requires Falling(curve, slope)
    requires 0.0 <= low < high <= 0.5 && mid == (low + high) / 2.0
    requires curve(low) >= Nearest(curve, start, target) >= curve(high)
    requires AbsReal(curve(mid) - target) >= EPSILON
    ensures Slack(curve, start, target) <= slope * (mid - low)
  {
    assert FallsBetween(curve, slope, low, mid) && FallsBetween(curve, slope, mid, high);
    MiddleWithin(curve, slope, low, high, mid, slope * (mid - low));
    SlackBelowDrop(curve, start, target, low, high, mid, slope * (mid - low));
  }

  /** The halvings so far have not yet used up the slack. */
  lemma RejectionCosts(curve: Curve, slope: real, start: real, target: real, low: real, high: real, n: nat)
    requires Falling(curve, slope)
    requires Bracket(curve, start, target, low, high, n)
    requires AbsReal(curve((low + high) / 2.0) - target) >= EPSILON
    ensures Wide(curve, slope, start, target, n + 1)
  {
    hide Falling, Nearest, Slack, AbsReal, Pow2;
    var mid := (low + high) / 2.0;
    RejectedDrop(curve, slope, start, target, low, high, mid);
    HalfWidth(low, high, mid, Pow2(n));
    PowStep(n);
    SpendSlack(Slack(curve, start, target), slope, mid - low, slope * (mid - low), 0.5 - start, n + 1);
  }

  lemma SlackBelowDrop(curve: Curve, start: real, target: real, low: real, high: real, mid: real, drop: real)
    requires curve(low) >= Nearest(curve, start, target) >= curve(high)
    requires 0.0 <= curve(low) - curve(mid) <= drop && 0.0 <= curve(mid) - curve(high) <= drop
    requires AbsReal(curve(mid) - target) >= EPSILON
    ensures Slack(curve, start, target) <= drop
  {
  }

  lemma MiddleWithin(curve: Curve, slope: real, low: real, high: real, mid: real, drop: real)
    requires mid == (low + high) / 2.0
    requires drop == slope * (mid - low)
    requires FallsBetween(curve, slope, low, mid) && FallsBetween(curve, slope, mid, high)
    ensures 0.0 <= curve(low) - curve(mid) <= drop
    ensures 0.0 <= curve(mid) - curve(high) <= drop
  {
    assert high - mid == mid - low;
  }

  lemma SpendSlack(slack: real, slope: real, half: real, drop: real, width: real, n: nat)
    requires slack <= drop == slope * half
    requires half * Pow2(n) == width
    ensures Affords(slope * width, slack, n)
  {
    ScaleLe(slack, drop, Pow2(n));
    Regroup(slope, half, Pow2(n));
  }

  /** An accepted share leaves slack: the target was within reach all along. */
  lemma AcceptanceNeedsSlack(curve: Curve, slope: real, start: real, target: real, ratio: real)
    requires Falling(curve, slope)
    requires 0.0 <= start <= ratio < 0.5
    requires AbsReal(curve(ratio) - target) < EPSILON
    ensures Slack(curve, start, target) > 0.0
  {
    assert curve(ratio) > 0.0 && FallsBetween(curve, slope, start, ratio);
  }

  // ----- The search -----

  /** One probe. The contract's assertions on the desired interest and on the signs of the two rates
      hold, and so the branch for an interest already past the probe is never taken. */
  method Probe(popular: real, unpopular: real, ratio: real, config: RealConfig) returns (desired: real, rate: real)
    requires config.Valid()
    requires 0.0 <= unpopular < popular
    requires 0.0 <= Share(popular, unpopular) <= ratio < 0.5 && 0.0 < ratio
    ensures 0.0 < desired < popular && unpopular <= desired
    ensures rate == ContractRate(popular, desired, config) == CurveOf(ShapeOf(popular, config))(ratio)
    ensures rate > 0.0
  {
    desired := Desired(popular, ratio);
    DesiredTotals(popular, ratio);
    DesiredOfShare(popular, unpopular);
    DesiredGrows(popular, Share(popular, unpopular), ratio);
    RateIsCurve(popular, ratio, config);
    ShapeOfValid(popular, config);
    CurvePositive(ShapeOf(popular, config), ratio);
    rate := ContractRate(popular, desired, config);
  }

  /** How long a search takes: only a target in reach is found; every round but the last, and on failure
      every round, was short of what the curve's slope asks for. */
  ghost predicate Effort(curve: Curve, slope: real, start: real, target: real,
                         found: bool, rounds: nat, allowedIterations: nat)
  {
    && rounds >= 1
    && (rounds > 1 ==> Wide(curve, slope, start, target, rounds - 1))
    && (found ==> Slack(curve, start, target) > 0.0)
    && (!found ==>
          && rounds == (if allowedIterations == 0 then 1 else allowedIterations)
          && Wide(curve, slope, start, target, rounds))
  }

  /** A market's search: its effort, and a success that lands on the target without flipping the market. */
  ghost predicate Outcome(popular: real, unpopular: real, target: real, config: RealConfig,
                          r: Option<real>, rounds: nat, allowedIterations: nat)
    requires config.Valid()
    requires 0.0 <= unpopular < popular
  {
    && Effort(CurveOf(ShapeOf(popular, config)), ShapeOf(popular, config).Lipschitz(),
              Share(popular, unpopular), target, r.Some?, rounds, allowedIterations)
    && (r.Some? ==>
          && 0.0 <= r.value
          && 0.0 < unpopular + r.value < popular
          && AbsReal(ContractRate(popular, unpopular + r.value, config) - target) < EPSILON)
  }

  /** `smart_search` in exact arithmetic. */
  method Search(popular: real, unpopular: real, target: real, config: RealConfig, allowedIterations: nat)
    returns (r: Option<real>, rounds: nat)
    requires config.Valid()
    requires 0.0 <= unpopular < popular
    ensures Outcome(popular, unpopular, target, config, r, rounds, allowedIterations)
  {
    var start := Share(popular, unpopular);
    ghost var curve, slope := CurveOf(ShapeOf(popular, config)), ShapeOf(popular, config).Lipschitz();
    ShapeOfValid(popular, config);
    FundingCurveFalls(ShapeOf(popular, config));
    DesiredOfShare(popular, unpopular);
    var low, high := start, 0.5;
    rounds := 0;
    while true
      invariant Falling(curve, slope)
      invariant Bracket(curve, start, target, low, high, rounds)
      invariant rounds > 0 ==> rounds < allowedIterations && Wide(curve, slope, start, target, rounds)
      decreases allowedIterations + 1 - rounds
    {
      var ratio := (low + high) / 2.0;
      var desired, rate := Probe(popular, unpopular, ratio, config);
      if AbsReal(rate - target) < EPSILON {
        AcceptanceNeedsSlack(curve, slope, start, target, ratio);
        return Some(desired - unpopular), rounds + 1;
      }
      HalveBracket(curve, slope, start, target, low, high, rounds);
      RejectionCosts(curve, slope, start, target, low, high, rounds);
      rounds := rounds + 1;
      if rounds >= allowedIterations {
        return None, rounds;
      } else if rate > target {
        low := ratio;
      } else {
        high := ratio;
      }
    }
  }

  lemma {:induction false} Pow2Grows(n: nat, m: nat)
    requires n <= m
    ensures Pow2(n) <= Pow2(m)
    decreases m - n
  {
    if n < m {
      Pow2Grows(n + 1, m);
    }
  }

  lemma {:induction false} Pow2Exceeds(n: nat)
    ensures Pow2(n) > n as real
  {
    if n > 0 {
      Pow2Exceeds(n - 1);
    }
  }

  lemma NarrowStays(fall: real, slack: real, n: nat, m: nat)
    requires fall >= 0.0
    requires n <= m
    requires Affords(fall, slack, m)
    ensures Affords(fall, slack, n)
  {
    Pow2Grows(n, m);
    if slack >= 0.0 {
      ScaleLe(Pow2(n), Pow2(m), slack);
    } else {
      ProductPositive(-slack, Pow2(n));
    }
  }

  /** Once `n` rounds make the bracket narrow, any limit of at least `n` lets the search succeed by then. */
  lemma SucceedsOnceNarrow(curve: Curve, slope: real, start: real, target: real,
                           found: bool, rounds: nat, allowedIterations: nat, n: nat)
    requires slope >= 0.0 && start <= 0.5
    requires Effort(curve, slope, start, target, found, rounds, allowedIterations)
    requires 0 < n <= allowedIterations
    requires !Wide(curve, slope, start, target, n)
    ensures found && rounds <= n
  {
    var fall, slack := slope * (0.5 - start), Slack(curve, start, target);
    ProductPositive(slope, 0.5 - start);
    if !found {
      NarrowStays(fall, slack, n, rounds);
    } else if rounds > n {
      NarrowStays(fall, slack, n, rounds - 1);
    }
  }

  /** Positive slack is used up after finitely many halvings. */
  lemma NarrowEventually(fall: real, slack: real) returns (n: nat)
    requires fall >= 0.0
    requires slack > 0.0
    ensures n > 0 && !Affords(fall, slack, n)
  {
    var needed := fall / slack;
    assert needed * slack == fall;
    ProductPositive(fall, 1.0 / slack);
    assert fall / slack == fall * (1.0 / slack);
    n := needed.Floor + 1;
    Pow2Exceeds(n);
    ScaleLt(needed, Pow2(n), slack);
  }

  /** The exact condition: a search succeeds under every large enough iteration limit if and only if
      the target lies within EPSILON of a rate attainable between the starting share and balance. */
  lemma ReachedIffInReach(curve: Curve, slope: real, start: real, target: real) returns (n: nat)
    requires slope >= 0.0 && start <= 0.5
    ensures forall found: bool, rounds: nat, allowedIterations: nat ::
              allowedIterations >= n && Effort(curve, slope, start, target, found, rounds, allowedIterations) ==>
              (found <==> Slack(curve, start, target) > 0.0)
  {
    n := 1;
    if Slack(curve, start, target) > 0.0 {
      ProductPositive(slope, 0.5 - start);
      n := NarrowEventually(slope * (0.5 - start), Slack(curve, start, target));
      forall found: bool, rounds: nat, allowedIterations: nat |
        allowedIterations >= n && Effort(curve, slope, start, target, found, rounds, allowedIterations)
        ensures found
      {
        SucceedsOnceNarrow(curve, slope, start, target, found, rounds, allowedIterations, n);
      }
    }
  }
}
