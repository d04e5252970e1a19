/** The countertrade search over the reals, where rounding is out of the way: the funding rate falls
    as the unpopular share grows, and bisecting it reaches any attainable target. */
module FundingCurve {
  import opened Reals

  /** The market parameters the rate depends on. `highCap` is the product of the delta neutrality
      fee's sensitivity and cap, both of which the contract keeps positive. */
  datatype RealConfig = RealConfig(sensitivity: real, maxAnnualized: real, highCap: real) {
    predicate Valid() {
      sensitivity >= 0.0 && maxAnnualized > 0.0 && highCap > 0.0
    }
  }

  // ----- The rate, as the contract writes it -----

  function Effective(sensitivity: real, cap: real, total: real, highCap: real): real
    requires highCap > 0.0
  {
    MaxReal(sensitivity, cap * total / highCap)
  }

  function Capped(effective: real, imbalance: real, cap: real): real {
    MinReal(effective * imbalance, cap)
  }

  /** The popular side's annual rate while both sides hold interest and differ. With no unpopular interest it is
      the limit of that rate, which the contract does not pay. */
  function Rate(popular: real, unpopular: real, config: RealConfig): real
    requires config.Valid()
    requires 0.0 <= unpopular < popular
  {
    Capped(Effective(config.sensitivity, config.maxAnnualized, popular + unpopular, config.highCap),
           (popular - unpopular) / (popular + unpopular),
           config.maxAnnualized)
  }

  /** What the contract derives: in a one-sided market nobody is paid. */
  function ContractRate(popular: real, unpopular: real, config: RealConfig): real
    requires config.Valid()
    requires 0.0 <= unpopular < popular
  {
    if unpopular == 0.0 then 0.0 else Rate(popular, unpopular, config)
  }

  /** The unpopular interest that makes up share `ratio` of the market. */
  function Desired(popular: real, ratio: real): real
    requires ratio < 1.0
  {
    ratio * popular / (1.0 - ratio)
  }

  /** The share of the market the unpopular side holds. */
  function Share(popular: real, unpopular: real): real
    requires 0.0 <= unpopular < popular
  {
    unpopular / (popular + unpopular)
  }

  // ----- The rate as a function of the share -----

  /** The rate curve of one search, in which the popular side stays put. */
  datatype Shape = Shape(sensitivity: real, steepness: real, cap: real) {
    predicate Valid() {
      sensitivity >= 0.0 && steepness > 0.0 && cap > 0.0
    }

    /** The fastest the curve falls anywhere up to one half. */
    function Lipschitz(): real {
      MaxReal(2.0 * sensitivity, 4.0 * steepness)
    }
  }

  function Steepness(cap: real, popular: real, highCap: real): real
    requires highCap > 0.0
  {
    cap * popular / highCap
  }

  function ShapeOf(popular: real, config: RealConfig): Shape
    requires config.Valid()
  {
    Shape(config.sensitivity, Steepness(config.maxAnnualized, popular, config.highCap), config.maxAnnualized)
  }

  lemma ShapeOfValid(popular: real, config: RealConfig)
    requires config.Valid()
    requires popular > 0.0
    ensures ShapeOf(popular, config).Valid()
  {
    ProductPositive(config.maxAnnualized, popular);
  }

  function FlatPart(sensitivity: real, ratio: real): real {
    sensitivity * (1.0 - 2.0 * ratio)
  }

  function SteepPart(steepness: real, ratio: real): real
    requires ratio < 1.0
  {
    steepness * (2.0 - 1.0 / (1.0 - ratio))
  }

  /** A sensitivity that falls evenly to zero at one half, one that falls ever more steeply, and a cap. */
  function Curve(shape: Shape, ratio: real): real
    requires ratio < 1.0
  {
    MinReal(MaxReal(FlatPart(shape.sensitivity, ratio), SteepPart(shape.steepness, ratio)), shape.cap)
  }

  lemma DesiredTotals(popular: real, ratio: real)
    requires popular > 0.0
    requires 0.0 <= ratio < 0.5
    ensures var u := Desired(popular, ratio);
            && 0.0 <= u < popular
            && popular + u == popular / (1.0 - ratio)
            && (popular - u) / (popular + u) == 1.0 - 2.0 * ratio
    ensures ratio > 0.0 ==> Desired(popular, ratio) > 0.0
  {
    var rest := 1.0 - ratio;
    var u := Desired(popular, ratio);
    assert u * rest == ratio * popular;
    ProductPositive(ratio, popular);
    assert (popular + u) * rest == popular;
    assert (popular - u) * rest == popular * (1.0 - 2.0 * ratio);
    ProductPositive(popular, 1.0 - 2.0 * ratio);
    assert (popular - u) * rest == ((popular + u) * (1.0 - 2.0 * ratio)) * rest;
    QuotientIs(popular - u, popular + u, 1.0 - 2.0 * ratio);
  }

  /** The larger of two slopes times one non-negative factor is the larger of the two products. */
  lemma MaxScales(a: real, b: real, c: real)
    requires c >= 0.0
    ensures MaxReal(a, b) * c == MaxReal(a * c, b * c)
  {
    if a < b {
      ScaleLe(a, b, c);
    } else {
      ScaleLe(b, a, c);
    }
  }

  /** The rate at a share is the curve's value: both branches of the rate fall with the share. */
  lemma RateIsCurve(popular: real, ratio: real, config: RealConfig)
    requires config.Valid()
    requires popular > 0.0
    requires 0.0 <= ratio < 0.5
    ensures 0.0 <= Desired(popular, ratio) < popular
    ensures Rate(popular, Desired(popular, ratio), config) == Curve(ShapeOf(popular, config), ratio)
  {
    DesiredTotals(popular, ratio);
    RateOfTotals(popular, Desired(popular, ratio), popular / (1.0 - ratio), 1.0 - 2.0 * ratio, config);
    CappedIsCurve(popular, ratio, config);
  }

  lemma CappedIsCurve(popular: real, ratio: real, config: RealConfig)
    requires config.Valid()
    requires 0.0 <= ratio < 0.5
    ensures Capped(Effective(config.sensitivity, config.maxAnnualized, popular / (1.0 - ratio), config.highCap),
                   1.0 - 2.0 * ratio, config.maxAnnualized)
         == Curve(ShapeOf(popular, config), ratio)
  {
    Branches(config.sensitivity, config.maxAnnualized, popular, config.highCap, ratio);
  }

  lemma RateOfTotals(popular: real, unpopular: real, total: real, imbalance: real, config: RealConfig)
    requires config.Valid()
    requires 0.0 <= unpopular < popular
    requires total == popular + unpopular && (popular - unpopular) / total == imbalance
    ensures Rate(popular, unpopular, config) ==
            Capped(Effective(config.sensitivity, config.maxAnnualized, total, config.highCap), imbalance,
                   config.maxAnnualized)
  {
  }

  lemma Branches(sensitivity: real, cap: real, popular: real, high: real, ratio: real)
    requires high > 0.0
    requires 0.0 <= ratio < 0.5
    ensures Capped(Effective(sensitivity, cap, popular / (1.0 - ratio), high), 1.0 - 2.0 * ratio, cap)
         == Curve(Shape(sensitivity, Steepness(cap, popular, high), cap), ratio)
  {
    var net := 1.0 - 2.0 * ratio;
    MaxScales(sensitivity, cap * (popular / (1.0 - ratio)) / high, net);
    SteepBranch(cap, popular, high, ratio);
  }

  lemma SteepBranch(cap: real, popular: real, high: real, ratio: real)
    requires high > 0.0
    requires 0.0 <= ratio < 0.5
    ensures cap * (popular / (1.0 - ratio)) / high * (1.0 - 2.0 * ratio)
            == SteepPart(Steepness(cap, popular, high), ratio)
  {
    SlopeScales(cap, popular, 1.0 - ratio, high, 1.0 - 2.0 * ratio);
    NetOverRest(ratio);
  }

  lemma NetOverRest(ratio: real)
    requires 0.0 <= ratio < 0.5
    ensures (1.0 - 2.0 * ratio) / (1.0 - ratio) == 2.0 - 1.0 / (1.0 - ratio)
  {
    var x := 1.0 / (1.0 - ratio);
    assert x * (1.0 - ratio) == 1.0;
    QuotientIs(1.0 - 2.0 * ratio, 1.0 - ratio, 2.0 - x);
  }

  lemma SlopeScales(cap: real, popular: real, rest: real, high: real, net: real)
    requires rest > 0.0 && high > 0.0
    ensures cap * (popular / rest) / high * net == (cap * popular / high) * (net / rest)
  {
    var x, y, z := popular / rest, cap * popular / high, net / rest;
    assert x * rest == popular && z * rest == net;
    assert cap * (x * rest) / high == y;
    QuotientIs(cap * x, high, cap * x / high);
    var s := cap * x / high;
    assert s * high == cap * x;
    assert s * rest * high == cap * popular;
    QuotientIs(cap * popular, high, s * rest);
    assert s * (z * rest) == (s * rest) * z;
  }

  /** The share a market stands at leads back to its unpopular interest. */
  lemma DesiredOfShare(popular: real, unpopular: real)
    requires 0.0 <= unpopular < popular
    ensures 0.0 <= Share(popular, unpopular) < 0.5
    ensures Desired(popular, Share(popular, unpopular)) == unpopular
  {
    var total, ratio := popular + unpopular, Share(popular, unpopular);
    assert ratio * total == unpopular;
    ProductPositive(total, 0.5 - ratio);
    if ratio >= 0.5 {
      ScaleLe(0.5, ratio, total);
      assert false;
    } else if ratio < 0.0 {
      ProductPositive(-ratio, total);
      assert false;
    }
    assert (1.0 - ratio) * total == popular;
    assert ratio * popular == ratio * ((1.0 - ratio) * total);
    assert ratio * popular == (1.0 - ratio) * unpopular;
    QuotientIs(ratio * popular, 1.0 - ratio, unpopular);
  }

  /** Between two shares below one half the inverse of the rest grows, at most four times as fast. */
  lemma InverseGrowth(a: real, b: real)
    requires 0.0 <= a <= b <= 0.5
    ensures 0.0 <= 1.0 / (1.0 - b) - 1.0 / (1.0 - a) <= 4.0 * (b - a)
  {
    var x, y := 1.0 / (1.0 - a), 1.0 / (1.0 - b);
    assert x * (1.0 - a) == 1.0 && y * (1.0 - b) == 1.0;
    InverseBound(a);
    InverseBound(b);
    assert y - x == x * y * (b - a) by {
      assert x * y * (1.0 - a) == y;
      assert x * y * (1.0 - b) == x;
    }
    ProductBound(x, y);
    ProductPositive(x * y, b - a);
    ProductPositive(4.0 - x * y, b - a);
    assert (4.0 - x * y) * (b - a) == 4.0 * (b - a) - x * y * (b - a);
  }

  lemma ProductBound(x: real, y: real)
    requires 1.0 <= x <= 2.0 && 1.0 <= y <= 2.0
    ensures 0.0 < x * y <= 4.0
  {
    ProductPositive(x, y);
    ProductPositive(2.0 - x, y);
    assert (2.0 - x) * y == 2.0 * y - x * y;
  }

  lemma InverseBound(a: real)
    requires 0.0 <= a <= 0.5
    ensures 1.0 <= 1.0 / (1.0 - a) <= 2.0
  {
    var x := 1.0 / (1.0 - a);
    assert x * (1.0 - a) == 1.0;
    if x < 1.0 {
      ScaleLe(1.0 - a, 1.0, 1.0);
    } else if x > 2.0 {
      ScaleLe(0.5, 1.0 - a, x);
      assert false;
    }
  }

  /** The curve never rises with the share, and falls no faster than its Lipschitz bound. */
  lemma CurveFalls(shape: Shape, a: real, b: real)
    requires shape.Valid()
    requires 0.0 <= a <= b <= 0.5
    ensures 0.0 <= Curve(shape, a) - Curve(shape, b) <= shape.Lipschitz() * (b - a)
  {
    CurveDrop(shape, shape.Lipschitz(), a, b);
  }

  lemma CurveDrop(shape: Shape, bound: real, a: real, b: real)
    requires shape.Valid()
    requires 2.0 * shape.sensitivity <= bound && 4.0 * shape.steepness <= bound
    requires 0.0 <= a <= b <= 0.5
    ensures 0.0 <= Curve(shape, a) - Curve(shape, b) <= bound * (b - a)
  {
    var s, m := shape.sensitivity, shape.steepness;
    FlatDrop(s, bound, a, b);
    SteepDrop(m, bound, a, b);
    MinMaxDrop(FlatPart(s, a), SteepPart(m, a), FlatPart(s, b), SteepPart(m, b), shape.cap, bound * (b - a));
  }

  lemma FlatDrop(s: real, bound: real, a: real, b: real)
    requires s >= 0.0 && 2.0 * s <= bound
    requires 0.0 <= a <= b <= 0.5
    ensures 0.0 <= FlatPart(s, a) - FlatPart(s, b) <= bound * (b - a)
  {
    Drop(s, 1.0 - 2.0 * a, 1.0 - 2.0 * b, 2.0, b - a, bound);
  }

  lemma SteepDrop(m: real, bound: real, a: real, b: real)
    requires m >= 0.0 && 4.0 * m <= bound
    requires 0.0 <= a <= b <= 0.5
    ensures 0.0 <= SteepPart(m, a) - SteepPart(m, b) <= bound * (b - a)
  {
    InverseGrowth(a, b);
    Drop(m, 2.0 - 1.0 / (1.0 - a), 2.0 - 1.0 / (1.0 - b), 4.0, b - a, bound);
  }

  lemma MinMaxDrop(u: real, v: real, u': real, v': real, cap: real, most: real)
    requires 0.0 <= u - u' <= most && 0.0 <= v - v' <= most
    ensures 0.0 <= MinReal(MaxReal(u, v), cap) - MinReal(MaxReal(u', v'), cap) <= most
  {
  }

  /** Scaling a quantity that falls by at most `factor` times a step. */
  lemma Drop(scale: real, from: real, to: real, factor: real, step: real, bound: real)
    requires scale >= 0.0 && step >= 0.0
    requires 0.0 <= from - to <= factor * step
    requires factor * scale <= bound
    ensures 0.0 <= scale * from - scale * to <= bound * step
  {
    ScaleLe(from - to, factor * step, scale);
    ProductPositive(from - to, scale);
    ScaleLe(factor * scale, bound, step);
    assert (from - to) * scale == scale * from - scale * to;
    assert factor * step * scale == factor * scale * step;
  }

  /** While the unpopular side holds any interest, the contract's rate never rises with it. */
  lemma RateFalls(popular: real, less: real, more: real, config: RealConfig)
    requires config.Valid()
    requires 0.0 < less <= more < popular
    ensures ContractRate(popular, less, config) >= ContractRate(popular, more, config)
  {
    var a, b := Share(popular, less), Share(popular, more);
    DesiredOfShare(popular, less);
    DesiredOfShare(popular, more);
    ShareGrows(popular, less, more);
    RateIsCurve(popular, a, config);
    RateIsCurve(popular, b, config);
    ShapeOfValid(popular, config);
    CurveFalls(ShapeOf(popular, config), a, b);
  }

  /** At no unpopular interest it jumps: the contract's rate there is zero, while for any interest at all it is
      positive, and as close to the curve's greatest value as the share is small. */
  lemma RateJumpsAtZero(popular: real, unpopular: real, config: RealConfig)
    requires config.Valid()
    requires 0.0 < unpopular < popular
    ensures ContractRate(popular, 0.0, config) == 0.0 < ContractRate(popular, unpopular, config)
    ensures var top, slope := Rate(popular, 0.0, config), ShapeOf(popular, config).Lipschitz();
            top - slope * Share(popular, unpopular) <= ContractRate(popular, unpopular, config) <= top
  {
    hide Rate;
    var share, shape := Share(popular, unpopular), ShapeOf(popular, config);
    DesiredOfShare(popular, unpopular);
    QuotientIs(0.0, 1.0, 0.0);
    assert Desired(popular, 0.0) == 0.0;
    RateIsCurve(popular, share, config);
    RateIsCurve(popular, 0.0, config);
    ShapeOfValid(popular, config);
    CurvePositive(shape, share);
    CurveFalls(shape, 0.0, share);
  }

  lemma ShareGrows(popular: real, less: real, more: real)
    requires 0.0 <= less <= more < popular
    ensures Share(popular, less) <= Share(popular, more)
  {
    var a, b := Share(popular, less), Share(popular, more);
    assert a * (popular + less) == less && b * (popular + more) == more;
    if b < a {
      DesiredOfShare(popular, less);
      ScaleLe(a, 0.5, more - less);
      ScaleLt(b, a, popular + more);
      assert false;
    }
  }

  /** The interest that makes up a share, by the inverse of the rest of the market. */
  lemma DesiredByInverse(popular: real, ratio: real, inverse: real)
    requires ratio < 1.0
    requires inverse * (1.0 - ratio) == 1.0
    ensures Desired(popular, ratio) == popular * inverse - popular
  {
    var rest, whole := 1.0 - ratio, popular * inverse;
    Regroup(popular, inverse, rest);
    assert whole * rest == popular;
    Spread(rest, whole, popular);
    assert popular * rest == popular - ratio * popular;
    QuotientIs(ratio * popular, rest, whole - popular);
  }

  lemma Spread(rest: real, whole: real, part: real)
    ensures rest * (whole - part) == whole * rest - part * rest
  {
  }

  lemma InverseOf(ratio: real)
    requires ratio < 1.0
    ensures 1.0 / (1.0 - ratio) * (1.0 - ratio) == 1.0
  {
  }

  /** Asking for a larger share asks for more interest. */
  lemma DesiredGrows(popular: real, a: real, b: real)
    requires popular > 0.0
    requires 0.0 <= a <= b < 0.5
    ensures Desired(popular, a) <= Desired(popular, b)
  {
    hide Desired;
    var x, y := 1.0 / (1.0 - a), 1.0 / (1.0 - b);
    InverseOf(a);
    InverseOf(b);
    DesiredByInverse(popular, a, x);
    DesiredByInverse(popular, b, y);
    InverseGrowth(a, b);
    ScaleLe(x, y, popular);
  }

  /** Short of balance the rate is positive: over the reals, the contract's assertions about signs never fire. */
  lemma CurvePositive(shape: Shape, ratio: real)
    requires shape.Valid()
    requires 0.0 <= ratio < 0.5
    ensures Curve(shape, ratio) > 0.0
  {
    SteepPositive(shape.steepness, ratio);
  }

  lemma SteepPositive(steepness: real, ratio: real)
    requires steepness > 0.0
    requires 0.0 <= ratio < 0.5
    ensures SteepPart(steepness, ratio) > 0.0
  {
    var x := 1.0 / (1.0 - ratio);
    assert x * (1.0 - ratio) == 1.0;
    InverseBound(ratio);
    ScaleLt(0.5, 1.0 - ratio, x);
    ProductPositive(steepness, 2.0 - x);
  }

  lemma CurveAtBalance(shape: Shape)
    requires shape.Valid()
    ensures Curve(shape, 0.5) == 0.0
  {
    QuotientIs(1.0, 1.0 - 0.5, 2.0);
  }

  /** The curve as a function of the share alone. */
  function CurveOf(shape: Shape): real -> real {
    (ratio: real) => if ratio < 1.0 then Curve(shape, ratio) else 0.0
  }
}
