/** From a trader's requested gain to the counter collateral that backs it and the price at which the
    position pays it, over the reals and for both kinds of market. */
module TakeProfit {
  import opened MarketIds
  import opened Reals
  import opened Wrappers

  datatype Direction = Long | Short

  datatype MaxGains = FiniteGains(multiple: real) | InfiniteGains

  datatype TakeProfitPrice = FinitePrice(price: real) | InfinitePrice

  datatype GainError = InvalidInfiniteMaxGains | MaxGainsTooLarge | DivideByZero | ZeroCollateral | NoPrice

  /** The tolerance of approximate comparisons, 10^-7. */
  const EPS_E7: real := 0.0000001

  // ----- Leverage and price conversions -----

  function SignedLeverage(leverage: real, direction: Direction): real {
    if direction == Long then leverage else -leverage
  }

  /** `into_notional`: in a collateral-is-base market the direction flips and the collateral's own
      exposure counts as one. */
  function IntoNotional(signedToBase: real, market: MarketType): real {
    if market == CollateralIsQuote then signedToBase else 1.0 - signedToBase
  }

  function IntoBase(signedToNotional: real, market: MarketType): real {
    if market == CollateralIsQuote then signedToNotional else 1.0 - signedToNotional
  }

  /** `split` then `into_signed` over a converted leverage gives back the leverage. */
  function Split(signedToBase: real): (r: (Direction, real))
    ensures r.1 >= 0.0 && SignedLeverage(r.1, r.0) == signedToBase
  {
    if signedToBase >= 0.0 then (Long, signedToBase) else (Short, -signedToBase)
  }

  /** Between the external price (quote per base) and the internal one (collateral per notional); the
      conversion is its own inverse. */
  function ConvertPrice(price: real, market: MarketType): real
    requires price > 0.0
  {
    if market == CollateralIsQuote then price else 1.0 / price
  }

  lemma ConversionsInvert(leverage: real, price: real, market: MarketType)
    requires price > 0.0
    ensures IntoBase(IntoNotional(leverage, market), market) == leverage
    ensures ConvertPrice(price, market) > 0.0
    ensures ConvertPrice(ConvertPrice(price, market), market) == price
  {
    InverseOfInverse(price);
  }

  lemma InverseOfInverse(price: real)
    requires price > 0.0
    ensures 1.0 / price > 0.0 && 1.0 / (1.0 / price) == price
  {
    var x := 1.0 / price;
    assert x * price == 1.0;
    if x <= 0.0 {
      NonPositiveProduct(x, price);
      assert false;
    }
    QuotientIs(1.0, x, price);
  }

  lemma NonPositiveProduct(a: real, b: real)
    requires a <= 0.0 && b >= 0.0
    ensures a * b <= 0.0
  {
  }

  // ----- Counter collateral -----

  /** What the requested gain in notional leaves of the position. */
  function Multiple(m: real, toNotional: real): real
    requires toNotional != 0.0
  {
    1.0 - (m + 1.0) / toNotional
  }

  /** `calculate_counter_collateral` */
  function CounterCollateral(gains: MaxGains, market: MarketType, collateral: real, toNotional: real)
    : Result<real, GainError>
  {
    match (market, gains)
    case (CollateralIsQuote, FiniteGains(m)) => Ok(collateral * m)
    case (CollateralIsQuote, InfiniteGains) => Err(InvalidInfiniteMaxGains)
    case (CollateralIsBase, InfiniteGains) =>
      if toNotional >= 0.0 then Err(InvalidInfiniteMaxGains)
      else if AbsReal(toNotional * collateral) == 0.0 then Err(ZeroCollateral)
      else Ok(AbsReal(toNotional * collateral))
    case (CollateralIsBase, FiniteGains(m)) =>
      if toNotional == 0.0 then Err(DivideByZero)
      else
        var multiple := Multiple(m, toNotional);
        if multiple < EPS_E7 then Err(MaxGainsTooLarge)
        else
          var counter := collateral * m / multiple;
          if counter <= 0.0 then Err(ZeroCollateral) else Ok(counter)
  }

  // ----- Take profit price -----

  /** `calc_notional_size` */
  function NotionalSize(toNotional: real, notionalPrice: real, collateral: real): real
    requires notionalPrice > 0.0
  {
    toNotional * collateral / notionalPrice
  }

  /** `TakeProfitFromCounterCollateral::calc` */
  function FromCounterCollateral(market: MarketType, collateral: real, counter: real, toNotional: real,
                                 notionalPrice: real): Result<TakeProfitPrice, GainError>
    requires notionalPrice > 0.0
  {
    var size := NotionalSize(toNotional, notionalPrice, collateral);
    if size == 0.0 then Err(DivideByZero)
    else
      var raw := notionalPrice + counter / size;
      if AbsReal(raw) < EPS_E7 || raw <= 0.0 then
        if market == CollateralIsBase then Ok(InfinitePrice) else Err(NoPrice)
      else
        Ok(FinitePrice(ConvertPrice(raw, market)))
  }

  /** `BackwardsCompatTakeProfit::calc` */
  function Calc(market: MarketType, collateral: real, leverage: real, direction: Direction, basePrice: real,
                gains: MaxGains, takeProfit: Option<real>): Result<TakeProfitPrice, GainError>
    requires basePrice > 0.0
  {
    match takeProfit
    case Some(price) => Ok(FinitePrice(price))
    case None =>
      if gains.InfiniteGains? then Ok(InfinitePrice)
      else
        InverseOfInverse(basePrice);
        var toNotional := IntoNotional(SignedLeverage(leverage, direction), market);
        var counter :- CounterCollateral(gains, market, collateral, toNotional);
        FromCounterCollateral(market, collateral, counter, toNotional, ConvertPrice(basePrice, market))
  }

  // ----- What a position is worth -----

  /** The collateral of a position once the notional price has moved: its size times the move is its gain. */
  function CollateralAt(collateral: real, size: real, entry: real, price: real): real {
    collateral + size * (price - entry)
  }

  /** The position's worth in the quote asset at a base price. */
  function QuoteWorth(market: MarketType, collateral: real, toNotional: real, entryBase: real, base: real): real
    requires entryBase > 0.0 && base > 0.0
  {
    InverseOfInverse(entryBase);
    InverseOfInverse(base);
    var entry, price := ConvertPrice(entryBase, market), ConvertPrice(base, market);
    var held := CollateralAt(collateral, NotionalSize(toNotional, entry, collateral), entry, price);
    if market == CollateralIsQuote then held else held * base
  }

  /** What the collateral alone is worth in quote at entry. */
  function EntryWorth(market: MarketType, collateral: real, entryBase: real): real {
    if market == CollateralIsQuote then collateral else collateral * entryBase
  }

  /** The point of the leverage conversion: in both markets the worth in quote moves by the signed
      leverage times the relative move of the base price. */
  lemma LeverageIsExposure(market: MarketType, collateral: real, signedLeverage: real, entryBase: real, base: real)
    requires entryBase > 0.0 && base > 0.0
    ensures QuoteWorth(market, collateral, IntoNotional(signedLeverage, market), entryBase, base)
         == EntryWorth(market, collateral, entryBase) * (1.0 + signedLeverage * (base - entryBase) / entryBase)
  {
    if market == CollateralIsQuote {
      QuoteExposure(collateral, signedLeverage, entryBase, base);
    } else {
      BaseExposure(collateral, signedLeverage, entryBase, base);
    }
  }

  lemma QuoteExposure(c: real, l: real, b0: real, b: real)
    requires b0 > 0.0
    ensures c + l * c / b0 * (b - b0) == c * (1.0 + l * (b - b0) / b0)
  {
    var x, y := l * c / b0, l * (b - b0) / b0;
    assert x * b0 == l * c && y * b0 == l * (b - b0);
    assert x * (b - b0) * b0 == c * y * b0;
    CancelFactor(x * (b - b0), c * y, b0);
  }

  lemma CancelFactor(a: real, b: real, f: real)
    requires f != 0.0
    requires a * f == b * f
    ensures a == b
  {
    assert (a - b) * f == 0.0;
  }

  lemma BaseExposure(c: real, l: real, b0: real, b: real)
    requires b0 > 0.0 && b > 0.0
    ensures 1.0 / b0 > 0.0
    ensures (c + (1.0 - l) * c / (1.0 / b0) * (1.0 / b - 1.0 / b0)) * b == c * b0 * (1.0 + l * (b - b0) / b0)
  {
    InverseOfInverse(b0);
    var p0, p, n := 1.0 / b0, 1.0 / b, (1.0 - l) * c;
    assert p0 * b0 == 1.0 && p * b == 1.0;
    QuotientIs(n, p0, n * b0);
    assert n * b0 * (p - p0) * b == n * b0 - n * b;
    var y := l * (b - b0) / b0;
    assert y * b0 == l * (b - b0);
    assert c * b0 * (1.0 + y) == c * b0 + c * (y * b0);
  }

  // ----- The requested gain is what the position pays -----

  /** The base price at which a signed exposure has gained `m` times its entry worth. */
  function GainPrice(signedLeverage: real, entryBase: real, m: real): real
    requires signedLeverage != 0.0
  {
    entryBase * (1.0 + m / signedLeverage)
  }

  /** What a finite request leads to, in the trader's own terms. */
  function Expected(market: MarketType, signedLeverage: real, entryBase: real, m: real)
    : Result<TakeProfitPrice, GainError>
    requires entryBase > 0.0 && m > 0.0
  {
    if market == CollateralIsQuote then
      if signedLeverage == 0.0 then Err(DivideByZero)
      else if GainPrice(signedLeverage, entryBase, m) < 0.0000001 then Err(NoPrice)
      else Ok(FinitePrice(GainPrice(signedLeverage, entryBase, m)))
    else
      var toNotional := 1.0 - signedLeverage;
      if toNotional == 0.0 then Err(DivideByZero)
      else if Multiple(m, toNotional) < 0.0000001 then Err(MaxGainsTooLarge)
      else
        GainPricePositive(signedLeverage, entryBase, m);
        if 1.0 / GainPrice(signedLeverage, entryBase, m) < 0.0000001 then Ok(InfinitePrice)
        else Ok(FinitePrice(GainPrice(signedLeverage, entryBase, m)))
  }

  /** A gain that a collateral-is-base market accepts always has a positive price. */
  lemma GainPricePositive(l: real, b0: real, m: real)
    requires b0 > 0.0 && m > 0.0
    requires 1.0 - l != 0.0 && Multiple(m, 1.0 - l) > 0.0
    ensures l != 0.0 && GainPrice(l, b0, m) > 0.0
    ensures l + m != 0.0 && (l > 0.0 <==> l + m > 0.0)
  {
    var t := 1.0 - l;
    var q := (m + 1.0) / t;
    assert q * t == m + 1.0;
    if t > 0.0 {
      PositiveProduct(1.0 - q, t);
      assert (1.0 - q) * t == t - q * t;
      assert l + m < 0.0;
      GainAgainst(l, b0, m);
    } else {
      GainAlong(l, b0, m);
    }
  }

  lemma GainAlong(l: real, b0: real, m: real)
    requires l > 0.0 && b0 > 0.0 && m > 0.0
    ensures GainPrice(l, b0, m) > 0.0
  {
    var x := m / l;
    assert x * l == m;
    QuotientSign(x, l);
    PositiveProduct(b0, 1.0 + x);
  }

  lemma GainAgainst(l: real, b0: real, m: real)
    requires l < 0.0 && l + m < 0.0 && b0 > 0.0
    ensures GainPrice(l, b0, m) > 0.0
  {
    var x := m / l;
    assert x * l == m;
    assert (1.0 + x) * (-l) == -l - x * l;
    QuotientSign(1.0 + x, -l);
    PositiveProduct(b0, 1.0 + x);
  }

  lemma PositiveProduct(a: real, b: real)
    requires a > 0.0 && b > 0.0
    ensures a * b > 0.0
  {
  }

  lemma QuotientSign(x: real, d: real)
    requires d > 0.0 && x * d > 0.0
    ensures x > 0.0
  {
    if x <= 0.0 {
      NonPositiveProduct(x, d);
      assert false;
    }
  }

  /** At the gain price the exposure is worth its entry worth and `m` times as much again. */
  lemma GainPricePays(l: real, b0: real, m: real)
    requires l != 0.0 && b0 > 0.0
    ensures 1.0 + l * (GainPrice(l, b0, m) - b0) / b0 == 1.0 + m
  {
    var x := m / l;
    assert x * l == m;
    assert GainPrice(l, b0, m) - b0 == b0 * x;
    QuotientIs(l * (b0 * x), b0, m);
  }

  /** The internal price move: counter collateral over notional size, in a collateral-is-quote market. */
  lemma QuoteRaw(c: real, l: real, p: real, m: real)
    requires c > 0.0 && p > 0.0 && l != 0.0
    ensures NotionalSize(l, p, c) != 0.0
    ensures p + c * m / NotionalSize(l, p, c) == GainPrice(l, p, m)
  {
    var n, x := NotionalSize(l, p, c), m / l;
    assert n * p == l * c && x * l == m;
    NonZeroProduct(l, c);
    QuotientIs(c * m, n, p * x);
  }

  lemma NonZeroProduct(a: real, b: real)
    requires a != 0.0 && b != 0.0
    ensures a * b != 0.0
  {
  }

  /** In a collateral-is-base market the new internal price is the old one times the leverage over the
      leverage plus the gain. */
  lemma BaseRaw(c: real, l: real, p: real, m: real, multiple: real)
    requires c > 0.0 && p > 0.0 && 1.0 - l != 0.0 && l + m != 0.0
    requires multiple == Multiple(m, 1.0 - l) > 0.0
    ensures NotionalSize(1.0 - l, p, c) != 0.0
    ensures (p + c * m / multiple / NotionalSize(1.0 - l, p, c)) * (l + m) == p * l
  {
    var t, q, n, k := 1.0 - l, l + m, NotionalSize(1.0 - l, p, c), c * m / multiple;
    assert n * p == t * c;
    NonZeroProduct(t, c);
    assert multiple * t == -q by {
      var y := (m + 1.0) / t;
      assert y * t == m + 1.0;
    }
    assert k * multiple == c * m;
    var r := k / n;
    assert r * n == k;
    assert k * q == -(c * m * t) by {
      assert k * (multiple * t) == k * multiple * t;
    }
    assert r * (t * c) == k * p by {
      assert r * (n * p) == r * n * p;
    }
    CancelFactor(r * q, -(m * p), t * c) by {
      assert r * q * (t * c) == r * (t * c) * q;
      assert k * p * q == k * q * p;
    }
  }

  lemma GainPriceTimes(l: real, b0: real, m: real)
    requires l != 0.0
    ensures GainPrice(l, b0, m) * l == b0 * (l + m)
  {
    var x := m / l;
    assert x * l == m;
    assert b0 * (1.0 + x) * l == b0 * (l + x * l);
  }

  lemma InverseTimes(x: real)
    requires x != 0.0
    ensures 1.0 / x * x == 1.0
  {
  }

  /** From the new internal price back to the trader's price. */
  lemma BasePrice(l: real, b0: real, m: real, raw: real)
    requires b0 > 0.0 && m > 0.0
    requires 1.0 - l != 0.0 && Multiple(m, 1.0 - l) > 0.0
    requires raw * (l + m) == 1.0 / b0 * l
    ensures l != 0.0 && GainPrice(l, b0, m) > 0.0
    ensures raw > 0.0 && 1.0 / raw == GainPrice(l, b0, m)
    ensures raw == 1.0 / GainPrice(l, b0, m)
  {
    GainPricePositive(l, b0, m);
    GainPriceTimes(l, b0, m);
    hide GainPrice, Multiple;
    var tp, p := GainPrice(l, b0, m), 1.0 / b0;
    InverseTimes(b0);
    PricesInvert(raw, tp, l, b0, l + m, p);
    QuotientSign(raw, tp);
    QuotientIs(1.0, raw, tp);
    QuotientIs(1.0, tp, raw);
  }

  lemma PricesInvert(raw: real, tp: real, l: real, b0: real, q: real, p: real)
    requires l != 0.0
    requires tp * l == b0 * q && raw * q == p * l && p * b0 == 1.0
    ensures raw * tp == 1.0
  {
    assert raw * tp * l == raw * (tp * l);
    assert raw * (b0 * q) == raw * q * b0;
    assert p * l * b0 == p * b0 * l;
    CancelFactor(raw * tp, 1.0, l);
  }

  /** Every finite request ends as the trader's own terms say: the chain through leverage to notional,
      counter collateral and notional size cancels out. */
  lemma CalcIsExpected(market: MarketType, collateral: real, leverage: real, direction: Direction,
                       basePrice: real, m: real)
    requires collateral > 0.0 && leverage >= 0.0 && basePrice > 0.0 && m > 0.0
    ensures Calc(market, collateral, leverage, direction, basePrice, FiniteGains(m), None)
         == Expected(market, SignedLeverage(leverage, direction), basePrice, m)
  {
    var l := SignedLeverage(leverage, direction);
    InverseOfInverse(basePrice);
    BaseRefused(collateral, 1.0 - l, m);
    if market == CollateralIsQuote {
      QuoteCounter(collateral, l, m);
      QuoteCalc(collateral, l, basePrice, m);
    } else if 1.0 - l != 0.0 && Multiple(m, 1.0 - l) >= EPS_E7 {
      BaseCounter(collateral, 1.0 - l, m, Multiple(m, 1.0 - l));
      BaseCalc(collateral, l, basePrice, m);
    }
  }

  lemma QuoteCounter(c: real, toNotional: real, m: real)
    ensures var r := CounterCollateral(FiniteGains(m), CollateralIsQuote, c, toNotional);
            r.Ok? && r.value == c * m
  {
    var r := CounterCollateral(FiniteGains(m), CollateralIsQuote, c, toNotional);
    assert r.Ok? && r.value == c * FiniteGains(m).multiple;
  }

  lemma QuoteCalc(c: real, l: real, b0: real, m: real)
    requires c > 0.0 && b0 > 0.0 && m > 0.0
    ensures FromCounterCollateral(CollateralIsQuote, c, c * m, l, b0) == Expected(CollateralIsQuote, l, b0, m)
  {
    if l != 0.0 {
      QuoteRaw(c, l, b0, m);
    } else {
      QuotientIs(0.0, b0, 0.0);
    }
  }

  lemma BaseCounter(c: real, toNotional: real, m: real, multiple: real)
    requires c > 0.0 && m > 0.0 && toNotional != 0.0
    requires multiple == Multiple(m, toNotional) >= EPS_E7
    ensures var r := CounterCollateral(FiniteGains(m), CollateralIsBase, c, toNotional);
            r.Ok? && r.value == c * m / multiple
  {
    PositiveProduct(c, m);
    var counter := c * m / multiple;
    assert counter * multiple == c * m;
    QuotientSign(counter, multiple);
    var r := CounterCollateral(FiniteGains(m), CollateralIsBase, c, toNotional);
    assert r.Ok? && r.value == counter;
  }

  lemma BaseRefused(c: real, toNotional: real, m: real)
    ensures var r := CounterCollateral(FiniteGains(m), CollateralIsBase, c, toNotional);
            && (toNotional == 0.0 ==> r == Err(DivideByZero))
            && (toNotional != 0.0 && Multiple(m, toNotional) < EPS_E7 ==> r == Err(MaxGainsTooLarge))
  {
  }

  lemma BaseCalc(c: real, l: real, b0: real, m: real)
    requires c > 0.0 && b0 > 0.0 && m > 0.0
    requires 1.0 - l != 0.0 && Multiple(m, 1.0 - l) >= EPS_E7
    ensures 1.0 / b0 > 0.0
    ensures FromCounterCollateral(CollateralIsBase, c, c * m / (Multiple(m, 1.0 - l)), 1.0 - l, 1.0 / b0)
         == Expected(CollateralIsBase, l, b0, m)
  {
    InverseOfInverse(b0);
    GainPricePositive(l, b0, m);
    var p, multiple := 1.0 / b0, Multiple(m, 1.0 - l);
    BaseRaw(c, l, p, m, multiple);
    var raw := p + c * m / multiple / NotionalSize(1.0 - l, p, c);
    BasePrice(l, b0, m, raw);
    assert AbsReal(raw) == raw;
  }

  /** The law behind the conversions: a finite take profit price for a gain of `m` makes the position
      worth its entry worth plus exactly `m` times that, in quote, in both kinds of market. */
  lemma RequestedGainIsPaid(market: MarketType, collateral: real, leverage: real, direction: Direction,
                            basePrice: real, m: real)
    requires collateral > 0.0 && leverage >= 0.0 && basePrice > 0.0 && m > 0.0
    ensures var r := Calc(market, collateral, leverage, direction, basePrice, FiniteGains(m), None);
            var toNotional := IntoNotional(SignedLeverage(leverage, direction), market);
            r.Ok? && r.value.FinitePrice? ==>
              && r.value.price > 0.0
              && QuoteWorth(market, collateral, toNotional, basePrice, r.value.price)
              == EntryWorth(market, collateral, basePrice) * (1.0 + m)
  {
    var l := SignedLeverage(leverage, direction);
    CalcIsExpected(market, collateral, leverage, direction, basePrice, m);
    var r := Expected(market, l, basePrice, m);
    if r.Ok? && r.value.FinitePrice? {
      if market == CollateralIsBase {
        GainPricePositive(l, basePrice, m);
      }
      ExposurePays(market, collateral, l, basePrice, m, r.value.price);
    }
  }

  lemma ExposurePays(market: MarketType, collateral: real, l: real, b0: real, m: real, price: real)
    requires b0 > 0.0 && price > 0.0 && l != 0.0
    requires price == GainPrice(l, b0, m)
    ensures QuoteWorth(market, collateral, IntoNotional(l, market), b0, price)
         == EntryWorth(market, collateral, b0) * (1.0 + m)
  {
    hide QuoteWorth, EntryWorth, IntoNotional, GainPrice;
    GainPricePays(l, b0, m);
    LeverageIsExposure(market, collateral, l, b0, price);
  }

  /** A price that is given is kept, whatever the gain, and an infinite gain without one is the infinite price. */
  lemma GivenPriceIsKept(market: MarketType, collateral: real, leverage: real, direction: Direction,
                         basePrice: real, gains: MaxGains, price: real)
    requires basePrice > 0.0
    ensures Calc(market, collateral, leverage, direction, basePrice, gains, Some(price)) == Ok(FinitePrice(price))
    ensures Calc(market, collateral, leverage, direction, basePrice, InfiniteGains, None) == Ok(InfinitePrice)
  {
  }

  /** An infinite gain is allowed exactly for a position that is short against notional in a
      collateral-is-base market; its counter collateral then leads to an infinite take profit price. */
  lemma InfiniteGainIsInfinitePrice(market: MarketType, collateral: real, toNotional: real, notionalPrice: real)
    requires collateral > 0.0 && notionalPrice > 0.0
    ensures var counter := CounterCollateral(InfiniteGains, market, collateral, toNotional);
            && (counter.Ok? <==> market == CollateralIsBase && toNotional < 0.0)
            && (counter.Ok? ==>
                  FromCounterCollateral(market, collateral, counter.value, toNotional, notionalPrice)
                  == Ok(InfinitePrice))
  {
    if market == CollateralIsBase && toNotional < 0.0 {
      PositiveProduct(-toNotional, collateral);
      assert toNotional * collateral == -(-toNotional * collateral);
      var size := NotionalSize(toNotional, notionalPrice, collateral);
      assert size * notionalPrice == toNotional * collateral;
      QuotientIs(-(toNotional * collateral), size, -notionalPrice);
    }
  }
}
