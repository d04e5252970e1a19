/** How far the countertrade contract's fixed-point rate and search are from the exact ones of `FundingCurve`. */
module RateRounding {
  import opened Wrappers
  import opened Decimals
  import opened Reals
  import opened FundingCurve
  import S = SmartSearch

  /** A number of atoms in units. */
  function Units(atoms: int): real {
    atoms as real / ONE as real
  }

  const ATOM: real := 1.0 / ONE as real

  /** The market's parameters without rounding. */
  function Exact(config: S.FundingConfig): RealConfig {
    RealConfig(Units(config.sensitivity), Units(config.maxAnnualized),
               Units(config.dnfSensitivity) * Units(config.dnfCap))
  }

  // ----- One product or quotient -----

  lemma CastProduct(a: int, b: int)
    ensures (a * b) as real == a as real * b as real
  {
  }

  lemma UnitsTimes(atoms: int)
    ensures Units(atoms) * ONE as real == atoms as real
    ensures Units(atoms + 1) == Units(atoms) + ATOM
  {
  }

  lemma UnitsOrder(a: int, b: int)
    ensures a <= b <==> Units(a) <= Units(b)
    ensures Units(0) == 0.0 && Units(ONE) == 1.0 && Units(a) + Units(b) == Units(a + b)
    ensures Units(a) - Units(b) == Units(a - b)
  {
  }

  /** A product of decimals loses less than an atom. */
  lemma MulRounds(a: nat, b: nat)
    ensures Units(a) * Units(b) - ATOM < Units(MulFloor(a, b)) <= Units(a) * Units(b)
  {
    var q := MulFloor(a, b);
    FloorDivBounds(a * b, ONE);
    CastProduct(a, b);
    CastProduct(q, ONE);
    ProductInUnits(a as real, b as real, q as real);
  }

  lemma ProductInUnits(a: real, b: real, q: real)
    requires q * ONE as real <= a * b < q * ONE as real + ONE as real
    ensures var one := ONE as real; a / one * (b / one) - 1.0 / one < q / one <= a / one * (b / one)
  {
    var one := ONE as real;
    assert a / one * (b / one) == a * b / one / one;
  }

  /** So does a quotient. */
  lemma DivRounds(a: nat, b: nat)
    requires b > 0
    ensures Units(b) > 0.0
    ensures Units(a) / Units(b) - ATOM < Units(DivFloor(a, b)) <= Units(a) / Units(b)
  {
    var q := DivFloor(a, b);
    FloorDivBounds(a * ONE, b);
    CastProduct(q, b);
    CastProduct(a, ONE);
    QuotientInUnits(a as real, b as real, q as real);
  }

  lemma QuotientInUnits(a: real, b: real, q: real)
    requires b > 0.0
    requires q * b <= a * ONE as real < q * b + b
    ensures var one := ONE as real; a / one / (b / one) - 1.0 / one < q / one <= a / one / (b / one)
  {
    var one, x := ONE as real, a / b;
    DivTimes(a, b);
    QuotientIs(a / one, b / one, x);
    ProductLe(q, x * one, b);
    ProductLt(x * one, q + 1.0, b);
  }

  lemma DivTimes(x: real, d: real)
    requires d != 0.0
    ensures x / d * d == x
  {
  }

  lemma ProductLe(x: real, y: real, b: real)
    requires b > 0.0 && x * b <= y * b
    ensures x <= y
  {
    if x > y {
      ScaleLt(y, x, b);
    }
  }

  lemma ProductLt(x: real, y: real, b: real)
    requires b > 0.0 && x * b < y * b
    ensures x < y
  {
    if x >= y {
      ScaleLe(y, x, b);
    }
  }

  // ----- The rate -----

  /** How far below the exact rate the contract's can be, in units. */
  function ShortOf(total: real, config: RealConfig): real
    requires config.highCap > 0.0
  {
    ATOM * (2.0 + 1.0 / config.highCap
            + 3.0 * Effective(config.sensitivity, config.maxAnnualized, total, config.highCap))
  }

  /** How far above. */
  function Beyond(config: RealConfig): real
    requires config.highCap > 0.0
  {
    2.0 * ATOM * config.maxAnnualized / config.highCap
  }

  /** The sensitivity that delta neutrality asks for, from a product and a quotient that round down: `q` for the
      exact `c / h`. */
  lemma SteepestRounds(c: real, h: real, c': real, h': real, q: real)
    requires c >= 0.0 && c' >= 0.0 && ATOM <= h' && h - ATOM < h' <= h
    requires c - ATOM < c' <= c && c' / h' - ATOM < q <= c' / h'
    ensures c / h - ATOM / h - ATOM < q <= c / h * (1.0 + 2.0 * (ATOM / h))
    ensures 0.0 <= ATOM / h <= 1.0
  {
    var x, y, z := c / h, c' / h', ATOM / h;
    DivTimes(c, h);
    DivTimes(c', h');
    DivTimes(ATOM, h);
    QuotientAbove(x, y, z, h, h');
    QuotientBelow(x, y, z, h, h');
  }

  lemma NotNegative(y: real, d: real)
    requires d > 0.0 && y * d >= 0.0
    ensures y >= 0.0
  {
    if y < 0.0 {
      ScaleLt(y, 0.0, d);
    }
  }

  lemma QuotientAbove(x: real, y: real, z: real, h: real, h': real)
    requires 0.0 < h' <= h && 0.0 <= y * h' && x * h - z * h < y * h'
    ensures x - z < y
  {
    NotNegative(y, h');
    ScaleLe(h', h, y);
    assert (x - z) * h == x * h - z * h;
    ProductLt(x - z, y, h);
  }

  lemma QuotientBelow(x: real, y: real, z: real, h: real, h': real)
    requires 0.0 < h' <= h < 2.0 * h' && 0.0 <= y * h' <= x * h && 0.0 <= z * h <= h' && h - h' < z * h
    ensures y <= x * (1.0 + 2.0 * z)
    ensures 0.0 <= z <= 1.0
  {
    NotNegative(z, h);
    NotNegative(x, h);
    ProductLe(z, 1.0, h);
    ScaleLe(h, 2.0 * h', z);
    assert h <= h' * (1.0 + 2.0 * z);
    ScaleLe(h, h' * (1.0 + 2.0 * z), x);
    assert x * (h' * (1.0 + 2.0 * z)) == x * (1.0 + 2.0 * z) * h';
    ProductLe(y, x * (1.0 + 2.0 * z), h');
  }

  lemma TimesSum(a: real, b: real, c: real)
    ensures (a + b) * c == a * c + b * c && (a - b) * c == a * c - b * c
    ensures a * c == c * a && b * c == c * b
  {
  }

  /** The product of a sensitivity `e'` and a lead `i'` that are off by roundings, for the exact `e * i`. */
  lemma LeadBelow(e: real, i: real, e': real, i': real, z: real)
    requires e >= 0.0 && e' >= 0.0 && 0.0 <= i <= 1.0 && 0.0 <= z
    requires e - z - ATOM <= e' <= 3.0 * e && i - ATOM <= i'
    ensures e * i - z - ATOM - 3.0 * ATOM * e <= e' * i'
  {
    var d := z + ATOM;
    calc <= {
      e * i - d - 3.0 * ATOM * e;
      { ScaleLe(i, 1.0, d); }
      e * i - i * d - 3.0 * ATOM * e;
      { TimesSum(e, d, i); }
      (e - d) * i - 3.0 * ATOM * e;
      { ScaleLe(e - d, e', i); ScaleLe(e', 3.0 * e, ATOM); }
      e' * i - ATOM * e';
      { TimesSum(i, ATOM, e'); }
      (i - ATOM) * e';
      { ScaleLe(i - ATOM, i', e'); }
      i' * e';
    }
    TimesSum(i', 0.0, e');
  }

  lemma LeadAbove(e: real, i: real, e': real, i': real, z: real)
    requires e' >= 0.0 && 0.0 <= i && e' <= e * (1.0 + 2.0 * z) && i' <= i
    ensures e' * i' <= e * i + 2.0 * z * (e * i)
  {
    ScaleLe(i', i, e');
    ScaleLe(e', e * (1.0 + 2.0 * z), i);
    assert e * (1.0 + 2.0 * z) * i == e * i + 2.0 * z * (e * i);
  }

  lemma AtMostTriple(e: real, z: real)
    requires e >= 0.0 && 0.0 <= z <= 1.0
    ensures e * (1.0 + 2.0 * z) <= 3.0 * e
  {
    ScaleLe(1.0 + 2.0 * z, 3.0, e);
  }

  /** The capped rate, for the exact one. */
  lemma CappedRounds(exact: real, cap: real, product: real, u: real, z: real, short: real)
    requires 0.0 <= z && 0.0 <= cap && ATOM <= short
    requires exact - (short - ATOM) <= product <= exact + 2.0 * z * exact
    requires product - ATOM <= u <= product
    ensures MinReal(exact, cap) - short <= MinReal(u, cap) <= MinReal(exact, cap) + 2.0 * z * cap
  {
    ProductPositive(z, cap);
    if exact < cap {
      ScaleLe(exact, cap, z);
      assert 2.0 * z * exact <= 2.0 * z * cap;
    }
  }

  lemma LargerRounds(s: real, q: real, q': real, z: real)
    requires s >= 0.0 && q >= 0.0 && 0.0 <= z <= 1.0
    requires q - z - ATOM < q' <= q * (1.0 + 2.0 * z)
    ensures MaxReal(s, q) - z - ATOM <= MaxReal(s, q') <= MaxReal(s, q) * (1.0 + 2.0 * z)
  {
    ProductPositive(s, z);
    ScaleLe(q, MaxReal(s, q), 1.0 + 2.0 * z);
  }

  /** The contract's rate, product by product and quotient by quotient. */
  lemma RateInSteps(popular: nat, unpopular: nat, config: S.FundingConfig)
    requires S.DeriveRate(popular, unpopular, config).Ok?
    ensures popular > 0 && unpopular > 0 ==>
              && unpopular < popular && MulFloor(config.dnfSensitivity, config.dnfCap) > 0 && config.maxAnnualized > 0
              && var total := popular + unpopular;
              var steepest := DivFloor(MulFloor(config.maxAnnualized, total),
                                       MulFloor(config.dnfSensitivity, config.dnfCap));
              S.DeriveRate(popular, unpopular, config).value
              == Min(MulFloor(Max(config.sensitivity, steepest), DivFloor(popular - unpopular, total)),
                     config.maxAnnualized)
  {
    hide MulFloor, DivFloor;
    S.RateRange(popular, unpopular, config);
  }

  lemma UnitsOfMax(a: nat, b: nat)
    ensures Units(Max(a, b)) == MaxReal(Units(a), Units(b)) && Units(Min(a, b)) == MinReal(Units(a), Units(b))
    ensures Units(a) >= 0.0 && Units(b) >= 0.0
  {
    UnitsOrder(a, b);
    UnitsOrder(b, a);
  }

  lemma LargerSteepest(s: real, c: real, h: real, c': real, h': real, q: real)
    requires s >= 0.0 && c >= 0.0 && c' >= 0.0 && ATOM <= h' && h - ATOM < h' <= h
    requires c - ATOM < c' <= c && c' / h' - ATOM < q <= c' / h'
    ensures h > 0.0 && 0.0 <= ATOM / h <= 1.0 && MaxReal(s, c / h) >= 0.0
    ensures MaxReal(s, c / h) - ATOM / h - ATOM <= MaxReal(s, q) <= MaxReal(s, c / h) * (1.0 + 2.0 * (ATOM / h))
  {
    SteepestRounds(c, h, c', h', q);
    DivTimes(c, h);
    NotNegative(c / h, h);
    LargerRounds(s, c / h, q, ATOM / h);
  }

  /** The sensitivity in force, up to its roundings. */
  lemma EffectiveRounds(s: real, cap: real, total: real, h: real, c': real, h': real, q: real)
    requires s >= 0.0 && cap >= 0.0 && total >= 0.0 && c' >= 0.0 && ATOM <= h' && h - ATOM < h' <= h
    requires cap * total - ATOM < c' <= cap * total && c' / h' - ATOM < q <= c' / h'
    ensures h > 0.0 && 0.0 <= ATOM / h <= 1.0 && Effective(s, cap, total, h) >= 0.0
    ensures Effective(s, cap, total, h) - ATOM / h - ATOM <= MaxReal(s, q)
    ensures MaxReal(s, q) <= Effective(s, cap, total, h) * (1.0 + 2.0 * (ATOM / h))
  {
    hide MaxReal;
    ProductPositive(cap, total);
    LargerSteepest(s, cap * total, h, c', h', q);
  }

  lemma SensitivityIsClose(total: nat, config: S.FundingConfig)
    requires MulFloor(config.dnfSensitivity, config.dnfCap) > 0
    ensures var h, z := Exact(config).highCap, ATOM / Exact(config).highCap;
            && h > 0.0 && 0.0 <= z <= 1.0
            && var e := Effective(Units(config.sensitivity), Units(config.maxAnnualized), Units(total), h);
            var steepest := DivFloor(MulFloor(config.maxAnnualized, total),
                                     MulFloor(config.dnfSensitivity, config.dnfCap));
            0.0 <= e && e - z - ATOM <= Units(Max(config.sensitivity, steepest)) <= e * (1.0 + 2.0 * z)
  {
    hide Units, MulFloor, DivFloor, Effective, Max, MaxReal;
    var high, scaled := MulFloor(config.dnfSensitivity, config.dnfCap), MulFloor(config.maxAnnualized, total);
    MulRounds(config.dnfSensitivity, config.dnfCap);
    MulRounds(config.maxAnnualized, total);
    DivRounds(scaled, high);
    AtLeastAtom(high);
    UnitsOfMax(config.maxAnnualized, total);
    UnitsOfMax(scaled, 0);
    UnitsOfMax(config.sensitivity, DivFloor(scaled, high));
    EffectiveRounds(Units(config.sensitivity), Units(config.maxAnnualized), Units(total), Exact(config).highCap,
                    Units(scaled), Units(high), Units(DivFloor(scaled, high)));
  }

  lemma AtLeastAtom(atoms: nat)
    requires atoms > 0
    ensures Units(atoms) >= ATOM
  {
  }

  lemma ShareIsClose(popular: nat, unpopular: nat)
    requires 0 < unpopular < popular
    ensures 0.0 < Units(unpopular) < Units(popular) && Units(popular) + Units(unpopular) == Units(popular + unpopular)
    ensures var i := (Units(popular) - Units(unpopular)) / (Units(popular) + Units(unpopular));
            0.0 <= i <= 1.0 && i - ATOM <= Units(DivFloor(popular - unpopular, popular + unpopular)) <= i
  {
    DivRounds(popular - unpopular, popular + unpopular);
    UnitsOrder(popular, unpopular);
    UnitsOrder(0, unpopular);
    UnitsOrder(0, popular - unpopular);
    ShareWithin(Units(popular), Units(unpopular));
  }

  lemma ShareWithin(popular: real, unpopular: real)
    requires 0.0 < unpopular < popular
    ensures 0.0 <= (popular - unpopular) / (popular + unpopular) <= 1.0
  {
    var i, total := (popular - unpopular) / (popular + unpopular), popular + unpopular;
    DivTimes(popular - unpopular, total);
    NotNegative(i, total);
    ProductLe(i, 1.0, total);
  }

  lemma CappedProduct(e: real, i: real, cap: real)
    ensures Capped(e, i, cap) == MinReal(e * i, cap)
  {
  }

  lemma InverseScales(h: real, cap: real, z: real)
    requires h > 0.0 && z == ATOM / h
    ensures ATOM * (1.0 / h) == z && 2.0 * ATOM * cap / h == 2.0 * z * cap
  {
    DivTimes(ATOM, h);
    DivTimes(1.0, h);
    QuotientIs(2.0 * ATOM * cap, h, 2.0 * z * cap);
    QuotientIs(ATOM, h, ATOM * (1.0 / h));
  }

  lemma ExactIsValid(config: S.FundingConfig)
    requires MulFloor(config.dnfSensitivity, config.dnfCap) > 0 && config.maxAnnualized > 0
    ensures Exact(config).Valid()
  {
    hide MulFloor;
    SensitivityIsClose(0, config);
    AtLeastAtom(config.maxAnnualized);
    UnitsOfMax(config.sensitivity, 0);
  }

  /** For every input that gets a rate, with interest on both sides: it is the exact one of the parameters themselves,
      up to the roundings of five products and quotients. */
  lemma RateIsClose(popular: nat, unpopular: nat, config: S.FundingConfig)
    requires S.DeriveRate(popular, unpopular, config).Ok?
    ensures popular > 0 && unpopular > 0 ==>
              && Exact(config).Valid() && 0.0 <= Units(unpopular) < Units(popular)
              && var rate := Units(S.DeriveRate(popular, unpopular, config).value);
              var exact := Rate(Units(popular), Units(unpopular), Exact(config));
              exact - ShortOf(Units(popular + unpopular), Exact(config)) <= rate <= exact + Beyond(Exact(config))
  {
    hide Units, MulFloor, DivFloor, Effective, Max, Min, MinReal, S.DeriveRate, Capped;
    RateInSteps(popular, unpopular, config);
    if popular > 0 && unpopular > 0 {
      ExactIsValid(config);
      ShareIsClose(popular, unpopular);
      CappedIsClose(popular, unpopular, config);
    }
  }

  lemma CappedIsClose(popular: nat, unpopular: nat, config: S.FundingConfig)
    requires 0 < unpopular < popular && MulFloor(config.dnfSensitivity, config.dnfCap) > 0
    requires Exact(config).Valid() && 0.0 < Units(popular + unpopular)
    ensures var total, h := popular + unpopular, Exact(config).highCap;
            var e := Effective(Units(config.sensitivity), Units(config.maxAnnualized), Units(total), h);
            var i := (Units(popular) - Units(unpopular)) / Units(total);
            var exact := Capped(e, i, Units(config.maxAnnualized));
            var steepest := DivFloor(MulFloor(config.maxAnnualized, total),
                                     MulFloor(config.dnfSensitivity, config.dnfCap));
            var rate := Min(MulFloor(Max(config.sensitivity, steepest), DivFloor(popular - unpopular, total)),
                            config.maxAnnualized);
            && exact - ATOM * (2.0 + 1.0 / h + 3.0 * e) <= Units(rate)
            && Units(rate) <= exact + 2.0 * ATOM * Units(config.maxAnnualized) / h
  {
    hide Units, MulFloor, DivFloor, Effective, Min, MinReal, Capped;
    var total, cap := popular + unpopular, config.maxAnnualized;
    var steepest := DivFloor(MulFloor(cap, total), MulFloor(config.dnfSensitivity, config.dnfCap));
    var sensitivity, share := Max(config.sensitivity, steepest), DivFloor(popular - unpopular, total);
    var h := Exact(config).highCap;
    var e := Effective(Units(config.sensitivity), Units(cap), Units(total), h);
    var i := (Units(popular) - Units(unpopular)) / Units(total);
    FactorsAreClose(popular, unpopular, config, sensitivity, share);
    CapIsClose(e * i, e, Units(cap), h, Units(sensitivity) * Units(share), Units(MulFloor(sensitivity, share)));
    CappedProduct(e, i, Units(cap));
    UnitsOfMax(MulFloor(sensitivity, share), cap);
  }

  /** The cap keeps a rate close. */
  lemma CapIsClose(exact: real, e: real, cap: real, h: real, product: real, u: real)
    requires h > 0.0 && cap >= 0.0 && e >= 0.0
    requires exact - (ATOM / h + ATOM + 3.0 * ATOM * e) <= product <= exact + 2.0 * (ATOM / h) * exact
    requires product - ATOM <= u <= product
    ensures MinReal(exact, cap) - ATOM * (2.0 + 1.0 / h + 3.0 * e) <= MinReal(u, cap)
    ensures MinReal(u, cap) <= MinReal(exact, cap) + 2.0 * ATOM * cap / h
  {
    var z := ATOM / h;
    DivTimes(ATOM, h);
    NotNegative(z, h);
    InverseScales(h, cap, z);
    CappedRounds(exact, cap, product, u, z, z + 2.0 * ATOM + 3.0 * ATOM * e);
  }

  /** The product of the two factors, for the exact one. */
  lemma FactorsAreClose(popular: nat, unpopular: nat, config: S.FundingConfig, sensitivity: nat, share: nat)
    requires 0 < unpopular < popular && MulFloor(config.dnfSensitivity, config.dnfCap) > 0
    requires sensitivity == Max(config.sensitivity,
                                DivFloor(MulFloor(config.maxAnnualized, popular + unpopular),
                                         MulFloor(config.dnfSensitivity, config.dnfCap)))
    requires share == DivFloor(popular - unpopular, popular + unpopular)
    ensures Exact(config).highCap > 0.0 && Units(popular + unpopular) > 0.0
    ensures var total, h := Units(popular + unpopular), Exact(config).highCap;
            var e := Effective(Units(config.sensitivity), Units(config.maxAnnualized), total, h);
            var i, z := (Units(popular) - Units(unpopular)) / total, ATOM / h;
            && 0.0 <= z && 0.0 <= Units(config.maxAnnualized) && 0.0 <= e
            && e * i - (z + ATOM + 3.0 * ATOM * e) <= Units(sensitivity) * Units(share) <= e * i + 2.0 * z * (e * i)
            && Units(sensitivity) * Units(share) - ATOM <= Units(MulFloor(sensitivity, share))
            && Units(MulFloor(sensitivity, share)) <= Units(sensitivity) * Units(share)
  {
    hide Units, MulFloor, DivFloor, Effective;
    SensitivityIsClose(popular + unpopular, config);
    ShareIsClose(popular, unpopular);
    MulRounds(sensitivity, share);
    UnitsOfMax(sensitivity, config.maxAnnualized);
    var h := Exact(config).highCap;
    var e := Effective(Units(config.sensitivity), Units(config.maxAnnualized), Units(popular + unpopular), h);
    var i := (Units(popular) - Units(unpopular)) / Units(popular + unpopular);
    LeadIsClose(e, i, Units(sensitivity), Units(share), ATOM / h);
  }

  lemma LeadIsClose(e: real, i: real, e': real, i': real, z: real)
    requires e >= 0.0 && e' >= 0.0 && 0.0 <= i <= 1.0 && 0.0 <= z <= 1.0
    requires e - z - ATOM <= e' <= e * (1.0 + 2.0 * z) && i - ATOM <= i' <= i
    ensures e * i - z - ATOM - 3.0 * ATOM * e <= e' * i' <= e * i + 2.0 * z * (e * i)
  {
    AtMostTriple(e, z);
    LeadBelow(e, i, e', i', z);
    LeadAbove(e, i, e', i', z);
  }

  // ----- The interest a probe asks for, and the answer -----

  /** The search starts at the share the unpopular side holds, up to an atom. */
  lemma StartIsClose(popular: nat, unpopular: nat)
    requires unpopular < popular
    ensures 0.0 <= Units(unpopular) < Units(popular)
    ensures var exact := Share(Units(popular), Units(unpopular));
            exact - ATOM < Units(S.StartRatio(popular, unpopular)) <= exact
  {
    DivRounds(unpopular, popular + unpopular);
    UnitsOrder(popular, unpopular);
    UnitsOrder(0, unpopular);
  }

  /** Up to one half, a probe asks for the exact interest that makes up its share, up to three atoms. */
  lemma DesiredIsClose(popular: nat, ratio: nat)
    requires ratio <= S.HALF && S.DesiredUnpopular(popular, ratio).Ok?
    ensures Units(ratio) <= 0.5
    ensures var desired := Units(S.DesiredUnpopular(popular, ratio).value);
            var exact := Desired(Units(popular), Units(ratio));
            exact - 3.0 * ATOM < desired <= exact
  {
    hide Units, MulFloor, DivFloor, S.DesiredUnpopular;
    var part, rest := MulFloor(ratio, popular), ONE - ratio;
    DesiredInSteps(popular, ratio);
    HalfInUnits(ratio);
    MulRounds(ratio, popular);
    DivRounds(part, rest);
    QuotientRounds(Units(ratio) * Units(popular), Units(part), 1.0 - Units(ratio), Units(DivFloor(part, rest)),
                   ATOM);
  }

  lemma DesiredInSteps(popular: nat, ratio: nat)
    requires ratio <= S.HALF && S.DesiredUnpopular(popular, ratio).Ok?
    ensures S.DesiredUnpopular(popular, ratio).value == DivFloor(MulFloor(ratio, popular), ONE - ratio)
  {
  }

  lemma HalfInUnits(ratio: nat)
    requires ratio <= S.HALF
    ensures Units(ratio) <= 0.5 && Units(ONE - ratio) == 1.0 - Units(ratio)
  {
  }

  lemma QuotientRounds(x: real, x': real, rest: real, q: real, a: real)
    requires rest >= 0.5 && a >= 0.0 && x - a < x' <= x && x' / rest - a < q <= x' / rest
    ensures x / rest - 3.0 * a < q <= x / rest
  {
    DivTimes(x, rest);
    DivTimes(x', rest);
    ProductLe(x' / rest, x / rest, rest);
    ShortBy(x / rest, x' / rest, rest, a);
  }

  lemma ShortBy(y: real, y': real, rest: real, a: real)
    requires rest >= 0.5 && y * rest - a < y' * rest && a >= 0.0
    ensures y - 2.0 * a < y'
  {
    var gap := y - y';
    TimesSum(y, y', rest);
    if gap > 0.0 {
      HalfOf(gap, rest);
    }
  }

  lemma HalfOf(gap: real, rest: real)
    requires gap > 0.0 && rest >= 0.5
    ensures gap <= 2.0 * (gap * rest)
  {
    ScaleLe(0.5, rest, gap);
    TimesSum(0.5, rest, gap);
  }

  /** The contract's target in units, whatever its sign. */
  lemma DistanceInUnits(rate: nat, target: int)
    requires Abs(rate - target) < S.EPSILON
    ensures AbsReal(Units(rate) - Units(target)) < 0.00001
  {
    UnitsOrder(rate, target);
  }

  /** A search of the contract's own market that asks for interest brings the exact rate to the target, within
      0.00001 and the rounding of one rate, without flipping the market. */
  lemma AnswerBringsTarget(popular: nat, unpopular: nat, target: int, config: S.FundingConfig, start: nat, delta: nat)
    requires S.Found(S.MarketCurve(popular, config), unpopular, target, start, delta) && delta > 0
    ensures unpopular + delta < popular
    ensures Exact(config).Valid() && 0.0 <= Units(unpopular + delta) < Units(popular)
    ensures var total := Units(popular + unpopular + delta);
            var exact := Rate(Units(popular), Units(unpopular + delta), Exact(config));
            && exact - Units(target) < 0.00001 + ShortOf(total, Exact(config))
            && Units(target) - exact < 0.00001 + Beyond(Exact(config))
  {
    AcceptedRate(popular, unpopular, target, config, start, delta);
    hide Units, Exact, S.DeriveRate, Rate, ShortOf, Beyond, S.Found;
    RateIsClose(popular, unpopular + delta, config);
    DistanceInUnits(S.DeriveRate(popular, unpopular + delta, config).value, target);
  }

  lemma AcceptedRate(popular: nat, unpopular: nat, target: int, config: S.FundingConfig, start: nat, delta: nat)
    requires S.Found(S.MarketCurve(popular, config), unpopular, target, start, delta) && delta > 0
    ensures unpopular + delta < popular && S.DeriveRate(popular, unpopular + delta, config).Ok?
    ensures Abs(S.DeriveRate(popular, unpopular + delta, config).value - target) < S.EPSILON
  {
    hide S.DeriveRate, S.MarketCurve;
    var ratio: nat :| S.Accepted(S.MarketCurve(popular, config), unpopular, target, start, ratio, delta);
    ProbeRate(popular, ratio, config);
    S.RateRange(popular, unpopular + delta, config);
  }

  lemma ProbeRate(popular: nat, ratio: nat, config: S.FundingConfig)
    requires S.MarketCurve(popular, config)(ratio).Ok?
    ensures var probe := S.MarketCurve(popular, config)(ratio).value;
            probe.desired <= popular && S.DeriveRate(popular, probe.desired, config) == Ok(probe.rate)
  {
    hide S.DeriveRate, S.DesiredUnpopular;
  }
}
