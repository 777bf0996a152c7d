/**
 * Pollutant buildup on a land use: the buildup functions, their inverse
 * (the equivalent days of dry weather behind a given buildup), buildup
 * from an external loading series, the buildup after a time increment,
 * and the initial buildup of every pollutant on every land use of a
 * subcatchment.
 */
module LanduseBuildup {
  import opened Common
  import opened LanduseTypes

  /** What buildup reads from outside the land use: the math library, the
      unit factors, the current runoff time (0 at the start of a run) and
      each time series' value at the current runoff date. */
  datatype BuildupEnv = BuildupEnv(
    m: MathLib,
    ucf: UnitFactors,
    newRunoffTime: real,
    seriesValue: int -> real)

  /** Days for a power function c1 * t^c2 to reach buildup b. */
  function PowerDays(m: MathLib, b: real, c1: real, c2: real): (days: real)
    ensures m.Valid() && b >= 0.0 && c1 >= 0.0 ==> days >= 0.0
  {
    if c1 == 0.0 || c2 == 0.0 then 0.0
    else
      NonNegativeQuotientIf(b, c1);
      m.pow(b / c1, 1.0 / c2)
  }

  /** Days for an exponential function c0 * (1 - e^(-c1 t)) to reach
      buildup b. */
  function ExponDays(m: MathLib, b: real, c0: real, c1: real): (days: real)
    ensures m.Valid() && 0.0 <= b < c0 && c1 >= 0.0 ==> days >= 0.0
  {
    if c0 == 0.0 || c1 == 0.0 then 0.0
    else
      ExponDaysSign(m, b, c0, c1);
      -m.log(1.0 - b / c0) / c1
  }

  lemma ExponDaysSign(m: MathLib, b: real, c0: real, c1: real)
    requires c0 != 0.0 && c1 != 0.0
    ensures m.Valid() && 0.0 <= b < c0 && c1 >= 0.0 ==> -m.log(1.0 - b / c0) / c1 >= 0.0
  {
    if m.Valid() && 0.0 <= b < c0 && c1 >= 0.0 {
      NonNegativeQuotient(b, c0);
      QuotientBelowOne(b, c0);
      var l := m.log(1.0 - b / c0);
      assert l <= 0.0;
      NonNegativeQuotient(-l, c1);
    }
  }

  /** Days for a saturation function c0 * t / (c2 + t) to reach buildup
      b. */
  function SaturDays(b: real, c0: real, c2: real): (days: real)
    requires b != c0
    ensures 0.0 <= b < c0 && c2 >= 0.0 ==> days >= 0.0
  {
    if c0 == 0.0 then 0.0
    else
      SaturDaysSign(b, c0, c2);
      b * c2 / (c0 - b)
  }

  lemma SaturDaysSign(b: real, c0: real, c2: real)
    requires b != c0
    ensures 0.0 <= b < c0 && c2 >= 0.0 ==> b * c2 / (c0 - b) >= 0.0
  {
    if 0.0 <= b < c0 && c2 >= 0.0 {
      NonNegativeProduct(b, c2);
      NonNegativeQuotient(b * c2, c0 - b);
    }
  }

  lemma NonNegativeQuotientIf(x: real, y: real)
    requires y != 0.0
    ensures x >= 0.0 && y > 0.0 ==> x / y >= 0.0
  {
    if x >= 0.0 && y > 0.0 {
      NonNegativeQuotient(x, y);
    }
  }

  /** The number of days of dry weather it takes function f to accumulate
      `buildup` (mass per unit area or curb length); never negative for a
      valid function and a non-negative buildup. */
  function BuildupDays(f: BuildupFunc, m: MathLib, buildup: real): (days: real)
    ensures buildup == 0.0 ==> days == 0.0
    ensures buildup != 0.0 && buildup >= f.c0 ==> days == f.maxDays
    ensures ValidBuildup(f) && m.Valid() && buildup >= 0.0 ==> days >= 0.0
  {
    if buildup == 0.0 then 0.0
    else if buildup >= f.c0 then f.maxDays
    else
      match f.funcType
      case PowerBuildup => PowerDays(m, buildup, f.c1, f.c2)
      case ExponBuildup => ExponDays(m, buildup, f.c0, f.c1)
      case SaturBuildup => SaturDays(buildup, f.c0, f.c2)
      case _ => 0.0
  }

  /** Power buildup c1 * t^c2 after t days, capped at c0. */
  function PowerMass(m: MathLib, days: real, c0: real, c1: real, c2: real): (b: real)
    ensures b <= c0
    ensures m.Valid() && days >= 0.0 && c0 >= 0.0 && c1 >= 0.0 ==> b >= 0.0
  {
    var p := m.pow(days, c2);
    NonNegativeProductIf(c1, p);
    Min(c1 * p, c0)
  }

  /** Exponential buildup c0 * (1 - e^(-c1 t)) after t days. */
  function ExponMass(m: MathLib, days: real, c0: real, c1: real): (b: real)
    ensures m.Valid() && days >= 0.0 && c0 >= 0.0 && c1 >= 0.0 ==> 0.0 <= b <= c0
  {
    ExponMassBounds(m, days, c0, c1);
    c0 * (1.0 - m.exp(-days * c1))
  }

  lemma ExponMassBounds(m: MathLib, days: real, c0: real, c1: real)
    ensures m.Valid() && days >= 0.0 && c0 >= 0.0 && c1 >= 0.0 ==>
              0.0 <= c0 * (1.0 - m.exp(-days * c1)) <= c0
  {
    if m.Valid() && days >= 0.0 && c0 >= 0.0 && c1 >= 0.0 {
      NonNegativeProduct(days, c1);
      var e := m.exp(-days * c1);
      assert 0.0 < e <= 1.0;
      NonNegativeProduct(c0, 1.0 - e);
      NonNegativeProduct(c0, e);
      assert c0 * (1.0 - e) == c0 - c0 * e;
    }
  }

  /** Saturation buildup c0 * t / (c2 + t) after t days. */
  function SaturMass(days: real, c0: real, c2: real): (b: real)
    requires c2 + days != 0.0
    ensures days > 0.0 && c0 >= 0.0 && c2 >= 0.0 ==> 0.0 <= b <= c0
  {
    SaturMassBounds(days, c0, c2);
    days * c0 / (c2 + days)
  }

  lemma SaturMassBounds(days: real, c0: real, c2: real)
    requires c2 + days != 0.0
    ensures days > 0.0 && c0 >= 0.0 && c2 >= 0.0 ==> 0.0 <= days * c0 / (c2 + days) <= c0
  {
    if days > 0.0 && c0 >= 0.0 && c2 >= 0.0 {
      NonNegativeProduct(days, c0);
      NonNegativeQuotient(days * c0, c2 + days);
      var q := days / (c2 + days);
      QuotientAtMostOne(days, c2 + days);
      assert days * c0 / (c2 + days) == q * c0;
      NonNegativeProduct(c0, 1.0 - q);
    }
  }

  /** The buildup (mass per unit area or curb length) that function f
      reaches after `days` days of dry weather; for a valid function it lies
      between zero and the maximum buildup c0. */
  function BuildupMass(f: BuildupFunc, m: MathLib, days: real): (b: real)
    requires days >= 0.0 && f.c2 >= 0.0
    ensures days == 0.0 ==> b == 0.0
    ensures days != 0.0 && days >= f.maxDays ==> b == f.c0
    ensures f.funcType == PowerBuildup ==> b <= f.c0 || days == 0.0
    ensures ValidBuildup(f) && m.Valid() ==> 0.0 <= b <= f.c0
  {
    if days == 0.0 then 0.0
    else if days >= f.maxDays then f.c0
    else
      match f.funcType
      case PowerBuildup => PowerMass(m, days, f.c0, f.c1, f.c2)
      case ExponBuildup => ExponMass(m, days, f.c0, f.c1)
      case SaturBuildup => SaturMass(days, f.c0, f.c2)
      case _ => 0.0
  }

  /** A saturation function's equivalent days give back the buildup they
      were computed from. */
  lemma SaturInverse(b: real, c0: real, c2: real)
    requires 0.0 < b < c0 && c2 > 0.0
    ensures SaturDays(b, c0, c2) > 0.0
    ensures SaturMass(SaturDays(b, c0, c2), c0, c2) == b
  {
    var d := c0 - b;
    var days := b * c2 / d;
    PositiveProduct(b, c2);
    PositiveQuotient(b * c2, d);
    assert days * d == b * c2;
    assert (c2 + days) * d == c2 * c0 by {
      assert (c2 + days) * d == c2 * d + days * d;
    }
    assert days * c0 == b * (c2 + days) by {
      assert days * c0 * d == b * c2 * c0;
      assert b * (c2 + days) * d == b * c2 * c0;
      ProductCancel(days * c0, b * (c2 + days), d);
    }
  }

  lemma ProductCancel(x: real, y: real, d: real)
    requires d != 0.0 && x * d == y * d
    ensures x == y
  {
    assert (x - y) * d == 0.0;
  }

  /** An exponential function's equivalent days give back the buildup they
      were computed from, given that exp undoes log. */
  lemma ExponInverse(m: MathLib, b: real, c0: real, c1: real)
    requires m.Valid() && m.Inverses()
    requires 0.0 < b < c0 && c1 > 0.0
    ensures ExponDays(m, b, c0, c1) > 0.0
    ensures ExponMass(m, ExponDays(m, b, c0, c1), c0, c1) == b
  {
    var y := 1.0 - b / c0;
    ExponDaysOfFraction(m, b, c0, c1);
    var days := ExponDays(m, b, c0, c1);
    ExpUndoesLog(m, -days * c1, y);
    ExponMassAt(m, days, c0, c1, y);
    FractionRestored(b, c0);
  }

  lemma ExpUndoesLog(m: MathLib, t: real, y: real)
    requires m.Inverses() && y > 0.0 && t == m.log(y)
    ensures m.exp(t) == y
  {
  }

  lemma ExponMassAt(m: MathLib, days: real, c0: real, c1: real, y: real)
    requires m.exp(-days * c1) == y
    ensures ExponMass(m, days, c0, c1) == c0 * (1.0 - y)
  {
  }

  lemma FractionRestored(b: real, c0: real)
    requires c0 > 0.0
    ensures c0 * (1.0 - (1.0 - b / c0)) == b
  {
    assert 1.0 - (1.0 - b / c0) == b / c0;
  }

  /** The equivalent days of an exponential buildup b < c0 are positive and
      undo the exponent: -days * c1 is the log of the fraction still to
      build up. */
  lemma ExponDaysOfFraction(m: MathLib, b: real, c0: real, c1: real)
    requires m.Valid() && m.Inverses()
    requires 0.0 < b < c0 && c1 > 0.0
    ensures 0.0 < 1.0 - b / c0 < 1.0
    ensures ExponDays(m, b, c0, c1) > 0.0
    ensures -ExponDays(m, b, c0, c1) * c1 == m.log(1.0 - b / c0)
  {
    var y := 1.0 - b / c0;
    PositiveQuotient(b, c0);
    QuotientBelowOne(b, c0);
    LogBelowOne(m, y);
    var l := m.log(y);
    NegativeQuotient(l, c1);
    assert -(-l / c1) * c1 == l;
  }

  /** Under exact inverses, the log of a number strictly between 0 and 1 is
      negative. */
  lemma LogBelowOne(m: MathLib, y: real)
    requires m.Valid() && m.Inverses()
    requires 0.0 < y < 1.0
    ensures m.log(y) < 0.0
  {
    assert m.exp(m.log(y)) == y;
  }

  /** A power function's equivalent days give back the buildup they were
      computed from, given that raising to the powers 1/c2 and c2
      cancels. */
  lemma PowerInverse(m: MathLib, b: real, c0: real, c1: real, c2: real)
    requires m.Valid() && m.Inverses()
    requires 0.0 < b < c0 && c1 > 0.0 && c2 > 0.0
    ensures PowerDays(m, b, c1, c2) > 0.0
    ensures PowerMass(m, PowerDays(m, b, c1, c2), c0, c1, c2) == b
  {
    var x := b / c1;
    PositiveQuotient(b, c1);
    var days := m.pow(x, 1.0 / c2);
    assert PowerDays(m, b, c1, c2) == days;
    assert (1.0 / c2) * c2 == 1.0;
    assert m.pow(days, c2) == x;
    assert c1 * x == b;
  }

  /** Buildup days and buildup mass are inverse: the buildup reached after
      the equivalent days of a buildup is that buildup again, as long as
      those days fall short of the time to maximum buildup and the function
      has non-zero rate coefficients. */
  lemma BuildupRoundTrip(f: BuildupFunc, m: MathLib, buildup: real)
    requires ValidBuildup(f) && m.Valid() && m.Inverses()
    requires f.funcType == PowerBuildup || f.funcType == ExponBuildup || f.funcType == SaturBuildup
    requires f.funcType == PowerBuildup ==> f.c1 > 0.0 && f.c2 > 0.0
    requires f.funcType == ExponBuildup ==> f.c1 > 0.0
    requires f.funcType == SaturBuildup ==> f.c2 > 0.0
    requires 0.0 < buildup < f.c0
    requires BuildupDays(f, m, buildup) < f.maxDays
    ensures BuildupMass(f, m, BuildupDays(f, m, buildup)) == buildup
  {
    match f.funcType
    case PowerBuildup => PowerInverse(m, buildup, f.c0, f.c1, f.c2);
    case ExponBuildup => ExponInverse(m, buildup, f.c0, f.c1);
    case SaturBuildup => SaturInverse(buildup, f.c0, f.c2);
  }

  /** Buildup from an external loading series over a time step of tStep
      seconds: the starting buildup plus the scaled series rate (mass per
      unit per day), capped at the maximum buildup c0; nothing at the start
      of a run. */
  function GetExternalBuildup(f: BuildupFunc, env: BuildupEnv, buildup: real, tStep: real): (r: real)
    ensures env.newRunoffTime == 0.0 ==> r == 0.0
    ensures env.newRunoffTime != 0.0 ==> r <= f.c0
  {
    if env.newRunoffTime == 0.0 then 0.0
    else
      var ts := f.c2.Floor;
      var rate := if ts >= 0 then f.c1 * env.seriesValue(ts) else 0.0;
      Min(buildup + rate * tStep / SECperDAY, f.c0)
  }

  /** A non-negative loading never lowers buildup below where it started
      (or the cap, if it started above the cap). */
  lemma ExternalBuildupNotDecreasing(f: BuildupFunc, env: BuildupEnv, buildup: real, tStep: real)
    requires env.newRunoffTime != 0.0 && f.c1 >= 0.0 && tStep >= 0.0
    requires f.c2.Floor >= 0 ==> env.seriesValue(f.c2.Floor) >= 0.0
    ensures GetExternalBuildup(f, env, buildup, tStep) >= Min(buildup, f.c0)
  {
    var ts := f.c2.Floor;
    var rate := if ts >= 0 then f.c1 * env.seriesValue(ts) else 0.0;
    if ts >= 0 {
      NonNegativeProduct(f.c1, env.seriesValue(ts));
    }
    NonNegativeProduct(rate, tStep);
    NonNegativeQuotient(rate * tStep, SECperDAY);
  }

  /** A positive loading over the step that stays below the cap raises the
      buildup by exactly the loading. */
  lemma ExternalLoadingAddsBuildup(f: BuildupFunc, env: BuildupEnv, buildup: real, tStep: real)
    requires env.newRunoffTime != 0.0 && f.c2.Floor >= 0
    requires f.c1 * env.seriesValue(f.c2.Floor) * tStep > 0.0
    requires buildup + f.c1 * env.seriesValue(f.c2.Floor) * tStep / SECperDAY <= f.c0
    ensures GetExternalBuildup(f, env, buildup, tStep)
         == buildup + f.c1 * env.seriesValue(f.c2.Floor) * tStep / SECperDAY
    ensures GetExternalBuildup(f, env, buildup, tStep) > buildup
  {
    PositiveQuotient(f.c1 * env.seriesValue(f.c2.Floor) * tStep, SECperDAY);
  }

  /** A loading that would take the buildup past the cap leaves it at the
      cap; without a series (a negative index) the buildup only gets
      capped. */
  lemma ExternalBuildupCapped(f: BuildupFunc, env: BuildupEnv, buildup: real, tStep: real)
    requires env.newRunoffTime != 0.0
    ensures f.c2.Floor >= 0 && buildup + f.c1 * env.seriesValue(f.c2.Floor) * tStep / SECperDAY >= f.c0 ==>
              GetExternalBuildup(f, env, buildup, tStep) == f.c0
    ensures f.c2.Floor < 0 ==> GetExternalBuildup(f, env, buildup, tStep) == Min(buildup, f.c0)
  {
    if f.c2.Floor < 0 {
      assert 0.0 * tStep / SECperDAY == 0.0;
    }
  }

  /** The quantity buildup is normalised to. */
  function PerUnit(f: BuildupFunc, area: real, curb: real): (u: real)
    ensures u == area || u == curb
    ensures area >= 0.0 && curb >= 0.0 ==> u >= 0.0
  {
    match f.normalizer
    case PerArea => area
    case PerCurb => curb
  }

  /** The buildup per unit of normaliser after tStep more seconds,
      starting from b per unit: the external loading for an external
      function, otherwise the buildup function advanced from the equivalent
      days of b. It never exceeds the maximum c0, and only an external
      loading can make it negative. */
  function AdvancedBuildup(f: BuildupFunc, env: BuildupEnv, b: real, tStep: real): (r: real)
    requires ValidBuildup(f) && env.m.Valid() && b >= 0.0 && tStep >= 0.0
    ensures r <= f.c0
    ensures f.funcType != ExternalBuildup ==> r >= 0.0
  {
    if f.funcType == ExternalBuildup then GetExternalBuildup(f, env, b, tStep)
    else
      NonNegativeQuotient(tStep, SECperDAY);
      BuildupMass(f, env.m, BuildupDays(f, env.m, b) + tStep / SECperDAY)
  }

  /** The buildup (mass) on a land use of the given area and curb length
      after tStep more seconds, starting from `buildup`. After a time
      increment it never exceeds the function's maximum over the land use,
      and only an external loading can make it negative. */
  function GetBuildup(f: BuildupFunc, env: BuildupEnv, area: real, curb: real,
                      buildup: real, tStep: real): (r: real)
    requires ValidBuildup(f) && env.m.Valid()
    requires area >= 0.0 && curb >= 0.0 && buildup >= 0.0 && tStep >= 0.0
    ensures f.funcType == NoBuildup || tStep == 0.0 ==> r == buildup
    ensures f.funcType != NoBuildup && tStep != 0.0 && PerUnit(f, area, curb) == 0.0 ==> r == 0.0
    ensures f.funcType != NoBuildup && tStep != 0.0 ==> r <= f.c0 * PerUnit(f, area, curb)
    ensures f.funcType != ExternalBuildup ==> r >= 0.0
  {
    if f.funcType == NoBuildup || tStep == 0.0 then buildup
    else if PerUnit(f, area, curb) == 0.0 then 0.0
    else
      ScaledBuildup(f, env, PerUnit(f, area, curb), buildup, tStep)
  }

  /** The advanced buildup per unit, scaled back to mass over perUnit
      units. */
  function ScaledBuildup(f: BuildupFunc, env: BuildupEnv, perUnit: real, buildup: real,
                         tStep: real): (r: real)
    requires ValidBuildup(f) && env.m.Valid()
    requires perUnit > 0.0 && buildup >= 0.0 && tStep >= 0.0
    ensures r <= f.c0 * perUnit
    ensures f.funcType != ExternalBuildup ==> r >= 0.0
  {
    NonNegativeQuotient(buildup, perUnit);
    ScaleUp(AdvancedBuildup(f, env, buildup / perUnit, tStep), f.c0, perUnit,
            f.funcType != ExternalBuildup)
  }

  /** A buildup per unit a, known to be at most c0 (and, when nonNegative
      holds, at least 0), scaled to perUnit units. */
  function ScaleUp(a: real, c0: real, perUnit: real, nonNegative: bool): (r: real)
    requires perUnit > 0.0 && a <= c0 && (nonNegative ==> a >= 0.0)
    ensures r <= c0 * perUnit
    ensures nonNegative ==> r >= 0.0
  {
    ProductMonotone(a, c0, perUnit);
    NonNegativeProductIf(a, perUnit);
    a * perUnit
  }

  /** The area of a land use on a subcatchment, in the user's land-area
      units. */
  function LanduseArea(fraction: real, area: real, ucf: UnitFactors): (a: real)
    ensures fraction >= 0.0 && area >= 0.0 && ucf.landarea > 0.0 ==> a >= 0.0
  {
    NonNegativeProductIf(fraction, area);
    NonNegativeProductIf(fraction * area, ucf.landarea);
    fraction * area * ucf.landarea
  }

  /** The curb length of a land use on a subcatchment. */
  function LanduseCurb(fraction: real, curb: real): (c: real)
    ensures fraction >= 0.0 && curb >= 0.0 ==> c >= 0.0
  {
    NonNegativeProductIf(fraction, curb);
    fraction * curb
  }

  /** The antecedent dry period in seconds. */
  function DrySeconds(startDryDays: real): (s: real)
    ensures startDryDays >= 0.0 ==> s >= 0.0
    ensures s / SECperDAY == startDryDays
  {
    startDryDays * SECperDAY
  }

  lemma NonNegativeProductIf(x: real, y: real)
    ensures x >= 0.0 && y >= 0.0 ==> x * y >= 0.0
  {
    if x >= 0.0 && y >= 0.0 {
      NonNegativeProduct(x, y);
    }
  }

  /** The initial buildup of a pollutant on a land use of area fArea and
      curb length fCurb: the supplied initial loading times the area when
      one was given, otherwise what the buildup function accumulates over
      the antecedent dry period. Only an external loading can make it
      negative. */
  function InitialBuildup(f: BuildupFunc, env: BuildupEnv, initLoading: real,
                          fArea: real, fCurb: real, drySeconds: real): (b: real)
    requires ValidBuildup(f) && env.m.Valid()
    requires fArea >= 0.0 && fCurb >= 0.0 && drySeconds >= 0.0
    ensures initLoading > 0.0 || f.funcType != ExternalBuildup ==> b >= 0.0
  {
    if initLoading > 0.0 then
      NonNegativeProduct(initLoading, fArea);
      initLoading * fArea
    else
      GetBuildup(f, env, fArea, fCurb, 0.0, drySeconds)
  }

  /** Without a supplied loading, the initial buildup is the buildup
      function evaluated at the antecedent dry days, over the land use. */
  lemma InitialBuildupFromDryDays(f: BuildupFunc, env: BuildupEnv, initLoading: real,
                                  fArea: real, fCurb: real, startDryDays: real)
    requires ValidBuildup(f) && env.m.Valid()
    requires fArea >= 0.0 && fCurb >= 0.0 && startDryDays > 0.0
    requires initLoading <= 0.0
    requires f.funcType != NoBuildup && f.funcType != ExternalBuildup
    ensures InitialBuildup(f, env, initLoading, fArea, fCurb, DrySeconds(startDryDays))
              == BuildupMass(f, env.m, startDryDays) * PerUnit(f, fArea, fCurb)
  {
    var u := PerUnit(f, fArea, fCurb);
    var dry := DrySeconds(startDryDays);
    PositiveProduct(startDryDays, SECperDAY);
    if u != 0.0 {
      assert 0.0 / u == 0.0;
      assert AdvancedBuildup(f, env, 0.0, dry) == BuildupMass(f, env.m, startDryDays);
      assert ScaledBuildup(f, env, u, 0.0, dry) == BuildupMass(f, env.m, startDryDays) * u;
    }
  }

  /** Sets the date each land use of a subcatchment was last swept and the
      initial buildup of every pollutant on it. */
  method InitBuildup(lf: LandFactors, landuses: seq<Landuse>, nPolluts: nat, initLoading: seq<real>,
                     area: real, curb: real, env: BuildupEnv, startDryDays: real, startDateTime: real)
    requires lf.Valid() && |landuses| == |lf.fraction| && lf.buildup.Length1 == nPolluts
    requires |initLoading| == nPolluts
    requires forall i :: 0 <= i < |landuses| ==> |landuses[i].buildupFunc| == nPolluts
    requires forall i, p :: 0 <= i < |landuses| && 0 <= p < nPolluts ==>
               ValidBuildup(landuses[i].buildupFunc[p])
    requires forall i :: 0 <= i < |lf.fraction| ==> lf.fraction[i] >= 0.0
    requires env.m.Valid() && env.ucf.landarea > 0.0
    requires area >= 0.0 && curb >= 0.0 && startDryDays >= 0.0
    modifies lf.lastSwept, lf.buildup
    ensures forall i :: 0 <= i < |landuses| ==>
              lf.lastSwept[i] == startDateTime - landuses[i].sweepDays0
    ensures forall i, p :: 0 <= i < |landuses| && 0 <= p < nPolluts ==>
              lf.buildup[i, p] == InitialBuildup(landuses[i].buildupFunc[p], env, initLoading[p],
                                                 LanduseArea(lf.fraction[i], area, env.ucf),
                                                 LanduseCurb(lf.fraction[i], curb), DrySeconds(startDryDays))
  {
    var drySeconds := DrySeconds(startDryDays);
    var n := |landuses|;
    var i := 0;
    while i < n
      invariant 0 <= i <= n
      invariant forall k :: 0 <= k < i ==> lf.lastSwept[k] == startDateTime - landuses[k].sweepDays0
      invariant forall k, p :: 0 <= k < i && 0 <= p < nPolluts ==>
                  lf.buildup[k, p] == InitialBuildup(landuses[k].buildupFunc[p], env, initLoading[p],
                                                     LanduseArea(lf.fraction[k], area, env.ucf),
                                                     LanduseCurb(lf.fraction[k], curb), drySeconds)
    {
      lf.lastSwept[i] := startDateTime - landuses[i].sweepDays0;
      var f := lf.fraction[i];
      var fArea := LanduseArea(f, area, env.ucf);
      var fCurb := LanduseCurb(f, curb);
      var p := 0;
      while p < nPolluts
        invariant 0 <= p <= nPolluts
        invariant forall k :: 0 <= k <= i ==> lf.lastSwept[k] == startDateTime - landuses[k].sweepDays0
        invariant forall k, q :: 0 <= k < i && 0 <= q < nPolluts ==>
                    lf.buildup[k, q] == InitialBuildup(landuses[k].buildupFunc[q], env, initLoading[q],
                                                       LanduseArea(lf.fraction[k], area, env.ucf),
                                                       LanduseCurb(lf.fraction[k], curb), drySeconds)
        invariant forall q :: 0 <= q < p ==>
                    lf.buildup[i, q] == InitialBuildup(landuses[i].buildupFunc[q], env, initLoading[q],
                                                       fArea, fCurb, drySeconds)
      {
        var buildup := 0.0;
        if initLoading[p] > 0.0 {
          buildup := initLoading[p] * fArea;
        } else {
          buildup := GetBuildup(landuses[i].buildupFunc[p], env, fArea, fCurb, buildup, drySeconds);
        }
        lf.buildup[i, p] := buildup;
        p := p + 1;
      }
      i := i + 1;
    }
  }
}
