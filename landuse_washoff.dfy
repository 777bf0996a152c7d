/**
 * Pollutant washoff from a land use: the concentration each washoff
 * function produces, the load exported over a time step, its debit against
 * the in-place buildup array, BMP removal, the area-weighted BMP efficiency
 * of a subcatchment and the load added through a co-pollutant.
 */
module LanduseWashoff {
  import opened Common
  import opened LanduseTypes

  // ---------------------------------------------------------------------
  // Washoff concentration
  // ---------------------------------------------------------------------

  /** Exponential washoff: coeff * (runoff in rainfall units)^expon times
      the buildup in concentration mass units, spread over the runoff
      volume rate runoff * area. */
  function ExponConcentration(m: MathLib, ucf: UnitFactors, coeff: real, expon: real,
                              mcf: real, buildup: real, runoff: real, area: real): (c: real)
    requires mcf != 0.0 && runoff != 0.0 && area != 0.0
    ensures (m.Valid() && ucf.rainfall > 0.0 && mcf > 0.0 && coeff >= 0.0 &&
             buildup >= 0.0 && runoff > 0.0 && area > 0.0) ==> c >= 0.0
  {
    ExponConcentrationSign(m, ucf, coeff, expon, mcf, buildup, runoff, area);
    coeff * m.pow(runoff * ucf.rainfall, expon) * buildup / mcf / (runoff * area)
  }

  lemma ExponConcentrationSign(m: MathLib, ucf: UnitFactors, coeff: real, expon: real,
                               mcf: real, buildup: real, runoff: real, area: real)
    requires mcf != 0.0 && runoff != 0.0 && area != 0.0
    ensures runoff * area != 0.0
    ensures (m.Valid() && ucf.rainfall > 0.0 && mcf > 0.0 && coeff >= 0.0 &&
             buildup >= 0.0 && runoff > 0.0 && area > 0.0) ==>
              coeff * m.pow(runoff * ucf.rainfall, expon) * buildup / mcf / (runoff * area) >= 0.0
  {
    if m.Valid() && ucf.rainfall > 0.0 && mcf > 0.0 && coeff >= 0.0 &&
       buildup >= 0.0 && runoff > 0.0 && area > 0.0 {
      PositiveProduct(runoff, ucf.rainfall);
      var p := m.pow(runoff * ucf.rainfall, expon);
      NonNegativeProduct(coeff, p);
      NonNegativeProduct(coeff * p, buildup);
      NonNegativeQuotient(coeff * p * buildup, mcf);
      PositiveProduct(runoff, area);
      NonNegativeQuotient(coeff * p * buildup / mcf, runoff * area);
    } else if runoff > 0.0 && area > 0.0 {
      PositiveProduct(runoff, area);
    }
  }

  /** Rating-curve washoff: coeff * (runoff * area)^(expon - 1). */
  function RatingConcentration(m: MathLib, coeff: real, expon: real,
                               runoff: real, area: real): (c: real)
    ensures m.Valid() && coeff >= 0.0 && runoff >= 0.0 && area >= 0.0 ==> c >= 0.0
  {
    RatingConcentrationSign(m, coeff, expon, runoff, area);
    coeff * m.pow(runoff * area, expon - 1.0)
  }

  lemma RatingConcentrationSign(m: MathLib, coeff: real, expon: real, runoff: real, area: real)
    ensures m.Valid() && coeff >= 0.0 && runoff >= 0.0 && area >= 0.0 ==>
              coeff * m.pow(runoff * area, expon - 1.0) >= 0.0
  {
    if m.Valid() && coeff >= 0.0 && runoff >= 0.0 && area >= 0.0 {
      NonNegativeProduct(runoff, area);
      NonNegativeProduct(coeff, m.pow(runoff * area, expon - 1.0));
    }
  }

  /** The pollutant concentration (mass/ft3) in the runoff of a land use of
      the given area (ft2) carrying the given buildup, under a runoff rate
      in ft/sec; bType is the land use's buildup function for the same
      pollutant and mcf the pollutant's mass conversion factor. There is no
      washoff without a washoff function, without runoff, or when a buildup
      function exists but nothing has built up; an event mean concentration
      is returned as is. */
  function WashoffQual(wf: WashoffFunc, bType: BuildupType, m: MathLib, ucf: UnitFactors,
                       mcf: real, buildup: real, runoff: real, area: real): (c: real)
    requires mcf != 0.0
    requires wf.funcType == ExponWashoff && runoff != 0.0 ==> area != 0.0
    ensures wf.funcType == NoWashoff || runoff == 0.0 ==> c == 0.0
    ensures bType != NoBuildup && buildup == 0.0 ==> c == 0.0
    ensures (wf.funcType == EmcWashoff && runoff != 0.0 &&
             (bType == NoBuildup || buildup != 0.0)) ==> c == wf.coeff
    ensures (ValidWashoff(wf) && m.Valid() && ucf.rainfall > 0.0 && mcf > 0.0 &&
             buildup >= 0.0 && runoff >= 0.0 && area > 0.0) ==> c >= 0.0
  {
    if wf.funcType == NoWashoff || runoff == 0.0 then 0.0
    else if bType != NoBuildup && buildup == 0.0 then 0.0
    else match wf.funcType
      case ExponWashoff =>
        ExponConcentration(m, ucf, wf.coeff, wf.expon, mcf, buildup, runoff, area)
      case RatingWashoff =>
        RatingConcentration(m, wf.coeff, wf.expon, runoff, area)
      case EmcWashoff => wf.coeff
  }

  /** Every washoff function with a positive coefficient washes off a
      positive concentration from a positive buildup under positive runoff
      over a positive area. */
  lemma WashoffQualPositive(wf: WashoffFunc, bType: BuildupType, m: MathLib, ucf: UnitFactors,
                            mcf: real, buildup: real, runoff: real, area: real)
    requires m.Valid() && ucf.rainfall > 0.0 && mcf > 0.0
    requires wf.funcType != NoWashoff && wf.coeff > 0.0
    requires buildup > 0.0 && runoff > 0.0 && area > 0.0
    ensures WashoffQual(wf, bType, m, ucf, mcf, buildup, runoff, area) > 0.0
  {
    match wf.funcType
    case ExponWashoff =>
      PositiveProduct(runoff, ucf.rainfall);
      var p := m.pow(runoff * ucf.rainfall, wf.expon);
      PositiveProduct(wf.coeff, p);
      PositiveProduct(wf.coeff * p, buildup);
      PositiveQuotient(wf.coeff * p * buildup, mcf);
      PositiveProduct(runoff, area);
      PositiveQuotient(wf.coeff * p * buildup / mcf, runoff * area);
    case RatingWashoff =>
      PositiveProduct(runoff, area);
      PositiveProduct(wf.coeff, m.pow(runoff * area, wf.expon - 1.0));
    case EmcWashoff =>
  }

  /** Exponential washoff is proportional to the buildup: the concentration
      from a buildup b is b times the concentration from a unit buildup. */
  lemma ExponProportionalToBuildup(m: MathLib, ucf: UnitFactors, coeff: real, expon: real,
                                   mcf: real, buildup: real, runoff: real, area: real)
    requires mcf != 0.0 && runoff != 0.0 && area != 0.0
    ensures ExponConcentration(m, ucf, coeff, expon, mcf, buildup, runoff, area)
         == ExponConcentration(m, ucf, coeff, expon, mcf, 1.0, runoff, area) * buildup
  {
    var k := coeff * m.pow(runoff * ucf.rainfall, expon);
    NonZeroFactors(runoff, area);
    QuotientsScale(k, buildup, mcf, runoff * area);
  }

  lemma NonZeroFactors(x: real, y: real)
    requires x != 0.0 && y != 0.0
    ensures x * y != 0.0
  {
  }

  /** Dividing k * b by two non-zero divisors is b times dividing k. */
  lemma QuotientsScale(k: real, b: real, d1: real, d2: real)
    requires d1 != 0.0 && d2 != 0.0
    ensures k * b / d1 / d2 == k * 1.0 / d1 / d2 * b
  {
    var q := k / d1 / d2;
    assert q * d2 == k / d1;
    assert q * d2 * d1 == k;
    assert (q * b) * d2 * d1 == k * b;
  }

  // ---------------------------------------------------------------------
  // Washoff load over a time step
  // ---------------------------------------------------------------------

  /** The load (lb or kg) a land use of area landuseArea exports when runoff
      of concentration q leaves a subcatchment of the given area in volume
      vOutflow: the land use's share of the outflow, converted by mcf. */
  function ExportedLoad(q: real, vOutflow: real, landuseArea: real, area: real, mcf: real): (w: real)
    requires area != 0.0
    ensures (q >= 0.0 && vOutflow >= 0.0 && landuseArea >= 0.0 && area > 0.0 &&
             mcf > 0.0) ==> w >= 0.0
  {
    if q >= 0.0 && vOutflow >= 0.0 && landuseArea >= 0.0 && area > 0.0 && mcf > 0.0 then
      NonNegativeProduct(q, vOutflow);
      NonNegativeProduct(q * vOutflow, landuseArea);
      NonNegativeQuotient(q * vOutflow * landuseArea, area);
      NonNegativeProduct(q * vOutflow * landuseArea / area, mcf);
      q * vOutflow * landuseArea / area * mcf
    else
      q * vOutflow * landuseArea / area * mcf
  }

  /** A washoff load settled against the buildup: the load actually taken,
      the buildup that remains and the load credited to the buildup
      loading totals of the mass balance. */
  datatype Debit = Debit(taken: real, remaining: real, credited: real)

  /** Debits a washoff load against the buildup it comes from. When buildup
      is modelled (or the buildup covers the load) the load is capped at the
      buildup and the buildup reduced by it; otherwise the buildup is
      cleared and the whole load credited to the loading totals, so that the
      mass balance accounts for washoff that never built up. */
  function DebitBuildup(bType: BuildupType, buildup: real, washoff: real): (d: Debit)
    ensures bType != NoBuildup || buildup > washoff ==>
              d.taken == Min(washoff, buildup) && d.credited == 0.0
    ensures !(bType != NoBuildup || buildup > washoff) ==>
              d.taken == washoff && d.remaining == 0.0 && d.credited == washoff
    ensures d.remaining >= 0.0
    ensures d.taken <= washoff
    ensures washoff >= 0.0 ==> d.credited >= 0.0
    ensures bType != NoBuildup || buildup > washoff || buildup == 0.0 ==>
              d.remaining + d.taken == buildup + d.credited
  {
    if bType != NoBuildup || buildup > washoff then
      var taken := Min(washoff, buildup);
      Debit(taken, buildup - taken, 0.0)
    else
      Debit(washoff, 0.0, washoff)
  }

  /** A load after BMP treatment and the amount the BMP removed. */
  datatype Treated = Treated(load: real, removed: real)

  /** Applies a BMP removal efficiency to a load; a removal that would not
      be positive is not applied. */
  function BmpTreatment(bmpEffic: real, load: real): (t: Treated)
    ensures t.load + t.removed == load
    ensures t.removed == 0.0 || (t.removed > 0.0 && t.removed == bmpEffic * load)
    ensures 0.0 <= bmpEffic <= 1.0 && load >= 0.0 ==> 0.0 <= t.load <= load
  {
    if bmpEffic * load > 0.0 then
      if 0.0 <= bmpEffic <= 1.0 && load >= 0.0 then
        ProductMonotone(bmpEffic, 1.0, load);
        Treated(load - bmpEffic * load, bmpEffic * load)
      else
        Treated(load - bmpEffic * load, bmpEffic * load)
    else
      Treated(load, 0.0)
  }

  /** What washing off a pollutant from a land use over a time step yields:
      the load returned (in concentration mass units), the buildup left,
      the load credited to the buildup loading totals and the BMP
      removal (both in lb or kg). */
  datatype WashoffOutcome = WashoffOutcome(
    load: real,
    buildup: real,
    toBuildupTotals: real,
    bmpRemoval: real)

  /** Treats a settled debit with a BMP and converts the load back to
      concentration mass units. */
  function Settle(d: Debit, bmpEffic: real, mcf: real): (o: WashoffOutcome)
    requires mcf > 0.0
    ensures o.buildup == d.remaining && o.toBuildupTotals == d.credited
    ensures o.load * mcf + o.bmpRemoval == d.taken && o.bmpRemoval >= 0.0
    ensures 0.0 <= bmpEffic <= 1.0 && d.taken >= 0.0 ==> o.load >= 0.0
  {
    Settled(BmpTreatment(bmpEffic, d.taken), d, mcf)
  }

  function Settled(t: Treated, d: Debit, mcf: real): (o: WashoffOutcome)
    requires mcf > 0.0
    ensures o.buildup == d.remaining && o.toBuildupTotals == d.credited
    ensures o.load * mcf == t.load
    ensures t.load >= 0.0 ==> o.load >= 0.0
  {
    NonNegativeQuotientIf(t.load, mcf);
    assert t.load / mcf * mcf == t.load;
    WashoffOutcome(t.load / mcf, d.remaining, d.credited, t.removed)
  }

  lemma NonNegativeQuotientIf(x: real, y: real)
    requires y > 0.0
    ensures x >= 0.0 ==> x / y >= 0.0
  {
    if x >= 0.0 {
      NonNegativeQuotient(x, y);
    }
  }

  /** The washoff of one pollutant from one land use over a time step, on a
      subcatchment of the given area (ft2) of which the land use covers
      landuseArea. The buildup never goes negative; when buildup is
      modelled, the load exported plus the BMP removal is exactly what the
      buildup lost, and nothing is credited to the loading totals; the load
      is never negative for valid functions and non-negative flows. */
  function Washoff(wf: WashoffFunc, bType: BuildupType, m: MathLib, ucf: UnitFactors, mcf: real,
                   buildup: real, landuseArea: real, area: real, runoff: real, vOutflow: real)
    : (o: WashoffOutcome)
    requires mcf > 0.0 && area > 0.0 && landuseArea != 0.0
    ensures o.buildup >= 0.0
    ensures bType != NoBuildup || buildup == 0.0 ==>
              o.buildup + o.load * mcf + o.bmpRemoval == buildup + o.toBuildupTotals
    ensures bType != NoBuildup ==> o.toBuildupTotals == 0.0
    ensures o.bmpRemoval >= 0.0
    ensures (ValidWashoff(wf) && m.Valid() && ucf.rainfall > 0.0 && buildup >= 0.0 &&
             landuseArea > 0.0 && runoff >= 0.0 && vOutflow >= 0.0) ==> o.load >= 0.0
  {
    var load := ExportedLoad(WashoffQual(wf, bType, m, ucf, mcf, buildup, runoff, landuseArea),
                             vOutflow, landuseArea, area, mcf);
    var d := DebitBuildup(bType, buildup, load);
    assert d.remaining >= 0.0;
    Settle(d, wf.bmpEffic, mcf)
  }

  lemma NonZeroProduct(x: real, y: real)
    requires x != 0.0 && y > 0.0
    ensures x * y != 0.0 && (x > 0.0 ==> x * y > 0.0)
  {
    if x > 0.0 {
      PositiveProduct(x, y);
    } else {
      PositiveProduct(-x, y);
    }
  }

  /** Debits a washoff load against buildup entry [i, p] in place and
      returns the load taken and the load to credit to the buildup loading
      totals, as DebitBuildup describes. Only that entry changes. */
  method DebitInPlace(lf: LandFactors, i: nat, p: nat, bType: BuildupType, washoffLoad: real)
      returns (taken: real, credited: real)
    requires i < lf.buildup.Length0 && p < lf.buildup.Length1
    modifies lf.buildup
    ensures var d := DebitBuildup(bType, old(lf.buildup[i, p]), washoffLoad);
            taken == d.taken && credited == d.credited && lf.buildup[i, p] == d.remaining
    ensures forall k, q :: (0 <= k < lf.buildup.Length0 && 0 <= q < lf.buildup.Length1 &&
                            (k != i || q != p)) ==> lf.buildup[k, q] == old(lf.buildup[k, q])
  {
    var buildup := lf.buildup[i, p];
    taken := washoffLoad;
    credited := 0.0;
    if bType != NoBuildup || buildup > washoffLoad {
      taken := Min(washoffLoad, buildup);
      buildup := buildup - taken;
      lf.buildup[i, p] := buildup;
    } else {
      credited := washoffLoad;
      lf.buildup[i, p] := 0.0;
    }
  }

  /** Washes pollutant p off land use i of a subcatchment of the given area
      over a time step, debiting the land use's buildup in place. Returns the
      load in concentration mass units, and the amounts the source passes to
      the mass balance as buildup loading and as BMP removal. Only the
      buildup entry [i, p] changes. */
  method WashoffLoad(lf: LandFactors, i: nat, p: nat, landuse: Landuse, pollut: Pollut,
                     m: MathLib, ucf: UnitFactors, area: real, runoff: real, vOutflow: real)
      returns (load: real, toBuildupTotals: real, bmpRemoval: real)
    requires lf.Valid() && i < |lf.fraction| && p < lf.buildup.Length1
    requires p < |landuse.buildupFunc| && p < |landuse.washoffFunc|
    requires pollut.mcf > 0.0 && area > 0.0 && lf.fraction[i] != 0.0
    modifies lf.buildup
    ensures var o := Washoff(landuse.washoffFunc[p], landuse.buildupFunc[p].funcType, m, ucf,
                             pollut.mcf, old(lf.buildup[i, p]), lf.fraction[i] * area, area,
                             runoff, vOutflow);
            load == o.load && toBuildupTotals == o.toBuildupTotals &&
            bmpRemoval == o.bmpRemoval && lf.buildup[i, p] == o.buildup
    ensures forall k, q :: (0 <= k < lf.buildup.Length0 && 0 <= q < lf.buildup.Length1 &&
                            (k != i || q != p)) ==> lf.buildup[k, q] == old(lf.buildup[k, q])
  {
    var wf := landuse.washoffFunc[p];
    var bType := landuse.buildupFunc[p].funcType;
    var mcf := pollut.mcf;
    var buildup := lf.buildup[i, p];
    NonZeroProduct(lf.fraction[i], area);
    var landuseArea := lf.fraction[i] * area;
    var washoffQual := WashoffQual(wf, bType, m, ucf, mcf, buildup, runoff, landuseArea);
    var washoffLoad := ExportedLoad(washoffQual, vOutflow, landuseArea, area, mcf);
    WashoffByParts(wf, bType, m, ucf, mcf, buildup, landuseArea, area, runoff, vOutflow);
    ghost var b0 := buildup;

    washoffLoad, toBuildupTotals := DebitInPlace(lf, i, p, bType, washoffLoad);

    washoffLoad, bmpRemoval := ApplyBmp(wf.bmpEffic, washoffLoad);
    load := washoffLoad / mcf;
    assert lf.fraction[i] * area == landuseArea && old(lf.buildup[i, p]) == b0;
  }

  /** Removes the BMP's share of a washoff load, as BmpTreatment describes:
      a removal that would not be positive is not applied. */
  method ApplyBmp(bmpEffic: real, washoffLoad: real) returns (load: real, bmpRemoval: real)
    ensures load == BmpTreatment(bmpEffic, washoffLoad).load
    ensures bmpRemoval == BmpTreatment(bmpEffic, washoffLoad).removed
  {
    load := washoffLoad;
    bmpRemoval := bmpEffic * washoffLoad;
    if bmpRemoval > 0.0 {
      load := washoffLoad - bmpRemoval;
    } else {
      bmpRemoval := 0.0;
    }
  }

  /** Washoff field by field, in the steps the in-place method takes. */
  lemma WashoffByParts(wf: WashoffFunc, bType: BuildupType, m: MathLib, ucf: UnitFactors,
                       mcf: real, buildup: real, landuseArea: real, area: real,
                       runoff: real, vOutflow: real)
    requires mcf > 0.0 && area > 0.0 && landuseArea != 0.0
    ensures var o := Washoff(wf, bType, m, ucf, mcf, buildup, landuseArea, area, runoff, vOutflow);
            var q := WashoffQual(wf, bType, m, ucf, mcf, buildup, runoff, landuseArea);
            var d := DebitBuildup(bType, buildup, ExportedLoad(q, vOutflow, landuseArea, area, mcf));
            var t := BmpTreatment(wf.bmpEffic, d.taken);
            o.buildup == d.remaining && o.toBuildupTotals == d.credited && o.bmpRemoval == t.removed &&
            o.load == t.load / mcf
  {
  }

  // ---------------------------------------------------------------------
  // Subcatchment BMP efficiency and co-pollutants
  // ---------------------------------------------------------------------

  /** The BMP removal efficiencies for pollutant p of the first n land uses,
      each weighted by the fraction of the subcatchment the land use
      covers. */
  function WeightedEffic(fraction: seq<real>, landuses: seq<Landuse>, p: nat, n: nat): real
    requires n <= |fraction| && n <= |landuses|
    requires forall k :: 0 <= k < n ==> p < |landuses[k].washoffFunc|
  {
    if n == 0 then 0.0
    else WeightedEffic(fraction, landuses, p, n - 1) +
         fraction[n - 1] * landuses[n - 1].washoffFunc[p].bmpEffic
  }

  /** The total of the first n land-use fractions. */
  function FractionSum(fraction: seq<real>, n: nat): real
    requires n <= |fraction|
  {
    if n == 0 then 0.0 else FractionSum(fraction, n - 1) + fraction[n - 1]
  }

  /** With non-negative fractions and efficiencies in [0, 1], the weighted
      efficiency is non-negative and at most the area fraction covered, so a
      subcatchment fully or partly covered by land uses never gets an
      average efficiency above 1. */
  lemma {:induction false} WeightedEfficBounded(fraction: seq<real>, landuses: seq<Landuse>,
                                                p: nat, n: nat)
    requires n <= |fraction| && n <= |landuses|
    requires forall k :: 0 <= k < n ==> p < |landuses[k].washoffFunc|
    requires forall k :: 0 <= k < n ==> fraction[k] >= 0.0
    requires forall k :: 0 <= k < n ==> 0.0 <= landuses[k].washoffFunc[p].bmpEffic <= 1.0
    ensures 0.0 <= WeightedEffic(fraction, landuses, p, n) <= FractionSum(fraction, n)
  {
    if n > 0 {
      WeightedEfficBounded(fraction, landuses, p, n - 1);
      var e := landuses[n - 1].washoffFunc[p].bmpEffic;
      NonNegativeProduct(fraction[n - 1], e);
      ProductMonotone(e, 1.0, fraction[n - 1]);
    }
  }

  /** The average BMP removal achieved for pollutant p over a subcatchment:
      the area-weighted sum of its land uses' BMP efficiencies. */
  method AvgBmpEffic(lf: LandFactors, landuses: seq<Landuse>, p: nat) returns (r: real)
    requires |landuses| <= |lf.fraction|
    requires forall k :: 0 <= k < |landuses| ==> p < |landuses[k].washoffFunc|
    ensures r == WeightedEffic(lf.fraction, landuses, p, |landuses|)
  {
    r := 0.0;
    var i := 0;
    while i < |landuses|
      invariant 0 <= i <= |landuses|
      invariant r == WeightedEffic(lf.fraction, landuses, p, i)
    {
      r := r + lf.fraction[i] * landuses[i].washoffFunc[p].bmpEffic;
      i := i + 1;
    }
  }

  /** Washoff added to a pollutant through its co-pollutant, and the same
      amount in lb or kg, which is credited to the buildup loading totals. */
  datatype CoLoad = CoLoad(w: real, credited: real)

  /** The washoff rate a pollutant picks up as a fixed fraction of its
      co-pollutant's washoff rate; nothing without a co-pollutant. */
  function CoPollutLoad(pollut: Pollut, washoff: seq<real>): (c: CoLoad)
    requires pollut.coPollut < |washoff|
    ensures pollut.coPollut < 0 ==> c.w == 0.0 && c.credited == 0.0
    ensures c.credited == c.w * pollut.mcf
    ensures pollut.mcf > 0.0 ==> (c.credited >= 0.0 <==> c.w >= 0.0)
    ensures (pollut.coPollut >= 0 && 0.0 <= pollut.coFraction <= 1.0 &&
             washoff[pollut.coPollut] >= 0.0) ==> 0.0 <= c.w <= washoff[pollut.coPollut]
    ensures (pollut.coPollut >= 0 && pollut.coFraction > 0.0 &&
             washoff[pollut.coPollut] > 0.0) ==> c.w > 0.0
    ensures pollut.coPollut >= 0 && pollut.coFraction == 1.0 ==> c.w == washoff[pollut.coPollut]
  {
    if pollut.coPollut >= 0 then
      CoPollutShare(pollut.coFraction, washoff[pollut.coPollut], pollut.mcf)
    else
      CoLoad(0.0, 0.0)
  }

  function CoPollutShare(coFraction: real, washoff: real, mcf: real): (c: CoLoad)
    ensures c.credited == c.w * mcf
    ensures mcf > 0.0 ==> (c.credited >= 0.0 <==> c.w >= 0.0)
    ensures 0.0 <= coFraction <= 1.0 && washoff >= 0.0 ==> 0.0 <= c.w <= washoff
    ensures coFraction > 0.0 && washoff > 0.0 ==> c.w > 0.0
    ensures coFraction == 1.0 ==> c.w == washoff
  {
    CoPollutShareSign(coFraction, washoff, mcf);
    var w := coFraction * washoff;
    CoLoad(w, w * mcf)
  }

  lemma CoPollutShareSign(coFraction: real, washoff: real, mcf: real)
    ensures mcf > 0.0 ==> (coFraction * washoff * mcf >= 0.0 <==> coFraction * washoff >= 0.0)
    ensures 0.0 <= coFraction <= 1.0 && washoff >= 0.0 ==>
              0.0 <= coFraction * washoff <= washoff
    ensures coFraction > 0.0 && washoff > 0.0 ==> coFraction * washoff > 0.0
    ensures coFraction == 1.0 ==> coFraction * washoff == washoff
  {
    if coFraction > 0.0 && washoff > 0.0 {
      PositiveProduct(coFraction, washoff);
    }
    if mcf > 0.0 {
      if coFraction * washoff >= 0.0 {
        NonNegativeProduct(coFraction * washoff, mcf);
      } else {
        NegativeProductLeft(coFraction * washoff, mcf);
      }
    }
    if 0.0 <= coFraction <= 1.0 && washoff >= 0.0 {
      NonNegativeProduct(coFraction, washoff);
      ProductMonotone(coFraction, 1.0, washoff);
    }
  }

  lemma NegativeProductLeft(x: real, y: real)
    requires x < 0.0 && y > 0.0
    ensures x * y < 0.0
  {
    PositiveProduct(-x, y);
  }
}
