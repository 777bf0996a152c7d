/**
 * The groundwater flux calculator: evaporation from the upper and lower
 * zones, percolation from the upper to the lower zone, deep loss, and
 * lateral exchange with the drainage node, each held within the limits the
 * step driver set for the step; and the right-hand side of the two-state
 * ODE built from them.
 *
 * The scratch structure the source shares between these routines is the
 * class GwaterShared: its `ctx` holds what the step driver sets once per
 * step, its other fields the flux values each evaluation leaves behind.
 */
module GwaterFlux {
  import opened Common
  import opened Aquifers
  import opened GwaterVars

  /** Lateral flow coefficients of a groundwater record. */
  datatype LateralCoeffs = LateralCoeffs(a1: real, b1: real, a2: real, b2: real, a3: real)

  /** What the step driver establishes for one step (internal units). */
  datatype FluxContext = FluxContext(
    A: Aquifer,                       // the aquifer
    coeffs: LateralCoeffs,            // lateral flow coefficients
    latFlowExpr: Option<MathExpr>,    // user lateral flow expression
    deepFlowExpr: Option<MathExpr>,   // user deep flow expression
    fracPerv: real,                   // pervious fraction of the area
    area: real,                       // subcatchment area (ft2)
    infil: real,                      // surface infiltration (ft/sec)
    tStep: real,                      // time step (sec)
    maxEvap: real,                    // maximum evaporation (ft/sec)
    availEvap: real,                  // evaporation still available (ft/sec)
    totalDepth: real,                 // upper + lower zone depth (ft)
    hstar: real,                      // height of node invert above aquifer bottom (ft)
    hsw: real,                        // height of surface water above aquifer bottom (ft)
    maxUpperPerc: real,               // upper bound on percolation (ft/sec)
    maxGWFlowPos: real,               // upper bound on lateral outflow (ft/sec)
    maxGWFlowNeg: real,               // lower bound on lateral inflow (ft/sec)
    patterns: seq<seq<real>>,         // time pattern factors
    month: int,                       // month of the current date (1..12)
    ucf: UnitFactors,
    math: MathLib)
  {
    /** The monthly factor for upper-zone evaporation can be looked up. */
    predicate PatternDefined() {
      A.upperEvapPat >= 0 ==> A.upperEvapPat < |patterns| && 1 <= month <= |patterns[A.upperEvapPat]|
    }

    /** What every flux evaluation within a step may rely on. */
    predicate Ready() {
      ucf.Positive() && totalDepth > 0.0 && tStep > 0.0 && PatternDefined()
    }
  }

  /** The values one flux evaluation leaves behind. */
  datatype Fluxes = Fluxes(
    hgw: real,          // lower zone depth used (ft)
    theta: real,        // upper zone moisture used
    upperEvap: real,    // upper zone evaporation (ft/sec)
    lowerEvap: real,    // lower zone evaporation (ft/sec)
    upperPerc: real,    // percolation to the lower zone (ft/sec)
    hydCon: real,       // unsaturated hydraulic conductivity (ft/sec)
    lowerLoss: real,    // deep loss (ft/sec)
    gwFlow: real)       // lateral flow to the node (ft/sec)

  // ---------------------------------------------------------------------
  // Evaporation
  // ---------------------------------------------------------------------

  /** The upper-zone evaporation fraction adjusted by the monthly pattern. */
  function UpperEvapFraction(c: FluxContext): (f: real)
    requires c.PatternDefined()
    ensures c.A.upperEvapPat < 0 ==> f == c.A.upperEvapFrac
    ensures c.A.upperEvapPat >= 0 ==>
              f == c.A.upperEvapFrac * c.patterns[c.A.upperEvapPat][c.month - 1]
  {
    var factor := if c.A.upperEvapPat >= 0 then c.patterns[c.A.upperEvapPat][c.month - 1] else 1.0;
    c.A.upperEvapFrac * factor
  }

  /** The part of the lower evaporation depth that reaches into the
      saturated zone, as a fraction of that depth. */
  function LowerEvapFraction(lowerEvapDepth: real, upperDepth: real): (f: real)
    requires lowerEvapDepth > 0.0
    ensures 0.0 <= f <= 1.0
    ensures upperDepth <= 0.0 ==> f == 1.0
    ensures upperDepth >= lowerEvapDepth ==> f == 0.0
  {
    var r := (lowerEvapDepth - upperDepth) / lowerEvapDepth;
    if upperDepth <= 0.0 then
      QuotientAtLeastOne(lowerEvapDepth - upperDepth, lowerEvapDepth);
      Min(Max(0.0, r), 1.0)
    else if upperDepth >= lowerEvapDepth then
      NonPositiveQuotient(lowerEvapDepth - upperDepth, lowerEvapDepth);
      Min(Max(0.0, r), 1.0)
    else
      Min(Max(0.0, r), 1.0)
  }

  /** Within the lower evaporation depth the fraction is the share of that
      depth lying below the upper zone. */
  lemma LowerEvapFractionProportional(lowerEvapDepth: real, upperDepth: real)
    requires lowerEvapDepth > 0.0 && 0.0 <= upperDepth <= lowerEvapDepth
    ensures LowerEvapFraction(lowerEvapDepth, upperDepth) * lowerEvapDepth == lowerEvapDepth - upperDepth
  {
    var r := (lowerEvapDepth - upperDepth) / lowerEvapDepth;
    NonNegativeQuotient(lowerEvapDepth - upperDepth, lowerEvapDepth);
    QuotientAtMostOne(lowerEvapDepth - upperDepth, lowerEvapDepth);
    assert LowerEvapFraction(lowerEvapDepth, upperDepth) == r;
    assert r * lowerEvapDepth == lowerEvapDepth - upperDepth;
  }

  datatype EvapSplit = EvapSplit(upper: real, lower: real)

  /** Upper-zone evaporation when nothing infiltrates: none from a zone at
      or below the wilting point, else the zone's share of the maximum,
      limited to what is available. */
  function UpperEvap(c: FluxContext, theta: real): (u: real)
    requires c.PatternDefined()
    ensures theta <= c.A.wiltingPoint ==> u == 0.0
    ensures c.availEvap >= 0.0 ==> u <= c.availEvap
  {
    if theta > c.A.wiltingPoint then Min(UpperEvapFraction(c) * c.maxEvap, c.availEvap) else 0.0
  }

  /** Lower-zone evaporation when nothing infiltrates and the upper zone
      takes `upper`: the rest of the maximum, scaled by how far the lower
      evaporation depth reaches into the saturated zone, limited to what
      the upper zone left. */
  function LowerEvap(c: FluxContext, upperDepth: real, upper: real): (l: real)
    requires c.PatternDefined()
    ensures c.A.lowerEvapDepth <= 0.0 ==> l == 0.0
    ensures l <= c.availEvap - upper || c.A.lowerEvapDepth <= 0.0
    ensures (0.0 < c.A.lowerEvapDepth && upperDepth < c.A.lowerEvapDepth &&
             0.0 <= UpperEvapFraction(c) < 1.0 && c.maxEvap > 0.0 && upper < c.availEvap) ==> l > 0.0
  {
    if c.A.lowerEvapDepth > 0.0 then
      var f := UpperEvapFraction(c);
      var lf := LowerEvapFraction(c.A.lowerEvapDepth, upperDepth);
      assert upperDepth < c.A.lowerEvapDepth && 0.0 <= f < 1.0 && c.maxEvap > 0.0 ==>
               lf * (1.0 - f) * c.maxEvap > 0.0 by {
        if upperDepth < c.A.lowerEvapDepth && 0.0 <= f < 1.0 && c.maxEvap > 0.0 {
          LowerEvapFractionPositive(c.A.lowerEvapDepth, upperDepth);
          PositiveTriple(lf, 1.0 - f, c.maxEvap);
        }
      }
      Min(lf * (1.0 - f) * c.maxEvap, c.availEvap - upper)
    else 0.0
  }

  /** Evaporation from the upper and lower zones: none while water
      infiltrates. */
  function EvapRates(c: FluxContext, theta: real, upperDepth: real): (e: EvapSplit)
    requires c.PatternDefined()
    ensures c.infil > 0.0 ==> e == EvapSplit(0.0, 0.0)
    ensures theta <= c.A.wiltingPoint ==> e.upper == 0.0
    ensures c.A.lowerEvapDepth <= 0.0 ==> e.lower == 0.0
    ensures c.availEvap >= 0.0 ==> e.upper <= c.availEvap && e.lower <= c.availEvap - e.upper
  {
    if c.infil > 0.0 then EvapSplit(0.0, 0.0)
    else
      var upper := UpperEvap(c, theta);
      EvapSplit(upper, LowerEvap(c, upperDepth, upper))
  }

  /** Neither zone gives back water by evaporating when the evaporation
      available and the adjusted upper fraction are in their physical
      ranges. */
  lemma EvapRatesNonNegative(c: FluxContext, theta: real, upperDepth: real)
    requires c.PatternDefined()
    requires c.availEvap >= 0.0 && c.maxEvap >= 0.0
    requires 0.0 <= UpperEvapFraction(c) <= 1.0
    ensures EvapRates(c, theta, upperDepth).upper >= 0.0
    ensures EvapRates(c, theta, upperDepth).lower >= 0.0
  {
    if c.infil <= 0.0 {
      var upper := UpperEvap(c, theta);
      assert upper >= 0.0 by {
        NonNegativeProduct(UpperEvapFraction(c), c.maxEvap);
      }
      LowerEvapNonNegative(c, upperDepth, upper);
    }
  }

  /** The lower zone never gives back water when the upper zone took no
      more than was available. */
  lemma LowerEvapNonNegative(c: FluxContext, upperDepth: real, upper: real)
    requires c.PatternDefined()
    requires c.maxEvap >= 0.0 && 0.0 <= UpperEvapFraction(c) <= 1.0 && upper <= c.availEvap
    ensures LowerEvap(c, upperDepth, upper) >= 0.0
  {
    if c.A.lowerEvapDepth > 0.0 {
      var f := UpperEvapFraction(c);
      var lf := LowerEvapFraction(c.A.lowerEvapDepth, upperDepth);
      NonNegativeProduct(lf, 1.0 - f);
      NonNegativeProduct(lf * (1.0 - f), c.maxEvap);
    }
  }

  /** Above the wilting point, with nothing infiltrating and evaporation
      both wanted and available, the upper zone evaporates, at the
      smaller of its share of the maximum rate and what is available. */
  lemma UpperZoneEvaporates(c: FluxContext, theta: real, upperDepth: real)
    requires c.PatternDefined()
    requires c.infil <= 0.0 && theta > c.A.wiltingPoint
    requires UpperEvapFraction(c) * c.maxEvap > 0.0 && c.availEvap > 0.0
    ensures EvapRates(c, theta, upperDepth).upper > 0.0
    ensures EvapRates(c, theta, upperDepth).upper == UpperEvapFraction(c) * c.maxEvap ||
            EvapRates(c, theta, upperDepth).upper == c.availEvap
  {
  }

  /** With nothing infiltrating, a lower evaporation depth reaching below
      the upper zone, an upper fraction below 1 and more evaporation
      available than the upper zone can use, the lower zone evaporates
      too. */
  lemma LowerZoneEvaporates(c: FluxContext, theta: real, upperDepth: real)
    requires c.PatternDefined()
    requires c.infil <= 0.0 && c.A.lowerEvapDepth > 0.0 && c.A.lowerEvapDepth > upperDepth
    requires 0.0 <= UpperEvapFraction(c) < 1.0 && c.maxEvap > 0.0
    requires c.availEvap > UpperEvapFraction(c) * c.maxEvap
    ensures EvapRates(c, theta, upperDepth).lower > 0.0
  {
    var upper := UpperEvap(c, theta);
    NonNegativeProduct(UpperEvapFraction(c), c.maxEvap);
    assert upper < c.availEvap;
  }

  lemma PositiveTriple(x: real, y: real, z: real)
    requires x > 0.0 && y > 0.0 && z > 0.0
    ensures x * y * z > 0.0
  {
    PositiveProduct(x, y);
    PositiveProduct(x * y, z);
  }

  /** The lower evaporation depth reaches into the saturated zone whenever
      it is deeper than the upper zone. */
  lemma LowerEvapFractionPositive(lowerEvapDepth: real, upperDepth: real)
    requires lowerEvapDepth > 0.0 && lowerEvapDepth > upperDepth
    ensures LowerEvapFraction(lowerEvapDepth, upperDepth) > 0.0
  {
    PositiveQuotient(lowerEvapDepth - upperDepth, lowerEvapDepth);
  }

  // ---------------------------------------------------------------------
  // Percolation
  // ---------------------------------------------------------------------

  /** Percolation needs an upper zone and moisture above field capacity. */
  predicate Percolates(c: FluxContext, theta: real, upperDepth: real) {
    upperDepth > 0.0 && theta > c.A.fieldCapacity
  }

  /** Unsaturated hydraulic conductivity at moisture theta. */
  function UnsatConductivity(c: FluxContext, theta: real): real {
    c.A.conductivity * MoistureFactor(c, theta)
  }

  /** The factor exp((theta - porosity) * conductSlope) by which the
      saturated conductivity is reduced. */
  function MoistureFactor(c: FluxContext, theta: real): (e: real)
    ensures c.math.Valid() ==> e > 0.0
    ensures c.math.Valid() && theta <= c.A.porosity && c.A.conductSlope >= 0.0 ==> e <= 1.0
    ensures theta == c.A.porosity ==> e == c.math.exp(0.0)
  {
    var d := theta - c.A.porosity;
    if d <= 0.0 && c.A.conductSlope >= 0.0 then
      ProductMonotone(d, 0.0, c.A.conductSlope);
      c.math.exp(d * c.A.conductSlope)
    else c.math.exp(d * c.A.conductSlope)
  }

  /** The unsaturated conductivity is positive, equals the saturated
      conductivity at porosity and does not exceed it below porosity. */
  lemma UnsatConductivityBounds(c: FluxContext, theta: real)
    requires c.math.Valid() && c.A.conductivity > 0.0 && c.A.conductSlope >= 0.0
    ensures UnsatConductivity(c, theta) > 0.0
    ensures theta <= c.A.porosity ==> UnsatConductivity(c, theta) <= c.A.conductivity
    ensures c.math.exp(0.0) == 1.0 && theta == c.A.porosity ==> UnsatConductivity(c, theta) == c.A.conductivity
  {
    var e := MoistureFactor(c, theta);
    assert UnsatConductivity(c, theta) == c.A.conductivity * e;
    ScaleByFactor(c.A.conductivity, e);
  }

  /** A positive quantity scaled by a positive factor stays positive, does
      not grow under a factor of at most 1 and is kept by a factor of 1. */
  lemma ScaleByFactor(k: real, e: real)
    requires k > 0.0 && e > 0.0
    ensures k * e > 0.0
    ensures e <= 1.0 ==> k * e <= k
    ensures e == 1.0 ==> k * e == k
  {
    PositiveProduct(k, e);
    if e <= 1.0 {
      ProductMonotone(e, 1.0, k);
    }
  }

  /** The average head gradient over the upper zone: gravity plus the
      tension term for the moisture above field capacity. */
  function HeadGradient(c: FluxContext, theta: real, upperDepth: real): real
    requires upperDepth > 0.0
  {
    1.0 + c.A.tensionSlope * 2.0 * (theta - c.A.fieldCapacity) / upperDepth
  }

  /** Percolation rate from the upper to the lower zone, before the cap. */
  function PercolationRate(c: FluxContext, theta: real, upperDepth: real): (q: real)
    ensures !Percolates(c, theta, upperDepth) ==> q == 0.0
  {
    if upperDepth <= 0.0 || theta <= c.A.fieldCapacity then 0.0
    else UnsatConductivity(c, theta) * HeadGradient(c, theta, upperDepth)
  }

  /** A moist upper zone over a physically valid aquifer always drains:
      the conductivity is positive and the hydraulic gradient at least 1. */
  lemma PercolationPositive(c: FluxContext, theta: real, upperDepth: real)
    requires c.math.Valid() && c.A.conductivity > 0.0 && c.A.tensionSlope >= 0.0
    requires Percolates(c, theta, upperDepth)
    ensures PercolationRate(c, theta, upperDepth) > 0.0
  {
    var hydcon := UnsatConductivity(c, theta);
    PositiveProduct(c.A.conductivity, c.math.exp((theta - c.A.porosity) * c.A.conductSlope));
    var g := c.A.tensionSlope * 2.0 * (theta - c.A.fieldCapacity);
    NonNegativeProduct(c.A.tensionSlope * 2.0, theta - c.A.fieldCapacity);
    NonNegativeQuotient(g, upperDepth);
    assert HeadGradient(c, theta, upperDepth) >= 1.0;
    PositiveProduct(hydcon, HeadGradient(c, theta, upperDepth));
  }

  // ---------------------------------------------------------------------
  // Deep loss and lateral flow
  // ---------------------------------------------------------------------

  /** Loss to deep groundwater: the user's expression (converted from the
      user's rate units) or the aquifer's loss coefficient applied to the
      saturated fraction, capped so a step cannot drain more than the
      lower zone holds. */
  function DeepLoss(c: FluxContext, lowerDepth: real, table: seq<real>): (q: real)
    requires c.Ready()
    ensures q <= lowerDepth / c.tStep
    ensures c.deepFlowExpr.None? ==> q * c.totalDepth <= c.A.lowerLossCoeff * lowerDepth
    ensures c.deepFlowExpr.Some? ==> q * c.ucf.rainfall <= c.deepFlowExpr.value(table)
    ensures q == lowerDepth / c.tStep ||
            (c.deepFlowExpr.None? && q * c.totalDepth == c.A.lowerLossCoeff * lowerDepth) ||
            (c.deepFlowExpr.Some? && q * c.ucf.rainfall == c.deepFlowExpr.value(table))
  {
    var loss :=
      if c.deepFlowExpr.Some? then c.deepFlowExpr.value(table) / c.ucf.rainfall
      else c.A.lowerLossCoeff * lowerDepth / c.totalDepth;
    Min(loss, lowerDepth / c.tStep)
  }

  /** A step never drains more than the lower zone holds: the loss rate
      times the step is at most the lower zone depth. */
  lemma DeepLossWithinLowerZone(c: FluxContext, lowerDepth: real, table: seq<real>)
    requires c.Ready()
    ensures DeepLoss(c, lowerDepth, table) * c.tStep <= lowerDepth
  {
    var q := DeepLoss(c, lowerDepth, table);
    var cap := lowerDepth / c.tStep;
    assert q <= cap;
    assert cap * c.tStep == lowerDepth;
    assert q * c.tStep <= cap * c.tStep;
  }

  /** Without a user expression, deep loss from a non-empty lower zone with
      a non-negative coefficient is never negative. */
  lemma DeepLossNonNegative(c: FluxContext, lowerDepth: real, table: seq<real>)
    requires c.Ready() && c.deepFlowExpr.None?
    requires c.A.lowerLossCoeff >= 0.0 && lowerDepth >= 0.0
    ensures DeepLoss(c, lowerDepth, table) >= 0.0
  {
    NonNegativeProduct(c.A.lowerLossCoeff, lowerDepth);
    NonNegativeQuotient(c.A.lowerLossCoeff * lowerDepth, c.totalDepth);
    NonNegativeQuotient(lowerDepth, c.tStep);
  }

  /** Without a user expression and with a zero loss coefficient there is
      no deep loss from a non-empty lower zone. */
  lemma NoDeepLossWithoutCoefficient(c: FluxContext, lowerDepth: real, table: seq<real>)
    requires c.Ready() && c.deepFlowExpr.None?
    requires c.A.lowerLossCoeff == 0.0 && lowerDepth >= 0.0
    ensures DeepLoss(c, lowerDepth, table) == 0.0
  {
    NonNegativeQuotient(lowerDepth, c.tStep);
  }

  /** A user deep-flow expression replaces the coefficient formula entirely:
      the loss coefficient has no influence on the result. */
  lemma DeepExprOverridesCoefficient(c: FluxContext, coeff: real, lowerDepth: real, table: seq<real>)
    requires c.Ready() && c.deepFlowExpr.Some?
    ensures DeepLoss(c.(A := c.A.(lowerLossCoeff := coeff)), lowerDepth, table)
         == DeepLoss(c, lowerDepth, table)
  {
  }

  /** The built-in lateral flow formula (ft/sec): a groundwater term, minus
      a surface water term, plus an interaction term. */
  function BuiltinLateralFlow(c: FluxContext, lowerDepth: real): (q: real)
    requires c.ucf.Positive()
    ensures lowerDepth <= c.hstar ==> q == 0.0
    ensures c.coeffs.a3 != 0.0 ==> q >= 0.0
  {
    if lowerDepth <= c.hstar then 0.0
    else
      var q := (GroundwaterTerm(c, lowerDepth) - SurfaceWaterTerm(c) + InteractionTerm(c, lowerDepth))
               / c.ucf.gwflow;
      if q < 0.0 && c.coeffs.a3 != 0.0 then 0.0 else q
  }

  /** The groundwater term a1 * (Hgw - H*)^b1, in the user's units. */
  function GroundwaterTerm(c: FluxContext, lowerDepth: real): real {
    var k := c.coeffs;
    if k.b1 == 0.0 then k.a1
    else k.a1 * c.math.pow((lowerDepth - c.hstar) * c.ucf.length, k.b1)
  }

  /** The surface water term a2 * (Hsw - H*)^b2, in the user's units; a
      zero exponent gives a2 whatever the surface water height. */
  function SurfaceWaterTerm(c: FluxContext): real {
    var k := c.coeffs;
    if k.b2 == 0.0 then k.a2
    else if c.hsw > c.hstar then k.a2 * c.math.pow((c.hsw - c.hstar) * c.ucf.length, k.b2)
    else 0.0
  }

  /** The interaction term a3 * Hgw * Hsw, in the user's units. */
  function InteractionTerm(c: FluxContext, lowerDepth: real): real {
    c.coeffs.a3 * lowerDepth * c.hsw * c.ucf.length * c.ucf.length
  }

  /** Lateral flow to the node: the built-in formula plus any user
      expression (converted from the user's flow units), an outflow capped
      by the lower zone's volume and an inflow by the node's supply. */
  function LateralFlow(c: FluxContext, lowerDepth: real, table: seq<real>): (q: real)
    requires c.ucf.Positive()
    ensures c.maxGWFlowNeg <= 0.0 <= c.maxGWFlowPos ==> c.maxGWFlowNeg <= q <= c.maxGWFlowPos
    ensures c.latFlowExpr.None? && lowerDepth <= c.hstar && c.maxGWFlowPos >= 0.0 ==> q == 0.0
  {
    var builtin := BuiltinLateralFlow(c, lowerDepth);
    var q := if c.latFlowExpr.Some? then builtin + c.latFlowExpr.value(table) / c.ucf.gwflow else builtin;
    if q >= 0.0 then Min(q, c.maxGWFlowPos) else Max(q, c.maxGWFlowNeg)
  }

  /** With only a positive groundwater term enabled, a water table above
      the node invert drives a positive outflow, held within the lower
      zone's volume limit. */
  lemma LateralOutflowAboveInvert(c: FluxContext, lowerDepth: real, table: seq<real>)
    requires c.ucf.Positive() && c.math.Valid()
    requires c.latFlowExpr.None?
    requires c.coeffs.a1 > 0.0 && c.coeffs.a2 == 0.0 && c.coeffs.a3 == 0.0
    requires lowerDepth > c.hstar
    requires c.maxGWFlowPos > 0.0
    ensures 0.0 < LateralFlow(c, lowerDepth, table) <= c.maxGWFlowPos
  {
    var k := c.coeffs;
    if k.b1 != 0.0 {
      PositiveProduct(lowerDepth - c.hstar, c.ucf.length);
      PositiveProduct(k.a1, c.math.pow((lowerDepth - c.hstar) * c.ucf.length, k.b1));
    }
    var t1 := GroundwaterTerm(c, lowerDepth);
    assert t1 > 0.0;
    assert SurfaceWaterTerm(c) == 0.0;
    assert InteractionTerm(c, lowerDepth) == 0.0;
    var n := t1 - SurfaceWaterTerm(c) + InteractionTerm(c, lowerDepth);
    PositiveQuotient(n, c.ucf.gwflow);
  }

  // ---------------------------------------------------------------------
  // All fluxes at one state, and the ODE right-hand side
  // ---------------------------------------------------------------------

  /** The live values the variable table exposes. */
  function Variables(c: FluxContext, hgw: real, theta: real, hydCon: real, upperPerc: real): GwVariables {
    GwVariables(hgw, c.hsw, c.hstar, c.totalDepth, c.A.conductivity, hydCon, theta,
                c.A.porosity, c.infil, upperPerc, c.area)
  }

  /** All fluxes at moisture theta and lower depth lowerDepth; priorHydCon
      is the conductivity the previous evaluation left behind, which stays
      when there is no percolation. */
  function ComputeFluxes(c: FluxContext, theta: real, lowerDepth: real, priorHydCon: real): (f: Fluxes)
    requires c.Ready()
    ensures 0.0 <= f.hgw <= c.totalDepth && f.theta == theta
    ensures 0.0 <= lowerDepth <= c.totalDepth ==> f.hgw == lowerDepth
    ensures c.infil > 0.0 ==> f.upperEvap == 0.0 && f.lowerEvap == 0.0
    ensures f.upperPerc <= c.maxUpperPerc
    ensures !Percolates(c, theta, c.totalDepth - f.hgw) ==> f.upperPerc == Min(0.0, c.maxUpperPerc)
    ensures c.maxGWFlowNeg <= 0.0 <= c.maxGWFlowPos ==> c.maxGWFlowNeg <= f.gwFlow <= c.maxGWFlowPos
    ensures !Percolates(c, theta, c.totalDepth - f.hgw) ==> f.hydCon == priorHydCon
  {
    var hgw := Min(Max(lowerDepth, 0.0), c.totalDepth);
    var upperDepth := c.totalDepth - hgw;
    var e := EvapRates(c, theta, upperDepth);
    var hydCon := if Percolates(c, theta, upperDepth) then UnsatConductivity(c, theta) else priorHydCon;
    var perc := Min(PercolationRate(c, theta, upperDepth), c.maxUpperPerc);
    var table := VariableTable(Variables(c, hgw, theta, hydCon, perc), c.ucf);
    Fluxes(hgw, theta, e.upper, e.lower, perc, hydCon, DeepLoss(c, hgw, table), LateralFlow(c, hgw, table))
  }

  /** Rate of change of a zone's state: its net flux over the zone's
      capacity per unit change, or 0 when that capacity is not positive. */
  function ZoneRate(netFlux: real, denom: real): (r: real)
    ensures denom <= 0.0 ==> r == 0.0
  {
    if denom > 0.0 then netFlux / denom else 0.0
  }

  /** Over a zone with positive capacity the rate times the capacity is the
      zone's net flux. */
  lemma ZoneRateBalances(netFlux: real, denom: real)
    requires denom > 0.0
    ensures ZoneRate(netFlux, denom) * denom == netFlux
  {
  }

  /** d(theta)/dt and d(lowerDepth)/dt at state x, given the fluxes f
      evaluated there. */
  function Derivatives(c: FluxContext, x0: real, x1: real, f: Fluxes): (d: (real, real))
    ensures c.totalDepth - x1 <= 0.0 ==> d.0 == 0.0
    ensures c.A.porosity - x0 <= 0.0 ==> d.1 == 0.0
  {
    (ZoneRate(c.infil - f.upperEvap - f.upperPerc, c.totalDepth - x1),
     ZoneRate(f.upperPerc - f.lowerLoss - f.lowerEvap - f.gwFlow, c.A.porosity - x0))
  }

  /** The derivatives conserve water: the upper zone's moisture changes by
      its net inflow over its depth, the lower zone's depth by its net
      inflow over the upper zone's unfilled porosity. */
  lemma DerivativesConserveWater(c: FluxContext, x0: real, x1: real, f: Fluxes)
    ensures var d := Derivatives(c, x0, x1, f);
            && (c.totalDepth - x1 > 0.0 ==>
                  d.0 * (c.totalDepth - x1) == c.infil - f.upperEvap - f.upperPerc)
            && (c.A.porosity - x0 > 0.0 ==>
                  d.1 * (c.A.porosity - x0) == f.upperPerc - f.lowerLoss - f.lowerEvap - f.gwFlow)
  {
    if c.totalDepth - x1 > 0.0 {
      ZoneRateBalances(c.infil - f.upperEvap - f.upperPerc, c.totalDepth - x1);
    }
    if c.A.porosity - x0 > 0.0 {
      ZoneRateBalances(f.upperPerc - f.lowerLoss - f.lowerEvap - f.gwFlow, c.A.porosity - x0);
    }
  }

  /** With no infiltration, no evaporation, no deep loss and no lateral
      exchange, water percolating out of a moist upper zone drains it and
      fills the lower zone. */
  lemma PercolationMovesWaterDown(c: FluxContext, theta: real, lowerDepth: real, priorHydCon: real)
    requires c.Ready() && c.math.Valid()
    requires c.infil == 0.0 && c.maxEvap == 0.0 && c.availEvap == 0.0
    requires c.A.conductivity > 0.0 && c.A.tensionSlope >= 0.0 && c.A.lowerLossCoeff == 0.0
    requires c.deepFlowExpr.None? && c.latFlowExpr.None?
    requires c.maxGWFlowNeg <= 0.0 <= c.maxGWFlowPos
    requires c.A.fieldCapacity < theta < c.A.porosity
    requires 0.0 <= lowerDepth < c.totalDepth && lowerDepth <= c.hstar
    requires c.maxUpperPerc > 0.0
    ensures var f := ComputeFluxes(c, theta, lowerDepth, priorHydCon);
            var d := Derivatives(c, theta, lowerDepth, f);
            f.upperPerc > 0.0 && f.gwFlow == 0.0 && d.0 < 0.0 && d.1 > 0.0
  {
    var f := ComputeFluxes(c, theta, lowerDepth, priorHydCon);
    var upperDepth := c.totalDepth - lowerDepth;
    assert f.hgw == lowerDepth;
    assert Percolates(c, theta, upperDepth);
    PercolationPositive(c, theta, upperDepth);
    assert f.upperPerc > 0.0;
    var e := EvapRates(c, theta, upperDepth);
    assert e.upper == 0.0 by {
      assert UpperEvapFraction(c) * c.maxEvap == 0.0;
    }
    assert e.lower <= 0.0 - e.upper;
    EvapRatesSignAtZero(c, theta, upperDepth);
    var table := VariableTable(Variables(c, lowerDepth, theta, f.hydCon, f.upperPerc), c.ucf);
    NoDeepLossWithoutCoefficient(c, lowerDepth, table);
    assert f.lowerLoss == 0.0;
    var d := Derivatives(c, theta, lowerDepth, f);
    DerivativesConserveWater(c, theta, lowerDepth, f);
    NegativeQuotient(0.0 - f.upperPerc, upperDepth);
    PositiveQuotient(f.upperPerc, c.A.porosity - theta);
  }

  /** With no evaporation available at all, neither zone evaporates. */
  lemma EvapRatesSignAtZero(c: FluxContext, theta: real, upperDepth: real)
    requires c.PatternDefined() && c.availEvap == 0.0 && c.maxEvap == 0.0
    ensures EvapRates(c, theta, upperDepth) == EvapSplit(0.0, 0.0)
  {
    if c.infil <= 0.0 {
      var f := UpperEvapFraction(c);
      assert f * c.maxEvap == 0.0;
      if c.A.lowerEvapDepth > 0.0 {
        var lf := LowerEvapFraction(c.A.lowerEvapDepth, upperDepth);
        assert lf * (1.0 - f) * c.maxEvap == 0.0;
      }
    }
  }

  // ---------------------------------------------------------------------
  // The shared scratch structure and the routines that fill it in
  // ---------------------------------------------------------------------

  class GwaterShared {
    var ctx: FluxContext
    var hgw: real
    var theta: real
    var upperEvap: real
    var lowerEvap: real
    var upperPerc: real
    var hydCon: real
    var lowerLoss: real
    var gwFlow: real

    /** The flux values currently held. */
    function Outputs(): Fluxes
      reads this
    {
      Fluxes(hgw, theta, upperEvap, lowerEvap, upperPerc, hydCon, lowerLoss, gwFlow)
    }

    constructor (c: FluxContext)
      ensures Outputs() == Fluxes(0.0, 0.0, 0.0, 0.0, 0.0, 0.0, 0.0, 0.0)
    {
      ctx := c;
      hgw, theta, upperEvap, lowerEvap := 0.0, 0.0, 0.0, 0.0;
      upperPerc, hydCon, lowerLoss, gwFlow := 0.0, 0.0, 0.0, 0.0;
    }

    /** Sets the evaporation from each zone. */
    method GetEvapRates(th: real, upperDepth: real)
      requires ctx.PatternDefined()
      modifies this`upperEvap, this`lowerEvap
      ensures EvapSplit(upperEvap, lowerEvap) == EvapRates(ctx, th, upperDepth)
    {
      upperEvap := 0.0;
      lowerEvap := 0.0;
      if ctx.infil > 0.0 {
        return;
      }
      upperEvap := UpperEvap(ctx, th);
      lowerEvap := LowerEvap(ctx, upperDepth, upperEvap);
    }

    /** Returns the percolation rate; records the unsaturated conductivity
        when there is percolation. */
    method GetUpperPerc(th: real, upperDepth: real) returns (perc: real)
      modifies this`hydCon
      ensures perc == PercolationRate(ctx, th, upperDepth)
      ensures hydCon == if Percolates(ctx, th, upperDepth) then UnsatConductivity(ctx, th)
                        else old(hydCon)
    {
      if upperDepth <= 0.0 || th <= ctx.A.fieldCapacity {
        return 0.0;
      }
      var hydcon := UnsatConductivity(ctx, th);
      var dhdz := HeadGradient(ctx, th, upperDepth);
      hydCon := hydcon;
      perc := hydcon * dhdz;
    }

    /** Computes every flux at moisture th and lower depth lowerDepth. */
    method GetFluxes(th: real, lowerDepth: real)
      requires ctx.Ready()
      modifies this`hgw, this`theta, this`upperEvap, this`lowerEvap, this`upperPerc,
               this`hydCon, this`lowerLoss, this`gwFlow
      ensures Outputs() == ComputeFluxes(ctx, th, lowerDepth, old(hydCon))
    {
      var c := ctx;
      var ld := Max(lowerDepth, 0.0);
      ld := Min(ld, c.totalDepth);
      var upperDepth := c.totalDepth - ld;
      hgw := ld;
      theta := th;
      GetEvapRates(th, upperDepth);
      var perc := GetUpperPerc(th, upperDepth);
      upperPerc := Min(perc, c.maxUpperPerc);
      // the expressions see the values just set
      var table := VariableTable(Variables(c, hgw, theta, hydCon, upperPerc), c.ucf);
      lowerLoss := DeepLoss(c, ld, table);
      gwFlow := LateralFlow(c, ld, table);
    }

    /** The derivative function the ODE solver calls: fluxes at x, then
        d(theta)/dt into dxdt[0] and d(lowerDepth)/dt into dxdt[1]. */
    method GetDxDt(t: real, x: array<real>, dxdt: array<real>)
      requires ctx.Ready()
      requires x.Length >= 2 && dxdt.Length >= 2 && x != dxdt
      modifies this`hgw, this`theta, this`upperEvap, this`lowerEvap, this`upperPerc,
               this`hydCon, this`lowerLoss, this`gwFlow, dxdt
      ensures Outputs() == ComputeFluxes(ctx, x[0], x[1], old(hydCon))
      ensures (dxdt[0], dxdt[1]) == Derivatives(ctx, x[0], x[1], Outputs())
      ensures dxdt[2..] == old(dxdt[2..])
    {
      GetFluxes(x[0], x[1]);
      var qUpper := ctx.infil - upperEvap - upperPerc;
      var qLower := upperPerc - lowerLoss - lowerEvap - gwFlow;
      dxdt[0] := ZoneRate(qUpper, ctx.totalDepth - x[1]);
      dxdt[1] := ZoneRate(qLower, ctx.A.porosity - x[0]);
    }
  }
}
