/**
 * One groundwater time step for a subcatchment: the limits that hold the
 * fluxes for the step, the integration of the two-zone state (whose result
 * is an input here), the clamp that restores the state's physical bounds,
 * the committed state and the step's mass balance volumes.
 */
module GwaterStep {
  import opened Common
  import opened Aquifers
  import opened GwaterVars
  import opened GwaterState
  import opened GwaterFlux

  /** What the step reads of the node that exchanges groundwater. */
  datatype NodeState = NodeState(
    invertElev: real,   // invert elevation (ft)
    newDepth: real,     // water depth at the end of the routing step (ft)
    inflow: real,       // total inflow (cfs)
    newVolume: real)    // stored volume (ft3)

  /** What the step reads of the rest of the simulation. */
  datatype StepEnv = StepEnv(
    latFlowExpr: Option<MathExpr>,    // the subcatchment's lateral flow expression
    deepFlowExpr: Option<MathExpr>,   // the subcatchment's deep flow expression
    fracPerv: real,                   // pervious fraction of the subcatchment
    area: real,                       // subcatchment area (ft2)
    evapRate: real,                   // current evaporation rate (ft/sec)
    patterns: seq<seq<real>>,         // time pattern factors
    month: int,                       // month of the current date
    ucf: UnitFactors,
    math: MathLib)

  /** The monthly upper-zone evaporation factor of aquifer a can be looked
      up in env. */
  predicate PatternsCover(a: Aquifer, env: StepEnv) {
    a.upperEvapPat >= 0 ==> a.upperEvapPat < |env.patterns| && 1 <= env.month <= |env.patterns[a.upperEvapPat]|
  }

  /** A volume (ft3) spread over an area (ft2) and a step (sec): a rate in
      ft/sec. */
  function AreaRate(v: real, area: real, tStep: real): (r: real)
    requires area > 0.0 && tStep > 0.0
    ensures r * area * tStep == v
  {
    assert v / area / tStep * tStep == v / area;
    v / area / tStep
  }

  /** The most percolation a step can carry: the upper zone's water above
      field capacity, per unit time. */
  function PercLimit(totalDepth: real, lowerDepth: real, theta: real, fieldCapacity: real,
                     tStep: real): (r: real)
    requires tStep > 0.0
    ensures r >= 0.0
    ensures r * tStep == Max(0.0, (totalDepth - lowerDepth) * (theta - fieldCapacity))
  {
    var v := Max(0.0, (totalDepth - lowerDepth) * (theta - fieldCapacity));
    NonNegativeQuotient(v, tStep);
    v / tStep
  }

  /** The most lateral outflow a step can carry: the lower zone's water, per
      unit time. */
  function OutflowLimit(lowerDepth: real, porosity: real, tStep: real): (r: real)
    requires tStep > 0.0
    ensures r * tStep == lowerDepth * porosity
    ensures lowerDepth >= 0.0 && porosity >= 0.0 ==> r >= 0.0
  {
    if lowerDepth >= 0.0 && porosity >= 0.0 then
      NonNegativeProduct(lowerDepth, porosity);
      NonNegativeQuotient(lowerDepth * porosity, tStep);
      lowerDepth * porosity / tStep
    else
      lowerDepth * porosity / tStep
  }

  /** The (negative) limit on lateral inflow: no more than the upper zone's
      room per unit time, nor than the node's inflow and stored volume per
      unit time spread over the subcatchment. */
  function InflowLimit(totalDepth: real, lowerDepth: real, porosity: real, theta: real,
                       inflow: real, newVolume: real, area: real, tStep: real): (r: real)
    requires area > 0.0 && tStep > 0.0
    ensures -r <= (totalDepth - lowerDepth) * (porosity - theta) / tStep
    ensures -r <= (inflow + newVolume / tStep) / area
    ensures -r == (totalDepth - lowerDepth) * (porosity - theta) / tStep || -r == (inflow + newVolume / tStep) / area
    ensures (0.0 <= lowerDepth <= totalDepth && theta <= porosity &&
             inflow >= 0.0 && newVolume >= 0.0) ==> r <= 0.0
  {
    var room := (totalDepth - lowerDepth) * (porosity - theta) / tStep;
    var supply := (inflow + newVolume / tStep) / area;
    if 0.0 <= lowerDepth <= totalDepth && theta <= porosity && inflow >= 0.0 && newVolume >= 0.0 then
      NonNegativeProduct(totalDepth - lowerDepth, porosity - theta);
      NonNegativeQuotient((totalDepth - lowerDepth) * (porosity - theta), tStep);
      NonNegativeQuotient(newVolume, tStep);
      NonNegativeQuotient(inflow + newVolume / tStep, area);
      -Min(room, supply)
    else
      -Min(room, supply)
  }

  /** The flux context the step establishes for a record with parameters
      cfg and state s, given the pervious-surface evaporation volume evap
      and the infiltration volume infil (ft3) of a step of tStep seconds. */
  function StepContext(cfg: GwConfig, s: GwState, a: Aquifer, n: NodeState, env: StepEnv,
                       evap: real, infil: real, tStep: real): (c: FluxContext)
    requires env.area > 0.0 && tStep > 0.0
    ensures c.A == a && c.area == env.area && c.tStep == tStep && c.fracPerv == env.fracPerv
    ensures c.patterns == env.patterns && c.month == env.month && c.ucf == env.ucf && c.math == env.math
    ensures c.availEvap >= 0.0
    ensures c.totalDepth == cfg.surfElev - cfg.bottomElev
    ensures cfg.nodeElev != MISSING ==> c.hstar == cfg.nodeElev - cfg.bottomElev
    ensures cfg.nodeElev == MISSING ==> c.hstar == n.invertElev - cfg.bottomElev
    ensures cfg.fixedDepth > 0.0 ==> c.hsw == cfg.fixedDepth + n.invertElev - cfg.bottomElev
    ensures cfg.fixedDepth <= 0.0 ==> c.hsw == n.newDepth + n.invertElev - cfg.bottomElev
  {
    FluxContext(
      a,
      LateralCoeffs(cfg.a1, cfg.b1, cfg.a2, cfg.b2, cfg.a3),
      env.latFlowExpr, env.deepFlowExpr,
      env.fracPerv, env.area,
      AreaRate(infil, env.area, tStep),
      tStep,
      env.evapRate * env.fracPerv,
      Max(env.evapRate * env.fracPerv - AreaRate(evap, env.area, tStep), 0.0),
      cfg.surfElev - cfg.bottomElev,
      if cfg.nodeElev != MISSING then cfg.nodeElev - cfg.bottomElev else n.invertElev - cfg.bottomElev,
      if cfg.fixedDepth > 0.0 then cfg.fixedDepth + n.invertElev - cfg.bottomElev
      else n.newDepth + n.invertElev - cfg.bottomElev,
      PercLimit(cfg.surfElev - cfg.bottomElev, s.lowerDepth, s.theta, a.fieldCapacity, tStep),
      OutflowLimit(s.lowerDepth, a.porosity, tStep),
      InflowLimit(cfg.surfElev - cfg.bottomElev, s.lowerDepth, a.porosity, s.theta,
                  n.inflow, n.newVolume, env.area, tStep),
      env.patterns, env.month, env.ucf, env.math)
  }

  /** A state within its bounds, a non-negative porosity and a node that
      is not losing water give a lateral flow range that contains 0, so the
      lateral flow computed at any state of the step lies between the two
      limits. */
  lemma StepLimitsOrdered(cfg: GwConfig, s: GwState, a: Aquifer, n: NodeState, env: StepEnv,
                          evap: real, infil: real, tStep: real)
    requires env.area > 0.0 && tStep > 0.0
    requires 0.0 <= s.lowerDepth <= cfg.surfElev - cfg.bottomElev && s.theta <= a.porosity
    requires a.porosity >= 0.0 && n.inflow >= 0.0 && n.newVolume >= 0.0
    ensures var c := StepContext(cfg, s, a, n, env, evap, infil, tStep);
            c.maxGWFlowNeg <= 0.0 <= c.maxGWFlowPos
  {
  }

  /** The clamp applied to the integrated state (theta, lowerDepth): moisture
      no lower than the wilting point; a saturated upper zone sets both
      zones just below full; a depth no lower than 0 and just below the
      total depth. */
  function ClampState(theta: real, lowerDepth: real, a: Aquifer, totalDepth: real): (r: (real, real))
    ensures r.0 < a.porosity && r.1 < totalDepth
    ensures a.porosity - XTOL >= a.wiltingPoint ==> r.0 >= a.wiltingPoint
    ensures totalDepth >= XTOL ==> r.1 >= 0.0
    ensures Max(theta, a.wiltingPoint) >= a.porosity ==> r.0 == a.porosity - XTOL
    ensures Max(theta, a.wiltingPoint) >= a.porosity && totalDepth >= XTOL ==> r.1 == totalDepth - XTOL
    ensures a.wiltingPoint <= theta < a.porosity && 0.0 <= lowerDepth < totalDepth ==> r == (theta, lowerDepth)
  {
    var th := Max(theta, a.wiltingPoint);
    var saturated := th >= a.porosity;
    var th := if saturated then a.porosity - XTOL else th;
    var ld := if saturated then totalDepth - XTOL else lowerDepth;
    var ld := Max(ld, 0.0);
    var ld := if ld >= totalDepth then totalDepth - XTOL else ld;
    (th, ld)
  }

  /** The clamp keeps its depth bound only for an aquifer at least XTOL
      deep: a thinner one, 0.0005 ft deep, with a depth at or above it,
      is set XTOL below it, under the aquifer bottom. */
  lemma ClampBelowToleranceDepth()
    ensures var a := Aquifer(0.5, 0.1, 0.2, 0.001, 0.0, 0.0, 0.0, 0.0, 0.0, 0.0, 0.0, 0.3, -1);
            ClampState(0.3, 0.001, a, 0.0005).1 < 0.0
  {
  }

  /** The volumes the step reports to the groundwater mass balance (ft3). */
  datatype GwMassBal = GwMassBal(
    vInfil: real,        // infiltration
    vUpperEvap: real,    // upper zone evaporation
    vLowerEvap: real,    // lower zone evaporation
    vLowerPerc: real,    // deep loss
    vGwater: real)       // lateral flow

  /** The volumes over a step of tStep seconds on a subcatchment of the
      given area: each rate times area and step, the lateral volume by the
      trapezoid rule over the flows at the two ends of the step. */
  function MassBalance(infil: real, f: Fluxes, oldFlow: real, newFlow: real, area: real, tStep: real): GwMassBal
  {
    GwMassBal(infil * area * tStep, f.upperEvap * area * tStep, f.lowerEvap * area * tStep,
              f.lowerLoss * area * tStep, 0.5 * (oldFlow + newFlow) * area * tStep)
  }

  /** The lateral volume lies between the volumes the smaller and the larger
      of the two end flows would carry over the whole step, and equals
      either when the flow did not change. */
  lemma LateralVolumeBetweenEndFlows(infil: real, f: Fluxes, oldFlow: real, newFlow: real,
                                                        area: real, tStep: real)
    requires area >= 0.0 && tStep >= 0.0
    ensures var v := MassBalance(infil, f, oldFlow, newFlow, area, tStep).vGwater;
            Min(oldFlow, newFlow) * area * tStep <= v <= Max(oldFlow, newFlow) * area * tStep
    ensures oldFlow == newFlow ==>
              MassBalance(infil, f, oldFlow, newFlow, area, tStep).vGwater == newFlow * area * tStep
  {
    var ft2sec := area * tStep;
    NonNegativeProduct(area, tStep);
    var lo := Min(oldFlow, newFlow);
    var hi := Max(oldFlow, newFlow);
    var mid := 0.5 * (oldFlow + newFlow);
    NonNegativeProduct(mid - lo, ft2sec);
    NonNegativeProduct(hi - mid, ft2sec);
    assert mid * ft2sec - lo * ft2sec == (mid - lo) * ft2sec;
    assert hi * ft2sec - mid * ft2sec == (hi - mid) * ft2sec;
    assert mid * area * tStep == mid * ft2sec;
    assert lo * area * tStep == lo * ft2sec;
    assert hi * area * tStep == hi * ft2sec;
  }

  /** The mass balance volumes of the step just taken, from the shared
      rates and the record's flows at the two ends of the step. */
  method UpdateMassBal(gw: Groundwater, g: GwaterShared, area: real, tStep: real) returns (m: GwMassBal)
    ensures m == MassBalance(g.ctx.infil, g.Outputs(), gw.oldFlow, gw.newFlow, area, tStep)
  {
    var ft2sec := area * tStep;
    var vInfil := g.ctx.infil * ft2sec;
    var vUpperEvap := g.upperEvap * ft2sec;
    var vLowerEvap := g.lowerEvap * ft2sec;
    var vLowerPerc := g.lowerLoss * ft2sec;
    var vGwater := 0.5 * (gw.oldFlow + gw.newFlow) * ft2sec;
    m := GwMassBal(vInfil, vUpperEvap, vLowerEvap, vLowerPerc, vGwater);
  }

  /** The state a step commits: the clamped integration result, the lateral
      flow of the previous step moved to oldFlow, and the infiltration the
      upper zone can take in the next step. */
  function CommittedState(prevFlow: real, clamped: (real, real), f: Fluxes, a: Aquifer,
                          totalDepth: real, fracPerv: real): GwState
    requires fracPerv > 0.0
  {
    GwState(clamped.0, clamped.1, prevFlow, f.gwFlow, f.upperEvap + f.lowerEvap,
            (totalDepth - clamped.1) * (a.porosity - clamped.0) / fracPerv)
  }

  /** A committed state is within the aquifer's bounds and leaves a
      non-negative infiltration capacity, whatever the integrator returned,
      provided porosity and total depth exceed the clamp tolerance. */
  lemma CommittedStateWithinBounds(prevFlow: real, theta: real, lowerDepth: real, f: Fluxes, a: Aquifer,
                                   totalDepth: real, fracPerv: real)
    requires fracPerv > 0.0
    requires a.porosity - XTOL >= a.wiltingPoint && totalDepth >= XTOL
    ensures var r := CommittedState(prevFlow, ClampState(theta, lowerDepth, a, totalDepth), f, a, totalDepth, fracPerv);
            WithinBounds(r, a, totalDepth) && r.maxInfilVol > 0.0
  {
    var cl := ClampState(theta, lowerDepth, a, totalDepth);
    var u := totalDepth - cl.1;
    var v := a.porosity - cl.0;
    PositiveProduct(u, v);
    assert u * v > 0.0;
    PositiveQuotient(u * v, fracPerv);
  }

  /** Applies the bounds clamp to an integrated state. */
  method KeepWithinBounds(theta: real, lowerDepth: real, a: Aquifer, totalDepth: real)
    returns (x0: real, x1: real)
    ensures (x0, x1) == ClampState(theta, lowerDepth, a, totalDepth)
  {
    x0, x1 := theta, lowerDepth;
    x0 := Max(x0, a.wiltingPoint);
    if x0 >= a.porosity {
      x0 := a.porosity - XTOL;
      x1 := totalDepth - XTOL;
    }
    x1 := Max(x1, 0.0);
    if x1 >= totalDepth {
      x1 := totalDepth - XTOL;
    }
  }

  /** Records the fluxes computed at the committed moisture and depth: the
      new lateral flow, the evaporation loss and the infiltration the upper
      zone can take next step. */
  method CommitFlows(gw: Groundwater, g: GwaterShared, a: Aquifer, totalDepth: real, fracPerv: real)
    requires fracPerv > 0.0
    modifies gw`oldFlow, gw`newFlow, gw`evapLoss, gw`maxInfilVol
    ensures gw.State() == CommittedState(old(gw.newFlow), (gw.theta, gw.lowerDepth), g.Outputs(),
                                         a, totalDepth, fracPerv)
  {
    gw.oldFlow := gw.newFlow;
    gw.newFlow := g.gwFlow;
    gw.evapLoss := g.upperEvap + g.lowerEvap;
    gw.maxInfilVol := (totalDepth - gw.lowerDepth) * (a.porosity - gw.theta) / fracPerv;
  }

  /** Sets the step's flux context, moves the record to the clamped
      integration result and computes the fluxes there. The integrator's
      own flux evaluations leave behind the conductivity solvedHydCon,
      which the final evaluation keeps when it does not percolate. */
  method AdvanceState(gw: Groundwater, g: GwaterShared, a: Aquifer, n: NodeState, env: StepEnv,
                      evap: real, infil: real, tStep: real,
                      solvedTheta: real, solvedLower: real, solvedHydCon: real)
    requires env.area > 0.0 && tStep > 0.0 && env.ucf.Positive() && PatternsCover(a, env)
    requires gw.surfElev - gw.bottomElev > 0.0
    modifies gw`theta, gw`lowerDepth, g
    ensures g.ctx == StepContext(gw.Config(), old(gw.State()), a, n, env, evap, infil, tStep)
    ensures (gw.theta, gw.lowerDepth) == ClampState(solvedTheta, solvedLower, a, gw.surfElev - gw.bottomElev)
    ensures g.Outputs() == ComputeFluxes(g.ctx, gw.theta, gw.lowerDepth, solvedHydCon)
  {
    var totalDepth := gw.surfElev - gw.bottomElev;
    // rates per unit area, available evaporation, heights and flux limits
    g.ctx := StepContext(gw.Config(), gw.State(), a, n, env, evap, infil, tStep);

    // the integrator's result for the step, kept within its bounds
    var x0, x1 := KeepWithinBounds(solvedTheta, solvedLower, a, totalDepth);

    g.hydCon := solvedHydCon;
    gw.theta := x0;
    gw.lowerDepth := x1;
    g.GetFluxes(gw.theta, gw.lowerDepth);
  }

  /** One step of a record whose aquifer has depth, on a subcatchment with
      pervious area: the step's context, the clamped state, the fluxes
      there, the committed record and the mass balance volumes. */
  method StepRecord(gw: Groundwater, g: GwaterShared, a: Aquifer, n: NodeState, env: StepEnv,
                    evap: real, infil: real, tStep: real,
                    solvedTheta: real, solvedLower: real, solvedHydCon: real)
    returns (mb: GwMassBal)
    requires env.area > 0.0 && tStep > 0.0 && env.ucf.Positive() && PatternsCover(a, env)
    requires env.fracPerv > 0.0 && gw.surfElev - gw.bottomElev > 0.0
    modifies gw, g
    ensures gw.Config() == old(gw.Config())
    ensures g.ctx == StepContext(old(gw.Config()), old(gw.State()), a, n, env, evap, infil, tStep)
    ensures var clamped := ClampState(solvedTheta, solvedLower, a, old(gw.surfElev - gw.bottomElev));
            && g.Outputs() == ComputeFluxes(g.ctx, clamped.0, clamped.1, solvedHydCon)
            && gw.State() == CommittedState(old(gw.newFlow), clamped, g.Outputs(), a,
                                            old(gw.surfElev - gw.bottomElev), env.fracPerv)
    ensures mb == MassBalance(g.ctx.infil, g.Outputs(), gw.oldFlow, gw.newFlow, env.area, tStep)
  {
    var totalDepth := gw.surfElev - gw.bottomElev;
    AdvanceState(gw, g, a, n, env, evap, infil, tStep, solvedTheta, solvedLower, solvedHydCon);
    CommitFlows(gw, g, a, totalDepth, env.fracPerv);
    mb := UpdateMassBal(gw, g, env.area, tStep);
  }

  /** Computes the groundwater flow of a subcatchment's record gw over a step
      of tStep seconds in which evap (ft3) evaporated from the pervious
      surface and infil (ft3) infiltrated. The integrator's result for the
      step is (solvedTheta, solvedLower), and solvedHydCon the conductivity
      its last flux evaluation left in the shared structure. Returns the mass balance volumes,
      or None when the step is skipped: no groundwater record, no pervious
      area, or an aquifer with no depth. */
  method GetGroundwater(gw: Groundwater?, g: GwaterShared, aquifers: seq<Aquifer>, nodes: seq<NodeState>,
                        env: StepEnv, evap: real, infil: real, tStep: real,
                        solvedTheta: real, solvedLower: real, solvedHydCon: real)
    returns (m: Option<GwMassBal>)
    requires env.area > 0.0 && tStep > 0.0 && env.ucf.Positive()
    requires gw != null ==> gw.aquifer < |aquifers| && gw.node < |nodes| && PatternsCover(aquifers[gw.aquifer], env)
    modifies gw, g
    ensures gw == null || env.fracPerv <= 0.0 || old(gw.surfElev - gw.bottomElev) <= 0.0 ==>
              && m.None?
              && g.ctx == old(g.ctx) && g.Outputs() == old(g.Outputs())
              && (gw != null ==> gw.State() == old(gw.State()) && gw.Config() == old(gw.Config()))
    ensures gw != null && env.fracPerv > 0.0 && old(gw.surfElev - gw.bottomElev) > 0.0 ==>
              var a := aquifers[old(gw.aquifer)];
              var totalDepth := old(gw.surfElev - gw.bottomElev);
              var c := StepContext(old(gw.Config()), old(gw.State()), a, nodes[old(gw.node)], env, evap, infil, tStep);
              var clamped := ClampState(solvedTheta, solvedLower, a, totalDepth);
              && gw.Config() == old(gw.Config())
              && g.ctx == c
              && g.Outputs() == ComputeFluxes(c, clamped.0, clamped.1, solvedHydCon)
              && gw.State() == CommittedState(old(gw.newFlow), clamped, g.Outputs(), a, totalDepth, env.fracPerv)
              && m == Some(MassBalance(g.ctx.infil, g.Outputs(), gw.oldFlow, gw.newFlow, env.area, tStep))
  {
    if gw == null {
      return None;
    }
    var a := aquifers[gw.aquifer];
    var fracPerv := env.fracPerv;
    if fracPerv <= 0.0 {
      return None;
    }
    var totalDepth := gw.surfElev - gw.bottomElev;
    if totalDepth <= 0.0 {
      return None;
    }
    var mb := StepRecord(gw, g, a, nodes[gw.node], env, evap, infil, tStep, solvedTheta, solvedLower, solvedHydCon);
    return Some(mb);
  }
}
