/**
 * The per-subcatchment groundwater record: its parameters, its dynamic
 * state (upper-zone moisture, lower-zone depth, flows, evaporation loss,
 * infiltration capacity) and the operations that create, validate,
 * initialise, save, restore and measure it.
 */
module GwaterState {
  import opened Common
  import opened Aquifers
  import opened GwaterInput

  /** Tolerance by which moisture and depth are kept below their limits. */
  const XTOL: real := 0.001

  /** The dynamic part of a groundwater record. */
  datatype GwState = GwState(
    theta: real,          // upper-zone moisture content
    lowerDepth: real,     // depth of the saturated lower zone (ft)
    oldFlow: real,        // lateral outflow at the previous step (ft/sec)
    newFlow: real,        // lateral outflow at the current step (ft/sec)
    evapLoss: real,       // combined upper and lower evaporation (ft/sec)
    maxInfilVol: real)    // infiltration the upper zone can take next step (ft)

  /** The configuration part of a groundwater record. */
  datatype GwConfig = GwConfig(
    aquifer: nat,
    node: nat,
    surfElev: real,
    a1: real,
    b1: real,
    a2: real,
    b2: real,
    a3: real,
    fixedDepth: real,
    nodeElev: real,
    bottomElev: real,
    waterTableElev: real,
    upperMoisture: real)

  function ConfigOf(p: GroundwaterParams): GwConfig {
    GwConfig(p.aquifer, p.node, p.surfElev, p.a1, p.b1, p.a2, p.b2, p.a3, p.fixedDepth,
             p.nodeElev, p.bottomElev, p.waterTableElev, p.upperMoisture)
  }

  class Groundwater {
    var aquifer: nat          // index of the aquifer
    var node: nat             // index of the node exchanging groundwater
    var surfElev: real        // ground surface elevation (ft)
    var a1: real              // groundwater flow coefficient
    var b1: real              // groundwater flow exponent
    var a2: real              // surface water flow coefficient
    var b2: real              // surface water flow exponent
    var a3: real              // groundwater-surface water interaction coefficient
    var fixedDepth: real      // fixed surface water depth (ft)
    var nodeElev: real        // node invert override (ft) or MISSING
    var bottomElev: real      // aquifer bottom elevation (ft) or MISSING
    var waterTableElev: real  // initial water table elevation (ft) or MISSING
    var upperMoisture: real   // initial upper-zone moisture or MISSING
    var theta: real
    var lowerDepth: real
    var oldFlow: real
    var newFlow: real
    var evapLoss: real
    var maxInfilVol: real

    function State(): GwState
      reads this
    {
      GwState(theta, lowerDepth, oldFlow, newFlow, evapLoss, maxInfilVol)
    }

    /** The parameters of the record, as read from its input line. */
    function Config(): GwConfig
      reads this
    {
      GwConfig(aquifer, node, surfElev, a1, b1, a2, b2, a3, fixedDepth,
               nodeElev, bottomElev, waterTableElev, upperMoisture)
    }

    constructor ()
      ensures State() == GwState(0.0, 0.0, 0.0, 0.0, 0.0, 0.0)
    {
      aquifer, node := 0, 0;
      surfElev, a1, b1, a2, b2, a3, fixedDepth := 0.0, 0.0, 0.0, 0.0, 0.0, 0.0, 0.0;
      nodeElev, bottomElev, waterTableElev, upperMoisture := 0.0, 0.0, 0.0, 0.0;
      theta, lowerDepth, oldFlow, newFlow, evapLoss, maxInfilVol := 0.0, 0.0, 0.0, 0.0, 0.0, 0.0;
    }

    /** Copies the values of a groundwater line into the record. */
    method AssignParams(p: GroundwaterParams)
      modifies this`aquifer, this`node, this`surfElev, this`a1, this`b1, this`a2, this`b2,
               this`a3, this`fixedDepth, this`nodeElev, this`bottomElev, this`waterTableElev,
               this`upperMoisture
      ensures Config() == ConfigOf(p)
    {
      aquifer := p.aquifer;
      node := p.node;
      surfElev := p.surfElev;
      a1 := p.a1;
      b1 := p.b1;
      a2 := p.a2;
      b2 := p.b2;
      a3 := p.a3;
      fixedDepth := p.fixedDepth;
      nodeElev := p.nodeElev;
      bottomElev := p.bottomElev;
      waterTableElev := p.waterTableElev;
      upperMoisture := p.upperMoisture;
    }
  }

  /** Gives a subcatchment a groundwater record holding the values of a
      groundwater line: the existing record is reused, otherwise a new one
      is created. */
  method ReadGroundwater(existing: Groundwater?, p: GroundwaterParams) returns (gw: Groundwater)
    modifies existing
    ensures existing != null ==> gw == existing && gw.State() == old(existing.State())
    ensures existing == null ==> fresh(gw)
    ensures gw.Config() == ConfigOf(p)
  {
    if existing == null {
      gw := new Groundwater();
    } else {
      gw := existing;
    }
    gw.AssignParams(p);
  }

  /** A field that falls back to the aquifer's value when MISSING. */
  function OrDefault(x: real, default: real): (r: real)
    ensures x != MISSING ==> r == x
    ensures x == MISSING ==> r == default
  {
    if x == MISSING then default else x
  }

  /** Resolves MISSING bottom, water table and moisture values from the
      aquifer, and reports whether the ground surface lies below the
      water table. */
  method Validate(gw: Groundwater?, aquifers: seq<Aquifer>) returns (groundElevError: bool)
    requires gw != null ==> gw.aquifer < |aquifers|
    modifies gw
    ensures gw == null ==> !groundElevError
    ensures gw != null ==>
      var a := aquifers[old(gw.aquifer)];
      && gw.bottomElev == OrDefault(old(gw.bottomElev), a.bottomElev)
      && gw.waterTableElev == OrDefault(old(gw.waterTableElev), a.waterTableElev)
      && gw.upperMoisture == OrDefault(old(gw.upperMoisture), a.upperMoisture)
      && gw.aquifer == old(gw.aquifer) && gw.node == old(gw.node)
      && gw.surfElev == old(gw.surfElev) && gw.nodeElev == old(gw.nodeElev)
      && gw.a1 == old(gw.a1) && gw.b1 == old(gw.b1) && gw.a2 == old(gw.a2)
      && gw.b2 == old(gw.b2) && gw.a3 == old(gw.a3) && gw.fixedDepth == old(gw.fixedDepth)
      && gw.State() == old(gw.State())
      && (groundElevError <==> gw.surfElev < gw.waterTableElev)
  {
    groundElevError := false;
    if gw != null {
      var a := aquifers[gw.aquifer];
      if gw.bottomElev == MISSING { gw.bottomElev := a.bottomElev; }
      if gw.waterTableElev == MISSING { gw.waterTableElev := a.waterTableElev; }
      if gw.upperMoisture == MISSING { gw.upperMoisture := a.upperMoisture; }
      groundElevError := gw.surfElev < gw.waterTableElev;
    }
  }

  /** Initial upper-zone moisture: the configured value, nudged below
      porosity. */
  function InitialTheta(upperMoisture: real, porosity: real): (t: real)
    ensures t < porosity
    ensures upperMoisture < porosity ==> t == upperMoisture
    ensures upperMoisture >= porosity ==> t == porosity - XTOL
  {
    if upperMoisture >= porosity then porosity - XTOL else upperMoisture
  }

  /** Initial lower-zone depth: water table height above the bottom, nudged
      below the total depth. */
  function InitialLowerDepth(surfElev: real, bottomElev: real, waterTableElev: real): (d: real)
    ensures d < surfElev - bottomElev
    ensures waterTableElev < surfElev ==> d == waterTableElev - bottomElev
    ensures waterTableElev >= surfElev ==> d == surfElev - bottomElev - XTOL
  {
    var d := waterTableElev - bottomElev;
    if d >= surfElev - bottomElev then surfElev - bottomElev - XTOL else d
  }

  /** The upper zone's unfilled pore volume per unit of pervious area. */
  function InfilCapacity(surfElev: real, waterTableElev: real, porosity: real, theta: real,
                         fracPerv: real): real
    requires fracPerv != 0.0
  {
    (surfElev - waterTableElev) * (porosity - theta) / fracPerv
  }

  /** The state a groundwater record starts a simulation in. */
  function InitialState(surfElev: real, bottomElev: real, waterTableElev: real,
                        upperMoisture: real, porosity: real, fracPerv: real): (s: GwState)
    requires fracPerv != 0.0
    ensures s.theta < porosity && s.lowerDepth < surfElev - bottomElev
    ensures s.oldFlow == 0.0 && s.newFlow == 0.0 && s.evapLoss == 0.0
  {
    var theta := InitialTheta(upperMoisture, porosity);
    GwState(theta, InitialLowerDepth(surfElev, bottomElev, waterTableElev), 0.0, 0.0, 0.0,
            InfilCapacity(surfElev, waterTableElev, porosity, theta, fracPerv))
  }

  /** Sets a record's initial state. */
  method InitState(gw: Groundwater?, aquifers: seq<Aquifer>, fracPerv: real)
    requires gw != null ==> gw.aquifer < |aquifers| && fracPerv != 0.0
    modifies gw
    ensures gw != null ==>
      && gw.Config() == old(gw.Config())
      && gw.State() == InitialState(old(gw.surfElev), old(gw.bottomElev), old(gw.waterTableElev),
                                    old(gw.upperMoisture), aquifers[old(gw.aquifer)].porosity, fracPerv)
  {
    if gw != null {
      var a := aquifers[gw.aquifer];
      var theta := gw.upperMoisture;
      if theta >= a.porosity {
        theta := a.porosity - XTOL;
      }
      var lowerDepth := gw.waterTableElev - gw.bottomElev;
      if lowerDepth >= gw.surfElev - gw.bottomElev {
        lowerDepth := gw.surfElev - gw.bottomElev - XTOL;
      }
      var maxInfilVol := InfilCapacity(gw.surfElev, gw.waterTableElev, a.porosity, theta, fracPerv);
      gw.theta, gw.lowerDepth := theta, lowerDepth;
      gw.oldFlow, gw.newFlow, gw.evapLoss := 0.0, 0.0, 0.0;
      gw.maxInfilVol := maxInfilVol;
    }
  }

  /** The physical bounds every committed state keeps. */
  predicate WithinBounds(s: GwState, a: Aquifer, totalDepth: real) {
    a.wiltingPoint <= s.theta < a.porosity && 0.0 <= s.lowerDepth < totalDepth
  }

  /** A validated record starts within its physical bounds, with a
      non-negative infiltration capacity, provided its porosity and total
      depth exceed the nudge tolerance. */
  lemma InitialStateWithinBounds(surfElev: real, bottomElev: real, waterTableElev: real,
                                 upperMoisture: real, a: Aquifer, fracPerv: real)
    requires fracPerv > 0.0
    requires a.wiltingPoint <= upperMoisture
    requires a.porosity - XTOL >= a.wiltingPoint
    requires bottomElev <= waterTableElev <= surfElev
    requires surfElev - bottomElev >= XTOL
    ensures WithinBounds(InitialState(surfElev, bottomElev, waterTableElev, upperMoisture,
                                      a.porosity, fracPerv), a, surfElev - bottomElev)
    ensures InitialState(surfElev, bottomElev, waterTableElev, upperMoisture,
                         a.porosity, fracPerv).maxInfilVol >= 0.0
  {
    var s := InitialState(surfElev, bottomElev, waterTableElev, upperMoisture, a.porosity, fracPerv);
    NonNegativeProduct(surfElev - waterTableElev, a.porosity - s.theta);
    NonNegativeQuotient((surfElev - waterTableElev) * (a.porosity - s.theta), fracPerv);
  }

  /** Spread over the pervious fraction, the initial infiltration capacity
      is exactly the pore space left above the water table in the upper
      zone. */
  lemma InitialCapacityFillsPores(surfElev: real, bottomElev: real, waterTableElev: real,
                                  upperMoisture: real, porosity: real, fracPerv: real)
    requires fracPerv != 0.0
    ensures var s := InitialState(surfElev, bottomElev, waterTableElev, upperMoisture,
                                  porosity, fracPerv);
            s.maxInfilVol * fracPerv == (surfElev - waterTableElev) * (porosity - s.theta)
  {
    var theta := InitialTheta(upperMoisture, porosity);
    var v := (surfElev - waterTableElev) * (porosity - theta);
    assert v / fracPerv * fracPerv == v;
  }

  /** The saved form of a state: moisture, water table elevation, current
      lateral flow and infiltration capacity. */
  function Snapshot(bottomElev: real, s: GwState): (x: seq<real>)
    ensures |x| == 4
    ensures x[1] - bottomElev == s.lowerDepth
  {
    [s.theta, bottomElev + s.lowerDepth, s.newFlow, s.maxInfilVol]
  }

  /** The state after restoring a saved form; a MISSING capacity leaves the
      current one in place. */
  function Restore(bottomElev: real, s: GwState, x: seq<real>): (r: GwState)
    requires |x| >= 4
    ensures r.theta == x[0] && r.lowerDepth + bottomElev == x[1] && r.oldFlow == x[2]
    ensures r.newFlow == s.newFlow && r.evapLoss == s.evapLoss
    ensures x[3] == MISSING ==> r.maxInfilVol == s.maxInfilVol
    ensures x[3] != MISSING ==> r.maxInfilVol == x[3]
  {
    s.(theta := x[0], lowerDepth := x[1] - bottomElev, oldFlow := x[2],
       maxInfilVol := if x[3] != MISSING then x[3] else s.maxInfilVol)
  }

  /** Restoring a saved state gives back its moisture and depth exactly,
      makes its current flow the previous flow, and keeps the capacity of
      the record restored into when the saved one is MISSING. */
  lemma RestoreSnapshot(bottomElev: real, saved: GwState, current: GwState)
    ensures Restore(bottomElev, current, Snapshot(bottomElev, saved))
         == current.(theta := saved.theta, lowerDepth := saved.lowerDepth,
                     oldFlow := saved.newFlow,
                     maxInfilVol := if saved.maxInfilVol == MISSING then current.maxInfilVol
                                    else saved.maxInfilVol)
  {
  }

  /** Writes a record's saved form into x[0..4]. */
  method GetState(gw: Groundwater, x: array<real>)
    requires x.Length >= 4
    modifies x
    ensures x[..4] == Snapshot(gw.bottomElev, gw.State())
    ensures x[4..] == old(x[4..])
  {
    x[0] := gw.theta;
    x[1] := gw.bottomElev + gw.lowerDepth;
    x[2] := gw.newFlow;
    x[3] := gw.maxInfilVol;
  }

  /** Restores a record from x[0..4]; does nothing without a record. */
  method SetState(gw: Groundwater?, x: array<real>)
    requires x.Length >= 4
    modifies gw
    ensures gw != null ==> gw.Config() == old(gw.Config())
    ensures gw != null ==> gw.State() == Restore(gw.bottomElev, old(gw.State()), x[..4])
  {
    if gw == null {
      return;
    }
    gw.theta := x[0];
    gw.lowerDepth := x[1] - gw.bottomElev;
    gw.oldFlow := x[2];
    if x[3] != MISSING {
      gw.maxInfilVol := x[3];
    }
  }

  /** Saving a record and restoring it at once (a hot start written and
      read back) keeps moisture, depth and capacity and shifts the current
      flow into the previous one. */
  method SaveAndRestore(gw: Groundwater, x: array<real>)
    requires x.Length >= 4
    modifies gw, x
    ensures gw.Config() == old(gw.Config())
    ensures gw.State() == old(gw.State()).(oldFlow := old(gw.newFlow))
    ensures x[..4] == Snapshot(old(gw.bottomElev), old(gw.State()))
    ensures x[4..] == old(x[4..])
  {
    GetState(gw, x);
    SetState(gw, x);
    RestoreSnapshot(gw.bottomElev, old(gw.State()), old(gw.State()));
  }

  /** Water stored per unit area in both zones (ft). */
  function StoredVolume(totalDepth: real, lowerDepth: real, theta: real, porosity: real): real {
    (totalDepth - lowerDepth) * theta + lowerDepth * porosity
  }

  /** Stored groundwater volume of a subcatchment; 0 without groundwater. */
  function Volume(gw: Groundwater?, aquifers: seq<Aquifer>): (v: real)
    requires gw != null ==> gw.aquifer < |aquifers|
    reads gw
    ensures gw == null ==> v == 0.0
    ensures gw != null ==>
      v == StoredVolume(gw.surfElev - gw.bottomElev, gw.lowerDepth, gw.theta,
                        aquifers[gw.aquifer].porosity)
  {
    if gw == null then 0.0
    else
      var a := aquifers[gw.aquifer];
      var upperDepth := gw.surfElev - gw.bottomElev - gw.lowerDepth;
      upperDepth * gw.theta + gw.lowerDepth * a.porosity
  }

  /** More moisture, or a deeper saturated zone, never stores less water. */
  lemma StoredVolumeMonotone(totalDepth: real, lowerDepth: real, lowerDepth': real,
                             theta: real, theta': real, porosity: real)
    requires lowerDepth <= lowerDepth' <= totalDepth
    requires theta <= theta' <= porosity
    ensures StoredVolume(totalDepth, lowerDepth, theta, porosity)
         <= StoredVolume(totalDepth, lowerDepth, theta', porosity)
    ensures StoredVolume(totalDepth, lowerDepth, theta', porosity)
         <= StoredVolume(totalDepth, lowerDepth', theta', porosity)
  {
    NonNegativeProduct(totalDepth - lowerDepth, theta' - theta);
    NonNegativeProduct(lowerDepth' - lowerDepth, porosity - theta');
    assert StoredVolume(totalDepth, lowerDepth, theta', porosity)
         - StoredVolume(totalDepth, lowerDepth, theta, porosity)
        == (totalDepth - lowerDepth) * (theta' - theta);
    assert StoredVolume(totalDepth, lowerDepth', theta', porosity)
         - StoredVolume(totalDepth, lowerDepth, theta', porosity)
        == (lowerDepth' - lowerDepth) * (porosity - theta');
  }

  /** Within its bounds the stored volume lies between none and a fully
      saturated column. */
  lemma StoredVolumeBounds(totalDepth: real, lowerDepth: real, theta: real, porosity: real)
    requires 0.0 <= lowerDepth <= totalDepth
    requires 0.0 <= theta <= porosity
    ensures 0.0 <= StoredVolume(totalDepth, lowerDepth, theta, porosity) <= totalDepth * porosity
  {
    StoredVolumeMonotone(totalDepth, 0.0, lowerDepth, 0.0, theta, porosity);
    StoredVolumeMonotone(totalDepth, lowerDepth, totalDepth, theta, porosity, porosity);
  }
}
