/**
 * Aquifer parameter sets: the static soil and hydraulic properties shared
 * by every subcatchment whose groundwater uses the aquifer, and their
 * validation.
 */
module Aquifers {
  import opened Common

  /** Kinds of time pattern; only a monthly pattern may adjust upper-zone
      evaporation. */
  datatype PatternType = MonthlyPattern | DailyPattern | HourlyPattern | WeekendPattern

  /** An aquifer in internal units (ft, ft/sec). `upperEvapPat` is the
      index of the monthly evaporation pattern, or -1 for none. */
  datatype Aquifer = Aquifer(
    porosity: real,
    wiltingPoint: real,
    fieldCapacity: real,
    conductivity: real,
    conductSlope: real,
    tensionSlope: real,
    upperEvapFrac: real,
    lowerEvapDepth: real,
    lowerLossCoeff: real,
    bottomElev: real,
    waterTableElev: real,
    upperMoisture: real,
    upperEvapPat: int)

  /** The physical invariants of an aquifer, stated as what must hold. */
  predicate PhysicallyValid(a: Aquifer) {
    && 0.0 < a.porosity
    && a.wiltingPoint < a.fieldCapacity < a.porosity
    && a.conductivity > 0.0
    && a.conductSlope >= 0.0
    && a.tensionSlope >= 0.0
    && a.upperEvapFrac >= 0.0
    && a.lowerEvapDepth >= 0.0
    && a.waterTableElev >= a.bottomElev
    && a.wiltingPoint <= a.upperMoisture <= a.porosity
  }

  /** An assigned evaporation pattern must be a monthly one. */
  predicate PatternAcceptable(a: Aquifer, patterns: seq<PatternType>)
    requires a.upperEvapPat < |patterns|
  {
    a.upperEvapPat < 0 || patterns[a.upperEvapPat] == MonthlyPattern
  }

  /** Validates an aquifer and returns how many "invalid aquifer
      parameters" errors are reported for it: one for an out-of-range
      parameter, one for a pattern that is not monthly. */
  function ValidateAquifer(a: Aquifer, patterns: seq<PatternType>): (errors: nat)
    requires a.upperEvapPat < |patterns|
    ensures errors <= 2
    ensures errors == 0 <==> PhysicallyValid(a) && PatternAcceptable(a, patterns)
    ensures !PhysicallyValid(a) ==> errors >= 1
  {
    var paramError :=
      a.porosity <= 0.0
      || a.fieldCapacity >= a.porosity
      || a.wiltingPoint >= a.fieldCapacity
      || a.conductivity <= 0.0
      || a.conductSlope < 0.0
      || a.tensionSlope < 0.0
      || a.upperEvapFrac < 0.0
      || a.lowerEvapDepth < 0.0
      || a.waterTableElev < a.bottomElev
      || a.upperMoisture > a.porosity
      || a.upperMoisture < a.wiltingPoint;
    var p := a.upperEvapPat;
    var patternError := p >= 0 && patterns[p] != MonthlyPattern;
    (if paramError then 1 else 0) + (if patternError then 1 else 0)
  }
}
