/**
 * The eleven named variables that a user's lateral or deep groundwater
 * flow expression may refer to: their names, the lookup of a name, and
 * their current values in the user's units.
 */
module GwaterVars {
  import opened Common

  /** Variable names, in index order. */
  const GWVarWords: seq<string> :=
    ["HGW", "HSW", "HCB", "HGS", "KS", "K", "THETA", "PHI", "FI", "FU", "A"]

  const gwvHGW: int := 0     // water table height (ft)
  const gwvHSW: int := 1     // surface water height (ft)
  const gwvHCB: int := 2     // channel bottom height (ft)
  const gwvHGS: int := 3     // ground surface height (ft)
  const gwvKS: int := 4      // saturated hydraulic conductivity (ft/s)
  const gwvK: int := 5       // unsaturated hydraulic conductivity (ft/s)
  const gwvTHETA: int := 6   // upper zone moisture content
  const gwvPHI: int := 7     // soil porosity
  const gwvFI: int := 8      // surface infiltration (ft/s)
  const gwvFU: int := 9      // upper zone percolation (ft/s)
  const gwvA: int := 10      // subcatchment area (ft2)
  const gwvMAX: int := 11

  /** The index of a groundwater variable name, or -1 for an unknown
      name (which makes the expression fail to compile). */
  function VariableIndex(s: string, matches: (string, string) -> bool): (k: int)
    ensures -1 <= k < gwvMAX
    ensures k >= 0 ==> matches(s, GWVarWords[k])
    ensures k == -1 <==> forall j :: 0 <= j < gwvMAX ==> !matches(s, GWVarWords[j])
  {
    FindMatch(s, GWVarWords, matches)
  }

  function ToUpper(c: char): char {
    if 'a' <= c <= 'z' then (c as int - 'a' as int + 'A' as int) as char else c
  }

  /** Case-insensitive equality of two names. */
  predicate SameIgnoringCase(s: string, t: string) {
    |s| == |t| && forall i :: 0 <= i < |s| ==> ToUpper(s[i]) == ToUpper(t[i])
  }

  /** Under case-insensitive exact matching every variable name, in any
      case, resolves to its own index. */
  lemma {:induction false} VariableIndexOfName(s: string, k: int)
    requires 0 <= k < gwvMAX
    requires SameIgnoringCase(s, GWVarWords[k])
    ensures VariableIndex(s, SameIgnoringCase) == k
  {
    var r := VariableIndex(s, SameIgnoringCase);
    forall j | 0 <= j < gwvMAX && j != k
      ensures !SameIgnoringCase(s, GWVarWords[j])
    {
      DistinctNames(s, k, j);
    }
  }

  /** Two different variable names never both match one name. */
  lemma DistinctNames(s: string, k: int, j: int)
    requires 0 <= k < gwvMAX && 0 <= j < gwvMAX && k != j
    requires SameIgnoringCase(s, GWVarWords[k])
    ensures !SameIgnoringCase(s, GWVarWords[j])
  {
    UpperCaseName(k);
    UpperCaseName(j);
    var u := GWVarWords[k];
    var w := GWVarWords[j];
    if SameIgnoringCase(s, w) {
      assert false;
    }
  }

  /** Each variable name is written in upper case and differs from the
      others. */
  lemma UpperCaseName(k: int)
    requires 0 <= k < gwvMAX
    ensures forall i :: 0 <= i < |GWVarWords[k]| ==> ToUpper(GWVarWords[k][i]) == GWVarWords[k][i]
    ensures forall j :: 0 <= j < gwvMAX && j != k ==> GWVarWords[j] != GWVarWords[k]
  {
  }

  /** The live values behind the variables, in internal units. */
  datatype GwVariables = GwVariables(
    hgw: real, hsw: real, hcb: real, hgs: real, ks: real, k: real,
    theta: real, phi: real, fi: real, fu: real, area: real)

  /** The value of variable varIndex in the user's units; 0 for an index
      that names no variable. */
  function VariableValue(v: GwVariables, ucf: UnitFactors, varIndex: int): (r: real)
    ensures !(0 <= varIndex < gwvMAX) ==> r == 0.0
    ensures varIndex == gwvTHETA ==> r == v.theta
    ensures varIndex == gwvPHI ==> r == v.phi
    ensures ucf.Positive() && 0 <= varIndex <= gwvHGS ==> r / ucf.length == [v.hgw, v.hsw, v.hcb, v.hgs][varIndex]
    ensures ucf.Positive() && varIndex == gwvKS ==> r / ucf.rainfall == v.ks
    ensures ucf.Positive() && varIndex == gwvK ==> r / ucf.rainfall == v.k
    ensures ucf.Positive() && varIndex == gwvFI ==> r / ucf.rainfall == v.fi
    ensures ucf.Positive() && varIndex == gwvFU ==> r / ucf.rainfall == v.fu
    ensures ucf.Positive() && varIndex == gwvA ==> r / ucf.landarea == v.area
  {
    if varIndex == gwvHGW then ToUserUnits(v.hgw, ucf.length)
    else if varIndex == gwvHSW then ToUserUnits(v.hsw, ucf.length)
    else if varIndex == gwvHCB then ToUserUnits(v.hcb, ucf.length)
    else if varIndex == gwvHGS then ToUserUnits(v.hgs, ucf.length)
    else if varIndex == gwvKS then ToUserUnits(v.ks, ucf.rainfall)
    else if varIndex == gwvK then ToUserUnits(v.k, ucf.rainfall)
    else if varIndex == gwvTHETA then v.theta
    else if varIndex == gwvPHI then v.phi
    else if varIndex == gwvFI then ToUserUnits(v.fi, ucf.rainfall)
    else if varIndex == gwvFU then ToUserUnits(v.fu, ucf.rainfall)
    else if varIndex == gwvA then ToUserUnits(v.area, ucf.landarea)
    else 0.0
  }

  /** An internal quantity converted to user units by the factor f; the
      conversion is undone by dividing by f. */
  function ToUserUnits(x: real, f: real): (r: real)
    ensures f != 0.0 ==> r / f == x
  {
    x * f
  }

  /** All eleven values, indexed like GWVarWords: what an expression
      evaluator sees. */
  function VariableTable(v: GwVariables, ucf: UnitFactors): (t: seq<real>)
    ensures |t| == gwvMAX
    ensures forall i :: 0 <= i < gwvMAX ==> t[i] == VariableValue(v, ucf, i)
  {
    seq(gwvMAX, i => VariableValue(v, ucf, i))
  }

  /** A user flow expression, compiled: a real-valued function of the
      variable table. */
  type MathExpr = seq<real> -> real
}
