/**
 * Reading a subcatchment's groundwater line:
 *
 *   subcatch aquifer node surfElev a1 b1 a2 b2 a3 fixedDepth
 *            (nodeElev bottomElev waterTableElev upperMoisture)
 *
 * Object lookup and number parsing are external; they are parameters.
 */
module GwaterInput {
  import opened Common

  datatype ObjectKind = SubcatchObject | AquiferObject | NodeObject

  /** The values of a groundwater line in internal units; each of the four
      trailing optional values is MISSING when it is absent or `*`. */
  datatype GroundwaterParams = GroundwaterParams(
    subcatch: nat,
    aquifer: nat,
    node: nat,
    surfElev: real,
    a1: real,
    b1: real,
    a2: real,
    b2: real,
    a3: real,
    fixedDepth: real,
    nodeElev: real,
    bottomElev: real,
    waterTableElev: real,
    upperMoisture: real)

  /** A token that stands for "use the default". */
  predicate IsStar(t: string) {
    |t| > 0 && t[0] == '*'
  }

  /** Parses tokens[from..from+count] as numbers, stopping at the first one
      that is not a number. */
  function ParseNumbers(tokens: seq<string>, from: nat, count: nat, parse: string -> Option<real>)
    : (r: Result<seq<real>>)
    requires from + count <= |tokens|
    ensures r.Ok? ==> |r.value| == count
    ensures r.Ok? ==> forall k :: 0 <= k < count ==> parse(tokens[from + k]) == Some(r.value[k])
    ensures r.Err? ==> r.error.ErrNumber?
    ensures r.Err? ==> from <= r.error.token < from + count && parse(tokens[r.error.token]).None?
    ensures r.Err? ==> forall k :: from <= k < r.error.token ==> parse(tokens[k]).Some?
    decreases count
  {
    if count == 0 then Ok([])
    else
      match parse(tokens[from])
      case None => Err(ErrNumber(from))
      case Some(x) =>
        var rest :- ParseNumbers(tokens, from + 1, count - 1, parse);
        Ok([x] + rest)
  }

  /** The optional value in token m: MISSING when absent or `*`, else the
      parsed number, converted from user length units when `isLength`. */
  function ReadOptional(tokens: seq<string>, m: nat, isLength: bool,
                        parse: string -> Option<real>, ucf: UnitFactors): (r: Result<real>)
    requires ucf.Positive()
    ensures (|tokens| <= m || IsStar(tokens[m])) ==> r == Ok(MISSING)
    ensures r.Err? ==> r == Err(ErrNumber(m))
    ensures m < |tokens| && !IsStar(tokens[m]) && parse(tokens[m]).Some? ==>
              r == Ok(if isLength then parse(tokens[m]).value / ucf.length else parse(tokens[m]).value)
  {
    if |tokens| > m && !IsStar(tokens[m]) then
      match parse(tokens[m])
      case None => Err(ErrNumber(m))
      case Some(x) => Ok(if isLength then x / ucf.length else x)
    else Ok(MISSING)
  }

  /** Whether optional token m is acceptable: absent, `*` or a number. */
  predicate OptionalReadable(tokens: seq<string>, m: nat, parse: string -> Option<real>) {
    |tokens| <= m || IsStar(tokens[m]) || parse(tokens[m]).Some?
  }

  /** The four trailing optional values of a groundwater line. */
  datatype OptionalDepths = OptionalDepths(nodeElev: real, bottomElev: real, waterTableElev: real,
                                           upperMoisture: real)

  /** Reads tokens 10 to 13: three elevations converted from user length
      units and the upper-zone moisture, each MISSING when absent or `*`;
      ERR_NUMBER names the first one that is present but not a number. */
  function ReadOptionalDepths(tokens: seq<string>, parse: string -> Option<real>, ucf: UnitFactors)
    : (r: Result<OptionalDepths>)
    requires ucf.Positive()
    ensures r.Err? ==>
              && r.error.ErrNumber? && 10 <= r.error.token < 14 && r.error.token < |tokens|
              && parse(tokens[r.error.token]).None? && !IsStar(tokens[r.error.token])
              && (forall k :: 10 <= k < r.error.token ==> OptionalReadable(tokens, k, parse))
    ensures (OptionalReadable(tokens, 10, parse) && OptionalReadable(tokens, 11, parse) &&
             OptionalReadable(tokens, 12, parse) && OptionalReadable(tokens, 13, parse)) ==> r.Ok?
    ensures r.Ok? ==>
              && ReadOptional(tokens, 10, true, parse, ucf) == Ok(r.value.nodeElev)
              && ReadOptional(tokens, 11, true, parse, ucf) == Ok(r.value.bottomElev)
              && ReadOptional(tokens, 12, true, parse, ucf) == Ok(r.value.waterTableElev)
              && ReadOptional(tokens, 13, false, parse, ucf) == Ok(r.value.upperMoisture)
  {
    var nodeElev :- ReadOptional(tokens, 10, true, parse, ucf);
    var bottomElev :- ReadOptional(tokens, 11, true, parse, ucf);
    var waterTableElev :- ReadOptional(tokens, 12, true, parse, ucf);
    var upperMoisture :- ReadOptional(tokens, 13, false, parse, ucf);
    Ok(OptionalDepths(nodeElev, bottomElev, waterTableElev, upperMoisture))
  }

  /** Reads a groundwater line; the error order is that of the source. */
  function ReadGroundwaterParams(tokens: seq<string>, find: (ObjectKind, string) -> int,
                                 parse: string -> Option<real>, ucf: UnitFactors)
    : (r: Result<GroundwaterParams>)
    requires ucf.Positive()
    ensures |tokens| < 3 ==> r == Err(ErrItems)
    ensures |tokens| >= 3 && find(SubcatchObject, tokens[0]) < 0 ==> r == Err(ErrName(0))
    ensures 3 <= |tokens| < 11 && find(SubcatchObject, tokens[0]) >= 0 ==> r == Err(ErrItems)
    ensures (|tokens| >= 11 && find(SubcatchObject, tokens[0]) >= 0 &&
             find(AquiferObject, tokens[1]) < 0) ==> r == Err(ErrName(1))
    ensures (|tokens| >= 11 && find(SubcatchObject, tokens[0]) >= 0 &&
             find(AquiferObject, tokens[1]) >= 0 && find(NodeObject, tokens[2]) < 0) ==> r == Err(ErrName(2))
    ensures r.Ok? ==> |tokens| >= 11
    ensures r.Ok? ==> (&& r.value.subcatch as int == find(SubcatchObject, tokens[0])
                       && r.value.aquifer as int == find(AquiferObject, tokens[1])
                       && r.value.node as int == find(NodeObject, tokens[2]))
    ensures r.Ok? ==> (&& parse(tokens[3]).Some? && r.value.surfElev == parse(tokens[3]).value / ucf.length
                       && parse(tokens[4]) == Some(r.value.a1)
                       && parse(tokens[5]) == Some(r.value.b1)
                       && parse(tokens[6]) == Some(r.value.a2)
                       && parse(tokens[7]) == Some(r.value.b2)
                       && parse(tokens[8]) == Some(r.value.a3)
                       && parse(tokens[9]).Some? && r.value.fixedDepth == parse(tokens[9]).value / ucf.length)
    ensures r.Ok? && (|tokens| <= 10 || IsStar(tokens[10])) ==> r.value.nodeElev == MISSING
    ensures r.Ok? && (|tokens| <= 11 || IsStar(tokens[11])) ==> r.value.bottomElev == MISSING
    ensures r.Ok? && (|tokens| <= 12 || IsStar(tokens[12])) ==> r.value.waterTableElev == MISSING
    ensures r.Ok? && (|tokens| <= 13 || IsStar(tokens[13])) ==> r.value.upperMoisture == MISSING
    ensures r.Ok? && |tokens| > 10 && !IsStar(tokens[10]) ==>
              parse(tokens[10]).Some? && r.value.nodeElev == parse(tokens[10]).value / ucf.length
    ensures r.Ok? && |tokens| > 11 && !IsStar(tokens[11]) ==>
              parse(tokens[11]).Some? && r.value.bottomElev == parse(tokens[11]).value / ucf.length
    ensures r.Ok? && |tokens| > 12 && !IsStar(tokens[12]) ==>
              parse(tokens[12]).Some? && r.value.waterTableElev == parse(tokens[12]).value / ucf.length
    ensures r.Ok? && |tokens| > 13 && !IsStar(tokens[13]) ==>
              parse(tokens[13]) == Some(r.value.upperMoisture)
  {
    if |tokens| < 3 then Err(ErrItems)
    else if find(SubcatchObject, tokens[0]) < 0 then Err(ErrName(0))
    else if |tokens| < 11 then Err(ErrItems)
    else if find(AquiferObject, tokens[1]) < 0 then Err(ErrName(1))
    else if find(NodeObject, tokens[2]) < 0 then Err(ErrName(2))
    else
      var x :- ParseNumbers(tokens, 3, 7, parse);
      var d :- ReadOptionalDepths(tokens, parse, ucf);
      Ok(GroundwaterParams(
        find(SubcatchObject, tokens[0]) as nat,
        find(AquiferObject, tokens[1]) as nat,
        find(NodeObject, tokens[2]) as nat,
        x[0] / ucf.length, x[1], x[2], x[3], x[4], x[5], x[6] / ucf.length,
        d.nodeElev, d.bottomElev, d.waterTableElev, d.upperMoisture))
  }

  /** A groundwater line whose names resolve fails only on a number: the
      first of tokens 3 to 9 that is not one, or the first optional token
      that is present and not `*` but not a number; with every number
      readable the line is accepted. */
  lemma ReadGroundwaterNumberErrors(tokens: seq<string>, find: (ObjectKind, string) -> int,
                                    parse: string -> Option<real>, ucf: UnitFactors)
    requires ucf.Positive()
    ensures var r := ReadGroundwaterParams(tokens, find, parse, ucf);
            r.Err? && r.error.ErrNumber? ==>
              && 3 <= r.error.token < 14 && r.error.token < |tokens|
              && parse(tokens[r.error.token]).None?
              && (r.error.token >= 10 ==> !IsStar(tokens[r.error.token]))
              && (forall k :: 3 <= k < r.error.token && k < 10 ==> parse(tokens[k]).Some?)
              && (forall k :: 10 <= k < r.error.token ==> OptionalReadable(tokens, k, parse))
    ensures (&& |tokens| >= 11 && find(SubcatchObject, tokens[0]) >= 0
             && find(AquiferObject, tokens[1]) >= 0 && find(NodeObject, tokens[2]) >= 0
             && (forall k :: 3 <= k < 10 ==> parse(tokens[k]).Some?)
             && OptionalReadable(tokens, 10, parse) && OptionalReadable(tokens, 11, parse)
             && OptionalReadable(tokens, 12, parse) && OptionalReadable(tokens, 13, parse)) ==>
              ReadGroundwaterParams(tokens, find, parse, ucf).Ok?
  {
  }
}
