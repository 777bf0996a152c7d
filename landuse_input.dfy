/**
 * Reading the land-use and washoff lines of an input file:
 *
 *   landuseID (sweepInterval sweepRemoval sweepDays0)
 *   landuseID pollutID washoffType c1 c2 (sweepEffic bmpEffic)
 *
 * Object lookup, keyword matching and number parsing are external; they are
 * parameters. The table of land uses keeps what the lines define.
 */
module LanduseInput {
  import opened Common
  import opened LanduseTypes

  datatype ObjectKind = LanduseObject | PollutObject

  // ---------------------------------------------------------------------
  // Land-use line
  // ---------------------------------------------------------------------

  /** The values of a land-use line: the land use's ID and its street
      sweeping interval (days), removal fraction and days since last
      swept at the start of the run. */
  datatype SweepParams = SweepParams(
    id: string,
    sweepInterval: real,
    sweepRemoval: real,
    sweepDays0: real)

  /** Reads a land-use line. With the ID alone, sweeping is off (all three
      values 0); otherwise all three values must be present. The removal
      must be a fraction. `findId` gives the stored ID of a known land
      use. */
  function ParseLanduseLine(tokens: seq<string>, findId: string -> Option<string>,
                             parse: string -> Option<real>): (r: Result<SweepParams>)
    ensures |tokens| == 0 ==> r == Err(ErrItems)
    ensures |tokens| > 0 && findId(tokens[0]).None? ==> r == Err(ErrName(0))
    ensures (|tokens| == 2 || |tokens| == 3) && findId(tokens[0]).Some? ==> r == Err(ErrItems)
    ensures |tokens| == 1 && findId(tokens[0]).Some? ==>
              r == Ok(SweepParams(findId(tokens[0]).value, 0.0, 0.0, 0.0))
    ensures r.Ok? ==> findId(tokens[0]) == Some(r.value.id)
    ensures r.Ok? ==> 0.0 <= r.value.sweepRemoval <= 1.0
    ensures r.Ok? && |tokens| > 1 ==>
              && parse(tokens[1]) == Some(r.value.sweepInterval)
              && parse(tokens[2]) == Some(r.value.sweepRemoval)
              && parse(tokens[3]) == Some(r.value.sweepDays0)
    ensures (|tokens| >= 4 && findId(tokens[0]).Some? &&
             parse(tokens[1]).Some? && parse(tokens[2]).Some? && parse(tokens[3]).Some? &&
             !(0.0 <= parse(tokens[2]).value <= 1.0)) ==> r == Err(ErrNumber(2))
  {
    if |tokens| < 1 then Err(ErrItems)
    else if findId(tokens[0]).None? then Err(ErrName(0))
    else
      var id := findId(tokens[0]).value;
      var p :-
        if |tokens| > 1 then
          if |tokens| < 4 then Err(ErrItems)
          else if parse(tokens[1]).None? then Err(ErrNumber(1))
          else if parse(tokens[2]).None? then Err(ErrNumber(2))
          else if parse(tokens[3]).None? then Err(ErrNumber(3))
          else Ok(SweepParams(id, parse(tokens[1]).value, parse(tokens[2]).value,
                              parse(tokens[3]).value))
        else Ok(SweepParams(id, 0.0, 0.0, 0.0));
      if p.sweepRemoval < 0.0 || p.sweepRemoval > 1.0 then Err(ErrNumber(2))
      else Ok(p)
  }

  // ---------------------------------------------------------------------
  // Washoff line
  // ---------------------------------------------------------------------

  /** A washoff function read for pollutant `pollut` of land use
      `landuse`. */
  datatype WashoffLine = WashoffLine(landuse: nat, pollut: nat, func: WashoffFunc)

  /** The washoff type of a keyword index. */
  function WashoffTypeOf(k: int): (t: WashoffType)
    requires 0 <= k < |WashoffTypeWords|
    ensures t == NoWashoff <==> k == 0
  {
    [NoWashoff, ExponWashoff, RatingWashoff, EmcWashoff][k]
  }

  /** The number in token k, or 0 when the line is shorter. */
  function OptionalNumber(tokens: seq<string>, k: nat, parse: string -> Option<real>): (r: Result<real>)
    ensures |tokens| <= k ==> r == Ok(0.0)
    ensures k < |tokens| ==> (r.Ok? <==> parse(tokens[k]).Some?)
    ensures k < |tokens| && r.Ok? ==> r.value == parse(tokens[k]).value
    ensures r.Err? ==> r == Err(ErrNumber(k))
  {
    if |tokens| <= k then Ok(0.0)
    else if parse(tokens[k]).None? then Err(ErrNumber(k))
    else Ok(parse(tokens[k]).value)
  }

  /** The four numbers of a washoff line with a washoff function: the
      coefficient and exponent are required, the two efficiencies (in
      percent) default to 0. */
  function WashoffNumbers(tokens: seq<string>, parse: string -> Option<real>): (r: Result<seq<real>>)
    ensures |tokens| < 5 ==> r == Err(ErrItems)
    ensures r.Ok? ==> |r.value| == 4 && |tokens| >= 5
    ensures r.Ok? ==> forall j :: 0 <= j < 4 && j + 3 < |tokens| ==> parse(tokens[j + 3]) == Some(r.value[j])
    ensures r.Ok? ==> forall j :: 0 <= j < 4 && |tokens| <= j + 3 ==> r.value[j] == 0.0
  {
    if |tokens| < 5 then Err(ErrItems)
    else
      var c1 :- OptionalNumber(tokens, 3, parse);
      var c2 :- OptionalNumber(tokens, 4, parse);
      var sweep :- OptionalNumber(tokens, 5, parse);
      var bmp :- OptionalNumber(tokens, 6, parse);
      Ok([c1, c2, sweep, bmp])
  }

  /** The washoff coefficient in internal units: an exponential washoff
      rate from per hour to per second, a rating-curve coefficient from
      user flow units, an event mean concentration from per litre to per
      cubic foot. */
  function InternalCoeff(t: WashoffType, coeff: real, expon: real, m: MathLib, ucf: UnitFactors)
    : (c: real)
    ensures t == NoWashoff ==> c == coeff
    ensures t == ExponWashoff ==> c * 3600.0 == coeff
    ensures t == RatingWashoff ==> c == coeff * m.pow(ucf.flow, expon)
    ensures t == EmcWashoff ==> c == coeff * LperFT3
    ensures m.Valid() && ucf.flow > 0.0 && coeff >= 0.0 ==> c >= 0.0
  {
    match t
    case NoWashoff => coeff
    case ExponWashoff => coeff / 3600.0
    case RatingWashoff =>
      RatingCoeffSign(coeff, expon, m, ucf);
      coeff * m.pow(ucf.flow, expon)
    case EmcWashoff => coeff * LperFT3
  }

  lemma RatingCoeffSign(coeff: real, expon: real, m: MathLib, ucf: UnitFactors)
    ensures m.Valid() && ucf.flow > 0.0 && coeff >= 0.0 ==> coeff * m.pow(ucf.flow, expon) >= 0.0
  {
    if m.Valid() && ucf.flow > 0.0 && coeff >= 0.0 {
      NonNegativeProduct(coeff, m.pow(ucf.flow, expon));
    }
  }

  /** Whether four raw washoff numbers are acceptable: a non-negative
      coefficient, an exponent in [-10, 10] and two efficiencies in
      [0, 100] percent. */
  predicate WashoffInRange(x: seq<real>)
    requires |x| == 4
  {
    x[0] >= 0.0 && -10.0 <= x[1] <= 10.0 && 0.0 <= x[2] <= 100.0 && 0.0 <= x[3] <= 100.0
  }

  /** Checks the raw numbers in the source's order, naming the token of the
      first one out of range. */
  function CheckWashoff(x: seq<real>): (r: Option<InputError>)
    requires |x| == 4
    ensures r.None? <==> WashoffInRange(x)
    ensures r.Some? ==> r.value.ErrNumber? && 3 <= r.value.token <= 6
  {
    if x[0] < 0.0 then Some(ErrNumber(3))
    else if x[1] < -10.0 || x[1] > 10.0 then Some(ErrNumber(4))
    else if x[2] < 0.0 || x[2] > 100.0 then Some(ErrNumber(5))
    else if x[3] < 0.0 || x[3] > 100.0 then Some(ErrNumber(6))
    else None
  }

  /** Reads a washoff line. A line of fewer than three tokens is ignored
      (Ok(None)); a NONE function needs no numbers and gets all-zero
      parameters; otherwise the numbers are parsed, range-checked, the
      coefficient converted to internal units and the efficiencies turned
      from percentages into fractions. */
  function ParseWashoffLine(tokens: seq<string>, find: (ObjectKind, string) -> int,
                             matches: (string, string) -> bool, parse: string -> Option<real>,
                             m: MathLib, ucf: UnitFactors): (r: Result<Option<WashoffLine>>)
    ensures |tokens| < 3 ==> r == Ok(None)
    ensures |tokens| >= 3 ==> (r.Ok? ==> r.value.Some?)
    ensures |tokens| >= 3 && find(LanduseObject, tokens[0]) < 0 ==> r == Err(ErrName(0))
    ensures (|tokens| >= 3 && find(LanduseObject, tokens[0]) >= 0 &&
             find(PollutObject, tokens[1]) < 0) ==> r == Err(ErrName(1))
    ensures (|tokens| >= 3 && find(LanduseObject, tokens[0]) >= 0 &&
             find(PollutObject, tokens[1]) >= 0 &&
             FindMatch(tokens[2], WashoffTypeWords, matches) < 0) ==> r == Err(ErrKeyword(2))
    ensures r.Ok? && r.value.Some? ==>
              && r.value.value.landuse as int == find(LanduseObject, tokens[0])
              && r.value.value.pollut as int == find(PollutObject, tokens[1])
              && FindMatch(tokens[2], WashoffTypeWords, matches) >= 0
              && r.value.value.func.funcType == WashoffTypeOf(FindMatch(tokens[2], WashoffTypeWords, matches))
    ensures (|tokens| >= 3 && find(LanduseObject, tokens[0]) >= 0 && find(PollutObject, tokens[1]) >= 0 &&
             FindMatch(tokens[2], WashoffTypeWords, matches) == 0) ==>
              r == Ok(Some(WashoffLine(find(LanduseObject, tokens[0]) as nat, find(PollutObject, tokens[1]) as nat,
                                       WashoffFunc(NoWashoff, 0.0, 0.0, 0.0, 0.0))))
    ensures (|tokens| >= 3 && find(LanduseObject, tokens[0]) >= 0 && find(PollutObject, tokens[1]) >= 0 &&
             FindMatch(tokens[2], WashoffTypeWords, matches) > 0 && WashoffNumbers(tokens, parse).Err?) ==>
              r == Err(WashoffNumbers(tokens, parse).error)
    ensures (|tokens| >= 3 && find(LanduseObject, tokens[0]) >= 0 && find(PollutObject, tokens[1]) >= 0 &&
             FindMatch(tokens[2], WashoffTypeWords, matches) > 0 && WashoffNumbers(tokens, parse).Ok?) ==>
              var x := WashoffNumbers(tokens, parse).value;
              && (!WashoffInRange(x) ==> r == Err(CheckWashoff(x).value))
              && (WashoffInRange(x) ==> r.Ok? && r.value.Some?)
    ensures r.Ok? && r.value.Some? && m.Valid() && ucf.flow > 0.0 ==>
              ValidWashoff(r.value.value.func)
    ensures r.Ok? && r.value.Some? && r.value.value.func.funcType == NoWashoff ==>
              r.value.value.func == WashoffFunc(NoWashoff, 0.0, 0.0, 0.0, 0.0)
    ensures r.Ok? && r.value.Some? && r.value.value.func.funcType != NoWashoff ==>
              && |tokens| >= 5
              && parse(tokens[3]).Some? && parse(tokens[3]).value >= 0.0
              && r.value.value.func.coeff == InternalCoeff(r.value.value.func.funcType, parse(tokens[3]).value,
                                                           r.value.value.func.expon, m, ucf)
              && parse(tokens[4]) == Some(r.value.value.func.expon)
              && (|tokens| > 5 ==> parse(tokens[5]) == Some(r.value.value.func.sweepEffic * 100.0))
              && (|tokens| > 6 ==> parse(tokens[6]) == Some(r.value.value.func.bmpEffic * 100.0))
  {
    if |tokens| < 3 then Ok(None)
    else if find(LanduseObject, tokens[0]) < 0 then Err(ErrName(0))
    else if find(PollutObject, tokens[1]) < 0 then Err(ErrName(1))
    else
      var k := FindMatch(tokens[2], WashoffTypeWords, matches);
      if k < 0 then Err(ErrKeyword(2))
      else
        var t := WashoffTypeOf(k);
        var x :- if t == NoWashoff then Ok([0.0, 0.0, 0.0, 0.0]) else WashoffNumbers(tokens, parse);
        match CheckWashoff(x)
        case Some(e) => Err(e)
        case None =>
          var f := WashoffFunc(t, InternalCoeff(t, x[0], x[1], m, ucf), x[1],
                               x[2] / 100.0, x[3] / 100.0);
          Ok(Some(WashoffLine(find(LanduseObject, tokens[0]) as nat,
                              find(PollutObject, tokens[1]) as nat, f)))
  }

  // ---------------------------------------------------------------------
  // The land-use table
  // ---------------------------------------------------------------------

  /** The project's land uses, each with one buildup and one washoff
      function per pollutant. */
  class LanduseTable {
    var landuses: seq<Landuse>
    var nPolluts: nat

    /** Every land use has a function slot for every pollutant, every
        washoff function is one a washoff line can produce and every
        sweeping removal is a fraction. */
    ghost predicate Valid()
      reads this
    {
      && (forall k :: 0 <= k < |landuses| ==>
            |landuses[k].buildupFunc| == nPolluts && |landuses[k].washoffFunc| == nPolluts)
      && (forall k, p :: 0 <= k < |landuses| && 0 <= p < |landuses[k].washoffFunc| ==>
            ValidWashoff(landuses[k].washoffFunc[p]))
      && (forall k :: 0 <= k < |landuses| ==> 0.0 <= landuses[k].sweepRemoval <= 1.0)
    }

    /** Stores the values of land use j's line when it reads without
        error. */
    method ReadParams(j: nat, tokens: seq<string>, findId: string -> Option<string>,
                      parse: string -> Option<real>) returns (r: Result<SweepParams>)
      requires Valid() && j < |landuses|
      modifies this
      ensures Valid() && nPolluts == old(nPolluts)
      ensures r == ParseLanduseLine(tokens, findId, parse)
      ensures r.Err? ==> landuses == old(landuses)
      ensures r.Ok? ==> landuses == old(landuses)[j := old(landuses)[j].(
                          id := r.value.id, sweepInterval := r.value.sweepInterval,
                          sweepRemoval := r.value.sweepRemoval, sweepDays0 := r.value.sweepDays0)]
    {
      r := ParseLanduseLine(tokens, findId, parse);
      if r.Ok? {
        var lu := landuses[j];
        landuses := landuses[j := lu.(id := r.value.id, sweepInterval := r.value.sweepInterval,
                                      sweepRemoval := r.value.sweepRemoval,
                                      sweepDays0 := r.value.sweepDays0)];
      }
    }

    /** Stores the washoff function of a washoff line in its land use's
        slot for its pollutant. */
    method ReadWashoffParams(tokens: seq<string>, find: (ObjectKind, string) -> int,
                             matches: (string, string) -> bool, parse: string -> Option<real>,
                             m: MathLib, ucf: UnitFactors) returns (r: Result<Option<WashoffLine>>)
      requires Valid() && m.Valid() && ucf.flow > 0.0
      requires forall s :: find(LanduseObject, s) < |landuses|
      requires forall s :: find(PollutObject, s) < nPolluts
      modifies this
      ensures Valid() && nPolluts == old(nPolluts) && |landuses| == |old(landuses)|
      ensures r == ParseWashoffLine(tokens, find, matches, parse, m, ucf)
      ensures !(r.Ok? && r.value.Some?) ==> landuses == old(landuses)
      ensures r.Ok? && r.value.Some? ==>
                var w := r.value.value;
                landuses == old(landuses)[w.landuse := old(landuses)[w.landuse].(
                              washoffFunc := old(landuses)[w.landuse].washoffFunc[w.pollut := w.func])]
    {
      r := ParseWashoffLine(tokens, find, matches, parse, m, ucf);
      if r.Ok? && r.value.Some? {
        var w := r.value.value;
        var lu := landuses[w.landuse];
        landuses := landuses[w.landuse := lu.(washoffFunc := lu.washoffFunc[w.pollut := w.func])];
      }
    }
  }
}
