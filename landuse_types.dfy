/**
 * The land-use side of pollutant buildup and washoff: the buildup and
 * washoff functions a land use carries for each pollutant, the pollutant
 * properties the washoff arithmetic needs, and a subcatchment's per-land-use
 * factors, whose buildup entries the simulation debits and credits in
 * place.
 */
module LanduseTypes {
  import opened Common

  /** Kinds of buildup function, in the order of the buildup keywords
      NONE, POW, EXP, SAT, EXT. */
  datatype BuildupType = NoBuildup | PowerBuildup | ExponBuildup | SaturBuildup | ExternalBuildup

  /** What a buildup is expressed per: unit of land-use area or of curb
      length (keywords AREA, CURB). */
  datatype Normalizer = PerArea | PerCurb

  /** Kinds of washoff function, in the order of the washoff keywords
      NONE, EXP, RC, EMC. */
  datatype WashoffType = NoWashoff | ExponWashoff | RatingWashoff | EmcWashoff

  const BuildupTypeWords: seq<string> := ["NONE", "POW", "EXP", "SAT", "EXT"]
  const WashoffTypeWords: seq<string> := ["NONE", "EXP", "RC", "EMC"]

  /** A buildup function: coefficients c0 (the maximum buildup), c1 and c2,
      and the number of days after which buildup is taken to be at its
      maximum. For external buildup c1 is a scaling factor and c2 holds the
      index of the loading time series. */
  datatype BuildupFunc = BuildupFunc(
    funcType: BuildupType,
    normalizer: Normalizer,
    c0: real,
    c1: real,
    c2: real,
    maxDays: real)

  /** What reading a buildup line guarantees: no negative coefficient and a
      non-negative time to maximum buildup. */
  predicate ValidBuildup(f: BuildupFunc) {
    f.c0 >= 0.0 && f.c1 >= 0.0 && f.c2 >= 0.0 && f.maxDays >= 0.0
  }

  /** A washoff function with its coefficient already in internal units,
      and its street-sweeping and BMP removal efficiencies as fractions. */
  datatype WashoffFunc = WashoffFunc(
    funcType: WashoffType,
    coeff: real,
    expon: real,
    sweepEffic: real,
    bmpEffic: real)

  /** What reading a washoff line guarantees. */
  predicate ValidWashoff(w: WashoffFunc) {
    && w.coeff >= 0.0
    && -10.0 <= w.expon <= 10.0
    && 0.0 <= w.sweepEffic <= 1.0
    && 0.0 <= w.bmpEffic <= 1.0
  }

  /** A land use: street-sweeping schedule and one buildup and one washoff
      function per pollutant. */
  datatype Landuse = Landuse(
    id: string,
    sweepInterval: real,
    sweepRemoval: real,
    sweepDays0: real,
    buildupFunc: seq<BuildupFunc>,
    washoffFunc: seq<WashoffFunc>)

  /** The pollutant properties used here: the factor converting the
      pollutant's concentration mass units to reported mass, and its
      co-pollutant (-1 for none) with the fraction of that co-pollutant's
      washoff it picks up. */
  datatype Pollut = Pollut(mcf: real, coPollut: int, coFraction: real)

  /** A subcatchment's land-use factors: the fraction of its area each land
      use covers, the date each was last swept, and the buildup of each
      pollutant on each land use (row = land use, column = pollutant). */
  class LandFactors {
    var fraction: seq<real>
    var lastSwept: array<real>
    var buildup: array2<real>

    predicate Valid()
      reads this
    {
      lastSwept.Length == |fraction| == buildup.Length0
    }

    constructor (fraction: seq<real>, nPolluts: nat)
      ensures Valid()
      ensures this.fraction == fraction && buildup.Length1 == nPolluts
      ensures fresh(lastSwept) && fresh(buildup)
    {
      this.fraction := fraction;
      lastSwept := new real[|fraction|];
      buildup := new real[|fraction|, nPolluts];
    }
  }
}
