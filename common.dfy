/**
 * Shared vocabulary of the groundwater and land-use models: the MISSING
 * sentinel, the input-error codes, unit-conversion factors and the
 * transcendental functions, which the model treats as uninterpreted
 * apart from the sign facts in MathLib.Valid().
 */
module Common {

  /** SWMM's sentinel for an optional numeric field that was not supplied. */
  const MISSING: real := -10000000000.0

  /** Seconds per day. */
  const SECperDAY: real := 86400.0

  /** Litres per cubic foot. */
  const LperFT3: real := 28.317

  datatype Option<T> = None | Some(value: T)

  /** The input-error codes raised while reading a line of input; the
      payload is the index of the offending token. */
  datatype InputError =
    | ErrItems
    | ErrName(token: nat)
    | ErrNumber(token: nat)
    | ErrKeyword(token: nat)

  datatype Result<T> = Ok(value: T) | Err(error: InputError)
  {
    predicate IsFailure() {
      Err?
    }

    function PropagateFailure<U>(): Result<U>
      requires Err?
    {
      Err(error)
    }

    function Extract(): T
      requires Ok?
    {
      value
    }
  }

  /** Conversion factors from internal units (ft, sec, ft2, cfs) to the
      user's units, per kind of quantity. */
  datatype UnitFactors = UnitFactors(
    rainfall: real,
    length: real,
    gwflow: real,
    landarea: real,
    flow: real,
    mass: real)
  {
    predicate Positive() {
      rainfall > 0.0 && length > 0.0 && gwflow > 0.0 && landarea > 0.0 &&
      flow > 0.0 && mass > 0.0
    }
  }

  /** The C library's exp, pow and log. Only the sign facts that the
      model relies on are assumed of them. */
  datatype MathLib = MathLib(
    exp: real -> real,
    pow: (real, real) -> real,
    log: real -> real)
  {
    ghost predicate Valid() {
      && (forall x :: exp(x) > 0.0)
      && (forall x :: x <= 0.0 ==> exp(x) <= 1.0)
      && (forall x, y :: x >= 0.0 ==> pow(x, y) >= 0.0)
      && (forall x, y :: x > 0.0 ==> pow(x, y) > 0.0)
      && (forall x :: 0.0 < x <= 1.0 ==> log(x) <= 0.0)
    }

    /** Identities of exact arithmetic that the buildup round trip relies
        on: exp(0) is 1, exp undoes log, and raising to the power y and then
        to a power z with y * z == 1 gives back the base. */
    ghost predicate Inverses() {
      && exp(0.0) == 1.0
      && (forall x :: x > 0.0 ==> exp(log(x)) == x)
      && (forall x, y, z :: x >= 0.0 && y * z == 1.0 ==> pow(pow(x, y), z) == x)
    }
  }

  /** The MIN and MAX macros of the source. */
  function Min(x: real, y: real): (r: real)
    ensures r <= x && r <= y && (r == x || r == y)
  {
    if x <= y then x else y
  }

  function Max(x: real, y: real): (r: real)
    ensures r >= x && r >= y && (r == x || r == y)
  {
    if x >= y then x else y
  }

  /** The index of the first word that s matches, or -1 when none does;
      `matches` is the keyword matcher of the input reader. */
  function FindMatch(s: string, words: seq<string>, matches: (string, string) -> bool): (k: int)
    ensures -1 <= k < |words|
    ensures k >= 0 ==> matches(s, words[k])
    ensures k >= 0 ==> forall j :: 0 <= j < k ==> !matches(s, words[j])
    ensures k == -1 <==> forall j :: 0 <= j < |words| ==> !matches(s, words[j])
    decreases |words|
  {
    if |words| == 0 then -1
    else if matches(s, words[0]) then 0
    else
      var k := FindMatch(s, words[1..], matches);
      if k < 0 then -1 else k + 1
  }

  // ---------------------------------------------------------------------
  // Sign facts of real arithmetic the proofs appeal to
  // ---------------------------------------------------------------------

  lemma NonNegativeProduct(x: real, y: real)
    requires x >= 0.0 && y >= 0.0
    ensures x * y >= 0.0
  {
  }

  lemma PositiveProduct(x: real, y: real)
    requires x > 0.0 && y > 0.0
    ensures x * y > 0.0
  {
  }

  lemma ProductMonotone(x: real, y: real, k: real)
    requires x <= y && k >= 0.0
    ensures x * k <= y * k
  {
    NonNegativeProduct(y - x, k);
  }

  lemma NonNegativeQuotient(x: real, y: real)
    requires x >= 0.0 && y > 0.0
    ensures x / y >= 0.0
  {
  }

  lemma PositiveQuotient(x: real, y: real)
    requires x > 0.0 && y > 0.0
    ensures x / y > 0.0
  {
  }

  lemma NonPositiveQuotient(x: real, y: real)
    requires x <= 0.0 && y > 0.0
    ensures x / y <= 0.0
  {
  }

  lemma QuotientAtLeastOne(x: real, y: real)
    requires x >= y && y > 0.0
    ensures x / y >= 1.0
  {
  }

  lemma QuotientAtMostOne(x: real, y: real)
    requires x <= y && y > 0.0
    ensures x / y <= 1.0
  {
  }

  lemma QuotientBelowOne(x: real, y: real)
    requires x < y && y > 0.0
    ensures x / y < 1.0
  {
  }

  lemma NegativeQuotient(x: real, y: real)
    requires x < 0.0 && y > 0.0
    ensures x / y < 0.0
  {
  }
}
