/**
 * Shared vocabulary of the weather model: location-zone codes and types, the
 * NOAA quality-control grades and their order, and collecting a sequence of
 * results into a result of a sequence.
 */
module Model {
  import opened Wrappers

  // ---------------------------------------------------------------------------
  // Collecting results

  /**
   * Collects the values of a sequence of results, stopping at the first error.
   */
  method TransposeResult<T, E>(results: seq<Result<T, E>>) returns (r: Result<seq<T>, E>)
    ensures r.Ok? <==> forall i :: 0 <= i < |results| ==> results[i].Ok?
    ensures r.Ok? ==> |r.value| == |results|
    ensures r.Ok? ==> forall i :: 0 <= i < |results| ==> r.value[i] == results[i].value
    ensures r.Err? ==> exists k :: 0 <= k < |results| && results[k] == Err(r.error) &&
                                   forall i :: 0 <= i < k ==> results[i].Ok?
  {
    var acc: seq<T> := [];
    var i := 0;
    while i < |results|
      invariant 0 <= i <= |results|
      invariant |acc| == i
      invariant forall k :: 0 <= k < i ==> results[k].Ok? && acc[k] == results[k].value
    {
      if results[i].Err? {
        return Err(results[i].error);
      }
      acc := acc + [results[i].value];
      i := i + 1;
    }
    r := Ok(acc);
  }

  // ---------------------------------------------------------------------------
  // Location zones

  /** The code of a NOAA location zone, such as `WAZ558`; a plain wrapper around its text. */
  datatype LocationZoneCode = LocationZoneCode(code: string)
  {
    /** The text shown for a zone code. */
    function Display(): string
    {
      code
    }

    /** Unwraps the code back into its text. */
    function IntoString(): string
    {
      code
    }
  }

  /** Wraps a text as a zone code. */
  function NewZoneCode(code: string): (z: LocationZoneCode)
    ensures z.IntoString() == code && z.Display() == code
  {
    LocationZoneCode(code)
  }

  datatype LocationZoneType = Public | County | Forecast

  /** The name of a zone type, as used in NOAA zone URLs. */
  function ZoneTypeName(t: LocationZoneType): string
  {
    match t
    case Public => "Public"
    case County => "County"
    case Forecast => "Forecast"
  }

  /** Reads a zone type; only the exact names are accepted. */
  function ParseZoneType(s: string): (r: Option<LocationZoneType>)
    ensures r.Some? ==> ZoneTypeName(r.value) == s
    ensures forall t :: ZoneTypeName(t) == s ==> r == Some(t)
  {
    if s == "Public" then Some(Public)
    else if s == "County" then Some(County)
    else if s == "Forecast" then Some(Forecast)
    else None
  }

  datatype WeatherError =
    | UrlNotZoneIdentifier(url: string)
    | UrlParse(reason: string)

  /**
   * A parsed URL, reduced to what zone extraction needs: its text and its path
   * segments, or `None` for a URL that cannot be a base (such as `mailto:`).
   */
  datatype Url = Url(rep: string, pathSegments: Option<seq<string>>)

  /**
   * Extracts the zone from a zone URL: the last path segment is the code and the
   * one before it names the zone type, if it is a known type.
   */
  function FromUrl(url: Url): (r: Result<(Option<LocationZoneType>, LocationZoneCode), WeatherError>)
    ensures r.Err? <==> url.pathSegments.None? || |url.pathSegments.value| < 2
    ensures r.Err? ==> r.error == UrlNotZoneIdentifier(url.rep)
    ensures r.Ok? ==> var segments := url.pathSegments.value;
      r.value.1 == LocationZoneCode(segments[|segments| - 1])
      && r.value.0 == ParseZoneType(segments[|segments| - 2])
  {
    match url.pathSegments
    case None => Err(UrlNotZoneIdentifier(url.rep))
    case Some(segments) =>
      if |segments| < 2 then Err(UrlNotZoneIdentifier(url.rep))
      else Ok((ParseZoneType(segments[|segments| - 2]), LocationZoneCode(segments[|segments| - 1])))
  }

  predicate StartsWith(s: string, prefix: string)
  {
    |prefix| <= |s| && s[..|prefix|] == prefix
  }

  /**
   * Reads a zone code that is either a zone URL or a bare code. Text starting
   * with `http` is parsed as a URL by `urlParser` (which fails with a reason)
   * and the code is extracted from it; any other text is the code verbatim.
   */
  function ParseZoneCode(codeRep: string, urlParser: string -> Result<Url, string>): (r: Result<LocationZoneCode, WeatherError>)
    ensures !StartsWith(codeRep, "http") ==> r == Ok(LocationZoneCode(codeRep))
    ensures StartsWith(codeRep, "http") && urlParser(codeRep).Err? ==> r == Err(UrlParse(urlParser(codeRep).error))
    ensures StartsWith(codeRep, "http") && urlParser(codeRep).Ok? ==>
      var extracted := FromUrl(urlParser(codeRep).value);
      (r.Ok? <==> extracted.Ok?) && (r.Ok? ==> r.value == extracted.value.1)
  {
    if StartsWith(codeRep, "http") then
      match urlParser(codeRep)
      case Err(reason) => Err(UrlParse(reason))
      case Ok(url) =>
        match FromUrl(url)
        case Err(e) => Err(e)
        case Ok(pair) => Ok(pair.1)
    else Ok(LocationZoneCode(codeRep))
  }

  // ---------------------------------------------------------------------------
  // Forecast and alert payloads (their decoding from NOAA features is not modelled)

  datatype ForecastDetail = ForecastDetail(name: string, forecast: string)

  /** A zone's forecast; `updated` is the time it was fetched. */
  datatype ZoneForecast = ZoneForecast(zoneCode: string, updated: int, periods: seq<ForecastDetail>)

  /**
   * A weather alert, reduced to the zones it affects and its descriptive text;
   * the remaining CAP fields are carried as an opaque `details` text.
   */
  datatype WeatherAlert = WeatherAlert(
    affectedZones: seq<LocationZoneCode>,
    event: string,
    headline: Option<string>,
    description: string,
    details: string)

  // ---------------------------------------------------------------------------
  // Quality control

  /** NOAA quality-control grades, from verified (V) down to rejected (X). */
  datatype QualityControl = V | G | S | C | Z | Q | T | B | X

  function Level(qc: QualityControl): nat
  {
    match qc
    case V => 9
    case G => 8
    case S => 7
    case C => 6
    case Z => 5
    case Q => 4
    case T => 3
    case B => 2
    case X => 1
  }

  datatype Ordering = Less | Equal | Greater

  /** Grades are ordered by their level. */
  function Cmp(a: QualityControl, b: QualityControl): Ordering
  {
    if Level(a) < Level(b) then Less
    else if Level(a) == Level(b) then Equal
    else Greater
  }

  /** The levels run from 1 to 9 and no two grades share one. */
  lemma LevelsDistinct(a: QualityControl, b: QualityControl)
    ensures 1 <= Level(a) <= 9
    ensures Level(a) == Level(b) <==> a == b
  {
  }

  /** The order is X < B < T < Q < Z < C < S < G < V. */
  lemma GradeChain()
    ensures Cmp(X, B) == Less && Cmp(B, T) == Less && Cmp(T, Q) == Less && Cmp(Q, Z) == Less
    ensures Cmp(Z, C) == Less && Cmp(C, S) == Less && Cmp(S, G) == Less && Cmp(G, V) == Less
  {
  }

  /** The order is total, antisymmetric, transitive, and agrees with equality. */
  lemma CmpTotalOrder(a: QualityControl, b: QualityControl, c: QualityControl)
    ensures Cmp(a, b) == Equal <==> a == b
    ensures Cmp(a, b) == Less <==> Cmp(b, a) == Greater
    ensures Cmp(a, b) == Less && Cmp(b, c) == Less ==> Cmp(a, c) == Less
  {
    LevelsDistinct(a, b);
  }

  /** The name of a grade, as NOAA writes it. */
  function GradeName(qc: QualityControl): string
  {
    match qc
    case V => "V"
    case G => "G"
    case S => "S"
    case C => "C"
    case Z => "Z"
    case Q => "Q"
    case T => "T"
    case B => "B"
    case X => "X"
  }

  /** Reads a grade from its name. */
  function ParseGrade(s: string): (r: Option<QualityControl>)
    ensures r.Some? ==> GradeName(r.value) == s
    ensures forall qc :: GradeName(qc) == s ==> r == Some(qc)
  {
    if s == "V" then Some(V)
    else if s == "G" then Some(G)
    else if s == "S" then Some(S)
    else if s == "C" then Some(C)
    else if s == "Z" then Some(Z)
    else if s == "Q" then Some(Q)
    else if s == "T" then Some(T)
    else if s == "B" then Some(B)
    else if s == "X" then Some(X)
    else None
  }
}
