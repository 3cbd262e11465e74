/** The airport directory: the global `airports` list the three source
    files read, and the lookup they all use, `airports.find(a => a.iata ===
    code || a.icao === code)`. */
module Airports {
  import opened Base
  import opened Sequences

  /** One record of the directory. Every text field may be missing in the
      data (`undefined`); coordinates are taken as given. */
  datatype Airport = Airport(
    iata: Option<string>,
    icao: Option<string>,
    code: Option<string>,
    name: Option<string>,
    city: Option<string>,
    country: Option<string>,
    lat: real,
    lon: real)

  /** `a.iata === code || a.icao === code`; a missing code never matches. */
  predicate MatchesCode(a: Airport, code: string) {
    a.iata == Some(code) || a.icao == Some(code)
  }

  /** The first record whose IATA or ICAO code is `code`. */
  function Find(airports: seq<Airport>, code: string): (r: Option<Airport>)
    ensures r.None? <==> forall k :: 0 <= k < |airports| ==> !MatchesCode(airports[k], code)
    ensures r.Some? ==>
      exists k :: 0 <= k < |airports| && airports[k] == r.value && MatchesCode(r.value, code) &&
        forall j :: 0 <= j < k ==> !MatchesCode(airports[j], code)
  {
    var i := FirstIndex(airports, a => MatchesCode(a, code));
    if i < |airports| then Some(airports[i]) else None
  }
}
