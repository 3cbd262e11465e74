/** The Flying Blue XP calculator: zone bucketing, the XP table, the total
    over an itinerary's segments, the segments the flight form produces, the
    distance to each status tier, and the airport suggestions shown while a
    code is typed. */
module XpCalculator {
  import opened Base
  import opened Text
  import opened Sequences
  import opened Airports

  /** The four values of the form's cabin selector. */
  datatype Cabin = Economy | Premium | Business | First

  /** One flown leg, by the codes typed into the form. */
  datatype Segment = Segment(origin: string, destination: string)

  /** The great-circle distance in km between two (lat, lon) points. */
  type DistanceKm = (real, real, real, real) -> real

  /** Position of a cabin in the table, from the cheapest row to the dearest. */
  function Rank(cabin: Cabin): nat {
    match cabin
    case Economy => 0
    case Premium => 1
    case Business => 2
    case First => 3
  }

  /** `xpMap[cabin][zone]`. */
  function BaseXP(cabin: Cabin, zone: nat): (xp: nat)
    requires zone <= 4
    ensures 2 <= xp <= 60
  {
    var row := match cabin
      case Economy => [2, 5, 8, 10, 12]
      case Premium => [4, 10, 16, 20, 24]
      case Business => [6, 15, 24, 30, 36]
      case First => [10, 25, 40, 50, 60];
    row[zone]
  }

  /** Within a cabin, a longer zone always earns more. */
  lemma BaseXPRisesWithZone(cabin: Cabin, z1: nat, z2: nat)
    requires z1 < z2 <= 4
    ensures BaseXP(cabin, z1) < BaseXP(cabin, z2)
  {
  }

  /** Within a zone, a dearer cabin always earns more. */
  lemma BaseXPRisesWithCabin(c1: Cabin, c2: Cabin, zone: nat)
    requires zone <= 4 && Rank(c1) < Rank(c2)
    ensures BaseXP(c1, zone) < BaseXP(c2, zone)
  {
  }

  /** The distance bands of an international flight: below 2000 km zone 1,
      below 3500 km zone 2, below 5000 km zone 3, otherwise zone 4. */
  function Bucket(distance: real): (zone: nat)
    ensures 1 <= zone <= 4
    ensures zone <= 1 <==> distance < 2000.0
    ensures zone <= 2 <==> distance < 3500.0
    ensures zone <= 3 <==> distance < 5000.0
  {
    if distance < 2000.0 then 1
    else if distance < 3500.0 then 2
    else if distance < 5000.0 then 3
    else 4
  }

  /** A longer flight never falls in a shorter band. */
  lemma BucketMonotone(d1: real, d2: real)
    requires d1 <= d2
    ensures Bucket(d1) <= Bucket(d2)
  {
  }

  /** `getZone`: 4 when either code is unknown to the directory, 0 when
      both airports are in the same country, otherwise the distance band. */
  function GetZone(airports: seq<Airport>, distance: DistanceKm, originCode: string, destinationCode: string): (zone: nat)
    ensures zone <= 4
    ensures Find(airports, originCode).None? || Find(airports, destinationCode).None? ==> zone == 4
    ensures Find(airports, originCode).Some? && Find(airports, destinationCode).Some? ==>
      var o, d := Find(airports, originCode).value, Find(airports, destinationCode).value;
      (o.country == d.country ==> zone == 0) &&
      (o.country != d.country ==> 1 <= zone && zone == Bucket(distance(o.lat, o.lon, d.lat, d.lon)))
  {
    var origin := Find(airports, originCode);
    var destination := Find(airports, destinationCode);
    if origin.None? || destination.None? then 4
    else if origin.value.country == destination.value.country then 0
    else Bucket(distance(origin.value.lat, origin.value.lon, destination.value.lat, destination.value.lon))
  }

  /** A code that no record carries as its IATA or ICAO code puts the
      segment in zone 4, whatever the other end is. */
  lemma UnknownCodeIsZone4(airports: seq<Airport>, distance: DistanceKm, originCode: string, destinationCode: string)
    requires (forall k :: 0 <= k < |airports| ==> !MatchesCode(airports[k], originCode)) ||
             (forall k :: 0 <= k < |airports| ==> !MatchesCode(airports[k], destinationCode))
    ensures GetZone(airports, distance, originCode, destinationCode) == 4
  {
  }

  /** Two records with the same country make a domestic flight, however far
      apart the airports are. */
  lemma SameCountryIsZone0(airports: seq<Airport>, distance: DistanceKm, originCode: string, destinationCode: string)
    requires Find(airports, originCode).Some? && Find(airports, destinationCode).Some?
    requires Find(airports, originCode).value.country == Find(airports, destinationCode).value.country
    ensures GetZone(airports, distance, originCode, destinationCode) == 0
  {
  }

  /** The multiplier of the two independent doublings. */
  function Factor(roundtrip: bool, doubleXP: bool): nat {
    (if roundtrip then 2 else 1) * (if doubleXP then 2 else 1)
  }

  /** The XP of one segment: the table entry, doubled for a round trip and
      doubled again for a double-XP promotion. */
  function SegmentXP(airports: seq<Airport>, distance: DistanceKm, segment: Segment,
                     cabin: Cabin, roundtrip: bool, doubleXP: bool): nat
  {
    var baseXP := BaseXP(cabin, GetZone(airports, distance, segment.origin, segment.destination));
    var once := if roundtrip then baseXP * 2 else baseXP;
    if doubleXP then once * 2 else once
  }

  /** The itinerary total: the segments' XP added up in order. */
  function TotalXP(airports: seq<Airport>, distance: DistanceKm, segments: seq<Segment>,
                   cabin: Cabin, roundtrip: bool, doubleXP: bool): nat
  {
    if segments == [] then 0
    else TotalXP(airports, distance, segments[..|segments| - 1], cabin, roundtrip, doubleXP)
         + SegmentXP(airports, distance, segments[|segments| - 1], cabin, roundtrip, doubleXP)
  }

  /** The total of a concatenation is the sum of the totals. */
  lemma {:induction false} TotalXPAppend(airports: seq<Airport>, distance: DistanceKm, s: seq<Segment>, t: seq<Segment>,
                                         cabin: Cabin, roundtrip: bool, doubleXP: bool)
    ensures TotalXP(airports, distance, s + t, cabin, roundtrip, doubleXP) ==
            TotalXP(airports, distance, s, cabin, roundtrip, doubleXP) +
            TotalXP(airports, distance, t, cabin, roundtrip, doubleXP)
  {
    if t == [] {
      assert s + t == s;
    } else {
      var n := |t| - 1;
      assert (s + t)[..|s + t| - 1] == s + t[..n];
      assert (s + t)[|s + t| - 1] == t[n];
      TotalXPAppend(airports, distance, s, t[..n], cabin, roundtrip, doubleXP);
    }
  }

  lemma SegmentXPScales(airports: seq<Airport>, distance: DistanceKm, segment: Segment,
                        cabin: Cabin, roundtrip: bool, doubleXP: bool)
    ensures SegmentXP(airports, distance, segment, cabin, roundtrip, doubleXP) ==
            Factor(roundtrip, doubleXP) * SegmentXP(airports, distance, segment, cabin, false, false)
  {
  }

  /** Multiplication over a sum, kept apart so the total's induction step
      stays linear. */
  lemma Distributes(f: nat, a: nat, b: nat)
    ensures f * a + f * b == f * (a + b)
  {
  }

  /** The multipliers apply to every segment, so they scale the whole total. */
  lemma {:induction false} TotalXPScales(airports: seq<Airport>, distance: DistanceKm, segments: seq<Segment>,
                                         cabin: Cabin, roundtrip: bool, doubleXP: bool)
    ensures TotalXP(airports, distance, segments, cabin, roundtrip, doubleXP) ==
            Factor(roundtrip, doubleXP) * TotalXP(airports, distance, segments, cabin, false, false)
  {
    if segments != [] {
      var init, last := segments[..|segments| - 1], segments[|segments| - 1];
      TotalXPScales(airports, distance, init, cabin, roundtrip, doubleXP);
      var f := Factor(roundtrip, doubleXP);
      var a := TotalXP(airports, distance, init, cabin, false, false);
      var b := SegmentXP(airports, distance, last, cabin, false, false);
      SegmentXPScales(airports, distance, last, cabin, roundtrip, doubleXP);
      Distributes(f, a, b);
    }
  }

  /** A round trip booked under a double-XP promotion earns four times the
      one-way, single-XP total. */
  lemma RoundTripDoubleXPIsFourfold(airports: seq<Airport>, distance: DistanceKm, segments: seq<Segment>, cabin: Cabin)
    ensures TotalXP(airports, distance, segments, cabin, true, true) ==
            4 * TotalXP(airports, distance, segments, cabin, false, false)
  {
    TotalXPScales(airports, distance, segments, cabin, true, true);
  }

  /** `calculateXP`: accumulates each segment's XP into a running total. */
  method CalculateXP(airports: seq<Airport>, distance: DistanceKm, segments: seq<Segment>,
                     cabin: Cabin, roundtrip: bool, doubleXP: bool) returns (totalXP: nat)
    ensures totalXP == TotalXP(airports, distance, segments, cabin, roundtrip, doubleXP)
    ensures segments == [] ==> totalXP == 0
  {
    totalXP := 0;
    var i := 0;
    while i < |segments|
      invariant i <= |segments|
      invariant totalXP == TotalXP(airports, distance, segments[..i], cabin, roundtrip, doubleXP)
    {
      var segment := segments[i];
      var zone := GetZone(airports, distance, segment.origin, segment.destination);
      var baseXP := BaseXP(cabin, zone);
      if roundtrip { baseXP := baseXP * 2; }
      if doubleXP { baseXP := baseXP * 2; }
      assert segments[..i + 1][..i] == segments[..i];
      totalXP := totalXP + baseXP;
      i := i + 1;
    }
    assert segments[..i] == segments;
  }

  // ---------------------------------------------------------------------
  // Segments of the flight form

  /** The codes an itinerary passes through, first to last. */
  function Route(segments: seq<Segment>): seq<string>
    requires segments != []
  {
    [segments[0].origin] + seq(|segments|, i requires 0 <= i < |segments| => segments[i].destination)
  }

  /** Each segment starts where the previous one ended. */
  predicate Chained(segments: seq<Segment>) {
    forall i :: 0 <= i < |segments| - 1 ==> segments[i].destination == segments[i + 1].origin
  }

  /** The segments the submit handler produces from the four form fields
      (an empty string is a field left blank). */
  function SubmittedSegments(origin: string, stop1: string, stop2: string, destination: string): (segments: seq<Segment>)
    ensures 1 <= |segments| <= 3
    ensures segments[|segments| - 1].destination == destination
    ensures Chained(segments)
  {
    (if origin != "" && stop1 != "" then [Segment(origin, stop1)] else []) +
    (if stop1 != "" && stop2 != "" then [Segment(stop1, stop2)] else []) +
    (if stop2 != "" then [Segment(stop2, destination)]
     else if stop1 != "" then [Segment(stop1, destination)]
     else [Segment(origin, destination)])
  }

  /** The submit handler's block that pushes the segments one by one. */
  method BuildSegments(origin: string, stop1: string, stop2: string, destination: string) returns (segments: seq<Segment>)
    ensures segments == SubmittedSegments(origin, stop1, stop2, destination)
  {
    segments := [];
    if origin != "" && stop1 != "" { segments := segments + [Segment(origin, stop1)]; }
    if stop1 != "" && stop2 != "" { segments := segments + [Segment(stop1, stop2)]; }
    if stop2 != "" { segments := segments + [Segment(stop2, destination)]; }
    else if stop1 != "" { segments := segments + [Segment(stop1, destination)]; }
    else { segments := segments + [Segment(origin, destination)]; }
  }

  lemma NoStopsIsDirect(origin: string, destination: string)
    ensures SubmittedSegments(origin, "", "", destination) == [Segment(origin, destination)]
  {
  }

  lemma BothStopsIsFullChain(origin: string, stop1: string, stop2: string, destination: string)
    requires origin != "" && stop1 != "" && stop2 != ""
    ensures SubmittedSegments(origin, stop1, stop2, destination) ==
            [Segment(origin, stop1), Segment(stop1, stop2), Segment(stop2, destination)]
  {
  }

  /** As written, a second stop without a first one keeps only the leg from
      the second stop to the destination, whatever the origin. */
  lemma Stop2AloneIsLastLegOnly(origin: string, stop2: string, destination: string)
    requires stop2 != ""
    ensures SubmittedSegments(origin, "", stop2, destination) == [Segment(stop2, destination)]
  {
  }

  /** So a filled-in origin does not occur on the route at all. */
  lemma Stop2AloneDropsOrigin(origin: string, stop2: string, destination: string)
    requires origin != "" && stop2 != "" && origin != stop2 && origin != destination
    ensures origin !in Route(SubmittedSegments(origin, "", stop2, destination))
  {
  }

  /** The fields that were filled in, in form order, ending with the
      destination; with no field before the destination filled in, the
      (blank) origin is kept as the form does. */
  function Waypoints(origin: string, stop1: string, stop2: string, destination: string): seq<string> {
    var given := (if origin != "" then [origin] else []) +
                 (if stop1 != "" then [stop1] else []) +
                 (if stop2 != "" then [stop2] else []);
    (if given == [] then [origin] else given) + [destination]
  }

  /** The segment list the form evidently means to build: one leg between
      each pair of consecutive filled-in fields. */
  function IntendedSegments(origin: string, stop1: string, stop2: string, destination: string): (segments: seq<Segment>)
    ensures 1 <= |segments| <= 3
  {
    var w := Waypoints(origin, stop1, stop2, destination);
    seq(|w| - 1, i requires 0 <= i < |w| - 1 => Segment(w[i], w[i + 1]))
  }

  /** The intended segments visit every filled-in field, in order. */
  lemma IntendedVisitsEveryStop(origin: string, stop1: string, stop2: string, destination: string)
    ensures Chained(IntendedSegments(origin, stop1, stop2, destination))
    ensures Route(IntendedSegments(origin, stop1, stop2, destination)) == Waypoints(origin, stop1, stop2, destination)
  {
  }

  /** The handler as written agrees with the intended segments on every
      input except a filled-in origin and second stop with a blank first stop. */
  lemma SubmittedAgreesWithIntended(origin: string, stop1: string, stop2: string, destination: string)
    requires !(origin != "" && stop1 == "" && stop2 != "")
    ensures SubmittedSegments(origin, stop1, stop2, destination) == IntendedSegments(origin, stop1, stop2, destination)
  {
  }

  // ---------------------------------------------------------------------
  // Status tiers

  const SilverXP: int := 100
  const GoldXP: int := 180
  const PlatinumXP: int := 300

  /** `Math.max(0, threshold - totalXP)`: the XP still missing for a tier. */
  function Remaining(threshold: int, totalXP: int): (gap: int)
    ensures gap >= 0
    ensures gap == 0 <==> totalXP >= threshold
    ensures gap > 0 ==> totalXP + gap == threshold
  {
    if threshold - totalXP > 0 then threshold - totalXP else 0
  }

  datatype TierGaps = TierGaps(silver: int, gold: int, platinum: int)

  /** The three figures `updateStatus` displays. */
  function StatusGaps(totalXP: int): (g: TierGaps)
    ensures 0 <= g.silver <= g.gold <= g.platinum
    ensures g.silver == 0 <==> totalXP >= SilverXP
    ensures g.gold == 0 <==> totalXP >= GoldXP
    ensures g.platinum == 0 <==> totalXP >= PlatinumXP
  {
    TierGaps(Remaining(SilverXP, totalXP), Remaining(GoldXP, totalXP), Remaining(PlatinumXP, totalXP))
  }

  /** Earning more XP never increases what is missing for a tier. */
  lemma RemainingShrinks(threshold: int, t1: int, t2: int)
    requires t1 <= t2
    ensures Remaining(threshold, t2) <= Remaining(threshold, t1)
  {
  }

  // ---------------------------------------------------------------------
  // Airport suggestions of the flight form

  /** Reading a string method of a missing field throws a TypeError. */
  datatype FilterError = TypeError

  /** The filter callback on one record, with JavaScript's short-circuit
      order: the code must start with the query, or the upper-cased city or
      name contain it. */
  function SuggestionTest(a: Airport, query: string): Result<bool, FilterError> {
    match a.code
    case None => Failure(TypeError)
    case Some(code) =>
      if IsPrefix(query, code) then Success(true)
      else match a.city
        case None => Failure(TypeError)
        case Some(city) =>
          if Contains(Upper(city), query) then Success(true)
          else match a.name
            case None => Failure(TypeError)
            case Some(name) => Success(Contains(Upper(name), query))
  }

  /** The query the form matches against: the input trimmed and upper-cased. */
  function SuggestionQuery(input: string): string {
    Upper(Trim(input))
  }

  predicate Suggestible(a: Airport, query: string) {
    SuggestionTest(a, query) == Success(true)
  }

  const MaxFormSuggestions: nat := 5

  /** The records listed under a form field: none for a query of fewer than
      two characters, otherwise the first five records that pass the test,
      or a TypeError when some record reaches a missing field. */
  function FormSuggestions(airports: seq<Airport>, input: string): (r: Result<seq<Airport>, FilterError>)
    ensures |SuggestionQuery(input)| < 2 ==> r == Success([])
    ensures r.Failure? <==> (|SuggestionQuery(input)| >= 2 &&
      exists k :: 0 <= k < |airports| && SuggestionTest(airports[k], SuggestionQuery(input)).Failure?)
    ensures r.Success? ==> |r.value| <= MaxFormSuggestions
    ensures r.Success? ==> forall i :: 0 <= i < |r.value| ==>
      var a, q := r.value[i], SuggestionQuery(input);
      a in airports && a.code.Some? &&
      (IsPrefix(q, a.code.value) ||
       (a.city.Some? && Contains(Upper(a.city.value), q)) ||
       (a.name.Some? && Contains(Upper(a.name.value), q)))
  {
    var query := SuggestionQuery(input);
    if |query| < 2 then Success([])
    else if exists k :: 0 <= k < |airports| && SuggestionTest(airports[k], query).Failure? then Failure(TypeError)
    else Success(Take(Filter(airports, a => Suggestible(a, query)), MaxFormSuggestions))
  }

  /** The suggestions are the matches of a prefix of the directory, in
      directory order, and that prefix is the whole directory unless five
      matches were already found. */
  lemma FormSuggestionsAreFirstMatches(airports: seq<Airport>, input: string) returns (k: nat)
    requires FormSuggestions(airports, input).Success?
    requires |SuggestionQuery(input)| >= 2
    ensures k <= |airports|
    ensures FormSuggestions(airports, input).value == Filter(airports[..k], a => Suggestible(a, SuggestionQuery(input)))
    ensures k < |airports| ==> |FormSuggestions(airports, input).value| == MaxFormSuggestions
  {
    var query := SuggestionQuery(input);
    k := FirstMatches(airports, a => Suggestible(a, query), MaxFormSuggestions);
  }
}
