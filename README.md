# FlyingBlue XP helper — Dafny model

This project models the logic core of a browser-resident Flying Blue
loyalty helper. The helper computes the experience points (XP) an
itinerary earns, from each segment's distance zone and the cabin class. It
offers airport suggestions while a code is typed. It also resolves airport
coordinates through an expiring local cache that sits in front of a remote
geocoder.

Modules, one per source file plus four shared ones:

- `Base` (base.dfy): `Option` and `Result`.
- `Text` (text.dfy): `trim`, ASCII `toUpperCase`/`toLowerCase`,
  `startsWith`, `endsWith` and `includes` on `seq<char>`, with lemmas that
  the autocomplete normalisation ignores case and surrounding whitespace.
- `Sequences` (sequences.dfy): `find`, `filter` and `slice(0, n)`, with the
  lemma that `filter(p).slice(0, n)` is the matches of a prefix.
- `Airports` (airports.dfy): the airport record and the shared lookup
  `airports.find(a => a.iata === code || a.icao === code)`.
- `XpCalculator` (xp_calculator.dfy), modelling xp-calculator.js:
  - the XP table;
  - zone bucketing (`getZone`), where the distance is a function parameter;
  - `calculateXP` as a loop, proved against the recursive total `TotalXP`;
  - the submit handler's segment builder, as a method proved against `SubmittedSegments`;
  - the tier gaps of `updateStatus`;
  - the form's suggestion filter, where a record missing `code`, `city` or
    `name` makes the filter throw a `TypeError`.
- `AirportCache` (airport_cache.dfy), modelling airportCache.js:
  - the store is a class `GeoCache` holding a `map<string, Entry>`;
  - `getFromCache`, `saveToCache` and the `clearExpired` cursor sweep are
    its methods, specified by the map functions `Lookup`, `Put` and `Swept`;
  - `getLatLon` takes the remote geocoder as a function argument. It
    reports through `fetched` whether the geocoder was asked;
  - `getFormatted`.
- `Autocomplete` (autocomplete.dfy): the widget's match rule as a function.

Clock readings (`Date.now()`) are explicit integer parameters. `getLatLon`
takes two of them: one for the cache read and one for the later write.
Airport fields that the data may lack are `Option<string>`. This follows
JavaScript: `undefined === undefined` holds, so two records that both lack
a country count as the same country. A template literal prints a missing
field as `undefined`.

The model follows the code on these points:

- The zone thresholds are plain 2000, 3500 and 5000 km.
- The sweep deletes entries with `now > expiry`. An entry expiring exactly
  at `now` survives the sweep. A read at that same instant already treats
  it as absent.
- The XP multipliers apply per segment, before summation.

## Model

| member | source | states |
|---|---|---|
| `Airports.Find` | xp-calculator.js:63-64 | absent exactly when no record matches the code by IATA or ICAO; otherwise the matching record with the lowest index |
| `Sequences.FirstIndex` | airportCache.js:60 | the index is within bounds, its element satisfies the test, and no earlier element does |
| `Sequences.Filter` | autocomplete.js:18-26 | an element is kept exactly when it satisfies the test and occurs in the input |
| `Sequences.FilterAppend` | autocomplete.js:18-26 | filtering a concatenation filters each part and keeps their order, so the filter keeps the input's order and multiplicity |
| `Sequences.FilterSingleton` | autocomplete.js:18-26 | a one-element list keeps its element exactly when it passes the test |
| `Sequences.FirstMatches` | autocomplete.js:18-27 | `filter(p).slice(0, n)` equals the matches of some prefix, and that prefix is the whole input unless `n` matches were found |
| `XpCalculator.BaseXP` | xp-calculator.js:45-52 | every table entry lies between 2 and 60 |
| `XpCalculator.BaseXPRisesWithZone` | xp-calculator.js:45-50 | within a cabin row, XP strictly increases from zone 0 to zone 4 |
| `XpCalculator.BaseXPRisesWithCabin` | xp-calculator.js:45-50 | within a zone, economy < premium < business < first |
| `XpCalculator.Bucket` | xp-calculator.js:72-75 | the zone is in 1..4, and it is at most 1, 2 or 3 exactly when the distance is below 2000, 3500 or 5000 km |
| `XpCalculator.BucketMonotone` | xp-calculator.js:72-75 | a greater distance never gives a lower zone |
| `XpCalculator.GetZone` | xp-calculator.js:62-76 | the zone is in 0..4; it is 4 if either code is unknown, 0 for the same country, otherwise the distance band (at least 1) |
| `XpCalculator.UnknownCodeIsZone4` | xp-calculator.js:63-66 | a code carried by no record, as IATA or ICAO, gives zone 4 |
| `XpCalculator.SameCountryIsZone0` | xp-calculator.js:68 | two found records with the same country give zone 0, whatever the distance |
| `XpCalculator.SegmentXPScales` | xp-calculator.js:52-55 | a segment's XP is its table value times 2 for a round trip, times 2 again for double XP |
| `XpCalculator.TotalXPAppend` | xp-calculator.js:40-59 | the total of a concatenation of segment lists is the sum of their totals |
| `XpCalculator.TotalXPScales` | xp-calculator.js:52-56 | the round-trip and double-XP multipliers scale the whole itinerary total |
| `XpCalculator.RoundTripDoubleXPIsFourfold` | xp-calculator.js:52-56 | `calculateXP(s, c, true, true)` is 4 times `calculateXP(s, c, false, false)` |
| `XpCalculator.CalculateXP` | xp-calculator.js:40-60 | the accumulating loop returns the total over all segments, and 0 for no segments |
| `XpCalculator.SubmittedSegments` | xp-calculator.js:143-148 | 1 to 3 segments, the last one ends at the destination, and each starts where the previous ended |
| `XpCalculator.BuildSegments` | xp-calculator.js:143-148 | the step-by-step pushes produce exactly the submitted segment list |
| `XpCalculator.NoStopsIsDirect` | xp-calculator.js:148 | with no stops, the single segment is origin→destination |
| `XpCalculator.BothStopsIsFullChain` | xp-calculator.js:144-146 | with origin and both stops given, the chain is origin→stop1→stop2→destination |
| `XpCalculator.Stop2AloneIsLastLegOnly` | xp-calculator.js:144-146 | with stop2 but no stop1, whatever the origin, only stop2→destination is kept |
| `XpCalculator.Stop2AloneDropsOrigin` | xp-calculator.js:144-146 | with a filled-in origin, stop2 but no stop1, the origin is not on the route |
| `XpCalculator.IntendedSegments` | xp-calculator.js:143-148 | the corrected builder yields 1 to 3 segments |
| `XpCalculator.IntendedVisitsEveryStop` | xp-calculator.js:143-148 | the corrected builder's segments are chained and visit every filled-in field in form order |
| `XpCalculator.SubmittedAgreesWithIntended` | xp-calculator.js:143-148 | the builder as written equals the corrected one on every input except origin and stop2 given without stop1 |
| `XpCalculator.Remaining` | xp-calculator.js:126-129 | the gap is non-negative; it is 0 exactly when the total reaches the threshold; otherwise total + gap equals the threshold |
| `XpCalculator.StatusGaps` | xp-calculator.js:125-129 | Silver ≤ Gold ≤ Platinum gaps, and each is 0 exactly when the total reaches 100, 180 or 300 |
| `XpCalculator.RemainingShrinks` | xp-calculator.js:129 | more XP never increases a tier gap |
| `XpCalculator.FormSuggestions` | xp-calculator.js:192-201 | nothing below 2 query characters. It fails exactly when some record reaches a missing field. Otherwise at most 5 records are returned, each from the list, with a code starting with the query or a city or name containing it |
| `XpCalculator.FormSuggestionsAreFirstMatches` | xp-calculator.js:197-201 | the suggestions are the matches of a prefix of the list, in list order, cut only when 5 were found |
| `AirportCache.LookupAfterPut` | airportCache.js:28-43 | after a save at time t with ttl, a read at now returns the value exactly when now < t + ttl |
| `AirportCache.PutLeavesOtherKeys` | airportCache.js:38-46 | a save leaves every other key's entry and reads unchanged |
| `AirportCache.LookupUnknownKey` | airportCache.js:26-32 | a key never saved reads as absent |
| `AirportCache.SweptKeys` | airportCache.js:87-94 | the sweep keeps exactly the entries with expiry ≥ now, unchanged |
| `AirportCache.ExpiringNowSurvivesSweep` | airportCache.js:93 | an entry with expiry == now survives the sweep, yet a read at that instant returns nothing |
| `AirportCache.SweepPreservesLookup` | airportCache.js:87-93 | a sweep at time now changes no read made at now |
| `AirportCache.GeoCache.Get` | airportCache.js:20-36 | returns the stored value exactly when the key is present and now < expiry |
| `AirportCache.GeoCache.Save` | airportCache.js:38-47 | the store becomes the old store with the key set to the value and expiry now + ttl |
| `AirportCache.GeoCache.ClearExpired` | airportCache.js:83-96 | the cursor loop leaves exactly the swept store |
| `AirportCache.GetLatLon` | airportCache.js:58-72 | a directory hit returns the record's position with no cache change and no remote call. A cache hit returns the cached position with no remote call. Otherwise the geocoder's answer is returned, and saved for 30 days only when present |
| `AirportCache.Formatted` | airportCache.js:75-80 | the code itself when no record matches; otherwise text starting "city, country " and ending " (iata)" |
| `AirportCache.FormattedUnknownCode` | airportCache.js:76-79 | a code carried by no record is returned unchanged |
| `Text.NormalizeIsTrimOfLower` | autocomplete.js:13 | trimming then lower-casing equals lower-casing then trimming |
| `Text.NormalizeIgnoresCase` | autocomplete.js:13 | inputs equal up to ASCII case normalise alike |
| `Text.NormalizeIgnoresPadding` | autocomplete.js:13 | surrounding whitespace does not change the normalised query |
| `Autocomplete.Suggestions` | autocomplete.js:12-27 | an empty trimmed query gives nothing; at most 10 airports, each from the list and with an IATA, ICAO, name or city field containing the query |
| `Autocomplete.SuggestionsAreFirstMatches` | autocomplete.js:18-27 | the suggestions are exactly the matching airports of a prefix of the list, in order, cut only when 10 were found |
| `Autocomplete.FewMatchesAllOffered` | autocomplete.js:18-27 | when fewer than 10 airports match, every matching airport is suggested |
| `Autocomplete.SuggestionsIgnoreCase` | autocomplete.js:13 | inputs differing only in letter case give the same suggestions |
| `Autocomplete.SuggestionsIgnorePadding` | autocomplete.js:13 | inputs differing only in surrounding whitespace give the same suggestions |

## Findings

| source | as written | input that shows it | evidently intended | confidence | as-written member | corrected member |
|---|---|---|---|---|---|---|
| xp-calculator.js:144-148 | with stop2 filled in and stop1 blank, only stop2→destination is pushed; the origin→stop2 leg and its XP are lost | origin "TPE", stop1 "", stop2 "HKG", destination "CDG" gives only HKG→CDG | one segment per consecutive pair of filled-in fields: TPE→HKG→CDG | medium, not executed | `XpCalculator.Stop2AloneDropsOrigin` | `XpCalculator.IntendedVisitsEveryStop` |

`IntendedSegments` differs from the code as written only on that input
shape (`SubmittedAgreesWithIntended`). `BuildSegments` keeps the behaviour
as written, because it models the submit handler itself.

## Left out

- The haversine `getDistance` (xp-calculator.js:78-89) is floating-point trigonometry. `GetZone` takes the distance as a function of the two coordinate pairs, so NaN distances and rounding are not modelled.
- IndexedDB plumbing is left out: opening the databases, transactions, promises, `loadFlights`, `deleteFlight` and storing the flight record. The cache is an in-memory map. Storage errors (a rejected promise) are not modelled.
- `fetchGeoFromLeaflet` is an HTTP request plus `parseFloat`. It is a function argument returning an optional position, and its URL encoding and JSON scan are not modelled.
- `Date.now()` is replaced by explicit time parameters.
- Asynchronous interleaving is not modelled, for example another writer between `getLatLon`'s cache read and its save. Each operation runs to completion.
- Chart rendering, table rows, the status text, JSON export/import and the DOM and `setTimeout` handlers are browser UI. So are the click handlers on suggestions and the rendering of each suggestion.
- String handling is ASCII only: case mapping and trimming of ASCII whitespace. Unicode case mapping that changes length is not modelled.
- The global `airports` list is defined outside these files. It is a sequence parameter of records. No airport-feed parser is part of these files or of this model.
- `CalculateXP`: the cabin is one of the four selector values. A different string would make `xpMap[cabin]` undefined and throw, which is not modelled.
- `Suggestions`: an `iata`, `icao`, `name` or `city` field holding a non-string value makes `toLowerCase` throw a TypeError (autocomplete.js:21-24). This is not modelled; only present strings and missing fields are.
- `FormSuggestions`: a `code`, `city` or `name` field holding a non-string value is not modelled; only present strings and missing fields are.
- `GetLatLon`: the source repeats the directory search as a fallback (airportCache.js:63-64). When `window.airports` is an array, as the model's sequence parameter is, that search sees the same list and cannot hit after the first one missed, so the model performs the search once. A non-array `window.airports` is not modelled.
- `GetLatLon`: a failed geocoder request rejects `getLatLon` without a cache write. This covers a network error in `fetch`, a reply that is not JSON, and a reply that is not an array (airportCache.js:51-53, 69). The model's geocoder always answers, with a position or with nothing, so this rejected outcome is not modelled.
- `GeoCache.ClearExpired`: the cursor visits keys in key order, while the model picks any remaining key. The result does not depend on the order.
- `Formatted`: the contract states the prefix "city, country " and the suffix " (iata)". The name in between is fixed only by the body.
