/** The airport coordinate cache: an expiring key-value store (the
    `airportCache` object store), the resolver `getLatLon` that falls back
    from the directory to the cache to a remote geocoder, and the display
    formatter `getFormatted`. Times are epoch milliseconds passed in by the
    caller. */
module AirportCache {
  import opened Base
  import opened Text
  import opened Airports

  /** A latitude/longitude pair. */
  datatype Coord = Coord(lat: real, lon: real)

  /** A stored record `{ key, value, expiry }`, keyed by its map key. */
  datatype Entry<V> = Entry(value: V, expiry: int)

  type Store<V> = map<string, Entry<V>>

  /** The time-to-live `getLatLon` gives a geocoded result: 30 days in ms. */
  const ThirtyDaysMs: int := 30 * 24 * 60 * 60 * 1000

  /** What `getFromCache` resolves with: the value while `now < expiry`,
      otherwise nothing. */
  function Lookup<V>(store: Store<V>, key: string, now: int): Option<V> {
    if key in store && now < store[key].expiry then Some(store[key].value) else None
  }

  /** The store after `saveToCache` at time `now`. */
  function Put<V>(store: Store<V>, key: string, value: V, ttl: int, now: int): Store<V> {
    store[key := Entry(value, now + ttl)]
  }

  /** The store after the `clearExpired` sweep at time `now`. */
  function Swept<V>(store: Store<V>, now: int): Store<V> {
    map key | key in store && !(now > store[key].expiry) :: store[key]
  }

  /** A value saved at time `t` with time-to-live `ttl` is read back exactly
      while `now < t + ttl`. */
  lemma LookupAfterPut<V>(store: Store<V>, key: string, value: V, ttl: int, t: int, now: int)
    ensures Lookup(Put(store, key, value, ttl, t), key, now) == if now < t + ttl then Some(value) else None
  {
  }

  /** A save replaces the entry for its key and leaves every other key alone. */
  lemma PutLeavesOtherKeys<V>(store: Store<V>, key: string, value: V, ttl: int, t: int, other: string)
    requires other != key
    ensures other in Put(store, key, value, ttl, t) <==> other in store
    ensures other in store ==> Put(store, key, value, ttl, t)[other] == store[other]
    ensures forall now :: Lookup(Put(store, key, value, ttl, t), other, now) == Lookup(store, other, now)
  {
  }

  /** A key never saved reads as absent. */
  lemma LookupUnknownKey<V>(store: Store<V>, key: string, now: int)
    requires key !in store
    ensures Lookup(store, key, now) == None
  {
  }

  /** The sweep removes exactly the entries with `now > expiry`. */
  lemma SweptKeys<V>(store: Store<V>, now: int, key: string)
    ensures key in Swept(store, now) <==> key in store && store[key].expiry >= now
    ensures key in Swept(store, now) ==> Swept(store, now)[key] == store[key]
  {
  }

  /** An entry expiring exactly now survives the sweep although a read at
      the same instant already treats it as absent. */
  lemma ExpiringNowSurvivesSweep<V>(store: Store<V>, key: string, now: int)
    requires key in store && store[key].expiry == now
    ensures key in Swept(store, now)
    ensures Lookup(store, key, now) == None
  {
  }

  /** The sweep is invisible to a read at the same instant. */
  lemma SweepPreservesLookup<V>(store: Store<V>, now: int, key: string)
    ensures Lookup(Swept(store, now), key, now) == Lookup(store, key, now)
  {
  }

  /** The object store of cached lookups. */
  class GeoCache<V> {
    var entries: Store<V>

    constructor ()
      ensures entries == map[]
    {
      entries := map[];
    }

    /** `getFromCache(key)` with the clock reading `now`. */
    method Get(key: string, now: int) returns (r: Option<V>)
      ensures r == Lookup(entries, key, now)
      ensures r.Some? ==> key in entries && now < entries[key].expiry && r.value == entries[key].value
    {
      if key in entries {
        var entry := entries[key];
        if now < entry.expiry {
          return Some(entry.value);
        }
      }
      return None;
    }

    /** `saveToCache(key, value, ttl)` with the clock reading `now`: an upsert. */
    method Save(key: string, value: V, ttl: int, now: int)
      modifies this
      ensures entries == Put(old(entries), key, value, ttl, now)
    {
      entries := entries[key := Entry(value, now + ttl)];
    }

    /** `clearExpired()`: a cursor over every entry, deleting those whose
        expiry lies strictly before `now`. */
    method ClearExpired(now: int)
      modifies this
      ensures entries == Swept(old(entries), now)
    {
      var cursor := entries.Keys;
      while cursor != {}
        invariant cursor <= old(entries).Keys
        invariant entries.Keys <= old(entries).Keys
        invariant forall key :: key in entries ==> entries[key] == old(entries)[key]
        invariant forall key :: key in old(entries) ==>
          (key in entries <==> key in cursor || !(now > old(entries)[key].expiry))
        decreases cursor
      {
        var key :| key in cursor;
        if now > entries[key].expiry {
          entries := entries - {key};
        }
        cursor := cursor - {key};
      }
      assert entries.Keys == Swept(old(entries), now).Keys;
    }
  }

  /** `window.getLatLon(code)`. The directory is searched first, then the
      cache at time `readTime`; only when both miss is the remote geocoder
      asked (`fetched`), and a found position is saved for 30 days at time
      `writeTime`. */
  method GetLatLon(cache: GeoCache<Coord>, airports: seq<Airport>, code: string,
                   readTime: int, writeTime: int, geocode: string -> Option<Coord>)
    returns (r: Option<Coord>, fetched: bool)
    modifies cache
    ensures Find(airports, code).Some? ==>
      var a := Find(airports, code).value;
      r == Some(Coord(a.lat, a.lon)) && !fetched && cache.entries == old(cache.entries)
    ensures Find(airports, code).None? && Lookup(old(cache.entries), code, readTime).Some? ==>
      r == Lookup(old(cache.entries), code, readTime) && !fetched && cache.entries == old(cache.entries)
    ensures Find(airports, code).None? && Lookup(old(cache.entries), code, readTime).None? ==>
      fetched && r == geocode(code) &&
      cache.entries == if r.Some? then Put(old(cache.entries), code, r.value, ThirtyDaysMs, writeTime)
                       else old(cache.entries)
  {
    fetched := false;
    var airport := Find(airports, code);
    if airport.Some? {
      return Some(Coord(airport.value.lat, airport.value.lon)), fetched;
    }
    // The source repeats the same directory search as a fallback; it finds
    // the same record, so it cannot hit where the first search missed.
    var cached := cache.Get(code, readTime);
    if cached.Some? {
      return Some(Coord(cached.value.lat, cached.value.lon)), fetched;
    }
    var geo := geocode(code);
    fetched := true;
    if geo.Some? {
      cache.Save(code, geo.value, ThirtyDaysMs, writeTime);
    }
    return geo, fetched;
  }

  /** How a template literal shows a field: the text, or "undefined". */
  function Show(field: Option<string>): string {
    match field
    case Some(s) => s
    case None => "undefined"
  }

  /** `window.getFormatted(code)`: "city, country name (iata)" for the first
      matching record, the code itself when none matches. */
  function Formatted(airports: seq<Airport>, code: string): (s: string)
    ensures Find(airports, code).None? ==> s == code
    ensures Find(airports, code).Some? ==>
      var a := Find(airports, code).value;
      IsPrefix(Show(a.city) + ", " + Show(a.country) + " ", s) &&
      IsSuffix(" (" + Show(a.iata) + ")", s)
  {
    match Find(airports, code)
    case None => code
    case Some(a) => Show(a.city) + ", " + Show(a.country) + " " + Show(a.name) + " (" + Show(a.iata) + ")"
  }

  /** A code that no record carries is shown unchanged. */
  lemma FormattedUnknownCode(airports: seq<Airport>, code: string)
    requires forall k :: 0 <= k < |airports| ==> !MatchesCode(airports[k], code)
    ensures Formatted(airports, code) == code
  {
  }
}
