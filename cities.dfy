/**
 The city dataset and the three pure queries the server runs over it: the
 first-match guid lookup, the tag/activity filter and the area filter. The
 dataset is an immutable sequence loaded once at start-up; the great-circle
 distance is supplied by the caller as `dist`.
 */
module Cities {
  import opened Wrappers
  import opened Arrays

  /** A dataset record (display-only fields are not modelled). */
  datatype City = City(
    guid: string,
    latitude: real,
    longitude: real,
    address: string,
    tags: seq<string>,
    isActive: bool)

  /** `calculateDistance(lat1, lon1, lat2, lon2)`: kilometres between two coordinate pairs. */
  type DistanceFn = (real, real, real, real) -> real

  function Distance(dist: DistanceFn, from: City, to: City): real {
    dist(from.latitude, from.longitude, to.latitude, to.longitude)
  }

  // ---------------------------------------------------------------------------
  // Guid lookup: `cities.find(city => city.guid === key)`

  /** `city.guid === key`, where an absent query parameter is `undefined` and matches no guid. */
  predicate HasGuid(key: Option<string>, c: City) {
    key == Some(c.guid)
  }

  function GuidIs(key: Option<string>): City -> bool {
    c => HasGuid(key, c)
  }

  function FindByGuid(cities: seq<City>, key: Option<string>): (r: Option<City>) {
    Find(cities, GuidIs(key))
  }

  /** The lookup fails exactly when no city carries the key, and otherwise yields the first city that does. */
  lemma FindByGuidFirst(cities: seq<City>, key: Option<string>)
    ensures FindByGuid(cities, key).None? <==> forall i :: 0 <= i < |cities| ==> key != Some(cities[i].guid)
    ensures FindByGuid(cities, key).Some? ==>
      key == Some(FindByGuid(cities, key).value.guid) &&
      exists i :: 0 <= i < |cities| && cities[i] == FindByGuid(cities, key).value &&
        forall j :: 0 <= j < i ==> key != Some(cities[j].guid)
  {
    FindFirst(cities, GuidIs(key));
  }

  // ---------------------------------------------------------------------------
  // Tag filter: `cities.filter(city => city.tags.includes(tag) && city.isActive === isActive)`

  /** The `isActive` query parameter converted to a boolean: only the exact text "true" is true. */
  function ActiveFlag(isActiveParam: Option<string>): bool {
    isActiveParam == Some("true")
  }

  predicate TagSelects(tag: Option<string>, isActiveParam: Option<string>, c: City) {
    tag.Some? && tag.value in c.tags && c.isActive == ActiveFlag(isActiveParam)
  }

  function TagSelector(tag: Option<string>, isActiveParam: Option<string>): City -> bool {
    c => TagSelects(tag, isActiveParam, c)
  }

  function TagMatches(cities: seq<City>, tag: Option<string>, isActiveParam: Option<string>): seq<City> {
    Filter(cities, TagSelector(tag, isActiveParam))
  }

  /**
   The tag query returns, in dataset order, exactly the cities carrying the tag whose
   activity flag equals the parameter's, each as often as it occurs in the dataset.
   */
  lemma TagMatchesExact(cities: seq<City>, tag: Option<string>, isActiveParam: Option<string>, c: City)
    ensures c in TagMatches(cities, tag, isActiveParam) <==>
      c in cities && tag.Some? && tag.value in c.tags && c.isActive == (isActiveParam == Some("true"))
    ensures multiset(TagMatches(cities, tag, isActiveParam))[c] ==
      if TagSelects(tag, isActiveParam, c) then multiset(cities)[c] else 0
    ensures IsSubsequence(TagMatches(cities, tag, isActiveParam), cities)
  {
    FilterMembership(cities, TagSelector(tag, isActiveParam), c);
    FilterCount(cities, TagSelector(tag, isActiveParam), c);
    FilterIsSubsequence(cities, TagSelector(tag, isActiveParam));
  }

  /** A request without a `tag` parameter matches no city. */
  lemma TagMatchesWithoutTag(cities: seq<City>, isActiveParam: Option<string>)
    ensures TagMatches(cities, None, isActiveParam) == []
  {
    FilterNoMatch(cities, TagSelector(None, isActiveParam));
  }

  // ---------------------------------------------------------------------------
  // Area filter: the non-origin cities within `maxDistance` of the origin

  /**
   Kept by the area filter: a city whose guid differs from the origin's and whose
   distance from the origin is at most `maxDistance`. A distance that failed to parse
   (`NaN`, modelled as `None`) compares false with everything.
   */
  predicate InArea(origin: City, maxDistance: Option<real>, dist: DistanceFn, c: City) {
    c.guid != origin.guid && maxDistance.Some? && Distance(dist, origin, c) <= maxDistance.value
  }

  function AreaSelector(origin: City, maxDistance: Option<real>, dist: DistanceFn): City -> bool {
    c => InArea(origin, maxDistance, dist, c)
  }

  function AreaMatches(cities: seq<City>, origin: City, maxDistance: Option<real>, dist: DistanceFn): seq<City> {
    Filter(cities, AreaSelector(origin, maxDistance, dist))
  }

  /**
   The area result is exactly the subsequence of the dataset of non-origin cities
   within range: membership both ways, multiplicity, and dataset order.
   */
  lemma AreaMatchesExact(cities: seq<City>, origin: City, maxDistance: Option<real>, dist: DistanceFn, c: City)
    ensures c in AreaMatches(cities, origin, maxDistance, dist) <==>
      c in cities && c.guid != origin.guid && maxDistance.Some? && Distance(dist, origin, c) <= maxDistance.value
    ensures multiset(AreaMatches(cities, origin, maxDistance, dist))[c] ==
      if InArea(origin, maxDistance, dist, c) then multiset(cities)[c] else 0
    ensures IsSubsequence(AreaMatches(cities, origin, maxDistance, dist), cities)
  {
    FilterMembership(cities, AreaSelector(origin, maxDistance, dist), c);
    FilterCount(cities, AreaSelector(origin, maxDistance, dist), c);
    FilterIsSubsequence(cities, AreaSelector(origin, maxDistance, dist));
  }

  /** The area result never contains the origin, nor any other city sharing its guid. */
  lemma AreaExcludesOrigin(cities: seq<City>, origin: City, maxDistance: Option<real>, dist: DistanceFn)
    ensures forall c :: c in AreaMatches(cities, origin, maxDistance, dist) ==> c.guid != origin.guid
  {
    forall c | c in AreaMatches(cities, origin, maxDistance, dist) ensures c.guid != origin.guid {
      FilterMembership(cities, AreaSelector(origin, maxDistance, dist), c);
    }
  }

  /** A distance parameter that does not parse yields an empty result, not an error. */
  lemma AreaUnparsedDistanceEmpty(cities: seq<City>, origin: City, dist: DistanceFn)
    ensures AreaMatches(cities, origin, None, dist) == []
  {
    FilterNoMatch(cities, AreaSelector(origin, None, dist));
  }
}
