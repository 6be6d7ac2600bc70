/**
 * `useCityFromUrl`: the `lat` and `lng` query parameters, parsed as numbers,
 * select the first city whose stored position is `===` to both. `parseFloat`
 * is a parameter of the model.
 */
module CityFromUrl {
  import opened Wrappers
  import opened JsNumber
  import opened Cities
  import opened SearchParams
  import JsArray

  predicate AtPosition(city: City, lat: Number, lng: Number) {
    StrictEquals(city.position.lat, lat) && StrictEquals(city.position.lng, lng)
  }

  /** The predicate `city.position.lat === lat && city.position.lng === lng`. */
  function PositionIs(lat: Number, lng: Number): City -> bool {
    (city: City) => AtPosition(city, lat, lng)
  }

  /** `findCityByLatAndLng(cities, lat, lng)` */
  function FindCityByLatAndLng(cities: seq<City>, lat: Number, lng: Number): (r: Option<City>)
    ensures r.Some? ==> r.value in cities && AtPosition(r.value, lat, lng)
    ensures r.None? <==> forall i :: 0 <= i < |cities| ==> !AtPosition(cities[i], lat, lng)
  {
    JsArray.Find(cities, PositionIs(lat, lng))
  }

  /** The match is the lowest-index city at that position. */
  lemma FindCityFirstMatch(cities: seq<City>, lat: Number, lng: Number, k: nat)
    requires k < |cities| && AtPosition(cities[k], lat, lng)
    requires forall j :: 0 <= j < k ==> !AtPosition(cities[j], lat, lng)
    ensures FindCityByLatAndLng(cities, lat, lng) == Some(cities[k])
  {
    JsArray.FindFirst(cities, PositionIs(lat, lng), k);
  }

  /** A NaN coordinate matches no city. */
  lemma FindCityNaN(cities: seq<City>, other: Number)
    ensures FindCityByLatAndLng(cities, NaN, other) == None
    ensures FindCityByLatAndLng(cities, other, NaN) == None
  {
  }

  /** `lat = latString ? parseFloat(latString) : null` */
  function ParseParam(param: Option<string>, parseFloat: string -> Number): (r: Option<Number>)
    ensures r.Some? <==> Truthy(param)
    ensures r.Some? ==> r.value == parseFloat(param.value)
  {
    if Truthy(param) then Some(parseFloat(param.value)) else None
  }

  /** `useCityFromUrl(cities)` for the query of the current location. */
  function UseCityFromUrl(cities: seq<City>, query: Query, parseFloat: string -> Number): (r: Option<City>)
    ensures r.Some? ==> r.value in cities
  {
    var lat := ParseParam(Get(query, "lat"), parseFloat);
    var lng := ParseParam(Get(query, "lng"), parseFloat);
    if lat.Some? && lng.Some? then FindCityByLatAndLng(cities, lat.value, lng.value) else None
  }

  /** A missing or empty `lat` or `lng` gives no city. */
  lemma UseCityFromUrlNeedsBoth(cities: seq<City>, query: Query, parseFloat: string -> Number)
    requires !Truthy(Get(query, "lat")) || !Truthy(Get(query, "lng"))
    ensures UseCityFromUrl(cities, query, parseFloat) == None
  {
  }

  /** With both parameters present and non-empty, the lookup is on their parsed values. */
  lemma UseCityFromUrlLooksUp(cities: seq<City>, query: Query, parseFloat: string -> Number)
    requires Truthy(Get(query, "lat")) && Truthy(Get(query, "lng"))
    ensures UseCityFromUrl(cities, query, parseFloat)
      == FindCityByLatAndLng(cities, parseFloat(Get(query, "lat").value), parseFloat(Get(query, "lng").value))
  {
  }

  /** A parameter that does not parse gives no city. */
  lemma UseCityFromUrlNaN(cities: seq<City>, query: Query, parseFloat: string -> Number)
    requires (Get(query, "lat").Some? && parseFloat(Get(query, "lat").value).NaN?)
          || (Get(query, "lng").Some? && parseFloat(Get(query, "lng").value).NaN?)
    ensures UseCityFromUrl(cities, query, parseFloat) == None
  {
  }

  /** A returned city sits exactly at the parsed position. */
  lemma UseCityFromUrlMatches(cities: seq<City>, query: Query, parseFloat: string -> Number)
    requires UseCityFromUrl(cities, query, parseFloat).Some?
    ensures Truthy(Get(query, "lat")) && Truthy(Get(query, "lng"))
    ensures AtPosition(UseCityFromUrl(cities, query, parseFloat).value,
      parseFloat(Get(query, "lat").value), parseFloat(Get(query, "lng").value))
  {
  }
}
