/**
 * `useUrlPosition`: the `lat` and `lng` query parameters as a coordinate pair,
 * or nothing when either is missing, is not a number, or is out of range.
 * `parseFloat` is a parameter of the model.
 */
module UrlPosition {
  import opened Wrappers
  import opened JsNumber
  import opened SearchParams

  predicate LatInRange(lat: Number) { lat.Finite? && -90.0 <= lat.value <= 90.0 }
  predicate LngInRange(lng: Number) { lng.Finite? && -180.0 <= lng.value <= 180.0 }

  /** The guard chain of `useUrlPosition` on the two parameter strings. */
  function Validate(latString: Option<string>, lngString: Option<string>, parseFloat: string -> Number)
    : (r: Option<(Number, Number)>)
    ensures r.Some? <==>
      && Truthy(latString) && Truthy(lngString)
      && LatInRange(parseFloat(latString.value)) && LngInRange(parseFloat(lngString.value))
    ensures r.Some? ==> r.value == (parseFloat(latString.value), parseFloat(lngString.value))
  {
    if !Truthy(latString) || !Truthy(lngString) then None
    else
      var lat := parseFloat(latString.value);
      var lng := parseFloat(lngString.value);
      if lat.NaN? || lng.NaN? then None
      else if LessThan(lat, -90.0) || GreaterThan(lat, 90.0) || LessThan(lng, -180.0) || GreaterThan(lng, 180.0) then None
      else Some((lat, lng))
  }

  /** `useUrlPosition()` for the query of the current location. */
  function UseUrlPosition(query: Query, parseFloat: string -> Number): (r: Option<(Number, Number)>)
    ensures r.Some? ==> LatInRange(r.value.0) && LngInRange(r.value.1)
  {
    Validate(Get(query, "lat"), Get(query, "lng"), parseFloat)
  }

  /** A missing or empty parameter gives nothing. */
  lemma MissingParamRejected(latString: Option<string>, lngString: Option<string>, parseFloat: string -> Number)
    requires !Truthy(latString) || !Truthy(lngString)
    ensures Validate(latString, lngString, parseFloat) == None
  {
  }

  /** A value that parses to NaN gives nothing. */
  lemma NaNRejected(latString: string, lngString: string, parseFloat: string -> Number)
    requires parseFloat(latString).NaN? || parseFloat(lngString).NaN?
    ensures Validate(Some(latString), Some(lngString), parseFloat) == None
  {
  }

  /** A latitude outside [-90, 90] or a longitude outside [-180, 180] gives nothing. */
  lemma OutOfRangeRejected(latString: string, lngString: string, parseFloat: string -> Number)
    requires var lat, lng := parseFloat(latString), parseFloat(lngString);
      LessThan(lat, -90.0) || GreaterThan(lat, 90.0) || LessThan(lng, -180.0) || GreaterThan(lng, 180.0)
    ensures Validate(Some(latString), Some(lngString), parseFloat) == None
  {
  }

  /** The bounds themselves are accepted, and the pair is the parsed values, latitude first. */
  lemma BoundsAccepted(latString: string, lngString: string, parseFloat: string -> Number, lat: real, lng: real)
    requires latString != "" && lngString != ""
    requires lat in {-90.0, 90.0} && lng in {-180.0, 180.0}
    requires parseFloat(latString) == Finite(lat) && parseFloat(lngString) == Finite(lng)
    ensures Validate(Some(latString), Some(lngString), parseFloat) == Some((Finite(lat), Finite(lng)))
  {
  }
}
