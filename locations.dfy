/**
 * Locations: the selected place, the guard that decides whether a place can
 * be fetched, the reverse-geocoding name chain of `getLocationName`, and the
 * search candidates the forward geocoder returns.
 */
module Locations {
  import opened JsValues

  /** The `location` state: coordinates and the name shown for them. */
  datatype Location = Location(lat: real, lon: real, name: string)

  /** The place the dashboard starts with. */
  const DefaultLocation := Location(51.5074, -0.1278, "London")

  /**
   * `location.lat && location.lon`: a coordinate of 0 is falsy, so a place on
   * the equator or on the prime meridian never triggers a fetch.
   */
  predicate ShouldFetch(loc: Location) {
    loc.lat != 0.0 && loc.lon != 0.0
  }

  // ---------------------------------------------------------------------------
  // Reverse geocoding
  // ---------------------------------------------------------------------------

  /** One reverse-geocoding candidate; any of its names may be missing. */
  datatype ReverseCandidate = ReverseCandidate(name: Option<string>, city: Option<string>, admin1: Option<string>)

  /**
   * The reverse-geocoding call: it throws (network failure, unreadable body)
   * or gives a body whose `results` key may be missing.
   */
  datatype ReverseResponse = ReverseFailed | ReverseBody(results: Option<seq<ReverseCandidate>>)

  const UnknownLocation := "Unknown Location"

  /** The index of the first truthy string in `xs`, or `|xs|` when none is. */
  function FirstTruthy(xs: seq<Option<string>>): (k: nat)
    ensures k <= |xs|
    ensures k < |xs| ==> Truthy(xs[k])
    ensures forall j :: 0 <= j < k ==> !Truthy(xs[j])
    decreases |xs|
  {
    if |xs| == 0 then 0
    else if Truthy(xs[0]) then 0
    else 1 + FirstTruthy(xs[1..])
  }

  /** `a || b || ... || fallback` over optional strings. */
  function OrChain(xs: seq<Option<string>>, fallback: string): string {
    var k := FirstTruthy(xs);
    if k < |xs| then xs[k].value else fallback
  }

  /** The chain over three values, unrolled: the first truthy one wins. */
  lemma OrChainOfThree(a: Option<string>, b: Option<string>, c: Option<string>, fallback: string)
    ensures OrChain([a, b, c], fallback) ==
              if Truthy(a) then a.value
              else if Truthy(b) then b.value
              else if Truthy(c) then c.value
              else fallback
  {
    var xs := [a, b, c];
    assert xs[0] == a && xs[1] == b && xs[2] == c;
  }

  /** Whether the body holds a first candidate to read. */
  predicate HasCandidate(response: ReverseResponse) {
    response.ReverseBody? && response.results.Some? && |response.results.value| > 0
  }

  /**
   * `getLocationName`: the first candidate's name, else its city, else its
   * region (empty strings count as missing), else "Unknown Location"; every
   * failure and an empty result list also give "Unknown Location". The name
   * is never empty.
   */
  function LocationName(response: ReverseResponse): (name: string)
    ensures name != ""
    ensures !HasCandidate(response) ==> name == UnknownLocation
    ensures HasCandidate(response) ==>
              var c := response.results.value[0];
              && (Truthy(c.name) ==> name == c.name.value)
              && (!Truthy(c.name) && Truthy(c.city) ==> name == c.city.value)
              && (!Truthy(c.name) && !Truthy(c.city) && Truthy(c.admin1) ==> name == c.admin1.value)
              && (!Truthy(c.name) && !Truthy(c.city) && !Truthy(c.admin1) ==> name == UnknownLocation)
  {
    if HasCandidate(response) then
      var result := response.results.value[0];
      OrChainOfThree(result.name, result.city, result.admin1, UnknownLocation);
      OrChain([result.name, result.city, result.admin1], UnknownLocation)
    else
      UnknownLocation
  }

  // ---------------------------------------------------------------------------
  // Forward geocoding
  // ---------------------------------------------------------------------------

  /** One forward-geocoding candidate as the search list shows it. */
  datatype Place = Place(name: string, latitude: real, longitude: real, admin1: Option<string>, country: Option<string>)

  /**
   * The search call: it throws (network failure, unreadable body) or gives a
   * body whose `results` key may be missing.
   */
  datatype SearchResponse = SearchFailed | SearchBody(results: Option<seq<Place>>)

  /** Queries shorter than this are not sent. */
  const MinQueryLength: nat := 2
}
