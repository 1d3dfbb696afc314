/**
 * Address to coordinates through the hosted geocoding service
 * (src/lib/geocoding.ts). The request is a parameter: `fetch(req)` is what
 * the service answers for it, or that the request or the JSON decoding failed.
 */
module Geocoding {
  import opened Wrappers
  import opened Text

  /** `results[i].geometry?.location`; a missing coordinate is None. */
  datatype LatLng = LatLng(lat: Option<real>, lng: Option<real>)

  /** One candidate; `location` is None when `geometry` or its `location` is missing. */
  datatype Candidate = Candidate(location: Option<LatLng>, formatted_address: Option<string>)

  /** The decoded JSON body. */
  datatype GeocodeResponse = GeocodeResponse(status: Option<string>, results: Option<seq<Candidate>>)

  datatype FetchOutcome = Responded(body: GeocodeResponse) | FetchFailed

  /** The query the URL carries: the trimmed address and the key (URL encoding is not modelled). */
  datatype GeocodeRequest = GeocodeRequest(address: string, key: string)

  datatype GeocodeResult = GeocodeResult(lat: real, lng: real, formatted_address: Option<string>)

  /** A JavaScript number in a condition: false for a missing value and for zero. */
  predicate Truthy(x: Option<real>) {
    x.Some? && x.value != 0.0
  }

  /** The key is configured and non-empty, and the address is not blank. */
  predicate WillRequest(apiKey: Option<string>, address: string) {
    apiKey.Some? && apiKey.value != "" && !AllSpace(address)
  }

  /** The first candidate of a successful answer, if there is one. */
  function FirstCandidate(body: GeocodeResponse): (c: Option<Candidate>)
    ensures c.Some? <==> body.status == Some("OK") && body.results.Some? && body.results.value != []
    ensures c.Some? ==> c.value == body.results.value[0]
  {
    if body.status == Some("OK") && body.results.Some? && body.results.value != [] then
      Some(body.results.value[0])
    else None
  }

  /**
   * geocodeAddress as written: no request without a key or for a blank
   * address; otherwise the first candidate's coordinates, rejected when
   * either of them is falsy.
   */
  function GeocodeAddress(apiKey: Option<string>, address: string, fetch: GeocodeRequest -> FetchOutcome)
    : (r: Option<GeocodeResult>)
    ensures !WillRequest(apiKey, address) ==> r.None?
    ensures r.Some? ==> exists body: GeocodeResponse, loc: LatLng ::
      && fetch(GeocodeRequest(Trim(address), apiKey.value)) == Responded(body)
      && FirstCandidate(body).Some? && FirstCandidate(body).value.location == Some(loc)
      && Truthy(loc.lat) && Truthy(loc.lng)
      && r.value == GeocodeResult(loc.lat.value, loc.lng.value, FirstCandidate(body).value.formatted_address)
  {
    if !WillRequest(apiKey, address) then None
    else
      match fetch(GeocodeRequest(Trim(address), apiKey.value))
      case FetchFailed => None
      case Responded(body) =>
        match FirstCandidate(body)
        case None => None
        case Some(c) =>
          if c.location.None? then None
          else
            var loc := c.location.value;
            if !Truthy(loc.lat) || !Truthy(loc.lng) then None
            else Some(GeocodeResult(loc.lat.value, loc.lng.value, c.formatted_address))
  }

  /**
   * geocodeAddress as intended: a coordinate is rejected only when it is
   * missing, so places on the equator or the prime meridian are found.
   */
  function GeocodeAddressIntended(apiKey: Option<string>, address: string, fetch: GeocodeRequest -> FetchOutcome)
    : (r: Option<GeocodeResult>)
    ensures !WillRequest(apiKey, address) ==> r.None?
    ensures r.Some? ==> fetch(GeocodeRequest(Trim(address), apiKey.value)).Responded?
  {
    if !WillRequest(apiKey, address) then None
    else
      match fetch(GeocodeRequest(Trim(address), apiKey.value))
      case FetchFailed => None
      case Responded(body) =>
        match FirstCandidate(body)
        case None => None
        case Some(c) =>
          if c.location.None? then None
          else
            var loc := c.location.value;
            if loc.lat.None? || loc.lng.None? then None
            else Some(GeocodeResult(loc.lat.value, loc.lng.value, c.formatted_address))
  }

  /**
   * The intended lookup finds coordinates exactly when the service answers OK
   * with a first candidate carrying both of them, and returns those.
   */
  lemma IntendedFindsEveryLocatedAnswer(apiKey: Option<string>, address: string,
                                        fetch: GeocodeRequest -> FetchOutcome, body: GeocodeResponse)
    requires WillRequest(apiKey, address)
    requires fetch(GeocodeRequest(Trim(address), apiKey.value)) == Responded(body)
    ensures GeocodeAddressIntended(apiKey, address, fetch).Some? <==>
      (&& FirstCandidate(body).Some?
       && FirstCandidate(body).value.location.Some?
       && FirstCandidate(body).value.location.value.lat.Some?
       && FirstCandidate(body).value.location.value.lng.Some?)
    ensures GeocodeAddressIntended(apiKey, address, fetch).Some? ==>
      (var c := FirstCandidate(body).value;
       GeocodeAddressIntended(apiKey, address, fetch).value
         == GeocodeResult(c.location.value.lat.value, c.location.value.lng.value, c.formatted_address))
  {
  }

  /**
   * As written, the lookup finds coordinates exactly when the service answers
   * OK with a first candidate whose coordinates are both present and non-zero,
   * and returns those.
   */
  lemma WrittenFindsEveryTruthyAnswer(apiKey: Option<string>, address: string,
                                      fetch: GeocodeRequest -> FetchOutcome, body: GeocodeResponse)
    requires WillRequest(apiKey, address)
    requires fetch(GeocodeRequest(Trim(address), apiKey.value)) == Responded(body)
    ensures GeocodeAddress(apiKey, address, fetch).Some? <==>
      (&& FirstCandidate(body).Some?
       && FirstCandidate(body).value.location.Some?
       && Truthy(FirstCandidate(body).value.location.value.lat)
       && Truthy(FirstCandidate(body).value.location.value.lng))
    ensures GeocodeAddress(apiKey, address, fetch).Some? ==>
      (var c := FirstCandidate(body).value;
       GeocodeAddress(apiKey, address, fetch).value
         == GeocodeResult(c.location.value.lat.value, c.location.value.lng.value, c.formatted_address))
  {
  }

  /** A failed request or an undecodable answer gives no coordinates, as written and as intended. */
  lemma FailedFetchFindsNothing(apiKey: Option<string>, address: string, fetch: GeocodeRequest -> FetchOutcome)
    requires apiKey.Some? && fetch(GeocodeRequest(Trim(address), apiKey.value)) == FetchFailed
    ensures GeocodeAddress(apiKey, address, fetch).None?
    ensures GeocodeAddressIntended(apiKey, address, fetch).None?
  {
  }

  /** The two versions agree on every answer whose coordinates are both non-zero. */
  lemma AgreeAwayFromZero(apiKey: Option<string>, address: string, fetch: GeocodeRequest -> FetchOutcome)
    requires forall req: GeocodeRequest, body: GeocodeResponse, c: Candidate, loc: LatLng ::
      fetch(req) == Responded(body) && FirstCandidate(body) == Some(c) && c.location == Some(loc) ==>
        loc.lat != Some(0.0) && loc.lng != Some(0.0)
    ensures GeocodeAddress(apiKey, address, fetch) == GeocodeAddressIntended(apiKey, address, fetch)
  {
    if WillRequest(apiKey, address) {
      var req := GeocodeRequest(Trim(address), apiKey.value);
      match fetch(req)
      case FetchFailed =>
      case Responded(body) =>
        match FirstCandidate(body)
        case None =>
        case Some(c) =>
          if c.location.Some? {
            var loc := c.location.value;
            assert loc.lat != Some(0.0) && loc.lng != Some(0.0);
          }
    }
  }

  /** A service that puts the address on the equator, at longitude 12.5. */
  function EquatorService(req: GeocodeRequest): FetchOutcome {
    Responded(GeocodeResponse(Some("OK"), Some([Candidate(Some(LatLng(Some(0.0), Some(12.5))), Some("Equator"))])))
  }

  /** As written, an address on the equator is reported as not found; as intended, it is found. */
  lemma EquatorRejected()
    ensures GeocodeAddress(Some("key"), "Equator", EquatorService) == None
    ensures GeocodeAddressIntended(Some("key"), "Equator", EquatorService) == Some(GeocodeResult(0.0, 12.5, Some("Equator")))
  {
    assert !AllSpace("Equator") by {
      assert !IsSpace("Equator"[0]);
    }
  }
}
