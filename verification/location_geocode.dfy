/**
 * The geocoding hook (src/hooks/useLocationGeocode.ts): a busy flag and an
 * error message around one lookup of an address. How the lookup ends is a
 * parameter: it resolves to geocodeAddress's result or it rejects.
 */
module LocationGeocode {
  import opened Wrappers
  import opened Text
  import opened Geocoding

  datatype Coordinates = Coordinates(lat: real, lng: real)

  /** How the awaited geocodeAddress call ends. */
  datatype LookupOutcome = Resolved(result: Option<GeocodeResult>) | Rejected

  const NOT_FOUND_MESSAGE: string := "Could not find coordinates for this address"
  const FAILED_MESSAGE: string := "Geocoding failed"

  class Geocoder {
    var geocoding: bool
    var geocodeError: Option<string>

    constructor()
      ensures !geocoding && geocodeError == None
    {
      geocoding, geocodeError := false, None;
    }

    /**
     * geocode: a blank address returns null and touches nothing; otherwise the
     * error is cleared and the busy flag raised, the lookup runs, and the
     * coordinates come back, or the not-found or failure message is set.
     * Either way the busy flag ends false.
     */
    method Geocode(address: string, outcome: LookupOutcome) returns (r: Option<Coordinates>)
      modifies this
      ensures AllSpace(address) ==> r.None? && geocoding == old(geocoding) && geocodeError == old(geocodeError)
      ensures !AllSpace(address) ==> !geocoding
      ensures !AllSpace(address) ==>
        (match outcome
         case Resolved(Some(g)) => r == Some(Coordinates(g.lat, g.lng)) && geocodeError == None
         case Resolved(None) => r == None && geocodeError == Some(NOT_FOUND_MESSAGE)
         case Rejected => r == None && geocodeError == Some(FAILED_MESSAGE))
    {
      if AllSpace(address) {
        return None;
      }
      geocodeError := None;
      geocoding := true;
      match outcome {
        case Resolved(result) =>
          if result.Some? {
            r := Some(Coordinates(result.value.lat, result.value.lng));
          } else {
            geocodeError := Some(NOT_FOUND_MESSAGE);
            r := None;
          }
        case Rejected =>
          geocodeError := Some(FAILED_MESSAGE);
          r := None;
      }
      geocoding := false;
    }

    /** clearError: forget the message. */
    method ClearError()
      modifies this
      ensures geocodeError == None && geocoding == old(geocoding)
    {
      geocodeError := None;
    }
  }

  /** Without a configured key, a non-blank address always ends with the not-found message. */
  method NoKeyNeverFinds(address: string, fetch: GeocodeRequest -> FetchOutcome)
    returns (r: Option<Coordinates>, error: Option<string>)
    requires !AllSpace(address)
    ensures r.None? && error == Some(NOT_FOUND_MESSAGE)
  {
    var g := new Geocoder();
    r := g.Geocode(address, Resolved(GeocodeAddress(None, address, fetch)));
    error := g.geocodeError;
  }
}
