/**
 * The address resolver of the backend: turns a free-text address into a
 * coordinate by asking Google's geocoding API (only when an API key is
 * configured) and falling back to OpenStreetMap Nominatim.
 *
 * The network is not modelled. Each provider's HTTP reply is an input value:
 * what the provider would answer if it were asked. Every resolution also
 * reports the providers it actually sent a request to, in order, so that
 * short-circuiting and "no request for a blank address" can be stated.
 */
module Geocode {
  import opened Wrappers

  /** A coordinate in decimal degrees; latitude and longitude exist together by construction. */
  datatype Coord = Coord(lat: real, lng: real)

  datatype Provider = Google | Nominatim

  /** Why one provider adapter rejected. */
  datatype AdapterError =
    | KeyNotConfigured   // Google without an API key: rejected locally, no request
    | NotFound           // the provider answered, but with no usable result
    | RequestFailed      // transport error, a body that is not JSON, or a missing field

  // ---------------------------------------------------------------------------
  // Blank addresses: `!address || address.trim() === ''`
  // ---------------------------------------------------------------------------

  /** The characters JavaScript's String.prototype.trim removes: ECMAScript WhiteSpace and LineTerminator. */
  predicate IsWhitespace(c: char) {
    || c == '\t' || c == '\n' || c == '\U{000B}' || c == '\U{000C}' || c == '\r'
    || c == ' ' || c == '\U{00A0}' || c == '\U{1680}'
    || ('\U{2000}' <= c <= '\U{200A}')
    || c == '\U{2028}' || c == '\U{2029}' || c == '\U{202F}' || c == '\U{205F}'
    || c == '\U{3000}' || c == '\U{FEFF}'
  }

  predicate AllWhitespace(s: string) {
    forall i :: 0 <= i < |s| ==> IsWhitespace(s[i])
  }

  function TrimStart(s: string): (r: string)
    ensures |r| <= |s| && r == s[|s| - |r|..]
    ensures r != [] ==> !IsWhitespace(r[0])
  {
    if |s| > 0 && IsWhitespace(s[0]) then TrimStart(s[1..]) else s
  }

  function TrimEnd(s: string): (r: string)
    ensures |r| <= |s| && r == s[..|r|]
    ensures r != [] ==> !IsWhitespace(r[|r| - 1])
  {
    if |s| > 0 && IsWhitespace(s[|s| - 1]) then TrimEnd(s[..|s| - 1]) else s
  }

  /** String.prototype.trim. */
  function Trim(s: string): string {
    TrimEnd(TrimStart(s))
  }

  lemma {:induction false} TrimStartEmptyIffAllWhitespace(s: string)
    ensures TrimStart(s) == [] <==> AllWhitespace(s)
  {
    if |s| == 0 {
    } else if !IsWhitespace(s[0]) {
      assert TrimStart(s) == s;
    } else {
      var tail := s[1..];
      TrimStartEmptyIffAllWhitespace(tail);
      assert TrimStart(s) == TrimStart(tail);
      if AllWhitespace(tail) {
        forall i | 0 <= i < |s| ensures IsWhitespace(s[i]) {
          if i > 0 { assert s[i] == tail[i - 1]; }
        }
      } else {
        var j :| 0 <= j < |tail| && !IsWhitespace(tail[j]);
        assert s[j + 1] == tail[j];
      }
    }
  }

  /** trim() yields the empty string exactly when every character is whitespace. */
  lemma TrimEmptyIffAllWhitespace(s: string)
    ensures Trim(s) == [] <==> AllWhitespace(s)
  {
    TrimStartEmptyIffAllWhitespace(s);
    var t := TrimStart(s);
    if t != [] {
      assert !IsWhitespace(t[0]);
      assert TrimEnd(t) != [] by {
        var u := TrimEnd(t);
        if u == [] {
          TrimEndEmptyOnlyIfAllWhitespace(t);
        }
      }
    }
  }

  lemma {:induction false} TrimEndEmptyOnlyIfAllWhitespace(s: string)
    requires TrimEnd(s) == []
    ensures AllWhitespace(s)
  {
    if |s| > 0 {
      var p := s[..|s| - 1];
      TrimEndEmptyOnlyIfAllWhitespace(p);
      forall i | 0 <= i < |s| ensures IsWhitespace(s[i]) {
        if i < |s| - 1 { assert s[i] == p[i]; }
      }
    }
  }

  /** `!address || address.trim() === ''`: undefined/null, the empty string, or whitespace only. */
  predicate IsBlank(address: Option<string>) {
    address.None? || address.value == "" || Trim(address.value) == ""
  }

  lemma BlankIffMissingOrWhitespace(address: Option<string>)
    ensures IsBlank(address) <==> address.None? || AllWhitespace(address.value)
  {
    if address.Some? {
      TrimEmptyIffAllWhitespace(address.value);
    }
  }

  /** `process.env.GOOGLE_MAPS_API_KEY` is truthy: set and non-empty. */
  predicate KeyConfigured(apiKey: Option<string>) {
    apiKey.Some? && apiKey.value != ""
  }

  // ---------------------------------------------------------------------------
  // Provider adapters
  // ---------------------------------------------------------------------------

  /** One entry of Google's `results`, reduced to `geometry.location`. */
  datatype GoogleResult = GoogleResult(location: Coord)

  /**
   * What Google's endpoint answers: a transport error, a body JSON.parse rejects,
   * or an envelope with a `status` and a `results` field (None when the field is absent).
   */
  datatype GoogleReply =
    | GoogleUnreachable
    | GoogleMalformed
    | GoogleEnvelope(status: string, results: Option<seq<GoogleResult>>)

  /** One entry of Nominatim's array; `lat` and `lon` as numbers once parsed. */
  datatype NominatimPlace = NominatimPlace(lat: real, lon: real)

  /**
   * What Nominatim's endpoint answers: a transport error, a body JSON.parse rejects,
   * or parsed JSON (Some(array), or None for null or a value without a length).
   */
  datatype NominatimReply =
    | NominatimUnreachable
    | NominatimMalformed
    | NominatimJson(places: Option<seq<NominatimPlace>>)

  /** geocodeWithGoogle: no key fails locally; otherwise success needs status 'OK' and a non-empty results list. */
  function GoogleGeocode(apiKey: Option<string>, reply: GoogleReply): (r: Result<Coord, AdapterError>)
    ensures !KeyConfigured(apiKey) ==> r == Failure(KeyNotConfigured)
    ensures r.Success? <==>
      KeyConfigured(apiKey) && reply.GoogleEnvelope? && reply.status == "OK"
      && reply.results.Some? && |reply.results.value| > 0
    ensures r.Success? ==> r.value == reply.results.value[0].location
  {
    if !KeyConfigured(apiKey) then Failure(KeyNotConfigured)
    else match reply
      case GoogleUnreachable => Failure(RequestFailed)
      case GoogleMalformed => Failure(RequestFailed)
      case GoogleEnvelope(status, results) =>
        if status != "OK" then Failure(NotFound)
        // `result.results.length` on a missing field throws inside the try
        else if results.None? then Failure(RequestFailed)
        else if |results.value| > 0 then Success(results.value[0].location)
        else Failure(NotFound)
  }

  /** geocodeWithNominatim: success needs a non-empty array; `lon` becomes `lng`. */
  function NominatimGeocode(reply: NominatimReply): (r: Result<Coord, AdapterError>)
    ensures r.Success? <==> reply.NominatimJson? && reply.places.Some? && |reply.places.value| > 0
    ensures r.Success? ==>
      r.value.lat == reply.places.value[0].lat && r.value.lng == reply.places.value[0].lon
  {
    match reply
    case NominatimUnreachable => Failure(RequestFailed)
    case NominatimMalformed => Failure(RequestFailed)
    case NominatimJson(places) =>
      if places.Some? && |places.value| > 0 then
        var first := places.value[0];
        Success(Coord(first.lat, first.lon))
      else Failure(NotFound)
  }

  function ToOption(r: Result<Coord, AdapterError>): Option<Coord> {
    if r.Success? then Some(r.value) else None
  }

  /** What asking provider `p` yields, as seen by the resolver (a rejection is absorbed into None). */
  function Outcome(p: Provider, apiKey: Option<string>, google: GoogleReply, nominatim: NominatimReply): Option<Coord> {
    match p
    case Google => ToOption(GoogleGeocode(apiKey, google))
    case Nominatim => ToOption(NominatimGeocode(nominatim))
  }

  // ---------------------------------------------------------------------------
  // The resolver
  // ---------------------------------------------------------------------------

  /** A resolution: the coordinate or null, and the providers a request was sent to, in order. */
  datatype Resolution = Resolution(coord: Option<Coord>, attempts: seq<Provider>)

  /**
   * geocodeAddress. A blank address returns null at once; Google is tried only
   * with a configured key; a Google success is returned; otherwise Nominatim is
   * asked once; when everything fails the result is null.
   */
  function GeocodeAddress(address: Option<string>, apiKey: Option<string>,
                          google: GoogleReply, nominatim: NominatimReply): (r: Resolution)
    // a blank address: null, and no provider is asked
    ensures IsBlank(address) ==> r == Resolution(None, [])
    // each provider at most once, Google before Nominatim
    ensures r.attempts in {[], [Google], [Nominatim], [Google, Nominatim]}
    // Google is asked iff the address is not blank and the key is configured
    ensures Google in r.attempts <==> !IsBlank(address) && KeyConfigured(apiKey)
    // Nominatim is asked iff the address is not blank and Google did not succeed
    ensures Nominatim in r.attempts <==>
      !IsBlank(address) && Outcome(Google, apiKey, google, nominatim).None?
    // a Google success short-circuits
    ensures !IsBlank(address) && Outcome(Google, apiKey, google, nominatim).Some? ==>
      r.coord == Outcome(Google, apiKey, google, nominatim) && r.attempts == [Google]
    // a returned coordinate is what the last provider asked answered
    ensures r.coord.Some? ==>
      (|r.attempts| > 0 && r.coord == Outcome(r.attempts[|r.attempts| - 1], apiKey, google, nominatim))
    // null exactly when the address is blank or every provider asked failed
    ensures r.coord.None? <==>
      IsBlank(address) || forall p :: p in r.attempts ==> Outcome(p, apiKey, google, nominatim).None?
  {
    if IsBlank(address) then Resolution(None, [])
    else
      var viaGoogle := GoogleGeocode(apiKey, google);
      if KeyConfigured(apiKey) && viaGoogle.Success? then Resolution(Some(viaGoogle.value), [Google])
      else
        var viaNominatim := ToOption(NominatimGeocode(nominatim));
        if KeyConfigured(apiKey) then Resolution(viaNominatim, [Google, Nominatim])
        else Resolution(viaNominatim, [Nominatim])
  }

  /** Why geocodeAddressRequired throws. */
  datatype RequiredError = AddressRequired | UnableToGeocode

  datatype RequiredResolution = RequiredResolution(result: Result<Coord, RequiredError>, attempts: seq<Provider>)

  /**
   * geocodeAddressRequired: a blank address throws before any lookup, a null
   * resolution throws, and otherwise the resolver's coordinate is returned.
   */
  function GeocodeAddressRequired(address: Option<string>, apiKey: Option<string>,
                                  google: GoogleReply, nominatim: NominatimReply): (r: RequiredResolution)
    ensures IsBlank(address) ==> r.result == Failure(AddressRequired) && r.attempts == []
    ensures !IsBlank(address) ==> r.attempts == GeocodeAddress(address, apiKey, google, nominatim).attempts
    ensures !IsBlank(address) ==>
      match GeocodeAddress(address, apiKey, google, nominatim).coord
      case None => r.result == Failure(UnableToGeocode)
      case Some(c) => r.result == Success(c)
    ensures r.result == Failure(UnableToGeocode) <==>
      !IsBlank(address) && forall p :: p in r.attempts ==> Outcome(p, apiKey, google, nominatim).None?
  {
    if IsBlank(address) then RequiredResolution(Failure(AddressRequired), [])
    else
      var resolved := GeocodeAddress(address, apiKey, google, nominatim);
      match resolved.coord
      case None => RequiredResolution(Failure(UnableToGeocode), resolved.attempts)
      case Some(c) => RequiredResolution(Success(c), resolved.attempts)
  }

  // ---------------------------------------------------------------------------
  // Reference definition: a fallback chain tried in order until one succeeds
  // ---------------------------------------------------------------------------

  /** The providers in priority order: Google only when its key is configured, Nominatim always last. */
  function Chain(apiKey: Option<string>): seq<Provider> {
    if KeyConfigured(apiKey) then [Google, Nominatim] else [Nominatim]
  }

  /**
   * Try the providers of `chain` one after another and stop at the first
   * success. The attempts are a prefix of the chain; every attempt but the last
   * failed; a success is the last attempt's answer; failure means the whole
   * chain was tried and failed.
   */
  function RunChain(chain: seq<Provider>, outcome: Provider -> Option<Coord>): (r: Resolution)
    ensures |r.attempts| <= |chain| && r.attempts == chain[..|r.attempts|]
    ensures forall i :: 0 <= i < |r.attempts| - 1 ==> outcome(r.attempts[i]).None?
    ensures r.coord.Some? ==> |r.attempts| > 0 && r.coord == outcome(r.attempts[|r.attempts| - 1])
    ensures r.coord.None? ==> r.attempts == chain && forall p :: p in chain ==> outcome(p).None?
  {
    if chain == [] then Resolution(None, [])
    else match outcome(chain[0])
      case Some(c) => Resolution(Some(c), [chain[0]])
      case None =>
        var rest := RunChain(chain[1..], outcome);
        Resolution(rest.coord, [chain[0]] + rest.attempts)
  }

  /** geocodeAddress on a non-blank address is exactly the fallback chain run over the configured providers. */
  lemma GeocodeAddressIsChain(address: Option<string>, apiKey: Option<string>,
                              google: GoogleReply, nominatim: NominatimReply)
    requires !IsBlank(address)
    ensures GeocodeAddress(address, apiKey, google, nominatim)
         == RunChain(Chain(apiKey), p => Outcome(p, apiKey, google, nominatim))
  {
  }

  /** Without a Google key, Nominatim's first entry becomes the coordinate, `lon` read as `lng`. */
  lemma NominatimFieldMapping(address: Option<string>, google: GoogleReply, lat: real, lon: real,
                              rest: seq<NominatimPlace>)
    requires !IsBlank(address)
    ensures GeocodeAddress(address, None, google, NominatimJson(Some([NominatimPlace(lat, lon)] + rest)))
         == Resolution(Some(Coord(lat, lon)), [Nominatim])
  {
  }
}
