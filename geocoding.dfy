/**
 * The result choice of `geocode_address` and the check its caller makes
 * before building a feature row. The HTTP request, its status check and
 * the JSON decoding are not modelled; what they yield is the Response
 * given to GeocodeAddress.
 */
module Geocoding {
  import opened Wrappers

  /**
   * A member of a decoded result entry: absent (so indexing it raises
   * KeyError), JSON null (Python None), or a number of degrees.
   */
  datatype Member = Absent | Null | Degrees(degrees: real)

  /** One entry of the service's `data` list. */
  datatype Place = Place(latitude: Member, longitude: Member)

  /**
   * What the request yields: an exception raised on the way (timeout,
   * connection error, an HTTP error status, a body that is not JSON), or
   * the decoded body, whose `data` member may be missing.
   */
  datatype Response = Raised | Decoded(data: Option<seq<Place>>)

  /** The pair `(lat, lon)` the function returns, each None or a number. */
  datatype Coordinates = Coordinates(lat: Option<real>, lon: Option<real>)

  /** The `(None, None)` every failure returns. */
  const Unresolved: Coordinates := Coordinates(None, None)

  /** Python's view of a member that is present. */
  function MemberValue(m: Member): Option<real>
    requires !m.Absent?
  {
    if m.Null? then None else Some(m.degrees)
  }

  /**
   * The first entry of a decoded body with a non-empty `data` list, or
   * None when there is no such entry.
   */
  function FirstPlace(r: Response): (p: Option<Place>)
    ensures p.Some? <==> r.Decoded? && r.data.Some? && |r.data.value| > 0
    ensures p.Some? ==> p.value == r.data.value[0]
  {
    if r.Decoded? && r.data.Some? && |r.data.value| > 0 then Some(r.data.value[0]) else None
  }

  /**
   * `geocode_address`: the first entry's latitude and longitude when the
   * body has a non-empty `data` list, and `(None, None)` when it has none,
   * when the request raised, or when indexing the first entry raised.
   */
  function GeocodeAddress(r: Response): (c: Coordinates)
    ensures FirstPlace(r).None? ==> c == Unresolved
    ensures FirstPlace(r).Some? ==>
      var p := FirstPlace(r).value;
      if p.latitude.Absent? || p.longitude.Absent? then c == Unresolved
      else c == Coordinates(MemberValue(p.latitude), MemberValue(p.longitude))
  {
    match r
    case Raised => Unresolved
    case Decoded(data) =>
      if data.Some? && |data.value| > 0 then
        var loc := data.value[0];
        if loc.latitude.Absent? || loc.longitude.Absent? then Unresolved
        else Coordinates(MemberValue(loc.latitude), MemberValue(loc.longitude))
      else
        Unresolved
  }

  /** The caller goes on only when neither coordinate is None. */
  predicate Resolved(c: Coordinates) {
    c.lat.Some? && c.lon.Some?
  }

  /**
   * The request goes on exactly when the body lists a first entry whose
   * latitude and longitude are both numbers, and it then uses those two
   * numbers.
   */
  lemma ResolvedExactly(r: Response)
    ensures Resolved(GeocodeAddress(r)) <==>
      FirstPlace(r).Some? && FirstPlace(r).value.latitude.Degrees? && FirstPlace(r).value.longitude.Degrees?
    ensures Resolved(GeocodeAddress(r)) ==>
      GeocodeAddress(r).lat.value == FirstPlace(r).value.latitude.degrees &&
      GeocodeAddress(r).lon.value == FirstPlace(r).value.longitude.degrees
  {
  }

  /**
   * The caller cannot tell failures apart: a raised request, a missing
   * `data` member and an empty list all give the same `(None, None)`.
   */
  lemma FailuresAlike()
    ensures GeocodeAddress(Raised) == GeocodeAddress(Decoded(None)) == GeocodeAddress(Decoded(Some([])))
    ensures !Resolved(GeocodeAddress(Raised))
  {
  }

  /** Entries after the first are never looked at. */
  lemma OnlyFirstEntry(first: Place, rest1: seq<Place>, rest2: seq<Place>)
    ensures GeocodeAddress(Decoded(Some([first] + rest1))) == GeocodeAddress(Decoded(Some([first] + rest2)))
  {
  }
}
