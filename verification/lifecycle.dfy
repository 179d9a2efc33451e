/** The application's handlers: endpoint selection with fare recomputation,
    the three user-triggered guards, ride creation with its two outcomes, the
    completion guard and "Book Another Ride". Replies of the external
    services and the random draws are explicit inputs. */
module Lifecycle {
  import opened Optional
  import opened TripStore
  import opened Fare
  import CompletionLatch

  /** The application's own state beside the shared store: the last search
      results, the fare quote, the created ride's id and the completion guard. */
  datatype Session = Session(
    trip: TripState,
    pickupResult: Option<Location>,
    dropoffResult: Option<Location>,
    quote: Quote,
    rideId: Option<string>,
    statusSent: bool)

  const Start: Session := Session(Initial, None, None, NoQuote, None, false)

  /** The search results and the store's endpoints always agree. */
  predicate Synced(s: Session) {
    s.pickupResult == s.trip.pickupLocation && s.dropoffResult == s.trip.dropoffLocation
  }

  /** Both endpoints have been chosen. */
  predicate HasEndpoints(s: Session) {
    s.pickupResult.Some? && s.dropoffResult.Some?
  }

  /** The first feature of a search reply: coordinates, an optional full
      address and a name. */
  datatype SearchHit = SearchHit(latitude: real, longitude: real, fullAddress: Option<string>, name: string)

  /** The address shown for a hit: the full address when non-empty, else the name. */
  function HitLocation(hit: SearchHit): (loc: Location)
    ensures loc.latitude == hit.latitude && loc.longitude == hit.longitude
    ensures loc.address.Some?
    ensures hit.fullAddress.Some? && hit.fullAddress.value != "" ==> loc.address == hit.fullAddress
    ensures (hit.fullAddress.None? || hit.fullAddress.value == "") ==> loc.address == Some(hit.name)
  {
    var address := if hit.fullAddress.Some? && hit.fullAddress.value != "" then hit.fullAddress.value else hit.name;
    Location(hit.latitude, hit.longitude, Some(address))
  }

  function CoordOf(loc: Location): Coord {
    Coord(loc.latitude, loc.longitude)
  }

  /** A handler's new session and the price requests it issued. */
  datatype Handled = Handled(session: Session, priceRequests: seq<PriceRequest>)

  /** The device position becomes the default pickup. `geocode` is the
      reverse-geocoding reply: absent when the request fails or the reply has
      no feature list, in which case the callback throws before storing
      anything; otherwise the first feature's place name, if any. The address
      is that name, "Current Location" when it is missing or empty. No fare is
      computed. */
  function UseCurrentPosition(s: Session, latitude: real, longitude: real, geocode: Option<Option<string>>): (r: Session)
    ensures geocode.None? ==> r == s
    ensures geocode.Some? ==>
      && r.pickupResult.Some? && r.pickupResult.value.latitude == latitude && r.pickupResult.value.longitude == longitude
      && r.pickupResult.value.address ==
           (if geocode.value.Some? && geocode.value.value != "" then geocode.value else Some("Current Location"))
      && r.trip == Reduce(s.trip, SetPickupLocation(r.pickupResult.value))
    ensures r.dropoffResult == s.dropoffResult && r.quote == s.quote
    ensures r.rideId == s.rideId && r.statusSent == s.statusSent
    ensures Synced(s) ==> Synced(r)
  {
    match geocode
    case None => s
    case Some(placeName) =>
      var address := if placeName.Some? && placeName.value != "" then placeName.value else "Current Location";
      var loc := Location(latitude, longitude, Some(address));
      s.(trip := Reduce(s.trip, SetPickupLocation(loc)), pickupResult := Some(loc))
  }

  /** Choosing a pickup. An empty search reply changes nothing. Otherwise the
      pickup is recorded, and the fare is recomputed only when a dropoff is
      already chosen. */
  function ChoosePickup(s: Session, hit: Option<SearchHit>, replies: FareReplies): (r: Handled)
    ensures hit.None? ==> r == Handled(s, [])
    ensures hit.Some? ==>
      && r.session.pickupResult == Some(HitLocation(hit.value))
      && r.session.trip == Reduce(s.trip, SetPickupLocation(HitLocation(hit.value)))
      && r.session.dropoffResult == s.dropoffResult
      && r.session.rideId == s.rideId && r.session.statusSent == s.statusSent
    ensures s.dropoffResult.None? ==> r.session.quote == s.quote && r.priceRequests == []
    ensures hit.Some? && s.dropoffResult.Some? ==>
      && r.session.quote == Recompute(s.quote, replies)
      && r.priceRequests == QuoteRequests(CoordOf(HitLocation(hit.value)), CoordOf(s.dropoffResult.value), replies)
    ensures Synced(s) ==> Synced(r.session)
  {
    match hit
    case None => Handled(s, [])
    case Some(h) =>
      var loc := HitLocation(h);
      var s1 := s.(trip := Reduce(s.trip, SetPickupLocation(loc)), pickupResult := Some(loc));
      match s.dropoffResult
      case None => Handled(s1, [])
      case Some(d) =>
        Handled(s1.(quote := Recompute(s.quote, replies)),
                QuoteRequests(CoordOf(loc), CoordOf(d), replies))
  }

  /** Choosing a dropoff, symmetric to `ChoosePickup`. */
  function ChooseDropoff(s: Session, hit: Option<SearchHit>, replies: FareReplies): (r: Handled)
    ensures hit.None? ==> r == Handled(s, [])
    ensures hit.Some? ==>
      && r.session.dropoffResult == Some(HitLocation(hit.value))
      && r.session.trip == Reduce(s.trip, SetDropoffLocation(HitLocation(hit.value)))
      && r.session.pickupResult == s.pickupResult
      && r.session.rideId == s.rideId && r.session.statusSent == s.statusSent
    ensures s.pickupResult.None? ==> r.session.quote == s.quote && r.priceRequests == []
    ensures hit.Some? && s.pickupResult.Some? ==>
      && r.session.quote == Recompute(s.quote, replies)
      && r.priceRequests == QuoteRequests(CoordOf(s.pickupResult.value), CoordOf(HitLocation(hit.value)), replies)
    ensures Synced(s) ==> Synced(r.session)
  {
    match hit
    case None => Handled(s, [])
    case Some(h) =>
      var loc := HitLocation(h);
      var s1 := s.(trip := Reduce(s.trip, SetDropoffLocation(loc)), dropoffResult := Some(loc));
      match s.pickupResult
      case None => Handled(s1, [])
      case Some(p) =>
        Handled(s1.(quote := Recompute(s.quote, replies)),
                QuoteRequests(CoordOf(p), CoordOf(loc), replies))
  }

  /** "Confirm Locations": with both endpoints chosen the stage becomes
      `SelectVehicle`; otherwise nothing changes. */
  function HandleConfirmLocations(s: Session): (r: Session)
    ensures HasEndpoints(s) ==> r == s.(trip := s.trip.(stage := SelectVehicle))
    ensures !HasEndpoints(s) ==> r == s
  {
    if HasEndpoints(s) then s.(trip := Reduce(s.trip, SetStage(SelectVehicle))) else s
  }

  /** Picking a tier: with both endpoints and a bookable price, the tier's
      key, its price and stage `ConfirmRide` are stored; otherwise nothing
      changes (a missing entry, a failed tier or a price of 0 all refuse). */
  function HandleSelectVehicle(s: Session, t: Tier): (r: Session)
    ensures HasEndpoints(s) && BookablePrice(s.quote, t).Some? ==>
      r == s.(trip := s.trip.(vehicleType := Some(TierKey(t)),
                              price := Some(BookablePrice(s.quote, t).value),
                              stage := ConfirmRide))
    ensures !(HasEndpoints(s) && BookablePrice(s.quote, t).Some?) ==> r == s
  {
    var price := BookablePrice(s.quote, t);
    if HasEndpoints(s) && price.Some? then
      var trip := Reduce(Reduce(Reduce(s.trip, SetVehicleType(TierKey(t))), SetPrice(price.value)), SetStage(ConfirmRide));
      s.(trip := trip)
    else s
  }

  /** The POST that creates a ride. */
  datatype RideRequest = RideRequest(pickup: Location, dropoff: Location, vehicleType: Option<string>)

  /** The created ride's payload; `id` may be missing. */
  datatype RideData = RideData(id: Option<string>)

  /** The ride service's answer: a failure (non-ok status or unreadable body),
      or a created ride whose `data` part may be missing and whose top-level
      driver record may carry the driver's current position. */
  datatype RideReply =
    | RideFailed
    | RideCreated(data: Option<RideData>, driverPosition: Option<Coord>)

  /** Half-width of the random box around the pickup used to seed the
      driver when the service gives no position. */
  const JitterHalfWidth: real := 0.009

  /** One random offset from a uniform draw u in [0, 1). */
  function Offset(u: real): (d: real)
    requires 0.0 <= u < 1.0
    ensures -JitterHalfWidth <= d < JitterHalfWidth
  {
    (u - 0.5) * 0.018
  }

  /** Where the driver starts: the service's position when present, else the
      pickup moved by two random offsets (latitude first). */
  function DriverStart(pickup: Location, position: Option<Coord>, u1: real, u2: real): (loc: Location)
    requires 0.0 <= u1 < 1.0 && 0.0 <= u2 < 1.0
    ensures loc.address == Some("Driver Location")
    ensures position.Some? ==> loc.latitude == position.value.latitude && loc.longitude == position.value.longitude
    ensures position.None? ==>
      && pickup.latitude - JitterHalfWidth <= loc.latitude <= pickup.latitude + JitterHalfWidth
      && pickup.longitude - JitterHalfWidth <= loc.longitude <= pickup.longitude + JitterHalfWidth
  {
    match position
    case Some(c) => Location(c.latitude, c.longitude, Some("Driver Location"))
    case None => Location(pickup.latitude + Offset(u1), pickup.longitude + Offset(u2), Some("Driver Location"))
  }

  /** "Confirm Ride": no request at all without both endpoints; otherwise the
      store passes through `FindingDriver` while the request is out and then
      settles on the reply. */
  datatype RideAttempt =
    | NotSent
    | Sent(request: RideRequest, searching: Session, settled: Session)

  function HandleConfirmRide(s: Session, reply: RideReply, u1: real, u2: real): (r: RideAttempt)
    requires 0.0 <= u1 < 1.0 && 0.0 <= u2 < 1.0
    ensures !HasEndpoints(s) <==> r.NotSent?
    ensures r.Sent? ==>
      && r.request == RideRequest(s.pickupResult.value, s.dropoffResult.value, s.trip.vehicleType)
      && r.searching == s.(trip := s.trip.(stage := FindingDriver))
    // a failed request reverts to location selection and touches nothing else
    ensures r.Sent? && reply.RideFailed? ==>
      r.settled == s.(trip := s.trip.(stage := SelectLocations))
    // a created ride always seeds a driver position
    ensures r.Sent? && reply.RideCreated? ==>
      && r.settled.trip.driverLocation == Some(DriverStart(s.pickupResult.value, reply.driverPosition, u1, u2))
      && r.settled.trip.stage == (if reply.data.Some? then DriverFound else SelectLocations)
      && r.settled.rideId ==
           (if reply.data.Some? && CompletionLatch.HasRide(reply.data.value.id) then reply.data.value.id else s.rideId)
    ensures r.Sent? ==>
      && r.settled.pickupResult == s.pickupResult && r.settled.dropoffResult == s.dropoffResult
      && r.settled.quote == s.quote && r.settled.statusSent == s.statusSent
      && r.settled.trip.pickupLocation == s.trip.pickupLocation
      && r.settled.trip.dropoffLocation == s.trip.dropoffLocation
      && r.settled.trip.vehicleType == s.trip.vehicleType && r.settled.trip.price == s.trip.price
  {
    if !HasEndpoints(s) then NotSent
    else
      var pickup := s.pickupResult.value;
      var request := RideRequest(pickup, s.dropoffResult.value, s.trip.vehicleType);
      var searching := s.(trip := Reduce(s.trip, SetStage(FindingDriver)));
      var settled :=
        match reply
        case RideFailed =>
          searching.(trip := Reduce(searching.trip, SetStage(SelectLocations)))
        case RideCreated(data, position) =>
          var withId :=
            if data.Some? && CompletionLatch.HasRide(data.value.id) then searching.(rideId := data.value.id)
            else searching;
          var placed := Reduce(withId.trip, SetDriverLocation(DriverStart(pickup, position, u1, u2)));
          // reading the driver record of a missing `data` throws, and the
          // handler's catch reverts the stage
          var next := if data.Some? then DriverFound else SelectLocations;
          withId.(trip := Reduce(placed, SetStage(next)));
      Sent(request, searching, settled)
  }

  /** The two guard effects run after a render of `s`. */
  function AfterRender(s: Session): CompletionLatch.Reaction {
    CompletionLatch.React(s.statusSent, CompletionLatch.Render(s.trip.stage, s.rideId))
  }

  /** "Book Another Ride": forgets the ride id, lowers the guard and returns
      to `SelectLocations`. Endpoints, driver position, tier, price and quote
      are kept. */
  function BookAnotherRide(s: Session): (r: Session)
    ensures r.trip.stage == SelectLocations && r.rideId.None? && !r.statusSent
    ensures r.trip.pickupLocation == s.trip.pickupLocation && r.trip.dropoffLocation == s.trip.dropoffLocation
    ensures r.trip.driverLocation == s.trip.driverLocation
    ensures r.trip.vehicleType == s.trip.vehicleType && r.trip.price == s.trip.price
    ensures r.pickupResult == s.pickupResult && r.dropoffResult == s.dropoffResult && r.quote == s.quote
  {
    s.(rideId := None, statusSent := false, trip := Reduce(s.trip, SetStage(SelectLocations)))
  }
}
