/** The lifecycle as a whole: the stage table, the claim that every handler
    and effect moves along it, and a complete successful trip from the first
    search to the single completion report. */
module TripFlow {
  import opened Optional
  import opened TripStore
  import opened Fare
  import opened RouteAnimator
  import opened MapLayers
  import opened StageEffects
  import opened Lifecycle
  import CompletionLatch

  /** The forward edge out of each stage; `Completed` has none. */
  function Next(st: Stage): Option<Stage> {
    match st
    case SelectLocations => Some(SelectVehicle)
    case SelectVehicle => Some(ConfirmRide)
    case ConfirmRide => Some(FindingDriver)
    case FindingDriver => Some(DriverFound)
    case DriverFound => Some(DriverToPickUp)
    case DriverToPickUp => Some(DriverArrivedPickUp)
    case DriverArrivedPickUp => Some(PickupToDropoff)
    case PickupToDropoff => Some(Completed)
    case Completed => None
  }

  /** Following the forward edges from the start visits the nine stages in
      the order of `AllStages`. */
  lemma NextWalksAllStages()
    ensures forall i :: 0 <= i < |AllStages| - 1 ==> Next(AllStages[i]) == Some(AllStages[i + 1])
    ensures Next(AllStages[|AllStages| - 1]).None?
  {
  }

  /** An allowed stage change: stay, take the forward edge, or fall back to
      `SelectLocations` from a failed ride creation or a finished trip. */
  predicate Edge(from: Stage, to: Stage) {
    to == from || Next(from) == Some(to) || (to == SelectLocations && (from == FindingDriver || from == Completed))
  }

  /** Every handler, from the stage in which the interface offers it, and
      every effect, from the stage that triggers it, moves along the table. */
  lemma {:induction false} TransitionsFollowTable(
    s: Session, t: TripState, layers: Layers, tier: Tier, reply: RideReply, u1: real, u2: real,
    route: Option<seq<Point>>, a: Animation, dist: (Point, Point) -> real, u: real)
    requires IsDraw(u1) && IsDraw(u2) && IsDraw(u)
    requires ValidMetric(dist) && Live(a, dist)
    ensures s.trip.stage == SelectLocations ==> Edge(s.trip.stage, HandleConfirmLocations(s).trip.stage)
    ensures s.trip.stage == SelectVehicle ==> Edge(s.trip.stage, HandleSelectVehicle(s, tier).trip.stage)
    ensures s.trip.stage == ConfirmRide && HandleConfirmRide(s, reply, u1, u2).Sent? ==>
      var att := HandleConfirmRide(s, reply, u1, u2);
      Edge(ConfirmRide, att.searching.trip.stage) && Edge(att.searching.trip.stage, att.settled.trip.stage)
    ensures s.trip.stage == Completed ==> Edge(Completed, BookAnotherRide(s).trip.stage)
    ensures Edge(t.stage, EnterStage(t, layers).trip.stage)
    ensures t.stage == DriverArrivedPickUp ==> Edge(t.stage, DwellElapsed(t, layers).0.stage)
    ensures LegFor(t).Some? ==> Edge(t.stage, StartLeg(t, LegFor(t).value, route, dist).trip.stage)
    ensures LegFor(t).Some? ==> Edge(t.stage, DriveTick(t, layers, LegFor(t).value, a, dist, u).trip.stage)
  {
    if LegFor(t).Some? {
      var leg := LegFor(t).value;
      assert t.stage == DriverToPickUp ==> leg.arrival == DriverArrivedPickUp;
      assert t.stage == PickupToDropoff ==> leg.arrival == Completed;
    }
  }

  /** An animated leg ends where the table says: its arrival is the forward
      edge out of the stage that animates it. */
  lemma LegArrivesAlongTable(t: TripState)
    requires LegFor(t).Some?
    ensures Next(t.stage) == Some(LegFor(t).value.arrival)
  {
  }

  /** Arriving removes the leg's own layer and nothing else. */
  lemma ArrivalRemovesLegLayer(t: TripState)
    requires LegFor(t).Some?
    ensures RemovedOn(LegFor(t).value.arrival) == {LegFor(t).value.layer}
  {
  }

  /** Handlers that record endpoints keep the search results and the store's
      endpoints in agreement, so the application's guards (on the results)
      and the map's guards (on the store) see the same endpoints. */
  lemma {:induction false} HandlersKeepSynced(s: Session, hit: Option<SearchHit>, replies: FareReplies, tier: Tier, reply: RideReply, u1: real, u2: real)
    requires Synced(s) && IsDraw(u1) && IsDraw(u2)
    ensures Synced(ChoosePickup(s, hit, replies).session)
    ensures Synced(ChooseDropoff(s, hit, replies).session)
    ensures Synced(HandleConfirmLocations(s))
    ensures Synced(HandleSelectVehicle(s, tier))
    ensures HandleConfirmRide(s, reply, u1, u2).Sent? ==>
      Synced(HandleConfirmRide(s, reply, u1, u2).searching) && Synced(HandleConfirmRide(s, reply, u1, u2).settled)
    ensures Synced(BookAnotherRide(s))
  {
  }

  /** Booking: two searches, a successful fare, the two confirmations and a
      created ride take the store from the start through `SelectVehicle`,
      `ConfirmRide` and `FindingDriver` to `DriverFound`, with all three
      locations known so the approach starts on the next render. */
  lemma {:induction false} Booking(
    pickup: SearchHit, dropoff: SearchHit, noFare: FareReplies, replies: FareReplies, tier: Tier,
    id: string, position: Option<Coord>, u1: real, u2: real)
    requires Completes(replies) && TierPrice(replies, tier).Some? && TierPrice(replies, tier).value != 0.0
    requires id != "" && IsDraw(u1) && IsDraw(u2)
    ensures
      var s1 := ChoosePickup(Start, Some(pickup), noFare);
      var s2 := ChooseDropoff(s1.session, Some(dropoff), replies);
      var s3 := HandleConfirmLocations(s2.session);
      var s4 := HandleSelectVehicle(s3, tier);
      var att := HandleConfirmRide(s4, RideCreated(Some(RideData(Some(id))), position), u1, u2);
      && s1.priceRequests == []
      && |s2.priceRequests| == 4
      && [s1.session.trip.stage, s3.trip.stage, s4.trip.stage] == [SelectLocations, SelectVehicle, ConfirmRide]
      && s4.trip.vehicleType == Some(TierKey(tier))
      && s4.trip.price == TierPrice(replies, tier)
      && att.Sent?
      && att.searching.trip.stage == FindingDriver
      && att.settled.trip.stage == DriverFound
      && att.settled.rideId == Some(id)
      && !att.settled.statusSent
      && AllPresent(att.settled.trip)
      && Synced(att.settled)
  {
    var s1 := ChoosePickup(Start, Some(pickup), noFare);
    var s2 := ChooseDropoff(s1.session, Some(dropoff), replies);
    BookableAfterRecompute(s1.session.quote, replies, tier);
  }

  /** A leg from the render that enters its stage to the end of its walk:
      the render's effects (which, from `DriverFound`, first advance to
      `DriverToPickUp`), the fetched route's walk started, and one tick per draw. */
  datatype LegRun = LegRun(entered: Reaction, drive: Drive)

  function RunLeg(t: TripState, layers: Layers, route: seq<Point>, dist: (Point, Point) -> real, draws: seq<real>): (r: LegRun)
    requires LegFor(EnterStage(t, layers).trip).Some? && ValidMetric(dist) && AreDraws(draws)
    ensures r.entered == EnterStage(t, layers)
  {
    var entered := EnterStage(t, layers);
    var leg := LegFor(entered.trip).value;
    var start := StartLeg(entered.trip, leg, Some(route), dist);
    LegRun(entered, DriveAll(start.trip, entered.layers, leg, start.walk.value, dist, draws))
  }

  /** A leg whose route has at least two points, driven with as many draws as
      its tick budget, finishes exactly once and leaves the store in the leg's
      arrival stage with the driver on the route's last point and the
      endpoints untouched. */
  lemma {:induction false} LegCompletes(
    t: TripState, layers: Layers, route: seq<Point>, dist: (Point, Point) -> real, draws: seq<real>)
    requires LegFor(EnterStage(t, layers).trip).Some?
    requires ValidMetric(dist) && AreDraws(draws) && |route| >= 2
    requires |draws| >= RouteTicks(route, dist, 0)
    ensures
      var r := RunLeg(t, layers, route, dist, draws);
      && r.drive.walk.Finished?
      && r.drive.trip.stage == (if r.entered.trip.stage == DriverToPickUp then DriverArrivedPickUp else Completed)
      && r.drive.trip.driverLocation == Some(LocationOf(route[|route| - 1]))
      && r.drive.trip.pickupLocation == t.pickupLocation
      && r.drive.trip.dropoffLocation == t.dropoffLocation
  {
    var entered := EnterStage(t, layers);
    var leg := LegFor(entered.trip).value;
    var start := StartLeg(entered.trip, leg, Some(route), dist);
    FinishesWithinBudget(start.walk.value.anim, dist, draws);
  }

  /** The end of a trip: entering `Completed` removes the trip's route
      layer, and however many renders follow in `Completed`, exactly one
      status update for the ride is sent. */
  lemma {:induction false} CompletionReportedOnce(s: Session, layers: Layers, rerenders: nat)
    requires s.trip.stage == Completed && CompletionLatch.HasRide(s.rideId) && !s.statusSent
    ensures PickupToDropoffLine !in EnterStage(s.trip, layers).layers
    ensures
      var renders := seq(rerenders + 1, i => CompletionLatch.Render(Completed, s.rideId));
      CompletionLatch.UpdatesSent(false, renders) == 1
  {
    var renders := seq(rerenders + 1, i => CompletionLatch.Render(Completed, s.rideId));
    var first := CompletionLatch.React(false, renders[0]);
    assert first.sent.Some?;
    CompletionLatch.RaisedGuardBlocks(renders[1..]);
  }

  /** A whole successful trip. After booking, the render in `DriverFound`
      advances to `DriverToPickUp` and fetches the approach route; the
      approach walk ends in `DriverArrivedPickUp`, whose render drops the
      approach layer and arms the 5000 ms dwell; the dwell moves to
      `PickupToDropoff`, whose render fetches the trip route; that walk ends
      in `Completed`, where one status update reports the ride. The stages
      observed are the nine of the table, in order. */
  lemma {:induction false} WholeTrip(
    pickup: SearchHit, dropoff: SearchHit, noFare: FareReplies, replies: FareReplies, tier: Tier,
    id: string, position: Option<Coord>, u1: real, u2: real,
    dist: (Point, Point) -> real, approach: seq<Point>, ride: seq<Point>,
    approachDraws: seq<real>, rideDraws: seq<real>, layers: Layers)
    requires Completes(replies) && TierPrice(replies, tier).Some? && TierPrice(replies, tier).value != 0.0
    requires id != "" && IsDraw(u1) && IsDraw(u2)
    requires ValidMetric(dist) && |approach| >= 2 && |ride| >= 2
    requires AreDraws(approachDraws) && |approachDraws| >= RouteTicks(approach, dist, 0)
    requires AreDraws(rideDraws) && |rideDraws| >= RouteTicks(ride, dist, 0)
    ensures
      var s1 := ChoosePickup(Start, Some(pickup), noFare).session;
      var s3 := HandleConfirmLocations(ChooseDropoff(s1, Some(dropoff), replies).session);
      var s4 := HandleSelectVehicle(s3, tier);
      var att := HandleConfirmRide(s4, RideCreated(Some(RideData(Some(id))), position), u1, u2);
      var booked := att.settled;
      && LegFor(EnterStage(booked.trip, layers).trip).Some?
      && var toPickup := RunLeg(booked.trip, layers, approach, dist, approachDraws);
      var arrived := EnterStage(toPickup.drive.trip, toPickup.drive.layers);
      var dwelt := DwellElapsed(arrived.trip, arrived.layers);
      && LegFor(EnterStage(dwelt.0, dwelt.1).trip).Some?
      && var toDropoff := RunLeg(dwelt.0, dwelt.1, ride, dist, rideDraws);
      var done := booked.(trip := toDropoff.drive.trip);
      && [s1.trip.stage, s3.trip.stage, s4.trip.stage, att.searching.trip.stage, booked.trip.stage,
          toPickup.entered.trip.stage, arrived.trip.stage, toDropoff.entered.trip.stage, done.trip.stage]
         == AllStages
      && arrived.timer == Some(DwellMs)
      && DriverToPickupLine !in arrived.layers
      && done.trip.driverLocation == Some(LocationOf(ride[|ride| - 1]))
      && AfterRender(done).sent == Some(CompletionLatch.StatusUpdate(id, CompletionLatch.CompletedStatus))
  {
    Booking(pickup, dropoff, noFare, replies, tier, id, position, u1, u2);
    var s1 := ChoosePickup(Start, Some(pickup), noFare).session;
    var s3 := HandleConfirmLocations(ChooseDropoff(s1, Some(dropoff), replies).session);
    var s4 := HandleSelectVehicle(s3, tier);
    var booked := HandleConfirmRide(s4, RideCreated(Some(RideData(Some(id))), position), u1, u2).settled;
    assert EnterStage(booked.trip, layers).trip.stage == DriverToPickUp;
    LegCompletes(booked.trip, layers, approach, dist, approachDraws);
    var toPickup := RunLeg(booked.trip, layers, approach, dist, approachDraws);
    assert toPickup.drive.trip.stage == DriverArrivedPickUp;
    var arrived := EnterStage(toPickup.drive.trip, toPickup.drive.layers);
    var dwelt := DwellElapsed(arrived.trip, arrived.layers);
    assert EnterStage(dwelt.0, dwelt.1).trip.stage == PickupToDropoff;
    LegCompletes(dwelt.0, dwelt.1, ride, dist, rideDraws);
  }
}
