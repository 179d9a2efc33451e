/** The map side of the lifecycle: what each stage entry does to the route
    layers, which routes it fetches, the automatic advances, the dwell timer
    and the route animations whose finish moves the stage on. Route replies,
    timer firings and random draws are explicit inputs. */
module StageEffects {
  import opened Optional
  import opened TripStore
  import opened RouteAnimator
  import opened MapLayers

  /** The driver, pickup and dropoff are all known: the automatic advances and
      the animations run only then. */
  predicate AllPresent(t: TripState) {
    t.pickupLocation.Some? && t.driverLocation.Some? && t.dropoffLocation.Some?
  }

  function PointOf(loc: Location): Point {
    Point(loc.longitude, loc.latitude)
  }

  /** A position the animator publishes becomes the driver location, without address. */
  function LocationOf(p: Point): Location {
    Location(p.lat, p.lng, None)
  }

  /** The delay between arriving at the pickup and leaving for the dropoff. */
  const DwellMs: nat := 5000

  /** An animated leg: where its route goes, the layer it redraws with its
      tint, and the stage its finish dispatches. */
  datatype Leg = Leg(from: Location, to: Location, layer: LayerId, tint: Tint, arrival: Stage)

  /** A route request an effect issues: for drawing a layer, or for animating a leg. */
  datatype RouteFetch =
    | DrawFetch(from: Location, to: Location, layer: LayerId, tint: Tint)
    | AnimateFetch(leg: Leg)

  /** The route drawing that follows an endpoint change: pickup to dropoff,
      once both are known. */
  function EndpointDraw(t: TripState): (r: Option<RouteFetch>)
    ensures r.Some? <==> t.pickupLocation.Some? && t.dropoffLocation.Some?
    ensures r.Some? ==> r.value == DrawFetch(t.pickupLocation.value, t.dropoffLocation.value, PickupToDropoffLine, RouteGreen)
  {
    if t.pickupLocation.Some? && t.dropoffLocation.Some? then
      Some(DrawFetch(t.pickupLocation.value, t.dropoffLocation.value, PickupToDropoffLine, RouteGreen))
    else None
  }

  /** The layers a stage's entry removes. */
  function RemovedOn(st: Stage): (r: set<LayerId>)
    ensures |r| <= 1
    ensures st == DriverArrivedPickUp ==> r == {DriverToPickupLine}
    ensures st == Completed ==> r == {PickupToDropoffLine}
    ensures st != DriverArrivedPickUp && st != Completed ==> r == {}
  {
    if st == DriverArrivedPickUp then {DriverToPickupLine}
    else if st == Completed then {PickupToDropoffLine}
    else {}
  }

  /** The clean-up effect of a stage entry. */
  function CleanUp(layers: Layers, st: Stage): (r: Layers)
    ensures r.Keys == layers.Keys - RemovedOn(st)
    ensures forall id :: id in r ==> r[id] == layers[id]
  {
    if st == DriverArrivedPickUp then Remove(layers, DriverToPickupLine)
    else if st == Completed then Remove(layers, PickupToDropoffLine)
    else layers
  }

  /** The leg a stage animates, when all three locations are known. */
  function LegFor(t: TripState): (r: Option<Leg>)
    ensures r.Some? <==> AllPresent(t) && (t.stage == DriverToPickUp || t.stage == PickupToDropoff)
    ensures r.Some? && t.stage == DriverToPickUp ==>
      r.value == Leg(t.driverLocation.value, t.pickupLocation.value, DriverToPickupLine, ApproachOrange, DriverArrivedPickUp)
    ensures r.Some? && t.stage == PickupToDropoff ==>
      r.value == Leg(t.pickupLocation.value, t.dropoffLocation.value, PickupToDropoffLine, RouteGreen, Completed)
  {
    if !AllPresent(t) then None
    else if t.stage == DriverToPickUp then
      Some(Leg(t.driverLocation.value, t.pickupLocation.value, DriverToPickupLine, ApproachOrange, DriverArrivedPickUp))
    else if t.stage == PickupToDropoff then
      Some(Leg(t.pickupLocation.value, t.dropoffLocation.value, PickupToDropoffLine, RouteGreen, Completed))
    else None
  }

  /** What the effects of one render in a new stage do: the new store and
      layers, the route requests issued, and the dwell timer armed (its delay). */
  datatype Reaction = Reaction(trip: TripState, layers: Layers, fetches: seq<RouteFetch>, timer: Option<nat>)

  /** The stage-change effects of one render, in the order the map component
      declares them: draw the driver's approach, clean up layers, advance
      automatically or arm the dwell timer, fetch the route to animate. */
  function OnStage(t: TripState, layers: Layers): (r: Reaction)
    // the only stage a render changes by itself is driverFound, and only with all three locations
    ensures r.trip == (if t.stage == DriverFound && AllPresent(t) then t.(stage := DriverToPickUp) else t)
    ensures r.timer.Some? <==> t.stage == DriverArrivedPickUp && AllPresent(t)
    ensures r.timer.Some? ==> r.timer.value == DwellMs
    ensures r.layers.Keys == layers.Keys - RemovedOn(t.stage)
    ensures !(t.stage == DriverFound && AllPresent(t)) ==> forall id :: id in r.layers ==> r.layers[id] == layers[id]
    ensures t.stage == DriverFound && AllPresent(t) ==> r.layers == Recolor(layers, PickupToDropoffLine, PendingGrey)
    ensures LegFor(t).Some? ==> AnimateFetch(LegFor(t).value) in r.fetches
    ensures forall i :: 0 <= i < |r.fetches| && r.fetches[i].AnimateFetch? ==> LegFor(t) == Some(r.fetches[i].leg)
    ensures t.stage == DriverFound && t.driverLocation.Some? && t.pickupLocation.Some? ==>
      r.fetches == [DrawFetch(t.driverLocation.value, t.pickupLocation.value, DriverToPickupLine, ApproachOrange)]
    ensures forall i :: 0 <= i < |r.fetches| && r.fetches[i].DrawFetch? ==> t.stage == DriverFound
    ensures |r.fetches| <= 1
  {
    var approach :=
      if t.stage == DriverFound && t.driverLocation.Some? && t.pickupLocation.Some? then
        [DrawFetch(t.driverLocation.value, t.pickupLocation.value, DriverToPickupLine, ApproachOrange)]
      else [];
    var cleaned := CleanUp(layers, t.stage);
    var advanced := t.stage == DriverFound && AllPresent(t);
    var trip := if advanced then Reduce(t, SetStage(DriverToPickUp)) else t;
    var tinted := if advanced then Recolor(cleaned, PickupToDropoffLine, PendingGrey) else cleaned;
    var timer := if t.stage == DriverArrivedPickUp && AllPresent(t) then Some(DwellMs) else None;
    var animate := match LegFor(t) case Some(leg) => [AnimateFetch(leg)] case None => [];
    Reaction(trip, tinted, approach + animate, timer)
  }

  /** Entering a stage: the render's effects, and when they advanced the
      stage, the effects of the render that follows. */
  function EnterStage(t: TripState, layers: Layers): (r: Reaction)
    ensures r.trip.stage == t.stage || (t.stage == DriverFound && AllPresent(t) && r.trip.stage == DriverToPickUp)
    ensures r.trip.stage != t.stage ==>
      && r.trip == t.(stage := DriverToPickUp)
      && LegFor(r.trip).Some?
      && AnimateFetch(Leg(t.driverLocation.value, t.pickupLocation.value, DriverToPickupLine, ApproachOrange, DriverArrivedPickUp)) in r.fetches
  {
    var first := OnStage(t, layers);
    if first.trip.stage == t.stage then first
    else
      var second := OnStage(first.trip, first.layers);
      Reaction(second.trip, second.layers, first.fetches + second.fetches, second.timer)
  }

  /** The reply to a drawing fetch: a route is drawn on the fetch's layer
      (added with the fetch's tint if missing); no route leaves the map as it is. */
  function DrawReply(layers: Layers, fetch: RouteFetch, route: Option<seq<Point>>): (r: Layers)
    requires fetch.DrawFetch?
    ensures route.None? ==> r == layers
    ensures route.Some? ==> r == Draw(layers, fetch.layer, fetch.tint, route.value)
  {
    match route
    case None => layers
    case Some(points) => Draw(layers, fetch.layer, fetch.tint, points)
  }

  /** Once both endpoints are known, the reply to the endpoint draw shows the
      fetched route on the trip layer: green when the layer is new, its tint
      kept otherwise; the approach layer is untouched, and the same reply
      arriving twice draws nothing new. */
  lemma EndpointRouteShown(t: TripState, layers: Layers, route: seq<Point>)
    requires t.pickupLocation.Some? && t.dropoffLocation.Some?
    ensures var r := DrawReply(layers, EndpointDraw(t).value, Some(route));
      && PickupToDropoffLine in r && r[PickupToDropoffLine].line == route
      && r[PickupToDropoffLine].tint ==
           (if PickupToDropoffLine in layers then layers[PickupToDropoffLine].tint else RouteGreen)
      && OthersKept(layers, r, PickupToDropoffLine)
      && DrawReply(r, EndpointDraw(t).value, Some(route)) == r
  {
    DrawIdempotent(layers, PickupToDropoffLine, RouteGreen, RouteGreen, route);
  }

  /** The dwell timer fires: the stage becomes `PickupToDropoff` (whatever it
      is then, as the callback does not look) and the trip route regains its
      green tint if drawn. */
  function DwellElapsed(t: TripState, layers: Layers): (r: (TripState, Layers))
    ensures r.0 == t.(stage := PickupToDropoff)
    ensures r.1 == Recolor(layers, PickupToDropoffLine, RouteGreen)
  {
    (Reduce(t, SetStage(PickupToDropoff)), Recolor(layers, PickupToDropoffLine, RouteGreen))
  }

  /** The reply to an animation fetch. No route: nothing starts and the stage
      stays. A route: the walk starts, and a route of at most one point
      finishes at once, dispatching the leg's arrival stage. */
  datatype LegStart = LegStart(trip: TripState, walk: Option<Phase>)

  function StartLeg(t: TripState, leg: Leg, route: Option<seq<Point>>, ghost dist: (Point, Point) -> real): (r: LegStart)
    ensures route.None? ==> r == LegStart(t, None)
    ensures route.Some? ==> r.walk == Some(Launch(route.value, dist))
    ensures route.Some? && |route.value| <= 1 ==> r.trip == t.(stage := leg.arrival)
    ensures route.Some? && |route.value| > 1 ==> r.trip == t && r.walk.value.Moving?
  {
    match route
    case None => LegStart(t, None)
    case Some(points) =>
      var p := Launch(points, dist);
      if p.Finished? then LegStart(Reduce(t, SetStage(leg.arrival)), Some(p))
      else LegStart(t, Some(p))
  }

  /** One tick of a leg's walk: the published position becomes the driver
      location, an interpolating tick redraws the leg's layer as the position
      followed by the waypoints still ahead, and the finishing tick dispatches
      the arrival stage. */
  datatype Drive = Drive(trip: TripState, layers: Layers, walk: Phase)

  function DriveTick(t: TripState, layers: Layers, leg: Leg, a: Animation, dist: (Point, Point) -> real, u: real): (r: Drive)
    requires ValidMetric(dist) && Live(a, dist) && IsDraw(u)
    ensures var tick := AdvanceTick(a, dist, u);
      && r.walk == tick.next
      && r.trip.driverLocation == Some(LocationOf(tick.position))
      && r.trip.stage == (if tick.next.Finished? then leg.arrival else t.stage)
      && r.trip.pickupLocation == t.pickupLocation && r.trip.dropoffLocation == t.dropoffLocation
      && r.trip.vehicleType == t.vehicleType && r.trip.price == t.price
      && (tick.line.Some? ==> r.layers == Draw(layers, leg.layer, leg.tint, tick.line.value))
      && (tick.line.None? ==> r.layers == layers)
  {
    var tick := AdvanceTick(a, dist, u);
    var placed := Reduce(t, SetDriverLocation(LocationOf(tick.position)));
    var trip := if tick.next.Finished? then Reduce(placed, SetStage(leg.arrival)) else placed;
    var drawn := match tick.line case Some(line) => Draw(layers, leg.layer, leg.tint, line) case None => layers;
    Drive(trip, drawn, tick.next)
  }

  /** A leg's walk over a run of draws, one tick per draw, until the draws
      run out or the walk finishes. The stage is the one the walk started in
      until the finishing tick, which dispatches the leg's arrival; the
      endpoints, tier and price are never touched. */
  function DriveAll(t: TripState, layers: Layers, leg: Leg, p: Phase, dist: (Point, Point) -> real, draws: seq<real>): (r: Drive)
    requires ValidMetric(dist) && LivePhase(p, dist) && AreDraws(draws)
    ensures r.walk == Walk(p, dist, draws)
    ensures r.trip.stage == (if p.Moving? && r.walk.Finished? then leg.arrival else t.stage)
    ensures r.trip.pickupLocation == t.pickupLocation && r.trip.dropoffLocation == t.dropoffLocation
    ensures r.trip.vehicleType == t.vehicleType && r.trip.price == t.price
    ensures p.Moving? && r.walk.Finished? ==>
      r.trip.driverLocation == Some(LocationOf(p.anim.route[|p.anim.route| - 1]))
    decreases |draws|
  {
    if |draws| == 0 || p.Finished? then Drive(t, layers, p)
    else
      var step := DriveTick(t, layers, leg, p.anim, dist, draws[0]);
      var rest := DriveAll(step.trip, step.layers, leg, step.walk, dist, draws[1..]);
      assert rest.walk.Finished? && step.walk.Finished? ==> rest.trip == step.trip;
      rest
  }
}
