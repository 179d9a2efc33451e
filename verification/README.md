# Trip lifecycle of a single-client ride-hailing simulator, in Dafny

This project models the core of a ride-hailing front end that simulates one
rider's trip. It covers three pieces.

1. **The trip store** (`tripSlice.ts`). It is a record with five nullable
   fields (pickup, dropoff, driver location, vehicle type, price) and a
   nine-valued stage. There is one setter per field and a reset.
2. **The stage machine.** The application handlers decide three things:
   endpoint search with fare recomputation; the "confirm locations",
   "select vehicle" and "confirm ride" guards; and ride creation with its
   success and failure outcomes. The one-shot guard around the terminal
   "ride completed" status update lives here too. The map component's
   effects drive the rest of the trip. They remove route layers per stage,
   advance `driverFound` to `driverToPickUp` on their own, arm the 5000 ms
   dwell at the pickup, and start the two route animations whose finish
   moves the stage on.
3. **The route animator** (`animateRoute`). It is a cursor over a polyline.
   Each 100 ms tick adds speed/3600 km, at a speed drawn uniformly in
   [20, 30) km/h. The position is interpolated while the distance covered is
   below the segment length. Once it reaches the length, the position snaps
   to the segment's end and the cursor moves on.

Effects become explicit inputs: every reply of the price, ride and
directions services, every `Math.random` draw, and every firing of the tick
timer and the dwell timer. The haversine distance is a parameter `dist`. The
model only assumes it is non-negative and zero from a point to itself.

Modules, one per component:

- `Optional` (`optional.dfy`): the `Option` wrapper used for nullable fields and replies.
- `TripStore` (`trip_store.dfy`): `Stage`, `TripState`, `Initial`, the `Action`s and `Reduce`. Field isolation is stated through `Read`/`Writes`/`Written`.
- `Fare` (`fare.dfy`): tiers, the base and per-tier price requests, quote assembly, and when a tier can be booked.
- `CompletionLatch` (`completion_latch.dfy`): the completion and reset effects over any run of renders.
- `Lifecycle` (`lifecycle.dfy`): the application's session state and its handlers.
- `RouteAnimator` (`route_animator.dfy`): the tick step, runs of ticks, and the tick budget behind termination.
- `MapLayers` (`map_layers.dfy`): the two route layers as upserts, removals and recolourings.
- `StageEffects` (`stage_effects.dfy`): what entering each stage does on the map side, the dwell timer, and driving a leg.
- `TripFlow` (`trip_flow.dfy`): the stage table, the claim that every handler and effect follows it, and a whole successful trip.

Behaviours of the code worth knowing, all of which the model follows:

- A tick moves speed/3600 km (`MapComponent.tsx:260-263`) although the
  timer period is 100 ms, so the driver covers ten times the distance the
  drawn speed implies.
- "Book Another Ride" (`App.tsx:574-578`) does not call `resetTrip`: it
  clears only the ride id and the completion guard and sets
  `selectLocations`, so pickup, dropoff, driver location, tier, price and
  quote survive. `resetTrip` itself is modelled (`TripStore.Reduce` with
  `ResetTrip`).
- A new animation does not cancel the interval of an earlier one, and the
  dwell timer is never cancelled. The model claims neither cancellation nor
  freedom from races (see "Left out").
- A zero-length segment ends on its first tick, through the snap branch. It
  is not skipped within the tick that started it.
- The driver position used on ride creation is read from the reply's
  top-level `driver` record (`App.tsx:277`), not from `data.driver`. A reply
  without `data` places the driver and then throws at `App.tsx:296`, and the
  handler's catch returns to `selectLocations`.
- A tier price request that throws (a rejected `fetch`, or an ok reply
  without `data`, `App.tsx:203-206`) ends the fare recomputation in its
  catch (`App.tsx:189-191`): later tiers are not asked, the new distance and
  duration are shown (`App.tsx:160-161`) beside the previous prices, and a
  previously bookable tier stays bookable at its old price.
- A reverse-geocoding request that fails, or answers without a feature list,
  throws inside the position callback (`App.tsx:78-82`), so no pickup is
  stored.
- An empty route array is truthy. Only a missing route means "no
  animation". An empty or one-point route finishes at once and dispatches
  the leg's arrival stage.

## Model

| member | source | states |
|---|---|---|
| TripStore.Reduce | swe30003-fe/src/store/tripSlice.ts:48-79 | every field an action writes holds the action's payload (for the reset, the initial value), and every other field, the stage included, keeps its value |
| TripStore.InitialIsEmpty | swe30003-fe/src/store/tripSlice.ts:33-40 | the initial record has all five nullable fields empty and stage `selectLocations` |
| TripStore.StagesEnumerated | swe30003-fe/src/store/tripSlice.ts:11-20 | there are exactly nine pairwise distinct stages and every stage is one of them |
| TripStore.SetStageThenRead | swe30003-fe/src/store/tripSlice.ts:68-70 | after setting any stage, reading the stage yields that stage |
| TripStore.ResetRestoresInitial | swe30003-fe/src/store/tripSlice.ts:72-79 | resetting any record yields exactly the initial record, and resetting twice equals resetting once |
| TripStore.DisjointActionsCommute | swe30003-fe/src/store/tripSlice.ts:48-70 | two actions that write different fields give the same record in either order |
| TripStore.StageSurvivesNonStageActions | swe30003-fe/src/store/tripSlice.ts:48-70 | any run of actions none of which writes the stage leaves the stage unchanged |
| TripStore.DriverWritesKeepStage | swe30003-fe/src/store/tripSlice.ts:56-58 | any number of driver-position writes keeps the stage, and the driver field holds the last position written |
| Fare.QuoteRequests | swe30003-fe/src/App.tsx:143-209 | one recomputation issues the base request first; only if it succeeded, the tier requests follow in the order Bike, Car, Luxury, all for the same endpoints; they stop early exactly after a tier whose request threw, and every tier asked before the last one did not throw |
| Fare.Recompute | swe30003-fe/src/App.tsx:143-209 | a failed base request leaves the previous quote untouched; otherwise the base distance and duration are shown; a thrown tier request keeps the previous prices, and a completed one gives exactly the keys BIKE, CAR and LUXURY, each holding that tier's own price (none for a non-ok reply) |
| Fare.RecomputeForgetsPrevious | swe30003-fe/src/App.tsx:164-188 | a completed recomputation does not depend on the previous quote (recomputed, not merged) |
| Fare.TierFailureIsLocal | swe30003-fe/src/App.tsx:195-209 | when no request throws, changing one tier's reply (a non-ok status, say) changes only that tier's entry |
| Fare.BookableAfterRecompute | swe30003-fe/src/App.tsx:204-224 | after a completed recomputation a tier is bookable exactly when its own request answered with a non-zero price, at that price |
| Fare.ThrownTierKeepsPrices | swe30003-fe/src/App.tsx:159-209 | a tier request that throws is the last request issued, the new distance is shown beside the previous prices, and every tier stays bookable exactly as before |
| CompletionLatch.React | swe30003-fe/src/App.tsx:319-358 | the update is sent exactly when the render shows `completed`, a non-empty ride id and a lowered guard; the guard is raised whenever it is sent, and is lowered exactly when the render shows `selectLocations` or it was down and nothing was sent |
| CompletionLatch.RaisedGuardBlocks | swe30003-fe/src/App.tsx:322-324 | a raised guard stays raised and nothing is sent until a render shows `selectLocations` |
| CompletionLatch.AtMostOneUpdate | swe30003-fe/src/App.tsx:319-351 | across any run of renders that avoids `selectLocations`, at most one update is sent, and none if the guard starts raised |
| CompletionLatch.ResetRearms | swe30003-fe/src/App.tsx:354-358 | after a render in `selectLocations` the guard is down, so the next completed ride with an id is reported |
| Lifecycle.UseCurrentPosition | swe30003-fe/src/App.tsx:68-91 | a failed reverse geocoding changes nothing; otherwise the device position becomes the pickup in both the store and the search result, named by the place name or "Current Location"; dropoff, quote, ride id and guard are kept and no fare is computed |
| Lifecycle.ChoosePickup | swe30003-fe/src/App.tsx:93-116 | an empty reply changes nothing; otherwise the pickup is stored, and the quote is recomputed (with its requests) only when a dropoff is already chosen |
| Lifecycle.ChooseDropoff | swe30003-fe/src/App.tsx:118-141 | an empty reply changes nothing; otherwise the dropoff is stored, and the quote is recomputed (with its requests) only when a pickup is already chosen |
| Lifecycle.HandleConfirmLocations | swe30003-fe/src/App.tsx:211-218 | with both endpoints the stage becomes `selectVehicle` and nothing else changes; otherwise nothing changes |
| Lifecycle.HandleSelectVehicle | swe30003-fe/src/App.tsx:220-234 | with both endpoints and a bookable tier, the tier key, its price and stage `confirmRide` are stored; a missing, failed or zero price leaves the session unchanged |
| Lifecycle.Offset | swe30003-fe/src/App.tsx:286 | one random offset lies in [-0.009, 0.009) |
| Lifecycle.DriverStart | swe30003-fe/src/App.tsx:276-293 | the driver starts at the service's position when given, else within 0.009 of the pickup in each coordinate |
| Lifecycle.HandleConfirmRide | swe30003-fe/src/App.tsx:236-316 | without both endpoints no request is sent; otherwise the stage passes `findingDriver`; a failure ends in `selectLocations` with nothing else changed; a created ride seeds the driver, keeps a non-empty id, and ends in `driverFound` (or `selectLocations` when `data` is missing); endpoints, tier, price, quote and guard are kept |
| Lifecycle.BookAnotherRide | swe30003-fe/src/App.tsx:574-578 | the ride id is forgotten, the guard lowered and the stage set to `selectLocations`, while endpoints, driver, tier, price and quote are kept |
| RouteAnimator.Speed | swe30003-fe/src/components/MapComponent.tsx:261 | a draw in [0, 1) gives a speed in [20, 30) km/h |
| RouteAnimator.Stride | swe30003-fe/src/components/MapComponent.tsx:261-264 | one tick covers between 1/180 and 1/120 km |
| RouteAnimator.Enter | swe30003-fe/src/components/MapComponent.tsx:236-258 | entering a segment finishes exactly when the cursor is at or beyond len-1, and otherwise starts the segment with distance 0 |
| RouteAnimator.Launch | swe30003-fe/src/components/MapComponent.tsx:232-243 | a route of at most one point finishes before any tick; a longer one starts at segment 0 |
| RouteAnimator.AdvanceTick | swe30003-fe/src/components/MapComponent.tsx:260-295 | a tick snaps exactly when the covered distance reaches the segment length: the position is then the segment's end and the cursor moves to the next segment with distance 0, or the walk finishes; below the length the fraction lies in (0,1), the position is the interpolation, and the redrawn line is the position followed by the remaining waypoints, of length len - cursor; every tick moves strictly forward |
| RouteAnimator.ZeroLengthSegmentSnaps | swe30003-fe/src/components/MapComponent.tsx:252-272 | a segment between two equal waypoints ends on its first tick through the snap, never the division |
| RouteAnimator.NextPhase | swe30003-fe/src/components/MapComponent.tsx:260-272 | a tick either stays on its segment having covered at least 1/180 km more, moves to the next segment, or finishes, and it finishes only from the route's last segment |
| RouteAnimator.Walk | swe30003-fe/src/components/MapComponent.tsx:236-298 | a sequence of ticks keeps the route, never moves the cursor back, and a finished walk stays finished |
| RouteAnimator.FinishCount | swe30003-fe/src/components/MapComponent.tsx:236-243 | a run of ticks calls the finish at most once, and exactly once when it starts moving and ends finished |
| RouteAnimator.Positions | swe30003-fe/src/components/MapComponent.tsx:266-277 | a run publishes at most one position per tick, nothing once finished, and a finished walk's last published position is the route's last waypoint |
| RouteAnimator.StrideShrinksSegmentTicks | swe30003-fe/src/components/MapComponent.tsx:263-266 | an interpolating tick lowers the ticks still needed for the segment |
| RouteAnimator.TickSpendsBudget | swe30003-fe/src/components/MapComponent.tsx:260-270 | every tick that keeps the walk going lowers the route's tick budget |
| RouteAnimator.FinishesWithinBudget | swe30003-fe/src/components/MapComponent.tsx:236-298 | given as many draws as the budget, the walk finishes and calls the finish exactly once |
| RouteAnimator.RouteFinishesWithinBudget | swe30003-fe/src/components/MapComponent.tsx:232-298 | a whole route finishes within the sum over its segments of max(1, ⌈length·3600/20⌉) ticks, and a route of two or more points calls the finish exactly once |
| RouteAnimator.SegmentEndsWithinTicks | swe30003-fe/src/components/MapComponent.tsx:260-270 | a segment of length L is left within max(1, ⌈L·3600/20⌉) ticks |
| MapLayers.Draw | swe30003-fe/src/components/MapComponent.tsx:139-183 | drawing gives the layer the new line, keeps an existing layer's tint, adds a missing one with the given tint, and leaves the other layer alone |
| MapLayers.DrawIdempotent | swe30003-fe/src/components/MapComponent.tsx:146-155 | drawing the same line twice equals drawing it once |
| MapLayers.Remove | swe30003-fe/src/components/MapComponent.tsx:217-220 | the layer is gone and the other is untouched |
| MapLayers.Recolor | swe30003-fe/src/components/MapComponent.tsx:308-313 | an existing layer gets the tint, a missing one stays missing, the other is untouched |
| StageEffects.EndpointRouteShown | swe30003-fe/src/components/MapComponent.tsx:186-197 | with both endpoints known, the endpoint draw's route reply shows the route on the trip layer, green when new and in its kept tint otherwise, leaves the approach layer alone, and a repeated reply changes nothing |
| StageEffects.CleanUp | swe30003-fe/src/components/MapComponent.tsx:213-229 | the clean-up keeps exactly the layers the stage does not remove, unchanged |
| StageEffects.OnStage | swe30003-fe/src/components/MapComponent.tsx:199-364 | a render changes the stage only from `driverFound` to `driverToPickUp` with all three locations (dimming the trip route); it arms the 5000 ms dwell exactly in `driverArrivedPickUp` with all three; it removes the stage's layers and otherwise keeps every layer unless it advanced; it fetches the driver route only in `driverFound` and the stage's leg when there is one |
| StageEffects.EnterStage | swe30003-fe/src/components/MapComponent.tsx:302-306 | entering a stage keeps it, except `driverFound` with all three locations, which moves to `driverToPickUp` and requests the approach leg |
| StageEffects.DwellElapsed | swe30003-fe/src/components/MapComponent.tsx:315-327 | the dwell firing sets `pickupToDropoff` and restores the trip route's green tint if drawn |
| StageEffects.StartLeg | swe30003-fe/src/components/MapComponent.tsx:335-361 | no route: no walk and the stage stays; a route of at most one point finishes at once into the arrival stage; a longer one starts moving with the store unchanged |
| StageEffects.DriveTick | swe30003-fe/src/components/MapComponent.tsx:260-295 | a tick publishes the position as the driver location, redraws the leg's layer only on an interpolating tick, and changes the stage only on the finishing tick, to the leg's arrival |
| StageEffects.DriveAll | swe30003-fe/src/components/MapComponent.tsx:260-298 | over any run of ticks the stage stays until the walk finishes and then is the arrival stage, the endpoints, tier and price are untouched, and a finished walk leaves the driver on the route's last point |
| TripFlow.NextWalksAllStages | swe30003-fe/src/store/tripSlice.ts:11-20 | following the forward edges from `selectLocations` visits the nine stages in declaration order |
| TripFlow.TransitionsFollowTable | swe30003-fe/src/App.tsx:211-316 | every handler (from the stage whose screen offers it) and every map effect (stage entry, dwell, a leg's start on its route reply, a leg's tick) keeps the stage, takes its forward edge, or returns to `selectLocations` from a failed creation or a finished trip |
| TripFlow.LegArrivesAlongTable | swe30003-fe/src/components/MapComponent.tsx:330-364 | the stage an animated leg dispatches on finishing is the forward edge out of the stage that animated it |
| TripFlow.ArrivalRemovesLegLayer | swe30003-fe/src/components/MapComponent.tsx:213-229 | entering a leg's arrival stage removes exactly that leg's own layer |
| TripFlow.HandlersKeepSynced | swe30003-fe/src/App.tsx:102-104 | every handler keeps the search results and the store's endpoints equal |
| TripFlow.Booking | swe30003-fe/src/App.tsx:93-316 | two searches, a successful fare, the confirmations and a created ride go from the start through `selectVehicle`, `confirmRide` and `findingDriver` to `driverFound`, with the tier and price stored, the ride id kept and all three locations known |
| TripFlow.LegCompletes | swe30003-fe/src/components/MapComponent.tsx:330-364 | a leg of at least two points driven for its budget ends in its arrival stage with the driver on the route's last point and the endpoints untouched |
| TripFlow.CompletionReportedOnce | swe30003-fe/src/App.tsx:319-351 | entering `completed` removes the trip route, and any number of renders in `completed` send exactly one update |
| TripFlow.WholeTrip | swe30003-fe/src/components/MapComponent.tsx:302-364 | a successful trip observes the nine stages in table order, arms the 5000 ms dwell at the pickup, removes the approach layer, ends with the driver on the trip route's last point, and reports the ride once |

## Left out

- Haversine distance (`MapComponent.tsx:18-34`): floating-point trigonometry. It is a parameter, assumed non-negative and zero from a point to itself. All numbers are exact reals, so rounding is not modelled.
- `Math.random`, `setInterval` and `setTimeout`: the draws are inputs in [0, 1). A tick or a dwell firing is a call of the corresponding function.
- `fetch` to the directions, geocoding, price and ride services: each reply is an `Option` or a reply datatype given as input. The quote is recomputed atomically when its replies are known. Interleavings of late replies are not modelled.
- The status update's own reply: the update is fire-and-forget, and its failure only shows a message.
- Rendering: the map, markers, centring and zoom, JSX screens, toasts, console output, the driver speed read-out and the driver info card (`setDriverInfo`).
- React re-render semantics: effects re-firing on dependency changes other than the stage. In particular the dwell-arming effect also re-runs on location changes and can schedule more than one timer.
- Overlapping animations: the code never clears an earlier interval when `animateRoute` starts again, and the intervals share the cursor and route refs. The model follows one walk per leg and claims neither cancellation nor race-freedom.
- StageEffects.DwellElapsed: models one firing of one armed timer. It does not model that the timer cannot be cancelled if the trip is left before it fires.
- Geolocation failure (the error callback, `App.tsx:88`): it only logs, so there is no handler to model.
