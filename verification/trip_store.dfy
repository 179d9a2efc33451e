/** The shared trip record and its reducer: five nullable fields, a
    nine-valued lifecycle stage, one setter per field and a reset. */
module TripStore {
  import opened Optional

  /** A geographic position as the store keeps it; the address is optional
      (the animator publishes positions without one). */
  datatype Location = Location(latitude: real, longitude: real, address: Option<string>)

  /** The lifecycle stages, in the order a successful trip visits them. */
  datatype Stage =
    | SelectLocations
    | SelectVehicle
    | ConfirmRide
    | FindingDriver
    | DriverFound
    | DriverToPickUp
    | DriverArrivedPickUp
    | PickupToDropoff
    | Completed

  const AllStages: seq<Stage> :=
    [SelectLocations, SelectVehicle, ConfirmRide, FindingDriver, DriverFound,
     DriverToPickUp, DriverArrivedPickUp, PickupToDropoff, Completed]

  datatype TripState = TripState(
    pickupLocation: Option<Location>,
    dropoffLocation: Option<Location>,
    driverLocation: Option<Location>,
    vehicleType: Option<string>,
    price: Option<real>,
    stage: Stage)

  /** The record the application starts with and the one `ResetTrip` restores. */
  const Initial: TripState :=
    TripState(None, None, None, None, None, SelectLocations)

  /** The actions the reducer accepts, each carrying its payload. */
  datatype Action =
    | SetPickupLocation(pickup: Location)
    | SetDropoffLocation(dropoff: Location)
    | SetDriverLocation(driver: Location)
    | SetVehicleType(vehicle: string)
    | SetPrice(amount: real)
    | SetStage(next: Stage)
    | ResetTrip

  /** The six fields of the record, used to state what an action may write. */
  datatype Field = Pickup | Dropoff | Driver | Vehicle | Price | StageField

  const AllFields: set<Field> := {Pickup, Dropoff, Driver, Vehicle, Price, StageField}

  /** A field's content, whatever its type. */
  datatype FieldValue =
    | LocationValue(loc: Option<Location>)
    | TextValue(text: Option<string>)
    | AmountValue(amount: Option<real>)
    | StageValue(stage: Stage)

  function Read(s: TripState, f: Field): FieldValue {
    match f
    case Pickup => LocationValue(s.pickupLocation)
    case Dropoff => LocationValue(s.dropoffLocation)
    case Driver => LocationValue(s.driverLocation)
    case Vehicle => TextValue(s.vehicleType)
    case Price => AmountValue(s.price)
    case StageField => StageValue(s.stage)
  }

  /** The fields an action writes: a setter its own field, a reset all of them. */
  function Writes(a: Action): set<Field> {
    match a
    case SetPickupLocation(_) => {Pickup}
    case SetDropoffLocation(_) => {Dropoff}
    case SetDriverLocation(_) => {Driver}
    case SetVehicleType(_) => {Vehicle}
    case SetPrice(_) => {Price}
    case SetStage(_) => {StageField}
    case ResetTrip => AllFields
  }

  /** The value an action leaves in a field it writes. */
  function Written(a: Action, f: Field): FieldValue
    requires f in Writes(a)
  {
    match a
    case SetPickupLocation(loc) => LocationValue(Some(loc))
    case SetDropoffLocation(loc) => LocationValue(Some(loc))
    case SetDriverLocation(loc) => LocationValue(Some(loc))
    case SetVehicleType(v) => TextValue(Some(v))
    case SetPrice(p) => AmountValue(Some(p))
    case SetStage(st) => StageValue(st)
    case ResetTrip => Read(Initial, f)
  }

  /** The reducer. Every field an action writes holds that action's value
      afterwards; every other field, the stage included, is untouched. */
  function Reduce(s: TripState, a: Action): (r: TripState)
    ensures forall f :: f in Writes(a) ==> Read(r, f) == Written(a, f)
    ensures forall f :: f !in Writes(a) ==> Read(r, f) == Read(s, f)
  {
    match a
    case SetPickupLocation(loc) => s.(pickupLocation := Some(loc))
    case SetDropoffLocation(loc) => s.(dropoffLocation := Some(loc))
    case SetDriverLocation(loc) => s.(driverLocation := Some(loc))
    case SetVehicleType(v) => s.(vehicleType := Some(v))
    case SetPrice(p) => s.(price := Some(p))
    case SetStage(st) => s.(stage := st)
    case ResetTrip => Initial
  }

  /** Applies actions in order, as a run of dispatches does. */
  function ReduceAll(s: TripState, actions: seq<Action>): TripState
    decreases |actions|
  {
    if |actions| == 0 then s else ReduceAll(Reduce(s, actions[0]), actions[1..])
  }

  /** Two records that agree on every field are the same record. */
  lemma {:induction false} ReadDetermines(s: TripState, t: TripState)
    requires forall f :: Read(s, f) == Read(t, f)
    ensures s == t
  {
    assert Read(s, Pickup) == Read(t, Pickup);
    assert Read(s, Dropoff) == Read(t, Dropoff);
    assert Read(s, Driver) == Read(t, Driver);
    assert Read(s, Vehicle) == Read(t, Vehicle);
    assert Read(s, Price) == Read(t, Price);
    assert Read(s, StageField) == Read(t, StageField);
  }

  /** The initial record: every nullable field empty, stage `SelectLocations`. */
  lemma InitialIsEmpty()
    ensures Initial.pickupLocation.None? && Initial.dropoffLocation.None?
    ensures Initial.driverLocation.None? && Initial.vehicleType.None? && Initial.price.None?
    ensures Initial.stage == SelectLocations
  {
  }

  /** The nine stages are pairwise distinct and every stage is one of them. */
  lemma StagesEnumerated(st: Stage)
    ensures |AllStages| == 9
    ensures forall i, j :: 0 <= i < j < |AllStages| ==> AllStages[i] != AllStages[j]
    ensures st in AllStages
  {
  }

  /** Setting the stage and reading it back yields the value set. */
  lemma SetStageThenRead(s: TripState, st: Stage)
    ensures Reduce(s, SetStage(st)).stage == st
    ensures Read(Reduce(s, SetStage(st)), StageField) == StageValue(st)
  {
  }

  /** A reset from any record yields exactly the initial record, and a second
      reset changes nothing. */
  lemma {:induction false} ResetRestoresInitial(s: TripState)
    ensures Reduce(s, ResetTrip) == Initial
    ensures Reduce(Reduce(s, ResetTrip), ResetTrip) == Reduce(s, ResetTrip)
  {
    var r := Reduce(s, ResetTrip);
    forall f ensures Read(r, f) == Read(Initial, f) {
      assert f in Writes(ResetTrip);
    }
    ReadDetermines(r, Initial);
  }

  /** Actions that write disjoint fields commute. */
  lemma {:induction false} DisjointActionsCommute(s: TripState, a: Action, b: Action)
    requires Writes(a) !! Writes(b)
    ensures Reduce(Reduce(s, a), b) == Reduce(Reduce(s, b), a)
  {
    var ab := Reduce(Reduce(s, a), b);
    var ba := Reduce(Reduce(s, b), a);
    forall f ensures Read(ab, f) == Read(ba, f) {
      if f in Writes(a) {
        assert f !in Writes(b);
      } else if f in Writes(b) {
      } else {
      }
    }
    ReadDetermines(ab, ba);
  }

  /** A run of actions none of which writes the stage (for instance the
      animator's stream of driver positions) leaves the stage as it was. */
  lemma {:induction false} StageSurvivesNonStageActions(s: TripState, actions: seq<Action>)
    requires forall i :: 0 <= i < |actions| ==> StageField !in Writes(actions[i])
    ensures ReduceAll(s, actions).stage == s.stage
    decreases |actions|
  {
    if |actions| > 0 {
      var s' := Reduce(s, actions[0]);
      assert Read(s', StageField) == Read(s, StageField);
      StageSurvivesNonStageActions(s', actions[1..]);
    }
  }

  /** The driver-position writes alone: after any number of them the stage is
      unchanged and the driver field holds the last position written. */
  lemma {:induction false} DriverWritesKeepStage(s: TripState, positions: seq<Location>)
    ensures ReduceAll(s, seq(|positions|, i requires 0 <= i < |positions| => SetDriverLocation(positions[i]))).stage == s.stage
    ensures |positions| > 0 ==>
      ReduceAll(s, seq(|positions|, i requires 0 <= i < |positions| => SetDriverLocation(positions[i]))).driverLocation
        == Some(positions[|positions| - 1])
    decreases |positions|
  {
    var acts := seq(|positions|, i requires 0 <= i < |positions| => SetDriverLocation(positions[i]));
    if |positions| > 0 {
      var s' := Reduce(s, acts[0]);
      var rest := positions[1..];
      var restActs := seq(|rest|, i requires 0 <= i < |rest| => SetDriverLocation(rest[i]));
      assert acts[1..] == restActs;
      DriverWritesKeepStage(s', rest);
      if |rest| == 0 {
        assert ReduceAll(s', restActs) == s';
      }
    }
  }
}
