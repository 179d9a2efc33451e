/** The one-shot guard around the terminal "ride completed" status update:
    the update is sent on a render that shows stage `Completed` with a ride
    id while the guard is down, the guard is raised before the request goes
    out, and it is lowered whenever a render shows `SelectLocations`. */
module CompletionLatch {
  import opened Optional
  import opened TripStore

  /** What one render exposes to the two guard effects. */
  datatype Render = Render(stage: Stage, rideId: Option<string>)

  /** The body of the PUT that closes a ride. */
  datatype StatusUpdate = StatusUpdate(rideId: string, status: string)

  const CompletedStatus: string := "COMPLETED"

  /** Result of the effects of one render: the guard afterwards and the update
      sent, if any. */
  datatype Reaction = Reaction(raised: bool, sent: Option<StatusUpdate>)

  /** A ride id is usable when present and non-empty (the empty string is falsy). */
  predicate HasRide(rideId: Option<string>) {
    rideId.Some? && rideId.value != ""
  }

  /** The completion effect followed by the reset effect, in the order the
      application declares them. */
  function React(raised: bool, r: Render): (out: Reaction)
    ensures out.sent.Some? <==> r.stage == Completed && HasRide(r.rideId) && !raised
    ensures out.sent.Some? ==> out.sent.value == StatusUpdate(r.rideId.value, CompletedStatus)
    ensures out.sent.Some? ==> out.raised
    ensures !out.raised <==> (r.stage == SelectLocations || (!raised && out.sent.None?))
  {
    var fire := r.stage == Completed && HasRide(r.rideId) && !raised;
    var afterCompletion := raised || fire;
    var afterReset := if r.stage == SelectLocations then false else afterCompletion;
    Reaction(afterReset, if fire then Some(StatusUpdate(r.rideId.value, CompletedStatus)) else None)
  }

  /** The guard after a run of renders. */
  function GuardAfter(raised: bool, renders: seq<Render>): bool
    decreases |renders|
  {
    if |renders| == 0 then raised
    else GuardAfter(React(raised, renders[0]).raised, renders[1..])
  }

  /** The number of status updates a run of renders sends. */
  function UpdatesSent(raised: bool, renders: seq<Render>): nat
    decreases |renders|
  {
    if |renders| == 0 then 0
    else
      var out := React(raised, renders[0]);
      (if out.sent.Some? then 1 else 0) + UpdatesSent(out.raised, renders[1..])
  }

  predicate AvoidsSelectLocations(renders: seq<Render>) {
    forall i :: 0 <= i < |renders| ==> renders[i].stage != SelectLocations
  }

  /** A raised guard stays raised, and nothing is sent, until a render shows
      `SelectLocations`. */
  lemma {:induction false} RaisedGuardBlocks(renders: seq<Render>)
    requires AvoidsSelectLocations(renders)
    ensures UpdatesSent(true, renders) == 0
    ensures GuardAfter(true, renders)
    decreases |renders|
  {
    if |renders| > 0 {
      RaisedGuardBlocks(renders[1..]);
    }
  }

  /** However many times the application re-renders in `Completed` (or any
      stage other than `SelectLocations`), at most one update is sent. */
  lemma {:induction false} AtMostOneUpdate(raised: bool, renders: seq<Render>)
    requires AvoidsSelectLocations(renders)
    ensures UpdatesSent(raised, renders) <= 1
    ensures raised ==> UpdatesSent(raised, renders) == 0
    decreases |renders|
  {
    if |renders| > 0 {
      var out := React(raised, renders[0]);
      if out.sent.Some? {
        RaisedGuardBlocks(renders[1..]);
      } else {
        AtMostOneUpdate(out.raised, renders[1..]);
      }
    }
  }

  /** A render in `SelectLocations` lowers the guard whatever came before, so
      the next completed ride with an id is reported again. */
  lemma {:induction false} ResetRearms(raised: bool, before: seq<Render>, rideId: string)
    requires rideId != ""
    ensures var g := GuardAfter(raised, before + [Render(SelectLocations, None)]);
      !g && React(g, Render(Completed, Some(rideId))).sent == Some(StatusUpdate(rideId, CompletedStatus))
    decreases |before|
  {
    if |before| == 0 {
      assert before + [Render(SelectLocations, None)] == [Render(SelectLocations, None)];
    } else {
      assert (before + [Render(SelectLocations, None)])[1..] == before[1..] + [Render(SelectLocations, None)];
      ResetRearms(React(raised, before[0]).raised, before[1..], rideId);
    }
  }
}
