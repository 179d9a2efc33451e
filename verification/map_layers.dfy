/** The two route layers the map shows, keyed by id: each has a tint and the
    line it currently draws. Drawing is an upsert; removal and recolouring act
    only on a layer that exists. */
module MapLayers {
  import opened RouteAnimator

  /** The layers "driver-to-pickup" and "pickup-to-dropoff". */
  datatype LayerId = DriverToPickupLine | PickupToDropoffLine

  /** The three line colours: the trip route (#8FD14F), the driver's approach
      (#FF5733), and the dimmed trip route while the driver approaches (#808080). */
  datatype Tint = RouteGreen | ApproachOrange | PendingGrey

  datatype Layer = Layer(tint: Tint, line: seq<Point>)

  type Layers = map<LayerId, Layer>

  /** Every layer other than `id` is as it was. */
  predicate OthersKept(before: Layers, after: Layers, id: LayerId) {
    forall other :: other != id ==>
      (other in after <==> other in before) && (other in before ==> after[other] == before[other])
  }

  /** Drawing a line: an existing layer gets the new line and keeps its tint;
      a missing one is added with the given tint. */
  function Draw(layers: Layers, id: LayerId, tint: Tint, line: seq<Point>): (r: Layers)
    ensures id in r && r[id].line == line
    ensures r[id].tint == (if id in layers then layers[id].tint else tint)
    ensures OthersKept(layers, r, id)
  {
    if id in layers then layers[id := layers[id].(line := line)] else layers[id := Layer(tint, line)]
  }

  /** Drawing the same line twice is the same as drawing it once, and a
      redraw never changes a layer's tint. */
  lemma DrawIdempotent(layers: Layers, id: LayerId, tint: Tint, tint': Tint, line: seq<Point>)
    ensures Draw(Draw(layers, id, tint, line), id, tint', line) == Draw(layers, id, tint, line)
  {
  }

  function Remove(layers: Layers, id: LayerId): (r: Layers)
    ensures id !in r
    ensures OthersKept(layers, r, id)
  {
    layers - {id}
  }

  /** Changing the tint of a layer that exists; nothing otherwise. */
  function Recolor(layers: Layers, id: LayerId, tint: Tint): (r: Layers)
    ensures r.Keys == layers.Keys
    ensures id in r ==> r[id] == layers[id].(tint := tint)
    ensures OthersKept(layers, r, id)
  {
    if id in layers then layers[id := layers[id].(tint := tint)] else layers
  }
}
