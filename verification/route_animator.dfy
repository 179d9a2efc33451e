/** The route animator: a cursor walks a polyline segment by segment. Every
    100 ms tick adds speed/3600 km at a random speed in [20, 30) km/h; while
    the distance covered is below the segment's length the published
    position is interpolated on the segment, and once it reaches the length
    the position snaps to the segment's end and the cursor moves on. The
    great-circle distance and the random draws are parameters. */
module RouteAnimator {
  import opened Optional

  /** A waypoint as the directions service returns it: longitude first. */
  datatype Point = Point(lng: real, lat: real)

  /** What the model needs of the distance function: it is never negative and
      a point is at distance 0 from itself. */
  ghost predicate ValidMetric(dist: (Point, Point) -> real) {
    && (forall p, q :: dist(p, q) >= 0.0)
    && (forall p :: dist(p, p) == 0.0)
  }

  /** A draw of the random source: uniform in [0, 1). */
  predicate IsDraw(u: real) {
    0.0 <= u < 1.0
  }

  predicate AreDraws(draws: seq<real>) {
    forall i :: 0 <= i < |draws| ==> IsDraw(draws[i])
  }

  /** The instantaneous speed in km/h drawn on a tick. */
  function Speed(u: real): (v: real)
    requires IsDraw(u)
    ensures 20.0 <= v < 30.0
  {
    u * (30.0 - 20.0) + 20.0
  }

  /** The distance added on one tick, in km. */
  function Stride(u: real): (d: real)
    requires IsDraw(u)
    ensures 1.0 / 180.0 <= d < 1.0 / 120.0
  {
    Speed(u) / 3600.0
  }

  /** Linear interpolation between two points at fraction `f`. */
  function Lerp(from: Point, to: Point, f: real): Point {
    Point(from.lng + f * (to.lng - from.lng), from.lat + f * (to.lat - from.lat))
  }

  /** The animator's state while a segment is ticking: the route, the index of
      the active segment's first point and the distance covered on it. */
  datatype Animation = Animation(route: seq<Point>, segment: nat, traveled: real)

  function SegmentLength(a: Animation, dist: (Point, Point) -> real): real
    requires a.segment + 1 < |a.route|
  {
    dist(a.route[a.segment], a.route[a.segment + 1])
  }

  /** A ticking state: the active segment exists and the distance covered is
      either the fresh 0 or still below the segment's length. */
  ghost predicate Live(a: Animation, dist: (Point, Point) -> real) {
    && a.segment + 1 < |a.route|
    && 0.0 <= a.traveled
    && (a.traveled == 0.0 || a.traveled < SegmentLength(a, dist))
  }

  /** Either a segment is ticking, or the walk is over (the finish callback
      ran when this phase was reached). */
  datatype Phase = Moving(anim: Animation) | Finished

  ghost predicate LivePhase(p: Phase, dist: (Point, Point) -> real) {
    p.Moving? ==> Live(p.anim, dist)
  }

  /** Starting segment `segment`: if no segment is left the walk finishes at
      once, otherwise the segment starts with nothing covered. */
  function Enter(route: seq<Point>, segment: nat, ghost dist: (Point, Point) -> real): (p: Phase)
    ensures p.Finished? <==> segment >= |route| - 1
    ensures p.Moving? ==> p.anim == Animation(route, segment, 0.0) && Live(p.anim, dist)
  {
    if segment >= |route| - 1 then Finished else Moving(Animation(route, segment, 0.0))
  }

  /** Starting a walk: a route of at most one point finishes before any tick. */
  function Launch(route: seq<Point>, ghost dist: (Point, Point) -> real): (p: Phase)
    ensures p.Finished? <==> |route| <= 1
    ensures p.Moving? ==> p.anim == Animation(route, 0, 0.0) && Live(p.anim, dist)
  {
    Enter(route, 0, dist)
  }

  /** What one tick publishes: the next phase, the driver position, and the
      redrawn line (only on an interpolating tick). */
  datatype Tick = Tick(next: Phase, position: Point, line: Option<seq<Point>>)

  /** `b` is strictly further along the route than `a`. */
  predicate Ahead(b: Animation, a: Animation) {
    b.segment > a.segment || (b.segment == a.segment && b.traveled > a.traveled)
  }

  /** The phase after one tick: the covered distance grows by the tick's
      stride; reaching the segment's length enters the next segment (or
      finishes), staying below it keeps ticking the same segment. */
  function NextPhase(a: Animation, dist: (Point, Point) -> real, u: real): (p: Phase)
    requires ValidMetric(dist) && Live(a, dist) && IsDraw(u)
    ensures LivePhase(p, dist)
    ensures p.Moving? ==> p.anim.route == a.route && Ahead(p.anim, a)
    ensures p.Moving? && p.anim.segment == a.segment ==> p.anim.traveled >= a.traveled + 1.0 / 180.0
    ensures p.Moving? ==> p.anim.segment <= a.segment + 1
    ensures p.Finished? ==> a.segment + 2 == |a.route|
  {
    var covered := a.traveled + Stride(u);
    if covered >= SegmentLength(a, dist) then Enter(a.route, a.segment + 1, dist)
    else Moving(a.(traveled := covered))
  }

  /** Dividing a positive distance by a longer one gives a fraction in (0, 1). */
  lemma FractionBelowOne(x: real, y: real)
    requires 0.0 < x < y
    ensures 0.0 < x / y < 1.0
  {
    var f := x / y;
    assert f * y == x;
    if f >= 1.0 {
      assert false;
    }
    if f <= 0.0 {
      assert false;
    }
  }

  function AdvanceTick(a: Animation, dist: (Point, Point) -> real, u: real): (t: Tick)
    requires ValidMetric(dist) && Live(a, dist) && IsDraw(u)
    ensures t.next == NextPhase(a, dist, u)
    // reaching the length: exact snap to the segment's end, cursor + 1, fresh start
    ensures t.line.None? <==> a.traveled + Stride(u) >= SegmentLength(a, dist)
    ensures t.line.None? ==>
      && t.position == a.route[a.segment + 1]
      && t.next == Enter(a.route, a.segment + 1, dist)
    // below the length: same segment, fraction in (0, 1), interpolated position
    ensures t.line.Some? ==>
      && SegmentLength(a, dist) > 0.0
      && t.next == Moving(a.(traveled := a.traveled + Stride(u)))
      && 0.0 < t.next.anim.traveled / SegmentLength(a, dist) < 1.0
      && t.position == Lerp(a.route[a.segment], a.route[a.segment + 1], t.next.anim.traveled / SegmentLength(a, dist))
      && t.line.value == [t.position] + a.route[a.segment + 1..]
      && |t.line.value| == |a.route| - a.segment
  {
    var covered := a.traveled + Stride(u);
    var len := SegmentLength(a, dist);
    if covered >= len then
      Tick(NextPhase(a, dist, u), a.route[a.segment + 1], None)
    else
      var fraction := covered / len;
      assert 0.0 < fraction < 1.0 by { FractionBelowOne(covered, len); }
      var here := Lerp(a.route[a.segment], a.route[a.segment + 1], fraction);
      Tick(NextPhase(a, dist, u), here, Some([here] + a.route[a.segment + 1..]))
  }

  /** The phase a run of ticks ends in, one draw per tick. */
  function Walk(p: Phase, dist: (Point, Point) -> real, draws: seq<real>): (q: Phase)
    requires ValidMetric(dist) && LivePhase(p, dist) && AreDraws(draws)
    ensures LivePhase(q, dist)
    ensures p.Finished? ==> q.Finished?
    ensures p.Moving? && q.Moving? ==> q.anim.route == p.anim.route && q.anim.segment >= p.anim.segment
    decreases |draws|
  {
    if |draws| == 0 || p.Finished? then p
    else Walk(NextPhase(p.anim, dist, draws[0]), dist, draws[1..])
  }

  /** A zero-length segment (two equal consecutive waypoints) ends on its
      first tick through the snap, never through the division. */
  lemma ZeroLengthSegmentSnaps(a: Animation, dist: (Point, Point) -> real, u: real)
    requires ValidMetric(dist) && Live(a, dist) && IsDraw(u)
    requires a.route[a.segment] == a.route[a.segment + 1]
    ensures AdvanceTick(a, dist, u).line.None?
    ensures AdvanceTick(a, dist, u).position == a.route[a.segment + 1]
  {
    assert SegmentLength(a, dist) == 0.0;
  }

  /** How many times a run of ticks calls the finish callback, one draw per
      tick (a finished walk has cleared its timer and ignores later ticks). */
  function FinishCount(p: Phase, dist: (Point, Point) -> real, draws: seq<real>): (n: nat)
    requires ValidMetric(dist) && LivePhase(p, dist) && AreDraws(draws)
    ensures n <= 1
    ensures n == 1 <==> p.Moving? && Walk(p, dist, draws).Finished?
    decreases |draws|
  {
    if |draws| == 0 || p.Finished? then 0
    else
      var next := NextPhase(p.anim, dist, draws[0]);
      (if next.Finished? then 1 else 0) + FinishCount(next, dist, draws[1..])
  }

  /** The driver positions a run of ticks publishes, in order. */
  function Positions(p: Phase, dist: (Point, Point) -> real, draws: seq<real>): (ps: seq<Point>)
    requires ValidMetric(dist) && LivePhase(p, dist) && AreDraws(draws)
    ensures |ps| <= |draws|
    ensures p.Finished? ==> ps == []
    // the walk ends on the route's last waypoint exactly
    ensures p.Moving? && Walk(p, dist, draws).Finished? ==>
      |ps| > 0 && ps[|ps| - 1] == p.anim.route[|p.anim.route| - 1]
    decreases |draws|
  {
    if |draws| == 0 || p.Finished? then []
    else
      var t := AdvanceTick(p.anim, dist, draws[0]);
      [t.position] + Positions(t.next, dist, draws[1..])
  }

  /** The ceiling of a real. */
  function Ceil(x: real): (c: int)
    ensures x <= c as real < x + 1.0
  {
    var f := x.Floor;
    if f as real == x then f else f + 1
  }

  /** Ticks that suffice to finish a segment of length `len` with `covered`
      already behind: at least one, and ⌈(len - covered)·3600/20⌉ at the
      slowest speed. */
  function TicksLeft(len: real, covered: real): (n: nat)
    ensures n >= 1
  {
    if covered >= len then 1 else Ceil((len - covered) * 180.0)
  }

  /** Ticks that suffice for every segment from `i` on, each started fresh. */
  function RouteTicks(route: seq<Point>, dist: (Point, Point) -> real, i: nat): nat
    decreases |route| - i
  {
    if i + 1 >= |route| then 0
    else TicksLeft(dist(route[i], route[i + 1]), 0.0) + RouteTicks(route, dist, i + 1)
  }

  /** Ticks that suffice to finish the walk from a ticking state. */
  function Budget(a: Animation, dist: (Point, Point) -> real): nat
    requires a.segment + 1 < |a.route|
  {
    TicksLeft(SegmentLength(a, dist), a.traveled) + RouteTicks(a.route, dist, a.segment + 1)
  }

  /** An interpolating tick uses up at least one tick of the segment's allowance. */
  lemma {:induction false} StrideShrinksSegmentTicks(len: real, covered: real, covered': real)
    requires 0.0 <= covered && (covered == 0.0 || covered < len)
    requires covered' >= covered + 1.0 / 180.0 && covered' < len
    ensures TicksLeft(len, covered') < TicksLeft(len, covered)
  {
    var x := (len - covered) * 180.0;
    var y := (len - covered') * 180.0;
    assert y + 1.0 <= x;
    assert Ceil(y) as real < y + 1.0;
    assert x <= Ceil(x) as real;
  }

  /** Every tick that keeps the walk going spends at least one tick of the budget. */
  lemma {:induction false} TickSpendsBudget(a: Animation, dist: (Point, Point) -> real, u: real)
    requires ValidMetric(dist) && Live(a, dist) && IsDraw(u)
    ensures NextPhase(a, dist, u).Moving? ==> Budget(NextPhase(a, dist, u).anim, dist) < Budget(a, dist)
  {
    var next := NextPhase(a, dist, u);
    if next.Moving? {
      if next.anim.segment > a.segment {
        assert next.anim == Animation(a.route, a.segment + 1, 0.0);
        assert Budget(next.anim, dist) == RouteTicks(a.route, dist, a.segment + 1);
      } else {
        StrideShrinksSegmentTicks(SegmentLength(a, dist), a.traveled, next.anim.traveled);
      }
    }
  }

  /** Termination: given as many draws as the budget, the walk finishes and
      the finish callback runs exactly once. */
  lemma {:induction false} FinishesWithinBudget(a: Animation, dist: (Point, Point) -> real, draws: seq<real>)
    requires ValidMetric(dist) && Live(a, dist) && AreDraws(draws)
    requires |draws| >= Budget(a, dist)
    ensures Walk(Moving(a), dist, draws).Finished?
    decreases |draws|
  {
    var next := NextPhase(a, dist, draws[0]);
    TickSpendsBudget(a, dist, draws[0]);
    if next.Moving? {
      FinishesWithinBudget(next.anim, dist, draws[1..]);
    }
  }

  /** A whole route of N waypoints finishes within the sum over its segments
      of max(1, ⌈length·3600/20⌉) ticks. */
  lemma RouteFinishesWithinBudget(route: seq<Point>, dist: (Point, Point) -> real, draws: seq<real>)
    requires ValidMetric(dist) && AreDraws(draws)
    requires |draws| >= RouteTicks(route, dist, 0)
    ensures Walk(Launch(route, dist), dist, draws).Finished?
    ensures |route| >= 2 ==> FinishCount(Launch(route, dist), dist, draws) == 1
  {
    var p := Launch(route, dist);
    if p.Moving? {
      FinishesWithinBudget(p.anim, dist, draws);
    }
  }

  /** A single segment is left within TicksLeft ticks: afterwards the cursor
      is past it or the walk is over. */
  lemma {:induction false} SegmentEndsWithinTicks(a: Animation, dist: (Point, Point) -> real, draws: seq<real>)
    requires ValidMetric(dist) && Live(a, dist) && AreDraws(draws)
    requires |draws| >= TicksLeft(SegmentLength(a, dist), a.traveled)
    ensures var fin := Walk(Moving(a), dist, draws);
      fin.Finished? || fin.anim.segment > a.segment
    decreases |draws|
  {
    var next := NextPhase(a, dist, draws[0]);
    if next.Moving? && next.anim.segment == a.segment {
      StrideShrinksSegmentTicks(SegmentLength(a, dist), a.traveled, next.anim.traveled);
      SegmentEndsWithinTicks(next.anim, dist, draws[1..]);
    }
  }
}
