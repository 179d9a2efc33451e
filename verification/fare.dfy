/** The fare estimator: one base request for distance and duration, then one
    price request per vehicle tier, assembled into a quote that replaces the
    previous one wholesale. Replies of the price service are inputs. */
module Fare {
  import opened Optional

  /** The vehicle tiers the price service knows, in the order they are asked. */
  datatype Tier = Bike | Car | Luxury

  const Tiers: seq<Tier> := [Bike, Car, Luxury]

  /** The key the service and the store use for a tier. */
  function TierKey(t: Tier): (k: string)
    ensures |k| > 0
  {
    match t
    case Bike => "BIKE"
    case Car => "CAR"
    case Luxury => "LUXURY"
  }

  /** A trip endpoint as the price requests carry it. */
  datatype Coord = Coord(latitude: real, longitude: real)

  /** One GET of the price endpoint; `tier` is absent for the base request. */
  datatype PriceRequest = PriceRequest(pickup: Coord, dropoff: Coord, tier: Option<Tier>)

  /** The base reply: route distance in km and duration in minutes. */
  datatype BaseEstimate = BaseEstimate(distanceKm: real, durationMin: real)

  /** How one tier's price request ended: a readable ok reply (its price may
      be missing), a non-ok status (the tier gets no price), or an exception
      (the request rejected, or an ok reply without a `data` part), which
      aborts the whole recomputation. */
  datatype TierOutcome = Priced(price: Option<real>) | NotOk | Threw

  /** What the service answered to one recomputation: the base reply (absent
      when that request failed in any way) and each tier's outcome. */
  datatype FareReplies = FareReplies(
    base: Option<BaseEstimate>,
    bike: TierOutcome,
    car: TierOutcome,
    luxury: TierOutcome)

  function TierReply(replies: FareReplies, t: Tier): TierOutcome {
    match t
    case Bike => replies.bike
    case Car => replies.car
    case Luxury => replies.luxury
  }

  /** The price entry a tier's outcome gives; a non-ok reply gives none. */
  function TierPrice(replies: FareReplies, t: Tier): Option<real>
    requires !TierReply(replies, t).Threw?
  {
    match TierReply(replies, t)
    case Priced(p) => p
    case NotOk => None
  }

  /** The recomputation runs to its end: the base reply arrived and no tier
      request threw. */
  predicate Completes(replies: FareReplies) {
    replies.base.Some? && !replies.bike.Threw? && !replies.car.Threw? && !replies.luxury.Threw?
  }

  /** The quote shown to the rider: a price entry per tier once a recomputation
      has completed (none before), and the base distance and duration. */
  datatype Quote = Quote(prices: map<Tier, Option<real>>, distanceKm: Option<real>, durationMin: Option<real>)

  /** The quote before any recomputation: no tier entries at all. */
  const NoQuote: Quote := Quote(map[], None, None)

  /** How many tier requests go out: none without a base reply, otherwise the
      tiers in order up to and including the first one that throws. */
  function TiersAsked(replies: FareReplies): nat {
    if replies.base.None? then 0
    else if replies.bike.Threw? then 1
    else if replies.car.Threw? then 2
    else 3
  }

  /** The requests one recomputation issues: the base request, then, when it
      succeeded, one request per tier in the order Bike, Car, Luxury, all for
      the same pair of endpoints, stopping after a tier whose request throws. */
  function QuoteRequests(pickup: Coord, dropoff: Coord, replies: FareReplies): (r: seq<PriceRequest>)
    ensures replies.base.None? ==> |r| == 1
    ensures replies.base.Some? ==> 2 <= |r| <= 1 + |Tiers|
    ensures r[0].tier == None
    ensures forall i :: 1 <= i < |r| ==> r[i].tier == Some(Tiers[i - 1])
    ensures forall i :: 0 <= i < |r| ==> r[i].pickup == pickup && r[i].dropoff == dropoff
    // every tier asked before the last one answered without throwing
    ensures forall i :: 1 <= i < |r| - 1 ==> r[i].tier.Some? && !TierReply(replies, r[i].tier.value).Threw?
    // the requests stop early only after a tier that threw
    ensures 2 <= |r| < 1 + |Tiers| ==> TierReply(replies, Tiers[|r| - 2]).Threw?
    ensures Completes(replies) ==> |r| == 1 + |Tiers|
  {
    var base := [PriceRequest(pickup, dropoff, None)];
    base + seq(TiersAsked(replies), i requires 0 <= i < TiersAsked(replies) => PriceRequest(pickup, dropoff, Some(Tiers[i])))
  }

  /** One recomputation. A failed base request keeps the previous quote
      untouched. Once the base reply arrived its distance and duration are
      shown; a tier request that throws then leaves the previous prices in
      place, and otherwise the new prices are built from these replies alone,
      with an entry for every tier. */
  function Recompute(prev: Quote, replies: FareReplies): (r: Quote)
    ensures replies.base.None? ==> r == prev
    ensures replies.base.Some? ==>
      && r.distanceKm == Some(replies.base.value.distanceKm)
      && r.durationMin == Some(replies.base.value.durationMin)
    ensures replies.base.Some? && !Completes(replies) ==> r.prices == prev.prices
    ensures Completes(replies) ==>
      && r.prices.Keys == {Bike, Car, Luxury}
      && (forall t :: t in r.prices ==> r.prices[t] == TierPrice(replies, t))
  {
    match replies.base
    case None => prev
    case Some(b) =>
      if Completes(replies) then
        Quote(map[Bike := TierPrice(replies, Bike), Car := TierPrice(replies, Car), Luxury := TierPrice(replies, Luxury)],
              Some(b.distanceKm), Some(b.durationMin))
      else
        prev.(distanceKm := Some(b.distanceKm), durationMin := Some(b.durationMin))
  }

  /** Recomputed, not merged: once a recomputation completes, nothing of the
      previous quote survives. */
  lemma {:induction false} RecomputeForgetsPrevious(p1: Quote, p2: Quote, replies: FareReplies)
    requires Completes(replies)
    ensures Recompute(p1, replies) == Recompute(p2, replies)
  {
    var r1 := Recompute(p1, replies);
    var r2 := Recompute(p2, replies);
    assert r1.prices.Keys == r2.prices.Keys;
    assert forall t :: t in r1.prices ==> r1.prices[t] == r2.prices[t];
    assert r1.prices == r2.prices;
  }

  /** A tier's non-ok reply is local: changing one tier's answer, without any
      request throwing, changes that tier's entry and no other. */
  lemma TierFailureIsLocal(prev: Quote, replies: FareReplies, replies': FareReplies, t: Tier)
    requires Completes(replies) && Completes(replies') && replies'.base == replies.base
    requires forall u :: u != t ==> TierReply(replies', u) == TierReply(replies, u)
    ensures forall u :: u != t ==> Recompute(prev, replies').prices[u] == Recompute(prev, replies).prices[u]
    ensures Recompute(prev, replies').prices[t] == TierPrice(replies', t)
  {
  }

  /** A tier request that throws is not local: it is the last request issued
      (no later tier is asked), the new distance and duration are shown beside
      the previous prices, and every tier stays bookable exactly as before. */
  lemma {:induction false} ThrownTierKeepsPrices(prev: Quote, replies: FareReplies, pickup: Coord, dropoff: Coord, t: Tier)
    requires replies.base.Some? && TierReply(replies, t).Threw?
    ensures var r := QuoteRequests(pickup, dropoff, replies);
      forall i :: 0 <= i < |r| && r[i].tier == Some(t) ==> i == |r| - 1
    ensures Recompute(prev, replies).prices == prev.prices
    ensures Recompute(prev, replies).distanceKm == Some(replies.base.value.distanceKm)
    ensures forall u :: BookablePrice(Recompute(prev, replies), u) == BookablePrice(prev, u)
  {
    assert !Completes(replies);
  }

  /** The price a tier can be booked at: its entry must exist, hold a price,
      and be truthy (a price of 0 counts as missing). */
  function BookablePrice(q: Quote, t: Tier): (r: Option<real>)
    ensures r.Some? <==> t in q.prices && q.prices[t].Some? && q.prices[t].value != 0.0
    ensures r.Some? ==> r.value == q.prices[t].value
  {
    if t in q.prices && q.prices[t].Some? && q.prices[t].value != 0.0 then q.prices[t] else None
  }

  /** After a completed recomputation a tier is bookable exactly when its own
      price request answered with a non-zero price. */
  lemma BookableAfterRecompute(prev: Quote, replies: FareReplies, t: Tier)
    requires Completes(replies)
    ensures BookablePrice(Recompute(prev, replies), t).Some? <==>
      (TierPrice(replies, t).Some? && TierPrice(replies, t).value != 0.0)
    ensures BookablePrice(Recompute(prev, replies), t).Some? ==>
      BookablePrice(Recompute(prev, replies), t) == TierPrice(replies, t)
  {
  }
}
