/** What every ride and the ride table keep, and that every step of the cascade keeps it. */
module MarketplaceInvariants {
  import opened Wrappers
  import opened Lifecycle
  import opened OfferLog
  import opened RidePricing
  import opened Settlement
  import opened Marketplace

  // --- Offers -----------------------------------------------------------------------------------

  /** Offers are numbered from one, only the last can be open, and a driver is asked again only
      after having accepted. */
  predicate OffersInOrder(o: seq<OfferRow>) {
    && (forall i :: 0 <= i < |o| ==> o[i].attempt == i + 1)
    && (forall i :: 0 <= i < |o| - 1 ==> o[i].result != Sent)
    && (forall i, j :: 0 <= i < j < |o| && o[i].driver == o[j].driver ==> o[i].result == Taken)
  }

  /** Exactly one offer is open, the last one, and it is d's. */
  predicate OpenFor(o: seq<OfferRow>, d: int) {
    |o| > 0 && o[|o| - 1].result == Sent && o[|o| - 1].driver == d
  }

  function Releases(claims: seq<ClaimRow>): nat {
    if claims == [] then 0
    else Releases(claims[..|claims| - 1]) + if claims[|claims| - 1].event == ClaimReleased then 1 else 0
  }

  function Accepts(o: seq<OfferRow>): nat {
    if o == [] then 0 else Accepts(o[..|o| - 1]) + if o[|o| - 1].result == Taken then 1 else 0
  }

  predicate OfferInv(r: Ride, cfg: Config) {
    var o := Offers(r.log);
    && OffersInOrder(o)
    && Accepts(o) <= Releases(r.claims) + (if r.driver.Some? then 1 else 0)
    && |o| == r.attempts
    && (!cfg.sequential ==> o == [])
    && (r.status != Cancelled && r.target.None? ==> NoOpenOffer(o))
    && (r.status != Cancelled && r.target.Some? ==>
          InPool(r) && OpenFor(o, r.target.value) && r.expires.Some?)
    && r.attempts <= cfg.maxAttempts + Releases(r.claims)
    && (InPool(r) && r.target.None? ==> r.attempts < cfg.maxAttempts + Releases(r.claims))
  }

  // --- Status and timestamps --------------------------------------------------------------------

  /** The status as the timestamps tell it. */
  function StatusFromTimes(r: Ride): RideStatus {
    if r.cancelledAt.Some? then Cancelled
    else if r.completedAt.Some? then Completed
    else if r.startedAt.Some? then InProgress
    else if r.arrivedAt.Some? then DriverArrived
    else if r.acceptedAt.Some? then Accepted
    else Requested
  }

  /** A later timestamp is set only after the earlier one, and not before it. */
  predicate After(earlier: Option<int>, later: Option<int>) {
    later.Some? ==> earlier.Some? && earlier.value <= later.value
  }

  predicate TimeInv(r: Ride, now: int) {
    && r.status == StatusFromTimes(r)
    && (r.driver.Some? <==> r.acceptedAt.Some?)
    && !(r.completedAt.Some? && r.cancelledAt.Some?)
    && r.createdAt <= now
    && After(Some(r.createdAt), r.acceptedAt)
    && After(r.acceptedAt, r.arrivedAt) && After(r.arrivedAt, r.startedAt) && After(r.startedAt, r.completedAt)
    && (r.acceptedAt.Some? ==> r.acceptedAt.value <= now)
    && (r.arrivedAt.Some? ==> r.arrivedAt.value <= now)
    && (r.startedAt.Some? ==> r.startedAt.value <= now)
    && (r.completedAt.Some? ==> r.completedAt.value <= now)
    && (r.cancelledAt.Some? ==>
          r.createdAt <= r.cancelledAt.value <= now
          && (r.acceptedAt.Some? ==> r.acceptedAt.value <= r.cancelledAt.value)
          && (r.arrivedAt.Some? ==> r.arrivedAt.value <= r.cancelledAt.value)
          && (r.startedAt.Some? ==> r.startedAt.value <= r.cancelledAt.value))
  }

  // --- Claims -----------------------------------------------------------------------------------

  datatype Holding = Free | HeldBy(driver: int) | Broken

  function Replayed(h: Holding, row: ClaimRow): Holding {
    match row.event
    case ClaimWon => if h == Free then HeldBy(row.driver) else Broken
    case ClaimReleased => if h == HeldBy(row.driver) then Free else Broken
    case _ => h
  }

  /** Who holds the ride according to its claim rows; Broken when wins and releases do not alternate. */
  function Replay(claims: seq<ClaimRow>): Holding {
    if claims == [] then Free else Replayed(Replay(claims[..|claims| - 1]), claims[|claims| - 1])
  }

  predicate ClaimInv(r: Ride) {
    Replay(r.claims) ==
    if r.status == Cancelled then Free
    else match r.driver case None => Free case Some(d) => HeldBy(d)
  }

  // --- Money ------------------------------------------------------------------------------------

  predicate MoneyInv(r: Ride) {
    && Balanced(r.pricing)
    && (r.pricing.locked <==> r.status == Completed)
    && (r.settlement != [] <==> r.status == Completed)
    && (r.status == Completed ==> r.settlement == EntriesFor(r.pricing))
    && r.charges == (if r.status == Completed then [Charge(r.pricing.customerTotal)] else [])
  }

  // --- The whole ride and the table -------------------------------------------------------------

  predicate RideInv(r: Ride, cfg: Config, now: int) {
    OfferInv(r, cfg) && TimeInv(r, now) && ClaimInv(r) && MoneyInv(r)
  }

  ghost predicate OneActiveRideEach(rides: seq<Ride>) {
    forall i, j, d :: 0 <= i < |rides| && 0 <= j < |rides| && Holds(rides[i], d) && Holds(rides[j], d) ==> i == j
  }

  ghost predicate Inv(s: State, cfg: Config) {
    && (forall i :: 0 <= i < |s.rides| ==> RideInv(s.rides[i], cfg, s.clock))
    && OneActiveRideEach(s.rides)
  }

  // --- Appending to the claim ledger ------------------------------------------------------------

  lemma ReplayAppend(claims: seq<ClaimRow>, row: ClaimRow)
    ensures Replay(claims + [row]) == Replayed(Replay(claims), row)
    ensures Releases(claims + [row]) == Releases(claims) + if row.event == ClaimReleased then 1 else 0
  {
    var all := claims + [row];
    assert all[..|all| - 1] == claims;
  }

  lemma ReplayAppendTwo(claims: seq<ClaimRow>, a: ClaimRow, b: ClaimRow)
    ensures Replay(claims + [a, b]) == Replayed(Replayed(Replay(claims), a), b)
    ensures Releases(claims + [a, b]) ==
            Releases(claims) + (if a.event == ClaimReleased then 1 else 0) + (if b.event == ClaimReleased then 1 else 0)
  {
    ReplayAppend(claims, a);
    ReplayAppend(claims + [a], b);
    assert claims + [a, b] == claims + [a] + [b];
  }

  // --- Offers: one lemma a step -----------------------------------------------------------------

  lemma ScanOffers(r: Ride, c: Context, now: int)
    ensures Offers(Scan(r, c, now).log) == Offers(r.log)
    ensures Candidates(Scan(r, c, now), c) == Candidates(r, c)
  {
    ScanKeepsOffers(r.log, SkipRows(c.pool, r.log, c, now), c);
  }

  lemma AppendOffer(log: seq<OfferRow>, row: OfferRow)
    requires row.result != Skipped
    ensures Offers(log + [row]) == Offers(log) + [row]
  {
    OffersConcat(log, [row]);
    assert Offers([row]) == [row];
  }

  /** A new offer is numbered next, opens for its driver, and repeats only a driver who had accepted. */
  lemma OfferNextKeeps(id: nat, r: Ride, c: Context, cfg: Config, now: int)
    requires cfg.sequential && InPool(r) && r.target.None?
    requires OffersInOrder(Offers(r.log)) && NoOpenOffer(Offers(r.log)) && |Offers(r.log)| == r.attempts
    requires r.attempts < cfg.maxAttempts + Releases(r.claims) && Accepts(Offers(r.log)) <= Releases(r.claims)
    ensures OfferInv(OfferNext(id, r, c, cfg, now), cfg)
  {
    ScanOffers(r, c, now);
    if Candidates(r, c) != [] {
      var d := Nearest(Candidates(r, c), id, c.distance);
      assert Eligible(r.log, c, d);
      OfferKeeps(r, Scan(r, c, now), d, cfg, now);
    }
  }

  lemma OfferKeeps(before: Ride, r: Ride, d: int, cfg: Config, now: int)
    requires r == before.(log := r.log) && Offers(r.log) == Offers(before.log)
    requires cfg.sequential && InPool(r) && !Tried(before.log, d)
    requires OffersInOrder(Offers(before.log)) && NoOpenOffer(Offers(before.log)) && |Offers(before.log)| == r.attempts
    requires r.attempts < cfg.maxAttempts + Releases(r.claims) && Accepts(Offers(before.log)) <= Releases(r.claims)
    ensures OfferInv(Offer(r, d, cfg, now), cfg)
  {
    var row := OfferRow(d, now, Sent, r.attempts + 1, None, None);
    NewDriverIsUntried(before.log, d, row);
    var o := Offers(before.log) + [row];
    AppendOffer(r.log, row);
    assert Accepts(o) == Accepts(Offers(before.log)) by {
      assert o[..|o| - 1] == Offers(before.log);
    }
    hide Offers, Accepts, Tried;
    assert Offers(Offer(r, d, cfg, now).log) == o && OpenFor(o, d);
  }

  lemma NewDriverIsUntried(log: seq<OfferRow>, d: int, row: OfferRow)
    requires OffersInOrder(Offers(log)) && NoOpenOffer(Offers(log)) && !Tried(log, d)
    requires row.driver == d && row.attempt == |Offers(log)| + 1
    ensures OffersInOrder(Offers(log) + [row])
  {
    var o := Offers(log);
    TriedOfOffers(log, d);
    forall i | 0 <= i < |o| && o[i].driver == d ensures o[i].result == Taken {
      OfferIsLogged(log, i);
      assert !RulesOut(o[i].result);
    }
  }

  lemma CloseLast(o: seq<OfferRow>, d: int, result: OfferResult, now: int)
    requires OffersInOrder(o)
    ensures Close(o, d, result, now) ==
            if OpenFor(o, d) then o[|o| - 1 := o[|o| - 1].(result := result, respondedAt := Some(now))] else o
  {
    if o != [] && !OpenFor(o, d) {
      var n := |o| - 1;
      CloseNothing(o[..n], d, result, now);
      assert o == o[..n] + [o[n]];
    }
  }

  /** Closing the open offer leaves none open and the rest in order. */
  lemma CloseOpenOffer(log: seq<OfferRow>, d: int, result: OfferResult, now: int)
    requires OffersInOrder(Offers(log)) && result != Skipped && result != Sent
    ensures OffersInOrder(Offers(Close(log, d, result, now)))
    ensures |Offers(Close(log, d, result, now))| == |Offers(log)|
    ensures OpenFor(Offers(log), d) || NoOpenOffer(Offers(log)) ==> NoOpenOffer(Offers(Close(log, d, result, now)))
    ensures Accepts(Offers(Close(log, d, result, now))) <= Accepts(Offers(log)) + if result == Taken then 1 else 0
  {
    hide Offers, Close;
    CloseOfOffers(log, d, result, now);
    CloseLast(Offers(log), d, result, now);
    var o := Offers(log);
    if OpenFor(o, d) {
      assert Close(o, d, result, now)[..|o| - 1] == o[..|o| - 1];
    }
  }

  lemma StartDispatchKeeps(id: nat, r: Ride, c: Context, cfg: Config, now: int)
    requires OfferInv(r, cfg)
    ensures OfferInv(StartDispatch(id, r, c, cfg, now), cfg)
  {
    if cfg.sequential && InPool(r) && r.target.None? {
      OfferNextKeeps(id, r, c, cfg, now);
    }
  }

  /** After the open offer is closed, the cascade either ends the ride or leaves its offers in order. */
  lemma AdvanceKeeps(id: nat, r: Ride, d: int, result: OfferResult, c: Context, cfg: Config, now: int)
    requires OfferInv(r, cfg) && (result == OfferResult.Declined || result == TimedOut)
    requires r.target == Some(d) || HasOpenOffer(r.log, d)
    ensures OfferInv(Advance(id, CloseOffer(r, d, result, now), c, cfg, now), cfg)
  {
    var closed := CloseOffer(r, d, result, now);
    CloseOpenOffer(r.log, d, result, now);
    hide Offers, Close, Accepts;
    if r.status != Cancelled {
      OpenOfferIsTheTarget(r, d, cfg);
      if closed.attempts < cfg.maxAttempts {
        OfferNextKeeps(id, closed.(target := None, expires := None), c, cfg, now);
      }
    }
  }

  /** Outside cancelled rides a driver with an open offer is the target. */
  lemma OpenOfferIsTheTarget(r: Ride, d: int, cfg: Config)
    requires OfferInv(r, cfg) && r.status != Cancelled
    requires r.target == Some(d) || HasOpenOffer(r.log, d)
    ensures r.target == Some(d) && InPool(r)
  {
    if HasOpenOffer(r.log, d) {
      var i :| 0 <= i < |r.log| && r.log[i].driver == d && r.log[i].result == Sent;
      OfferIsListed(r.log, i);
    }
  }
}
