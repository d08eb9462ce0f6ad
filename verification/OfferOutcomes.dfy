/** Who is asked next, until when, and which offers a pass over the table leaves alone
    (backend/services/ride_dispatch_cascade.py), told by the columns of the tables alone. */
module OfferOutcomes {
  import opened Wrappers
  import opened Lifecycle
  import opened OfferLog
  import opened Pricing
  import opened Marketplace
  import opened MarketplaceInvariants
  import opened MarketplaceSteps

  predicate Underway(status: RideStatus) {
    status == Accepted || status == DriverArrived || status == InProgress
  }

  predicate OnARide(s: State, d: int) {
    exists i :: 0 <= i < |s.rides| && s.rides[i].driver == Some(d) && Underway(s.rides[i].status)
  }

  predicate Asked(log: seq<OfferRow>, d: int) {
    exists i :: 0 <= i < |log| && log[i].driver == d
                && (log[i].result == Sent || log[i].result == OfferResult.Declined || log[i].result == TimedOut)
  }

  /** A driver who may be asked: an active account, approved, online with a fresh position, present, on no
      ride, and with no offer of this ride but those he accepted. */
  predicate Askable(s: State, env: Env, log: seq<OfferRow>, d: int) {
    && d in env.pool && d in env.online && d in env.present
    && d in s.approvals && s.approvals[d] == Approved
    && !OnARide(s, d) && !Asked(log, d)
  }

  /** d is no farther from the pickup than e: a known distance is less than an unknown one, and of two equal
      ones the lower id comes first. */
  predicate NoFarther(env: Env, id: nat, d: int, e: int) {
    && ((id, e) in env.distance ==>
          && (id, d) in env.distance && env.distance[(id, d)] <= env.distance[(id, e)]
          && (env.distance[(id, d)] == env.distance[(id, e)] ==> d <= e))
    && ((id, d) !in env.distance && (id, e) !in env.distance ==> d <= e)
  }

  ghost predicate NearestAskable(s: State, env: Env, id: nat, log: seq<OfferRow>, d: int) {
    Askable(s, env, log, d) && forall e :: Askable(s, env, log, e) ==> NoFarther(env, id, d, e)
  }

  ghost predicate SomebodyAskable(s: State, env: Env, log: seq<OfferRow>) {
    exists e :: Askable(s, env, log, e)
  }

  /** The ride has been offered once more: to the nearest driver who may be asked, until the timeout, with
      the next attempt number. */
  ghost predicate OfferedToTheNearest(s: State, env: Env, id: nat, r: Ride, t: Ride, cfg: Config, now: int) {
    && t.status == Requested && t.driver.None?
    && t.target.Some? && NearestAskable(s, env, id, r.log, t.target.value)
    && t.expires == Some(now + cfg.offerTimeout) && t.attempts == r.attempts + 1
    && t.log != [] && t.log[|t.log| - 1] == OfferRow(t.target.value, now, Sent, r.attempts + 1, None, None)
  }

  ghost predicate NotOffered(r: Ride, t: Ride) {
    t.status == Requested && t.driver.None? && t.target.None? && t.attempts == r.attempts
  }

  ghost predicate OfferedIfPossible(s: State, env: Env, id: nat, r: Ride, t: Ride, cfg: Config, now: int) {
    if SomebodyAskable(s, env, r.log) then OfferedToTheNearest(s, env, id, r, t, cfg, now) else NotOffered(r, t)
  }

  lemma AskableAreTheCandidates(s: State, env: Env, r: Ride, d: int)
    ensures Askable(s, env, r.log, d) <==> d in Candidates(r, DispatchContext(s, env))
  {
    assert OnARide(s, d) <==> HasActiveRide(s.rides, d) by {
      if i :| 0 <= i < |s.rides| && Holds(s.rides[i], d) { assert OnARide(s, d); }
    }
    assert Asked(r.log, d) <==> Tried(r.log, d);
  }

  lemma NearestIsNoFarther(env: Env, id: nat, d: int, e: int)
    ensures AtLeastAsNear(d, e, id, env.distance) <==> NoFarther(env, id, d, e)
  {
  }

  /** The offer step itself: the nearest driver who may be asked gets the ride, and nobody if there is none. */
  lemma NextOfferGoesToTheNearest(s: State, id: nat, r: Ride, env: Env, cfg: Config, now: int)
    requires r.status == Requested && r.driver.None? && r.target.None?
    ensures OfferedIfPossible(s, env, id, r, OfferNext(id, r, DispatchContext(s, env), cfg, now), cfg, now)
  {
    var c := DispatchContext(s, env);
    var ds := Candidates(r, c);
    forall e ensures Askable(s, env, r.log, e) <==> e in ds {
      AskableAreTheCandidates(s, env, r, e);
    }
    hide Askable, Candidates, DispatchContext, NoFarther, AtLeastAsNear;
    if ds != [] {
      assert Askable(s, env, r.log, ds[0]);
      var d := Nearest(ds, id, env.distance);
      forall e | Askable(s, env, r.log, e) ensures NoFarther(env, id, d, e) {
        NearestIsNoFarther(env, id, d, e);
        assert AtLeastAsNear(d, e, id, c.distance);
      }
      assert NearestAskable(s, env, id, r.log, d);
    }
  }

  /** Starting dispatch of a ride in the pool without a target. */
  lemma FirstOfferGoesToTheNearest(s: State, id: nat, env: Env, cfg: Config, now: int)
    requires cfg.sequential && id < |s.rides|
    requires s.rides[id].status == Requested && s.rides[id].driver.None? && s.rides[id].target.None?
    ensures var t := StartDispatch(id, s.rides[id], DispatchContext(s, env), cfg, now);
            OfferedIfPossible(s, env, id, s.rides[id], t, cfg, now)
  {
    NextOfferGoesToTheNearest(s, id, s.rides[id], env, cfg, now);
  }

  /** Dispatch is not started in the open-board mode, for a ride out of the pool, or over another offer. */
  lemma OtherRidesAreNotOffered(s: State, id: nat, env: Env, cfg: Config, now: int)
    requires id < |s.rides|
    requires var r := s.rides[id];
             !cfg.sequential || r.status != Requested || r.driver.Some? || r.target.Some?
    ensures StartDispatch(id, s.rides[id], DispatchContext(s, env), cfg, now) == s.rides[id]
  {
  }

  /** A ride as it is created, quoted without waiting time or fees. */
  predicate Pristine(r: Ride, customer: Option<int>, distanceKm: real, duration: int, p: Policy, now: int) {
    && r.customer == customer && r.distanceKm == distanceKm && r.duration == duration
    && r.createdAt == now && r.claims == [] && r.settlement == [] && r.charges == []
    && !r.pricing.locked && r.pricing.policyId == p.id
    && r.pricing.shareable == FareComponents(distanceKm, duration, 0, p).shareable
    && r.pricing.serviceFee == p.serviceFee
    && r.pricing.tip == r.pricing.toll == r.pricing.tax == 0
  }

  /** A new ride is quoted, joins the pool and is offered at once; the other rides stay. */
  lemma CreatedRideIsOffered(
    s: State, customer: Option<int>, km: real, minutes: int, p: Policy, env: Env, cfg: Config, now: int)
    requires Sound(p)
    ensures var id, t := |s.rides|, Create(s, customer, km, minutes, p, env, cfg, now);
            && |t.rides| == id + 1 && t.rides[..id] == s.rides
            && Pristine(t.rides[id], customer, km, minutes, p, now)
            && (cfg.sequential ==>
                  OfferedIfPossible(s, env, id, NewRide(customer, km, minutes, p, now), t.rides[id], cfg, now))
            && (!cfg.sequential ==> t.rides[id] == NewRide(customer, km, minutes, p, now))
            && NewRide(customer, km, minutes, p, now).log == [] && NewRide(customer, km, minutes, p, now).attempts == 0
  {
    var id, r := |s.rides|, NewRide(customer, km, minutes, p, now);
    var added := s.(rides := s.rides + [r]);
    NewRideIsPristine(customer, km, minutes, p, now);
    SameBusyWithANewRide(s, r);
    assert DispatchContext(added, env) == DispatchContext(s, env);
    if cfg.sequential {
      NextOfferGoesToTheNearest(s, id, r, env, cfg, now);
    }
    hide OfferedIfPossible;
  }

  lemma NewRideIsPristine(customer: Option<int>, km: real, minutes: int, p: Policy, now: int)
    requires Sound(p)
    ensures Pristine(NewRide(customer, km, minutes, p, now), customer, km, minutes, p, now)
  {
    FareMonotone(km, km, minutes, minutes, 0, 0, p);
    hide FareComponents;
  }

  lemma SameBusyWithANewRide(s: State, r: Ride)
    requires r.driver.None?
    ensures BusyDrivers(s.rides + [r]) == BusyDrivers(s.rides)
  {
    var all := s.rides + [r];
    forall d ensures HasActiveRide(all, d) <==> HasActiveRide(s.rides, d) {
      if i :| 0 <= i < |s.rides| && Holds(s.rides[i], d) { assert Holds(all[i], d); }
    }
  }

  // --- After an offer has failed ----------------------------------------------------------------

  lemma ClosingAsksNobodyElse(log: seq<OfferRow>, d: int, result: OfferResult, now: int, e: int)
    requires result == OfferResult.Declined || result == TimedOut
    ensures Asked(Close(log, d, result, now), e) <==> Asked(log, e)
  {
    if HasOpenOffer(log, d) {
      var i := LatestOpenRow(log, d);
      CloseChangesTheLastOpenRow(log, d, i, result, now);
      var closed := Close(log, d, result, now);
      if k :| 0 <= k < |log| && log[k].driver == e && RulesOut(log[k].result) {
        assert closed[k].driver == e && RulesOut(closed[k].result);
      }
    } else {
      CloseWithoutAnOpenRow(log, d, result, now);
    }
  }

  lemma {:induction false} LatestOpenRow(log: seq<OfferRow>, d: int) returns (i: nat)
    requires HasOpenOffer(log, d)
    ensures LastOpenRow(log, d, i)
  {
    i := |log| - 1;
    if !(log[i].driver == d && log[i].result == Sent) {
      var k :| 0 <= k < |log| && log[k].driver == d && log[k].result == Sent;
      assert log[..|log| - 1][k] == log[k];
      i := LatestOpenRow(log[..|log| - 1], d);
    }
  }

  /** The driver's open row carries this result and time now. */
  predicate AnsweredRow(r: Ride, t: Ride, d: int, result: OfferResult, now: int) {
    exists i :: 0 <= i < |r.log| && i < |t.log| && LastOpenRow(r.log, d, i)
                && t.log[i] == r.log[i].(result := result, respondedAt := Some(now))
  }

  /** What becomes of a ride whose offer has failed. */
  ghost predicate GoesOn(
    s: State, env: Env, id: nat, r: Ride, t: Ride, d: int, result: OfferResult, cfg: Config, now: int)
  {
    && AnsweredRow(r, t, d, result, now)
    && if r.attempts >= cfg.maxAttempts then
         t.status == Cancelled && t.cancelledAt == Some(now) && t.target.None? && t.expires.None?
       else
         OfferedIfPossible(s, env, id, r, t, cfg, now) && (t.target.None? ==> t.expires.None?)
  }

  lemma FailedOfferGoesOn(
    s: State, id: nat, r: Ride, d: int, result: OfferResult, env: Env, cfg: Config, now: int)
    requires OfferInv(r, cfg) && r.status == Requested && r.driver.None? && r.target == Some(d)
    requires result == OfferResult.Declined || result == TimedOut
    ensures var t := Advance(id, CloseOffer(r, d, result, now), DispatchContext(s, env), cfg, now);
            GoesOn(s, env, id, r, t, d, result, cfg, now)
  {
    OpenOfferIsLogged(r, d, cfg);
    var i := LatestOpenRow(r.log, d);
    CloseChangesTheLastOpenRow(r.log, d, i, result, now);
    var closed := CloseOffer(r, d, result, now);
    var freed := closed.(target := None, expires := None);
    var t := Advance(id, closed, DispatchContext(s, env), cfg, now);
    assert closed.log <= t.log;
    assert AnsweredRow(r, t, d, result, now);
    if r.attempts < cfg.maxAttempts {
      NextOfferGoesToTheNearest(s, id, freed, env, cfg, now);
      SameAskable(s, env, r, d, result, now);
      hide Askable, Asked, Close, DispatchContext;
      assert SomebodyAskable(s, env, freed.log) <==> SomebodyAskable(s, env, r.log);
      assert freed.attempts == r.attempts;
    }
  }

  lemma SameAskable(s: State, env: Env, r: Ride, d: int, result: OfferResult, now: int)
    requires result == OfferResult.Declined || result == TimedOut
    ensures forall e :: Askable(s, env, CloseOffer(r, d, result, now).log, e) <==> Askable(s, env, r.log, e)
  {
    forall e ensures Asked(Close(r.log, d, result, now), e) <==> Asked(r.log, e) {
      ClosingAsksNobodyElse(r.log, d, result, now, e);
    }
    hide Asked;
  }

  lemma OpenOfferIsLogged(r: Ride, d: int, cfg: Config)
    requires OfferInv(r, cfg) && r.status == Requested && r.target == Some(d)
    ensures HasOpenOffer(r.log, d)
  {
    var o := Offers(r.log);
    OfferIsLogged(r.log, |o| - 1);
  }

  /** A declined offer moves on: the row says so, and the ride is offered to the nearest driver left or, at
      the cap, cancelled. */
  lemma DeclinedOfferGoesOn(s: State, id: nat, d: int, env: Env, cfg: Config, now: int)
    requires Inv(s, cfg) && id < |s.rides|
    requires s.rides[id].status == Requested && s.rides[id].driver.None? && s.rides[id].target == Some(d)
    ensures var t := DeclineOffer(s, id, d, env, cfg, now).0;
            |t.rides| == |s.rides| && GoesOn(s, env, id, s.rides[id], t.rides[id], d, OfferResult.Declined, cfg, now)
  {
    FailedOfferGoesOn(s, id, s.rides[id], d, OfferResult.Declined, env, cfg, now);
    hide GoesOn, Inv, Advance;
  }

  /** Processing the timeouts moves on every offer in the pool whose deadline has passed. */
  lemma LapsedOfferGoesOn(s: State, id: nat, d: int, env: Env, cfg: Config, now: int)
    requires Inv(s, cfg) && id < |s.rides|
    requires s.rides[id].status == Requested && s.rides[id].driver.None? && s.rides[id].target == Some(d)
    requires s.rides[id].expires.Some? && s.rides[id].expires.value < now
    ensures var t := ProcessTimeouts(s, env, cfg, now);
            |t.rides| == |s.rides| && GoesOn(s, env, id, s.rides[id], t.rides[id], d, TimedOut, cfg, now)
  {
    FailedOfferGoesOn(s, id, s.rides[id], d, TimedOut, env, cfg, now);
    hide GoesOn, Inv, Advance;
  }

  /** Expiring an offer by hand moves it on whatever its deadline; a ride without one stays. */
  lemma ExpiredOfferGoesOn(s: State, id: nat, env: Env, cfg: Config, now: int)
    requires Inv(s, cfg) && id < |s.rides|
    ensures var r, t := s.rides[id], ExpireOffer(id, s.rides[id], DispatchContext(s, env), cfg, now);
            && (r.target.None? ==> t == r)
            && (r.target.Some? && r.status == Requested && r.driver.None? ==>
                  GoesOn(s, env, id, r, t, r.target.value, TimedOut, cfg, now))
  {
    var r := s.rides[id];
    if r.target.Some? && r.status == Requested && r.driver.None? {
      FailedOfferGoesOn(s, id, r, r.target.value, TimedOut, env, cfg, now);
    }
    hide GoesOn, Inv, Advance;
  }

  /** Processing the timeouts leaves every other ride alone: an offer before its deadline or at it, a ride
      without an offer, and a ride out of the pool. */
  lemma OthersOutliveTheTimeouts(s: State, id: nat, env: Env, cfg: Config, now: int)
    requires id < |s.rides|
    requires var r := s.rides[id];
             || (r.expires.Some? && now <= r.expires.value) || r.target.None?
             || r.status != Requested || r.driver.Some?
    ensures ProcessTimeouts(s, env, cfg, now).rides[id] == s.rides[id]
  {
  }

  /** A refresh keeps a live offer, offers a ride that waits without one, and moves on a lapsed one. */
  lemma RefreshOffersWaitingRides(s: State, id: nat, env: Env, cfg: Config, now: int)
    requires Inv(s, cfg) && s.clock == now && id < |s.rides|
    requires s.rides[id].status == Requested && s.rides[id].driver.None?
    ensures var r, t := s.rides[id], RefreshOffers(s, env, cfg, now);
            && |t.rides| == |s.rides|
            && (r.target.Some? && r.expires.Some? && now <= r.expires.value ==> t.rides[id] == r)
            && (cfg.sequential && r.target.None? ==> OfferedIfPossible(s, env, id, r, t.rides[id], cfg, now))
            && (r.target.Some? && r.expires.Some? && r.expires.value < now ==>
                  if r.attempts >= cfg.maxAttempts then t.rides[id].status == Cancelled
                  else SomebodyAskable(s, env, r.log) ==>
                         OfferedToTheNearest(s, env, id, r, t.rides[id], cfg, now))
  {
    TimeoutsKeep(s, env, cfg, now);
    var r, t := s.rides[id], ProcessTimeouts(s, env, cfg, now);
    if r.target.None? {
      NextOfferGoesToTheNearest(s, id, r, env, cfg, now);
    } else if r.expires.Some? && r.expires.value < now {
      LapsedOfferGoesOn(s, id, r.target.value, env, cfg, now);
    }
    hide Inv, TimeOut, OfferNext, NearestAskable, AnsweredRow;
  }
}
