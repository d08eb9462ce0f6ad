/** The marketplace over its tables, written step by step as the handlers write them, each method
    proved against the function of module Marketplace that it implements. */
module MarketplaceService {
  import opened Wrappers
  import opened Lifecycle
  import opened OfferLog
  import opened Pricing
  import opened RidePricing
  import opened Settlement
  import opened Marketplace
  import opened MarketplaceSteps
  import opened OfferOutcomes

  class Service {
    const cfg: Config
    var rides: seq<Ride>
    var approvals: map<int, Approval>
    ghost var clock: int

    constructor (cfg: Config)
      ensures this.cfg == cfg && View() == EMPTY
    {
      this.cfg := cfg;
      rides := [];
      approvals := map[];
      clock := 0;
    }

    ghost function View(): State
      reads this
    {
      State(rides, approvals, clock)
    }

    ghost function Ctx(env: Env): Context
      reads this
    {
      DispatchContext(View(), env)
    }

    predicate Approves(d: int)
      reads this
    {
      d in approvals && approvals[d] == Approved
    }

    // --- The cascade ----------------------------------------------------------------------------

    /** Walk the pool once, keeping the candidates and logging the drivers passed over. */
    method EligibleDispatchDrivers(id: nat, env: Env, now: int) returns (candidates: seq<int>)
      requires id < |rides|
      modifies this`rides
      ensures rides == old(rides)[id := Scan(old(rides)[id], old(Ctx(env)), now)]
      ensures candidates == Candidates(old(rides)[id], old(Ctx(env)))
    {
      ghost var c := Ctx(env);
      var ride := rides[id];
      var asked := ride.log;
      candidates := [];
      for i := 0 to |env.pool|
        invariant candidates == EligibleAmong(env.pool[..i], asked, c)
        invariant ride == rides[id].(log := asked + SkipRows(env.pool[..i], asked, c, now))
      {
        var d := env.pool[i];
        assert env.pool[..i + 1][..i] == env.pool[..i];
        assert d in c.available <==> d in env.online && Approves(d);
        assert d in c.busy <==> HasActiveRide(rides, d);
        hide HasActiveRide, BusyDrivers, DispatchContext, Tried, Scan, Candidates;
        if !Tried(asked, d) {
          if d !in env.online || !Approves(d) {
            ride := ride.(log := ride.log + [OfferRow(d, now, Skipped, 0, None, Some(DispatchUnavailable))]);
          } else if HasActiveRide(rides, d) {
            ride := ride.(log := ride.log + [OfferRow(d, now, Skipped, 0, None, Some(DriverBusy))]);
          } else if d !in env.present {
            ride := ride.(log := ride.log + [OfferRow(d, now, Skipped, 0, None, Some(PresenceUnavailable))]);
          } else {
            candidates := candidates + [d];
          }
        }
      }
      assert env.pool[..|env.pool|] == env.pool;
      rides := rides[id := ride];
    }

    method OfferToDriver(id: nat, d: int, now: int)
      requires id < |rides|
      modifies this`rides
      ensures rides == old(rides)[id := Offer(old(rides)[id], d, cfg, now)]
    {
      var ride := rides[id];
      var attempt := ride.attempts + 1;
      ride := ride.(target := Some(d), expires := Some(now + cfg.offerTimeout));
      ride := ride.(attempts := attempt);
      ride := ride.(log := ride.log + [OfferRow(d, now, Sent, attempt, None, None)]);
      rides := rides[id := ride];
    }

    /** Look for candidates and offer the ride to the nearest one, if there is any. */
    method OfferToNext(id: nat, env: Env, now: int)
      requires id < |rides|
      modifies this`rides
      ensures rides == old(rides)[id := OfferNext(id, old(rides)[id], old(Ctx(env)), cfg, now)]
    {
      var candidates := EligibleDispatchDrivers(id, env, now);
      if candidates != [] {
        OfferToDriver(id, Nearest(candidates, id, env.distance), now);
        assert rides == old(rides)[id := rides[id]];
      }
    }

    method StartDispatchForRide(id: nat, env: Env, now: int)
      requires id < |rides|
      modifies this`rides
      ensures rides == old(rides)[id := StartDispatch(id, old(rides)[id], old(Ctx(env)), cfg, now)]
      ensures cfg.sequential && InPool(old(rides)[id]) && old(rides)[id].target.None? ==>
                OfferedIfPossible(old(View()), env, id, old(rides)[id], rides[id], cfg, now)
    {
      if cfg.sequential && InPool(rides[id]) && rides[id].target.None? {
        FirstOfferGoesToTheNearest(View(), id, env, cfg, now);
      }
      hide OfferedIfPossible;
      if !cfg.sequential {
        return;
      }
      if rides[id].status != Requested || rides[id].driver.Some? {
        return;
      }
      if rides[id].target.Some? {
        return;
      }
      OfferToNext(id, env, now);
    }

    method ClosePendingLog(id: nat, d: int, result: OfferResult, now: int)
      requires id < |rides|
      modifies this`rides
      ensures rides == old(rides)[id := CloseOffer(old(rides)[id], d, result, now)]
      ensures var log := old(rides)[id].log;
              forall i: nat :: LastOpenRow(log, d, i) ==>
                rides[id].log == log[i := log[i].(result := result, respondedAt := Some(now))]
      ensures !HasOpenOffer(old(rides)[id].log, d) ==> rides[id].log == old(rides)[id].log
    {
      ghost var log := rides[id].log;
      forall i: nat | LastOpenRow(log, d, i)
        ensures Close(log, d, result, now) == log[i := log[i].(result := result, respondedAt := Some(now))]
      {
        CloseChangesTheLastOpenRow(log, d, i, result, now);
      }
      if !HasOpenOffer(log, d) {
        CloseWithoutAnOpenRow(log, d, result, now);
      }
      rides := rides[id := rides[id].(log := Close(rides[id].log, d, result, now))];
    }

    method AdvanceAfterFailedAttempt(id: nat, env: Env, now: int)
      requires id < |rides|
      modifies this`rides
      ensures rides == old(rides)[id := Advance(id, old(rides)[id], old(Ctx(env)), cfg, now)]
    {
      if rides[id].status != Requested || rides[id].driver.Some? {
        return;
      }
      if rides[id].attempts >= cfg.maxAttempts {
        var ride := rides[id];
        ride := ride.(status := Cancelled, target := None, expires := None);
        ride := ride.(cancelledAt := Some(now));
        rides := rides[id := ride];
        return;
      }
      ghost var before := rides;
      rides := rides[id := rides[id].(target := None, expires := None)];
      SameBusyAfterUpdate(before, id, rides[id]);
      assert rides == before[id := rides[id]];
      assert Ctx(env) == old(Ctx(env));
      OfferToNext(id, env, now);
      assert rides == before[id := rides[id]];
    }

    method ExpireCurrentAttempt(id: nat, env: Env, now: int)
      requires id < |rides|
      modifies this`rides
      ensures rides == old(rides)[id := ExpireOffer(id, old(rides)[id], old(Ctx(env)), cfg, now)]
    {
      if rides[id].target.None? {
        return;
      }
      ghost var before := rides;
      ClosePendingLog(id, rides[id].target.value, TimedOut, now);
      SameBusyAfterUpdate(before, id, rides[id]);
      assert rides == before[id := rides[id]];
      assert Ctx(env) == old(Ctx(env));
      AdvanceAfterFailedAttempt(id, env, now);
      assert rides == before[id := rides[id]];
    }

    method ProcessDispatchTimeouts(env: Env, now: int)
      modifies this`rides
      ensures View() == ProcessTimeouts(old(View()), env, cfg, now)
      ensures forall id: nat :: id < |old(rides)| ==>
                var r := old(rides)[id];
                r.expires.Some? && now <= r.expires.value ==> rides[id] == r
    {
      ghost var before, c := rides, Ctx(env);
      for id := 0 to |rides|
        invariant |rides| == |before|
        invariant forall k :: 0 <= k < id ==> rides[k] == TimeOut(k, before[k], c, cfg, now)
        invariant forall k :: id <= k < |rides| ==> rides[k] == before[k]
        invariant Ctx(env) == c
      {
        if OfferLapsed(rides[id], now) {
          ghost var was := rides;
          ExpireCurrentAttempt(id, env, now);
          CascadeKeepsBusy(was, id, c, cfg, now);
        }
      }
    }

    /** Expire what has lapsed, then start an offer for every ride left without one. */
    method RefreshOpenDispatchOffers(env: Env, now: int)
      modifies this`rides
      ensures View() == RefreshOffers(old(View()), env, cfg, now)
    {
      hide OfferedIfPossible;
      ProcessDispatchTimeouts(env, now);
      ghost var before, c := rides, Ctx(env);
      for id := 0 to |rides|
        invariant |rides| == |before|
        invariant forall k :: 0 <= k < id ==> rides[k] == StartDispatch(k, before[k], c, cfg, now)
        invariant forall k :: id <= k < |rides| ==> rides[k] == before[k]
        invariant Ctx(env) == c
      {
        if InPool(rides[id]) && rides[id].target.None? {
          ghost var was := rides;
          StartDispatchForRide(id, env, now);
          CascadeKeepsBusy(was, id, c, cfg, now);
        }
      }
    }

    // --- Handlers -------------------------------------------------------------------------------

    method CreateRide(customer: Option<int>, distanceKm: real, duration: int, p: Policy, env: Env, now: int)
      modifies this`rides
      ensures View() == Create(old(View()), customer, distanceKm, duration, p, env, cfg, now)
    {
      hide OfferedIfPossible;
      var r := NewRide(customer, distanceKm, duration, p, now);
      rides := rides + [r];
      StartDispatchForRide(|rides| - 1, env, now);
    }

    method Accept(id: nat, d: int, keyed: bool, env: Env, now: int) returns (outcome: Outcome)
      modifies this`rides
      ensures (View(), outcome) == AcceptRide(old(View()), id, d, keyed, env, cfg, now)
    {
      hide OfferedIfPossible;
      if id >= |rides| {
        return NotFound;
      }
      if rides[id].driver.Some? || rides[id].status == Accepted {
        var taken := rides[id];
        taken := taken.(claims := taken.claims + [ClaimRow(ClaimAttempted, d, d), ClaimRow(ClaimLost, d, d)]);
        rides := rides[id := taken];
        return Conflict;
      }
      if d !in env.pool || !Approves(d) || d !in env.claimReady || HasActiveRide(rides, d) {
        return Forbidden;
      }
      if rides[id].status != Requested {
        return Conflict;
      }
      var committed := rides;
      if cfg.sequential && rides[id].target.None? {
        StartDispatchForRide(id, env, now);
      }
      if cfg.sequential && rides[id].target.Some? && rides[id].target.value != d {
        if !keyed {
          rides := committed;
        }
        assert rides == if keyed then committed[id := rides[id]] else committed;
        return Conflict;
      }
      var ride := rides[id];
      ride := ride.(driver := Some(d), status := Accepted, acceptedAt := Some(now));
      ride := ride.(claims := ride.claims + [ClaimRow(ClaimAttempted, d, d), ClaimRow(ClaimWon, d, d)]);
      ride := ride.(log := Close(ride.log, d, Taken, now));
      ride := ride.(target := None, expires := None);
      rides := rides[id := ride];
      assert rides == committed[id := ride];
      return Done;
    }

    method Decline(id: nat, d: int, env: Env) returns (outcome: Outcome)
      modifies this`rides
      ensures (View(), outcome) == DeclineRide(old(View()), id, d, env)
      ensures outcome != Done ==> rides == old(rides)
      ensures outcome == Done ==>
                && Holds(old(rides)[id], d) && InPool(rides[id])
                && rides[id].attempts == old(rides)[id].attempts && rides[id].log == old(rides)[id].log
    {
      if id >= |rides| {
        return NotFound;
      }
      var next := ReleaseToPool(rides[id].status, Driver);
      if next.Err? || rides[id].driver != Some(d) {
        return Conflict;
      }
      if !MayAct(id, d, true, env) {
        return Forbidden;
      }
      var ride := rides[id];
      ride := ride.(status := next.value, driver := None);
      ride := ride.(acceptedAt := None, arrivedAt := None, startedAt := None);
      ride := ride.(claims := ride.claims + [ClaimRow(ClaimReleased, d, d)]);
      rides := rides[id := ride];
      return Done;
    }

    predicate MayAct(id: nat, d: int, declining: bool, env: Env)
      reads this
      ensures MayAct(id, d, declining, env) == CanAct(View(), env, d, id, declining)
    {
      var a := if d in approvals then approvals[d] else Pending;
      && d in env.pool && a != Pending && a != Rejected
      && (a == Suspended ==> id < |rides| && rides[id].driver == Some(d) && !declining)
    }

    method DeclineDispatch(id: nat, d: int, env: Env, now: int) returns (outcome: Outcome)
      modifies this`rides
      ensures (View(), outcome) == DeclineOffer(old(View()), id, d, env, cfg, now)
    {
      if id >= |rides| {
        return NotFound;
      }
      if rides[id].target != Some(d) && !HasOpenOffer(rides[id].log, d) {
        return Conflict;
      }
      ghost var before := rides;
      ClosePendingLog(id, d, OfferResult.Declined, now);
      SameBusyAfterUpdate(before, id, rides[id]);
      assert rides == before[id := rides[id]];
      assert Ctx(env) == old(Ctx(env));
      AdvanceAfterFailedAttempt(id, env, now);
      assert rides == before[id := rides[id]];
      return Done;
    }

    /** The guards of arrive, start and complete. */
    method CheckProgress(id: nat, d: int, action: RideAction, env: Env) returns (r: Result<RideStatus, Outcome>)
      ensures r == Progress(View(), id, d, action, env)
    {
      if !MayAct(id, d, false, env) {
        return Err(Forbidden);
      }
      if id >= |rides| {
        return Err(NotFound);
      }
      var next := NextStatus(rides[id].status, action, Driver);
      if rides[id].driver != Some(d) {
        return Err(if next.Err? then Conflict else NotFound);
      }
      if next.Err? {
        return Err(Conflict);
      }
      return Ok(next.value);
    }

    method Arrive(id: nat, d: int, env: Env, now: int) returns (outcome: Outcome)
      modifies this`rides
      ensures (View(), outcome) == ArrivePickup(old(View()), id, d, env, now)
      ensures outcome != Done ==> rides == old(rides)
      ensures outcome == Done ==>
                && Holds(old(rides)[id], d) && old(rides)[id].status == Accepted
                && Holds(rides[id], d) && rides[id].status == DriverArrived && rides[id].log == old(rides)[id].log
    {
      var next := CheckProgress(id, d, RideAction.Arrive, env);
      if next.Err? {
        return next.error;
      }
      var ride := rides[id];
      ride := ride.(status := next.value);
      ride := ride.(arrivedAt := Some(now));
      rides := rides[id := ride];
      return Done;
    }

    method Start(id: nat, d: int, env: Env, now: int) returns (outcome: Outcome)
      modifies this`rides
      ensures (View(), outcome) == StartRide(old(View()), id, d, env, now)
      ensures outcome != Done ==> rides == old(rides)
      ensures outcome == Done ==>
                && Holds(old(rides)[id], d) && old(rides)[id].status == DriverArrived
                && Holds(rides[id], d) && rides[id].status == InProgress && rides[id].log == old(rides)[id].log
    {
      var next := CheckProgress(id, d, RideAction.Start, env);
      if next.Err? {
        return next.error;
      }
      var ride := rides[id];
      ride := ride.(status := next.value);
      ride := ride.(startedAt := Some(now));
      rides := rides[id := ride];
      return Done;
    }

    method Complete(id: nat, d: int, f: CompletionFees, p: Policy, env: Env, now: int) returns (outcome: Outcome)
      modifies this`rides
      ensures (View(), outcome) == CompleteRide(old(View()), id, d, f, p, env, now)
    {
      var next := CheckProgress(id, d, RideAction.Complete, env);
      if next.Err? {
        return next.error;
      }
      if rides[id].pricing.locked {
        return Conflict;
      }
      var ride := rides[id];
      ride := ride.(status := next.value, completedAt := Some(now));
      ride := ride.(pricing := Finalized(Some(ride.pricing), ride.distanceKm, ride.duration, f, p, true, now));
      var settled := Generated(ride.settlement, ride.status, Some(ride.pricing));
      ride := ride.(settlement := settled.value);
      var charged := Charged(ride.charges, Some(ride.pricing));
      if charged.Ok? {
        ride := ride.(charges := charged.value);
      }
      rides := rides[id := ride];
      return Done;
    }

    method Cancel(id: nat, customer: int, now: int) returns (outcome: Outcome)
      modifies this`rides
      ensures (View(), outcome) == CancelRide(old(View()), id, customer, now)
      ensures outcome == Done <==>
                && id < |old(rides)| && old(rides)[id].customer == Some(customer)
                && old(rides)[id].status in {Requested, Accepted, DriverArrived, InProgress}
      ensures outcome == Forbidden <==> id < |old(rides)| && old(rides)[id].customer != Some(customer)
      ensures outcome != Done ==> rides == old(rides)
      ensures outcome == Done ==>
                && !IsTerminal(old(rides)[id].status) && (forall d :: !Holds(rides[id], d))
                && rides[id].target == old(rides)[id].target && rides[id].expires == old(rides)[id].expires
                && rides[id].log == old(rides)[id].log && rides[id].driver == old(rides)[id].driver
    {
      if id >= |rides| {
        return NotFound;
      }
      if rides[id].customer != Some(customer) {
        return Forbidden;
      }
      var next := NextStatus(rides[id].status, RideAction.Cancel, Customer);
      if next.Err? {
        return Conflict;
      }
      var ride := rides[id];
      ride := ride.(status := next.value, cancelledAt := Some(now));
      if ride.driver.Some? {
        ride := ride.(claims := ride.claims + [ClaimRow(ClaimReleased, ride.driver.value, customer)]);
      }
      assert rides[id].claims + [] == rides[id].claims;
      rides := rides[id := ride];
      return Done;
    }

    /** The rides in the pool that a driver is shown, after a refresh: all that are visible to him but those
        he has hidden. */
    method AvailableRides(d: int, hidden: set<nat>, env: Env, now: int) returns (shown: seq<nat>)
      modifies this`rides
      ensures View() == ListRides(old(View()), d, env, cfg, now).0
      ensures old(EligibleForClaim(View(), env, d)) ==>
                forall id: nat :: id in shown <==>
                  && id < |rides| && id !in hidden && rides[id].status == Requested && rides[id].driver.None?
                  && (rides[id].target.None? || rides[id].target == Some(d))
      ensures !old(EligibleForClaim(View(), env, d)) ==> shown == []
    {
      shown := [];
      if d !in env.pool || !Approves(d) || d !in env.claimReady || HasActiveRide(rides, d) {
        return;
      }
      RefreshOpenDispatchOffers(env, now);
      for id := 0 to |rides|
        invariant forall k: nat :: k in shown <==> k < id && VisibleTo(rides[k], d) && k !in hidden
      {
        if VisibleTo(rides[id], d) && id !in hidden {
          shown := shown + [id];
        }
      }
    }

    method PaymentIntent(id: nat, d: int) returns (outcome: Outcome)
      modifies this`rides
      ensures (View(), outcome) == RequestPayment(old(View()), id, d, cfg)
      ensures outcome != Done ==> rides == old(rides)
      ensures outcome == Done ==>
                && cfg.payments && rides[id].pricing.locked && rides[id].charges != []
                && (old(rides)[id].charges != [] ==> rides[id].charges == old(rides)[id].charges)
    {
      if !cfg.payments {
        return Conflict;
      }
      if id >= |rides| || rides[id].driver != Some(d) {
        return NotFound;
      }
      var charged := Charged(rides[id].charges, Some(rides[id].pricing));
      if charged.Err? {
        return Conflict;
      }
      rides := rides[id := rides[id].(charges := charged.value)];
      return Done;
    }

    method SetDriverApproval(d: int, a: Approval, env: Env) returns (outcome: Outcome)
      modifies this`approvals
      ensures (View(), outcome) == SetApproval(old(View()), d, a, env)
    {
      if a == Pending {
        return Conflict;
      }
      if d !in env.accounts {
        return NotFound;
      }
      approvals := approvals[d := a];
      return Done;
    }
  }

  // --- The drivers on a ride are the same after a cascade step -----------------------------------

  lemma SameBusyAfterUpdate(rides: seq<Ride>, id: nat, r: Ride)
    requires id < |rides| && forall d :: Holds(r, d) <==> Holds(rides[id], d)
    ensures BusyDrivers(rides[id := r]) == BusyDrivers(rides)
  {
    SameHoldersSameBusy(rides[id := r], rides);
  }

  lemma CascadeKeepsBusy(rides: seq<Ride>, id: nat, c: Context, cfg: Config, now: int)
    requires id < |rides|
    ensures BusyDrivers(rides[id := TimeOut(id, rides[id], c, cfg, now)]) == BusyDrivers(rides)
    ensures BusyDrivers(rides[id := StartDispatch(id, rides[id], c, cfg, now)]) == BusyDrivers(rides)
  {
    forall d
      ensures Holds(TimeOut(id, rides[id], c, cfg, now), d) <==> Holds(rides[id], d)
      ensures Holds(StartDispatch(id, rides[id], c, cfg, now), d) <==> Holds(rides[id], d)
    {
      CascadeNeverAssigns(id, rides[id], c, cfg, now, d);
    }
    SameBusyAfterUpdate(rides, id, TimeOut(id, rides[id], c, cfg, now));
    SameBusyAfterUpdate(rides, id, StartDispatch(id, rides[id], c, cfg, now));
  }
}
