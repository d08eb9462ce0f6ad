/** Which requests are granted, which are refused and how, and what a granted one changes
    (backend/routes/drivers.py, backend/routes/rider_rides.py), told by the columns of the tables alone. */
module RequestOutcomes {
  import opened Wrappers
  import opened Lifecycle
  import opened OfferLog
  import opened Pricing
  import opened RidePricing
  import opened Settlement
  import opened Marketplace
  import opened MarketplaceInvariants
  import opened OfferOutcomes

  /** The rides but this one are as they were, and so is everything else. */
  predicate OthersStay(s: State, t: State, id: nat) {
    && |t.rides| == |s.rides| && t.approvals == s.approvals && t.clock == s.clock
    && forall k :: 0 <= k < |s.rides| && k != id ==> t.rides[k] == s.rides[k]
  }

  /** The identity of a ride and what was agreed about it. */
  predicate SameRide(r: Ride, t: Ride) {
    && t.customer == r.customer && t.createdAt == r.createdAt
    && t.distanceKm == r.distanceKm && t.duration == r.duration
  }

  predicate SameMoney(r: Ride, t: Ride) {
    t.pricing == r.pricing && t.settlement == r.settlement && t.charges == r.charges
  }

  predicate SameOffer(r: Ride, t: Ride) {
    t.target == r.target && t.expires == r.expires && t.attempts == r.attempts && t.log == r.log
  }

  // --- Accepting --------------------------------------------------------------------------------

  /** A driver who may claim a ride: an active account, approved, past the profile, presence and freshness
      guards, and on no ride. */
  predicate MayClaim(s: State, env: Env, d: int) {
    && d in env.pool && d in s.approvals && s.approvals[d] == Approved && d in env.claimReady && !OnARide(s, d)
  }

  predicate IsTaken(r: Ride) {
    r.driver.Some? || r.status == Accepted
  }

  /** In sequential mode a ride is for its target or, without one, for the nearest driver who may be asked or
      for anybody if there is none. */
  ghost predicate IsFor(s: State, env: Env, id: nat, r: Ride, d: int, cfg: Config) {
    !cfg.sequential
    || r.target == Some(d)
    || (r.target.None? && (SomebodyAskable(s, env, r.log) ==> NearestAskable(s, env, id, r.log, d)))
  }

  lemma MayClaimIsEligible(s: State, env: Env, d: int)
    ensures MayClaim(s, env, d) <==> EligibleForClaim(s, env, d)
  {
    if i :| 0 <= i < |s.rides| && Holds(s.rides[i], d) { assert OnARide(s, d); }
  }

  lemma OnlyOneIsNearest(s: State, env: Env, id: nat, log: seq<OfferRow>, d: int, e: int)
    requires NearestAskable(s, env, id, log, d) && NearestAskable(s, env, id, log, e)
    ensures d == e
  {
    assert NoFarther(env, id, d, e) && NoFarther(env, id, e, d);
  }

  /** An accept is granted exactly when the ride is there, requested and free, the driver may claim and the
      ride is for him; each refusal has its answer. */
  lemma AcceptIsGrantedIff(s: State, id: nat, d: int, keyed: bool, env: Env, cfg: Config, now: int)
    ensures var outcome := AcceptRide(s, id, d, keyed, env, cfg, now).1;
            && (outcome == NotFound <==> id >= |s.rides|)
            && (id < |s.rides| ==>
                  var r := s.rides[id];
                  && (outcome == Done <==>
                        r.driver.None? && r.status == Requested && MayClaim(s, env, d) && IsFor(s, env, id, r, d, cfg))
                  && (outcome == Forbidden <==> !IsTaken(r) && !MayClaim(s, env, d)))
  {
    if id < |s.rides| {
      MayClaimIsEligible(s, env, d);
      hide EligibleForClaim, MayClaim;
      var r := s.rides[id];
      if cfg.sequential && r.status == Requested && r.driver.None? && r.target.None? {
        FirstOfferGoesToTheNearest(s, id, env, cfg, now);
        var e := StartDispatch(id, r, DispatchContext(s, env), cfg, now).target;
        if e.Some? && NearestAskable(s, env, id, r.log, d) {
          OnlyOneIsNearest(s, env, id, r.log, d, e.value);
        }
      }
    }
  }

  /** What a granted accept leaves: the ride is the driver's from now on, its offer is closed, an attempt and a
      win are in the claim ledger, and a row that was open for him says that he took it. */
  lemma GrantedAccept(s: State, id: nat, d: int, keyed: bool, env: Env, cfg: Config, now: int)
    requires AcceptRide(s, id, d, keyed, env, cfg, now).1 == Done
    ensures var t := AcceptRide(s, id, d, keyed, env, cfg, now).0;
            && OthersStay(s, t, id) && id < |s.rides|
            && var r, u := s.rides[id], t.rides[id];
               && SameRide(r, u) && SameMoney(r, u)
               && u.status == Accepted && u.driver == Some(d) && u.acceptedAt == Some(now)
               && u.arrivedAt == r.arrivedAt && u.startedAt == r.startedAt
               && u.completedAt == r.completedAt && u.cancelledAt == r.cancelledAt
               && u.target.None? && u.expires.None?
               && u.claims == r.claims + [ClaimRow(ClaimAttempted, d, d), ClaimRow(ClaimWon, d, d)]
               && (r.target.Some? ==> u.attempts == r.attempts)
               && (r.target.Some? && HasOpenOffer(r.log, d) ==> AnsweredRow(r, u, d, Taken, now))
  {
    var r := s.rides[id];
    if r.target.Some? && HasOpenOffer(r.log, d) {
      var i := LatestOpenRow(r.log, d);
      CloseChangesTheLastOpenRow(r.log, d, i, Taken, now);
    }
  }

  /** What a refused one leaves: an attempt and a loss on a ride that is taken; on a ride just offered to another
      driver that offer, if the request carried an idempotency key; otherwise nothing. */
  lemma RefusedAccept(s: State, id: nat, d: int, keyed: bool, env: Env, cfg: Config, now: int)
    requires AcceptRide(s, id, d, keyed, env, cfg, now).1 != Done
    ensures var t := AcceptRide(s, id, d, keyed, env, cfg, now).0;
            && OthersStay(s, t, id)
            && (id < |s.rides| ==>
                  var r, u := s.rides[id], t.rides[id];
                  if IsTaken(r) then
                    u == r.(claims := r.claims + [ClaimRow(ClaimAttempted, d, d), ClaimRow(ClaimLost, d, d)])
                  else if keyed && cfg.sequential && r.status == Requested && r.target.None? && MayClaim(s, env, d) then
                    OfferedToTheNearest(s, env, id, r, u, cfg, now) && u.target != Some(d) && u.claims == r.claims
                  else u == r)
  {
    if id < |s.rides| {
      MayClaimIsEligible(s, env, d);
      hide EligibleForClaim, MayClaim;
      var r := s.rides[id];
      if cfg.sequential && r.status == Requested && r.driver.None? && r.target.None? {
        FirstOfferGoesToTheNearest(s, id, env, cfg, now);
      }
    }
  }

  // --- Handing back -----------------------------------------------------------------------------

  /** A ride is handed back by the approved driver who has just accepted it, and by nobody else. */
  lemma HandingBackIsGrantedIff(s: State, id: nat, d: int, env: Env)
    ensures var (t, outcome) := DeclineRide(s, id, d, env);
            && OthersStay(s, t, id)
            && (outcome == NotFound <==> id >= |s.rides|)
            && (outcome == Conflict <==>
                  id < |s.rides| && !(s.rides[id].status == Accepted && s.rides[id].driver == Some(d)))
            && (outcome == Done <==>
                  && id < |s.rides| && s.rides[id].status == Accepted && s.rides[id].driver == Some(d)
                  && d in env.pool && d in s.approvals && s.approvals[d] == Approved)
            && (outcome != Done ==> t == s)
            && (outcome == Done ==>
                  var r, u := s.rides[id], t.rides[id];
                  && SameRide(r, u) && SameMoney(r, u) && SameOffer(r, u)
                  && u.status == Requested && u.driver.None?
                  && u.acceptedAt.None? && u.arrivedAt.None? && u.startedAt.None?
                  && u.claims == r.claims + [ClaimRow(ClaimReleased, d, d)])
  {
  }

  /** An offer is declined by its target or by a driver whose row is open. */
  lemma DecliningIsGrantedIff(s: State, id: nat, d: int, env: Env, cfg: Config, now: int)
    ensures var (t, outcome) := DeclineOffer(s, id, d, env, cfg, now);
            && OthersStay(s, t, id)
            && (outcome == NotFound <==> id >= |s.rides|)
            && (outcome == Done <==>
                  id < |s.rides|
                  && (s.rides[id].target == Some(d)
                      || exists i :: 0 <= i < |s.rides[id].log|
                                     && s.rides[id].log[i].driver == d && s.rides[id].log[i].result == Sent))
            && (outcome != Done ==> t == s)
            && (outcome == Done && (s.rides[id].status != Requested || s.rides[id].driver.Some?) ==>
                  t.rides[id] == s.rides[id].(log := t.rides[id].log))
  {
  }

  // --- On the way -------------------------------------------------------------------------------

  /** An approved driver may act, and a suspended one on the ride that is his. */
  predicate MayAct(s: State, env: Env, d: int, id: nat) {
    && d in env.pool && d in s.approvals
    && (s.approvals[d] == Approved || (s.approvals[d] == Suspended && id < |s.rides| && s.rides[id].driver == Some(d)))
  }

  /** A step of a driver from one status is granted exactly on his own ride in that status. */
  predicate StepAnswer(s: State, env: Env, d: int, id: nat, from: RideStatus, outcome: Outcome) {
    && (outcome == Done <==>
          MayAct(s, env, d, id) && id < |s.rides| && s.rides[id].driver == Some(d) && s.rides[id].status == from)
    && (outcome == Forbidden <==> !MayAct(s, env, d, id))
    && (outcome == NotFound <==>
          MayAct(s, env, d, id)
          && (id >= |s.rides| || (s.rides[id].driver != Some(d) && s.rides[id].status == from)))
  }

  lemma ArrivingIsGrantedIff(s: State, id: nat, d: int, env: Env, now: int)
    ensures var (t, outcome) := ArrivePickup(s, id, d, env, now);
            && OthersStay(s, t, id) && StepAnswer(s, env, d, id, Accepted, outcome)
            && (outcome != Done ==> t == s)
            && (outcome == Done ==> t.rides[id] == s.rides[id].(status := DriverArrived, arrivedAt := Some(now)))
  {
  }

  lemma StartingIsGrantedIff(s: State, id: nat, d: int, env: Env, now: int)
    ensures var (t, outcome) := StartRide(s, id, d, env, now);
            && OthersStay(s, t, id) && StepAnswer(s, env, d, id, DriverArrived, outcome)
            && (outcome != Done ==> t == s)
            && (outcome == Done ==> t.rides[id] == s.rides[id].(status := InProgress, startedAt := Some(now)))
  {
  }

  /** Completing is granted exactly on the driver's own ride in progress, whose price no reachable state has
      locked already. */
  lemma CompletingIsGrantedIff(s: State, id: nat, d: int, f: CompletionFees, p: Policy, env: Env, cfg: Config, now: int)
    requires Inv(s, cfg)
    ensures var (t, outcome) := CompleteRide(s, id, d, f, p, env, now);
            && OthersStay(s, t, id) && StepAnswer(s, env, d, id, InProgress, outcome)
            && (outcome != Done ==> t == s)
            && (outcome == Done ==>
                  var r, u := s.rides[id], t.rides[id];
                  && SameRide(r, u) && SameOffer(r, u) && u.driver == r.driver && u.claims == r.claims
                  && u.acceptedAt == r.acceptedAt && u.arrivedAt == r.arrivedAt && u.startedAt == r.startedAt
                  && u.cancelledAt == r.cancelledAt
                  && u.status == Completed && u.completedAt == Some(now)
                  && u.pricing.locked && u.pricing.lockedAt == u.pricing.fareLockedAt == Some(now))
  {
    if id < |s.rides| {
      assert MoneyInv(s.rides[id]);
    }
    hide Finalized, Generated, Charged, Inv;
    ProgressIsGrantedIff(s, id, d, env);
    hide Progress;
    if CompleteRide(s, id, d, f, p, env, now).1 == Done {
      FinalizedIsLocked(Some(s.rides[id].pricing), s.rides[id].distanceKm, s.rides[id].duration, f, p, now);
    }
  }

  lemma ProgressIsGrantedIff(s: State, id: nat, d: int, env: Env)
    ensures var r := Progress(s, id, d, Complete, env);
            && StepAnswer(s, env, d, id, InProgress, if r.Ok? then Done else r.error)
            && (r.Ok? ==> r.value == Completed) && (r.Err? ==> r.error != Done)
  {
  }

  lemma FinalizedIsLocked(existing: Option<Row>, km: real, minutes: int, f: CompletionFees, p: Policy, now: int)
    ensures var r := Finalized(existing, km, minutes, f, p, true, now);
            r.locked && r.lockedAt == r.fareLockedAt == Some(now)
  {
  }

  // --- The bill ---------------------------------------------------------------------------------

  /** The fee asked for, or the one of the policy when none was and the trip is priced anew. */
  function FeeOr(asked: int, kept: bool, policyFee: int): int {
    if asked != 0 || kept then Max(0, asked) else Max(0, policyFee)
  }

  /** A completed ride is billed what the driver sent and the policy says, each amount under its own name, on
      the quoted fare if the ride has no distance and on the trip's fare otherwise. */
  predicate Billed(r: Ride, b: Row, f: CompletionFees, p: Policy) {
    var kept := r.pricing.shareable != 0 && r.distanceKm == 0.0;
    && b.shareable == (if kept then r.pricing.shareable
                       else Max(0, FareComponents(r.distanceKm, r.duration, 0, p).shareable))
    && b.commission == Commission(b.shareable, p.commissionBps) && b.ridePayout == b.shareable - b.commission
    && b.tip == Max(0, f.tip) && b.toll == Max(0, f.toll) && b.tax == Max(0, f.tax)
    && b.city == FeeOr(f.city, kept, p.cityFee)
    && b.airport == FeeOr(f.airport, kept, p.airportFee)
    && b.accessibility == FeeOr(f.accessibility, kept, p.accessibilityFee)
    && b.serviceFee == (match f.serviceFee case Some(fee) => Max(0, fee) case None => p.serviceFee)
    && b.cancellation == 0
    && b.driverEarnings == b.ridePayout + b.tip
    && b.platformRevenue == b.commission + b.serviceFee
    && b.passThrough == b.city + b.airport + b.toll + b.accessibility + b.tax
    && b.customerTotal == b.driverEarnings + b.platformRevenue + b.passThrough
  }

  lemma CompletedRideIsBilledAsAsked(
    s: State, id: nat, d: int, f: CompletionFees, p: Policy, env: Env, cfg: Config, now: int)
    requires Inv(s, cfg) && Sound(p) && CompleteRide(s, id, d, f, p, env, now).1 == Done
    ensures var r, u := s.rides[id], CompleteRide(s, id, d, f, p, env, now).0.rides[id];
            && Billed(r, u.pricing, f, p)
            && (forall t :: AmountOf(u.settlement, t) == AmountDue(u.pricing, t))
            && (forall e :: e in u.settlement ==> e.party == PartyOf(e.entryType))
            && u.charges == [Charge(u.pricing.customerTotal)]
  {
    var r := s.rides[id];
    assert MoneyInv(r);
    FinalizedIsBilled(r, f, p, now);
    FinalizedIsBalanced(Some(r.pricing), r.distanceKm, r.duration, f, p, true, now);
    var b := Finalized(Some(r.pricing), r.distanceKm, r.duration, f, p, true, now);
    hide Finalized, Billed, FareComponents;
    EntriesCarryTheRow(b);
  }

  lemma FinalizedIsBilled(r: Ride, f: CompletionFees, p: Policy, now: int)
    requires 0 <= r.pricing.shareable
    ensures Billed(r, Finalized(Some(r.pricing), r.distanceKm, r.duration, f, p, true, now), f, p)
  {
    hide FareComponents, Commission;
  }

  // --- Cancelling -------------------------------------------------------------------------------

  /** A rider cancels his own ride, in any status before its end, and nobody else's. */
  lemma CancellingIsGrantedIff(s: State, id: nat, rider: int, now: int)
    ensures var (t, outcome) := CancelRide(s, id, rider, now);
            && OthersStay(s, t, id)
            && (outcome == NotFound <==> id >= |s.rides|)
            && (outcome == Forbidden <==> id < |s.rides| && s.rides[id].customer != Some(rider))
            && (outcome == Done <==>
                  id < |s.rides| && s.rides[id].customer == Some(rider)
                  && var status := s.rides[id].status;
                     status == Requested || status == Accepted || status == DriverArrived || status == InProgress)
            && (outcome != Done ==> t == s)
            && (outcome == Done ==>
                  var r, u := s.rides[id], t.rides[id];
                  && SameRide(r, u) && SameMoney(r, u) && SameOffer(r, u) && u.driver == r.driver
                  && u.status == Cancelled && u.cancelledAt == Some(now)
                  && u.acceptedAt == r.acceptedAt && u.arrivedAt == r.arrivedAt && u.startedAt == r.startedAt
                  && (r.driver.Some? ==> u.claims == r.claims + [ClaimRow(ClaimReleased, r.driver.value, rider)])
                  && (r.driver.None? ==> u.claims == r.claims))
  {
    if id < |s.rides| {
      assert s.rides[id].claims + [] == s.rides[id].claims;
    }
  }

  // --- Payments and approvals -------------------------------------------------------------------

  /** A payment is prepared exactly for the driver of a ride with a locked price, when payments are on. */
  lemma PaymentIsGrantedIff(s: State, id: nat, d: int, cfg: Config)
    ensures var (t, outcome) := RequestPayment(s, id, d, cfg);
            && OthersStay(s, t, id)
            && (outcome == NotFound <==> cfg.payments && (id >= |s.rides| || s.rides[id].driver != Some(d)))
            && (outcome == Done <==>
                  cfg.payments && id < |s.rides| && s.rides[id].driver == Some(d) && s.rides[id].pricing.locked)
            && (outcome != Done ==> t == s)
            && (outcome == Done ==>
                  && t.rides[id] == s.rides[id].(charges := t.rides[id].charges)
                  && (if s.rides[id].charges != [] then t.rides[id].charges == s.rides[id].charges
                      else |t.rides[id].charges| == 1
                           && (s.rides[id].pricing.customerTotal != 0 ==>
                                 t.rides[id].charges[0].amount == s.rides[id].pricing.customerTotal)))
  {
  }

  /** Setting an approval changes that driver's alone, and no ride. */
  lemma ApprovalIsSetIff(s: State, d: int, a: Approval, env: Env)
    ensures var (t, outcome) := SetApproval(s, d, a, env);
            && t.rides == s.rides
            && (outcome == Done <==> d in env.accounts && a != Pending)
            && (outcome == NotFound <==> d !in env.accounts && a != Pending)
            && (outcome != Done ==> t == s)
            && (outcome == Done ==>
                  && d in t.approvals && t.approvals[d] == a
                  && forall e :: e != d ==> (e in t.approvals <==> e in s.approvals)
                                            && (e in t.approvals ==> t.approvals[e] == s.approvals[e]))
  {
  }

  // --- Listing ----------------------------------------------------------------------------------

  /** A ride is visible to a driver when it waits in the pool, for nobody or for him. */
  lemma RideIsVisibleIff(r: Ride, d: int)
    ensures VisibleTo(r, d)
            <==> r.status == Requested && r.driver.None? && (r.target.None? || r.target == Some(d))
  {
  }

  /** The listing refreshes the offers for a driver who may claim and does nothing for another. */
  lemma ListingRefreshesForClaimants(s: State, d: int, env: Env, cfg: Config, now: int)
    ensures MayClaim(s, env, d) ==> ListRides(s, d, env, cfg, now).0 == RefreshOffers(s, env, cfg, now)
    ensures !MayClaim(s, env, d) ==> ListRides(s, d, env, cfg, now).0 == s
  {
    MayClaimIsEligible(s, env, d);
    hide MayClaim, EligibleForClaim;
  }
}
