/** What the marketplace promises in every reachable state and over every run. */
module MarketplaceProperties {
  import opened Wrappers
  import opened Lifecycle
  import opened OfferLog
  import opened Settlement
  import opened Marketplace
  import opened MarketplaceInvariants
  import opened MarketplaceSteps

  /** The states a marketplace reaches from an empty database. */
  ghost predicate Reachable(s: State, cfg: Config) {
    exists calls :: AdmissibleRun(EMPTY, calls, cfg) && s == Run(EMPTY, calls, cfg)
  }

  lemma ReachableInv(s: State, cfg: Config)
    requires Reachable(s, cfg) && cfg.maxAttempts >= 1
    ensures Inv(s, cfg)
  {
    var calls :| AdmissibleRun(EMPTY, calls, cfg) && s == Run(EMPTY, calls, cfg);
    RunKeepsInv(EMPTY, calls, cfg);
  }

  // --- The live offer ---------------------------------------------------------------------------

  /** Row i is the one open offer of the log, and no offer has a higher attempt number. */
  predicate SoleOpenOffer(log: seq<OfferRow>, i: nat) {
    && i < |log| && log[i].result == Sent
    && (forall j :: 0 <= j < |log| && log[j].result == Sent ==> j == i)
    && (forall j :: 0 <= j < |log| && log[j].result != Skipped ==> log[j].attempt <= log[i].attempt)
  }

  lemma AttemptsAreBounded(log: seq<OfferRow>)
    requires forall i :: 0 <= i < |Offers(log)| ==> Offers(log)[i].attempt <= |Offers(log)|
    ensures forall j :: 0 <= j < |log| && log[j].result != Skipped ==> log[j].attempt <= |Offers(log)|
  {
    forall j | 0 <= j < |log| && log[j].result != Skipped ensures log[j].attempt <= |Offers(log)| {
      OfferIsListed(log, j);
    }
  }

  lemma {:induction false} NothingOpenInTheLog(log: seq<OfferRow>)
    ensures NoOpenOffer(Offers(log)) <==> NoOpenOffer(log)
  {
    if log != [] {
      var n := |log| - 1;
      NothingOpenInTheLog(log[..n]);
      var before, o := Offers(log[..n]), Offers(log);
      assert forall j :: 0 <= j < n ==> log[..n][j] == log[j];
      assert forall j :: 0 <= j < |before| ==> before[j] == o[j];
      assert log[n].result != Skipped ==> o[|before|] == log[n];
    }
  }

  lemma {:induction false} OpenOfferInTheLog(log: seq<OfferRow>) returns (i: nat)
    requires Offers(log) != [] && !NoOpenOffer(Offers(log)) && NoOpenOffer(Offers(log)[..|Offers(log)| - 1])
    ensures i < |log| && log[i] == Offers(log)[|Offers(log)| - 1]
    ensures forall j :: 0 <= j < |log| && log[j].result == Sent ==> j == i
  {
    var n := |log| - 1;
    var before, o := Offers(log[..n]), Offers(log);
    if log[n].result == Skipped {
      assert o == before;
      i := OpenOfferInTheLog(log[..n]);
      assert forall j :: 0 <= j < n ==> log[j] == log[..n][j];
    } else {
      i := n;
      assert o[..|o| - 1] == before;
      NothingOpenInTheLog(log[..n]);
      assert forall j :: 0 <= j < n ==> log[j] == log[..n][j];
    }
  }

  /** A ride not cancelled is offered to d exactly when its log holds one open row, that row is d's
      and it is the latest attempt; a ride that has been assigned has neither target nor open row. */
  lemma TargetIsTheOpenOffer(s: State, id: nat, d: int, cfg: Config)
    requires Reachable(s, cfg) && cfg.maxAttempts >= 1
    requires id < |s.rides| && s.rides[id].status != Cancelled
    ensures var r := s.rides[id];
            r.target == Some(d) <==> exists i: nat :: SoleOpenOffer(r.log, i) && r.log[i].driver == d
    ensures s.rides[id].driver.Some? ==> s.rides[id].target.None? && NoOpenOffer(s.rides[id].log)
  {
    hide Reachable;
    ReachableInv(s, cfg);
    LogShowsTheTarget(s.rides[id], d, cfg);
  }

  lemma LogShowsTheTarget(r: Ride, d: int, cfg: Config)
    requires OfferInv(r, cfg) && r.status != Cancelled
    ensures r.target == Some(d) <==> exists i: nat :: SoleOpenOffer(r.log, i) && r.log[i].driver == d
    ensures r.driver.Some? ==> r.target.None? && NoOpenOffer(r.log)
  {
    NothingOpenInTheLog(r.log);
    AttemptsAreBounded(r.log);
    if r.target.Some? {
      var k := OpenOfferInTheLog(r.log);
      assert SoleOpenOffer(r.log, k);
    }
  }

  /** The offers of a ride are numbered 1..n with n its attempt count, a driver is asked twice only
      after accepting the first time, and n exceeds the cap by no more than the ride's releases. */
  lemma AttemptsAreNumberedAndCapped(s: State, id: nat, cfg: Config)
    requires Reachable(s, cfg) && cfg.maxAttempts >= 1 && id < |s.rides|
    ensures var r := s.rides[id];
            var o := Offers(r.log);
            && |o| == r.attempts
            && (forall i :: 0 <= i < |o| ==> o[i].attempt == i + 1)
            && (forall i, j :: 0 <= i < j < |o| && o[i].driver == o[j].driver ==> o[i].result == Taken)
            && r.attempts <= cfg.maxAttempts + Releases(r.claims)
  {
    hide Reachable;
    ReachableInv(s, cfg);
  }

  /** A declined offer ends the ride exactly when the cap is reached, and is not repeated at once. */
  lemma RefusalEndsTheRideAtTheCap(s: State, id: nat, d: int, env: Env, cfg: Config, now: int)
    requires Inv(s, cfg) && id < |s.rides| && s.rides[id].target == Some(d) && InPool(s.rides[id])
    ensures var (t, outcome) := DeclineOffer(s, id, d, env, cfg, now);
            && outcome == Done
            && (t.rides[id].status == Cancelled <==> s.rides[id].attempts >= cfg.maxAttempts)
            && (t.rides[id].status == Cancelled ==> t.rides[id].driver.None? && t.rides[id].target.None?)
            && t.rides[id].target != Some(d)
  {
    FailureEndsTheRideAtTheCap(id, s.rides[id], d, OfferResult.Declined, DispatchContext(s, env), cfg, now);
  }

  /** So does an offer that has lapsed when the timeouts are processed, whatever else is in the table. */
  lemma LapseEndsTheRideAtTheCap(s: State, id: nat, d: int, env: Env, cfg: Config, now: int)
    requires Inv(s, cfg) && id < |s.rides| && s.rides[id].target == Some(d) && OfferLapsed(s.rides[id], now)
    ensures var t := ProcessTimeouts(s, env, cfg, now).rides[id];
            && (t.status == Cancelled <==> s.rides[id].attempts >= cfg.maxAttempts)
            && (t.status == Cancelled ==> t.driver.None? && t.target.None?)
            && t.target != Some(d)
  {
    FailureEndsTheRideAtTheCap(id, s.rides[id], d, TimedOut, DispatchContext(s, env), cfg, now);
  }

  lemma FailureEndsTheRideAtTheCap(
    id: nat, r: Ride, d: int, result: OfferResult, c: Context, cfg: Config, now: int)
    requires OfferInv(r, cfg) && r.target == Some(d) && InPool(r)
    requires result == OfferResult.Declined || result == TimedOut
    ensures var t := Advance(id, CloseOffer(r, d, result, now), c, cfg, now);
            && (t.status == Cancelled <==> r.attempts >= cfg.maxAttempts)
            && (t.status == Cancelled ==> t.driver.None? && t.target.None?)
            && t.target != Some(d)
  {
    var freed := CloseOffer(r, d, result, now).(target := None, expires := None);
    if r.attempts < cfg.maxAttempts && d in Candidates(freed, c) {
      ClosedDriverIsTried(r.log, d, result, now);
      assert false;
    }
  }

  lemma ClosedDriverIsTried(log: seq<OfferRow>, d: int, result: OfferResult, now: int)
    requires OpenFor(Offers(log), d) && (result == OfferResult.Declined || result == TimedOut)
    ensures Tried(Close(log, d, result, now), d)
  {
    var o := Offers(log);
    CloseOfOffers(log, d, result, now);
    var closed := Close(o, d, result, now);
    assert closed[|o| - 1].driver == d && RulesOut(closed[|o| - 1].result);
    TriedOfOffers(Close(log, d, result, now), d);
  }

  // --- Refreshing -------------------------------------------------------------------------------

  lemma StartedOrExhausted(id: nat, r: Ride, c: Context, cfg: Config, now: int)
    requires cfg.sequential
    requires r.target.Some? && InPool(r) ==> r.expires.Some? && now <= r.expires.value
    ensures var t := StartDispatch(id, r, c, cfg, now);
            InPool(t) ==>
              || (t.target.Some? && t.expires.Some? && now <= t.expires.value)
              || (t.target.None? && Candidates(t, c) == [])
  {
    if InPool(r) && r.target.None? {
      ScanOffers(r, c, now);
    }
  }

  lemma NoLapsedOfferLeft(id: nat, r: Ride, c: Context, cfg: Config, now: int)
    requires OfferInv(r, cfg)
    ensures var t := TimeOut(id, r, c, cfg, now);
            t.target.Some? && InPool(t) ==> t.expires.Some? && now <= t.expires.value
  {
  }

  /** After a refresh every ride waiting in the pool has an unexpired offer or nobody left to ask. */
  lemma RefreshLeavesNoRideWaiting(s: State, env: Env, cfg: Config, now: int, id: nat)
    requires Inv(s, cfg) && s.clock == now && cfg.sequential && id < |s.rides|
    ensures var t := RefreshOffers(s, env, cfg, now);
            && |t.rides| == |s.rides|
            && (InPool(t.rides[id]) ==>
                  || (t.rides[id].target.Some? && t.rides[id].expires.Some? && now <= t.rides[id].expires.value)
                  || (t.rides[id].target.None? && Candidates(t.rides[id], DispatchContext(t, env)) == []))
  {
    TimeoutsKeep(s, env, cfg, now);
    RefreshKeeps(s, env, cfg, now);
    var t := ProcessTimeouts(s, env, cfg, now);
    NoLapsedOfferLeft(id, s.rides[id], DispatchContext(s, env), cfg, now);
    StartedOrExhausted(id, t.rides[id], DispatchContext(t, env), cfg, now);
  }

  /** A ride that the pool listing shows to a driver is his for the asking: accepted at the same
      reading of the clock and the presence tables, it is granted. */
  lemma ListedRideCanBeAccepted(s: State, d: int, id: nat, keyed: bool, env: Env, cfg: Config, now: int)
    requires Inv(s, cfg) && s.clock == now && EligibleForClaim(s, env, d)
    requires id < |s.rides| && VisibleTo(ListRides(s, d, env, cfg, now).0.rides[id], d)
    ensures var (t, outcome) := AcceptRide(ListRides(s, d, env, cfg, now).0, id, d, keyed, env, cfg, now);
            outcome == Done && t.rides[id].status == Accepted && t.rides[id].driver == Some(d)
  {
    var t := RefreshOffers(s, env, cfg, now);
    RefreshKeeps(s, env, cfg, now);
    assert HasActiveRide(t.rides, d) <==> d in DispatchContext(t, env).busy;
    assert EligibleForClaim(t, env, d);
    if cfg.sequential {
      RefreshLeavesNoRideWaiting(s, env, cfg, now, id);
    }
  }

  // --- Claims -----------------------------------------------------------------------------------

  /** The wins and releases among the claim rows. */
  function Transfers(claims: seq<ClaimRow>): seq<ClaimRow> {
    if claims == [] then []
    else
      var n := |claims| - 1;
      Transfers(claims[..n])
      + if claims[n].event == ClaimWon || claims[n].event == ClaimReleased then [claims[n]] else []
  }

  predicate Alternating(t: seq<ClaimRow>) {
    && (forall k :: 0 <= k < |t| ==> t[k].event == if k % 2 == 0 then ClaimWon else ClaimReleased)
    && (forall k :: 0 <= k < |t| && k % 2 == 1 ==> t[k].driver == t[k - 1].driver)
  }

  /** Wins and releases alternate strictly, starting with a win, each release by the last winner. */
  lemma {:induction false} TransfersAlternate(claims: seq<ClaimRow>)
    requires Replay(claims) != Broken
    ensures var t := Transfers(claims);
            && Alternating(t)
            && Replay(claims) == (if |t| % 2 == 0 then Free else HeldBy(t[|t| - 1].driver))
            && Releases(claims) == |t| / 2
  {
    if claims != [] {
      var n := |claims| - 1;
      TransfersAlternate(claims[..n]);
      var before, t := Transfers(claims[..n]), Transfers(claims);
      assert forall k :: 0 <= k < |before| ==> t[k] == before[k];
    }
  }

  predicate ClaimsAgree(r: Ride) {
    var t := Transfers(r.claims);
    && Alternating(t)
    && |t| % 2 == (if r.status == Requested || r.status == Cancelled then 0 else 1)
    && (r.status != Cancelled ==> r.driver == if t == [] || |t| % 2 == 0 then None else Some(t[|t| - 1].driver))
  }

  /** Replaying a ride's claim rows yields its driver, or nobody once it is cancelled; wins exceed
      releases by one while a driver has it or has completed it, and by none otherwise. */
  lemma ClaimsTellTheHolder(s: State, id: nat, cfg: Config)
    requires Reachable(s, cfg) && cfg.maxAttempts >= 1 && id < |s.rides|
    ensures ClaimsAgree(s.rides[id])
  {
    hide Reachable;
    ReachableInv(s, cfg);
    RideClaims(s.rides[id], s.clock);
  }

  lemma RideClaims(r: Ride, now: int)
    requires ClaimInv(r) && TimeInv(r, now)
    ensures ClaimsAgree(r)
  {
    TransfersAlternate(r.claims);
  }

  /** No driver ever holds two rides at once. */
  lemma OneRideAtATime(s: State, cfg: Config, i: nat, j: nat, d: int)
    requires Reachable(s, cfg) && cfg.maxAttempts >= 1 && i < |s.rides| && j < |s.rides|
    requires Holds(s.rides[i], d) && Holds(s.rides[j], d)
    ensures i == j
  {
    hide Reachable;
    ReachableInv(s, cfg);
  }

  // --- Status and money -------------------------------------------------------------------------

  /** The timestamps determine the status, they are in order, a ride in the pool has no driver, and
      Offered is never reached. */
  lemma TimesTellTheStatus(s: State, id: nat, cfg: Config)
    requires Reachable(s, cfg) && cfg.maxAttempts >= 1 && id < |s.rides|
    ensures var r := s.rides[id];
            && r.status == StatusFromTimes(r) && r.status != Offered
            && (r.status == Requested ==> r.driver.None? && r.acceptedAt.None?)
            && After(Some(r.createdAt), r.acceptedAt) && After(r.acceptedAt, r.arrivedAt)
            && After(r.arrivedAt, r.startedAt) && After(r.startedAt, r.completedAt)
            && !(r.completedAt.Some? && r.cancelledAt.Some?)
            && (r.cancelledAt.Some? ==> CancelledLast(r))
  {
    hide Reachable;
    ReachableInv(s, cfg);
  }

  /** No timestamp of a cancelled ride is later than its cancellation. */
  predicate CancelledLast(r: Ride)
    requires r.cancelledAt.Some?
  {
    && r.createdAt <= r.cancelledAt.value
    && (r.acceptedAt.Some? ==> r.acceptedAt.value <= r.cancelledAt.value)
    && (r.arrivedAt.Some? ==> r.arrivedAt.value <= r.cancelledAt.value)
    && (r.startedAt.Some? ==> r.startedAt.value <= r.cancelledAt.value)
  }

  /** A ride is completed iff its pricing is locked iff it has settlement rows; generating them again
      returns the same rows; they settle the customer's total; and it has one charge, of that total. */
  lemma CompletedIsLockedIsSettled(s: State, id: nat, cfg: Config)
    requires Reachable(s, cfg) && cfg.maxAttempts >= 1 && id < |s.rides|
    ensures var r := s.rides[id];
            && (r.status == Completed <==> r.pricing.locked) && (r.status == Completed <==> r.settlement != [])
            && (r.status == Completed ==>
                  && Generated(r.settlement, r.status, Some(r.pricing)) == Ok(r.settlement)
                  && Settles(r.settlement)
                  && AmountOf(r.settlement, CustomerCharge) == r.pricing.customerTotal
                  && r.charges == [Charge(r.pricing.customerTotal)]
                  && Charged(r.charges, Some(r.pricing)) == Ok(r.charges))
            && (r.status != Completed ==> r.charges == [])
  {
    hide Reachable;
    ReachableInv(s, cfg);
    BalancedRowSettles(s.rides[id].pricing);
  }
}
