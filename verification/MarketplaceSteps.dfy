/** Every handler keeps the invariant, and so does every run of the marketplace. */
module MarketplaceSteps {
  import opened Wrappers
  import opened Lifecycle
  import opened OfferLog
  import opened Pricing
  import opened RidePricing
  import opened Settlement
  import opened Marketplace
  import opened MarketplaceInvariants

  // --- One ride ---------------------------------------------------------------------------------

  lemma NewRideKeeps(customer: Option<int>, km: real, minutes: int, p: Policy, cfg: Config, now: int)
    requires Sound(p) && cfg.maxAttempts >= 1
    ensures RideInv(NewRide(customer, km, minutes, p, now), cfg, now)
  {
    QuoteIsBalanced(BLANK, km, minutes, 0, p);
  }

  /** Everything a ride keeps beside its offers. */
  predicate BooksInv(r: Ride, now: int) {
    TimeInv(r, now) && ClaimInv(r) && MoneyInv(r)
  }

  lemma OfferNextKeepsBooks(id: nat, r: Ride, c: Context, cfg: Config, now: int)
    requires BooksInv(r, now)
    ensures BooksInv(OfferNext(id, r, c, cfg, now), now)
  {
  }

  lemma AdvanceKeepsBooks(id: nat, r: Ride, c: Context, cfg: Config, now: int)
    requires BooksInv(r, now)
    ensures BooksInv(Advance(id, r, c, cfg, now), now)
  {
    if InPool(r) && r.attempts < cfg.maxAttempts {
      OfferNextKeepsBooks(id, r.(target := None, expires := None), c, cfg, now);
    }
  }

  lemma DispatchKeepsRide(id: nat, r: Ride, c: Context, cfg: Config, now: int)
    requires RideInv(r, cfg, now)
    ensures RideInv(StartDispatch(id, r, c, cfg, now), cfg, now)
  {
    StartDispatchKeeps(id, r, c, cfg, now);
    OfferNextKeepsBooks(id, r, c, cfg, now);
  }

  lemma CloseKeepsBooks(r: Ride, d: int, result: OfferResult, now: int)
    requires BooksInv(r, now)
    ensures BooksInv(CloseOffer(r, d, result, now), now)
  {
  }

  lemma BooksAndOffers(r: Ride, cfg: Config, now: int)
    ensures RideInv(r, cfg, now) <==> OfferInv(r, cfg) && BooksInv(r, now)
  {
  }

  lemma FailedOfferKeepsRide(id: nat, r: Ride, d: int, result: OfferResult, c: Context, cfg: Config, now: int)
    requires RideInv(r, cfg, now) && (result == OfferResult.Declined || result == TimedOut)
    requires r.target == Some(d) || HasOpenOffer(r.log, d)
    ensures RideInv(Advance(id, CloseOffer(r, d, result, now), c, cfg, now), cfg, now)
  {
    BooksAndOffers(r, cfg, now);
    AdvanceKeeps(id, r, d, result, c, cfg, now);
    CloseKeepsBooks(r, d, result, now);
    hide OfferInv, BooksInv, Advance, CloseOffer;
    AdvanceKeepsBooks(id, CloseOffer(r, d, result, now), c, cfg, now);
    BooksAndOffers(Advance(id, CloseOffer(r, d, result, now), c, cfg, now), cfg, now);
  }

  lemma TimeOutKeepsRide(id: nat, r: Ride, c: Context, cfg: Config, now: int)
    requires RideInv(r, cfg, now)
    ensures RideInv(TimeOut(id, r, c, cfg, now), cfg, now)
    ensures RideInv(ExpireOffer(id, r, c, cfg, now), cfg, now)
  {
    if r.target.Some? {
      FailedOfferKeepsRide(id, r, r.target.value, TimedOut, c, cfg, now);
    }
  }

  lemma ClaimKeepsOffers(r: Ride, d: int, cfg: Config, now: int)
    requires OfferInv(r, cfg) && InPool(r)
    requires cfg.sequential ==> r.target.None? || r.target == Some(d)
    ensures OfferInv(Claim(r, d, now), cfg)
  {
    CloseOpenOffer(r.log, d, Taken, now);
    ReplayAppendTwo(r.claims, ClaimRow(ClaimAttempted, d, d), ClaimRow(ClaimWon, d, d));
    hide Offers, Close, Accepts, Releases;
    var o, closed := Offers(r.log), Offers(Close(r.log, d, Taken, now));
    assert NoOpenOffer(closed) && OffersInOrder(closed) && |closed| == r.attempts;
    assert !cfg.sequential ==> closed == [];
  }

  lemma ClaimKeepsRide(r: Ride, d: int, cfg: Config, now: int)
    requires RideInv(r, cfg, now) && InPool(r)
    requires cfg.sequential ==> r.target.None? || r.target == Some(d)
    ensures RideInv(Claim(r, d, now), cfg, now)
  {
    hide OfferInv, Close, Replay, Releases;
    ClaimKeepsOffers(r, d, cfg, now);
    ReplayAppendTwo(r.claims, ClaimRow(ClaimAttempted, d, d), ClaimRow(ClaimWon, d, d));
  }

  lemma LostClaimKeepsRide(r: Ride, d: int, cfg: Config, now: int)
    requires RideInv(r, cfg, now)
    ensures RideInv(LostClaim(r, d), cfg, now)
  {
    ReplayAppendTwo(r.claims, ClaimRow(ClaimAttempted, d, d), ClaimRow(ClaimLost, d, d));
  }

  lemma ReleaseKeepsRide(r: Ride, d: int, cfg: Config, now: int)
    requires RideInv(r, cfg, now) && r.status == Accepted && r.driver == Some(d)
    ensures RideInv(Release(r, d), cfg, now)
  {
    ReplayAppend(r.claims, ClaimRow(ClaimReleased, d, d));
  }

  lemma AbandonKeepsRide(r: Ride, customer: int, cfg: Config, now: int)
    requires RideInv(r, cfg, now) && !IsTerminal(r.status)
    ensures RideInv(Abandon(r, Cancelled, customer, now), cfg, now)
  {
    match r.driver
    case Some(d) => ReplayAppend(r.claims, ClaimRow(ClaimReleased, d, customer));
    case None => assert r.claims + [] == r.claims;
  }

  lemma FinishKeepsRide(r: Ride, f: CompletionFees, p: Policy, cfg: Config, now: int)
    requires RideInv(r, cfg, now) && r.status == InProgress && Sound(p)
    ensures RideInv(Finish(r, Completed, f, p, now), cfg, now)
  {
    FinalizedIsBalanced(Some(r.pricing), r.distanceKm, r.duration, f, p, true, now);
    var priced := Finalized(Some(r.pricing), r.distanceKm, r.duration, f, p, true, now);
    assert EntriesFor(priced)[0].entryType == CustomerCharge;
  }

  lemma ProgressKeepsRide(r: Ride, cfg: Config, now: int)
    requires RideInv(r, cfg, now)
    ensures r.status == Accepted ==> RideInv(r.(status := DriverArrived, arrivedAt := Some(now)), cfg, now)
    ensures r.status == DriverArrived ==> RideInv(r.(status := InProgress, startedAt := Some(now)), cfg, now)
  {
  }

  // --- The table --------------------------------------------------------------------------------

  lemma UpdateKeeps(s: State, id: nat, r: Ride, cfg: Config, now: int)
    requires Inv(s, cfg) && s.clock == now && id < |s.rides| && RideInv(r, cfg, now)
    requires forall d :: Holds(r, d) ==>
                           Holds(s.rides[id], d) || forall k :: 0 <= k < |s.rides| ==> !Holds(s.rides[k], d)
    ensures Inv(With(s, id, r), cfg)
  {
    hide RideInv;
  }

  /** Time passing keeps the invariant. */
  lemma IdleKeeps(s: State, cfg: Config, now: int)
    requires Inv(s, cfg) && s.clock <= now
    ensures Inv(s.(clock := now), cfg)
  {
  }

  lemma SameRidesKeep(s: State, t: State, cfg: Config)
    requires Inv(s, cfg) && t.rides == s.rides && t.clock == s.clock
    ensures Inv(t, cfg)
  {
  }

  lemma CreateKeeps(s: State, customer: Option<int>, km: real, minutes: int, p: Policy, env: Env, cfg: Config, now: int)
    requires Inv(s, cfg) && s.clock == now && Sound(p) && cfg.maxAttempts >= 1
    ensures Inv(Create(s, customer, km, minutes, p, env, cfg, now), cfg)
  {
    hide RideInv;
    var t := s.(rides := s.rides + [NewRide(customer, km, minutes, p, now)]);
    NewRideKeeps(customer, km, minutes, p, cfg, now);
    assert Inv(t, cfg);
    var id := |s.rides|;
    DispatchKeepsRide(id, t.rides[id], DispatchContext(t, env), cfg, now);
    UpdateKeeps(t, id, StartDispatch(id, t.rides[id], DispatchContext(t, env), cfg, now), cfg, now);
  }

  lemma AcceptKeeps(s: State, id: nat, d: int, keyed: bool, env: Env, cfg: Config, now: int)
    requires Inv(s, cfg) && s.clock == now
    ensures Inv(AcceptRide(s, id, d, keyed, env, cfg, now).0, cfg)
  {
    hide RideInv;
    if id < |s.rides| {
      var r := s.rides[id];
      if r.driver.Some? || r.status == Accepted {
        LostClaimKeepsRide(r, d, cfg, now);
        UpdateKeeps(s, id, LostClaim(r, d), cfg, now);
      } else if EligibleForClaim(s, env, d) && r.status == Requested {
        var started := StartDispatch(id, r, DispatchContext(s, env), cfg, now);
        DispatchKeepsRide(id, r, DispatchContext(s, env), cfg, now);
        UpdateKeeps(s, id, started, cfg, now);
        if !(cfg.sequential && started.target.Some? && started.target.value != d) {
          ClaimKeepsRide(started, d, cfg, now);
          UpdateKeeps(s, id, Claim(started, d, now), cfg, now);
        }
      }
    }
  }

  lemma DeclineKeeps(s: State, id: nat, d: int, env: Env, cfg: Config, now: int)
    requires Inv(s, cfg) && s.clock == now
    ensures Inv(DeclineRide(s, id, d, env).0, cfg)
  {
    hide RideInv;
    if DeclineRide(s, id, d, env).1 == Done {
      ReleaseKeepsRide(s.rides[id], d, cfg, now);
      UpdateKeeps(s, id, Release(s.rides[id], d), cfg, now);
    }
  }

  lemma DeclineOfferKeeps(s: State, id: nat, d: int, env: Env, cfg: Config, now: int)
    requires Inv(s, cfg) && s.clock == now
    ensures Inv(DeclineOffer(s, id, d, env, cfg, now).0, cfg)
  {
    hide RideInv;
    if DeclineOffer(s, id, d, env, cfg, now).1 == Done {
      var c := DispatchContext(s, env);
      FailedOfferKeepsRide(id, s.rides[id], d, OfferResult.Declined, c, cfg, now);
      UpdateKeeps(s, id, Advance(id, CloseOffer(s.rides[id], d, OfferResult.Declined, now), c, cfg, now), cfg, now);
    }
  }

  lemma ArriveKeeps(s: State, id: nat, d: int, env: Env, cfg: Config, now: int)
    requires Inv(s, cfg) && s.clock == now
    ensures Inv(ArrivePickup(s, id, d, env, now).0, cfg)
  {
    hide RideInv;
    if ArrivePickup(s, id, d, env, now).1 == Done {
      ProgressKeepsRide(s.rides[id], cfg, now);
      UpdateKeeps(s, id, s.rides[id].(status := DriverArrived, arrivedAt := Some(now)), cfg, now);
    }
  }

  lemma StartKeeps(s: State, id: nat, d: int, env: Env, cfg: Config, now: int)
    requires Inv(s, cfg) && s.clock == now
    ensures Inv(StartRide(s, id, d, env, now).0, cfg)
  {
    hide RideInv;
    if StartRide(s, id, d, env, now).1 == Done {
      ProgressKeepsRide(s.rides[id], cfg, now);
      UpdateKeeps(s, id, s.rides[id].(status := InProgress, startedAt := Some(now)), cfg, now);
    }
  }

  lemma CompleteKeeps(s: State, id: nat, d: int, f: CompletionFees, p: Policy, env: Env, cfg: Config, now: int)
    requires Inv(s, cfg) && s.clock == now && Sound(p)
    ensures Inv(CompleteRide(s, id, d, f, p, env, now).0, cfg)
  {
    hide RideInv;
    if CompleteRide(s, id, d, f, p, env, now).1 == Done {
      FinishKeepsRide(s.rides[id], f, p, cfg, now);
      UpdateKeeps(s, id, Finish(s.rides[id], Completed, f, p, now), cfg, now);
    }
  }

  lemma CancelKeeps(s: State, id: nat, customer: int, cfg: Config, now: int)
    requires Inv(s, cfg) && s.clock == now
    ensures Inv(CancelRide(s, id, customer, now).0, cfg)
  {
    hide RideInv;
    if CancelRide(s, id, customer, now).1 == Done {
      AbandonKeepsRide(s.rides[id], customer, cfg, now);
      UpdateKeeps(s, id, Abandon(s.rides[id], Cancelled, customer, now), cfg, now);
    }
  }

  lemma PaymentKeeps(s: State, id: nat, d: int, cfg: Config, now: int)
    requires Inv(s, cfg) && s.clock == now
    ensures Inv(RequestPayment(s, id, d, cfg).0, cfg)
  {
    if RequestPayment(s, id, d, cfg).1 == Done {
      var r := s.rides[id];
      UpdateKeeps(s, id, r.(charges := Charged(r.charges, Some(r.pricing)).value), cfg, now);
    }
  }

  /** The cascade gives no driver a ride and takes none away. */
  lemma CascadeNeverAssigns(id: nat, r: Ride, c: Context, cfg: Config, now: int, d: int)
    ensures Holds(TimeOut(id, r, c, cfg, now), d) <==> Holds(r, d)
    ensures Holds(StartDispatch(id, r, c, cfg, now), d) <==> Holds(r, d)
  {
  }

  lemma SameHoldersSameBusy(a: seq<Ride>, b: seq<Ride>)
    requires |a| == |b| && forall i, d :: 0 <= i < |a| ==> (Holds(a[i], d) <==> Holds(b[i], d))
    ensures BusyDrivers(a) == BusyDrivers(b)
  {
    forall d ensures d in BusyDrivers(a) <==> d in BusyDrivers(b) {
      if i :| 0 <= i < |a| && Holds(a[i], d) { assert Holds(b[i], d); }
      if i :| 0 <= i < |b| && Holds(b[i], d) { assert Holds(a[i], d); }
    }
  }

  lemma TimeoutsKeep(s: State, env: Env, cfg: Config, now: int)
    requires Inv(s, cfg) && s.clock == now
    ensures Inv(ProcessTimeouts(s, env, cfg, now), cfg)
    ensures DispatchContext(ProcessTimeouts(s, env, cfg, now), env) == DispatchContext(s, env)
  {
    hide RideInv;
    var c := DispatchContext(s, env);
    var rides := ProcessTimeouts(s, env, cfg, now).rides;
    forall i | 0 <= i < |rides| ensures RideInv(rides[i], cfg, now) {
      TimeOutKeepsRide(i, s.rides[i], c, cfg, now);
    }
    forall i, d | 0 <= i < |rides| ensures Holds(rides[i], d) <==> Holds(s.rides[i], d) {
      CascadeNeverAssigns(i, s.rides[i], c, cfg, now, d);
    }
    SameHoldersSameBusy(rides, s.rides);
  }

  lemma RefreshKeeps(s: State, env: Env, cfg: Config, now: int)
    requires Inv(s, cfg) && s.clock == now
    ensures Inv(RefreshOffers(s, env, cfg, now), cfg)
    ensures DispatchContext(RefreshOffers(s, env, cfg, now), env) == DispatchContext(s, env)
  {
    hide RideInv;
    TimeoutsKeep(s, env, cfg, now);
    var t := ProcessTimeouts(s, env, cfg, now);
    var c := DispatchContext(t, env);
    var rides := RefreshOffers(s, env, cfg, now).rides;
    forall i | 0 <= i < |rides| ensures RideInv(rides[i], cfg, now) {
      DispatchKeepsRide(i, t.rides[i], c, cfg, now);
    }
    forall i, d | 0 <= i < |rides| ensures Holds(rides[i], d) <==> Holds(t.rides[i], d) {
      CascadeNeverAssigns(i, t.rides[i], c, cfg, now, d);
    }
    SameHoldersSameBusy(rides, t.rides);
  }

  lemma ExpireKeeps(s: State, id: nat, env: Env, cfg: Config, now: int)
    requires Inv(s, cfg) && s.clock == now && id < |s.rides|
    ensures Inv(With(s, id, ExpireOffer(id, s.rides[id], DispatchContext(s, env), cfg, now)), cfg)
  {
    hide RideInv;
    TimeOutKeepsRide(id, s.rides[id], DispatchContext(s, env), cfg, now);
    UpdateKeeps(s, id, ExpireOffer(id, s.rides[id], DispatchContext(s, env), cfg, now), cfg, now);
  }

  lemma DispatchKeeps(s: State, id: nat, env: Env, cfg: Config, now: int)
    requires Inv(s, cfg) && s.clock == now && id < |s.rides|
    ensures Inv(With(s, id, StartDispatch(id, s.rides[id], DispatchContext(s, env), cfg, now)), cfg)
  {
    hide RideInv;
    DispatchKeepsRide(id, s.rides[id], DispatchContext(s, env), cfg, now);
    UpdateKeeps(s, id, StartDispatch(id, s.rides[id], DispatchContext(s, env), cfg, now), cfg, now);
  }

  // --- Steps and runs ---------------------------------------------------------------------------

  lemma CascadeStepKeepsInv(s: State, call: Call, cfg: Config)
    requires Inv(s, cfg) && s.clock == call.now && cfg.maxAttempts >= 1
    requires call.event.ListEvent? || call.event.TimeoutsEvent? || call.event.ExpireEvent? || call.event.DispatchEvent?
    ensures Inv(Handle(s, call, cfg).0, cfg)
  {
    hide Inv;
    var env, now := call.env, call.now;
    match call.event
    case ListEvent(d) => RefreshKeeps(s, env, cfg, now);
    case TimeoutsEvent => TimeoutsKeep(s, env, cfg, now);
    case ExpireEvent(id) => if id < |s.rides| { ExpireKeeps(s, id, env, cfg, now); }
    case DispatchEvent(id) => if id < |s.rides| { DispatchKeeps(s, id, env, cfg, now); }
  }

  lemma DriverStepKeepsInv(s: State, call: Call, cfg: Config)
    requires Inv(s, cfg) && s.clock == call.now && Admissible(s, call)
    requires call.event.ArriveEvent? || call.event.StartEvent? || call.event.CompleteEvent? || call.event.PaymentEvent?
    ensures Inv(Handle(s, call, cfg).0, cfg)
  {
    hide Inv;
    var env, now := call.env, call.now;
    match call.event
    case ArriveEvent(id, d) => ArriveKeeps(s, id, d, env, cfg, now);
    case StartEvent(id, d) => StartKeeps(s, id, d, env, cfg, now);
    case CompleteEvent(id, d, f, p) => CompleteKeeps(s, id, d, f, p, env, cfg, now);
    case PaymentEvent(id, d) => PaymentKeeps(s, id, d, cfg, now);
  }

  lemma PoolStepKeepsInv(s: State, call: Call, cfg: Config)
    requires Inv(s, cfg) && s.clock == call.now && Admissible(s, call)
    requires call.event.AcceptEvent? || call.event.DeclineEvent? || call.event.DeclineOfferEvent?
             || call.event.CancelEvent?
    ensures Inv(Handle(s, call, cfg).0, cfg)
  {
    hide Inv;
    var env, now := call.env, call.now;
    match call.event
    case AcceptEvent(id, d, keyed) => AcceptKeeps(s, id, d, keyed, env, cfg, now);
    case DeclineEvent(id, d) => DeclineKeeps(s, id, d, env, cfg, now);
    case DeclineOfferEvent(id, d) => DeclineOfferKeeps(s, id, d, env, cfg, now);
    case CancelEvent(id, rider) => CancelKeeps(s, id, rider, cfg, now);
  }

  /** Whatever the request and whoever sends it, the invariant holds afterwards. */
  lemma StepKeepsInv(s: State, call: Call, cfg: Config)
    requires Inv(s, cfg) && Admissible(s, call) && cfg.maxAttempts >= 1
    ensures Inv(Step(s, call, cfg), cfg)
  {
    hide Inv;
    var t := s.(clock := call.now);
    IdleKeeps(s, cfg, call.now);
    match call.event
    case CreateEvent(customer, km, minutes, p) => CreateKeeps(t, customer, km, minutes, p, call.env, cfg, call.now);
    case ApprovalEvent(_, _) => SameRidesKeep(t, Step(s, call, cfg), cfg);
    case ListEvent(_) => CascadeStepKeepsInv(t, call, cfg);
    case TimeoutsEvent => CascadeStepKeepsInv(t, call, cfg);
    case ExpireEvent(_) => CascadeStepKeepsInv(t, call, cfg);
    case DispatchEvent(_) => CascadeStepKeepsInv(t, call, cfg);
    case AcceptEvent(_, _, _) => PoolStepKeepsInv(t, call, cfg);
    case DeclineEvent(_, _) => PoolStepKeepsInv(t, call, cfg);
    case DeclineOfferEvent(_, _) => PoolStepKeepsInv(t, call, cfg);
    case CancelEvent(_, _) => PoolStepKeepsInv(t, call, cfg);
    case _ => DriverStepKeepsInv(t, call, cfg);
  }

  /** The invariant holds in every reachable state, whatever the number of rides, drivers and requests. */
  lemma {:induction false} RunKeepsInv(s: State, calls: seq<Call>, cfg: Config)
    requires Inv(s, cfg) && AdmissibleRun(s, calls, cfg) && cfg.maxAttempts >= 1
    ensures Inv(Run(s, calls, cfg), cfg)
  {
    hide Inv;
    if calls != [] {
      RunKeepsInv(s, calls[..|calls| - 1], cfg);
      StepKeepsInv(Run(s, calls[..|calls| - 1], cfg), calls[|calls| - 1], cfg);
    }
  }
}
