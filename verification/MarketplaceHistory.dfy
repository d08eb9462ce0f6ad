/** What no later step takes back: ended rides, claim rows, and a suspended driver's standing. */
module MarketplaceHistory {
  import opened Wrappers
  import opened Lifecycle
  import opened OfferLog
  import opened Pricing
  import opened RidePricing
  import opened Settlement
  import opened Marketplace
  import opened MarketplaceInvariants
  import opened MarketplaceSteps

  /** An ended ride keeps its status, driver, timestamps and money. */
  predicate SameEnding(r: Ride, t: Ride) {
    && t.status == r.status && t.driver == r.driver
    && t.acceptedAt == r.acceptedAt && t.arrivedAt == r.arrivedAt && t.startedAt == r.startedAt
    && t.completedAt == r.completedAt && t.cancelledAt == r.cancelledAt
    && t.pricing == r.pricing && t.settlement == r.settlement && t.charges == r.charges
  }

  /** The identity of a ride and its claim rows are kept by every step, its ending once it has one. */
  predicate Continues(r: Ride, t: Ride) {
    && t.customer == r.customer && t.createdAt == r.createdAt
    && r.claims <= t.claims && r.attempts <= t.attempts
    && (IsTerminal(r.status) ==> SameEnding(r, t))
  }

  lemma ContinuesTransitive(r: Ride, t: Ride, u: Ride)
    requires Continues(r, t) && Continues(t, u)
    ensures Continues(r, u)
  {
  }

  lemma CascadeContinues(id: nat, r: Ride, d: int, result: OfferResult, c: Context, cfg: Config, now: int)
    ensures Continues(r, Advance(id, CloseOffer(r, d, result, now), c, cfg, now))
    ensures Continues(r, StartDispatch(id, r, c, cfg, now))
    ensures Continues(r, TimeOut(id, r, c, cfg, now))
    ensures Continues(r, ExpireOffer(id, r, c, cfg, now))
  {
  }

  /** The rides of the later table continue those of the earlier one; none is removed. */
  ghost predicate TableContinues(s: State, t: State) {
    |s.rides| <= |t.rides| && forall i :: 0 <= i < |s.rides| ==> Continues(s.rides[i], t.rides[i])
  }

  lemma UpdateContinues(s: State, id: nat, r: Ride)
    requires id < |s.rides| && Continues(s.rides[id], r)
    ensures TableContinues(s, With(s, id, r))
  {
  }

  lemma HandlersContinue(s: State, call: Call, cfg: Config)
    requires Inv(s, cfg) && !call.event.ListEvent? && !call.event.TimeoutsEvent?
    ensures TableContinues(s, Handle(s, call, cfg).0)
  {
    hide TableContinues, Inv;
    var env, now, c := call.env, call.now, DispatchContext(s, call.env);
    NothingContinues(s);
    match call.event
    case CreateEvent(customer, km, minutes, p) => CreateContinues(s, customer, km, minutes, p, env, cfg, now);
    case AcceptEvent(id, d, keyed) => AcceptContinues(s, id, d, keyed, env, cfg, now);
    case DeclineEvent(id, d) =>
      if DeclineRide(s, id, d, env).1 == Done { UpdateContinues(s, id, Release(s.rides[id], d)); }
    case DeclineOfferEvent(id, d) =>
      if id < |s.rides| {
        CascadeContinues(id, s.rides[id], d, OfferResult.Declined, c, cfg, now);
        UpdateContinues(s, id, Advance(id, CloseOffer(s.rides[id], d, OfferResult.Declined, now), c, cfg, now));
      }
    case ExpireEvent(id) =>
      if id < |s.rides| {
        CascadeContinues(id, s.rides[id], 0, TimedOut, c, cfg, now);
        UpdateContinues(s, id, ExpireOffer(id, s.rides[id], c, cfg, now));
      }
    case DispatchEvent(id) =>
      if id < |s.rides| {
        CascadeContinues(id, s.rides[id], 0, TimedOut, c, cfg, now);
        UpdateContinues(s, id, StartDispatch(id, s.rides[id], c, cfg, now));
      }
    case ApprovalEvent(d, a) => SameTableContinues(s, SetApproval(s, d, a, env).0);
    case _ => ProgressContinues(s, call, cfg);
  }

  lemma SameTableContinues(s: State, t: State)
    requires t.rides == s.rides
    ensures TableContinues(s, t)
  {
  }

  lemma NothingContinues(s: State)
    ensures TableContinues(s, s)
  {
  }

  lemma CreateContinues(
    s: State, customer: Option<int>, km: real, minutes: int, p: Policy, env: Env, cfg: Config, now: int)
    ensures TableContinues(s, Create(s, customer, km, minutes, p, env, cfg, now))
  {
  }

  lemma AcceptContinues(s: State, id: nat, d: int, keyed: bool, env: Env, cfg: Config, now: int)
    ensures TableContinues(s, AcceptRide(s, id, d, keyed, env, cfg, now).0)
  {
    NothingContinues(s);
    if id < |s.rides| {
      var r := s.rides[id];
      UpdateContinues(s, id, LostClaim(r, d));
      if r.status == Requested {
        var started := StartDispatch(id, r, DispatchContext(s, env), cfg, now);
        CascadeContinues(id, r, d, TimedOut, DispatchContext(s, env), cfg, now);
        UpdateContinues(s, id, started);
        UpdateContinues(s, id, Claim(started, d, now));
      }
    }
  }

  lemma ProgressContinues(s: State, call: Call, cfg: Config)
    requires Inv(s, cfg)
    requires call.event.ArriveEvent? || call.event.StartEvent? || call.event.CompleteEvent?
             || call.event.CancelEvent? || call.event.PaymentEvent?
    ensures TableContinues(s, Handle(s, call, cfg).0)
  {
    hide TableContinues, Inv, CompleteRide, CancelRide, RequestPayment;
    var now := call.now;
    NothingContinues(s);
    match call.event
    case ArriveEvent(id, d) =>
      if ArrivePickup(s, id, d, call.env, now).1 == Done {
        UpdateContinues(s, id, s.rides[id].(status := DriverArrived, arrivedAt := Some(now)));
      }
    case StartEvent(id, d) =>
      if StartRide(s, id, d, call.env, now).1 == Done {
        UpdateContinues(s, id, s.rides[id].(status := InProgress, startedAt := Some(now)));
      }
    case CompleteEvent(id, d, f, p) => CompleteContinues(s, id, d, f, p, call.env, now);
    case CancelEvent(id, rider) => CancelContinues(s, id, rider, now);
    case PaymentEvent(id, d) => PaymentContinues(s, id, d, cfg);
  }

  lemma CompleteContinues(s: State, id: nat, d: int, f: CompletionFees, p: Policy, env: Env, now: int)
    ensures TableContinues(s, CompleteRide(s, id, d, f, p, env, now).0)
  {
    hide TableContinues;
    NothingContinues(s);
    if CompleteRide(s, id, d, f, p, env, now).1 == Done {
      UpdateContinues(s, id, Finish(s.rides[id], Completed, f, p, now));
    }
  }

  lemma CancelContinues(s: State, id: nat, rider: int, now: int)
    ensures TableContinues(s, CancelRide(s, id, rider, now).0)
  {
    hide TableContinues;
    NothingContinues(s);
    if CancelRide(s, id, rider, now).1 == Done {
      UpdateContinues(s, id, Abandon(s.rides[id], Cancelled, rider, now));
    }
  }

  /** Asking again for the payment of a completed ride finds its charge. */
  lemma PaymentContinues(s: State, id: nat, d: int, cfg: Config)
    requires Inv(s, cfg)
    ensures TableContinues(s, RequestPayment(s, id, d, cfg).0)
  {
    hide TableContinues;
    NothingContinues(s);
    if RequestPayment(s, id, d, cfg).1 == Done {
      assert MoneyInv(s.rides[id]);
      UpdateContinues(s, id, s.rides[id].(charges := Charged(s.rides[id].charges, Some(s.rides[id].pricing)).value));
    }
  }

  lemma RefreshContinues(s: State, env: Env, cfg: Config, now: int)
    ensures TableContinues(s, ProcessTimeouts(s, env, cfg, now))
    ensures TableContinues(s, RefreshOffers(s, env, cfg, now))
  {
    var t := ProcessTimeouts(s, env, cfg, now);
    var u := RefreshOffers(s, env, cfg, now);
    forall i | 0 <= i < |s.rides| ensures Continues(s.rides[i], t.rides[i]) && Continues(s.rides[i], u.rides[i]) {
      CascadeContinues(i, s.rides[i], 0, TimedOut, DispatchContext(s, env), cfg, now);
      CascadeContinues(i, t.rides[i], 0, TimedOut, DispatchContext(t, env), cfg, now);
      ContinuesTransitive(s.rides[i], t.rides[i], u.rides[i]);
    }
  }

  lemma StepContinues(s: State, call: Call, cfg: Config)
    requires Inv(s, cfg) && s.clock <= call.now
    ensures TableContinues(s, Step(s, call, cfg))
  {
    hide Inv;
    var t := s.(clock := call.now);
    IdleKeeps(s, cfg, call.now);
    NothingContinues(t);
    if call.event.ListEvent? || call.event.TimeoutsEvent? {
      RefreshContinues(t, call.env, cfg, call.now);
    } else {
      HandlersContinue(t, call, cfg);
    }
  }

  /** Over every run, rides are never removed, claim rows are only appended, and a completed or
      cancelled ride keeps its status, driver, timestamps, price, settlement and charge. */
  lemma {:induction false} EndedRidesStayEnded(s: State, calls: seq<Call>, cfg: Config)
    requires Inv(s, cfg) && AdmissibleRun(s, calls, cfg) && cfg.maxAttempts >= 1
    ensures TableContinues(s, Run(s, calls, cfg))
  {
    hide Inv, TableContinues, Step, Admissible;
    NothingContinues(s);
    if calls != [] {
      var before, last := calls[..|calls| - 1], calls[|calls| - 1];
      EndedRidesStayEnded(s, before, cfg);
      RunKeepsInv(s, before, cfg);
      var t := Run(s, before, cfg);
      AdmissibleIsLater(t, last);
      StepContinues(t, last, cfg);
      TablesContinueTransitively(s, t, Step(t, last, cfg));
    }
  }

  lemma AdmissibleIsLater(s: State, call: Call)
    requires Admissible(s, call)
    ensures s.clock <= call.now
  {
  }

  lemma TablesContinueTransitively(s: State, t: State, u: State)
    requires TableContinues(s, t) && TableContinues(t, u)
    ensures TableContinues(s, u)
  {
    forall i | 0 <= i < |s.rides| ensures Continues(s.rides[i], u.rides[i]) {
      ContinuesTransitive(s.rides[i], t.rides[i], u.rides[i]);
    }
  }

  // --- Failures still to come -------------------------------------------------------------------

  predicate Failed(result: OfferResult) {
    result == OfferResult.Declined || result == TimedOut
  }

  function Failures(o: seq<OfferRow>): nat {
    if o == [] then 0 else Failures(o[..|o| - 1]) + if Failed(o[|o| - 1].result) then 1 else 0
  }

  lemma {:induction false} OffersHaveResults(o: seq<OfferRow>)
    requires forall i :: 0 <= i < |o| ==> o[i].result != Skipped
    requires forall i :: 0 <= i < |o| - 1 ==> o[i].result != Sent
    ensures Failures(o) + Accepts(o) + (if o != [] && o[|o| - 1].result == Sent then 1 else 0) == |o|
  {
    if o != [] {
      OffersHaveResults(o[..|o| - 1]);
    }
  }

  lemma {:induction false} ReleasesGrow(earlier: seq<ClaimRow>, later: seq<ClaimRow>)
    requires earlier <= later
    ensures Releases(earlier) <= Releases(later)
    decreases |later|
  {
    if |earlier| < |later| {
      ReleasesGrow(earlier, later[..|later| - 1]);
    } else {
      assert earlier == later;
    }
  }

  lemma OffersOfRide(r: Ride, cfg: Config)
    requires OfferInv(r, cfg)
    ensures Failures(Offers(r.log)) <= r.attempts
    ensures InPool(r) && Releases(r.claims) == 0 ==>
              Failures(Offers(r.log)) == r.attempts - if r.target.Some? then 1 else 0
  {
    var o := Offers(r.log);
    forall i | 0 <= i < |o| ensures o[i].result != Skipped {
      OfferIsLogged(r.log, i);
    }
    OffersHaveResults(o);
  }

  /** A ride in the pool that has never been released, after n attempts, can be refused or left unanswered at
      most as often again as the cap leaves attempts, its open offer included: over every run in which it
      is not released, however long. */
  lemma RemainingFailuresAreBounded(s: State, calls: seq<Call>, id: nat, cfg: Config)
    requires Inv(s, cfg) && AdmissibleRun(s, calls, cfg) && cfg.maxAttempts >= 1
    requires id < |s.rides| && InPool(s.rides[id])
    ensures id < |Run(s, calls, cfg).rides|
    ensures var r, t := s.rides[id], Run(s, calls, cfg).rides[id];
            Releases(t.claims) == 0 ==>
              Failures(Offers(t.log)) - Failures(Offers(r.log))
              <= cfg.maxAttempts - r.attempts + if r.target.Some? then 1 else 0
  {
    RunKeepsInv(s, calls, cfg);
    EndedRidesStayEnded(s, calls, cfg);
    hide Run, AdmissibleRun;
    var r, t := s.rides[id], Run(s, calls, cfg).rides[id];
    ReleasesGrow(r.claims, t.claims);
    OffersOfRide(r, cfg);
    OffersOfRide(t, cfg);
  }

  // --- Suspension -------------------------------------------------------------------------------

  /** Between two rows of a ride, driver d has come to nothing he did not have. */
  predicate GainsNothing(r: Ride, t: Ride, d: int) {
    && (t.driver == Some(d) ==> r.driver == Some(d))
    && (t.target == Some(d) ==> r.target == Some(d))
  }

  lemma CascadeSkipsUnavailable(
    id: nat, r: Ride, a: int, result: OfferResult, c: Context, cfg: Config, now: int, d: int)
    requires d !in c.available
    ensures GainsNothing(r, Advance(id, CloseOffer(r, a, result, now), c, cfg, now), d)
    ensures GainsNothing(r, StartDispatch(id, r, c, cfg, now), d)
    ensures GainsNothing(r, ExpireOffer(id, r, c, cfg, now), d)
    ensures GainsNothing(r, TimeOut(id, r, c, cfg, now), d)
  {
  }

  ghost predicate TableGainsNothing(s: State, t: State, d: int) {
    && |s.rides| <= |t.rides|
    && (forall i :: 0 <= i < |s.rides| ==> GainsNothing(s.rides[i], t.rides[i], d))
    && (forall i :: |s.rides| <= i < |t.rides| ==> t.rides[i].driver != Some(d) && t.rides[i].target != Some(d))
  }

  lemma UpdateGainsNothing(s: State, id: nat, r: Ride, d: int)
    requires id < |s.rides| && GainsNothing(s.rides[id], r, d)
    ensures TableGainsNothing(s, With(s, id, r), d)
  {
  }

  lemma RefreshGainsNothing(s: State, env: Env, cfg: Config, now: int, d: int)
    requires ApprovalOf(s, d) != Approved
    ensures TableGainsNothing(s, ProcessTimeouts(s, env, cfg, now), d)
    ensures TableGainsNothing(s, RefreshOffers(s, env, cfg, now), d)
  {
    var t := ProcessTimeouts(s, env, cfg, now);
    var u := RefreshOffers(s, env, cfg, now);
    forall i | 0 <= i < |s.rides|
      ensures GainsNothing(s.rides[i], t.rides[i], d) && GainsNothing(s.rides[i], u.rides[i], d)
    {
      CascadeSkipsUnavailable(i, s.rides[i], 0, TimedOut, DispatchContext(s, env), cfg, now, d);
      CascadeSkipsUnavailable(i, t.rides[i], 0, TimedOut, DispatchContext(t, env), cfg, now, d);
    }
  }

  lemma ApprovalStands(s: State, call: Call, cfg: Config, d: int)
    requires call.event.ApprovalEvent? ==> call.event.driver != d
    ensures ApprovalOf(Step(s, call, cfg), d) == ApprovalOf(s, d)
  {
    hide Advance, CloseOffer, StartDispatch, ExpireOffer;
  }

  lemma OfferEventGainsNothing(s: State, call: Call, cfg: Config, d: int)
    requires ApprovalOf(s, d) != Approved
    requires call.event.DeclineOfferEvent? || call.event.ExpireEvent? || call.event.DispatchEvent?
    ensures TableGainsNothing(s, Handle(s, call, cfg).0, d)
  {
    hide TableGainsNothing, Advance, CloseOffer, StartDispatch, ExpireOffer;
    var id, c, now := call.event.id, DispatchContext(s, call.env), call.now;
    SameTableGainsNothing(s, s, d);
    if id < |s.rides| {
      var r := s.rides[id];
      var a := if call.event.DeclineOfferEvent? then call.event.driver else 0;
      CascadeSkipsUnavailable(id, r, a, OfferResult.Declined, c, cfg, now, d);
      UpdateGainsNothing(s, id, Advance(id, CloseOffer(r, a, OfferResult.Declined, now), c, cfg, now), d);
      UpdateGainsNothing(s, id, ExpireOffer(id, r, c, cfg, now), d);
      UpdateGainsNothing(s, id, StartDispatch(id, r, c, cfg, now), d);
    }
  }

  /** No request by anybody gives an unapproved driver a ride or an offer. */
  lemma UnapprovedDriverGainsNothing(s: State, call: Call, cfg: Config, d: int)
    requires ApprovalOf(s, d) != Approved
    requires call.event.ApprovalEvent? ==> call.event.driver != d
    ensures TableGainsNothing(s, Step(s, call, cfg), d)
    ensures ApprovalOf(Step(s, call, cfg), d) == ApprovalOf(s, d)
  {
    ApprovalStands(s, call, cfg, d);
    hide TableGainsNothing, AcceptRide, Create, ProcessTimeouts, RefreshOffers, DeclineRide, ArrivePickup, StartRide;
    hide CompleteRide, CancelRide, RequestPayment, DeclineOffer;
    var t, env, now := s.(clock := call.now), call.env, call.now;
    SameTableGainsNothing(s, t, d);
    SameTableGainsNothing(t, t, d);
    StepGainsNothingFrom(s, t, Handle(t, call, cfg).0, d);
    match call.event
    case CreateEvent(customer, km, minutes, p) => CreateGainsNothing(t, customer, km, minutes, p, env, cfg, now, d);
    case AcceptEvent(id, a, keyed) => AcceptGainsNothing(t, id, a, keyed, env, cfg, now, d);
    case ListEvent(_) => RefreshGainsNothing(t, env, cfg, now, d);
    case TimeoutsEvent => RefreshGainsNothing(t, env, cfg, now, d);
    case ApprovalEvent(a, approval) => SameTableGainsNothing(t, SetApproval(t, a, approval, env).0, d);
    case DeclineOfferEvent(_, _) => OfferEventGainsNothing(t, call, cfg, d);
    case ExpireEvent(_) => OfferEventGainsNothing(t, call, cfg, d);
    case DispatchEvent(_) => OfferEventGainsNothing(t, call, cfg, d);
    case _ => ProgressGainsNothing(t, call, cfg, d);
  }

  lemma SameTableGainsNothing(s: State, t: State, d: int)
    requires t.rides == s.rides
    ensures TableGainsNothing(s, t, d)
  {
  }

  lemma StepGainsNothingFrom(s: State, t: State, u: State, d: int)
    requires t.rides == s.rides
    ensures TableGainsNothing(t, u, d) ==> TableGainsNothing(s, u, d)
  {
  }

  lemma CreateGainsNothing(
    s: State, customer: Option<int>, km: real, minutes: int, p: Policy, env: Env, cfg: Config, now: int, d: int)
    requires ApprovalOf(s, d) != Approved
    ensures TableGainsNothing(s, Create(s, customer, km, minutes, p, env, cfg, now), d)
  {
    var t := s.(rides := s.rides + [NewRide(customer, km, minutes, p, now)]);
    var id := |s.rides|;
    CascadeSkipsUnavailable(id, t.rides[id], 0, TimedOut, DispatchContext(t, env), cfg, now, d);
  }

  lemma AcceptGainsNothing(s: State, id: nat, a: int, keyed: bool, env: Env, cfg: Config, now: int, d: int)
    requires ApprovalOf(s, d) != Approved
    ensures TableGainsNothing(s, AcceptRide(s, id, a, keyed, env, cfg, now).0, d)
  {
    SameTableGainsNothing(s, s, d);
    if id < |s.rides| {
      var r := s.rides[id];
      UpdateGainsNothing(s, id, LostClaim(r, a), d);
      var started := StartDispatch(id, r, DispatchContext(s, env), cfg, now);
      CascadeSkipsUnavailable(id, r, a, TimedOut, DispatchContext(s, env), cfg, now, d);
      UpdateGainsNothing(s, id, started, d);
      if EligibleForClaim(s, env, a) {
        UpdateGainsNothing(s, id, Claim(started, a, now), d);
      }
    }
  }

  lemma ProgressGainsNothing(s: State, call: Call, cfg: Config, d: int)
    requires call.event.DeclineEvent? || call.event.ArriveEvent? || call.event.StartEvent? || call.event.CompleteEvent?
             || call.event.CancelEvent? || call.event.PaymentEvent?
    ensures TableGainsNothing(s, Handle(s, call, cfg).0, d)
  {
    var t := Handle(s, call, cfg).0;
    assert |t.rides| == |s.rides|;
    assert forall i :: 0 <= i < |s.rides| ==> GainsNothing(s.rides[i], t.rides[i], d);
  }

  /** A suspended driver finishes the ride he holds, step by step, but cannot hand it back. */
  lemma SuspendedDriverFinishesHisRide(
    s: State, id: nat, d: int, f: CompletionFees, p: Policy, env: Env, cfg: Config, now: int)
    requires Inv(s, cfg) && ApprovalOf(s, d) == Suspended && d in env.pool
    requires id < |s.rides| && Holds(s.rides[id], d)
    ensures s.rides[id].status == Accepted ==> ArrivePickup(s, id, d, env, now).1 == Done
    ensures s.rides[id].status == DriverArrived ==> StartRide(s, id, d, env, now).1 == Done
    ensures s.rides[id].status == InProgress ==>
              var (t, outcome) := CompleteRide(s, id, d, f, p, env, now);
              && outcome == Done && t.rides[id].status == Completed
              && t.rides[id].settlement == EntriesFor(t.rides[id].pricing)
    ensures DeclineRide(s, id, d, env).1 != Done
  {
    assert MoneyInv(s.rides[id]);
  }
}
