/** The ride marketplace as a state machine: the dispatch cascade and every handler that writes a
    ride (backend/services/ride_dispatch_cascade.py, backend/services/dispatch.py,
    backend/routes/drivers.py, backend/routes/rider_rides.py), as functions on values. */
module Marketplace {
  import opened Wrappers
  import opened Lifecycle
  import opened OfferLog
  import opened Pricing
  import opened RidePricing
  import opened Settlement

  datatype ClaimEvent = ClaimAttempted | ClaimWon | ClaimLost | ClaimReleased

  datatype ClaimRow = ClaimRow(event: ClaimEvent, driver: int, actor: int)

  /** A ride with the rows that other tables hold about it. */
  datatype Ride = Ride(
    customer: Option<int>, status: RideStatus, driver: Option<int>,
    target: Option<int>, expires: Option<int>, attempts: nat,
    createdAt: int, acceptedAt: Option<int>, arrivedAt: Option<int>, startedAt: Option<int>,
    completedAt: Option<int>, cancelledAt: Option<int>,
    distanceKm: real, duration: int,
    log: seq<OfferRow>, claims: seq<ClaimRow>,
    pricing: Row, settlement: seq<Entry>, charges: seq<Charge>)

  /** The dispatch mode, the attempt cap, the seconds a driver has to answer and whether payments are on. */
  datatype Config = Config(sequential: bool, maxAttempts: nat, offerTimeout: nat, payments: bool)

  datatype Approval = Pending | Approved | Rejected | Suspended

  /** What the clock and the presence tables say about the drivers when a request arrives:
      all driver accounts, the active ones in order of id, the online ones with a fresh position,
      those whose presence is available, those that pass the profile, presence and freshness guards
      of a claim, and their distances from the pickups. */
  datatype Env = Env(
    accounts: set<int>, pool: seq<int>, online: set<int>, present: set<int>, claimReady: set<int>,
    distance: map<(nat, int), real>)

  datatype State = State(rides: seq<Ride>, approvals: map<int, Approval>, clock: int)

  /** How a request ends. Forbidden also stands for the 409 of a driver who may not claim. */
  datatype Outcome = Done | NotFound | Forbidden | Conflict

  const EMPTY: State := State([], map[], 0)

  // --- Drivers ----------------------------------------------------------------------------------

  function ApprovalOf(s: State, d: int): Approval {
    if d in s.approvals then s.approvals[d] else Pending
  }

  predicate Holds(r: Ride, d: int) {
    IsActive(r.status) && r.driver == Some(d)
  }

  predicate HasActiveRide(rides: seq<Ride>, d: int) {
    exists i :: 0 <= i < |rides| && Holds(rides[i], d)
  }

  function BusyDrivers(rides: seq<Ride>): (busy: set<int>)
    ensures forall d :: d in busy <==> HasActiveRide(rides, d)
  {
    set i | 0 <= i < |rides| && rides[i].driver.Some? && Holds(rides[i], rides[i].driver.value) :: rides[i].driver.value
  }

  function DispatchContext(s: State, env: Env): Context {
    var available := set d | d in env.online && ApprovalOf(s, d) == Approved;
    Context(env.pool, available, env.present, BusyDrivers(s.rides), env.distance)
  }

  predicate EligibleForClaim(s: State, env: Env, d: int) {
    d in env.pool && ApprovalOf(s, d) == Approved && d in env.claimReady && !HasActiveRide(s.rides, d)
  }

  /** A suspended driver may finish the ride he holds but may not release it. */
  predicate CanAct(s: State, env: Env, d: int, id: nat, declining: bool) {
    && d in env.pool
    && match ApprovalOf(s, d)
       case Approved => true
       case Suspended => id < |s.rides| && s.rides[id].driver == Some(d) && !declining
       case _ => false
  }

  // --- The cascade on one ride ------------------------------------------------------------------

  function Offer(r: Ride, d: int, cfg: Config, now: int): Ride {
    r.(target := Some(d), expires := Some(now + cfg.offerTimeout), attempts := r.attempts + 1,
    log := r.log + [OfferRow(d, now, Sent, r.attempts + 1, None, None)])
  }

  /** Look for candidates, logging the drivers passed over. */
  function Scan(r: Ride, c: Context, now: int): Ride {
    r.(log := r.log + SkipRows(c.pool, r.log, c, now))
  }

  function Candidates(r: Ride, c: Context): seq<int> {
    EligibleAmong(c.pool, r.log, c)
  }

  function OfferNext(id: nat, r: Ride, c: Context, cfg: Config, now: int): Ride {
    if Candidates(r, c) == [] then Scan(r, c, now)
    else Offer(Scan(r, c, now), Nearest(Candidates(r, c), id, c.distance), cfg, now)
  }

  predicate InPool(r: Ride) {
    r.status == Requested && r.driver.None?
  }

  function StartDispatch(id: nat, r: Ride, c: Context, cfg: Config, now: int): Ride {
    if cfg.sequential && InPool(r) && r.target.None? then OfferNext(id, r, c, cfg, now) else r
  }

  function CloseOffer(r: Ride, d: int, result: OfferResult, now: int): Ride {
    r.(log := Close(r.log, d, result, now))
  }

  function FinalizeNoDrivers(r: Ride, now: int): Ride {
    r.(status := Cancelled, target := None, expires := None, cancelledAt := Some(now))
  }

  function Advance(id: nat, r: Ride, c: Context, cfg: Config, now: int): Ride {
    if !InPool(r) then r
    else if r.attempts >= cfg.maxAttempts then FinalizeNoDrivers(r, now)
    else OfferNext(id, r.(target := None, expires := None), c, cfg, now)
  }

  predicate OfferLapsed(r: Ride, now: int) {
    InPool(r) && r.target.Some? && r.expires.Some? && r.expires.value < now
  }

  function ExpireOffer(id: nat, r: Ride, c: Context, cfg: Config, now: int): Ride {
    if r.target.None? then r else Advance(id, CloseOffer(r, r.target.value, TimedOut, now), c, cfg, now)
  }

  function TimeOut(id: nat, r: Ride, c: Context, cfg: Config, now: int): Ride {
    if OfferLapsed(r, now) then ExpireOffer(id, r, c, cfg, now) else r
  }

  predicate HasOpenOffer(log: seq<OfferRow>, d: int) {
    exists i :: 0 <= i < |log| && log[i].driver == d && log[i].result == Sent
  }

  function VisibleTo(r: Ride, d: int): bool {
    InPool(r) && (r.target.None? || r.target == Some(d))
  }

  // --- The cascade on the table -----------------------------------------------------------------

  function TimeOutAll(rides: seq<Ride>, c: Context, cfg: Config, now: int): (rs: seq<Ride>)
    ensures |rs| == |rides| && forall i :: 0 <= i < |rs| ==> rs[i] == TimeOut(i, rides[i], c, cfg, now)
  {
    seq(|rides|, i requires 0 <= i < |rides| => TimeOut(i, rides[i], c, cfg, now))
  }

  function StartAll(rides: seq<Ride>, c: Context, cfg: Config, now: int): (rs: seq<Ride>)
    ensures |rs| == |rides| && forall i :: 0 <= i < |rs| ==> rs[i] == StartDispatch(i, rides[i], c, cfg, now)
  {
    seq(|rides|, i requires 0 <= i < |rides| => StartDispatch(i, rides[i], c, cfg, now))
  }

  function ProcessTimeouts(s: State, env: Env, cfg: Config, now: int): State {
    s.(rides := TimeOutAll(s.rides, DispatchContext(s, env), cfg, now))
  }

  function RefreshOffers(s: State, env: Env, cfg: Config, now: int): State {
    var t := ProcessTimeouts(s, env, cfg, now);
    t.(rides := StartAll(t.rides, DispatchContext(t, env), cfg, now))
  }

  // --- Handlers ---------------------------------------------------------------------------------

  function With(s: State, id: nat, r: Ride): State
    requires id < |s.rides|
  {
    s.(rides := s.rides[id := r])
  }

  function NewRide(customer: Option<int>, distanceKm: real, duration: int, p: Policy, now: int): Ride {
    Ride(customer, Requested, None, None, None, 0, now, None, None, None, None, None, distanceKm, duration,
         [], [], Quoted(BLANK, distanceKm, duration, 0, p), [], [])
  }

  function Create(s: State, customer: Option<int>, distanceKm: real, duration: int, p: Policy,
                  env: Env, cfg: Config, now: int): State
  {
    var t := s.(rides := s.rides + [NewRide(customer, distanceKm, duration, p, now)]);
    var id := |s.rides|;
    With(t, id, StartDispatch(id, t.rides[id], DispatchContext(t, env), cfg, now))
  }

  function Claim(r: Ride, d: int, now: int): Ride {
    CloseOffer(r, d, Taken, now).(
    driver := Some(d), status := Accepted, acceptedAt := Some(now), target := None, expires := None,
    claims := r.claims + [ClaimRow(ClaimAttempted, d, d), ClaimRow(ClaimWon, d, d)])
  }

  function LostClaim(r: Ride, d: int): Ride {
    r.(claims := r.claims + [ClaimRow(ClaimAttempted, d, d), ClaimRow(ClaimLost, d, d)])
  }

  /** Accepting. A refusal leaves the session uncommitted unless the request carried an idempotency
      key, in which case the wrapper commits what the handler had written: an offer just started. */
  function AcceptRide(s: State, id: nat, d: int, keyed: bool, env: Env, cfg: Config, now: int): (State, Outcome) {
    if id >= |s.rides| then (s, NotFound)
    else
      var r := s.rides[id];
      if r.driver.Some? || r.status == Accepted then (With(s, id, LostClaim(r, d)), Conflict)
      else if !EligibleForClaim(s, env, d) then (s, Forbidden)
      else if r.status != Requested then (s, Conflict)
      else
        var started := StartDispatch(id, r, DispatchContext(s, env), cfg, now);
        if cfg.sequential && started.target.Some? && started.target.value != d then
          (if keyed then With(s, id, started) else s, Conflict)
        else
          (With(s, id, Claim(started, d, now)), Done)
  }

  function Release(r: Ride, d: int): Ride {
    r.(status := Requested, driver := None, acceptedAt := None, arrivedAt := None, startedAt := None,
    claims := r.claims + [ClaimRow(ClaimReleased, d, d)])
  }

  function DeclineRide(s: State, id: nat, d: int, env: Env): (State, Outcome) {
    if id >= |s.rides| then (s, NotFound)
    else
      var r := s.rides[id];
      if ReleaseToPool(r.status, Driver).Err? || r.driver != Some(d) then (s, Conflict)
      else if !CanAct(s, env, d, id, true) then (s, Forbidden)
      else (With(s, id, Release(r, d)), Done)
  }

  function DeclineOffer(s: State, id: nat, d: int, env: Env, cfg: Config, now: int): (State, Outcome) {
    if id >= |s.rides| then (s, NotFound)
    else
      var r := s.rides[id];
      if r.target != Some(d) && !HasOpenOffer(r.log, d) then (s, Conflict)
      else
        (With(s, id, Advance(id, CloseOffer(r, d, OfferResult.Declined, now), DispatchContext(s, env), cfg, now)), Done)
  }

  /** The checks shared by the three driver steps on a held ride. */
  function Progress(s: State, id: nat, d: int, action: RideAction, env: Env): Result<RideStatus, Outcome> {
    if !CanAct(s, env, d, id, false) then Err(Forbidden)
    else if id >= |s.rides| then Err(NotFound)
    else
      var r := s.rides[id];
      match NextStatus(r.status, action, Driver)
      case Err(_) => Err(Conflict)
      case Ok(next) => if r.driver != Some(d) then Err(NotFound) else Ok(next)
  }

  function ArrivePickup(s: State, id: nat, d: int, env: Env, now: int): (State, Outcome) {
    match Progress(s, id, d, Arrive, env)
    case Err(e) => (s, e)
    case Ok(next) => (With(s, id, s.rides[id].(status := next, arrivedAt := Some(now))), Done)
  }

  function StartRide(s: State, id: nat, d: int, env: Env, now: int): (State, Outcome) {
    match Progress(s, id, d, Start, env)
    case Err(e) => (s, e)
    case Ok(next) => (With(s, id, s.rides[id].(status := next, startedAt := Some(now))), Done)
  }

  function Finish(r: Ride, next: RideStatus, f: CompletionFees, p: Policy, now: int): Ride
    requires next == Completed
  {
    var priced := Finalized(Some(r.pricing), r.distanceKm, r.duration, f, p, true, now);
    r.(status := next, completedAt := Some(now), pricing := priced,
    settlement := Generated(r.settlement, Completed, Some(priced)).value,
    charges := Charged(r.charges, Some(priced)).value)
  }

  function CompleteRide(s: State, id: nat, d: int, f: CompletionFees, p: Policy, env: Env, now: int): (State, Outcome) {
    match Progress(s, id, d, Complete, env)
    case Err(e) => (s, e)
    case Ok(next) =>
      if s.rides[id].pricing.locked then (s, Conflict)
      else (With(s, id, Finish(s.rides[id], next, f, p, now)), Done)
  }

  function Abandon(r: Ride, next: RideStatus, customer: int, now: int): Ride {
    r.(status := next, cancelledAt := Some(now),
    claims := r.claims + match r.driver
                         case Some(d) => [ClaimRow(ClaimReleased, d, customer)]
                         case None => [])
  }

  function CancelRide(s: State, id: nat, customer: int, now: int): (State, Outcome) {
    if id >= |s.rides| then (s, NotFound)
    else
      var r := s.rides[id];
      if r.customer != Some(customer) then (s, Forbidden)
      else match NextStatus(r.status, Cancel, Customer)
        case Err(_) => (s, Conflict)
        case Ok(next) => (With(s, id, Abandon(r, next, customer, now)), Done)
  }

  /** Asking for the pool refreshes the offers first, when the driver may claim at all. */
  function ListRides(s: State, d: int, env: Env, cfg: Config, now: int): (State, Outcome) {
    if EligibleForClaim(s, env, d) then (RefreshOffers(s, env, cfg, now), Done) else (s, Done)
  }

  function RequestPayment(s: State, id: nat, d: int, cfg: Config): (State, Outcome) {
    if !cfg.payments then (s, Conflict)
    else if id >= |s.rides| || s.rides[id].driver != Some(d) then (s, NotFound)
    else match Charged(s.rides[id].charges, Some(s.rides[id].pricing))
      case Err(_) => (s, Conflict)
      case Ok(charges) => (With(s, id, s.rides[id].(charges := charges)), Done)
  }

  function SetApproval(s: State, d: int, a: Approval, env: Env): (State, Outcome) {
    if a == Pending then (s, Conflict)
    else if d !in env.accounts then (s, NotFound)
    else (s.(approvals := s.approvals[d := a]), Done)
  }

  // --- Runs -------------------------------------------------------------------------------------

  datatype Event =
    | CreateEvent(customer: Option<int>, distanceKm: real, duration: int, policy: Policy)
    | AcceptEvent(id: nat, driver: int, keyed: bool)
    | DeclineEvent(id: nat, driver: int)
    | DeclineOfferEvent(id: nat, driver: int)
    | ArriveEvent(id: nat, driver: int)
    | StartEvent(id: nat, driver: int)
    | CompleteEvent(id: nat, driver: int, fees: CompletionFees, policy: Policy)
    | CancelEvent(id: nat, rider: int)
    | ListEvent(driver: int)
    | TimeoutsEvent
    | ExpireEvent(id: nat)
    | DispatchEvent(id: nat)
    | PaymentEvent(id: nat, driver: int)
    | ApprovalEvent(driver: int, approval: Approval)

  /** A request, with the clock and the drivers' situation it meets. */
  datatype Call = Call(event: Event, env: Env, now: int)

  function Handle(s: State, call: Call, cfg: Config): (State, Outcome) {
    var env, now := call.env, call.now;
    match call.event
    case CreateEvent(customer, km, minutes, p) => (Create(s, customer, km, minutes, p, env, cfg, now), Done)
    case AcceptEvent(id, d, keyed) => AcceptRide(s, id, d, keyed, env, cfg, now)
    case DeclineEvent(id, d) => DeclineRide(s, id, d, env)
    case DeclineOfferEvent(id, d) => DeclineOffer(s, id, d, env, cfg, now)
    case ArriveEvent(id, d) => ArrivePickup(s, id, d, env, now)
    case StartEvent(id, d) => StartRide(s, id, d, env, now)
    case CompleteEvent(id, d, f, p) => CompleteRide(s, id, d, f, p, env, now)
    case CancelEvent(id, customer) => CancelRide(s, id, customer, now)
    case ListEvent(d) => ListRides(s, d, env, cfg, now)
    case TimeoutsEvent => (ProcessTimeouts(s, env, cfg, now), Done)
    case ExpireEvent(id) =>
      if id >= |s.rides| then (s, Done)
      else (With(s, id, ExpireOffer(id, s.rides[id], DispatchContext(s, env), cfg, now)), Done)
    case DispatchEvent(id) =>
      if id >= |s.rides| then (s, Done)
      else (With(s, id, StartDispatch(id, s.rides[id], DispatchContext(s, env), cfg, now)), Done)
    case PaymentEvent(id, d) => RequestPayment(s, id, d, cfg)
    case ApprovalEvent(d, a) => SetApproval(s, d, a, env)
  }

  function Step(s: State, call: Call, cfg: Config): State {
    Handle(s.(clock := call.now), call, cfg).0
  }

  /** Time does not go back and the pricing policies are sound. */
  predicate Admissible(s: State, call: Call) {
    && s.clock <= call.now
    && (call.event.CreateEvent? ==> Sound(call.event.policy))
    && (call.event.CompleteEvent? ==> Sound(call.event.policy))
  }

  function Run(s: State, calls: seq<Call>, cfg: Config): State {
    if calls == [] then s else Step(Run(s, calls[..|calls| - 1], cfg), calls[|calls| - 1], cfg)
  }

  predicate AdmissibleRun(s: State, calls: seq<Call>, cfg: Config) {
    calls == []
    || (&& AdmissibleRun(s, calls[..|calls| - 1], cfg)
        && Admissible(Run(s, calls[..|calls| - 1], cfg), calls[|calls| - 1]))
  }
}
