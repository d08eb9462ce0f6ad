/** The dossier spine: an event-sourced trip machine joined to a double-entry ledger
    (backend/services/dossier_dispatch.py, backend/services/dossier_ledger.py and the handlers of
    backend/routes/dossier_marketplace.py). Amounts are integer cents. */
module Dossier {
  import opened Wrappers

  datatype TripState = Idle | Matching | DriverEnRoute | TripCompleted

  /** The key of an event is the caller's key with a suffix. */
  datatype Suffix = MatchingKey | AcceptedKey | CompletedKey
  datatype EventKey = EventKey(base: string, suffix: Suffix)

  datatype TripEvent = TripEvent(trip: string, driver: Option<string>, from: TripState, to: TripState, key: EventKey)

  datatype DriverStatus = Available | Dispatched
  datatype ActiveDriver = ActiveDriver(status: DriverStatus, assignedTrip: Option<string>)

  datatype Account = CorporateCash | ProcessingExpense | ProcessorPayable | PlatformRevenue | Wallet(driver: string)
  datatype Direction = Debit | Credit
  datatype Draft = Draft(account: Account, amount: int, direction: Direction)
  datatype Transaction = Transaction(reference: string, trip: string)
  datatype LedgerRow = LedgerRow(transaction: nat, draft: Draft)

  datatype State = State(
    events: seq<TripEvent>, drivers: map<string, ActiveDriver>,
    accounts: set<Account>, transactions: seq<Transaction>, rows: seq<LedgerRow>)

  const EMPTY: State := State([], map[], {}, [], [])

  /** The amounts a completion request carries, and what its schema lets through. */
  datatype Split = Split(fare: int, driverShare: int, processingFee: int, platformShare: int) {
    predicate Accepted() {
      fare > 0 && driverShare > 0 && processingFee >= 0 && platformShare >= 0
    }
  }

  datatype LedgerError = SplitMismatch | AmountNotPositive | Unbalanced

  datatype Response =
    | HeartbeatAccepted
    | NoDriversAvailable
    | EnRoute(driver: string)
    | InvalidTransition(current: TripState)
    | Completed(driver: string)
    | CompletedByNobody
    | Rejected(status: int)

  // --- Trips ------------------------------------------------------------------------------------

  function StateOf(events: seq<TripEvent>, trip: string): Option<TripState> {
    if events == [] then None
    else
      var last := events[|events| - 1];
      if last.trip == trip then Some(last.to) else StateOf(events[..|events| - 1], trip)
  }

  /** The driver of the trip's latest event that put a driver en route. */
  function EnRouteDriver(events: seq<TripEvent>, trip: string): Option<string> {
    if events == [] then None
    else
      var last := events[|events| - 1];
      if last.trip == trip && last.to == DriverEnRoute then last.driver else EnRouteDriver(events[..|events| - 1], trip)
  }

  predicate KeyUsed(events: seq<TripEvent>, key: EventKey) {
    exists i :: 0 <= i < |events| && events[i].key == key
  }

  /** An event whose key was used before is dropped without a word. */
  function Appended(events: seq<TripEvent>, e: TripEvent): seq<TripEvent> {
    if KeyUsed(events, e.key) then events else events + [e]
  }

  function FirstAvailable(drivers: map<string, ActiveDriver>, ranked: seq<string>): Option<string> {
    if ranked == [] then None
    else if ranked[0] in drivers && drivers[ranked[0]].status == Available then Some(ranked[0])
    else FirstAvailable(drivers, ranked[1..])
  }

  function Upserted(s: State, driver: string): State {
    if driver in s.drivers then s else s.(drivers := s.drivers[driver := ActiveDriver(Available, None)])
  }

  function RequestEvent(trip: string, key: string): TripEvent {
    TripEvent(trip, None, Idle, Matching, EventKey(key, MatchingKey))
  }

  function AcceptEvent(trip: string, driver: string, key: string): TripEvent {
    TripEvent(trip, Some(driver), Matching, DriverEnRoute, EventKey(key, AcceptedKey))
  }

  function CompleteEvent(trip: string, driver: string, key: string): TripEvent {
    TripEvent(trip, Some(driver), DriverEnRoute, TripCompleted, EventKey(key, CompletedKey))
  }

  function Matched(s: State, trip: string, key: string, ranked: seq<string>): (State, Response) {
    var current := StateOf(s.events, trip);
    if current.Some? && current.value != Matching then (s, InvalidTransition(current.value))
    else
      var events := if current.None? then Appended(s.events, RequestEvent(trip, key)) else s.events;
      match FirstAvailable(s.drivers, ranked)
      case None => (s.(events := events), NoDriversAvailable)
      case Some(d) =>
        (s.(events := Appended(events, AcceptEvent(trip, d, key)),
         drivers := s.drivers[d := ActiveDriver(Dispatched, Some(trip))]),
         EnRoute(d))
  }

  // --- Ledger -----------------------------------------------------------------------------------

  function Sum(drafts: seq<Draft>, direction: Direction): int {
    if drafts == [] then 0
    else
      var last := drafts[|drafts| - 1];
      Sum(drafts[..|drafts| - 1], direction) + if last.direction == direction then last.amount else 0
  }

  function Posted(transaction: nat, drafts: seq<Draft>): seq<LedgerRow> {
    seq(|drafts|, i requires 0 <= i < |drafts| => LedgerRow(transaction, drafts[i]))
  }

  function TripDrafts(driver: string, p: Split): seq<Draft> {
    [Draft(CorporateCash, p.fare - p.processingFee, Debit),
     Draft(Wallet(driver), p.driverShare, Credit),
     Draft(PlatformRevenue, p.platformShare, Credit)]
    + if p.processingFee == 0 then []
      else [Draft(ProcessingExpense, p.processingFee, Debit), Draft(ProcessorPayable, p.processingFee, Credit)]
  }

  /** A draft with an amount that is not positive cannot be built. */
  function BuildTripPaymentEntries(driver: string, p: Split): Result<seq<Draft>, LedgerError> {
    var drafts := TripDrafts(driver, p);
    if p.driverShare + p.platformShare + p.processingFee != p.fare then Err(SplitMismatch)
    else if exists i :: 0 <= i < |drafts| && drafts[i].amount <= 0 then Err(AmountNotPositive)
    else Ok(drafts)
  }

  predicate ReferenceUsed(transactions: seq<Transaction>, reference: string) {
    exists i :: 0 <= i < |transactions| && transactions[i].reference == reference
  }

  /** A reference used before posts nothing. */
  function Executed(s: State, reference: string, trip: string, drafts: seq<Draft>): Result<State, LedgerError> {
    if Sum(drafts, Debit) != Sum(drafts, Credit) then Err(Unbalanced)
    else if ReferenceUsed(s.transactions, reference) then Ok(s)
    else Ok(s.(transactions := s.transactions + [Transaction(reference, trip)],
              rows := s.rows + Posted(|s.transactions|, drafts)))
  }

  function StatusOf(e: LedgerError): int {
    if e == AmountNotPositive then 500 else 422
  }

  function TripDone(s: State, trip: string, driver: string, key: string): State {
    s.(events := Appended(s.events, CompleteEvent(trip, driver, key)),
    drivers := if driver in s.drivers then s.drivers[driver := ActiveDriver(Available, None)] else s.drivers)
  }

  function Settled(s: State, trip: string, key: string, p: Split): (State, Response) {
    if !p.Accepted() then (s, Rejected(422))
    else if StateOf(s.events, trip) != Some(DriverEnRoute) then (s, Rejected(409))
    else if EnRouteDriver(s.events, trip).None? then (s, Rejected(404))
    else
      var d := EnRouteDriver(s.events, trip).value;
      var built := BuildTripPaymentEntries(d, p);
      if built.Err? then (s, Rejected(StatusOf(built.error)))
      else
        var paid := Executed(s.(accounts := s.accounts + {Wallet(d)}), key, trip, built.value);
        if paid.Err? then (s, Rejected(StatusOf(paid.error)))
        else (TripDone(paid.value, trip, d, key), Completed(d))
  }

  // --- The store --------------------------------------------------------------------------------

  /** The tables of the spine; what a handler rolls back is restored from what it saved. */
  class Spine {
    var events: seq<TripEvent>
    var drivers: map<string, ActiveDriver>
    var accounts: set<Account>
    var transactions: seq<Transaction>
    var rows: seq<LedgerRow>

    constructor ()
      ensures View() == EMPTY
    {
      events, drivers, accounts, transactions, rows := [], map[], {}, [], [];
    }

    function View(): State
      reads this
    {
      State(events, drivers, accounts, transactions, rows)
    }

    method Rollback(saved: State)
      modifies this
      ensures View() == saved
    {
      events, drivers := saved.events, saved.drivers;
      accounts, transactions, rows := saved.accounts, saved.transactions, saved.rows;
    }

    method AppendTripEvent(e: TripEvent)
      modifies this`events
      ensures events == Appended(old(events), e)
    {
      if KeyUsed(events, e.key) {
        return;
      }
      events := events + [e];
    }

    method UpsertActiveDriver(driver: string)
      modifies this`drivers
      ensures View() == Upserted(old(View()), driver)
    {
      if driver !in drivers {
        drivers := drivers[driver := ActiveDriver(Available, None)];
      }
    }

    method MatchDriverForRequest(trip: string, key: string, ranked: seq<string>) returns (response: Response)
      modifies this`events, this`drivers
      ensures (View(), response) == Matched(old(View()), trip, key, ranked)
    {
      var current := StateOf(events, trip);
      if current.None? {
        AppendTripEvent(RequestEvent(trip, key));
      } else if current.value != Matching {
        return InvalidTransition(current.value);
      }
      var chosen := FirstAvailable(drivers, ranked);
      if chosen.None? {
        return NoDriversAvailable;
      }
      drivers := drivers[chosen.value := ActiveDriver(Dispatched, Some(trip))];
      AppendTripEvent(AcceptEvent(trip, chosen.value, key));
      return EnRoute(chosen.value);
    }

    method ExecuteLedgerTransaction(reference: string, trip: string, drafts: seq<Draft>)
      returns (r: Result<bool, LedgerError>)
      modifies this`transactions, this`rows
      ensures match Executed(old(View()), reference, trip, drafts)
              case Ok(s) => r.Ok? && View() == s
              case Err(e) => r == Err(e) && View() == old(View())
    {
      if Sum(drafts, Debit) != Sum(drafts, Credit) {
        return Err(Unbalanced);
      }
      if ReferenceUsed(transactions, reference) {
        return Ok(false);
      }
      ghost var before := rows;
      var id := |transactions|;
      transactions := transactions + [Transaction(reference, trip)];
      var i := 0;
      while i < |drafts|
        invariant i <= |drafts|
        invariant transactions == old(transactions) + [Transaction(reference, trip)]
        invariant rows == before + Posted(id, drafts[..i])
      {
        rows := rows + [LedgerRow(id, drafts[i])];
        assert Posted(id, drafts[..i + 1]) == Posted(id, drafts[..i]) + [LedgerRow(id, drafts[i])];
        i := i + 1;
      }
      assert drafts[..i] == drafts;
      return Ok(true);
    }

    method CompleteTrip(trip: string, key: string) returns (response: Response)
      modifies this`events, this`drivers
      ensures StateOf(old(events), trip) == Some(DriverEnRoute) && EnRouteDriver(old(events), trip).Some?
              ==> var d := EnRouteDriver(old(events), trip).value;
                  View() == TripDone(old(View()), trip, d, key) && response == Completed(d)
      ensures StateOf(old(events), trip) == Some(DriverEnRoute) && EnRouteDriver(old(events), trip).None?
              ==> var e := TripEvent(trip, None, DriverEnRoute, TripCompleted, EventKey(key, CompletedKey));
                  View() == old(View()).(events := Appended(old(events), e)) && response == CompletedByNobody
      ensures StateOf(old(events), trip) != Some(DriverEnRoute)
              ==> View() == old(View())
                  && response == InvalidTransition(match StateOf(old(events), trip) case Some(s) => s case None => Idle)
    {
      var current := StateOf(events, trip);
      if current != Some(DriverEnRoute) {
        return InvalidTransition(if current.Some? then current.value else Idle);
      }
      var driver := EnRouteDriver(events, trip);
      AppendTripEvent(TripEvent(trip, driver, DriverEnRoute, TripCompleted, EventKey(key, CompletedKey)));
      if driver.Some? && driver.value in drivers {
        drivers := drivers[driver.value := ActiveDriver(Available, None)];
      }
      return if driver.Some? then Completed(driver.value) else CompletedByNobody;
    }

    method SettleTrip(trip: string, key: string, p: Split) returns (response: Response)
      modifies this
      ensures (View(), response) == Settled(old(View()), trip, key, p)
    {
      if !p.Accepted() {
        return Rejected(422);
      }
      var saved := View();
      if StateOf(events, trip) != Some(DriverEnRoute) {
        return Rejected(409);
      }
      var driver := EnRouteDriver(events, trip);
      if driver.None? {
        return Rejected(404);
      }
      accounts := accounts + {Wallet(driver.value)};
      var built := BuildTripPaymentEntries(driver.value, p);
      if built.Err? {
        Rollback(saved);
        return Rejected(StatusOf(built.error));
      }
      var paid := ExecuteLedgerTransaction(key, trip, built.value);
      if paid.Err? {
        Rollback(saved);
        return Rejected(StatusOf(paid.error));
      }
      response := CompleteTrip(trip, key);
    }
  }

  // --- Runs -------------------------------------------------------------------------------------

  /** `plausible` is the verdict on the reported movement; `ranked` lists the drivers that pass the query
      of a request, nearest first. */
  datatype Request =
    | Heartbeat(driver: string, plausible: bool)
    | Demand(trip: string, key: string, ranked: seq<string>)
    | Complete(trip: string, key: string, split: Split)

  function Handle(s: State, r: Request): (State, Response) {
    match r
    case Heartbeat(d, plausible) => if plausible then (Upserted(s, d), HeartbeatAccepted) else (s, Rejected(422))
    case Demand(trip, key, ranked) => Matched(s, trip, key, ranked)
    case Complete(trip, key, split) => Settled(s, trip, key, split)
  }

  function After(requests: seq<Request>): State {
    if requests == [] then EMPTY else Handle(After(requests[..|requests| - 1]), requests[|requests| - 1]).0
  }

  /** Keys are fresh when the requests that derive events or a reference from them find none there. */
  predicate FreshKeys(s: State, r: Request) {
    match r
    case Heartbeat(_, _) => true
    case Demand(_, key, _) =>
      !KeyUsed(s.events, EventKey(key, MatchingKey)) && !KeyUsed(s.events, EventKey(key, AcceptedKey))
    case Complete(_, key, _) => !KeyUsed(s.events, EventKey(key, CompletedKey)) && !ReferenceUsed(s.transactions, key)
  }

  predicate FreshRun(requests: seq<Request>) {
    requests == []
    || (FreshRun(requests[..|requests| - 1]) && FreshKeys(After(requests[..|requests| - 1]), requests[|requests| - 1]))
  }

  // --- Drivers and trips ------------------------------------------------------------------------

  predicate DriverFits(s: State, d: string)
    requires d in s.drivers
  {
    match s.drivers[d]
    case ActiveDriver(Available, assignedTrip) => assignedTrip.None?
    case ActiveDriver(Dispatched, assignedTrip) =>
      && assignedTrip.Some?
      && StateOf(s.events, assignedTrip.value) == Some(DriverEnRoute)
      && EnRouteDriver(s.events, assignedTrip.value) == Some(d)
  }

  predicate TripFits(s: State, trip: string) {
    StateOf(s.events, trip) == Some(DriverEnRoute)
    ==> var d := EnRouteDriver(s.events, trip);
        d.Some? && d.value in s.drivers && s.drivers[d.value] == ActiveDriver(Dispatched, Some(trip))
  }

  /** Dispatched drivers and trips with a driver en route are matched one to one. */
  ghost predicate OneToOne(s: State) {
    && (forall d :: d in s.drivers ==> DriverFits(s, d))
    && (forall trip: string :: TripFits(s, trip))
  }

  /** Each event leaves the state that the trip's earlier events led to. */
  predicate Chained(events: seq<TripEvent>) {
    forall i :: 0 <= i < |events| ==>
      events[i].from == match StateOf(events[..i], events[i].trip) case None => Idle case Some(s) => s
  }

  lemma SnocStates(events: seq<TripEvent>, e: TripEvent)
    ensures forall trip :: StateOf(events + [e], trip) == if trip == e.trip then Some(e.to) else StateOf(events, trip)
    ensures forall trip :: EnRouteDriver(events + [e], trip)
                           == if trip == e.trip && e.to == DriverEnRoute then e.driver else EnRouteDriver(events, trip)
  {
    assert (events + [e])[..|events|] == events;
  }

  lemma SnocChains(events: seq<TripEvent>, e: TripEvent)
    requires Chained(events)
    requires e.from == match StateOf(events, e.trip) case None => Idle case Some(s) => s
    ensures Chained(events + [e])
  {
    var all := events + [e];
    forall i | 0 <= i < |all|
      ensures all[i].from == match StateOf(all[..i], all[i].trip) case None => Idle case Some(s) => s
    {
      assert i < |events| ==> all[..i] == events[..i] && all[i] == events[i];
      assert all[..|events|] == events;
    }
  }

  predicate IsAvailable(drivers: map<string, ActiveDriver>, d: string) {
    d in drivers && drivers[d].status == Available
  }

  /** The driver chosen is the nearest one that is available, and there is none only if none is. */
  lemma {:induction false} ChosenIsNearest(drivers: map<string, ActiveDriver>, ranked: seq<string>)
    ensures match FirstAvailable(drivers, ranked)
            case None => forall i :: 0 <= i < |ranked| ==> !IsAvailable(drivers, ranked[i])
            case Some(d) => exists i :: 0 <= i < |ranked| && ranked[i] == d && IsAvailable(drivers, d)
                                        && forall j :: 0 <= j < i ==> !IsAvailable(drivers, ranked[j])
  {
    if ranked != [] && !IsAvailable(drivers, ranked[0]) {
      var rest := ranked[1..];
      ChosenIsNearest(drivers, rest);
      if FirstAvailable(drivers, rest).Some? {
        var d := FirstAvailable(drivers, rest).value;
        var i :| 0 <= i < |rest| && rest[i] == d && forall j :: 0 <= j < i ==> !IsAvailable(drivers, rest[j]);
        assert ranked[i + 1] == d;
        forall j | 0 <= j < i + 1 ensures !IsAvailable(drivers, ranked[j]) {
          assert j > 0 ==> ranked[j] == rest[j - 1];
        }
      } else {
        forall i | 0 <= i < |ranked| ensures !IsAvailable(drivers, ranked[i]) {
          assert i > 0 ==> ranked[i] == rest[i - 1];
        }
      }
    }
  }

  function Asked(s: State, trip: string, key: string): State {
    s.(events := s.events + [RequestEvent(trip, key)])
  }

  function Sent(s: State, trip: string, driver: string, key: string): State {
    s.(events := s.events + [AcceptEvent(trip, driver, key)],
    drivers := s.drivers[driver := ActiveDriver(Dispatched, Some(trip))])
  }

  lemma AskingKeepsMatching(s: State, trip: string, key: string)
    requires OneToOne(s) && StateOf(s.events, trip).None?
    ensures OneToOne(Asked(s, trip, key)) && StateOf(Asked(s, trip, key).events, trip) == Some(Matching)
    ensures Chained(s.events) ==> Chained(Asked(s, trip, key).events)
    ensures KeyUsed(Asked(s, trip, key).events, EventKey(key, AcceptedKey))
            <==> KeyUsed(s.events, EventKey(key, AcceptedKey))
  {
    var t, asked := Asked(s, trip, key), RequestEvent(trip, key);
    SnocStates(s.events, asked);
    if Chained(s.events) { SnocChains(s.events, asked); }
    forall d | d in t.drivers ensures DriverFits(t, d) {
      assert DriverFits(s, d);
    }
    forall other: string ensures TripFits(t, other) {
      assert TripFits(s, other);
    }
    if KeyUsed(s.events, EventKey(key, AcceptedKey)) {
      var i :| 0 <= i < |s.events| && s.events[i].key == EventKey(key, AcceptedKey);
      assert t.events[i].key == EventKey(key, AcceptedKey);
    }
  }

  lemma SendingKeepsMatching(s: State, trip: string, driver: string, key: string)
    requires OneToOne(s) && StateOf(s.events, trip) == Some(Matching)
    requires driver in s.drivers && s.drivers[driver].status == Available
    ensures OneToOne(Sent(s, trip, driver, key))
    ensures Chained(s.events) ==> Chained(Sent(s, trip, driver, key).events)
  {
    var t, sent := Sent(s, trip, driver, key), AcceptEvent(trip, driver, key);
    SnocStates(s.events, sent);
    if Chained(s.events) { SnocChains(s.events, sent); }
    forall d | d in t.drivers ensures DriverFits(t, d) {
      if d in s.drivers { assert DriverFits(s, d); }
    }
    forall other: string ensures TripFits(t, other) {
      assert TripFits(s, other);
    }
  }

  lemma DemandKeepsMatching(s: State, trip: string, key: string, ranked: seq<string>)
    requires OneToOne(s) && Chained(s.events) && FreshKeys(s, Demand(trip, key, ranked))
    ensures OneToOne(Matched(s, trip, key, ranked).0) && Chained(Matched(s, trip, key, ranked).0.events)
  {
    hide OneToOne, Chained;
    ChosenIsNearest(s.drivers, ranked);
    var current, d := StateOf(s.events, trip), FirstAvailable(s.drivers, ranked);
    if current.None? {
      AskingKeepsMatching(s, trip, key);
      if d.Some? { SendingKeepsMatching(Asked(s, trip, key), trip, d.value, key); }
    } else if current == Some(Matching) && d.Some? {
      SendingKeepsMatching(s, trip, d.value, key);
    }
  }

  lemma CompletionKeepsMatching(s: State, trip: string, key: string, p: Split)
    requires OneToOne(s) && Chained(s.events) && FreshKeys(s, Complete(trip, key, p))
    ensures OneToOne(Settled(s, trip, key, p).0) && Chained(Settled(s, trip, key, p).0.events)
  {
    var (t, response) := Settled(s, trip, key, p);
    if response.Completed? {
      var done := CompleteEvent(trip, response.driver, key);
      assert TripFits(s, trip);
      SnocStates(s.events, done);
      SnocChains(s.events, done);
      forall d | d in t.drivers ensures DriverFits(t, d) {
        assert DriverFits(s, d);
      }
      forall other: string ensures TripFits(t, other) {
        assert TripFits(s, other);
      }
    }
  }

  /** In every run with fresh keys the drivers DISPATCHED and the trips DRIVER_EN_ROUTE match one to one,
      each by the other's record, and the events of every trip follow on from each other. */
  lemma {:induction false} DriversMatchTrips(requests: seq<Request>)
    requires FreshRun(requests)
    ensures OneToOne(After(requests)) && Chained(After(requests).events)
  {
    if requests != [] {
      var init, r := requests[..|requests| - 1], requests[|requests| - 1];
      DriversMatchTrips(init);
      var s := After(init);
      match r
      case Heartbeat(d, _) =>
        var t := Upserted(s, d);
        forall other | other in t.drivers ensures DriverFits(t, other) {
          if other in s.drivers { assert DriverFits(s, other); }
        }
        forall trip: string ensures TripFits(t, trip) {
          assert TripFits(s, trip);
        }
      case Demand(trip, key, ranked) => DemandKeepsMatching(s, trip, key, ranked);
      case Complete(trip, key, p) => CompletionKeepsMatching(s, trip, key, p);
    }
  }

  /** A completion that is answered as one keeps the matching exactly when its key has not completed a
      trip before; otherwise the driver is free and his trip still waits for him. */
  lemma CompletionKeepsMatchingIff(s: State, trip: string, key: string, p: Split)
    requires OneToOne(s) && Settled(s, trip, key, p).1.Completed?
    ensures OneToOne(Settled(s, trip, key, p).0) <==> !KeyUsed(s.events, EventKey(key, CompletedKey))
  {
    var (t, response) := Settled(s, trip, key, p);
    assert TripFits(s, trip);
    if KeyUsed(s.events, EventKey(key, CompletedKey)) {
      assert t.events == s.events;
      assert !TripFits(t, trip);
    } else {
      SnocStates(s.events, CompleteEvent(trip, response.driver, key));
      forall d | d in t.drivers ensures DriverFits(t, d) {
        assert DriverFits(s, d);
      }
      forall other: string ensures TripFits(t, other) {
        assert TripFits(s, other);
      }
    }
  }

  /** And a request that is answered with a driver keeps it exactly when its key has found none before. */
  lemma DemandKeepsMatchingIff(s: State, trip: string, key: string, ranked: seq<string>)
    requires OneToOne(s) && Matched(s, trip, key, ranked).1.EnRoute?
    ensures OneToOne(Matched(s, trip, key, ranked).0) <==> !KeyUsed(s.events, EventKey(key, AcceptedKey))
  {
    ChosenIsNearest(s.drivers, ranked);
    var (t, response) := Matched(s, trip, key, ranked);
    var asked := if StateOf(s.events, trip).Some? then s
                 else if KeyUsed(s.events, EventKey(key, MatchingKey)) then s
                 else Asked(s, trip, key);
    if asked != s { AskingKeepsMatching(s, trip, key); }
    if KeyUsed(s.events, EventKey(key, AcceptedKey)) {
      assert t.events == asked.events;
      assert !DriverFits(t, response.driver);
    } else {
      var t' := Sent(asked, trip, response.driver, key);
      assert t == t';
      SnocStates(asked.events, AcceptEvent(trip, response.driver, key));
      forall d | d in t.drivers ensures DriverFits(t, d) {
        assert d in s.drivers && DriverFits(asked, d);
      }
      forall other: string ensures TripFits(t, other) {
        assert TripFits(asked, other);
      }
    }
  }

  /** A trip, once completed, takes no further event, whatever keys are used. */
  lemma {:induction false} CompletedTripsAreClosed(requests: seq<Request>, n: nat, trip: string)
    requires n <= |requests| && StateOf(After(requests[..n]).events, trip) == Some(TripCompleted)
    ensures StateOf(After(requests).events, trip) == Some(TripCompleted)
  {
    if n == |requests| {
      assert requests[..n] == requests;
    } else {
      var init, r := requests[..|requests| - 1], requests[|requests| - 1];
      assert init[..n] == requests[..n];
      CompletedTripsAreClosed(init, n, trip);
      RequestLeavesClosed(After(init), r, trip);
    }
  }

  lemma RequestLeavesClosed(s: State, r: Request, trip: string)
    requires StateOf(s.events, trip) == Some(TripCompleted)
    ensures StateOf(Handle(s, r).0.events, trip) == Some(TripCompleted)
  {
    if r.Demand? && r.trip != trip {
      var asked := RequestEvent(r.trip, r.key);
      SnocStates(s.events, asked);
      var events := if StateOf(s.events, r.trip).None? then Appended(s.events, asked) else s.events;
      var d := FirstAvailable(s.drivers, r.ranked);
      if d.Some? { SnocStates(events, AcceptEvent(r.trip, d.value, r.key)); }
    } else if r.Complete? && Handle(s, r).1.Completed? {
      SnocStates(s.events, CompleteEvent(r.trip, Handle(s, r).1.driver, r.key));
    }
  }

  // --- Answers ----------------------------------------------------------------------------------

  /** A completion is answered as one exactly when its amounts pass the schema, its trip has a driver en route,
      the shares add up to the fare and the platform's is positive; each refusal has its status and
      changes nothing. */
  lemma CompletionIsGrantedIff(s: State, trip: string, key: string, p: Split)
    ensures var (t, response) := Settled(s, trip, key, p);
            var sane := p.fare > 0 && p.driverShare > 0 && p.processingFee >= 0 && p.platformShare >= 0;
            var driver := EnRouteDriver(s.events, trip);
            var waiting := StateOf(s.events, trip) == Some(DriverEnRoute);
            var adds := p.driverShare + p.platformShare + p.processingFee == p.fare;
            && (!sane ==> response == Rejected(422))
            && (sane && !waiting ==> response == Rejected(409))
            && (sane && waiting && driver.None? ==> response == Rejected(404))
            && (sane && waiting && driver.Some? && !adds ==> response == Rejected(422))
            && (sane && waiting && driver.Some? && adds && p.platformShare == 0 ==> response == Rejected(500))
            && (sane && waiting && driver.Some? && adds && p.platformShare > 0 ==> response == Completed(driver.value))
            && (response.Rejected? ==> t == s)
            && (response.Completed? ==>
                  && t.accounts == s.accounts + {Wallet(response.driver)}
                  && t.transactions == s.transactions
                                       + if ReferenceUsed(s.transactions, key) then [] else [Transaction(key, trip)])
  {
    if p.Accepted() && EnRouteDriver(s.events, trip).Some? {
      var d := EnRouteDriver(s.events, trip).value;
      BuiltIff(d, p);
      if BuildTripPaymentEntries(d, p).Ok? {
        BuiltEntriesPost(d, p, 0, Whole);
      }
    }
  }

  /** A request is answered with a driver exactly when the trip is new or still matching and one of the ranked
      drivers is available. */
  lemma DemandIsAnsweredIff(s: State, trip: string, key: string, ranked: seq<string>)
    ensures var (t, response) := Matched(s, trip, key, ranked);
            var current := StateOf(s.events, trip);
            var somebody := exists i :: 0 <= i < |ranked| && IsAvailable(s.drivers, ranked[i]);
            && (response.EnRoute? <==> (current.None? || current == Some(Matching)) && somebody)
            && (response == NoDriversAvailable <==> (current.None? || current == Some(Matching)) && !somebody)
            && (response.InvalidTransition? ==> t == s && current == Some(response.current))
            && (!response.EnRoute? ==> t.drivers == s.drivers)
            && (response.EnRoute? ==>
                  && t.drivers == s.drivers[response.driver := ActiveDriver(Dispatched, Some(trip))]
                  && IsAvailable(s.drivers, response.driver))
            && t.rows == s.rows && t.transactions == s.transactions
  {
    ChosenIsNearest(s.drivers, ranked);
  }

  /** A heartbeat makes a new driver available and leaves a known one's status and trip alone. */
  lemma HeartbeatKeepsStatus(s: State, d: string, plausible: bool)
    ensures var (t, response) := Handle(s, Heartbeat(d, plausible));
            && t == s.(drivers := t.drivers)
            && (plausible && d !in s.drivers ==> t.drivers == s.drivers[d := ActiveDriver(Available, None)])
            && (!plausible || d in s.drivers ==> t == s)
            && (response == HeartbeatAccepted <==> plausible) && (!plausible ==> response == Rejected(422))
  {
  }

  // --- Books ------------------------------------------------------------------------------------

  datatype Scope = Whole | OfTransaction(id: nat) | OfAccount(account: Account)

  predicate Covers(scope: Scope, row: LedgerRow) {
    match scope
    case Whole => true
    case OfTransaction(id) => row.transaction == id
    case OfAccount(account) => row.draft.account == account
  }

  function Signed(d: Draft): int {
    if d.direction == Credit then d.amount else -d.amount
  }

  /** Credits less debits of the rows in scope. */
  function Net(rows: seq<LedgerRow>, scope: Scope): int {
    if rows == [] then 0
    else
      var last := rows[|rows| - 1];
      Net(rows[..|rows| - 1], scope) + if Covers(scope, last) then Signed(last.draft) else 0
  }

  lemma {:induction false} NetOfConcat(a: seq<LedgerRow>, b: seq<LedgerRow>, scope: Scope)
    ensures Net(a + b, scope) == Net(a, scope) + Net(b, scope)
  {
    if b == [] {
      assert a + b == a;
    } else {
      assert (a + b)[..|a + b| - 1] == a + b[..|b| - 1];
      NetOfConcat(a, b[..|b| - 1], scope);
    }
  }

  /** What a completed trip posts to each account. */
  function Posting(account: Account, driver: string, p: Split): int {
    match account
    case CorporateCash => p.processingFee - p.fare
    case ProcessingExpense => -p.processingFee
    case ProcessorPayable => p.processingFee
    case PlatformRevenue => p.platformShare
    case Wallet(d) => if d == driver then p.driverShare else 0
  }

  /** The entries of a trip can be built exactly when the shares add up to the fare and neither the
      driver's nor the platform's is nothing. */
  lemma BuiltIff(driver: string, p: Split)
    requires p.Accepted()
    ensures BuildTripPaymentEntries(driver, p).Ok?
            <==> p.driverShare + p.platformShare + p.processingFee == p.fare && p.platformShare > 0
    ensures BuildTripPaymentEntries(driver, p) == Err(AmountNotPositive)
            <==> p.driverShare + p.processingFee == p.fare && p.platformShare == 0
  {
    var drafts := TripDrafts(driver, p);
    assert drafts[0].amount == p.fare - p.processingFee && drafts[1].amount == p.driverShare;
    assert drafts[2].amount == p.platformShare;
  }

  /** Built entries balance, and post to each account what the trip is to post there. */
  lemma BuiltEntriesPost(driver: string, p: Split, transaction: nat, scope: Scope)
    requires BuildTripPaymentEntries(driver, p).Ok?
    ensures var drafts := BuildTripPaymentEntries(driver, p).value;
            && Sum(drafts, Debit) == Sum(drafts, Credit) == p.fare
            && Net(Posted(transaction, drafts), scope)
               == match scope case OfAccount(a) => Posting(a, driver, p) case _ => 0
  {
    var drafts := TripDrafts(driver, p);
    var first := Draft(CorporateCash, p.fare - p.processingFee, Debit);
    var second, third := Draft(Wallet(driver), p.driverShare, Credit), Draft(PlatformRevenue, p.platformShare, Credit);
    var fourth := Draft(ProcessingExpense, p.processingFee, Debit);
    var fifth := Draft(ProcessorPayable, p.processingFee, Credit);
    var one, two, three := [] + [first], [] + [first] + [second], [] + [first] + [second] + [third];
    SumOfSnoc([], first);
    SumOfSnoc(one, second);
    SumOfSnoc(two, third);
    NetOfSnoc(transaction, [], first, scope);
    NetOfSnoc(transaction, one, second, scope);
    NetOfSnoc(transaction, two, third, scope);
    if p.processingFee == 0 {
      assert drafts == three;
    } else {
      SumOfSnoc(three, fourth);
      SumOfSnoc(three + [fourth], fifth);
      NetOfSnoc(transaction, three, fourth, scope);
      NetOfSnoc(transaction, three + [fourth], fifth, scope);
      assert drafts == three + [fourth] + [fifth];
    }
  }

  lemma SumOfSnoc(drafts: seq<Draft>, d: Draft)
    ensures forall direction :: Sum(drafts + [d], direction)
                                == Sum(drafts, direction) + if d.direction == direction then d.amount else 0
  {
    assert (drafts + [d])[..|drafts|] == drafts;
  }

  lemma NetOfSnoc(transaction: nat, drafts: seq<Draft>, d: Draft, scope: Scope)
    ensures Net(Posted(transaction, drafts + [d]), scope)
            == Net(Posted(transaction, drafts), scope)
               + if Covers(scope, LedgerRow(transaction, d)) then Signed(d) else 0
  {
    var rows := Posted(transaction, drafts + [d]);
    assert rows[..|rows| - 1] == Posted(transaction, drafts);
  }

  /** The postings of the requests that were answered as completions. */
  function Owed(requests: seq<Request>, account: Account): int {
    if requests == [] then 0
    else
      var init, r := requests[..|requests| - 1], requests[|requests| - 1];
      var response := Handle(After(init), r).1;
      Owed(init, account) + if r.Complete? && response.Completed? then Posting(account, response.driver, r.split) else 0
  }

  /** What one completion does to the books. */
  lemma CompletionPosts(s: State, trip: string, key: string, p: Split, scope: Scope)
    requires Settled(s, trip, key, p).1.Completed?
    ensures var (t, response) := Settled(s, trip, key, p);
            Net(t.rows, scope) - Net(s.rows, scope)
            == match scope
               case OfAccount(a) => if ReferenceUsed(s.transactions, key) then 0 else Posting(a, response.driver, p)
               case _ => 0
  {
    var driver := EnRouteDriver(s.events, trip).value;
    BuiltEntriesPost(driver, p, |s.transactions|, scope);
    NetOfConcat(s.rows, Posted(|s.transactions|, BuildTripPaymentEntries(driver, p).value), scope);
  }

  /** What any request does to the books: nothing, unless it completes a trip. */
  lemma RequestPosts(s: State, r: Request, scope: Scope)
    ensures var (t, response) := Handle(s, r);
            Net(t.rows, scope) - Net(s.rows, scope)
            == if r.Complete? && response.Completed? && scope.OfAccount? && !ReferenceUsed(s.transactions, r.key)
               then Posting(scope.account, response.driver, r.split) else 0
  {
    hide Net, Posting, Sum, ReferenceUsed, StateOf, EnRouteDriver, BuildTripPaymentEntries;
    if r.Complete? && Handle(s, r).1.Completed? {
      CompletionPosts(s, r.trip, r.key, r.split, scope);
    }
  }

  /** In every run, fresh keys or not, the ledger balances as a whole and transaction by transaction. */
  lemma {:induction false} BooksBalance(requests: seq<Request>, scope: Scope)
    requires !scope.OfAccount?
    ensures Net(After(requests).rows, scope) == 0
  {
    if requests != [] {
      var init, r := requests[..|requests| - 1], requests[|requests| - 1];
      BooksBalance(init, scope);
      RequestPosts(After(init), r, scope);
    }
  }

  /** In every run with fresh keys each account holds the postings of the trips completed: a driver's
      wallet holds the sum of his shares of the trips he completed. */
  lemma {:induction false} AccountsHoldWhatIsOwed(requests: seq<Request>, account: Account)
    requires FreshRun(requests)
    ensures Net(After(requests).rows, OfAccount(account)) == Owed(requests, account)
  {
    if requests != [] {
      var init, r := requests[..|requests| - 1], requests[|requests| - 1];
      AccountsHoldWhatIsOwed(init, account);
      RequestPosts(After(init), r, OfAccount(account));
    }
  }

  /** A completion pays its driver his share if and only if its key is no earlier transaction's reference. */
  lemma DriverIsPaidIff(s: State, trip: string, key: string, p: Split)
    requires Settled(s, trip, key, p).1.Completed?
    ensures var (t, response) := Settled(s, trip, key, p);
            var wallet := OfAccount(Wallet(response.driver));
            Net(t.rows, wallet) == Net(s.rows, wallet) + p.driverShare <==> !ReferenceUsed(s.transactions, key)
  {
    CompletionPosts(s, trip, key, p, OfAccount(Wallet(Settled(s, trip, key, p).1.driver)));
  }

  lemma AfterSnoc(requests: seq<Request>, r: Request)
    ensures After(requests + [r]) == Handle(After(requests), r).0
  {
    assert (requests + [r])[..|requests|] == requests;
  }

  /** A demand for a new trip with a new key, when the nearest driver is available. */
  lemma DispatchOf(s: State, d: string, trip: string, key: string)
    requires StateOf(s.events, trip).None? && FreshKeys(s, Demand(trip, key, [d]))
    requires d in s.drivers && s.drivers[d].status == Available
    ensures var t := Matched(s, trip, key, [d]).0;
            && t.events == s.events + [RequestEvent(trip, key)] + [AcceptEvent(trip, d, key)]
            && t == Sent(Asked(s, trip, key), trip, d, key)
            && StateOf(t.events, trip) == Some(DriverEnRoute) && EnRouteDriver(t.events, trip) == Some(d)
            && forall other :: other != trip ==> StateOf(t.events, other) == StateOf(s.events, other)
  {
    SnocStates(s.events, RequestEvent(trip, key));
    SnocStates(s.events + [RequestEvent(trip, key)], AcceptEvent(trip, d, key));
  }

  /** A key that has completed a trip completes no other: the answer says so, but the trip still waits,
      nothing is posted, and its driver is free. */
  lemma UsedKeyOnlyFreesTheDriver(s: State, trip: string, key: string, p: Split)
    requires OneToOne(s) && Settled(s, trip, key, p).1.Completed?
    requires KeyUsed(s.events, EventKey(key, CompletedKey)) && ReferenceUsed(s.transactions, key)
    ensures var (t, response) := Settled(s, trip, key, p);
            && t.events == s.events && t.rows == s.rows && StateOf(t.events, trip) == Some(DriverEnRoute)
            && t.drivers == s.drivers[response.driver := ActiveDriver(Available, None)]
            && response.driver in s.drivers && s.drivers[response.driver] == ActiveDriver(Dispatched, Some(trip))
  {
    assert TripFits(s, trip);
  }

  /** A key that has found a driver finds no other: the answer says so, but no event says that the trip has
      a driver, and the driver is dispatched to it all the same. */
  lemma UsedKeyOnlyTakesTheDriver(s: State, trip: string, key: string, ranked: seq<string>)
    requires OneToOne(s) && Matched(s, trip, key, ranked).1.EnRoute?
    requires KeyUsed(s.events, EventKey(key, MatchingKey)) && KeyUsed(s.events, EventKey(key, AcceptedKey))
    ensures var (t, response) := Matched(s, trip, key, ranked);
            && t.events == s.events
            && t.drivers == s.drivers[response.driver := ActiveDriver(Dispatched, Some(trip))]
            && response.driver in s.drivers && s.drivers[response.driver].status == Available
            && StateOf(t.events, trip) != Some(DriverEnRoute)
  {
    ChosenIsNearest(s.drivers, ranked);
  }

  function FirstTrip(d: string, trip: string, key: string, p: Split): seq<Request> {
    [] + [Heartbeat(d, true)] + [Demand(trip, key, [d])] + [Complete(trip, key, p)]
  }

  lemma AfterFirstTrip(d: string, trip: string, key: string, p: Split)
    requires BuildTripPaymentEntries(d, p).Ok? && p.Accepted()
    ensures FreshRun(FirstTrip(d, trip, key, p))
    ensures var s := After(FirstTrip(d, trip, key, p));
            && s.events == [RequestEvent(trip, key), AcceptEvent(trip, d, key), CompleteEvent(trip, d, key)]
            && s.drivers == map[d := ActiveDriver(Available, None)]
            && s.transactions == [Transaction(key, trip)]
            && Net(s.rows, OfAccount(Wallet(d))) == p.driverShare
  {
    var r1, r2, r3 := Heartbeat(d, true), Demand(trip, key, [d]), Complete(trip, key, p);
    FreshSnoc([], r1);
    FreshSnoc([] + [r1], r2);
    FreshSnoc([] + [r1] + [r2], r3);
    AfterSnoc([], r1);
    AfterSnoc([] + [r1], r2);
    AfterSnoc([] + [r1] + [r2], r3);
    var s1 := Upserted(EMPTY, d);
    DispatchOf(s1, d, trip, key);
    FirstTripPays(Matched(s1, trip, key, [d]).0, d, trip, key, p);
    hide After, FreshRun, OneToOne, Settled;
  }

  lemma FirstTripPays(s: State, d: string, trip: string, key: string, p: Split)
    requires BuildTripPaymentEntries(d, p).Ok? && p.Accepted()
    requires s == Sent(Asked(Upserted(EMPTY, d), trip, key), trip, d, key)
    requires StateOf(s.events, trip) == Some(DriverEnRoute) && EnRouteDriver(s.events, trip) == Some(d)
    ensures var t := Settled(s, trip, key, p).0;
            && t.events == [RequestEvent(trip, key), AcceptEvent(trip, d, key), CompleteEvent(trip, d, key)]
            && t.drivers == map[d := ActiveDriver(Available, None)]
            && t.transactions == [Transaction(key, trip)]
            && Net(t.rows, OfAccount(Wallet(d))) == p.driverShare
            && FreshKeys(s, Complete(trip, key, p))
  {
    assert s.events == [RequestEvent(trip, key), AcceptEvent(trip, d, key)];
    BuiltEntriesPost(d, p, 0, Whole);
    CompletionPosts(s, trip, key, p, OfAccount(Wallet(d)));
  }

  lemma FreshSnoc(requests: seq<Request>, r: Request)
    ensures FreshRun(requests + [r]) <==> FreshRun(requests) && FreshKeys(After(requests), r)
  {
    assert (requests + [r])[..|requests|] == requests;
  }

  lemma NewKeysAreFresh(s: State, d: string, trip: string, key: string, r: Request)
    requires s.events == [RequestEvent(trip, key), AcceptEvent(trip, d, key), CompleteEvent(trip, d, key)]
    requires r.Demand? && r.key != key
    ensures FreshKeys(s, r)
  {
  }

  lemma OtherTripsHaveNoEvents(d: string, trip: string, other: string, key: string)
    requires other != trip
    ensures StateOf([RequestEvent(trip, key), AcceptEvent(trip, d, key), CompleteEvent(trip, d, key)], other).None?
  {
    var one, two := [RequestEvent(trip, key)], [RequestEvent(trip, key), AcceptEvent(trip, d, key)];
    SnocStates([], RequestEvent(trip, key));
    assert [] + one == one && one + [AcceptEvent(trip, d, key)] == two;
    SnocStates(one, AcceptEvent(trip, d, key));
    SnocStates(two, CompleteEvent(trip, d, key));
    assert two + [CompleteEvent(trip, d, key)]
        == [RequestEvent(trip, key), AcceptEvent(trip, d, key), CompleteEvent(trip, d, key)];
  }

  lemma SecondTripStarts(d: string, t1: string, t2: string, k1: string, k2: string, p: Split)
    requires t1 != t2 && k1 != k2 && BuildTripPaymentEntries(d, p).Ok? && p.Accepted()
    ensures var s := After(FirstTrip(d, t1, k1, p));
            var u := After(FirstTrip(d, t1, k1, p) + [Demand(t2, k2, [d])]);
            && FreshRun(FirstTrip(d, t1, k1, p) + [Demand(t2, k2, [d])])
            && u == Sent(Asked(s, t2, k2), t2, d, k2)
            && StateOf(u.events, t2) == Some(DriverEnRoute) && EnRouteDriver(u.events, t2) == Some(d)
  {
    var first, second := FirstTrip(d, t1, k1, p), Demand(t2, k2, [d]);
    AfterFirstTrip(d, t1, k1, p);
    var s := After(first);
    NewKeysAreFresh(s, d, t1, k1, second);
    hide FirstTrip, Net, After, FreshRun, FreshKeys, OneToOne, BuildTripPaymentEntries, StateOf, EnRouteDriver;
    hide Settled, Upserted, Matched, Asked, Sent;
    AfterSnoc(first, second);
    FreshSnoc(first, second);
    OtherTripsHaveNoEvents(d, t1, t2, k1);
    DispatchOf(s, d, t2, k2);
  }

  /** One driver, two trips, one key for both completions: such a run exists, every key of it but the last
      is fresh, and it leaves the driver free, his second trip waiting and one share of two in his wallet. */
  lemma ReusedKeyLosesAShare(d: string, t1: string, t2: string, k1: string, k2: string, p: Split)
    requires t1 != t2 && k1 != k2 && BuildTripPaymentEntries(d, p).Ok? && p.Accepted()
    ensures var before := FirstTrip(d, t1, k1, p) + [Demand(t2, k2, [d])];
            var (t, response) := Handle(After(before), Complete(t2, k1, p));
            && FreshRun(before) && response == Completed(d)
            && StateOf(t.events, t2) == Some(DriverEnRoute)
            && d in t.drivers && t.drivers[d] == ActiveDriver(Available, None)
            && Net(t.rows, OfAccount(Wallet(d))) == p.driverShare
  {
    var before := FirstTrip(d, t1, k1, p) + [Demand(t2, k2, [d])];
    AfterFirstTrip(d, t1, k1, p);
    SecondTripStarts(d, t1, t2, k1, k2, p);
    DriversMatchTrips(before);
    var u := After(before);
    hide FirstTrip, Net, After, FreshRun, OneToOne;
    assert u.events[2].key == EventKey(k1, CompletedKey) && u.transactions[0].reference == k1;
    BuiltEntriesPost(d, p, 0, Whole);
    UsedKeyOnlyFreesTheDriver(u, t2, k1, p);
  }

  lemma AfterTwoHeartbeats(d1: string, d2: string)
    ensures FreshRun([] + [Heartbeat(d1, true)] + [Heartbeat(d2, true)])
    ensures After([] + [Heartbeat(d1, true)] + [Heartbeat(d2, true)]) == Upserted(Upserted(EMPTY, d1), d2)
  {
    FreshSnoc([], Heartbeat(d1, true));
    FreshSnoc([] + [Heartbeat(d1, true)], Heartbeat(d2, true));
    AfterSnoc([], Heartbeat(d1, true));
    AfterSnoc([] + [Heartbeat(d1, true)], Heartbeat(d2, true));
  }

  lemma AfterFirstDemand(d1: string, d2: string, trip: string, key: string)
    requires d1 != d2
    ensures var requests := [] + [Heartbeat(d1, true)] + [Heartbeat(d2, true)] + [Demand(trip, key, [d1])];
            var s := After(requests);
            && FreshRun(requests)
            && s.events == [RequestEvent(trip, key), AcceptEvent(trip, d1, key)]
            && s.drivers == map[d1 := ActiveDriver(Dispatched, Some(trip)), d2 := ActiveDriver(Available, None)]
  {
    var beats, r := [] + [Heartbeat(d1, true)] + [Heartbeat(d2, true)], Demand(trip, key, [d1]);
    var s := Upserted(Upserted(EMPTY, d1), d2);
    assert FreshKeys(s, r) && StateOf(s.events, trip).None?;
    hide After, FreshRun, FreshKeys, StateOf, EnRouteDriver, Settled;
    AfterTwoHeartbeats(d1, d2);
    FreshSnoc(beats, r);
    AfterSnoc(beats, r);
    DispatchOf(s, d1, trip, key);
  }

  /** Two drivers and one key for two requests: such a run exists, every key of it but the last is fresh, and
      it leaves the second driver dispatched to a trip of which there is no event. */
  lemma ReusedKeyStrandsADriver(d1: string, d2: string, t1: string, t2: string, key: string)
    requires d1 != d2 && t1 != t2
    ensures var before := [] + [Heartbeat(d1, true)] + [Heartbeat(d2, true)] + [Demand(t1, key, [d1])];
            var (t, response) := Handle(After(before), Demand(t2, key, [d2]));
            && FreshRun(before) && response == EnRoute(d2)
            && d2 in t.drivers && t.drivers[d2] == ActiveDriver(Dispatched, Some(t2))
            && StateOf(t.events, t2).None? && !OneToOne(t)
  {
    var before := [] + [Heartbeat(d1, true)] + [Heartbeat(d2, true)] + [Demand(t1, key, [d1])];
    AfterFirstDemand(d1, d2, t1, key);
    DriversMatchTrips(before);
    var s := After(before);
    hide After, FreshRun, OneToOne;
    SnocStates([], RequestEvent(t1, key));
    SnocStates([RequestEvent(t1, key)], AcceptEvent(t1, d1, key));
    assert [] + [RequestEvent(t1, key)] == [RequestEvent(t1, key)];
    assert s.events == [RequestEvent(t1, key)] + [AcceptEvent(t1, d1, key)];
    assert s.events[0].key == EventKey(key, MatchingKey) && s.events[1].key == EventKey(key, AcceptedKey);
    assert Matched(s, t2, key, [d2]).1 == EnRoute(d2);
    DemandKeepsMatchingIff(s, t2, key, [d2]);
    UsedKeyOnlyTakesTheDriver(s, t2, key, [d2]);
  }
}
