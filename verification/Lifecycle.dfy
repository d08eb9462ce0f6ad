/** The ride lifecycle table (backend/services/lifecycle.py). */
module Lifecycle {
  import opened Wrappers

  datatype RideStatus = Requested | Offered | Accepted | DriverArrived | InProgress | Completed | Cancelled

  datatype RideAction = Accept | Arrive | Start | Complete | Cancel

  /** The role after normalisation: "rider" is already mapped to the customer. */
  datatype Role = Driver | Customer | OtherRole

  datatype LifecycleError = Terminal(status: RideStatus) | InvalidTransition

  const TRANSITIONS: map<(RideStatus, RideAction, Role), RideStatus> :=
    map[
      (Requested, Accept, Driver) := Accepted,
      (Accepted, Arrive, Driver) := DriverArrived,
      (DriverArrived, Start, Driver) := InProgress,
      (InProgress, Complete, Driver) := Completed,
      (Requested, Cancel, Customer) := Cancelled,
      (Accepted, Cancel, Customer) := Cancelled,
      (DriverArrived, Cancel, Customer) := Cancelled,
      (InProgress, Cancel, Customer) := Cancelled
    ]

  predicate IsTerminal(s: RideStatus) {
    s == Completed || s == Cancelled
  }

  /** The statuses in which a ride occupies its driver. */
  predicate IsActive(s: RideStatus) {
    s == Accepted || s == DriverArrived || s == InProgress
  }

  function NextStatus(current: RideStatus, action: RideAction, role: Role): Result<RideStatus, LifecycleError> {
    if IsTerminal(current) then Err(Terminal(current))
    else if (current, action, role) in TRANSITIONS then Ok(TRANSITIONS[(current, action, role)])
    else Err(InvalidTransition)
  }

  predicate ValidTransition(current: RideStatus, next: RideStatus, role: Role) {
    && !IsTerminal(current)
    && exists k :: k in TRANSITIONS && (k.0, TRANSITIONS[k], k.2) == (current, next, role)
  }

  function ReleaseToPool(current: RideStatus, role: Role): Result<RideStatus, LifecycleError> {
    if current != Accepted || role != Driver then Err(InvalidTransition) else Ok(Requested)
  }

  function NextActions(s: RideStatus): seq<RideAction> {
    match s
    case Accepted => [Arrive]
    case DriverArrived => [Start]
    case InProgress => [Complete]
    case _ => []
  }

  /** How far a ride has come; every table transition raises it. */
  function Rank(s: RideStatus): nat {
    match s
    case Requested => 0
    case Offered => 0
    case Accepted => 1
    case DriverArrived => 2
    case InProgress => 3
    case Completed => 4
    case Cancelled => 4
  }

  /** The check on a pair of statuses and the step by action describe the same relation. */
  lemma ValidTransitionIsSomeAction(current: RideStatus, next: RideStatus, role: Role)
    ensures ValidTransition(current, next, role) <==>
            exists a :: NextStatus(current, a, role) == Ok(next)
  {
    if ValidTransition(current, next, role) {
      var k :| k in TRANSITIONS && (k.0, TRANSITIONS[k], k.2) == (current, next, role);
      assert NextStatus(current, k.1, role) == Ok(next);
    }
    if a :| NextStatus(current, a, role) == Ok(next) {
      assert (current, a, role) in TRANSITIONS;
    }
  }

  /** The action behind a step is determined by where the step leads. */
  lemma ActionIsUnique(current: RideStatus, a: RideAction, b: RideAction, role: Role)
    requires NextStatus(current, a, role).Ok? && NextStatus(current, a, role) == NextStatus(current, b, role)
    ensures a == b
  {
  }

  /** Steps by the table from one status, taken in order until one is refused. */
  function Walk(s: RideStatus, steps: seq<(RideAction, Role)>): Result<RideStatus, LifecycleError>
    decreases |steps|
  {
    if steps == [] then Ok(s)
    else match NextStatus(s, steps[0].0, steps[0].1)
      case Err(e) => Err(e)
      case Ok(t) => Walk(t, steps[1..])
  }

  /** No walk by the table goes back or idles, so none is longer than four steps;
      none ends in Offered unless it starts there; and a walk out of a terminal status is empty. */
  lemma {:induction false} WalksAreShort(s: RideStatus, steps: seq<(RideAction, Role)>)
    requires Walk(s, steps).Ok?
    ensures Rank(s) + |steps| <= Rank(Walk(s, steps).value) <= 4
    ensures Walk(s, steps).value == Offered ==> s == Offered && steps == []
    ensures IsTerminal(s) ==> steps == []
    decreases |steps|
  {
    if steps != [] {
      WalksAreShort(NextStatus(s, steps[0].0, steps[0].1).value, steps[1..]);
    }
  }

  /** Release is outside the table and undoes exactly the driver's accept. */
  lemma ReleaseUndoesAccept(s: RideStatus, role: Role)
    ensures ReleaseToPool(s, role).Ok? <==> role == Driver && NextStatus(Requested, Accept, role) == Ok(s)
    ensures ReleaseToPool(s, role).Ok? ==>
              && ReleaseToPool(s, role).value == Requested
              && !ValidTransition(s, Requested, role)
  {
    if ReleaseToPool(s, role).Ok? && ValidTransition(s, Requested, role) {
      ValidTransitionIsSomeAction(s, Requested, role);
      assert false;
    }
  }

  /** The cockpit offers exactly the driver's legal actions on a ride the driver already holds. */
  lemma NextActionsAreTheDriversMoves(s: RideStatus, a: RideAction)
    ensures a in NextActions(s) <==> a != Accept && NextStatus(s, a, Driver).Ok?
  {
  }

  /** Only drivers take a ride forward, only its customer cancels it, and nobody else moves it. */
  lemma RolesKeepToTheirMoves(s: RideStatus, a: RideAction, role: Role)
    ensures NextStatus(s, a, role).Ok? <==>
              || (role == Customer && a == Cancel && s != Offered && !IsTerminal(s))
              || (role == Driver && a == Accept && s == Requested)
              || (role == Driver && a == Arrive && s == Accepted)
              || (role == Driver && a == Start && s == DriverArrived)
              || (role == Driver && a == Complete && s == InProgress)
    ensures NextStatus(s, a, role).Err? ==>
              var error := NextStatus(s, a, role).error;
              error == if s == Completed || s == Cancelled then Terminal(s) else InvalidTransition
  {
  }
}
