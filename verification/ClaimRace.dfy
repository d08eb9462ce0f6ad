/** Competing claims on one ride: the read, then the conditional update, with anything in between
    (backend/services/dispatch.py, `claim_ride`, without relying on the row lock). */
module ClaimRace {
  import opened Wrappers
  import opened Lifecycle

  datatype RideRow = RideRow(status: RideStatus, driver: Option<int>, acceptedAt: Option<int>)

  datatype Refusal = RideNotFound | RideAlreadyClaimed | RideNotAvailable

  /** What a claimant concludes from reading the row. */
  function Refused(row: Option<RideRow>): Option<Refusal> {
    match row
    case None => Some(RideNotFound)
    case Some(r) =>
      if r.driver.Some? then Some(RideAlreadyClaimed)
      else if r.status != Requested then Some(RideNotAvailable)
      else None
  }

  predicate Unclaimed(row: Option<RideRow>) {
    row.Some? && row.value.driver.None? && row.value.status == Requested
  }

  function Claimed(row: RideRow, d: int, now: int): RideRow {
    row.(driver := Some(d), status := Accepted, acceptedAt := Some(now))
  }

  /** The loser reads again to name its refusal. */
  function LossReason(row: Option<RideRow>): Refusal {
    match row
    case None => RideNotFound
    case Some(r) => if r.driver.Some? then RideAlreadyClaimed else RideNotAvailable
  }

  // --- The table --------------------------------------------------------------------------------

  class RideTable {
    var rows: map<int, RideRow>

    constructor (rows: map<int, RideRow>)
      ensures this.rows == rows
    {
      this.rows := rows;
    }

    function Row(id: int): Option<RideRow>
      reads this
    {
      if id in rows then Some(rows[id]) else None
    }

    /** UPDATE ... WHERE the ride is unassigned and requested: the number of rows changed. */
    method UpdateWhereUnclaimed(id: int, d: int, now: int) returns (rowcount: nat)
      modifies this
      ensures rowcount == if old(Unclaimed(Row(id))) then 1 else 0
      ensures rows == if rowcount == 1 then old(rows)[id := Claimed(old(rows)[id], d, now)] else old(rows)
    {
      if id in rows && rows[id].driver.None? && rows[id].status == Requested {
        rows := rows[id := rows[id].(driver := Some(d), status := Accepted, acceptedAt := Some(now))];
        return 1;
      }
      return 0;
    }

    /** The claim when nobody interferes: granted iff the ride is there, unassigned and requested. */
    method ClaimRide(id: int, d: int, now: int) returns (r: Result<RideRow, Refusal>)
      modifies this
      ensures r.Ok? <==> old(Unclaimed(Row(id)))
      ensures r.Ok? ==> rows == old(rows)[id := r.value] && r.value == Claimed(old(rows)[id], d, now)
      ensures r.Ok? ==>
                r.value.driver == Some(d) && r.value.status == Accepted && r.value.acceptedAt == Some(now)
      ensures r.Err? ==> rows == old(rows) && Some(r.error) == Refused(Row(id))
      ensures r == Err(RideNotFound) <==> id !in old(rows)
      ensures r == Err(RideAlreadyClaimed) <==> id in old(rows) && old(rows)[id].driver.Some?
      ensures r == Err(RideNotAvailable) <==>
                id in old(rows) && old(rows)[id].driver.None? && old(rows)[id].status != Requested
    {
      if id !in rows {
        return Err(RideNotFound);
      }
      if rows[id].driver.Some? {
        return Err(RideAlreadyClaimed);
      }
      if rows[id].status != Requested {
        return Err(RideNotAvailable);
      }
      var rowcount := UpdateWhereUnclaimed(id, d, now);
      if rowcount == 1 {
        return Ok(rows[id]);
      }
      return Err(LossReason(Row(id)));
    }
  }

  // --- Interleavings ----------------------------------------------------------------------------

  datatype Phase = Reading | Updating | Won | Lost(refusal: Refusal)

  datatype Request = Request(driver: int, phase: Phase)

  /** One ride, the claim requests in flight, and how often the ride has been released. */
  datatype World = World(row: Option<RideRow>, requests: seq<Request>, releases: nat)

  /** One step of one party: a claimant reads or updates, the holder releases or goes on, or the
      ride is cancelled by its rider or for want of drivers. */
  datatype Step =
    | Read(k: nat)
    | Update(k: nat, now: int)
    | Release
    | Progress(action: RideAction)
    | CancelRide

  function Take(w: World, step: Step): World {
    match step
    case Read(k) =>
      if k < |w.requests| && w.requests[k].phase == Reading then
        var phase := match Refused(w.row) case Some(e) => Lost(e) case None => Updating;
        w.(requests := w.requests[k := w.requests[k].(phase := phase)])
      else w
    case Update(k, now) =>
      if k < |w.requests| && w.requests[k].phase == Updating then
        if Unclaimed(w.row) then
          w.(row := Some(Claimed(w.row.value, w.requests[k].driver, now)),
          requests := w.requests[k := w.requests[k].(phase := Won)])
        else
          w.(requests := w.requests[k := w.requests[k].(phase := Lost(LossReason(w.row)))])
      else w
    case Release =>
      if w.row.Some? && w.row.value.driver.Some? && ReleaseToPool(w.row.value.status, Driver).Ok? then
        w.(row := Some(RideRow(Requested, None, None)), releases := w.releases + 1)
      else w
    case Progress(action) =>
      if w.row.Some? && w.row.value.driver.Some? && NextStatus(w.row.value.status, action, Driver).Ok? then
        w.(row := Some(w.row.value.(status := NextStatus(w.row.value.status, action, Driver).value)))
      else w
    case CancelRide =>
      if w.row.Some? && NextStatus(w.row.value.status, Cancel, Customer).Ok? then
        w.(row := Some(w.row.value.(status := Cancelled)))
      else w
  }

  function TakeAll(w: World, steps: seq<Step>): World {
    if steps == [] then w else Take(TakeAll(w, steps[..|steps| - 1]), steps[|steps| - 1])
  }

  function Wins(requests: seq<Request>): nat {
    if requests == [] then 0
    else Wins(requests[..|requests| - 1]) + if requests[|requests| - 1].phase == Won then 1 else 0
  }

  /** Before the race: nobody has read yet and the ride, if it exists, is unassigned. */
  predicate AtStart(w: World) {
    && w.releases == 0
    && (forall k :: 0 <= k < |w.requests| ==> w.requests[k].phase == Reading)
    && (w.row.Some? ==> w.row.value.driver.None?)
  }

  predicate Assigned(w: World) {
    w.row.Some? && w.row.value.driver.Some?
  }

  lemma {:induction false} NoWinsAtStart(requests: seq<Request>)
    requires forall k :: 0 <= k < |requests| ==> requests[k].phase == Reading
    ensures Wins(requests) == 0
  {
    if requests != [] {
      NoWinsAtStart(requests[..|requests| - 1]);
    }
  }

  lemma {:induction false} WinsAfterChange(requests: seq<Request>, k: nat, r: Request)
    requires k < |requests| && requests[k].phase != Won
    ensures Wins(requests[k := r]) == Wins(requests) + if r.phase == Won then 1 else 0
  {
    var n := |requests| - 1;
    if k < n {
      WinsAfterChange(requests[..n], k, r);
      assert requests[k := r][..n] == requests[..n][k := r];
    } else {
      assert requests[k := r][..n] == requests[..n];
    }
  }

  /** However the requests interleave with each other, with releases and with cancellation, the
      claims granted are the releases, plus one while the ride is assigned. */
  lemma {:induction false} ClaimsGrantedMatchReleases(w: World, steps: seq<Step>)
    requires AtStart(w)
    ensures var t := TakeAll(w, steps);
            Wins(t.requests) == t.releases + if Assigned(t) then 1 else 0
  {
    if steps == [] {
      NoWinsAtStart(w.requests);
    } else {
      var before := steps[..|steps| - 1];
      ClaimsGrantedMatchReleases(w, before);
      var t, step := TakeAll(w, before), steps[|steps| - 1];
      match step
      case Read(k) =>
        if k < |t.requests| && t.requests[k].phase == Reading {
          WinsAfterChange(t.requests, k, Take(t, step).requests[k]);
        }
      case Update(k, now) =>
        if k < |t.requests| && t.requests[k].phase == Updating {
          WinsAfterChange(t.requests, k, Take(t, step).requests[k]);
        }
      case _ =>
    }
  }

  /** A step that loses a claim leaves the ride as it was; a step that wins one assigns the ride to
      that claimant; and no step undoes a win or a loss. */
  lemma LosersChangeNothing(w: World, step: Step, k: nat)
    requires k < |w.requests|
    ensures var t := Take(w, step);
            && |t.requests| == |w.requests| && t.requests[k].driver == w.requests[k].driver
            && (t.requests[k].phase != w.requests[k].phase && t.requests[k].phase.Lost? ==> t.row == w.row)
            && (t.requests[k].phase != w.requests[k].phase && t.requests[k].phase.Won? ==>
                  && w.row.Some? && w.row.value.driver.None? && w.row.value.status == Requested
                  && t.row.value.driver == Some(w.requests[k].driver) && t.row.value.status == Accepted)
            && (w.requests[k].phase.Won? || w.requests[k].phase.Lost? ==> t.requests[k] == w.requests[k])
  {
  }

  predicate WonBy(r: Request, holder: Option<int>) {
    r.phase == Won && holder == Some(r.driver)
  }

  /** The driver on an assigned ride is one of the winners. */
  predicate HolderWon(w: World) {
    Assigned(w) ==> exists k :: 0 <= k < |w.requests| && WonBy(w.requests[k], w.row.value.driver)
  }

  /** While the ride is open nobody has been turned away. */
  predicate NobodyLostAnOpenRide(w: World) {
    Unclaimed(w.row) ==> forall k :: 0 <= k < |w.requests| ==> !w.requests[k].phase.Lost?
  }

  predicate AllAnswered(w: World) {
    forall k :: 0 <= k < |w.requests| ==> w.requests[k].phase.Won? || w.requests[k].phase.Lost?
  }

  lemma StepKeepsHolder(w: World, step: Step)
    requires HolderWon(w)
    ensures HolderWon(Take(w, step))
  {
    var t := Take(w, step);
    if Assigned(t) {
      if Assigned(w) {
        var k :| 0 <= k < |w.requests| && WonBy(w.requests[k], w.row.value.driver);
        LosersChangeNothing(w, step, k);
        assert WonBy(t.requests[k], t.row.value.driver);
      } else {
        assert step.Update?;
        assert WonBy(t.requests[step.k], t.row.value.driver);
      }
    }
  }

  /** When the only steps are claims, and every one of at least one claimant has finished, exactly
      one of them has won an open ride, and the ride is his. */
  lemma {:induction false} FirstClaimWins(w: World, steps: seq<Step>)
    requires AtStart(w) && Unclaimed(w.row)
    requires forall i :: 0 <= i < |steps| ==> steps[i].Read? || steps[i].Update?
    ensures var t := TakeAll(w, steps);
            && HolderWon(t) && NobodyLostAnOpenRide(t) && t.releases == 0 && |t.requests| == |w.requests|
            && (Assigned(t) || Unclaimed(t.row))
            && (w.requests != [] && AllAnswered(t) ==> Wins(t.requests) == 1 && Assigned(t))
  {
    if steps != [] {
      var before := steps[..|steps| - 1];
      FirstClaimWins(w, before);
      StepKeepsHolder(TakeAll(w, before), steps[|steps| - 1]);
    }
    var t := TakeAll(w, steps);
    ClaimsGrantedMatchReleases(w, steps);
    if w.requests != [] && !Assigned(t) && t.requests[0].phase.Won? {
      SomeWin(t.requests, 0);
    }
  }

  lemma {:induction false} SomeWin(requests: seq<Request>, k: nat)
    requires k < |requests| && requests[k].phase == Won
    ensures Wins(requests) >= 1
  {
    if k < |requests| - 1 {
      SomeWin(requests[..|requests| - 1], k);
    }
  }
}
