/** Claims on different rides. An accept first writes its driver's own status row, then reads his
    eligibility, then runs the conditional update that grants the ride, which guards that ride's row alone
    (backend/routes/drivers.py, backend/services/driver_status_service.py,
    backend/services/claim_eligibility.py, backend/services/dispatch.py). All of it is one transaction, so
    from the write to the answer every other accept of the same driver waits at its own write. */
module EligibilityRace {
  import opened Wrappers
  import opened Lifecycle
  import opened ClaimRace

  /** Where a request is: before it writes its driver's status row, between that and the check of his
      eligibility, between the check and the update, or answered. */
  datatype Stage = Unchecked | Touched | Checked | Granted | Refused

  datatype Claimant = Claimant(driver: int, ride: nat, stage: Stage)

  datatype Board = Board(rides: seq<RideRow>, claimants: seq<Claimant>)

  /** One step of one party. A request may be refused at any point, for instance because its driver is not
      present or by the claim's own read of the ride; an update takes effect when it is committed. */
  datatype Move =
    | Touch(k: nat)
    | Check(k: nat)
    | Refuse(k: nat)
    | Grant(k: nat, now: int)
    | HandBack(ride: nat)
    | GoOn(ride: nat, action: RideAction)
    | CallOff(ride: nat)

  predicate Drives(row: RideRow, d: int) {
    IsActive(row.status) && row.driver == Some(d)
  }

  predicate OnARide(b: Board, d: int) {
    exists i :: 0 <= i < |b.rides| && Drives(b.rides[i], d)
  }

  predicate Open(b: Board, i: nat) {
    i < |b.rides| && Unclaimed(Some(b.rides[i]))
  }

  function AtStage(b: Board, k: nat, stage: Stage): Board
    requires k < |b.claimants|
  {
    b.(claimants := b.claimants[k := b.claimants[k].(stage := stage)])
  }

  /** A request that has written its driver's status row and is not answered yet. */
  predicate InTransaction(c: Claimant) {
    c.stage == Touched || c.stage == Checked
  }

  predicate RowIsHeld(b: Board, d: int) {
    exists j :: 0 <= j < |b.claimants| && b.claimants[j].driver == d && InTransaction(b.claimants[j])
  }

  /** One move. With `locks` a write to a row that another transaction has written waits, so nothing
      happens; a database that let it pass would be `locks == false`. */
  function Play(b: Board, m: Move, locks: bool): Board {
    match m
    case Touch(k) =>
      if k >= |b.claimants| || b.claimants[k].stage != Unchecked then b
      else if locks && RowIsHeld(b, b.claimants[k].driver) then b
      else AtStage(b, k, Touched)
    case Check(k) =>
      if k >= |b.claimants| || b.claimants[k].stage != Touched then b
      else AtStage(b, k, if OnARide(b, b.claimants[k].driver) then Refused else Checked)
    case Refuse(k) =>
      if k >= |b.claimants| || b.claimants[k].stage == Granted then b else AtStage(b, k, Refused)
    case Grant(k, now) =>
      if k >= |b.claimants| || b.claimants[k].stage != Checked then b
      else if !Open(b, b.claimants[k].ride) then AtStage(b, k, Refused)
      else
        var i, d := b.claimants[k].ride, b.claimants[k].driver;
        AtStage(b, k, Granted).(rides := b.rides[i := Claimed(b.rides[i], d, now)])
    case HandBack(i) =>
      if i < |b.rides| && b.rides[i].driver.Some? && ReleaseToPool(b.rides[i].status, Driver).Ok? then
        b.(rides := b.rides[i := RideRow(Requested, None, None)])
      else b
    case GoOn(i, action) =>
      if && i < |b.rides| && b.rides[i].driver.Some? && action != Accept
         && NextStatus(b.rides[i].status, action, Driver).Ok? then
        b.(rides := b.rides[i := b.rides[i].(status := NextStatus(b.rides[i].status, action, Driver).value)])
      else b
    case CallOff(i) =>
      if i < |b.rides| && NextStatus(b.rides[i].status, Cancel, Customer).Ok? then
        b.(rides := b.rides[i := b.rides[i].(status := Cancelled)])
      else b
  }

  function PlayAll(b: Board, moves: seq<Move>, locks: bool): Board {
    if moves == [] then b else Play(PlayAll(b, moves[..|moves| - 1], locks), moves[|moves| - 1], locks)
  }

  /** The board before move n. */
  function Before(b: Board, moves: seq<Move>, locks: bool, n: nat): Board
    requires n <= |moves|
  {
    PlayAll(b, moves[..n], locks)
  }

  ghost predicate OneRideEach(b: Board) {
    forall i, j, d ::
      0 <= i < |b.rides| && 0 <= j < |b.rides| && Drives(b.rides[i], d) && Drives(b.rides[j], d) ==> i == j
  }

  ghost predicate Fair(b: Board) {
    && OneRideEach(b)
    && forall k :: 0 <= k < |b.claimants| ==> b.claimants[k].stage == Unchecked
  }

  /** Move n grants request k its ride. */
  predicate Grants(b: Board, moves: seq<Move>, locks: bool, n: nat, k: nat)
    requires n < |moves|
  {
    var t := Before(b, moves, locks, n);
    && moves[n].Grant? && moves[n].k == k && k < |t.claimants|
    && t.claimants[k].stage == Checked && Open(t, t.claimants[k].ride)
  }

  /** Request k is checked by move x, another request j of the same driver is granted by move y after
      it, and k is granted by move z while the driver still has j's ride. */
  predicate Overtakes(b: Board, moves: seq<Move>, locks: bool, x: nat, y: nat, z: nat, j: nat, k: nat) {
    && x < y < z < |moves|
    && moves[x] == Check(k) && k < |Before(b, moves, locks, x).claimants|
    && Before(b, moves, locks, x).claimants[k].stage == Touched
    && Grants(b, moves, locks, y, j) && Grants(b, moves, locks, z, k) && j != k
    && var t := Before(b, moves, locks, z);
       && j < |t.claimants| && k < |t.claimants| && t.claimants[j].driver == t.claimants[k].driver
       && t.claimants[j].ride < |t.rides| && Drives(t.rides[t.claimants[j].ride], t.claimants[j].driver)
  }

  ghost predicate NothingOvertakes(b: Board, moves: seq<Move>, locks: bool) {
    forall x: nat, y: nat, z: nat, j: nat, k: nat :: !Overtakes(b, moves, locks, x, y, z, j, k)
  }

  // --- One move ---------------------------------------------------------------------------------

  lemma OneMoreMove(b: Board, moves: seq<Move>, locks: bool, n: nat)
    requires n < |moves|
    ensures Before(b, moves, locks, n + 1) == Play(Before(b, moves, locks, n), moves[n], locks)
  {
    assert moves[..n + 1][..n] == moves[..n];
  }

  predicate PastCheck(c: Claimant) {
    c.stage != Unchecked && c.stage != Touched
  }

  /** Requests and rides stay what they are, and an answered request stays answered. */
  lemma MoveKeepsRequests(b: Board, m: Move, locks: bool)
    ensures var t := Play(b, m, locks);
            && |t.claimants| == |b.claimants| && |t.rides| == |b.rides|
            && (forall k :: 0 <= k < |b.claimants| ==>
                  && t.claimants[k].driver == b.claimants[k].driver && t.claimants[k].ride == b.claimants[k].ride
                  && (t.claimants[k].stage == Checked ==>
                        b.claimants[k].stage == Checked
                        || (m == Check(k) && b.claimants[k].stage == Touched && !OnARide(b, b.claimants[k].driver)))
                  && (PastCheck(b.claimants[k]) ==> PastCheck(t.claimants[k]))
                  && (b.claimants[k].stage == Granted ==> t.claimants[k].stage == Granted))
  {
  }

  /** A driver comes to a ride only by being granted it. */
  lemma OnlyGrantsAssign(b: Board, m: Move, locks: bool, i: nat, d: int)
    requires i < |Play(b, m, locks).rides| && Drives(Play(b, m, locks).rides[i], d)
    ensures i < |b.rides|
    ensures Drives(b.rides[i], d)
            || (&& m.Grant? && m.k < |b.claimants| && b.claimants[m.k].stage == Checked && Open(b, i)
                && b.claimants[m.k].ride == i && b.claimants[m.k].driver == d)
  {
  }

  lemma {:induction false} RequestsStay(b: Board, moves: seq<Move>, locks: bool, m: nat, n: nat)
    requires m <= n <= |moves|
    ensures var s, t := Before(b, moves, locks, m), Before(b, moves, locks, n);
            && |t.claimants| == |s.claimants| && |t.rides| == |s.rides|
            && forall k :: 0 <= k < |s.claimants| ==>
                 && t.claimants[k].driver == s.claimants[k].driver && t.claimants[k].ride == s.claimants[k].ride
                 && (s.claimants[k].stage == Granted ==> t.claimants[k].stage == Granted)
  {
    if m < n {
      RequestsStay(b, moves, locks, m, n - 1);
      OneMoreMove(b, moves, locks, n - 1);
      MoveKeepsRequests(Before(b, moves, locks, n - 1), moves[n - 1], locks);
    }
  }

  // --- Tracing a state back ---------------------------------------------------------------------

  /** A checked request was checked at a moment when its driver had no ride, and has been waiting since. */
  lemma {:induction false} CheckedWhen(b: Board, moves: seq<Move>, locks: bool, n: nat, k: nat) returns (x: nat)
    requires Fair(b) && n <= |moves| && k < |Before(b, moves, locks, n).claimants|
    requires Before(b, moves, locks, n).claimants[k].stage == Checked
    ensures x < n && moves[x] == Check(k)
    ensures k < |Before(b, moves, locks, x).claimants| && Before(b, moves, locks, x).claimants[k].stage == Touched
    ensures !OnARide(Before(b, moves, locks, x), Before(b, moves, locks, x).claimants[k].driver)
    ensures forall m :: x < m <= n ==>
              k < |Before(b, moves, locks, m).claimants| && Before(b, moves, locks, m).claimants[k].stage == Checked
  {
    if n == 0 {
      assert false;
    }
    hide Play, OnARide, Fair;
    OneMoreMove(b, moves, locks, n - 1);
    var s := Before(b, moves, locks, n - 1);
    MoveKeepsRequests(s, moves[n - 1], locks);
    if s.claimants[k].stage == Checked {
      x := CheckedWhen(b, moves, locks, n - 1, k);
    } else {
      x := n - 1;
    }
  }

  /** A ride a driver has but did not have before was granted to him in between. */
  lemma {:induction false} GrantedWhen(b: Board, moves: seq<Move>, locks: bool, m: nat, n: nat, i: nat, d: int)
    returns (y: nat, j: nat)
    requires m <= n <= |moves| && i < |Before(b, moves, locks, n).rides|
    requires Drives(Before(b, moves, locks, n).rides[i], d)
    requires !OnARide(Before(b, moves, locks, m), d)
    ensures m <= y < n && Grants(b, moves, locks, y, j)
    ensures var t := Before(b, moves, locks, y); t.claimants[j].driver == d && t.claimants[j].ride == i
    decreases n
  {
    if m == n {
      assert false;
    }
    OneMoreMove(b, moves, locks, n - 1);
    var s := Before(b, moves, locks, n - 1);
    OnlyGrantsAssign(s, moves[n - 1], locks, i, d);
    if Drives(s.rides[i], d) {
      y, j := GrantedWhen(b, moves, locks, m, n - 1, i, d);
    } else {
      y, j := n - 1, moves[n - 1].k;
    }
  }

  // --- Two rides at once ------------------------------------------------------------------------

  /** A request that overtakes gives its driver a second ride. */
  lemma OvertakingGivesTwo(b: Board, moves: seq<Move>, locks: bool, x: nat, y: nat, z: nat, j: nat, k: nat)
    requires Overtakes(b, moves, locks, x, y, z, j, k)
    ensures !OneRideEach(Before(b, moves, locks, z + 1))
  {
    OneMoreMove(b, moves, locks, z);
    var s, t := Before(b, moves, locks, z), Before(b, moves, locks, z + 1);
    var d, first, second := s.claimants[k].driver, s.claimants[j].ride, s.claimants[k].ride;
    assert Drives(t.rides[first], d) && Drives(t.rides[second], d) && first != second;
  }

  /** When a move breaks it, some request has overtaken another of its driver. */
  lemma TwoMeansOvertaking(b: Board, moves: seq<Move>, locks: bool, z: nat)
    requires Fair(b) && z < |moves|
    requires OneRideEach(Before(b, moves, locks, z)) && !OneRideEach(Before(b, moves, locks, z + 1))
    ensures !NothingOvertakes(b, moves, locks)
  {
    OneMoreMove(b, moves, locks, z);
    var s, t := Before(b, moves, locks, z), Before(b, moves, locks, z + 1);
    MoveKeepsRequests(s, moves[z], locks);
    var p, q, d :|
      0 <= p < |t.rides| && 0 <= q < |t.rides| && Drives(t.rides[p], d) && Drives(t.rides[q], d) && p != q;
    OnlyGrantsAssign(s, moves[z], locks, p, d);
    OnlyGrantsAssign(s, moves[z], locks, q, d);
    var i := if Drives(s.rides[p], d) then p else q;
    assert Drives(s.rides[i], d) && moves[z].Grant?;
    var k := moves[z].k;
    var x := CheckedWhen(b, moves, locks, z, k);
    RequestsStay(b, moves, locks, x, z);
    var y, j := GrantedWhen(b, moves, locks, x, z, i, d);
    RequestsStay(b, moves, locks, y, z);
    OneMoreMove(b, moves, locks, y);
    RequestsStay(b, moves, locks, y + 1, z);
    assert Before(b, moves, locks, y + 1).claimants[j].stage == Granted;
    assert Overtakes(b, moves, locks, x, y, z, j, k);
  }

  /** With or without the lock, no driver ever has two rides if and only if no request of his is granted
      while he has a ride that was granted to another of his requests after this one's check. */
  lemma TwoRidesIffOvertaken(b: Board, moves: seq<Move>, locks: bool)
    requires Fair(b)
    ensures (forall n :: 0 <= n <= |moves| ==> OneRideEach(Before(b, moves, locks, n)))
            <==> NothingOvertakes(b, moves, locks)
  {
    if !NothingOvertakes(b, moves, locks) {
      var x: nat, y: nat, z: nat, j: nat, k: nat :| Overtakes(b, moves, locks, x, y, z, j, k);
      OvertakingGivesTwo(b, moves, locks, x, y, z, j, k);
    } else {
      forall n | 0 <= n <= |moves| ensures OneRideEach(Before(b, moves, locks, n)) {
        OneRideUpTo(b, moves, locks, n);
      }
    }
  }

  lemma {:induction false} OneRideUpTo(b: Board, moves: seq<Move>, locks: bool, n: nat)
    requires Fair(b) && NothingOvertakes(b, moves, locks) && n <= |moves|
    ensures OneRideEach(Before(b, moves, locks, n))
  {
    if n > 0 {
      OneRideUpTo(b, moves, locks, n - 1);
      if !OneRideEach(Before(b, moves, locks, n)) {
        TwoMeansOvertaking(b, moves, locks, n - 1);
        assert false;
      }
    }
  }

  /** Two requests of one driver are never both between their check and their answer. */
  ghost predicate OneAtATime(b: Board, moves: seq<Move>, locks: bool) {
    forall n, j, k :: 0 <= n <= |moves| && 0 <= j < k < |Before(b, moves, locks, n).claimants| ==>
      var t := Before(b, moves, locks, n);
      t.claimants[j].stage == t.claimants[k].stage == Checked ==> t.claimants[j].driver != t.claimants[k].driver
  }

  /** A driver only one of whose requests is past its check at a time never has two rides. */
  lemma OneAtATimeIsEnough(b: Board, moves: seq<Move>, locks: bool)
    requires Fair(b) && OneAtATime(b, moves, locks)
    ensures forall n :: 0 <= n <= |moves| ==> OneRideEach(Before(b, moves, locks, n))
  {
    forall x: nat, y: nat, z: nat, j: nat, k: nat ensures !Overtakes(b, moves, locks, x, y, z, j, k) {
      if Overtakes(b, moves, locks, x, y, z, j, k) {
        WaitingWhileGranted(b, moves, locks, x, y, z, j, k);
        assert false;
      }
    }
    TwoRidesIffOvertaken(b, moves, locks);
  }

  lemma WaitingWhileGranted(b: Board, moves: seq<Move>, locks: bool, x: nat, y: nat, z: nat, j: nat, k: nat)
    requires Fair(b) && Overtakes(b, moves, locks, x, y, z, j, k)
    ensures !OneAtATime(b, moves, locks)
  {
    var checked := CheckedWhen(b, moves, locks, z, k);
    RequestsStay(b, moves, locks, y, z);
    if x < checked {
      CheckTakenOnce(b, moves, locks, x, checked, k);
    }
    var t := Before(b, moves, locks, y);
    assert t.claimants[j].stage == Checked && t.claimants[k].stage == Checked;
  }

  /** The check that lets a request through is taken once. */
  lemma {:induction false} CheckTakenOnce(b: Board, moves: seq<Move>, locks: bool, x: nat, n: nat, k: nat)
    requires x < n <= |moves| && moves[x] == Check(k)
    requires k < |Before(b, moves, locks, x).claimants| && Before(b, moves, locks, x).claimants[k].stage == Touched
    ensures k < |Before(b, moves, locks, n).claimants| && PastCheck(Before(b, moves, locks, n).claimants[k])
  {
    OneMoreMove(b, moves, locks, n - 1);
    MoveKeepsRequests(Before(b, moves, locks, n - 1), moves[n - 1], locks);
    if x == n - 1 {
      assert PastCheck(Play(Before(b, moves, locks, x), Check(k), locks).claimants[k]);
    } else {
      hide Play;
      CheckTakenOnce(b, moves, locks, x, n - 1, k);
    }
  }

  // --- What the lock gives ----------------------------------------------------------------------

  /** At most one request of a driver is in its transaction. */
  ghost predicate RowsHeldOnce(b: Board) {
    forall j, k :: 0 <= j < k < |b.claimants| && InTransaction(b.claimants[j]) && InTransaction(b.claimants[k]) ==>
      b.claimants[j].driver != b.claimants[k].driver
  }

  lemma MoveHoldsOnce(b: Board, m: Move)
    requires RowsHeldOnce(b)
    ensures RowsHeldOnce(Play(b, m, true))
  {
    var t := Play(b, m, true);
    assert |t.claimants| == |b.claimants|;
    assert forall k :: 0 <= k < |b.claimants| ==> t.claimants[k].driver == b.claimants[k].driver;
    forall k | 0 <= k < |b.claimants| && InTransaction(t.claimants[k])
      ensures InTransaction(b.claimants[k]) || (m == Touch(k) && !RowIsHeld(b, b.claimants[k].driver))
    {
    }
  }

  lemma {:induction false} RunHoldsOnce(b: Board, moves: seq<Move>, n: nat)
    requires Fair(b) && n <= |moves|
    ensures RowsHeldOnce(Before(b, moves, true, n))
  {
    if n > 0 {
      RunHoldsOnce(b, moves, n - 1);
      OneMoreMove(b, moves, true, n - 1);
      MoveHoldsOnce(Before(b, moves, true, n - 1), moves[n - 1]);
    }
  }

  /** However the requests of all drivers interleave with each other, with releases, progress and
      cancellations, no driver ever has two rides. */
  lemma NoDriverEverHasTwoRides(b: Board, moves: seq<Move>)
    requires Fair(b)
    ensures forall n :: 0 <= n <= |moves| ==> OneRideEach(Before(b, moves, true, n))
  {
    forall n | 0 <= n <= |moves| ensures RowsHeldOnce(Before(b, moves, true, n)) {
      RunHoldsOnce(b, moves, n);
    }
    OneAtATimeIsEnough(b, moves, true);
  }

  /** It is the write before the check that gives this, not the update: were the row not held, these moves
      of two requests of one driver would give him both rides; as it is the second request waits, and its
      ride stays open. */
  lemma WithoutTheLockTwoRides(d: int, now: int)
    ensures var pool := RideRow(Requested, None, None);
            var b := Board([pool, pool], [Claimant(d, 0, Unchecked), Claimant(d, 1, Unchecked)]);
            var unlocked := PlayAll(b, BothAtOnce(now), false);
            var locked := PlayAll(b, BothAtOnce(now), true);
            && Fair(b)
            && |unlocked.rides| == 2 && Drives(unlocked.rides[0], d) && Drives(unlocked.rides[1], d)
            && |locked.rides| == 2 && Drives(locked.rides[0], d) && Open(locked, 1)
  {
    var pool := RideRow(Requested, None, None);
    var b := Board([pool, pool], [Claimant(d, 0, Unchecked), Claimant(d, 1, Unchecked)]);
    BothChecked(b, d, now, false);
    BothChecked(b, d, now, true);
    hide PlayAll, OnARide, RowIsHeld;
  }

  function Checks(): seq<Move> {
    [] + [Touch(0)] + [Touch(1)] + [Check(0)] + [Check(1)]
  }

  function BothAtOnce(now: int): seq<Move> {
    Checks() + [Grant(0, now)] + [Grant(1, now)]
  }

  /** The claimants before the grants: with the lock the second waits. */
  function Waiting(d: int, first: Stage, second: Stage, locks: bool): seq<Claimant> {
    [Claimant(d, 0, first), Claimant(d, 1, if locks then Unchecked else second)]
  }

  lemma BothChecked(b: Board, d: int, now: int, locks: bool)
    requires |b.rides| == 2 && b.rides[0].driver.None? && b.rides[1].driver.None?
    requires b.claimants == [Claimant(d, 0, Unchecked), Claimant(d, 1, Unchecked)]
    ensures PlayAll(b, BothAtOnce(now), locks)
            == var checked := b.(claimants := Waiting(d, Checked, Checked, locks));
               Play(Play(checked, Grant(0, now), locks), Grant(1, now), locks)
  {
    var first := [] + [Touch(0)] + [Touch(1)];
    BothTouched(b, d, locks);
    hide PlayAll, RowIsHeld;
    PlayOne(b, first, Check(0), locks);
    PlayOne(b, first + [Check(0)], Check(1), locks);
    PlayOne(b, Checks(), Grant(0, now), locks);
    PlayOne(b, Checks() + [Grant(0, now)], Grant(1, now), locks);
    assert PlayAll(b, Checks(), locks) == b.(claimants := Waiting(d, Checked, Checked, locks));
    hide Play;
  }

  lemma BothTouched(b: Board, d: int, locks: bool)
    requires b.claimants == [Claimant(d, 0, Unchecked), Claimant(d, 1, Unchecked)]
    ensures PlayAll(b, [] + [Touch(0)] + [Touch(1)], locks) == b.(claimants := Waiting(d, Touched, Touched, locks))
  {
    PlayOne(b, [], Touch(0), locks);
    PlayOne(b, [] + [Touch(0)], Touch(1), locks);
    var one := b.(claimants := [Claimant(d, 0, Touched), Claimant(d, 1, Unchecked)]);
    assert Play(b, Touch(0), locks) == one;
    assert InTransaction(one.claimants[0]) && RowIsHeld(one, d);
  }

  lemma PlayOne(b: Board, moves: seq<Move>, m: Move, locks: bool)
    ensures PlayAll(b, moves + [m], locks) == Play(PlayAll(b, moves, locks), m, locks)
  {
    assert (moves + [m])[..|moves|] == moves;
  }
}
