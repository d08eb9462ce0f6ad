/** Keyed idempotent writes of drivers (backend/services/driver_idempotency.py) and what any
    interleaving of requests with the same key can do. */
module Idempotency {
  import opened Wrappers

  /** The unique index of the replay table. */
  datatype Key = Key(driver: int, endpoint: string, key: string)

  /** A handler ends with a payload or with an HTTP error status. */
  type HandlerResult = Result<string, int>

  /** A replay row, inserted by one request and holding its response once it is completed. */
  datatype Replay = InProgress(owner: nat) | Completed(owner: nat, payload: string)

  datatype Mode = NoKey | Proceed | ReplayOf(payload: string) | Busy

  datatype Reply = Success(payload: string) | Failed(status: int)

  const IN_PROGRESS_STATUS: int := 409

  /** What a request learns from the row it finds. */
  function ModeOf(row: Replay): Mode {
    match row
    case Completed(_, payload) => ReplayOf(payload)
    case InProgress(_) => Busy
  }

  // --- The table --------------------------------------------------------------------------------

  class ReplayTable {
    var rows: map<Key, Replay>

    constructor ()
      ensures rows == map[]
    {
      rows := map[];
    }

    method BeginOrReplay(key: Option<Key>, owner: nat) returns (mode: Mode)
      modifies this
      ensures mode == match key
                      case None => NoKey
                      case Some(k) => if k in old(rows) then ModeOf(old(rows)[k]) else Proceed
      ensures rows == if mode == Proceed then old(rows)[key.value := InProgress(owner)] else old(rows)
    {
      if key.None? {
        return NoKey;
      }
      if key.value in rows {
        return ModeOf(rows[key.value]);
      }
      rows := rows[key.value := InProgress(owner)];
      return Proceed;
    }

    method CommitResult(key: Key, payload: string)
      requires key in rows
      modifies this
      ensures rows == old(rows)[key := Completed(old(rows)[key].owner, payload)]
    {
      rows := rows[key := Completed(rows[key].owner, payload)];
    }

    method AbandonInProgress(key: Key)
      modifies this
      ensures rows == old(rows) - {key}
    {
      rows := rows - {key};
    }

    /** The wrapper around a handler that nobody interrupts: replay, refuse, or run and record. */
    method ExecuteIdempotentWrite(key: Option<Key>, owner: nat, handler: () -> HandlerResult)
      returns (reply: Reply, ran: bool)
      modifies this
      ensures ran <==> key.None? || key.value !in old(rows)
      ensures ran ==> reply == match handler() case Ok(p) => Success(p) case Err(e) => Failed(e)
      ensures !ran ==> reply == (match old(rows)[key.value]
                                 case Completed(_, p) => Success(p)
                                 case InProgress(_) => Failed(IN_PROGRESS_STATUS))
      ensures rows == if ran && key.Some? && reply.Success? then old(rows)[key.value := Completed(owner, reply.payload)]
                      else old(rows)
    {
      var mode := BeginOrReplay(key, owner);
      if mode.ReplayOf? {
        return Success(mode.payload), false;
      }
      if mode == Busy {
        return Failed(IN_PROGRESS_STATUS), false;
      }
      var result := handler();
      if mode == Proceed && result.Ok? {
        CommitResult(key.value, result.value);
      } else if mode == Proceed {
        AbandonInProgress(key.value);
      }
      return if result.Ok? then Success(result.value) else Failed(result.error), true;
    }
  }

  // --- Interleavings ----------------------------------------------------------------------------

  /** Where a request is: not begun, past the lookup and about to insert, inside the handler, with the
      handler's result in hand, or answered, by its own handler or not. */
  datatype Phase =
    | Arrived
    | Inserting
    | Running
    | Handled(result: HandlerResult)
    | Answered(reply: Reply, ran: bool)

  datatype Request = Request(key: Option<Key>, phase: Phase)

  datatype World = World(rows: map<Key, Replay>, requests: seq<Request>)

  /** Steps of different requests may come in any order; the handler's result is arbitrary. */
  datatype Step = Lookup(i: nat) | Insert(i: nat) | Handle(i: nat, result: HandlerResult) | Finish(i: nat)

  function AnswerFrom(row: Replay): Phase {
    match row
    case Completed(_, payload) => Answered(Success(payload), false)
    case InProgress(_) => Answered(Failed(IN_PROGRESS_STATUS), false)
  }

  function WithPhase(w: World, i: nat, phase: Phase): World
    requires i < |w.requests|
  {
    w.(requests := w.requests[i := w.requests[i].(phase := phase)])
  }

  function Take(w: World, step: Step): World {
    if step.i >= |w.requests| then w
    else
      var i, r := step.i, w.requests[step.i];
      match step
      case Lookup(_) =>
        if r.phase != Arrived then w
        else if r.key.None? then WithPhase(w, i, Running)
        else if r.key.value in w.rows then WithPhase(w, i, AnswerFrom(w.rows[r.key.value]))
        else WithPhase(w, i, Inserting)
      case Insert(_) =>
        if r.phase != Inserting || r.key.None? then w
        else if r.key.value in w.rows then WithPhase(w, i, AnswerFrom(w.rows[r.key.value]))
        else WithPhase(w, i, Running).(rows := w.rows[r.key.value := InProgress(i)])
      case Handle(_, result) =>
        if r.phase != Running then w else WithPhase(w, i, Handled(result))
      case Finish(_) =>
        if !r.phase.Handled? then w
        else match r.phase.result
          case Ok(payload) =>
            var t := WithPhase(w, i, Answered(Success(payload), true));
            if r.key.None? then t else t.(rows := w.rows[r.key.value := Completed(i, payload)])
          case Err(status) =>
            var t := WithPhase(w, i, Answered(Failed(status), true));
            if r.key.None? then t else t.(rows := w.rows - {r.key.value})
  }

  function TakeAll(w: World, steps: seq<Step>): World {
    if steps == [] then w else Take(TakeAll(w, steps[..|steps| - 1]), steps[|steps| - 1])
  }

  predicate AtStart(w: World) {
    w.rows == map[] && forall i :: 0 <= i < |w.requests| ==> w.requests[i].phase == Arrived
  }

  predicate InHandler(r: Request) {
    r.phase == Running || r.phase.Handled?
  }

  /** A request inside the handler owns the row of its key; one answered with success is answered
      with what the row holds, and has put it there if its own handler ran. */
  predicate Consistent(w: World, i: nat)
    requires i < |w.requests| && w.requests[i].key.Some?
  {
    var k, phase := w.requests[i].key.value, w.requests[i].phase;
    && (InHandler(w.requests[i]) ==> k in w.rows && w.rows[k] == InProgress(i))
    && (phase.Answered? && phase.reply.Success? ==>
          && k in w.rows && w.rows[k].Completed? && w.rows[k].payload == phase.reply.payload
          && (phase.ran ==> w.rows[k].owner == i))
  }

  /** And a row in progress belongs to a request with that key inside its handler. */
  predicate Owned(w: World, k: Key)
    requires k in w.rows
  {
    w.rows[k].InProgress? ==>
      var i := w.rows[k].owner;
      i < |w.requests| && w.requests[i].key == Some(k) && InHandler(w.requests[i])
  }

  ghost predicate Inv(w: World) {
    && (forall i :: 0 <= i < |w.requests| && w.requests[i].key.Some? ==> Consistent(w, i))
    && (forall k :: k in w.rows ==> Owned(w, k))
  }

  /** The request's own handler succeeded, whether or not it has been answered yet. */
  predicate SucceededItself(r: Request) {
    (r.phase.Handled? && r.phase.result.Ok?) || (r.phase.Answered? && r.phase.ran && r.phase.reply.Success?)
  }

  function OwnPayload(r: Request): string
    requires SucceededItself(r)
  {
    if r.phase.Handled? then r.phase.result.value else r.phase.reply.payload
  }

  lemma StepKeepsInv(w: World, step: Step)
    requires Inv(w)
    ensures Inv(Take(w, step))
  {
    var t := Take(w, step);
    forall i | 0 <= i < |t.requests| && t.requests[i].key.Some? ensures Consistent(t, i) {
      StepKeepsConsistent(w, step, i);
    }
    forall k | k in t.rows ensures Owned(t, k) {
      StepKeepsOwned(w, step, k);
    }
  }

  lemma StepKeepsConsistent(w: World, step: Step, i: nat)
    requires Inv(w) && i < |w.requests| && w.requests[i].key.Some?
    ensures |Take(w, step).requests| == |w.requests| && Take(w, step).requests[i].key == w.requests[i].key
    ensures Consistent(Take(w, step), i)
  {
    assert Consistent(w, i);
    if step.i < |w.requests| && w.requests[step.i].key.Some? {
      assert Consistent(w, step.i);
    }
  }

  lemma StepKeepsOwned(w: World, step: Step, k: Key)
    requires Inv(w) && k in Take(w, step).rows
    ensures Owned(Take(w, step), k)
  {
    if k in w.rows { assert Owned(w, k); }
    if step.i < |w.requests| && w.requests[step.i].key.Some? {
      assert Consistent(w, step.i);
    }
  }

  lemma {:induction false} RunKeepsInv(w: World, steps: seq<Step>)
    requires AtStart(w)
    ensures Inv(TakeAll(w, steps))
    ensures |TakeAll(w, steps).requests| == |w.requests|
  {
    if steps != [] {
      RunKeepsInv(w, steps[..|steps| - 1]);
      StepKeepsInv(TakeAll(w, steps[..|steps| - 1]), steps[|steps| - 1]);
    }
  }

  /** However requests with one key interleave, the handler succeeds for at most one of them, and
      every request answered with success is answered with that one's result. */
  lemma HandlerSucceedsAtMostOnce(w: World, steps: seq<Step>, i: nat, j: nat)
    requires AtStart(w) && i < |TakeAll(w, steps).requests| && j < |TakeAll(w, steps).requests|
    requires var t := TakeAll(w, steps);
             t.requests[i].key.Some? && t.requests[i].key == t.requests[j].key && SucceededItself(t.requests[i])
    ensures var t := TakeAll(w, steps);
            && (SucceededItself(t.requests[j]) ==> i == j)
            && (t.requests[j].phase.Answered? && t.requests[j].phase.reply.Success? ==>
                  t.requests[j].phase.reply.payload == OwnPayload(t.requests[i]))
  {
    RunKeepsInv(w, steps);
    var t := TakeAll(w, steps);
    assert Consistent(t, i) && Consistent(t, j);
  }

  /** The answer a key has stays: once a request has been answered with success, the row replays that
      payload for good. */
  lemma {:induction false} AnswersAreStable(w: World, steps: seq<Step>, n: nat, k: Key)
    requires AtStart(w) && n <= |steps|
    requires k in TakeAll(w, steps[..n]).rows && TakeAll(w, steps[..n]).rows[k].Completed?
    ensures k in TakeAll(w, steps).rows && TakeAll(w, steps).rows[k] == TakeAll(w, steps[..n]).rows[k]
  {
    if n == |steps| {
      assert steps[..n] == steps;
    } else {
      var before := steps[..|steps| - 1];
      assert before[..n] == steps[..n];
      AnswersAreStable(w, before, n, k);
      RunKeepsInv(w, before);
    }
  }

  /** A failed handler frees its key: the next request with it runs the handler again. */
  lemma FailureFreesTheKey(w: World, i: nat, j: nat)
    requires Inv(w) && i < |w.requests| && j < |w.requests| && i != j
    requires w.requests[i].key.Some? && w.requests[i].key == w.requests[j].key
    requires w.requests[i].phase.Handled? && w.requests[i].phase.result.Err? && w.requests[j].phase == Arrived
    ensures Take(Take(Take(w, Finish(i)), Lookup(j)), Insert(j)).requests[j].phase == Running
  {
  }

  /** A request without a key, or with a key nobody holds, reaches the handler; one whose key is held is
      answered from its row: the recorded payload, or 409 while the handler is at work. */
  lemma LookupThenInsert(w: World, i: nat)
    requires i < |w.requests| && w.requests[i].phase == Arrived
    ensures var r, t := w.requests[i], Take(Take(w, Lookup(i)), Insert(i));
            && i < |t.requests|
            && (r.key.None? ==> t.requests[i].phase == Running && t.rows == w.rows)
            && (r.key.Some? && r.key.value !in w.rows ==>
                  t.requests[i].phase == Running && t.rows == w.rows[r.key.value := InProgress(i)])
            && (r.key.Some? && r.key.value in w.rows ==>
                  && t.rows == w.rows
                  && t.requests[i].phase == match w.rows[r.key.value]
                                            case Completed(_, payload) => Answered(Success(payload), false)
                                            case InProgress(_) => Answered(Failed(409), false))
  {
  }

  /** The end of a handler answers its own request and settles its own key: success is recorded, failure
      deletes the row. */
  lemma FinishSettlesTheKey(w: World, i: nat)
    requires i < |w.requests| && w.requests[i].phase.Handled?
    ensures var r, t := w.requests[i], Take(w, Finish(i));
            && i < |t.requests|
            && t.requests[i].phase == (match r.phase.result
                                       case Ok(payload) => Answered(Success(payload), true)
                                       case Err(status) => Answered(Failed(status), true))
            && (r.key.None? ==> t.rows == w.rows)
            && (r.key.Some? && r.phase.result.Ok? ==>
                  r.key.value in t.rows && t.rows[r.key.value] == Completed(i, r.phase.result.value))
            && (r.key.Some? && r.phase.result.Err? ==> r.key.value !in t.rows)
  {
  }

  /** Requests with different keys have nothing to do with each other. */
  lemma OtherKeysStay(w: World, step: Step, k: Key)
    requires step.i < |w.requests| ==> w.requests[step.i].key != Some(k)
    ensures (k in Take(w, step).rows <==> k in w.rows) && (k in w.rows ==> Take(w, step).rows[k] == w.rows[k])
    ensures |Take(w, step).requests| == |w.requests|
    ensures forall j :: 0 <= j < |w.requests| && j != step.i ==> Take(w, step).requests[j] == w.requests[j]
  {
  }
}
