/** In-process publish and subscribe over bounded queues (backend/services/event_bus.py), with what
    every client has been handed. Publishing has no await, so it is one step on the event loop. */
module EventStreams {
  const MAX_QUEUE: nat := 100

  /** Queues are named by their identity; a queue outlives its subscription. */
  datatype Bus = Bus(subscribers: map<string, set<nat>>, queues: map<nat, seq<string>>)

  function Members(bus: Bus, topic: string): set<nat> {
    if topic in bus.subscribers then bus.subscribers[topic] else {}
  }

  ghost predicate Wired(bus: Bus) {
    forall topic :: topic in bus.subscribers ==> bus.subscribers[topic] <= bus.queues.Keys
  }

  /** Each of these queues with room takes the payload. */
  function Offered(queues: map<nat, seq<string>>, members: set<nat>, payload: string): map<nat, seq<string>> {
    map q | q in queues :: if q in members && |queues[q]| < MAX_QUEUE then queues[q] + [payload] else queues[q]
  }

  function Overflowing(queues: map<nat, seq<string>>, members: set<nat>): set<nat> {
    set q | q in members && q in queues && |queues[q]| >= MAX_QUEUE
  }

  function Dropped(subscribers: map<string, set<nat>>, topic: string, gone: set<nat>): map<string, set<nat>> {
    if topic in subscribers then subscribers[topic := subscribers[topic] - gone] else subscribers
  }

  function Elements(list: seq<nat>): set<nat> {
    set q | q in list
  }

  lemma ElementsOfSnoc(list: seq<nat>, q: nat)
    ensures Elements(list + [q]) == Elements(list) + {q}
  {
  }

  lemma OfferOneMore(queues: map<nat, seq<string>>, done: set<nat>, q: nat, payload: string)
    requires q in queues && q !in done
    ensures var so, next := Offered(queues, done, payload), Offered(queues, done + {q}, payload);
            next == if |queues[q]| < MAX_QUEUE then so[q := queues[q] + [payload]] else so
    ensures q in Offered(queues, done, payload) && Offered(queues, done, payload)[q] == queues[q]
    ensures Overflowing(queues, done + {q})
            == if |queues[q]| < MAX_QUEUE then Overflowing(queues, done) else Overflowing(queues, done) + {q}
  {
  }

  lemma DropOneMore(subscribers: map<string, set<nat>>, topic: string, gone: set<nat>, q: nat)
    requires topic in subscribers
    ensures topic in Dropped(subscribers, topic, gone)
    ensures var so := Dropped(subscribers, topic, gone);
            Dropped(subscribers, topic, gone + {q}) == so[topic := so[topic] - {q}]
  {
    var so := Dropped(subscribers, topic, gone);
    assert subscribers[topic] - (gone + {q}) == so[topic] - {q};
  }

  class EventBus {
    var subscribers: map<string, set<nat>>
    var queues: map<nat, seq<string>>

    ghost function Value(): Bus
      reads this
    {
      Bus(subscribers, queues)
    }

    constructor ()
      ensures Value() == Bus(map[], map[])
    {
      subscribers, queues := map[], map[];
    }

    method Subscribe(topic: string, queue: nat)
      requires queue !in queues
      modifies this
      ensures Value() == Subscribed(old(Value()), topic, queue)
    {
      queues := queues[queue := []];
      if topic !in subscribers {
        subscribers := subscribers[topic := {}];
      }
      subscribers := subscribers[topic := subscribers[topic] + {queue}];
    }

    method Unsubscribe(topic: string, queue: nat)
      modifies this
      ensures Value() == Unsubscribed(old(Value()), topic, queue)
    {
      if topic in subscribers {
        subscribers := subscribers[topic := subscribers[topic] - {queue}];
      }
    }

    method Publish(topic: string, payload: string)
      requires Wired(Value())
      modifies this
      ensures Value() == Published(old(Value()), topic, payload)
    {
      var members := if topic in subscribers then subscribers[topic] else {};
      var dead := OfferAll(members, payload);
      assert dead != [] ==> dead[0] in Elements(dead);
      DiscardAll(topic, dead);
    }

    /** The first loop of publishing: full queues are noted and left alone. */
    method OfferAll(members: set<nat>, payload: string) returns (dead: seq<nat>)
      requires members <= queues.Keys
      modifies this`queues
      ensures queues == Offered(old(queues), members, payload)
      ensures Elements(dead) == Overflowing(old(queues), members)
    {
      ghost var before, done := queues, {};
      var todo := members;
      dead := [];
      assert Offered(before, done, payload) == before;
      assert Elements(dead) == Overflowing(before, done);
      hide Offered, Overflowing, Elements;
      while todo != {}
        invariant done + todo == members && done !! todo
        invariant queues == Offered(before, done, payload)
        invariant Elements(dead) == Overflowing(before, done)
        decreases todo
      {
        var queue :| queue in todo;
        OfferOneMore(before, done, queue, payload);
        todo, done := todo - {queue}, done + {queue};
        if |queues[queue]| < MAX_QUEUE {
          queues := queues[queue := queues[queue] + [payload]];
        } else {
          ElementsOfSnoc(dead, queue);
          dead := dead + [queue];
        }
      }
      assert done == members;
    }

    /** The second loop: the noted ones are discarded. */
    method DiscardAll(topic: string, dead: seq<nat>)
      requires dead != [] ==> topic in subscribers
      modifies this`subscribers
      ensures subscribers == Dropped(old(subscribers), topic, Elements(dead))
    {
      assert topic in subscribers ==> subscribers[topic] - Elements(dead[..0]) == subscribers[topic];
      var i := 0;
      while i < |dead|
        invariant i <= |dead|
        invariant subscribers == Dropped(old(subscribers), topic, Elements(dead[..i]))
      {
        assert dead[..i + 1] == dead[..i] + [dead[i]];
        DropOneMore(old(subscribers), topic, Elements(dead[..i]), dead[i]);
        ElementsOfSnoc(dead[..i], dead[i]);
        subscribers := subscribers[topic := subscribers[topic] - {dead[i]}];
        i := i + 1;
      }
      assert dead[..i] == dead;
    }

    /** The client takes the next payload, if there is one. */
    method Receive(queue: nat) returns (payload: seq<string>)
      requires queue in queues
      modifies this
      ensures payload == Next(old(queues)[queue])
      ensures Value() == Taken(old(Value()), queue)
    {
      if queues[queue] == [] {
        return [];
      }
      payload := [queues[queue][0]];
      queues := queues[queue := queues[queue][1..]];
    }
  }

  function Subscribed(bus: Bus, topic: string, queue: nat): Bus {
    Bus(bus.subscribers[topic := Members(bus, topic) + {queue}], bus.queues[queue := []])
  }

  function Unsubscribed(bus: Bus, topic: string, queue: nat): Bus {
    bus.(subscribers := Dropped(bus.subscribers, topic, {queue}))
  }

  function Published(bus: Bus, topic: string, payload: string): Bus {
    var members := Members(bus, topic);
    Bus(Dropped(bus.subscribers, topic, Overflowing(bus.queues, members)), Offered(bus.queues, members, payload))
  }

  function Next(queue: seq<string>): seq<string> {
    if queue == [] then [] else [queue[0]]
  }

  function Taken(bus: Bus, queue: nat): Bus {
    if queue !in bus.queues || bus.queues[queue] == [] then bus
    else bus.(queues := bus.queues[queue := bus.queues[queue][1..]])
  }

  // --- Runs -------------------------------------------------------------------------------------

  /** A client: its topic, how much had been published there when it joined, and what it has
      received. */
  datatype Client = Client(topic: string, start: nat, received: seq<string>)

  /** The bus, everything ever published by topic, and every client by its queue. */
  datatype World = World(bus: Bus, published: map<string, seq<string>>, clients: map<nat, Client>)

  datatype Step =
    | Join(topic: string, queue: nat)
    | Leave(queue: nat)
    | Emit(topic: string, payload: string)
    | Take(queue: nat)

  const EMPTY: World := World(Bus(map[], map[]), map[], map[])

  function Stream(w: World, topic: string): seq<string> {
    if topic in w.published then w.published[topic] else []
  }

  predicate IsSubscribed(w: World, queue: nat)
    requires queue in w.clients
  {
    queue in Members(w.bus, w.clients[queue].topic)
  }

  /** One step. A queue joins once, and only queues that joined take or leave. */
  function After(w: World, step: Step): World {
    match step
    case Join(topic, queue) =>
      if queue in w.clients then w
      else World(Subscribed(w.bus, topic, queue), w.published,
                 w.clients[queue := Client(topic, |Stream(w, topic)|, [])])
    case Leave(queue) =>
      if queue !in w.clients then w
      else w.(bus := Unsubscribed(w.bus, w.clients[queue].topic, queue))
    case Emit(topic, payload) =>
      w.(bus := Published(w.bus, topic, payload), published := w.published[topic := Stream(w, topic) + [payload]])
    case Take(queue) =>
      if queue !in w.clients || queue !in w.bus.queues then w
      else
        var client := w.clients[queue];
        w.(bus := Taken(w.bus, queue),
        clients := w.clients[queue := client.(received := client.received + Next(w.bus.queues[queue]))])
  }

  function AfterAll(steps: seq<Step>): World {
    if steps == [] then EMPTY else After(AfterAll(steps[..|steps| - 1]), steps[|steps| - 1])
  }

  /** What the client was sent: what it has taken, then what waits for it. */
  function Sent(w: World, queue: nat): seq<string>
    requires queue in w.clients && queue in w.bus.queues
  {
    w.clients[queue].received + w.bus.queues[queue]
  }

  /** Everything published on the client's topic since it joined. */
  function Since(w: World, queue: nat): seq<string>
    requires queue in w.clients && w.clients[queue].start <= |Stream(w, w.clients[queue].topic)|
  {
    Stream(w, w.clients[queue].topic)[w.clients[queue].start..]
  }

  predicate InStep(w: World, queue: nat)
    requires queue in w.clients
  {
    && queue in w.bus.queues
    && |w.bus.queues[queue]| <= MAX_QUEUE
    && w.clients[queue].start <= |Stream(w, w.clients[queue].topic)|
    && Sent(w, queue) <= Since(w, queue)
    && (IsSubscribed(w, queue) ==> Sent(w, queue) == Since(w, queue))
  }

  ghost predicate Inv(w: World) {
    && w.bus.queues.Keys == w.clients.Keys
    && (forall topic :: topic in w.bus.subscribers ==> Registered(w, topic))
    && (forall queue :: queue in w.clients ==> InStep(w, queue))
  }

  lemma StepKeepsInv(w: World, step: Step)
    requires Inv(w)
    ensures Inv(After(w, step))
  {
    hide InStep, Registered;
    var t := After(w, step);
    forall topic | topic in t.bus.subscribers ensures Registered(t, topic) {
      StepKeepsRegister(w, step, topic);
    }
    forall queue | queue in t.clients ensures InStep(t, queue) {
      StepKeepsClient(w, step, queue);
    }
  }

  lemma StepKeepsClient(w: World, step: Step, queue: nat)
    requires Inv(w) && queue in After(w, step).clients
    ensures InStep(After(w, step), queue)
  {
    hide InStep, Inv;
    match step
    case Join(topic, joining) => JoinKeeps(w, topic, joining, queue);
    case Leave(leaving) => LeaveKeeps(w, leaving, queue);
    case Emit(topic, payload) => EmitKeeps(w, topic, payload, queue);
    case Take(taking) => TakeKeeps(w, taking, queue);
  }

  /** Who is registered for a topic is a client of that topic, with a queue. */
  predicate Registered(w: World, topic: string)
    requires topic in w.bus.subscribers
  {
    forall queue :: queue in w.bus.subscribers[topic] ==>
      queue in w.bus.queues && queue in w.clients && w.clients[queue].topic == topic
  }

  lemma StepKeepsRegister(w: World, step: Step, topic: string)
    requires Inv(w) && topic in After(w, step).bus.subscribers
    ensures Registered(After(w, step), topic)
  {
    hide InStep, Next;
    if topic in w.bus.subscribers { assert Registered(w, topic); }
  }

  lemma JoinKeeps(w: World, topic: string, joining: nat, queue: nat)
    requires Inv(w) && queue in After(w, Join(topic, joining)).clients
    ensures InStep(After(w, Join(topic, joining)), queue)
  {
    var t := After(w, Join(topic, joining));
    if queue in w.clients {
      assert InStep(w, queue);
      assert Stream(t, w.clients[queue].topic) == Stream(w, w.clients[queue].topic);
      assert t.clients[queue] == w.clients[queue] && t.bus.queues[queue] == w.bus.queues[queue];
    } else {
      assert Sent(t, queue) == [] == Since(t, queue);
    }
  }

  lemma LeaveKeeps(w: World, leaving: nat, queue: nat)
    requires Inv(w) && queue in w.clients
    ensures InStep(After(w, Leave(leaving)), queue)
  {
    assert InStep(w, queue);
  }

  lemma EmitKeeps(w: World, topic: string, payload: string, queue: nat)
    requires Inv(w) && queue in w.clients
    ensures InStep(After(w, Emit(topic, payload)), queue)
  {
    assert InStep(w, queue);
    var t, client := After(w, Emit(topic, payload)), w.clients[queue];
    if client.topic == topic {
      assert Since(t, queue) == Since(w, queue) + [payload];
      if IsSubscribed(w, queue) && |w.bus.queues[queue]| < MAX_QUEUE {
        assert Sent(t, queue) == Sent(w, queue) + [payload];
      } else {
        assert Sent(t, queue) == Sent(w, queue);
      }
    } else {
      assert Stream(t, client.topic) == Stream(w, client.topic);
      assert queue !in Members(w.bus, topic);
    }
  }

  lemma TakeKeeps(w: World, taking: nat, queue: nat)
    requires Inv(w) && queue in w.clients
    ensures InStep(After(w, Take(taking)), queue)
    ensures queue in w.bus.queues && Sent(After(w, Take(taking)), queue) == Sent(w, queue)
  {
    assert InStep(w, queue);
    hide Inv, After, Sent;
    TakeMoves(w, taking, queue);
  }

  /** Taking moves the head of a queue over to what its client has received. */
  lemma TakeMoves(w: World, taking: nat, queue: nat)
    requires queue in w.clients && queue in w.bus.queues
    ensures var t := After(w, Take(taking));
            && t.published == w.published && t.bus.subscribers == w.bus.subscribers
            && queue in t.clients && queue in t.bus.queues && |t.bus.queues[queue]| <= |w.bus.queues[queue]|
            && t.clients[queue].topic == w.clients[queue].topic && t.clients[queue].start == w.clients[queue].start
            && Sent(t, queue) == Sent(w, queue)
  {
    if taking == queue && w.bus.queues[queue] != [] {
      HeadMoves(w.clients[queue].received, w.bus.queues[queue]);
    }
  }

  lemma HeadMoves(received: seq<string>, waiting: seq<string>)
    requires waiting != []
    ensures received + Next(waiting) + waiting[1..] == received + waiting
  {
  }

  lemma {:induction false} RunKeepsInv(steps: seq<Step>)
    ensures Inv(AfterAll(steps))
  {
    if steps != [] {
      RunKeepsInv(steps[..|steps| - 1]);
      StepKeepsInv(AfterAll(steps[..|steps| - 1]), steps[|steps| - 1]);
    }
  }

  /** In every run a subscribed client has received, or has waiting, everything published on its topic
      since it joined, in order and once; no queue ever exceeds its bound. */
  lemma SubscribersMissNothing(steps: seq<Step>, queue: nat)
    requires queue in AfterAll(steps).clients
    ensures InStep(AfterAll(steps), queue) && |AfterAll(steps).bus.queues[queue]| <= 100
  {
    RunKeepsInv(steps);
  }

  predicate Wellformed(w: World, queue: nat) {
    && queue in w.clients && queue in w.bus.queues
    && w.clients[queue].start <= |Stream(w, w.clients[queue].topic)|
  }

  lemma InvAt(w: World, queue: nat)
    requires Inv(w) && queue in w.clients
    ensures InStep(w, queue) && Wellformed(w, queue)
  {
  }

  /** A client stops being subscribed only by leaving, or when an event finds its queue full; what it was
      sent by then is everything published since it joined, and the event is not part of it. */
  lemma DroppedIffFull(w: World, step: Step, queue: nat)
    requires Inv(w) && queue in w.clients && IsSubscribed(w, queue)
    ensures queue in After(w, step).clients && queue in After(w, step).bus.queues && Wellformed(w, queue)
    ensures !IsSubscribed(After(w, step), queue)
            <==> step == Leave(queue)
                 || (step.Emit? && step.topic == w.clients[queue].topic && |w.bus.queues[queue]| == 100)
    ensures !IsSubscribed(After(w, step), queue) ==> Sent(After(w, step), queue) == Since(w, queue)
  {
    hide Inv, InStep, Registered;
    InvAt(w, queue);
    StaysWithRoom(w, queue);
    match step
    case Join(_, _) =>
    case Leave(_) => SameQueue(w, After(w, step), queue);
    case Emit(topic, payload) =>
      RegisteredOnce(w, topic, queue);
      EmitDropsFull(w, topic, payload, queue);
      hide After, Wellformed;
      if !IsSubscribed(After(w, step), queue) { SameQueue(w, After(w, step), queue); }
    case Take(_) =>
  }

  lemma RegisteredOnce(w: World, topic: string, queue: nat)
    requires Inv(w) && queue in w.clients
    ensures topic != w.clients[queue].topic ==> queue !in Members(w.bus, topic)
  {
    if topic in w.bus.subscribers { assert Registered(w, topic); }
  }

  lemma StaysWithRoom(w: World, queue: nat)
    requires Inv(w) && queue in w.clients
    ensures queue in w.bus.queues && |w.bus.queues[queue]| <= MAX_QUEUE
    ensures IsSubscribed(w, queue) ==> Sent(w, queue) == Since(w, queue)
  {
    assert InStep(w, queue);
  }

  lemma EmitDropsFull(w: World, topic: string, payload: string, queue: nat)
    requires queue in w.clients && queue in w.bus.queues && IsSubscribed(w, queue)
    requires |w.bus.queues[queue]| <= MAX_QUEUE
    requires topic != w.clients[queue].topic ==> queue !in Members(w.bus, topic)
    ensures var t := After(w, Emit(topic, payload));
            && t.clients == w.clients && queue in t.bus.queues
            && (!IsSubscribed(t, queue) <==> topic == w.clients[queue].topic && |w.bus.queues[queue]| == MAX_QUEUE)
            && (!IsSubscribed(t, queue) ==> t.bus.queues[queue] == w.bus.queues[queue])
  {
  }

  lemma SameQueue(w: World, t: World, queue: nat)
    requires queue in w.clients && queue in t.clients && queue in w.bus.queues && queue in t.bus.queues
    requires w.clients[queue] == t.clients[queue] && w.bus.queues[queue] == t.bus.queues[queue]
    ensures Sent(t, queue) == Sent(w, queue)
  {
  }

  lemma GoneStaysGone(w: World, step: Step, queue: nat)
    requires Inv(w) && queue in w.clients && !IsSubscribed(w, queue)
    ensures queue in After(w, step).clients && queue in After(w, step).bus.queues && queue in w.bus.queues
    ensures !IsSubscribed(After(w, step), queue) && Sent(After(w, step), queue) == Sent(w, queue)
  {
    InvAt(w, queue);
    hide InStep, Since, Wellformed, Inv;
    if step.Take? {
      TakeMoves(w, step.queue, queue);
    } else {
      SameQueue(w, After(w, step), queue);
    }
  }

  /** A client that was subscribed after n steps and is no longer after n + 1 keeps, in every continuation,
      exactly what had been published for it up to then: later events never reach it and nothing is lost. */
  lemma {:induction false} DroppedClientKeepsAPrefix(steps: seq<Step>, n: nat, queue: nat)
    requires n < |steps| && queue in AfterAll(steps[..n]).clients
    requires IsSubscribed(AfterAll(steps[..n]), queue)
    requires queue in AfterAll(steps[..n + 1]).clients && !IsSubscribed(AfterAll(steps[..n + 1]), queue)
    ensures Wellformed(AfterAll(steps[..n]), queue) && Wellformed(AfterAll(steps), queue)
    ensures !IsSubscribed(AfterAll(steps), queue)
    ensures Sent(AfterAll(steps), queue) == Since(AfterAll(steps[..n]), queue)
    decreases |steps|
  {
    var init := steps[..|steps| - 1];
    RunKeepsInv(steps[..n]);
    RunKeepsInv(init);
    RunKeepsInv(steps);
    hide Inv, InStep, After, Sent, Since;
    if n + 1 == |steps| {
      assert steps[..n] == init && steps[..n + 1] == steps;
      DroppedIffFull(AfterAll(init), steps[n], queue);
    } else {
      assert init[..n] == steps[..n] && init[..n + 1] == steps[..n + 1];
      DroppedClientKeepsAPrefix(init, n, queue);
      GoneStaysGone(AfterAll(init), steps[|steps| - 1], queue);
    }
    InvAt(AfterAll(steps), queue);
  }
}
