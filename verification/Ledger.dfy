/** The two hash-chained ledgers of the marketplace (backend/services/ledger.py), written in a session
    without autoflush: a row that is added but not flushed is not seen by the next query. */
module Ledger {
  import opened Wrappers

  type Hash = string

  /** The hashed columns of a legacy entry, beside the prior hash. */
  datatype EntryContent = EntryContent(
    occurredAt: int, eventType: string, rideId: Option<int>, actorId: Option<int>, driverId: Option<int>,
    outcome: Option<string>, reason: Option<string>, payload: string, policyVersion: Option<string>)

  /** The hashed columns of a marketplace event, beside the previous hash. */
  datatype EventContent = EventContent(
    occurredAt: int, eventType: string, entityType: string, entityId: Option<int>, rideId: Option<int>,
    actorId: Option<int>, driverId: Option<int>, source: string, key: Option<string>,
    correlationId: Option<string>, payload: string, policyVersion: Option<string>)

  /** A row of a chain. */
  datatype Link<C> = Link(content: C, prior: Option<Hash>, hash: Hash)

  type Hasher<!C> = (C, Option<Hash>) -> Hash

  /** No two inputs share a hash. */
  ghost predicate Injective<C(!new)>(h: Hasher<C>) {
    forall a, p, b, q :: h(a, p) == h(b, q) ==> a == b && p == q
  }

  function LastHash<C>(chain: seq<Link<C>>): Option<Hash> {
    if chain == [] then None else Some(chain[|chain| - 1].hash)
  }

  /** Every row carries the hash of the row before it and its own hash over its content and that one. */
  ghost predicate WellFormed<C>(chain: seq<Link<C>>, h: Hasher<C>) {
    chain == []
    || (var n := |chain| - 1;
        && WellFormed(chain[..n], h)
        && chain[n].prior == LastHash(chain[..n])
        && chain[n].hash == h(chain[n].content, chain[n].prior))
  }

  function Extended<C>(chain: seq<Link<C>>, c: C, h: Hasher<C>): seq<Link<C>> {
    chain + [Link(c, LastHash(chain), h(c, LastHash(chain)))]
  }

  lemma ExtendedIsWellFormed<C>(chain: seq<Link<C>>, c: C, h: Hasher<C>)
    requires WellFormed(chain, h)
    ensures WellFormed(Extended(chain, c, h), h)
  {
    assert Extended(chain, c, h)[..|chain|] == chain;
  }

  lemma {:induction false} PrefixIsWellFormed<C>(chain: seq<Link<C>>, n: nat, h: Hasher<C>)
    requires n <= |chain| && WellFormed(chain, h)
    ensures WellFormed(chain[..n], h)
  {
    if n < |chain| {
      PrefixIsWellFormed(chain[..|chain| - 1], n, h);
      assert chain[..|chain| - 1][..n] == chain[..n];
    } else {
      assert chain[..n] == chain;
    }
  }

  /** Tamper evidence: two well-formed chains with the same last hash are the same history. */
  lemma {:induction false} LastHashFixesTheHistory<C(!new)>(a: seq<Link<C>>, b: seq<Link<C>>, h: Hasher<C>)
    requires Injective(h) && WellFormed(a, h) && WellFormed(b, h)
    requires LastHash(a) == LastHash(b)
    ensures a == b
  {
    if a != [] {
      var n, m := |a| - 1, |b| - 1;
      assert h(a[n].content, a[n].prior) == h(b[m].content, b[m].prior);
      LastHashFixesTheHistory(a[..n], b[..m], h);
      assert a == a[..n] + [a[n]] && b == b[..m] + [b[m]];
    }
  }

  /** So two histories that part ways anywhere end in different hashes. */
  lemma DifferentHistoriesDifferentHashes<C(!new)>(a: seq<Link<C>>, b: seq<Link<C>>, i: nat, h: Hasher<C>)
    requires Injective(h) && WellFormed(a, h) && WellFormed(b, h)
    requires i < |a| && i < |b| && a[i] != b[i]
    ensures LastHash(a) != LastHash(b)
  {
    if LastHash(a) == LastHash(b) {
      LastHashFixesTheHistory(a, b, h);
      assert false;
    }
  }

  // --- The session ------------------------------------------------------------------------------

  /** The flushed legacy entries, those added since the last flush, and the events. */
  datatype State = State(
    flushed: seq<Link<EntryContent>>, pending: seq<Link<EntryContent>>, events: seq<Link<EventContent>>)
  {
    function Entries(): seq<Link<EntryContent>> {
      flushed + pending
    }
  }

  const EMPTY: State := State([], [], [])

  /** The event types of the legacy ledger that are mirrored as marketplace events. */
  function MirroredType(eventType: string): Option<string> {
    if eventType == "claim_attempted" then Some("dispatch.claim_attempted")
    else if eventType == "claim_won" then Some("dispatch.claim_won")
    else if eventType == "claim_lost" then Some("dispatch.claim_lost")
    else if eventType == "claim_released" then Some("dispatch.claim_released")
    else None
  }

  predicate HasKey(events: seq<Link<EventContent>>, key: string) {
    exists i :: 0 <= i < |events| && events[i].content.key == Some(key)
  }

  /** An absent or empty key identifies nothing. */
  predicate Keyed(key: Option<string>) {
    key.Some? && key.value != ""
  }

  predicate Duplicate(s: State, key: Option<string>) {
    Keyed(key) && HasKey(s.events, key.value)
  }

  function Flush(s: State): State {
    State(s.Entries(), [], s.events)
  }

  function AppendEvent(s: State, c: EventContent, h: Hasher<EventContent>): State {
    if Duplicate(s, c.key) then s
    else Flush(s).(events := Extended(s.events, c, h))
  }

  /** The new entry points at the last flushed one, whatever is pending. */
  function AddEntry(s: State, c: EntryContent, h: Hasher<EntryContent>): State {
    var prior := LastHash(s.flushed);
    s.(pending := s.pending + [Link(c, prior, h(c, prior))])
  }

  function RecordEntry(s: State, c: EntryContent, mirror: EventContent,
                       h: Hasher<EntryContent>, g: Hasher<EventContent>): State
  {
    var added := AddEntry(s, c, h);
    match MirroredType(c.eventType)
    case None => added
    case Some(t) => AppendEvent(added, mirror.(eventType := t, entityType := "dispatch_claim"), g)
  }

  // --- The ledger object ------------------------------------------------------------------------

  class MarketplaceLedger {
    const entryHash: Hasher<EntryContent>
    const eventHash: Hasher<EventContent>
    var flushed: seq<Link<EntryContent>>
    var pending: seq<Link<EntryContent>>
    var events: seq<Link<EventContent>>

    constructor (entryHash: Hasher<EntryContent>, eventHash: Hasher<EventContent>)
      ensures View() == EMPTY && this.entryHash == entryHash && this.eventHash == eventHash
    {
      this.entryHash := entryHash;
      this.eventHash := eventHash;
      flushed, pending, events := [], [], [];
    }

    function View(): State
      reads this
    {
      State(flushed, pending, events)
    }

    method FlushSession()
      modifies this
      ensures View() == Flush(old(View()))
    {
      flushed := flushed + pending;
      pending := [];
    }

    method AppendMarketplaceEvent(c: EventContent) returns (event: Link<EventContent>)
      modifies this
      ensures View() == AppendEvent(old(View()), c, eventHash)
      ensures event in events
      ensures if old(Duplicate(View(), c.key)) then event in old(events) && event.content.key == c.key
              else event.content == c && event == events[|events| - 1]
    {
      if c.key.Some? && c.key.value != "" && HasKey(events, c.key.value) {
        var i :| 0 <= i < |events| && events[i].content.key == Some(c.key.value);
        return events[i];
      }
      var previous := if events == [] then None else Some(events[|events| - 1].hash);
      event := Link(c, previous, eventHash(c, previous));
      events := events + [event];
      FlushSession();
    }

    method RecordLedgerEntry(c: EntryContent, mirror: EventContent) returns (entry: Link<EntryContent>)
      modifies this
      ensures View() == RecordEntry(old(View()), c, mirror, entryHash, eventHash)
      ensures entry.content == c && entry in View().Entries()
    {
      var prior := if flushed == [] then None else Some(flushed[|flushed| - 1].hash);
      entry := Link(c, prior, entryHash(c, prior));
      pending := pending + [entry];
      var t := MirroredType(c.eventType);
      if t.Some? {
        var _ := AppendMarketplaceEvent(mirror.(eventType := t.value, entityType := "dispatch_claim"));
      }
    }
  }

  // --- Runs -------------------------------------------------------------------------------------

  datatype Op =
    | Append(event: EventContent)
    | Record(entry: EntryContent, mirror: EventContent)
    | Commit

  function Do(s: State, op: Op, h: Hasher<EntryContent>, g: Hasher<EventContent>): State {
    match op
    case Append(c) => AppendEvent(s, c, g)
    case Record(c, mirror) => RecordEntry(s, c, mirror, h, g)
    case Commit => Flush(s)
  }

  function Run(ops: seq<Op>, h: Hasher<EntryContent>, g: Hasher<EventContent>): State {
    if ops == [] then EMPTY else Do(Run(ops[..|ops| - 1], h, g), ops[|ops| - 1], h, g)
  }

  /** At most one event carries a given key. */
  ghost predicate KeysAreUnique(events: seq<Link<EventContent>>) {
    forall i, j :: 0 <= i < j < |events| && Keyed(events[i].content.key) ==>
      events[i].content.key != events[j].content.key
  }

  lemma AppendKeepsEvents(s: State, c: EventContent, g: Hasher<EventContent>)
    requires WellFormed(s.events, g) && KeysAreUnique(s.events)
    ensures WellFormed(AppendEvent(s, c, g).events, g) && KeysAreUnique(AppendEvent(s, c, g).events)
    ensures s.events <= AppendEvent(s, c, g).events && AppendEvent(s, c, g).Entries() == s.Entries()
  {
    ExtendedIsWellFormed(s.events, c, g);
  }

  /** After every run the events form a chain in which every key occurs at most once. */
  lemma {:induction false} EventsAreAlwaysAChain(ops: seq<Op>, h: Hasher<EntryContent>, g: Hasher<EventContent>)
    ensures WellFormed(Run(ops, h, g).events, g) && KeysAreUnique(Run(ops, h, g).events)
  {
    if ops != [] {
      var op := ops[|ops| - 1];
      EventsAreAlwaysAChain(ops[..|ops| - 1], h, g);
      var s := Run(ops[..|ops| - 1], h, g);
      match op
      case Append(c) => AppendKeepsEvents(s, c, g);
      case Record(c, mirror) =>
        match MirroredType(c.eventType) {
          case None =>
          case Some(t) =>
            AppendKeepsEvents(AddEntry(s, c, h), mirror.(eventType := t, entityType := "dispatch_claim"), g);
        }
      case Commit =>
    }
  }

  /** One more operation extends both ledgers and rewrites neither. */
  lemma DoOnlyAppends(s: State, op: Op, h: Hasher<EntryContent>, g: Hasher<EventContent>)
    ensures var t, prior := Do(s, op, h, g), LastHash(s.flushed);
            && s.events <= t.events && s.Entries() <= t.Entries()
            && t.Entries() == s.Entries() + match op
                                            case Record(c, _) => [Link(c, prior, h(c, prior))]
                                            case _ => []
  {
    match op
    case Append(_) =>
    case Record(c, _) =>
      assert AddEntry(s, c, h).Entries() == s.Entries() + [Link(c, LastHash(s.flushed), h(c, LastHash(s.flushed)))];
    case Commit =>
  }

  /** Every earlier state of both ledgers is a prefix of every later one. */
  lemma {:induction false} EarlierIsAPrefix(ops: seq<Op>, n: nat, h: Hasher<EntryContent>, g: Hasher<EventContent>)
    requires n <= |ops|
    ensures Run(ops[..n], h, g).events <= Run(ops, h, g).events
    ensures Run(ops[..n], h, g).Entries() <= Run(ops, h, g).Entries()
  {
    if n == |ops| {
      assert ops[..n] == ops;
    } else {
      var before := ops[..|ops| - 1];
      assert before[..n] == ops[..n];
      EarlierIsAPrefix(before, n, h, g);
      DoOnlyAppends(Run(before, h, g), ops[|ops| - 1], h, g);
    }
  }

  /** Operation k records an entry while an earlier one is still waiting to be flushed. */
  predicate RecordsOverPending(ops: seq<Op>, k: nat, h: Hasher<EntryContent>, g: Hasher<EventContent>) {
    k < |ops| && ops[k].Record? && Run(ops[..k], h, g).pending != []
  }

  /** The legacy entries form a chain after a run exactly when no entry was recorded over an
      unflushed one; recorded over one, it forks the chain for good. */
  lemma {:induction false} EntriesChainIff(ops: seq<Op>, h: Hasher<EntryContent>, g: Hasher<EventContent>)
    requires Injective(h)
    ensures WellFormed(Run(ops, h, g).Entries(), h) <==> forall k: nat :: !RecordsOverPending(ops, k, h, g)
  {
    if ops != [] {
      var n := |ops| - 1;
      var before := ops[..n];
      EntriesChainIff(before, h, g);
      forall k: nat | k < n ensures RecordsOverPending(ops, k, h, g) <==> RecordsOverPending(before, k, h, g) {
        assert before[..k] == ops[..k];
      }
      var s := Run(before, h, g);
      OneMoreOperation(s, ops[n], h, g);
      assert RecordsOverPending(ops, n, h, g) <==> ops[n].Record? && s.pending != [];
      if forall k: nat :: !RecordsOverPending(before, k, h, g) {
        if !(ops[n].Record? && s.pending != []) {
          forall k: nat ensures !RecordsOverPending(ops, k, h, g) {
            if k < n { assert !RecordsOverPending(before, k, h, g); }
          }
        }
      } else {
        var k: nat :| RecordsOverPending(before, k, h, g);
        assert RecordsOverPending(ops, k, h, g);
      }
    }
  }

  /** An operation keeps or breaks the chain of entries; nothing mends it. */
  lemma OneMoreOperation(s: State, op: Op, h: Hasher<EntryContent>, g: Hasher<EventContent>)
    requires Injective(h)
    ensures WellFormed(Do(s, op, h, g).Entries(), h) <==>
            WellFormed(s.Entries(), h) && !(op.Record? && s.pending != [])
  {
    DoOnlyAppends(s, op, h, g);
    var all, after := s.Entries(), Do(s, op, h, g).Entries();
    if op.Record? {
      assert after[..|all|] == all;
      if s.pending != [] && WellFormed(after, h) {
        // The chain and its flushed part would end in the same hash without being the same history.
        assert after[|all|].prior == LastHash(s.flushed) == LastHash(all);
        PrefixIsWellFormed(all, |s.flushed|, h);
        assert all[..|s.flushed|] == s.flushed;
        LastHashFixesTheHistory(s.flushed, all, h);
        assert false;
      } else if s.pending == [] {
        assert all == s.flushed;
      }
    } else {
      assert after == all;
    }
  }

  /** A recorded claim entry is mirrored by one event, under its own type in the dispatch family and with the
      rest of what the caller said; with a used key there is none. */
  lemma ClaimsAreMirrored(s: State, c: EntryContent, m: EventContent, h: Hasher<EntryContent>, g: Hasher<EventContent>)
    requires c.eventType in ["claim_attempted", "claim_won", "claim_lost", "claim_released"]
    ensures var t := RecordEntry(s, c, m, h, g);
            if Keyed(m.key) && HasKey(s.events, m.key.value) then t.events == s.events
            else
              && |t.events| == |s.events| + 1 && t.events[..|s.events|] == s.events && t.pending == []
              && var e := t.events[|s.events|].content;
                 e == m.(eventType := "dispatch." + c.eventType, entityType := "dispatch_claim")
  {
    MirroredIsPrefixed(c.eventType);
    hide MirroredType, HasKey;
  }

  lemma MirroredIsPrefixed(t: string)
    requires t in ["claim_attempted", "claim_won", "claim_lost", "claim_released"]
    ensures MirroredType(t) == Some("dispatch." + t)
  {
    if t == "claim_attempted" {
      assert "dispatch." + "claim_attempted" == "dispatch.claim_attempted";
    } else if t == "claim_won" {
      assert "dispatch." + "claim_won" == "dispatch.claim_won";
    } else if t == "claim_lost" {
      assert "dispatch." + "claim_lost" == "dispatch.claim_lost";
    } else {
      assert "dispatch." + "claim_released" == "dispatch.claim_released";
    }
  }

  /** An entry of any other type has no mirror and waits for the next flush. */
  lemma OtherEntriesWait(s: State, c: EntryContent, m: EventContent, h: Hasher<EntryContent>, g: Hasher<EventContent>)
    requires c.eventType !in ["claim_attempted", "claim_won", "claim_lost", "claim_released"]
    ensures var t := RecordEntry(s, c, m, h, g);
            t.events == s.events && t.flushed == s.flushed && |t.pending| == |s.pending| + 1
  {
  }

  // --- The entries the table stores -------------------------------------------------------------

  /** The table admits no event types but the four that are mirrored, and no hash twice. */
  predicate Storable(entries: seq<Link<EntryContent>>) {
    && (forall i :: 0 <= i < |entries| ==> MirroredType(entries[i].content.eventType).Some?)
    && (forall i, j :: 0 <= i < j < |entries| ==> entries[i].hash != entries[j].hash)
  }

  predicate RecordsClaimsOnly(ops: seq<Op>) {
    forall i :: 0 <= i < |ops| && ops[i].Record? ==> MirroredType(ops[i].entry.eventType).Some?
  }

  /** Operation i carries the idempotency key of an event that is already there, so it flushes nothing. */
  predicate KeyIsUsed(ops: seq<Op>, i: nat, h: Hasher<EntryContent>, g: Hasher<EventContent>) {
    && i < |ops| && !ops[i].Commit?
    && Duplicate(Run(ops[..i], h, g), if ops[i].Append? then ops[i].event.key else ops[i].mirror.key)
  }

  /** Operation j records an entry with a used key, and nothing from there to k flushes it. */
  predicate HeldBack(ops: seq<Op>, j: nat, k: nat, h: Hasher<EntryContent>, g: Hasher<EventContent>) {
    j < k <= |ops| && ops[j].Record? && forall i :: j <= i < k ==> KeyIsUsed(ops, i, h, g)
  }

  lemma {:induction false} PendingIffHeldBack(ops: seq<Op>, h: Hasher<EntryContent>, g: Hasher<EventContent>)
    requires RecordsClaimsOnly(ops)
    ensures Run(ops, h, g).pending != [] <==> exists j: nat :: HeldBack(ops, j, |ops|, h, g)
  {
    if ops != [] {
      var n := |ops| - 1;
      var before := ops[..n];
      PendingIffHeldBack(before, h, g);
      forall i: nat | i < n ensures KeyIsUsed(before, i, h, g) <==> KeyIsUsed(ops, i, h, g) {
        assert before[..i] == ops[..i];
      }
      if j: nat :| HeldBack(before, j, n, h, g) && KeyIsUsed(ops, n, h, g) {
        assert HeldBack(ops, j, |ops|, h, g);
      } else if ops[n].Record? && KeyIsUsed(ops, n, h, g) {
        assert HeldBack(ops, n, |ops|, h, g);
      }
      if j: nat :| HeldBack(ops, j, |ops|, h, g) {
        assert KeyIsUsed(ops, n, h, g);
        if j < n {
          assert forall i :: j <= i < n ==> KeyIsUsed(ops, i, h, g);
          assert HeldBack(before, j, n, h, g);
        }
      }
    }
  }

  /** With claim types only the entries form a chain unless an entry recorded with a used key is followed,
      before anything flushes it, by another. */
  lemma ClaimEntriesChainIff(ops: seq<Op>, h: Hasher<EntryContent>, g: Hasher<EventContent>)
    requires Injective(h) && RecordsClaimsOnly(ops)
    ensures WellFormed(Run(ops, h, g).Entries(), h)
            <==> forall j: nat, k: nat :: k < |ops| && ops[k].Record? ==> !HeldBack(ops, j, k, h, g)
  {
    EntriesChainIff(ops, h, g);
    forall k: nat | k < |ops|
      ensures Run(ops[..k], h, g).pending != [] <==> exists j: nat :: HeldBack(ops, j, k, h, g)
    {
      PendingIffHeldBack(ops[..k], h, g);
      forall j: nat ensures HeldBack(ops[..k], j, k, h, g) <==> HeldBack(ops, j, k, h, g) {
        SameKeysInPrefix(ops, j, k, h, g);
      }
    }
    forall k: nat ensures RecordsOverPending(ops, k, h, g)
                          <==> k < |ops| && ops[k].Record? && exists j: nat :: HeldBack(ops, j, k, h, g) {
    }
  }

  lemma SameKeysInPrefix(ops: seq<Op>, j: nat, k: nat, h: Hasher<EntryContent>, g: Hasher<EventContent>)
    requires k <= |ops|
    ensures HeldBack(ops[..k], j, k, h, g) <==> HeldBack(ops, j, k, h, g)
  {
    forall i: nat | i < k ensures KeyIsUsed(ops[..k], i, h, g) <==> KeyIsUsed(ops, i, h, g) {
      assert ops[..k][..i] == ops[..i];
    }
  }

  /** As the handlers call it, with a claim event type and no idempotency key, recording flushes what
      it added, so the entries form a chain after every run. */
  lemma {:induction false} ClaimEntriesAlwaysChain(ops: seq<Op>, h: Hasher<EntryContent>, g: Hasher<EventContent>)
    requires Injective(h) && RecordsClaimsOnly(ops)
    requires forall i :: 0 <= i < |ops| && ops[i].Record? ==> ops[i].mirror.key.None?
    ensures Run(ops, h, g).pending == [] && WellFormed(Run(ops, h, g).Entries(), h)
  {
    if ops != [] {
      var n := |ops| - 1;
      ClaimEntriesAlwaysChain(ops[..n], h, g);
      OneMoreOperation(Run(ops[..n], h, g), ops[n], h, g);
    }
  }

  lemma RunSnoc(ops: seq<Op>, op: Op, h: Hasher<EntryContent>, g: Hasher<EventContent>)
    ensures Run(ops + [op], h, g) == Do(Run(ops, h, g), op, h, g)
  {
    assert (ops + [op])[..|ops|] == ops;
  }

  /** After an entry a with key k, an entry b with the same key waits unflushed, pointing at a. */
  lemma UsedKeyWaits(
    a: EntryContent, b: EntryContent, m: EventContent, h: Hasher<EntryContent>, g: Hasher<EventContent>)
    requires Keyed(m.key) && MirroredType(a.eventType).Some? && MirroredType(b.eventType).Some?
    ensures var s, first := Run([] + [Record(a, m)] + [Record(b, m)], h, g), h(a, None);
            s.flushed == [Link(a, None, first)] && s.pending == [Link(b, Some(first), h(b, Some(first)))]
  {
    RunSnoc([], Record(a, m), h, g);
    RunSnoc([] + [Record(a, m)], Record(b, m), h, g);
    var s := Run([] + [Record(a, m)], h, g);
    assert s.flushed == [Link(a, None, h(a, None))];
    assert s.events[0].content.key == m.key;
    hide Run;
  }

  /** With a used key the chain does fork: after a, the entries b and c of one transaction, b's mirror
      carrying a's key, both point at a. The table would store all three. */
  lemma UsedKeyForks(
    a: EntryContent, b: EntryContent, c: EntryContent, m: EventContent, n: EventContent,
    h: Hasher<EntryContent>, g: Hasher<EventContent>)
    requires Injective(h) && Keyed(m.key) && b != c
    requires MirroredType(a.eventType).Some? && MirroredType(b.eventType).Some? && MirroredType(c.eventType).Some?
    ensures var entries := Run([] + [Record(a, m)] + [Record(b, m)] + [Record(c, n)], h, g).Entries();
            && Storable(entries) && |entries| == 3
            && entries[1].prior == entries[2].prior == Some(entries[0].hash)
            && !WellFormed(entries, h)
  {
    var two := [] + [Record(a, m)] + [Record(b, m)];
    RunSnoc(two, Record(c, n), h, g);
    UsedKeyWaits(a, b, m, h, g);
    hide Run, WellFormed, MirroredType, Duplicate, Keyed;
    var s, first := Run(two, h, g), h(a, None);
    DoOnlyAppends(s, Record(c, n), h, g);
    OneMoreOperation(s, Record(c, n), h, g);
    var entries := Do(s, Record(c, n), h, g).Entries();
    assert entries
        == [Link(a, None, first), Link(b, Some(first), h(b, Some(first))), Link(c, Some(first), h(c, Some(first)))];
  }
}
