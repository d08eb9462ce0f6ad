/** The offer log of one ride and the drivers still to be asked
    (the queries of backend/services/ride_dispatch_cascade.py on ride_dispatch_log). */
module OfferLog {
  import opened Wrappers

  datatype OfferResult = Sent | Taken | Declined | TimedOut | Skipped

  datatype SkipReason = DispatchUnavailable | DriverBusy | PresenceUnavailable

  datatype OfferRow = OfferRow(
    driver: int, sentAt: int, result: OfferResult, attempt: nat, respondedAt: Option<int>, reason: Option<SkipReason>)

  /** What a cascade step knows about the drivers: the active accounts in order of id, the approved
      ones that are online with a fresh position, the ones present, the ones on a ride, and how far
      each is from each pickup. */
  datatype Context = Context(
    pool: seq<int>, available: set<int>, present: set<int>, busy: set<int>, distance: map<(nat, int), real>)

  /** An offer that was sent, declined or timed out rules its driver out; an accepted one does not. */
  predicate RulesOut(r: OfferResult) {
    r == Sent || r == Declined || r == TimedOut
  }

  predicate Tried(log: seq<OfferRow>, d: int) {
    exists i :: 0 <= i < |log| && log[i].driver == d && RulesOut(log[i].result)
  }

  /** Why a driver not yet tried is passed over, if he is. */
  function SkipReasonFor(c: Context, d: int): Option<SkipReason> {
    if d !in c.available then Some(DispatchUnavailable)
    else if d in c.busy then Some(DriverBusy)
    else if d !in c.present then Some(PresenceUnavailable)
    else None
  }

  predicate Eligible(log: seq<OfferRow>, c: Context, d: int) {
    !Tried(log, d) && SkipReasonFor(c, d).None?
  }

  function EligibleAmong(pool: seq<int>, log: seq<OfferRow>, c: Context): (ds: seq<int>)
    ensures forall d :: d in ds <==> d in pool && Eligible(log, c, d)
  {
    if pool == [] then []
    else
      var n := |pool| - 1;
      EligibleAmong(pool[..n], log, c) + if Eligible(log, c, pool[n]) then [pool[n]] else []
  }

  function SkipRows(pool: seq<int>, log: seq<OfferRow>, c: Context, now: int): (rows: seq<OfferRow>)
    ensures forall i :: 0 <= i < |rows| ==> rows[i].result == Skipped && rows[i].attempt == 0
  {
    if pool == [] then []
    else
      var n := |pool| - 1;
      SkipRows(pool[..n], log, c, now)
      + if Tried(log, pool[n]) || SkipReasonFor(c, pool[n]).None? then []
        else [OfferRow(pool[n], now, Skipped, 0, None, SkipReasonFor(c, pool[n]))]
  }

  /** Who is passed over and why: a driver of the pool not asked before who is not available, on a ride or not
      present, the first of these that applies; and nobody else. */
  lemma {:induction false} PassedOverForAReason(
    pool: seq<int>, log: seq<OfferRow>, c: Context, now: int, d: int, reason: SkipReason)
    ensures OfferRow(d, now, Skipped, 0, None, Some(reason)) in SkipRows(pool, log, c, now)
            <==> && d in pool
                 && (forall i :: 0 <= i < |log| && log[i].driver == d ==>
                       log[i].result == Taken || log[i].result == Skipped)
                 && !(d in c.available && d !in c.busy && d in c.present)
                 && reason == (if d !in c.available then DispatchUnavailable
                               else if d in c.busy then DriverBusy
                               else PresenceUnavailable)
  {
    if pool != [] {
      var n := |pool| - 1;
      PassedOverForAReason(pool[..n], log, c, now, d, reason);
      assert pool == pool[..n] + [pool[n]];
      assert Tried(log, d) <==> exists i :: 0 <= i < |log| && log[i].driver == d && RulesOut(log[i].result);
    }
  }

  /** Ordering by distance, an unknown distance being infinite, and then by id. */
  predicate AtLeastAsNear(a: int, b: int, id: nat, distance: map<(nat, int), real>) {
    if (id, a) in distance && (id, b) in distance then
      distance[(id, a)] < distance[(id, b)] || (distance[(id, a)] == distance[(id, b)] && a <= b)
    else
      (id, a) in distance || ((id, b) !in distance && a <= b)
  }

  /** The first of the candidates sorted by nearness. */
  function Nearest(ds: seq<int>, id: nat, distance: map<(nat, int), real>): (best: int)
    requires ds != []
    ensures best in ds
    ensures forall d :: d in ds ==> AtLeastAsNear(best, d, id, distance)
  {
    if |ds| == 1 then ds[0]
    else
      var rest := Nearest(ds[1..], id, distance);
      assert ds == [ds[0]] + ds[1..];
      if AtLeastAsNear(ds[0], rest, id, distance) then ds[0] else rest
  }

  /** The rows that are real offers. */
  function Offers(log: seq<OfferRow>): seq<OfferRow> {
    if log == [] then []
    else
      var n := |log| - 1;
      Offers(log[..n]) + if log[n].result == Skipped then [] else [log[n]]
  }

  /** Record a result on the latest open offer to a driver, if there is one. */
  function Close(log: seq<OfferRow>, d: int, result: OfferResult, now: int): seq<OfferRow> {
    if log == [] then []
    else
      var n := |log| - 1;
      if log[n].driver == d && log[n].result == Sent then
        log[..n] + [log[n].(result := result, respondedAt := Some(now))]
      else
        Close(log[..n], d, result, now) + [log[n]]
  }

  /** Row i is d's and open, and no later row is. */
  predicate LastOpenRow(log: seq<OfferRow>, d: int, i: nat) {
    && i < |log| && log[i].driver == d && log[i].result == Sent
    && forall j :: i < j < |log| ==> log[j].driver != d || log[j].result != Sent
  }

  /** Closing changes the driver's last open row, in its result and response time, and no other. */
  lemma {:induction false} CloseChangesTheLastOpenRow(
    log: seq<OfferRow>, d: int, i: nat, result: OfferResult, now: int)
    requires LastOpenRow(log, d, i)
    ensures Close(log, d, result, now) == log[i := log[i].(result := result, respondedAt := Some(now))]
  {
    var n := |log| - 1;
    if i < n {
      CloseChangesTheLastOpenRow(log[..n], d, i, result, now);
      assert log == log[..n] + [log[n]];
    }
  }

  /** A log without an open row of the driver stays as it is. */
  lemma {:induction false} CloseWithoutAnOpenRow(log: seq<OfferRow>, d: int, result: OfferResult, now: int)
    requires forall i :: 0 <= i < |log| ==> log[i].driver != d || log[i].result != Sent
    ensures Close(log, d, result, now) == log
  {
    if log != [] {
      CloseWithoutAnOpenRow(log[..|log| - 1], d, result, now);
    }
  }

  predicate NoOpenOffer(o: seq<OfferRow>) {
    forall i :: 0 <= i < |o| ==> o[i].result != Sent
  }

  lemma {:induction false} OffersConcat(a: seq<OfferRow>, b: seq<OfferRow>)
    ensures Offers(a + b) == Offers(a) + Offers(b)
  {
    if b == [] {
      assert a + b == a;
    } else {
      var n := |b| - 1;
      assert (a + b)[..|a| + n] == a + b[..n];
      OffersConcat(a, b[..n]);
    }
  }

  lemma {:induction false} SkipsAreNoOffers(rows: seq<OfferRow>)
    requires forall i :: 0 <= i < |rows| ==> rows[i].result == Skipped
    ensures Offers(rows) == []
  {
    if rows != [] {
      SkipsAreNoOffers(rows[..|rows| - 1]);
    }
  }

  lemma {:induction false} CloseOfOffers(log: seq<OfferRow>, d: int, result: OfferResult, now: int)
    requires result != Skipped
    ensures Offers(Close(log, d, result, now)) == Close(Offers(log), d, result, now)
  {
    if log != [] {
      var n := |log| - 1;
      CloseOfOffers(log[..n], d, result, now);
      if log[n].driver == d && log[n].result == Sent {
        assert Close(log, d, result, now)[..n] == log[..n];
        var o := Offers(log);
        assert o == Offers(log[..n]) + [log[n]];
        assert o[..|o| - 1] == Offers(log[..n]);
      } else {
        var c := Close(log[..n], d, result, now);
        OffersConcat(c, [log[n]]);
        assert Offers([log[n]]) == if log[n].result == Skipped then [] else [log[n]];
        var o := Offers(log);
        if log[n].result == Skipped {
          assert o == Offers(log[..n]);
        } else {
          assert o[..|o| - 1] == Offers(log[..n]);
        }
      }
    }
  }

  lemma {:induction false} OfferIsListed(log: seq<OfferRow>, i: nat)
    requires i < |log| && log[i].result != Skipped
    ensures log[i] in Offers(log)
  {
    var n := |log| - 1;
    if i < n {
      OfferIsListed(log[..n], i);
    }
  }

  lemma {:induction false} OfferIsLogged(log: seq<OfferRow>, k: nat)
    requires k < |Offers(log)|
    ensures Offers(log)[k] in log && Offers(log)[k].result != Skipped
  {
    var n := |log| - 1;
    if k < |Offers(log[..n])| {
      OfferIsLogged(log[..n], k);
    }
  }

  lemma TriedOfOffers(log: seq<OfferRow>, d: int)
    ensures Tried(log, d) <==> Tried(Offers(log), d)
  {
    hide Offers;
    if i :| 0 <= i < |log| && log[i].driver == d && RulesOut(log[i].result) {
      OfferIsListed(log, i);
    }
    if k :| 0 <= k < |Offers(log)| && Offers(log)[k].driver == d && RulesOut(Offers(log)[k].result) {
      OfferIsLogged(log, k);
    }
  }

  lemma {:induction false} CloseNothing(o: seq<OfferRow>, d: int, result: OfferResult, now: int)
    requires NoOpenOffer(o)
    ensures Close(o, d, result, now) == o
  {
    if o != [] {
      CloseNothing(o[..|o| - 1], d, result, now);
    }
  }

  /** Passing drivers over leaves the offers, and so the drivers still eligible, as they were. */
  lemma ScanKeepsOffers(log: seq<OfferRow>, skips: seq<OfferRow>, c: Context)
    requires forall i :: 0 <= i < |skips| ==> skips[i].result == Skipped
    ensures Offers(log + skips) == Offers(log)
    ensures forall d :: Tried(log + skips, d) <==> Tried(log, d)
    ensures EligibleAmong(c.pool, log + skips, c) == EligibleAmong(c.pool, log, c)
  {
    OffersConcat(log, skips);
    SkipsAreNoOffers(skips);
    assert Offers(log + skips) == Offers(log);
    forall d ensures Tried(log + skips, d) <==> Tried(log, d) {
      TriedOfOffers(log + skips, d);
      TriedOfOffers(log, d);
    }
    SameTriedSameEligible(c.pool, log + skips, log, c);
  }

  lemma {:induction false} SameTriedSameEligible(pool: seq<int>, a: seq<OfferRow>, b: seq<OfferRow>, c: Context)
    requires forall d :: Tried(a, d) <==> Tried(b, d)
    ensures EligibleAmong(pool, a, c) == EligibleAmong(pool, b, c)
  {
    if pool != [] {
      SameTriedSameEligible(pool[..|pool| - 1], a, b, c);
    }
  }
}
