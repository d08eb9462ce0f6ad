/** The stored pricing row of a ride: quote, finalize, lock (backend/services/ride_pricing.py). */
module RidePricing {
  import opened Wrappers
  import opened Pricing

  /** The columns of a ride_pricing row. */
  datatype Row = Row(
    policyId: string, version: string, market: string,
    baseFare: int, distanceFare: int, timeFare: int, waitFee: int, shareable: int,
    serviceFee: int, tip: int, city: int, airport: int, toll: int, accessibility: int, cancellation: int,
    driverCommission: int, ridePayout: int, commission: int, driverEarnings: int,
    platformEarnings: int, platformRevenue: int, passThrough: int, totalRiderCharge: int, customerTotal: int,
    tax: int, locked: bool, lockedAt: Option<int>, fareLockedAt: Option<int>)

  /** A row that has been created but not priced yet. */
  const BLANK: Row :=
    Row("", "", "", 0, 0, 0, 0, 0, 150, 0, 0, 0, 0, 0, 0, 0, 0, 0, 0, 0, 0, 0, 0, 0, 0, false, None, None)

  datatype PricingLocked = PricingLocked

  /** The optional amounts a driver sends with a completion. */
  datatype CompletionFees = CompletionFees(
    serviceFee: Option<int>, tip: int, city: int, airport: int, toll: int, accessibility: int, tax: int)

  function RideFees(f: CompletionFees): Fees {
    Fees(f.serviceFee, f.tip, f.city, f.airport, f.toll, f.accessibility, 0, 0)
  }

  const NO_FEES: Fees := Fees(None, 0, 0, 0, 0, 0, 0, 0)

  // --- The row as a value -----------------------------------------------------------------------

  function Applied(row: Row, b: Breakdown): Row {
    row.(policyId := b.policyId, version := b.version, market := b.market,
    baseFare := b.baseFare, distanceFare := b.distanceFare, timeFare := b.timeFare, waitFee := b.waitFee,
    shareable := b.shareable, serviceFee := b.serviceFee, tip := b.tip, city := b.city, airport := b.airport,
    toll := b.toll, accessibility := b.accessibility, cancellation := b.cancellation,
    driverCommission := b.ridePayout, ridePayout := b.ridePayout, commission := b.commission,
    driverEarnings := b.driverTotal, platformEarnings := b.platformRevenue, platformRevenue := b.platformRevenue,
    passThrough := b.PassThrough(), totalRiderCharge := b.customerTotal, customerTotal := b.customerTotal,
    tax := 0)
  }

  function Quoted(row: Row, distanceKm: real, duration: int, wait: int, p: Policy): Row {
    Applied(row, FinancialsFromTrip(distanceKm, duration, wait, NO_FEES, p))
  }

  /** A quoted fare is kept when the ride reports no distance. */
  predicate KeepsQuotedFare(existing: Option<Row>, distanceKm: real) {
    existing.Some? && existing.value.shareable != 0 && distanceKm == 0.0
  }

  function FinalBreakdown(
    existing: Option<Row>, distanceKm: real, duration: int, f: CompletionFees, p: Policy): Breakdown
  {
    if KeepsQuotedFare(existing, distanceKm) then
      var q := existing.value;
      var b := Financials(q.shareable, RideFees(f), p, None);
      b.(policyId := if q.policyId != "" then q.policyId else b.policyId,
      version := if q.version != "" then q.version else b.version,
      market := if q.market != "" then q.market else b.market,
      baseFare := q.baseFare, distanceFare := q.distanceFare, timeFare := q.timeFare, waitFee := q.waitFee,
      shareable := q.shareable)
    else
      FinancialsFromTrip(distanceKm, duration, 0, RideFees(f), p)
  }

  function WithTax(row: Row, tax: int): Row {
    if tax == 0 then row
    else
      var t := Max(0, tax);
      row.(tax := t, passThrough := row.passThrough + t,
      customerTotal := row.customerTotal + t, totalRiderCharge := row.customerTotal + t)
  }

  function Locked(row: Row, now: int): Row {
    row.(locked := true, lockedAt := Some(now), fareLockedAt := Some(now))
  }

  function Finalized(
    existing: Option<Row>, distanceKm: real, duration: int, f: CompletionFees, p: Policy, lock: bool, now: int): Row
  {
    var start := match existing case Some(r) => r case None => BLANK;
    var priced := WithTax(Applied(start, FinalBreakdown(existing, distanceKm, duration, f, p)), f.tax);
    if lock then Locked(priced, now) else priced
  }

  // --- What a row promises ----------------------------------------------------------------------

  /** The customer's total, with tax, is what all parties get, and no share is negative. */
  predicate Balanced(r: Row) {
    && r.customerTotal == r.driverEarnings + r.platformRevenue + r.passThrough
    && r.passThrough == r.city + r.airport + r.toll + r.accessibility + r.tax
    && r.platformRevenue == r.commission + r.serviceFee
    && r.driverEarnings == r.ridePayout + r.tip
    && r.ridePayout + r.commission == r.shareable
    && r.totalRiderCharge == r.customerTotal
    && r.driverCommission == r.ridePayout
    && r.platformEarnings == r.platformRevenue
    && 0 <= r.ridePayout && 0 <= r.commission && 0 <= r.serviceFee && 0 <= r.tip
    && 0 <= r.city && 0 <= r.airport && 0 <= r.toll && 0 <= r.accessibility && 0 <= r.tax
  }

  /** The same for a breakdown before tax. */
  predicate Fair(b: Breakdown) {
    && b.customerTotal == b.driverTotal + b.platformRevenue + b.PassThrough()
    && b.platformRevenue == b.commission + b.serviceFee
    && b.driverTotal == b.ridePayout + b.tip
    && b.ridePayout + b.commission == b.shareable
    && 0 <= b.ridePayout && 0 <= b.commission && 0 <= b.serviceFee && 0 <= b.tip
    && 0 <= b.city && 0 <= b.airport && 0 <= b.toll && 0 <= b.accessibility
  }

  lemma FinancialsAreFair(shareable: int, fees: Fees, p: Policy, c: Option<Components>)
    requires Sound(p) && fees.cancellation == 0 && fees.reimbursedTolls == 0
    ensures Fair(Financials(shareable, fees, p, c))
  {
    SplitBounds(Max(0, shareable), p.commissionBps);
  }

  lemma AppliedIsBalanced(row: Row, b: Breakdown, tax: int)
    requires Fair(b)
    ensures Balanced(WithTax(Applied(row, b), tax))
    ensures Balanced(Applied(row, b))
  {
  }

  lemma QuoteIsBalanced(row: Row, distanceKm: real, duration: int, wait: int, p: Policy)
    requires Sound(p)
    ensures Balanced(Quoted(row, distanceKm, duration, wait, p))
  {
    TripIsFair(distanceKm, duration, wait, NO_FEES, p);
    AppliedIsBalanced(row, FinancialsFromTrip(distanceKm, duration, wait, NO_FEES, p), 0);
  }

  lemma TripIsFair(distanceKm: real, duration: int, wait: int, fees: Fees, p: Policy)
    requires Sound(p) && fees.cancellation == 0 && fees.reimbursedTolls == 0
    ensures Fair(FinancialsFromTrip(distanceKm, duration, wait, fees, p))
  {
    hide Financials, Fair;
    var c := FareComponents(distanceKm, duration, wait, p);
    FinancialsAreFair(
      c.shareable,
      fees.(city := OrElse(fees.city, p.cityFee), airport := OrElse(fees.airport, p.airportFee),
      accessibility := OrElse(fees.accessibility, p.accessibilityFee)), p, Some(c));
  }

  /** Whether the quoted fare is kept or the trip is priced anew, a finalized row is balanced. */
  lemma FinalizedIsBalanced(
    existing: Option<Row>, distanceKm: real, duration: int, f: CompletionFees, p: Policy, lock: bool, now: int)
    requires Sound(p)
    requires existing.Some? ==> Balanced(existing.value)
    ensures Balanced(Finalized(existing, distanceKm, duration, f, p, lock, now))
  {
    assert Fair(FinalBreakdown(existing, distanceKm, duration, f, p)) by {
      hide FinancialsFromTrip, FareComponents;
      if KeepsQuotedFare(existing, distanceKm) {
        FinancialsAreFair(existing.value.shareable, RideFees(f), p, None);
      } else {
        TripIsFair(distanceKm, duration, 0, RideFees(f), p);
      }
    }
    hide FinalBreakdown, Fair;
    var start := match existing case Some(r) => r case None => BLANK;
    AppliedIsBalanced(start, FinalBreakdown(existing, distanceKm, duration, f, p), f.tax);
  }

  /** A kept fare is split anew at the rate of the policy in force: the driver's ride pay and the
      commission of the quote survive if and only if the new commission comes to the old one. */
  lemma KeptFareKeepsTheSplitIff(q: Row, duration: int, f: CompletionFees, p: Policy, now: int)
    requires Balanced(q) && q.shareable != 0
    ensures var r := Finalized(Some(q), 0.0, duration, f, p, true, now);
            && r.shareable == q.shareable
            && (r.ridePayout == q.ridePayout && r.commission == q.commission
                <==> q.commission == Commission(q.shareable, p.commissionBps))
  {
  }

  /** A quote by one policy, finalized by another with the fare kept: the fare stands; as the commission rate
      rises the driver's ride pay never rises and the commission never falls, and at the quoted rate both are
      what was quoted, whatever has become of the per-mile, per-minute and minimum rates. */
  lemma RateChangeMovesTheSplit(
    row: Row, distanceKm: real, duration: int, wait: int, quoted: Policy, p: Policy, f: CompletionFees, now: int)
    requires Sound(quoted) && Sound(p) && FareComponents(distanceKm, duration, wait, quoted).shareable != 0
    ensures var q := Quoted(row, distanceKm, duration, wait, quoted);
            var r := Finalized(Some(q), 0.0, duration, f, p, true, now);
            && r.shareable == q.shareable
            && (quoted.commissionBps <= p.commissionBps ==>
                  r.ridePayout <= q.ridePayout && q.commission <= r.commission)
            && (p.commissionBps <= quoted.commissionBps ==>
                  q.ridePayout <= r.ridePayout && r.commission <= q.commission)
  {
    var shareable := FareComponents(distanceKm, duration, wait, quoted).shareable;
    FareMonotone(distanceKm, distanceKm, duration, duration, wait, wait, quoted);
    hide FareComponents;
    if quoted.commissionBps <= p.commissionBps { RateMonotone(shareable, quoted.commissionBps, p.commissionBps); }
    if p.commissionBps <= quoted.commissionBps { RateMonotone(shareable, p.commissionBps, quoted.commissionBps); }
  }

  lemma RateMonotone(shareable: int, low: int, high: int)
    requires 0 <= shareable && low <= high
    ensures Commission(shareable, low) <= Commission(shareable, high)
  {
    TimesMonotone(low, high, shareable);
    FloorMonotone(shareable * low, shareable * high);
  }

  /** A quote of 1000 cents at 20 percent pays the driver 800; completed at 30 percent it pays him 700. */
  lemma ChangedRateChangesAQuotedPayout(p: Policy, q: Row, now: int)
    requires p.commissionBps == 3000 && Balanced(q)
    requires q.shareable == 1000 && q.commission == Commission(1000, 2000)
    ensures q.ridePayout == 800
            && Finalized(Some(q), 0.0, 0, CompletionFees(None, 0, 0, 0, 0, 0, 0), p, true, now).ridePayout == 700
  {
  }

  // --- The columns ------------------------------------------------------------------------------

  /** The parts of the fare, each in its own column. */
  predicate FareColumns(r: Row, c: Components) {
    && r.baseFare == c.baseFare && r.distanceFare == c.distanceFare
    && r.timeFare == c.timeFare && r.waitFee == c.waitFee
  }

  predicate LockColumns(r: Row, from: Row) {
    r.locked == from.locked && r.lockedAt == from.lockedAt && r.fareLockedAt == from.fareLockedAt
  }

  /** A quote names its policy, carries the parts of its fare and the policy's own fees, and nothing that only
      a completed ride can have. */
  lemma QuoteFillsTheColumns(row: Row, distanceKm: real, duration: int, wait: int, p: Policy)
    ensures var q, c := Quoted(row, distanceKm, duration, wait, p), FareComponents(distanceKm, duration, wait, p);
            && FareColumns(q, c) && LockColumns(q, row) && q.shareable == Max(0, c.shareable)
            && q.policyId == p.id && q.version == p.version && q.market == p.market
            && q.serviceFee == p.serviceFee && q.tip == q.toll == q.tax == q.cancellation == 0
            && q.city == Max(0, p.cityFee) && q.airport == Max(0, p.airportFee)
            && q.accessibility == Max(0, p.accessibilityFee)
  {
    hide FareComponents;
  }

  /** A finalized row with a kept fare keeps the quote's parts and names, filling in only missing names; one
      priced anew has the trip's parts and the policy's names; the lock is set if asked for. */
  lemma FinalizingFillsTheColumns(
    existing: Option<Row>, distanceKm: real, duration: int, f: CompletionFees, p: Policy, lock: bool, now: int)
    ensures var r := Finalized(existing, distanceKm, duration, f, p, lock, now);
            && (existing.Some? && existing.value.shareable != 0 && distanceKm == 0.0 ==>
                  var q := existing.value;
                  && FareColumns(r, Components(q.baseFare, q.distanceFare, q.timeFare, q.waitFee, q.shareable))
                  && r.shareable == q.shareable
                  && r.policyId == (if q.policyId == "" then p.id else q.policyId)
                  && r.version == (if q.version == "" then p.version else q.version)
                  && r.market == (if q.market == "" then p.market else q.market))
            && (existing.None? || existing.value.shareable == 0 || distanceKm != 0.0 ==>
                  && FareColumns(r, FareComponents(distanceKm, duration, 0, p))
                  && r.policyId == p.id && r.version == p.version && r.market == p.market)
            && (lock ==> r.locked && r.lockedAt == r.fareLockedAt == Some(now))
            && (!lock ==> LockColumns(r, match existing case Some(q) => q case None => BLANK))
  {
    hide FareComponents;
  }

  // --- The stored row ---------------------------------------------------------------------------

  /** A row object that quoting and finalizing update in place. */
  class RidePricingRow {
    var row: Row

    constructor ()
      ensures row == BLANK
    {
      row := BLANK;
    }

    method ApplyBreakdown(b: Breakdown)
      modifies this
      ensures row == Applied(old(row), b)
    {
      row := row.(policyId := b.policyId, version := b.version, market := b.market);
      row := row.(baseFare := b.baseFare, distanceFare := b.distanceFare, timeFare := b.timeFare, waitFee := b.waitFee);
      row := row.(shareable := b.shareable, serviceFee := b.serviceFee, tip := b.tip);
      row := row.(city := b.city, airport := b.airport, toll := b.toll, accessibility := b.accessibility);
      row := row.(cancellation := b.cancellation);
      row := row.(driverCommission := b.ridePayout, ridePayout := b.ridePayout, commission := b.commission);
      row := row.(driverEarnings := b.driverTotal);
      row := row.(platformEarnings := b.platformRevenue, platformRevenue := b.platformRevenue);
      row := row.(passThrough := b.city + b.airport + b.toll + b.accessibility);
      row := row.(totalRiderCharge := b.customerTotal, customerTotal := b.customerTotal, tax := 0);
    }

    method AddTax(tax: int)
      modifies this
      ensures row == WithTax(old(row), tax)
    {
      if tax != 0 {
        row := row.(tax := Max(0, tax));
        row := row.(passThrough := row.passThrough + row.tax);
        row := row.(customerTotal := row.customerTotal + row.tax);
        row := row.(totalRiderCharge := row.customerTotal);
      }
    }
  }

  /** The pricing table, one row object per ride. */
  class PricingTable {
    var rows: map<nat, RidePricingRow>

    ghost predicate Valid()
      reads this
    {
      forall a, b :: a in rows && b in rows && a != b ==> rows[a] != rows[b]
    }

    ghost function Stored(rideId: nat): Option<Row>
      reads this, rows.Values
    {
      if rideId in rows then Some(rows[rideId].row) else None
    }

    constructor ()
      ensures Valid() && rows == map[]
    {
      rows := map[];
    }

    method Quote(rideId: nat, distanceKm: real, duration: int, wait: int, p: Policy)
      returns (r: Result<Row, PricingLocked>)
      requires Valid()
      modifies this, rows.Values
      ensures Valid()
      ensures var before := old(Stored(rideId));
              if before.Some? && before.value.locked then
                r == Err(PricingLocked) && Stored(rideId) == before
              else
                && r == Ok(Quoted(match before case Some(b) => b case None => BLANK, distanceKm, duration, wait, p))
                && Stored(rideId) == Some(r.value)
      ensures forall k :: k != rideId ==> (k in rows <==> k in old(rows))
      ensures forall k :: k != rideId && k in rows ==> rows[k] == old(rows)[k] && rows[k].row == old(rows[k].row)
    {
      if rideId in rows && rows[rideId].row.locked {
        return Err(PricingLocked);
      }
      var breakdown := FinancialsFromTrip(distanceKm, duration, wait, NO_FEES, p);
      var entry := FetchOrCreate(rideId);
      entry.ApplyBreakdown(breakdown);
      r := Ok(entry.row);
    }

    /** The stored row, or a new blank one added to the table. */
    method FetchOrCreate(rideId: nat) returns (entry: RidePricingRow)
      requires Valid()
      modifies this
      ensures Valid()
      ensures rideId in rows && rows == old(rows)[rideId := entry]
      ensures if rideId in old(rows) then entry == old(rows)[rideId] else fresh(entry) && entry.row == BLANK
    {
      if rideId in rows {
        entry := rows[rideId];
      } else {
        entry := new RidePricingRow();
        rows := rows[rideId := entry];
      }
    }

    method Finalize(rideId: nat, distanceKm: real, duration: int, f: CompletionFees, p: Policy, lock: bool, now: int)
      returns (r: Result<Row, PricingLocked>)
      requires Valid()
      modifies this, rows.Values
      ensures Valid()
      ensures var before := old(Stored(rideId));
              if before.Some? && before.value.locked then
                r == Err(PricingLocked) && Stored(rideId) == before
              else
                && r == Ok(Finalized(before, distanceKm, duration, f, p, lock, now))
                && Stored(rideId) == Some(r.value)
      ensures forall k :: k != rideId ==> (k in rows <==> k in old(rows))
      ensures forall k :: k != rideId && k in rows ==> rows[k] == old(rows)[k] && rows[k].row == old(rows[k].row)
    {
      var existing: Option<Row> := if rideId in rows then Some(rows[rideId].row) else None;
      if existing.Some? && existing.value.locked {
        return Err(PricingLocked);
      }
      var breakdown := FinalBreakdown(existing, distanceKm, duration, f, p);
      var entry := FetchOrCreate(rideId);
      entry.ApplyBreakdown(breakdown);
      entry.AddTax(f.tax);
      if lock {
        entry.row := entry.row.(locked := true, lockedAt := Some(now), fareLockedAt := Some(now));
      }
      r := Ok(entry.row);
    }
  }
}
