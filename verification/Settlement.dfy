/** Settlement entries and the charge row of a completed ride
    (backend/services/ride_settlement.py, backend/services/payment_execution.py). */
module Settlement {
  import opened Wrappers
  import opened Pricing
  import opened RidePricing
  import opened Lifecycle

  datatype EntryType =
    | CustomerCharge | DriverPayout | PlatformCommission | PlatformServiceFee | PlatformRevenue
    | TipDriver | CityLiability | AirportLiability | TollLiability | AccessibilityLiability | TaxLiability

  datatype Party =
    | Rider | DriverParty | Platform | City | Airport | TollAuthority | AccessibilityAuthority | TaxAuthority

  datatype Entry = Entry(entryType: EntryType, party: Party, amount: int)

  datatype Amounts = Amounts(
    customerTotal: int, ridePayout: int, commission: int, serviceFee: int, platformRevenue: int,
    tip: int, city: int, airport: int, toll: int, accessibility: int, tax: int)

  /** The amounts settled: fall back to the mirror column when one is zero, never below zero. */
  function LockedAmounts(r: Row): Amounts {
    Amounts(
      Max(0, OrElse(r.customerTotal, r.totalRiderCharge)),
      Max(0, OrElse(r.ridePayout, r.driverCommission)),
      Max(0, r.commission), Max(0, r.serviceFee),
      Max(0, OrElse(r.platformRevenue, r.platformEarnings)),
      Max(0, r.tip), Max(0, r.city), Max(0, r.airport), Max(0, r.toll), Max(0, r.accessibility), Max(0, r.tax))
  }

  function IfPositive(t: EntryType, party: Party, amount: int): seq<Entry> {
    if amount > 0 then [Entry(t, party, amount)] else []
  }

  function FixedEntries(a: Amounts): seq<Entry> {
    [ Entry(CustomerCharge, Rider, a.customerTotal),
      Entry(DriverPayout, DriverParty, a.ridePayout),
      Entry(PlatformCommission, Platform, a.commission),
      Entry(PlatformServiceFee, Platform, a.serviceFee),
      Entry(PlatformRevenue, Platform, a.platformRevenue) ]
  }

  function EntrySpecs(a: Amounts): seq<Entry> {
    FixedEntries(a)
    + IfPositive(TipDriver, DriverParty, a.tip)
    + IfPositive(CityLiability, City, a.city)
    + IfPositive(AirportLiability, Airport, a.airport)
    + IfPositive(TollLiability, TollAuthority, a.toll)
    + IfPositive(AccessibilityLiability, AccessibilityAuthority, a.accessibility)
    + IfPositive(TaxLiability, TaxAuthority, a.tax)
  }

  function EntriesFor(r: Row): seq<Entry> {
    EntrySpecs(LockedAmounts(r))
  }

  method BuildEntrySpecs(a: Amounts) returns (specs: seq<Entry>)
    ensures specs == EntrySpecs(a)
  {
    specs := [
      Entry(CustomerCharge, Rider, a.customerTotal),
      Entry(DriverPayout, DriverParty, a.ridePayout),
      Entry(PlatformCommission, Platform, a.commission),
      Entry(PlatformServiceFee, Platform, a.serviceFee),
      Entry(PlatformRevenue, Platform, a.platformRevenue)
    ];
    specs := AppendIfPositive(specs, TipDriver, DriverParty, a.tip);
    specs := AppendIfPositive(specs, CityLiability, City, a.city);
    specs := AppendIfPositive(specs, AirportLiability, Airport, a.airport);
    specs := AppendIfPositive(specs, TollLiability, TollAuthority, a.toll);
    specs := AppendIfPositive(specs, AccessibilityLiability, AccessibilityAuthority, a.accessibility);
    specs := AppendIfPositive(specs, TaxLiability, TaxAuthority, a.tax);
  }

  method AppendIfPositive(specs: seq<Entry>, t: EntryType, party: Party, amount: int) returns (r: seq<Entry>)
    ensures r == specs + IfPositive(t, party, amount)
  {
    r := specs;
    if amount > 0 {
      r := r + [Entry(t, party, amount)];
    }
  }

  // --- What the entries add up to ---------------------------------------------------------------

  /** Payables are every obligation but the customer's charge and the revenue summary. */
  predicate IsPayable(t: EntryType) {
    t != CustomerCharge && t != PlatformRevenue
  }

  function PayableTotal(es: seq<Entry>): int {
    if es == [] then 0
    else (if IsPayable(es[0].entryType) then es[0].amount else 0) + PayableTotal(es[1..])
  }

  /** The amount booked under a type, zero when there is no such entry. */
  function AmountOf(es: seq<Entry>, t: EntryType): int {
    if es == [] then 0
    else (if es[0].entryType == t then es[0].amount else 0) + AmountOf(es[1..], t)
  }

  function TypeRank(t: EntryType): nat {
    match t
    case CustomerCharge => 0 case DriverPayout => 1 case PlatformCommission => 2
    case PlatformServiceFee => 3 case PlatformRevenue => 4 case TipDriver => 5 case CityLiability => 6
    case AirportLiability => 7 case TollLiability => 8 case AccessibilityLiability => 9 case TaxLiability => 10
  }

  lemma {:induction false} PayableTotalConcat(a: seq<Entry>, b: seq<Entry>)
    ensures PayableTotal(a + b) == PayableTotal(a) + PayableTotal(b)
  {
    if a == [] {
      assert a + b == b;
    } else {
      assert (a + b)[1..] == a[1..] + b;
      PayableTotalConcat(a[1..], b);
    }
  }

  lemma {:induction false} AmountOfConcat(a: seq<Entry>, b: seq<Entry>, t: EntryType)
    ensures AmountOf(a + b, t) == AmountOf(a, t) + AmountOf(b, t)
  {
    if a == [] {
      assert a + b == b;
    } else {
      assert (a + b)[1..] == a[1..] + b;
      AmountOfConcat(a[1..], b, t);
    }
  }

  lemma OptionalEntry(es: seq<Entry>, t: EntryType, party: Party, amount: int)
    requires 0 <= amount && IsPayable(t)
    ensures PayableTotal(es + IfPositive(t, party, amount)) == PayableTotal(es) + amount
  {
    PayableTotalConcat(es, IfPositive(t, party, amount));
  }

  lemma PayableTotalOfSpecs(a: Amounts)
    requires 0 <= a.tip && 0 <= a.city && 0 <= a.airport && 0 <= a.toll && 0 <= a.accessibility && 0 <= a.tax
    ensures PayableTotal(EntrySpecs(a)) ==
            a.ridePayout + a.commission + a.serviceFee + a.tip + a.city + a.airport + a.toll + a.accessibility + a.tax
  {
    var base := FixedEntries(a);
    var s5 := base + IfPositive(TipDriver, DriverParty, a.tip);
    var s6 := s5 + IfPositive(CityLiability, City, a.city);
    var s7 := s6 + IfPositive(AirportLiability, Airport, a.airport);
    var s8 := s7 + IfPositive(TollLiability, TollAuthority, a.toll);
    var s9 := s8 + IfPositive(AccessibilityLiability, AccessibilityAuthority, a.accessibility);
    OptionalEntry(base, TipDriver, DriverParty, a.tip);
    OptionalEntry(s5, CityLiability, City, a.city);
    OptionalEntry(s6, AirportLiability, Airport, a.airport);
    OptionalEntry(s7, TollLiability, TollAuthority, a.toll);
    OptionalEntry(s8, AccessibilityLiability, AccessibilityAuthority, a.accessibility);
    OptionalEntry(s9, TaxLiability, TaxAuthority, a.tax);
    FiveEntries(base[0], base[1], base[2], base[3], base[4]);
  }

  lemma FiveEntries(a: Entry, b: Entry, c: Entry, d: Entry, e: Entry)
    ensures PayableTotal([a, b, c, d, e])
            == PayableTotal([a]) + PayableTotal([b]) + PayableTotal([c]) + PayableTotal([d]) + PayableTotal([e])
  {
    assert [a, b, c, d, e] == [a] + ([b] + ([c] + ([d] + [e])));
    PayableTotalConcat([a], [b] + ([c] + ([d] + [e])));
    PayableTotalConcat([b], [c] + ([d] + [e]));
    PayableTotalConcat([c], [d] + [e]);
    PayableTotalConcat([d], [e]);
  }

  /** The entries come in the order of their types, so no type occurs twice. */
  lemma EntryTypesAreDistinct(a: Amounts)
    ensures var es := EntrySpecs(a);
            forall i, j :: 0 <= i < j < |es| ==> TypeRank(es[i].entryType) < TypeRank(es[j].entryType)
  {
    hide IfPositive, FixedEntries;
    var s5 := FixedEntries(a);
    FixedEntriesRanked(a);
    var s6 := s5 + IfPositive(TipDriver, DriverParty, a.tip);
    var s7 := s6 + IfPositive(CityLiability, City, a.city);
    var s8 := s7 + IfPositive(AirportLiability, Airport, a.airport);
    var s9 := s8 + IfPositive(TollLiability, TollAuthority, a.toll);
    var s10 := s9 + IfPositive(AccessibilityLiability, AccessibilityAuthority, a.accessibility);
    NextRank(s5, TipDriver, DriverParty, a.tip);
    NextRank(s6, CityLiability, City, a.city);
    NextRank(s7, AirportLiability, Airport, a.airport);
    NextRank(s8, TollLiability, TollAuthority, a.toll);
    NextRank(s9, AccessibilityLiability, AccessibilityAuthority, a.accessibility);
    NextRank(s10, TaxLiability, TaxAuthority, a.tax);
  }

  lemma FixedEntriesRanked(a: Amounts)
    ensures RankedBelow(FixedEntries(a), 5)
  {
  }

  lemma NextRank(es: seq<Entry>, t: EntryType, party: Party, amount: int)
    requires RankedBelow(es, TypeRank(t))
    ensures RankedBelow(es + IfPositive(t, party, amount), TypeRank(t) + 1)
  {
  }

  predicate RankedBelow(es: seq<Entry>, k: nat) {
    && (forall i, j :: 0 <= i < j < |es| ==> TypeRank(es[i].entryType) < TypeRank(es[j].entryType))
    && (forall i :: 0 <= i < |es| ==> TypeRank(es[i].entryType) < k)
  }

  lemma RankedAmount(es: seq<Entry>, i: nat)
    requires i < |es|
    requires forall i, j :: 0 <= i < j < |es| ==> TypeRank(es[i].entryType) < TypeRank(es[j].entryType)
    ensures AmountOf(es, es[i].entryType) == es[i].amount
  {
    AmountOfConcat(es[..i], es[i..], es[i].entryType);
    assert es == es[..i] + es[i..];
    AbsentAmount(es[..i], es[i].entryType);
    AbsentAmount(es[i + 1..], es[i].entryType);
    assert es[i..][1..] == es[i + 1..];
  }

  lemma {:induction false} AbsentAmount(es: seq<Entry>, t: EntryType)
    requires forall i :: 0 <= i < |es| ==> es[i].entryType != t
    ensures AmountOf(es, t) == 0
  {
    if es != [] {
      AbsentAmount(es[1..], t);
    }
  }

  /** Who each kind of entry is due to. */
  function PartyOf(t: EntryType): Party {
    match t
    case CustomerCharge => Rider
    case DriverPayout => DriverParty
    case TipDriver => DriverParty
    case PlatformCommission => Platform
    case PlatformServiceFee => Platform
    case PlatformRevenue => Platform
    case CityLiability => City
    case AirportLiability => Airport
    case TollLiability => TollAuthority
    case AccessibilityLiability => AccessibilityAuthority
    case TaxLiability => TaxAuthority
  }

  /** The column of a pricing row that each kind of entry books. */
  function AmountDue(r: Row, t: EntryType): int {
    match t
    case CustomerCharge => r.customerTotal
    case DriverPayout => r.ridePayout
    case TipDriver => r.tip
    case PlatformCommission => r.commission
    case PlatformServiceFee => r.serviceFee
    case PlatformRevenue => r.platformRevenue
    case CityLiability => r.city
    case AirportLiability => r.airport
    case TollLiability => r.toll
    case AccessibilityLiability => r.accessibility
    case TaxLiability => r.tax
  }

  lemma OptionalAmount(es: seq<Entry>, kind: EntryType, party: Party, amount: int, t: EntryType)
    requires 0 <= amount
    ensures AmountOf(es + IfPositive(kind, party, amount), t) == AmountOf(es, t) + if t == kind then amount else 0
  {
    AmountOfConcat(es, IfPositive(kind, party, amount), t);
    if amount > 0 {
      assert [Entry(kind, party, amount)][1..] == [];
    }
  }

  lemma FixedAmounts(a: Amounts, t: EntryType)
    ensures AmountOf(FixedEntries(a), t)
            == match t
               case CustomerCharge => a.customerTotal
               case DriverPayout => a.ridePayout
               case PlatformCommission => a.commission
               case PlatformServiceFee => a.serviceFee
               case PlatformRevenue => a.platformRevenue
               case _ => 0
  {
    var es := FixedEntries(a);
    var four, five := [es[3], es[4]], [es[2], es[3], es[4]];
    FirstAmount(es[4], [], t);
    FirstAmount(es[3], [es[4]], t);
    FirstAmount(es[2], four, t);
    FirstAmount(es[1], five, t);
    FirstAmount(es[0], [es[1]] + five, t);
    assert [es[3]] + [es[4]] == four && [es[2]] + four == five && [es[0]] + ([es[1]] + five) == es;
    assert [es[4]] + [] == [es[4]];
  }

  lemma FirstAmount(e: Entry, rest: seq<Entry>, t: EntryType)
    ensures AmountOf([e] + rest, t) == (if e.entryType == t then e.amount else 0) + AmountOf(rest, t)
  {
    assert ([e] + rest)[1..] == rest;
  }

  /** Every entry of a balanced row books its own column, and is due to its own party. */
  lemma EntriesCarryTheRow(r: Row)
    requires Balanced(r)
    ensures forall t :: AmountOf(EntriesFor(r), t) == AmountDue(r, t)
    ensures forall e :: e in EntriesFor(r) ==> e.party == PartyOf(e.entryType)
  {
    var a := LockedAmounts(r);
    forall t ensures AmountOf(EntrySpecs(a), t) == AmountDue(r, t) {
      FixedAmounts(a, t);
      hide FixedEntries, IfPositive, AmountOf;
      var es := FixedEntries(a);
      OptionalAmount(es, TipDriver, DriverParty, a.tip, t);
      es := es + IfPositive(TipDriver, DriverParty, a.tip);
      OptionalAmount(es, CityLiability, City, a.city, t);
      es := es + IfPositive(CityLiability, City, a.city);
      OptionalAmount(es, AirportLiability, Airport, a.airport, t);
      es := es + IfPositive(AirportLiability, Airport, a.airport);
      OptionalAmount(es, TollLiability, TollAuthority, a.toll, t);
      es := es + IfPositive(TollLiability, TollAuthority, a.toll);
      OptionalAmount(es, AccessibilityLiability, AccessibilityAuthority, a.accessibility, t);
      es := es + IfPositive(AccessibilityLiability, AccessibilityAuthority, a.accessibility);
      OptionalAmount(es, TaxLiability, TaxAuthority, a.tax, t);
    }
    EntriesArePartied(a);
  }

  predicate Partied(es: seq<Entry>) {
    forall i :: 0 <= i < |es| ==> es[i].party == PartyOf(es[i].entryType)
  }

  lemma OptionalPartied(es: seq<Entry>, kind: EntryType, amount: int)
    requires Partied(es)
    ensures Partied(es + IfPositive(kind, PartyOf(kind), amount))
  {
  }

  lemma EntriesArePartied(a: Amounts)
    ensures forall e :: e in EntrySpecs(a) ==> e.party == PartyOf(e.entryType)
  {
    var es := FixedEntries(a);
    assert Partied(es);
    hide Partied, IfPositive, FixedEntries;
    OptionalPartied(es, TipDriver, a.tip);
    es := es + IfPositive(TipDriver, DriverParty, a.tip);
    OptionalPartied(es, CityLiability, a.city);
    es := es + IfPositive(CityLiability, City, a.city);
    OptionalPartied(es, AirportLiability, a.airport);
    es := es + IfPositive(AirportLiability, Airport, a.airport);
    OptionalPartied(es, TollLiability, a.toll);
    es := es + IfPositive(TollLiability, TollAuthority, a.toll);
    OptionalPartied(es, AccessibilityLiability, a.accessibility);
    es := es + IfPositive(AccessibilityLiability, AccessibilityAuthority, a.accessibility);
    OptionalPartied(es, TaxLiability, a.tax);
    PartiedMembers(EntrySpecs(a));
  }

  lemma PartiedMembers(es: seq<Entry>)
    requires Partied(es)
    ensures forall e :: e in es ==> e.party == PartyOf(e.entryType)
  {
  }

  /** What every settlement promises. */
  predicate Settles(es: seq<Entry>) {
    && AmountOf(es, CustomerCharge) == PayableTotal(es)
    && AmountOf(es, PlatformRevenue) == AmountOf(es, PlatformCommission) + AmountOf(es, PlatformServiceFee)
    && (forall i, j :: 0 <= i < j < |es| ==> es[i].entryType != es[j].entryType)
    && (forall i :: 0 <= i < |es| ==> 0 <= es[i].amount)
  }

  /** A balanced pricing row settles: the customer's charge is the sum of the payables, the revenue
      entry is commission plus service fee, and the entry types are distinct. */
  lemma BalancedRowSettles(r: Row)
    requires Balanced(r)
    ensures Settles(EntriesFor(r))
    ensures AmountOf(EntriesFor(r), CustomerCharge) == r.customerTotal
  {
    var a := LockedAmounts(r);
    PayableTotalOfSpecs(a);
    EntryTypesAreDistinct(a);
    hide IfPositive;
    var es := EntrySpecs(a);
    assert es[0].entryType == CustomerCharge && es[2].entryType == PlatformCommission;
    assert es[3].entryType == PlatformServiceFee && es[4].entryType == PlatformRevenue;
    RankedAmount(es, 0);
    RankedAmount(es, 2);
    RankedAmount(es, 3);
    RankedAmount(es, 4);
  }

  /** The commission cap is needed: without it a settled fare balances exactly when the rate leaves the
      commission below one cent more than the shareable fare. */
  lemma ChargeEqualsPayablesIff(shareable: int, f: CompletionFees, p: Policy, c: Option<Components>)
    requires 0 <= shareable && 0 <= p.serviceFee && 0 <= p.commissionBps
    ensures var es := EntriesFor(Applied(BLANK, Financials(shareable, RideFees(f), p, c)));
            AmountOf(es, CustomerCharge) == PayableTotal(es)
            <==> shareable * p.commissionBps < (shareable + 1) * BPS_SCALE
  {
    Product(shareable, p.commissionBps);
    CommissionFitsIff(shareable, p.commissionBps);
    var a := LockedAmounts(Applied(BLANK, Financials(shareable, RideFees(f), p, c)));
    PayableTotalOfSpecs(a);
    EntryTypesAreDistinct(a);
    assert EntrySpecs(a)[0].entryType == CustomerCharge;
    RankedAmount(EntrySpecs(a), 0);
  }

  lemma CommissionFitsIff(shareable: int, bps: int)
    ensures Commission(shareable, bps) <= shareable <==> shareable * bps < (shareable + 1) * BPS_SCALE
  {
  }

  /** A fare of 100 cents at 200 percent does not: the charge falls short of the payables. */
  lemma DoubleCommissionDoesNotSettle(p: Policy, c: Option<Components>)
    requires p.commissionBps == 20000 && p.serviceFee == 0
    ensures var es := EntriesFor(Applied(BLANK, Financials(100, NO_FEES, p, c)));
            AmountOf(es, CustomerCharge) != PayableTotal(es)
  {
    ChargeEqualsPayablesIff(100, CompletionFees(None, 0, 0, 0, 0, 0, 0), p, c);
  }

  // --- Generating -------------------------------------------------------------------------------

  datatype SettlementError = NotCompleted | NotLocked

  /** Idempotent: rows already there are returned as they are. */
  function Generated(existing: seq<Entry>, status: RideStatus, pricing: Option<Row>)
    : Result<seq<Entry>, SettlementError>
  {
    if existing != [] then Ok(existing)
    else if status != Completed then Err(NotCompleted)
    else if pricing.None? || !pricing.value.locked then Err(NotLocked)
    else Ok(EntriesFor(pricing.value))
  }

  datatype Charge = Charge(amount: int)

  datatype ChargeError = PricingNotFound | PricingNotLocked

  /** The charge row of a ride, keyed by the ride so that there is at most one. */
  function Charged(existing: seq<Charge>, pricing: Option<Row>): Result<seq<Charge>, ChargeError> {
    if pricing.None? then Err(PricingNotFound)
    else if !pricing.value.locked then Err(PricingNotLocked)
    else if existing != [] then Ok(existing)
    else Ok([Charge(OrElse(pricing.value.customerTotal, pricing.value.totalRiderCharge))])
  }

  /** Entries that are there are returned whatever has become of the ride; without any, only a completed ride
      with a locked price gets them. */
  lemma GeneratingAnswers(existing: seq<Entry>, status: RideStatus, pricing: Option<Row>)
    ensures existing != [] ==> Generated(existing, status, pricing) == Ok(existing)
    ensures existing == [] && status != Completed ==> Generated(existing, status, pricing) == Err(NotCompleted)
    ensures existing == [] && status == Completed && (pricing.None? || !pricing.value.locked) ==>
              Generated(existing, status, pricing) == Err(NotLocked)
    ensures && existing == [] && status == Completed
            && pricing.Some? && pricing.value.locked && Balanced(pricing.value) ==>
              var r := Generated(existing, status, pricing);
              r.Ok? && forall t :: AmountOf(r.value, t) == AmountDue(pricing.value, t)
  {
    if pricing.Some? && Balanced(pricing.value) {
      EntriesCarryTheRow(pricing.value);
    }
    hide EntriesFor, AmountOf, Balanced;
  }

  /** A charge needs a locked price, is made once and is of the customer's total. */
  lemma ChargingAnswers(existing: seq<Charge>, pricing: Option<Row>)
    ensures pricing.None? ==> Charged(existing, pricing) == Err(PricingNotFound)
    ensures pricing.Some? && !pricing.value.locked ==> Charged(existing, pricing) == Err(PricingNotLocked)
    ensures pricing.Some? && pricing.value.locked && existing != [] ==> Charged(existing, pricing) == Ok(existing)
    ensures pricing.Some? && pricing.value.locked && existing == [] && Balanced(pricing.value) ==>
              Charged(existing, pricing) == Ok([Charge(pricing.value.customerTotal)])
  {
  }

  /** The settlement table, appended to in a loop and never rewritten. */
  class SettlementTable {
    var rows: map<nat, seq<Entry>>

    constructor ()
      ensures rows == map[]
    {
      rows := map[];
    }

    function For(rideId: nat): seq<Entry>
      reads this
    {
      if rideId in rows then rows[rideId] else []
    }

    method Generate(rideId: nat, status: RideStatus, pricing: Option<Row>)
      returns (r: Result<seq<Entry>, SettlementError>)
      modifies this
      ensures r == Generated(old(For(rideId)), status, pricing)
      ensures For(rideId) == if r.Ok? then r.value else old(For(rideId))
      ensures forall k :: k != rideId ==> For(k) == old(For(k))
    {
      if For(rideId) != [] {
        return Ok(For(rideId));
      }
      if status != Completed {
        return Err(NotCompleted);
      }
      if pricing.None? || !pricing.value.locked {
        return Err(NotLocked);
      }
      var specs := BuildEntrySpecs(LockedAmounts(pricing.value));
      var added: seq<Entry> := [];
      for i := 0 to |specs|
        invariant added == specs[..i] == For(rideId)
        invariant forall k :: k != rideId ==> For(k) == old(For(k))
      {
        rows := rows[rideId := For(rideId) + [specs[i]]];
        added := added + [specs[i]];
      }
      assert specs[..|specs|] == specs;
      r := Ok(added);
    }
  }
}
