/** Fares and the commission split in integer cents (backend/services/pricing_service.py). */
module Pricing {
  import opened Wrappers

  const KM_PER_MILE: real := 0.621371
  const BPS_SCALE: int := 10000

  datatype Policy = Policy(
    id: string, version: string, market: string,
    baseFare: int, perMile: int, perMinute: int, minimumFare: int, serviceFee: int,
    commissionBps: int, waitPerMinute: int, waitGrace: int,
    cityFee: int, accessibilityFee: int, airportFee: int, multiplierBps: int)

  /** Non-negative rates and a commission of at most 100%. */
  predicate Sound(p: Policy) {
    && 0 <= p.baseFare && 0 <= p.perMile && 0 <= p.perMinute && 0 <= p.minimumFare && 0 <= p.serviceFee
    && 0 <= p.commissionBps <= BPS_SCALE && 0 <= p.waitPerMinute
    && 0 <= p.cityFee && 0 <= p.accessibilityFee && 0 <= p.airportFee && 0 <= p.multiplierBps
  }

  datatype Components = Components(baseFare: int, distanceFare: int, timeFare: int, waitFee: int, shareable: int)

  /** What is charged beside the ride fare; serviceFee is None when the policy's own fee applies. */
  datatype Fees = Fees(
    serviceFee: Option<int>, tip: int, city: int, airport: int, toll: int, accessibility: int,
    cancellation: int, reimbursedTolls: int)

  datatype Breakdown = Breakdown(
    policyId: string, version: string, market: string,
    baseFare: int, distanceFare: int, timeFare: int, waitFee: int, shareable: int,
    serviceFee: int, city: int, accessibility: int, airport: int, toll: int, tip: int, cancellation: int,
    commission: int, ridePayout: int, driverTotal: int, platformRevenue: int, customerTotal: int)
  {
    function PassThrough(): int {
      city + airport + toll + accessibility
    }
  }

  /** Python's round: to the nearest integer, ties to the even one. */
  function RoundHalfEven(x: real): (n: int)
    ensures x - 0.5 <= n as real <= x + 0.5
    ensures n as real == x - 0.5 || n as real == x + 0.5 ==> n % 2 == 0
  {
    var f := x.Floor;
    var rest := x - f as real;
    if rest < 0.5 then f
    else if rest > 0.5 then f + 1
    else if f % 2 == 0 then f
    else f + 1
  }

  function Miles(distanceKm: real): real {
    (if distanceKm < 0.0 then 0.0 else distanceKm) * KM_PER_MILE
  }

  function RoundedFare(miles: real, rate: real): int {
    RoundHalfEven(miles * rate)
  }

  function DistanceFare(distanceKm: real, perMile: int): int {
    RoundedFare(Miles(distanceKm), perMile as real)
  }

  function MinutesFare(minutes: int, perMinute: int): int {
    Max(0, minutes) * perMinute
  }

  function FareComponents(distanceKm: real, duration: int, wait: int, p: Policy): Components {
    var distanceFare := DistanceFare(distanceKm, p.perMile);
    var timeFare := MinutesFare(duration, p.perMinute);
    var waitFee := MinutesFare(wait - p.waitGrace, p.waitPerMinute);
    var metered := p.baseFare + distanceFare + timeFare + waitFee;
    Components(p.baseFare, distanceFare, timeFare, waitFee, Max(Multiplied(metered, p.multiplierBps), p.minimumFare))
  }

  function Multiplied(subtotal: int, multiplierBps: int): int {
    if multiplierBps != BPS_SCALE then subtotal * multiplierBps / BPS_SCALE else subtotal
  }

  function Commission(shareable: int, bps: int): int {
    shareable * bps / BPS_SCALE
  }

  function Financials(shareableFare: int, fees: Fees, p: Policy, components: Option<Components>): Breakdown {
    var shareable := Max(0, shareableFare);
    var service := match fees.serviceFee case None => p.serviceFee case Some(f) => Max(0, f);
    var tip, city, airport := Max(0, fees.tip), Max(0, fees.city), Max(0, fees.airport);
    var toll, accessibility := Max(0, fees.toll), Max(0, fees.accessibility);
    var cancel := Max(0, fees.cancellation);
    var commission := Commission(shareable, p.commissionBps);
    var payout := shareable - commission;
    var c := match components case Some(c) => c case None => Components(0, 0, 0, 0, shareable);
    Breakdown(
      p.id, p.version, p.market, c.baseFare, c.distanceFare, c.timeFare, c.waitFee, shareable,
      service, city, accessibility, airport, toll, tip, cancel,
      commission, payout, payout + tip + Max(0, fees.reimbursedTolls), commission + service,
      shareable + service + city + accessibility + airport + toll + tip + cancel)
  }

  /** Python's `a or b` on integers. */
  function OrElse(a: int, b: int): int {
    if a != 0 then a else b
  }

  function FinancialsFromTrip(distanceKm: real, duration: int, wait: int, fees: Fees, p: Policy): Breakdown {
    var c := FareComponents(distanceKm, duration, wait, p);
    var withPolicyFees := fees.(
      city := OrElse(fees.city, p.cityFee),
      airport := OrElse(fees.airport, p.airportFee),
      accessibility := OrElse(fees.accessibility, p.accessibilityFee));
    Financials(c.shareable, withPolicyFees, p, Some(c))
  }

  // --- The fare and its tariff ------------------------------------------------------------------

  /** The tariff without rounding. */
  function Tariff(distanceKm: real, duration: int, wait: int, p: Policy): real {
    p.baseFare as real + (if distanceKm < 0.0 then 0.0 else distanceKm * 0.621371) * p.perMile as real
    + Max(0, duration) as real * p.perMinute as real + Max(0, wait - p.waitGrace) as real * p.waitPerMinute as real
  }

  function ExactFare(distanceKm: real, duration: int, wait: int, p: Policy): real {
    var demanded := Tariff(distanceKm, duration, wait, p) * (p.multiplierBps as real / 10000.0);
    if demanded > p.minimumFare as real then demanded else p.minimumFare as real
  }

  /** The fare in whole cents is the exact one, short of it by less than a cent more, and above it by no
      more, than what half a cent comes to under the demand multiplier. */
  lemma FareTracksTheTariff(distanceKm: real, duration: int, wait: int, p: Policy)
    requires Sound(p)
    ensures var fare := FareComponents(distanceKm, duration, wait, p).shareable as real;
            var exact := ExactFare(distanceKm, duration, wait, p);
            var slack := 0.5 * (p.multiplierBps as real / 10000.0);
            exact - slack - 1.0 < fare <= exact + slack
  {
    MeterTracks(distanceKm, duration, wait, p);
    var c := FareComponents(distanceKm, duration, wait, p);
    hide Tariff, Multiplied, DistanceFare, MinutesFare;
    var tariff := Tariff(distanceKm, duration, wait, p);
    MultipliedTracks(c.baseFare + c.distanceFare + c.timeFare + c.waitFee, tariff, p.multiplierBps);
  }

  /** Each part of the fare is its part of the tariff: the distance to half a cent, the others to the cent. */
  lemma PartsTrackTheTariff(distanceKm: real, duration: int, wait: int, p: Policy)
    ensures var c := FareComponents(distanceKm, duration, wait, p);
            var exact := (if distanceKm < 0.0 then 0.0 else distanceKm * 0.621371) * p.perMile as real;
            && c.baseFare == p.baseFare
            && exact - 0.5 <= c.distanceFare as real <= exact + 0.5
            && c.timeFare == (if duration > 0 then duration * p.perMinute else 0)
            && c.waitFee == (if wait > p.waitGrace then (wait - p.waitGrace) * p.waitPerMinute else 0)
            && c.shareable >= p.minimumFare
  {
  }

  lemma MeterTracks(distanceKm: real, duration: int, wait: int, p: Policy)
    ensures var c, tariff := FareComponents(distanceKm, duration, wait, p), Tariff(distanceKm, duration, wait, p);
            tariff - 0.5 <= (c.baseFare + c.distanceFare + c.timeFare + c.waitFee) as real <= tariff + 0.5
  {
    hide RoundHalfEven, Multiplied;
    assert Miles(distanceKm) == if distanceKm < 0.0 then 0.0 else distanceKm * 0.621371;
    hide Miles;
    RealProduct(Max(0, duration), p.perMinute);
    RealProduct(Max(0, wait - p.waitGrace), p.waitPerMinute);
  }

  lemma RealProduct(a: int, b: int)
    ensures (a * b) as real == a as real * b as real
  {
  }

  lemma MultipliedTracks(metered: int, tariff: real, bps: int)
    requires 0 <= bps && tariff - 0.5 <= metered as real <= tariff + 0.5
    ensures var k := bps as real / 10000.0;
            tariff * k - 0.5 * k - 1.0 < Multiplied(metered, bps) as real <= tariff * k + 0.5 * k
  {
    var k := bps as real / 10000.0;
    FloorOfProduct(metered, bps);
    hide Multiplied;
    ScaleMonotone(tariff - 0.5, metered as real, k);
    ScaleMonotone(metered as real, tariff + 0.5, k);
    Distribute(tariff, -0.5, k);
    Distribute(tariff, 0.5, k);
  }

  lemma Distribute(x: real, y: real, k: real)
    ensures (x + y) * k == x * k + y * k
  {
  }

  lemma FloorOfProduct(metered: int, bps: int)
    ensures metered as real * (bps as real / 10000.0) - 1.0 < Multiplied(metered, bps) as real
            <= metered as real * (bps as real / 10000.0)
  {
    var product := metered * bps;
    RealProduct(metered, bps);
    assert metered as real * (bps as real / 10000.0) == product as real / 10000.0;
    if bps != BPS_SCALE {
      var q := product / BPS_SCALE;
      assert q * BPS_SCALE <= product < q * BPS_SCALE + BPS_SCALE;
      assert (q * BPS_SCALE) as real == q as real * 10000.0;
    }
  }

  // --- Conservation -----------------------------------------------------------------------------

  /** What the customer pays is what the driver, the platform and the pass-through parties get,
      exactly when the cancellation fee equals the tolls reimbursed to the driver. */
  lemma CustomerPaysEveryShareIff(shareableFare: int, fees: Fees, p: Policy, c: Option<Components>)
    ensures var b := Financials(shareableFare, fees, p, c);
            b.customerTotal == b.driverTotal + b.platformRevenue + b.PassThrough()
            <==> Max(0, fees.cancellation) == Max(0, fees.reimbursedTolls)
  {
  }

  /** A cancellation fee is charged to the customer and credited to nobody. */
  lemma CancellationFeeIsUnallocated(p: Policy)
    ensures var b := Financials(1000, Fees(Some(0), 0, 0, 0, 0, 0, 500, 0), p, None);
            b.customerTotal == b.driverTotal + b.platformRevenue + b.PassThrough() + 500
  {
  }

  /** Both sides of the split are non-negative, and rounding favours the driver by less than a cent. */
  lemma SplitBounds(shareable: int, bps: int)
    requires 0 <= shareable && 0 <= bps <= BPS_SCALE
    ensures 0 <= Commission(shareable, bps) <= shareable
    ensures var payout := shareable - Commission(shareable, bps);
            0 <= payout * BPS_SCALE - shareable * (BPS_SCALE - bps) < BPS_SCALE
  {
    var scaled := shareable * bps;
    assert 0 <= scaled <= shareable * BPS_SCALE by {
      Product(shareable, bps);
      Product(shareable, BPS_SCALE - bps);
      assert shareable * (BPS_SCALE - bps) == shareable * BPS_SCALE - scaled;
    }
    var commission := scaled / BPS_SCALE;
    assert scaled == commission * BPS_SCALE + scaled % BPS_SCALE;
  }

  lemma Product(a: int, b: int)
    requires 0 <= a && 0 <= b
    ensures 0 <= a * b
  {
  }

  // --- Monotonicity -----------------------------------------------------------------------------

  lemma RoundMonotone(x: real, y: real)
    requires x <= y
    ensures RoundHalfEven(x) <= RoundHalfEven(y)
  {
  }

  lemma ScaleMonotone(x: real, y: real, k: real)
    requires x <= y && 0.0 <= k
    ensures x * k <= y * k
  {
    assert y * k - x * k == (y - x) * k;
  }

  lemma TimesMonotone(a: int, b: int, k: int)
    requires a <= b && 0 <= k
    ensures a * k <= b * k
  {
    Product(b - a, k);
    assert (b - a) * k == b * k - a * k;
  }

  lemma FloorMonotone(a: int, b: int)
    requires a <= b
    ensures a / BPS_SCALE <= b / BPS_SCALE
  {
  }

  lemma MultipliedMonotone(a: int, b: int, bps: int)
    requires a <= b && 0 <= bps
    ensures Multiplied(a, bps) <= Multiplied(b, bps)
  {
    TimesMonotone(a, b, bps);
    FloorMonotone(a * bps, b * bps);
  }

  lemma RoundedFareMonotone(m: real, m': real, rate: real)
    requires 0.0 <= m <= m' && 0.0 <= rate
    ensures 0 <= RoundedFare(m, rate) <= RoundedFare(m', rate)
  {
    var x, x' := m * rate, m' * rate;
    assert 0.0 <= x <= x' by {
      ScaleMonotone(0.0, m, rate);
      ScaleMonotone(m, m', rate);
    }
    RoundMonotone(0.0, x);
    RoundMonotone(x, x');
  }

  lemma MilesMonotone(d: real, d': real)
    requires d <= d'
    ensures 0.0 <= Miles(d) <= Miles(d')
  {
  }

  lemma DistanceFareMonotone(d: real, d': real, perMile: int)
    requires d <= d' && 0 <= perMile
    ensures 0 <= DistanceFare(d, perMile) <= DistanceFare(d', perMile)
  {
    MilesMonotone(d, d');
    RoundedFareMonotone(Miles(d), Miles(d'), perMile as real);
  }

  lemma MinutesFareMonotone(m: int, m': int, perMinute: int)
    requires m <= m' && 0 <= perMinute
    ensures 0 <= MinutesFare(m, perMinute) <= MinutesFare(m', perMinute)
  {
    TimesMonotone(Max(0, m), Max(0, m'), perMinute);
    TimesMonotone(0, Max(0, m), perMinute);
  }

  lemma FareMonotone(d: real, d': real, m: int, m': int, w: int, w': int, p: Policy)
    requires Sound(p) && d <= d' && m <= m' && w <= w'
    ensures 0 <= FareComponents(d, m, w, p).shareable <= FareComponents(d', m', w', p).shareable
  {
    var c, c' := FareComponents(d, m, w, p), FareComponents(d', m', w', p);
    var metered := c.baseFare + c.distanceFare + c.timeFare + c.waitFee;
    var metered' := c'.baseFare + c'.distanceFare + c'.timeFare + c'.waitFee;
    assert metered <= metered' by {
      DistanceFareMonotone(d, d', p.perMile);
      MinutesFareMonotone(m, m', p.perMinute);
      MinutesFareMonotone(w - p.waitGrace, w' - p.waitGrace, p.waitPerMinute);
    }
    MultipliedMonotone(metered, metered', p.multiplierBps);
  }

  /** A bigger fare never lowers either side of the split. */
  lemma SplitMonotone(s: int, s': int, bps: int)
    requires s <= s' && 0 <= bps <= BPS_SCALE
    ensures Commission(s, bps) <= Commission(s', bps)
    ensures s - Commission(s, bps) <= s' - Commission(s', bps)
  {
    TimesMonotone(s, s', bps);
    FloorMonotone(s * bps, s' * bps);
    TimesMonotone(s - s', 0, BPS_SCALE - bps);
    assert (s - s') * (BPS_SCALE - bps) == s * BPS_SCALE - s' * BPS_SCALE - s * bps + s' * bps;
    assert s' * bps <= s * bps + (s' - s) * BPS_SCALE;
    FloorMonotone(s' * bps, s * bps + (s' - s) * BPS_SCALE);
    FloorShift(s * bps, s' - s);
  }

  lemma FloorShift(a: int, k: int)
    ensures (a + k * BPS_SCALE) / BPS_SCALE == a / BPS_SCALE + k
  {
  }

  /** A longer, slower or more delayed trip never lowers what the driver, the platform
      or the customer's bill comes to. */
  lemma LongerTripNeverPaysLess(
    d: real, d': real, m: int, m': int, w: int, w': int, fees: Fees, p: Policy)
    requires Sound(p) && d <= d' && m <= m' && w <= w'
    ensures var b := FinancialsFromTrip(d, m, w, fees, p);
            var b' := FinancialsFromTrip(d', m', w', fees, p);
            && b.driverTotal <= b'.driverTotal
            && b.platformRevenue <= b'.platformRevenue
            && b.customerTotal <= b'.customerTotal
  {
    FareMonotone(d, d', m, m', w, w', p);
    SplitMonotone(FareComponents(d, m, w, p).shareable, FareComponents(d', m', w', p).shareable, p.commissionBps);
  }

  // --- Rounding over many rides -----------------------------------------------------------------

  function Sum(fares: seq<int>): int {
    if fares == [] then 0 else fares[0] + Sum(fares[1..])
  }

  function SumCommissions(fares: seq<int>, bps: int): int {
    if fares == [] then 0 else Commission(fares[0], bps) + SumCommissions(fares[1..], bps)
  }

  lemma FloorOfSum(a: int, b: int)
    ensures a / BPS_SCALE + b / BPS_SCALE <= (a + b) / BPS_SCALE <= a / BPS_SCALE + b / BPS_SCALE + 1
  {
  }

  /** Commission taken ride by ride is at most the commission on the total, and misses it by less
      than one cent a ride after the first. */
  lemma {:induction false} CommissionsAgainstTheTotal(fares: seq<int>, bps: int)
    requires fares != []
    ensures SumCommissions(fares, bps) <= Commission(Sum(fares), bps) <= SumCommissions(fares, bps) + |fares| - 1
  {
    if |fares| == 1 {
      assert Sum(fares[1..]) == 0 && SumCommissions(fares[1..], bps) == 0;
    } else {
      CommissionsAgainstTheTotal(fares[1..], bps);
      var head, tail := fares[0], Sum(fares[1..]);
      assert (head + tail) * bps == head * bps + tail * bps;
      FloorOfSum(head * bps, tail * bps);
    }
  }
}
