/** Laws of segment fares: additivity up to rounding, monotonicity, and reading a stored fare back. */
module FareLaws {
  import opened Model
  import opened Fares
  import opened Transactions
  import opened Effects

  lemma RoundBounds(v: real)
    requires v >= 0.0
    ensures -0.5 < RoundMoney(v) as real - v <= 0.5
  {
  }

  lemma RoundMonotone(v: real, w: real)
    requires 0.0 <= v <= w
    ensures RoundMoney(v) <= RoundMoney(w)
  {
  }

  lemma ProductMonotone(price: real, a: real, b: real)
    requires price >= 0.0 && a <= b
    ensures price * a <= price * b
  {
  }

  lemma ProratedMonotone(price: real, p: real, d: real, p': real, d': real)
    requires price >= 0.0 && p' <= p && d <= d'
    ensures 0.0 <= Prorated(price, p, d) <= Prorated(price, p', d') <= price
  {
    var c, c' := Clamp01(d - p), Clamp01(d' - p');
    ProductMonotone(price, 0.0, c);
    ProductMonotone(price, c, c');
    ProductMonotone(price, c', 1.0);
  }

  /** The stored total is the rounded fare of one seat times the seats, exactly. */
  lemma TotalIsFareTimesSeats(price: real, p: real, d: real, seats: int)
    ensures TotalFare(price, p, d, seats) == SegmentFare(price, p, d) * seats
  {
  }

  lemma TimesInteger(n: int, k: int)
    ensures Times(n as real, k) == (n * k) as real
    ensures RoundMoney(Times(n as real, k)) == n * k
  {
  }

  /** Along the route a seat costs its share of the ride's price, to the nearest unit with halves upwards. */
  lemma FareIsShare(price: real, p: real, d: real)
    requires price >= 0.0 && 0.0 <= p <= d <= 1.0
    ensures -0.5 < SegmentFare(price, p, d) as real - price * (d - p) <= 0.5
  {
    ProductMonotone(price, 0.0, d - p);
    RoundBounds(price * (d - p));
  }

  /** The whole route costs the ride's price, rounded. */
  lemma WholeRouteIsPrice(price: real)
    requires price >= 0.0
    ensures -0.5 < SegmentFare(price, 0.0, 1.0) as real - price <= 0.5
    ensures SegmentFare(price, 0.0, 1.0) == RoundMoney(price)
  {
    FareIsShare(price, 0.0, 1.0);
    assert price * 1.0 == price;
  }

  /** Within half a unit for each of n. */
  predicate Near(total: real, exact: real, n: real) {
    -n <= 2.0 * (total - exact) <= n
  }

  /** A total within half a unit per seat of the segment's share of the price. */
  predicate NearShare(total: int, price: real, p: real, d: real, seats: nat) {
    Near(total as real, seats as real * (price * (d - p)), seats as real)
  }

  lemma OneSeatMore(fare: int, share: real, n: nat)
    ensures (fare * (n + 1)) as real == (fare * n) as real + fare as real
    ensures (n + 1) as real * share == n as real * share + share
  {
    assert (n + 1) as real == n as real + 1.0;
  }

  lemma NextSeat(sum: real, exact: real, fare: real, share: real, n: real)
    requires -n <= 2.0 * (sum - exact) <= n && -0.5 < fare - share <= 0.5
    ensures -(n + 1.0) <= 2.0 * ((sum + fare) - (exact + share)) <= n + 1.0
  {
  }

  /** Seat by seat, the difference grows by at most half a unit. */
  lemma {:induction false} SeatsNearShare(fare: int, share: real, seats: nat)
    requires -0.5 < fare as real - share <= 0.5
    ensures Near((fare * seats) as real, seats as real * share, seats as real)
  {
    if seats > 0 {
      var n := seats - 1;
      SeatsNearShare(fare, share, n);
      NextSeat((fare * n) as real, n as real * share, fare as real, share, n as real);
      OneSeatMore(fare, share, n);
      assert seats as real == n as real + 1.0;
    } else {
      assert 0.0 * share == 0.0;
    }
  }

  /** So is what a booking of a segment on the route costs. */
  lemma TotalIsShare(price: real, p: real, d: real, seats: nat)
    requires price >= 0.0 && 0.0 <= p <= d <= 1.0
    ensures NearShare(TotalFare(price, p, d, seats), price, p, d, seats)
  {
    FareIsShare(price, p, d);
    TotalIsFareTimesSeats(price, p, d, seats);
    SeatsNearShare(SegmentFare(price, p, d), price * (d - p), seats);
  }

  /** A longer segment never costs less. */
  lemma FareMonotone(price: real, p: real, d: real, p': real, d': real)
    requires price >= 0.0 && p' <= p && d <= d'
    ensures SegmentFare(price, p, d) <= SegmentFare(price, p', d')
  {
    ProratedMonotone(price, p, d, p', d');
    RoundMonotone(Prorated(price, p, d), Prorated(price, p', d'));
  }

  // ---- Splitting a segment -------------------------------------------------

  /** Cut points in increasing order along the route. */
  predicate Cuts(xs: seq<real>) {
    |xs| >= 2 && 0.0 <= xs[0] && xs[|xs| - 1] <= 1.0 && forall i, j :: 0 <= i < j < |xs| ==> xs[i] <= xs[j]
  }

  /** Fare of the consecutive pieces between the cut points. */
  function PiecesFare(price: real, xs: seq<real>, seats: int): int
    requires |xs| >= 2
  {
    var n := |xs| - 1;
    (if n == 1 then 0 else PiecesFare(price, xs[..n], seats)) + TotalFare(price, xs[n - 1], xs[n], seats)
  }

  /** Fare of the pieces for one seat. */
  function PerSeat(price: real, xs: seq<real>): int
    requires |xs| >= 2
  {
    var n := |xs| - 1;
    (if n == 1 then 0 else PerSeat(price, xs[..n])) + SegmentFare(price, xs[n - 1], xs[n])
  }

  lemma {:induction false} PiecesArePerSeat(price: real, xs: seq<real>, seats: int)
    requires |xs| >= 2
    ensures PiecesFare(price, xs, seats) == PerSeat(price, xs) * seats
  {
    var n := |xs| - 1;
    var last := SegmentFare(price, xs[n - 1], xs[n]);
    TotalIsFareTimesSeats(price, xs[n - 1], xs[n], seats);
    if n > 1 {
      PiecesArePerSeat(price, xs[..n], seats);
      Distribute(PerSeat(price, xs[..n]), last, seats);
    }
  }

  lemma Distribute(a: int, b: int, k: int)
    ensures (a + b) * k == a * k + b * k
  {
  }

  lemma FareBounds(price: real, p: real, d: real)
    requires price >= 0.0
    ensures -0.5 < SegmentFare(price, p, d) as real - Prorated(price, p, d) <= 0.5
  {
  }

  /** Along the route, unrounded fares add up. */
  lemma ProratedAdds(price: real, p: real, m: real, d: real)
    requires 0.0 <= p <= m <= d <= 1.0
    ensures Prorated(price, p, m) + Prorated(price, m, d) == Prorated(price, p, d)
  {
  }

  lemma OneMorePiece(n: nat, sum: int, exact: real, fare: int, piece: real)
    requires -(n as real) < 2.0 * (sum as real - exact) <= n as real
    requires -0.5 < fare as real - piece <= 0.5
    ensures -((n + 1) as real) < 2.0 * ((sum + fare) as real - (exact + piece)) <= (n + 1) as real
  {
  }

  /** Each piece is at most half a unit away from its unrounded fare, on one side strictly. */
  lemma {:induction false} PiecesBounds(price: real, xs: seq<real>)
    requires price >= 0.0 && Cuts(xs)
    ensures var n := |xs| - 1;
            -(n as real) < 2.0 * (PerSeat(price, xs) as real - Prorated(price, xs[0], xs[n])) <= n as real
  {
    var n := |xs| - 1;
    FareBounds(price, xs[n - 1], xs[n]);
    if n > 1 {
      PiecesBounds(price, xs[..n]);
      ProratedAdds(price, xs[0], xs[n - 1], xs[n]);
      OneMorePiece(n - 1, PerSeat(price, xs[..n]), Prorated(price, xs[0], xs[n - 1]),
                   SegmentFare(price, xs[n - 1], xs[n]), Prorated(price, xs[n - 1], xs[n]));
    }
  }

  lemma PiecesAgainstWhole(n: nat, sum: int, whole: int, exact: real)
    requires -(n as real) < 2.0 * (sum as real - exact) <= n as real
    requires -0.5 < whole as real - exact <= 0.5
    ensures -(n + 1) < 2 * (sum - whole) < n + 1
  {
  }

  lemma ScaledDifference(a: int, b: int, bound: int, k: nat)
    requires -bound < 2 * (a - b) < bound && k >= 1
    ensures -(k * bound) < 2 * (a * k - b * k) < k * bound
  {
  }

  lemma PerSeatChangesLittle(price: real, xs: seq<real>)
    requires price >= 0.0 && Cuts(xs)
    ensures -|xs| < 2 * (PerSeat(price, xs) - SegmentFare(price, xs[0], xs[|xs| - 1])) < |xs|
  {
    PiecesBounds(price, xs);
    FareBounds(price, xs[0], xs[|xs| - 1]);
    PiecesAgainstWhole(|xs| - 1, PerSeat(price, xs), SegmentFare(price, xs[0], xs[|xs| - 1]),
                       Prorated(price, xs[0], xs[|xs| - 1]));
  }

  /** Splitting a segment into n pieces changes the fare of k seats by strictly less than k(n+1)/2. */
  lemma SplittingChangesLittle(price: real, xs: seq<real>, seats: nat)
    requires price >= 0.0 && Cuts(xs) && seats >= 1
    ensures var diff := PiecesFare(price, xs, seats) - TotalFare(price, xs[0], xs[|xs| - 1], seats);
            -(seats * |xs|) < 2 * diff < seats * |xs|
  {
    var whole := SegmentFare(price, xs[0], xs[|xs| - 1]);
    PiecesArePerSeat(price, xs, seats);
    TotalIsFareTimesSeats(price, xs[0], xs[|xs| - 1], seats);
    PerSeatChangesLittle(price, xs);
    ScaledDifference(PerSeat(price, xs), whole, |xs|, seats);
  }

  /** One split changes the fare of one seat by at most 1. */
  lemma OneSplitChangesAtMostOne(price: real, p: real, m: real, d: real)
    requires price >= 0.0 && 0.0 <= p <= m <= d <= 1.0
    ensures var diff := SegmentFare(price, p, m) + SegmentFare(price, m, d) - SegmentFare(price, p, d);
            -1 <= diff <= 1
  {
  }

  // ---- Reading a fare back -------------------------------------------------

  /** The figures shown with a booking, recomputed from the ride's current price. */
  datatype Breakdown = Breakdown(fullPerSeat: int, coveragePct: int, segmentPerSeat: int, totalFull: int, savings: int)

  function BreakdownOf(pickup: real, dropoff: real, seats: int, totalPrice: int, price: real): Breakdown {
    var totalFull := RoundMoney(Times(price, seats));
    var savings := RoundMoney(totalFull as real - totalPrice as real);
    Breakdown(RoundMoney(price), RoundMoney(Clamp01(dropoff - pickup) * 100.0), SegmentFare(price, pickup, dropoff),
              totalFull, if savings < 0 then 0 else savings)
  }

  /** A booking as loaded for display; its fare figures are filled in from the ride's price. */
  class BookingView {
    const pickupFraction: real
    const dropoffFraction: real
    const seats: int
    const totalPrice: int
    var fullRoutePricePerSeat: int
    var segmentCoveragePct: int
    var segmentPricePerSeat: int
    var totalFullPrice: int
    var totalSavings: int

    constructor (b: Booking)
      ensures pickupFraction == b.pickup && dropoffFraction == b.dropoff
      ensures seats == b.seats && totalPrice == b.totalPrice
    {
      pickupFraction, dropoffFraction, seats, totalPrice := b.pickup, b.dropoff, b.seats, b.totalPrice;
      fullRoutePricePerSeat, segmentCoveragePct, segmentPricePerSeat, totalFullPrice, totalSavings := 0, 0, 0, 0, 0;
    }

    ghost function Shown(): Breakdown
      reads this
    {
      Breakdown(fullRoutePricePerSeat, segmentCoveragePct, segmentPricePerSeat, totalFullPrice, totalSavings)
    }

    method ApplySegmentPricing(fullRoutePricePerSeat: real)
      modifies this
      ensures Shown() == BreakdownOf(pickupFraction, dropoffFraction, seats, totalPrice, fullRoutePricePerSeat)
    {
      var coverage := Clamp01(dropoffFraction - pickupFraction);
      this.fullRoutePricePerSeat := RoundMoney(fullRoutePricePerSeat);
      segmentCoveragePct := RoundMoney(coverage * 100.0);
      segmentPricePerSeat := RoundMoney(Prorated(fullRoutePricePerSeat, pickupFraction, dropoffFraction));
      totalFullPrice := RoundMoney(Times(fullRoutePricePerSeat, seats));
      totalSavings := RoundMoney(totalFullPrice as real - totalPrice as real);
      if totalSavings < 0 {
        totalSavings := 0;
      }
    }
  }

  function ShownFor(b: Booking, price: real): Breakdown {
    BreakdownOf(b.pickup, b.dropoff, b.seats, b.totalPrice, price)
  }

  /** What the figures of a booking on the route mean: each is its exact value to the nearest unit. */
  lemma BreakdownMeans(b: Booking, price: real)
    requires price >= 0.0 && 0.0 <= b.pickup <= b.dropoff <= 1.0
    ensures var s := ShownFor(b, price);
            && -0.5 < s.fullPerSeat as real - price <= 0.5
            && -0.5 < s.coveragePct as real - 100.0 * (b.dropoff - b.pickup) <= 0.5
            && -0.5 < s.segmentPerSeat as real - price * (b.dropoff - b.pickup) <= 0.5
            && -0.5 < s.totalFull as real - price * b.seats as real <= 0.5
            && s.savings == if s.totalFull > b.totalPrice then s.totalFull - b.totalPrice else 0
  {
    RoundBounds(price);
    RoundBounds(100.0 * (b.dropoff - b.pickup));
    FareIsShare(price, b.pickup, b.dropoff);
    ProductMonotone(price, 0.0, b.seats as real);
    RoundBounds(price * b.seats as real);
    IntegerDifference(ShownFor(b, price).totalFull, b.totalPrice);
  }

  lemma {:induction false} BookingsKeepFares(d: Db, ts: seq<Txn>, i: nat)
    requires i < |d.bookings|
    ensures i < |Run(d, ts).bookings| && Run(d, ts).bookings[i].(status := d.bookings[i].status) == d.bookings[i]
  {
    if ts != [] {
      BookingsKeepFares(d, ts[..|ts| - 1], i);
      ExecKeepsRows(Run(d, ts[..|ts| - 1]), ts[|ts| - 1]);
    }
  }

  /**
   After any later run, the recomputed fare per seat times the seats is the stored total exactly
   when the ride's price now gives the same segment fare as when the booking was made.
   */
  lemma ReadBackIff(d: Db, now: int, rider: UserId, req: CreateRequest, more: seq<Txn>)
    requires CreateTx(d, now, rider, req).Ok? && req.ride < |Run(CreateTx(d, now, rider, req).db, more).rides|
    ensures var d' := Run(CreateTx(d, now, rider, req).db, more);
            && |d.bookings| < |d'.bookings|
            && var b, price := d'.bookings[|d.bookings|], d'.rides[req.ride].price;
               ShownFor(b, price).segmentPerSeat * b.seats == b.totalPrice <==>
               SegmentFare(price, b.pickup, b.dropoff) == SegmentFare(d.rides[req.ride].price, b.pickup, b.dropoff)
  {
    var made := CreateTx(d, now, rider, req).db;
    BookingsKeepFares(made, more, |d.bookings|);
    var b := Run(made, more).bookings[|d.bookings|];
    TotalIsFareTimesSeats(d.rides[req.ride].price, b.pickup, b.dropoff, b.seats);
    EqualProducts(ShownFor(b, Run(made, more).rides[req.ride].price).segmentPerSeat,
                  SegmentFare(d.rides[req.ride].price, b.pickup, b.dropoff), b.seats);
  }

  lemma EqualProducts(a: int, b: int, k: nat)
    requires k >= 1
    ensures a * k == b * k <==> a == b
  {
  }

  lemma NatProduct(a: int, b: int, k: nat)
    requires a <= b
    ensures a * k <= b * k
  {
  }

  /** With a whole-unit price, what is paid and what is saved add up to the full-route price. */
  lemma PaidPlusSavedIsFull(b: Booking, price: int)
    requires price >= 0 && b.totalPrice == TotalFare(price as real, b.pickup, b.dropoff, b.seats)
    ensures b.totalPrice + ShownFor(b, price as real).savings == ShownFor(b, price as real).totalFull
  {
    var fare := SegmentFare(price as real, b.pickup, b.dropoff);
    TotalIsFareTimesSeats(price as real, b.pickup, b.dropoff, b.seats);
    FareWithinPrice(price, b.pickup, b.dropoff);
    NatProduct(fare, price, b.seats);
    TimesInteger(price, b.seats);
    IntegerDifference(price * b.seats, b.totalPrice);
  }

  lemma FareWithinPrice(price: int, p: real, d: real)
    requires price >= 0
    ensures SegmentFare(price as real, p, d) <= price
  {
  }

  lemma IntegerDifference(a: int, b: int)
    ensures RoundMoney(a as real - b as real) == a - b
  {
  }

  /** With any price, the fare exceeds the full-route price by less than (seats + 1) / 2. */
  lemma PaidExceedsFullByLittle(b: Booking, price: real)
    requires price >= 0.0 && b.seats >= 1 && b.totalPrice == TotalFare(price, b.pickup, b.dropoff, b.seats)
    ensures 2 * (b.totalPrice - ShownFor(b, price).totalFull) < b.seats + 1
  {
    var fare := SegmentFare(price, b.pickup, b.dropoff);
    TotalIsFareTimesSeats(price, b.pickup, b.dropoff, b.seats);
    FareBounds(price, b.pickup, b.dropoff);
    ProratedMonotone(price, b.pickup, b.dropoff, b.pickup, b.dropoff);
    FareTimesSeats(fare, price, b.seats);
    RoundBounds(Times(price, b.seats));
  }

  lemma FareTimesSeats(fare: int, price: real, seats: nat)
    requires fare as real <= price + 0.5 && price >= 0.0
    ensures Times(price, seats) >= 0.0
    ensures (fare * seats) as real <= Times(price, seats) + 0.5 * seats as real
  {
    var k := seats as real;
    ProductMonotone(k, fare as real, price + 0.5);
    assert (fare * seats) as real == fare as real * k;
    assert k * (price + 0.5) == price * k + 0.5 * k;
  }
}
