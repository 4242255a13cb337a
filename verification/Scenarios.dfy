/** Runs that show the bounds are reached and what fails without their conditions. */
module Scenarios {
  import opened Sums
  import opened Model
  import opened Fares
  import opened Transactions
  import opened Capacity
  import opened Seats
  import opened Endpoints
  import opened Search
  import opened MatchCache

  const DEPARTURE := 2 * HOUR

  function Ask(rider: UserId, seats: int, pickup: real, dropoff: real): Txn {
    Create(0, rider, CreateRequest("", 0, seats, pickup, dropoff, true, true))
  }

  function Offer(total: int): Txn {
    RideCreate(0, "driver", 0, DEPARTURE, total, 100.0)
  }

  function Offered(total: nat, available: nat): Ride {
    Ride("driver", 0, DEPARTURE, total, available, 100.0, RideStatus.Scheduled)
  }

  function Asked(rider: UserId, seats: nat, pickup: real, dropoff: real, s: BookingStatus): Booking {
    Booking(0, rider, seats, s, pickup, dropoff, TotalFare(100.0, pickup, dropoff, seats), "")
  }

  lemma SumOfOne(w: seq<nat>)
    requires |w| == 1
    ensures Sum(w) == w[0]
  {
  }

  lemma SumOfTwo(w: seq<nat>)
    requires |w| == 2
    ensures Sum(w) == w[0] + w[1]
  {
    SumOfOne(w[..1]);
  }

  /** Two riders whose segments share 2% of the route, both confirmed on a one-seat ride. */
  function SharedMiddle(): seq<Txn> {
    [Offer(1), Ask("ann", 1, 0.0, 0.51), Ask("bob", 1, 0.49, 1.0)] + [Confirm(0, "driver"), Confirm(1, "driver")]
  }

  lemma SharedMiddleState()
    ensures Run(EMPTY, SharedMiddle()) ==
            Db([Offered(1, 0)],
               [Asked("ann", 1, 0.0, 0.51, BookingStatus.Confirmed), Asked("bob", 1, 0.49, 1.0, BookingStatus.Confirmed)])
  {
    var a, b := Asked("ann", 1, 0.0, 0.51, BookingStatus.Pending), Asked("bob", 1, 0.49, 1.0, BookingStatus.Pending);
    var a', b' := a.(status := BookingStatus.Confirmed), b.(status := BookingStatus.Confirmed);
    var d1, d2 := Db([Offered(1, 1)], []), Db([Offered(1, 1)], [a]);
    var d3 := Db([Offered(1, 1)], [a, b]);
    var d4 := Db([Offered(1, 0)], [a', b]);
    var t := SharedMiddle();
    assert Exec(EMPTY, t[0]) == d1;
    assert Exec(d1, t[1]) == d2;
    SumOfOne(OccupiedWeights([a], 0, 0.49, 1.0));
    assert Exec(d2, t[2]) == d3;
    SumOfTwo(OccupiedWeights([a, b], 0, 0.0, 0.51));
    assert Exec(d3, t[3]) == d4;
    SumOfTwo(OccupiedWeights([a', b], 0, 0.49, 1.0));
    assert Exec(d4, t[4]) == Db([Offered(1, 0)], [a', b']);
    RunOne(EMPTY, t[0]);
    RunSnoc(EMPTY, [t[0]], t[1]);
    RunSnoc(EMPTY, [t[0]] + [t[1]], t[2]);
    RunSnoc(EMPTY, [t[0]] + [t[1]] + [t[2]], t[3]);
    RunSnoc(EMPTY, [t[0]] + [t[1]] + [t[2]] + [t[3]], t[4]);
    assert t == [t[0]] + [t[1]] + [t[2]] + [t[3]] + [t[4]];
  }

  /** The bound of twice the total is reached with segments longer than half the route. */
  lemma TwiceTheTotalIsReached()
    ensures var d := Run(EMPTY, SharedMiddle());
            |d.rides| == 1 && LongSegments(d.bookings, 0, 2) && TrueLoad(d.bookings, 0, 0.5) == 2 * d.rides[0].total
  {
    SharedMiddleState();
    SumOfTwo(TrueWeights(Run(EMPTY, SharedMiddle()).bookings, 0, 0.5));
  }

  /**
   After the two confirmations clip the counter, both riders' cancellations pass the endpoint's
   guard; the first succeeds and the second rolls back.
   */
  lemma SecondCancelRollsBack()
    ensures var d := Run(EMPTY, SharedMiddle());
            && CancelGuard(d, 0, "ann", 0).Pass? && Serve(d, CallCancel(0, 0, "ann")).Ok?
            && var d' := ServeDb(d, CallCancel(0, 0, "ann"));
               CancelGuard(d', 1, "bob", 0).Pass? && Serve(d', CallCancel(0, 1, "bob")) == Fail(CheckViolation)
  {
    SharedMiddleState();
  }

  function AnnsBooking(s: BookingStatus): Booking {
    Asked("ann", 2, 0.0, 1.0, s)
  }

  lemma TwoSeatsAreTaken()
    ensures Exec(EMPTY, Offer(2)) == Db([Offered(2, 2)], [])
    ensures Exec(Db([Offered(2, 2)], []), Ask("ann", 2, 0.0, 1.0)) == Db([Offered(2, 2)], [AnnsBooking(BookingStatus.Pending)])
    ensures Exec(Db([Offered(2, 2)], [AnnsBooking(BookingStatus.Pending)]), Confirm(0, "driver"))
            == Db([Offered(2, 0)], [AnnsBooking(BookingStatus.Confirmed)])
  {
    SumOfOne(OccupiedWeights([AnnsBooking(BookingStatus.Pending)], 0, 0.0, 1.0));
  }

  const LOWERING := RideUpdate(0, 0, "driver", DEPARTURE, 1, 0.0)

  lemma TheTotalIsLowered()
    ensures Exec(Db([Offered(2, 0)], [AnnsBooking(BookingStatus.Confirmed)]), LOWERING)
            == Db([Offered(1, 0)], [AnnsBooking(BookingStatus.Confirmed)])
  {
  }

  lemma LoweredState()
    ensures Run(EMPTY, [Offer(2)] + [Ask("ann", 2, 0.0, 1.0)] + [Confirm(0, "driver")] + [LOWERING])
            == Db([Offered(1, 0)], [AnnsBooking(BookingStatus.Confirmed)])
  {
    TwoSeatsAreTaken();
    TheTotalIsLowered();
    RunOne(EMPTY, Offer(2));
    RunSnoc(EMPTY, [Offer(2)], Ask("ann", 2, 0.0, 1.0));
    RunSnoc(EMPTY, [Offer(2)] + [Ask("ann", 2, 0.0, 1.0)], Confirm(0, "driver"));
    RunSnoc(EMPTY, [Offer(2)] + [Ask("ann", 2, 0.0, 1.0)] + [Confirm(0, "driver")], LOWERING);
  }

  /** Lowering the total is not checked against occupancy, so the current total can be exceeded. */
  lemma LoweredTotalIsExceeded()
    ensures var d := Run(EMPTY, [Offer(2)] + [Ask("ann", 2, 0.0, 1.0)] + [Confirm(0, "driver")] + [LOWERING]);
            |d.rides| == 1 && Load(d.bookings, 0, 0.5) > d.rides[0].total
  {
    LoweredState();
    SumOfOne(LoadWeights([AnnsBooking(BookingStatus.Confirmed)], 0, 0.5));
  }

  // ---- Segments too short to overlap themselves ----------------------------

  function Name(n: nat): UserId {
    if n == 0 then "r" else Name(n - 1) + "r"
  }

  lemma {:induction false} NamesDiffer(n: nat)
    ensures |Name(n)| == n + 1 && Name(n)[0] == 'r'
  {
    if n > 0 {
      NamesDiffer(n - 1);
    }
  }

  /** Staggered segments: each starts a step after the one before. */
  datatype Stagger = Stagger(length: real, step: real)

  function Pickup(g: Stagger, i: nat): real {
    0.5 + g.step * i as real
  }

  /** Up to n segments stay away from the ends, and no two of them overlap by more than the tolerance. */
  predicate Apart(g: Stagger, n: nat) {
    0.0 < g.length <= 0.02 + g.step && 0.0 <= g.step && g.step * n as real + g.length <= 0.45
  }

  function AskAt(g: Stagger, i: nat): Txn {
    Ask(Name(i), 1, Pickup(g, i), Pickup(g, i) + g.length)
  }

  /** n riders booked and confirmed on staggered segments of a one-seat ride. */
  function Stack(g: Stagger, n: nat): seq<Txn> {
    if n == 0 then [Offer(1)] else Stack(g, n - 1) + [AskAt(g, n - 1)] + [Confirm(n - 1, "driver")]
  }

  function StackedBooking(g: Stagger, i: nat, s: BookingStatus): Booking {
    Asked(Name(i), 1, Pickup(g, i), Pickup(g, i) + g.length, s)
  }

  ghost predicate Stacked(g: Stagger, d: Db, n: nat) {
    && |d.rides| == 1 && |d.bookings| == n
    && (d.rides[0] == Offered(1, 1) || d.rides[0] == Offered(1, 0))
    && (forall i :: 0 <= i < n ==> d.bookings[i] == StackedBooking(g, i, BookingStatus.Confirmed))
  }

  lemma PickupsAscend(g: Stagger, i: nat, j: nat)
    requires i < j && g.step >= 0.0
    ensures Pickup(g, i) + g.step <= Pickup(g, j)
  {
    assert g.step * (j - i - 1) as real >= 0.0;
    assert g.step * j as real == g.step * i as real + g.step + g.step * (j - i - 1) as real;
  }

  lemma PickupsFit(g: Stagger, i: nat, n: nat)
    requires i <= n && Apart(g, n)
    ensures 0.5 <= Pickup(g, i) && Pickup(g, i) + g.length <= 0.95
  {
    assert g.step * (n - i) as real >= 0.0;
    assert g.step * n as real == g.step * i as real + g.step * (n - i) as real;
  }

  lemma NobodyInTheWay(g: Stagger, bs: seq<Booking>, n: nat)
    requires Apart(g, n) && n <= |bs|
    requires forall i :: 0 <= i < n ==> bs[i] == StackedBooking(g, i, BookingStatus.Confirmed)
    requires forall i :: n <= i < |bs| ==> bs[i].status.Pending?
    ensures Occupied(bs, 0, Pickup(g, n), Pickup(g, n) + g.length) == 0
  {
    forall i | 0 <= i < n
      ensures bs[i].dropoff - 0.02 <= Pickup(g, n)
    {
      PickupsAscend(g, i, n);
    }
    SumZero(OccupiedWeights(bs, 0, Pickup(g, n), Pickup(g, n) + g.length));
  }

  lemma AskLands(g: Stagger, d: Db, n: nat)
    requires Apart(g, n) && Stacked(g, d, n)
    ensures Exec(d, AskAt(g, n)) == d.(bookings := d.bookings + [StackedBooking(g, n, BookingStatus.Pending)])
  {
    NamesDiffer(n);
    forall i | 0 <= i < n
      ensures d.bookings[i].rider != Name(n)
    {
      NamesDiffer(i);
    }
    assert Name(n) != "driver";
    PickupsFit(g, n, n);
    NobodyInTheWay(g, d.bookings, n);
  }

  lemma ConfirmLands(g: Stagger, d: Db, d1: Db, n: nat)
    requires Apart(g, n) && Stacked(g, d, n)
    requires d1 == d.(bookings := d.bookings + [StackedBooking(g, n, BookingStatus.Pending)])
    ensures Stacked(g, Exec(d1, Confirm(n, "driver")), n + 1)
  {
    NobodyInTheWay(g, d1.bookings, n);
  }

  lemma StackOneMore(g: Stagger, d: Db, n: nat)
    requires Apart(g, n) && Stacked(g, d, n)
    ensures Stacked(g, Exec(Exec(d, AskAt(g, n)), Confirm(n, "driver")), n + 1)
  {
    AskLands(g, d, n);
    ConfirmLands(g, d, Exec(d, AskAt(g, n)), n);
  }

  lemma ApartBelow(g: Stagger, n: nat, limit: nat)
    requires n <= limit && Apart(g, limit)
    ensures Apart(g, n)
  {
    PickupsFit(g, n, limit);
  }

  lemma StackBegins(g: Stagger)
    ensures Stacked(g, Run(EMPTY, Stack(g, 0)), 0)
  {
    RunOne(EMPTY, Offer(1));
  }

  lemma StackGrows(g: Stagger, n: nat)
    ensures Run(EMPTY, Stack(g, n + 1)) == Exec(Exec(Run(EMPTY, Stack(g, n)), AskAt(g, n)), Confirm(n, "driver"))
  {
    RunSnoc(EMPTY, Stack(g, n), AskAt(g, n));
    RunSnoc(EMPTY, Stack(g, n) + [AskAt(g, n)], Confirm(n, "driver"));
  }

  lemma StackStep(g: Stagger, n: nat, limit: nat)
    requires n <= limit && Apart(g, limit) && Stacked(g, Run(EMPTY, Stack(g, n)), n)
    ensures Stacked(g, Run(EMPTY, Stack(g, n + 1)), n + 1)
  {
    ApartBelow(g, n, limit);
    StackGrows(g, n);
    StackOneMore(g, Run(EMPTY, Stack(g, n)), n);
  }

  lemma {:induction false} StackState(g: Stagger, n: nat, limit: nat)
    requires n <= limit && Apart(g, limit)
    ensures Stacked(g, Run(EMPTY, Stack(g, n)), n)
  {
    if n == 0 {
      StackBegins(g);
    } else {
      StackState(g, n - 1, limit);
      StackStep(g, n - 1, limit);
    }
  }

  lemma {:induction false} SumOfOnes(w: seq<nat>)
    requires forall i :: 0 <= i < |w| ==> w[i] == 1
    ensures Sum(w) == |w|
  {
    if |w| > 0 {
      SumOfOnes(w[..|w| - 1]);
    }
  }

  lemma PickupsInOrder(g: Stagger, i: nat, j: nat)
    requires i <= j && g.step >= 0.0
    ensures Pickup(g, i) <= Pickup(g, j)
  {
    if i < j {
      PickupsAscend(g, i, j);
    }
  }

  lemma Between(first: real, mine: real, last: real, length: real, x: real)
    requires first <= mine <= last < first + length && x == (last + first + length) / 2.0
    ensures mine < x < mine + length
  {
  }

  lemma CoversThePoint(g: Stagger, n: nat, i: nat, x: real)
    requires i < n && Apart(g, n) && g.step * (n - 1) as real < g.length
    requires x == (Pickup(g, n - 1) + Pickup(g, 0) + g.length) / 2.0
    ensures Pickup(g, i) < x < Pickup(g, i) + g.length
  {
    PickupsInOrder(g, 0, i);
    PickupsInOrder(g, i, n - 1);
    assert Pickup(g, 0) == 0.5;
    Between(Pickup(g, 0), Pickup(g, i), Pickup(g, n - 1), g.length, x);
  }

  lemma StackedLoad(g: Stagger, d: Db, n: nat, x: real)
    requires Stacked(g, d, n)
    requires forall i :: 0 <= i < n ==> Pickup(g, i) < x < Pickup(g, i) + g.length
    ensures TrueLoad(d.bookings, 0, x) == n
  {
    SumOfOnes(TrueWeights(d.bookings, 0, x));
  }

  /** When the last segment starts before the first one ends, all of them share a point. */
  lemma AllShareAPoint(g: Stagger, d: Db, n: nat) returns (x: real)
    requires n > 0 && Apart(g, n) && g.step * (n - 1) as real < g.length && Stacked(g, d, n)
    ensures TrueLoad(d.bookings, 0, x) == n
  {
    x := (Pickup(g, n - 1) + Pickup(g, 0) + g.length) / 2.0;
    forall i | 0 <= i < n
      ensures Pickup(g, i) < x < Pickup(g, i) + g.length
    {
      CoversThePoint(g, n, i, x);
    }
    StackedLoad(g, d, n, x);
  }

  /** Without a length condition no bound holds: any number of riders can share a short stretch of a one-seat ride. */
  lemma ShortSegmentsHaveNoBound(n: nat)
    ensures var d := Run(EMPTY, Stack(Stagger(0.02, 0.0), n));
            |d.rides| == 1 && d.rides[0].total == 1 && exists x :: TrueLoad(d.bookings, 0, x) == n
  {
    var g := Stagger(0.02, 0.0);
    StackState(g, n, n);
    if n == 0 {
      assert TrueLoad(Run(EMPTY, Stack(g, 0)).bookings, 0, 0.5) == 0;
    } else {
      var x := AllShareAPoint(g, Run(EMPTY, Stack(g, n)), n);
    }
  }

  /** The staggering of k + 1 segments of a length for which k points leave a gap. */
  lemma LengthLeavesAGap(length: real, k: nat)
    requires k >= 2 && 0.02 < length && length * (k - 1) as real < 0.02 * k as real
    ensures var g := Stagger(length, length - 0.02); Apart(g, k + 1) && g.step * k as real < g.length
  {
    var m := (k - 1) as real;
    assert k as real == m + 1.0 && (k + 1) as real == m + 2.0;
    StepFits(length, length - 0.02, m);
  }

  lemma StepFits(length: real, step: real, m: real)
    requires m >= 1.0 && step > 0.0 && length == step + 0.02 && length * m < 0.02 * (m + 1.0)
    ensures step < 0.02 && step * (m + 1.0) < length && step * (m + 2.0) + length <= 0.45
  {
    var a := step * m;
    assert length * m == a + 0.02 * m;
    assert a < 0.02;
    assert step <= a;
    assert step * (m + 1.0) == a + step && step * (m + 2.0) == a + 2.0 * step;
  }

  lemma StackLengths(g: Stagger, d: Db, n: nat)
    requires Stacked(g, d, n)
    ensures |d.rides| == 1 && d.rides[0].total == 1
    ensures forall i :: 0 <= i < |d.bookings| ==> d.bookings[i].dropoff - d.bookings[i].pickup == g.length
  {
  }

  lemma StackExceeds(g: Stagger, n: nat) returns (x: real)
    requires n > 0 && Apart(g, n) && g.step * (n - 1) as real < g.length
    ensures var d := Run(EMPTY, Stack(g, n));
            && |d.rides| == 1 && d.rides[0].total == 1
            && (forall i :: 0 <= i < |d.bookings| ==> d.bookings[i].dropoff - d.bookings[i].pickup == g.length)
            && TrueLoad(d.bookings, 0, x) == n
  {
    var d := Run(EMPTY, Stack(g, n));
    StackState(g, n, n);
    StackLengths(g, d, n);
    x := AllShareAPoint(g, d, n);
  }

  /**
   The length in the bound of k times the total is sharp: with segments any shorter, k + 1 riders
   can share a point of a one-seat ride.
   */
  lemma ShorterSegmentsExceed(length: real, k: nat) returns (ts: seq<Txn>, x: real)
    requires k >= 2 && 0.02 < length && length * (k - 1) as real < 0.02 * k as real
    ensures var d := Run(EMPTY, ts);
            && |d.rides| == 1 && d.rides[0].total == 1
            && (forall i :: 0 <= i < |d.bookings| ==> d.bookings[i].dropoff - d.bookings[i].pickup == length)
            && TrueLoad(d.bookings, 0, x) == k + 1
  {
    var g, n := Stagger(length, length - 0.02), k + 1;
    LengthLeavesAGap(length, k);
    ts := Stack(g, n);
    x := StackExceeds(g, n);
  }

  // ---- A whole trip --------------------------------------------------------

  /** The last accepted call's tables, when every call of the list is accepted in turn. */
  ghost predicate Accepts(d: Db, calls: seq<Call>, d': Db)
    decreases |calls|
  {
    if calls == [] then d' == d
    else Serve(d, calls[0]).Ok? && Accepts(ServeDb(d, calls[0]), calls[1..], d')
  }

  lemma AcceptsOne(d: Db, c: Call, mid: Db, more: seq<Call>, d': Db)
    requires Serve(d, c).Ok? && ServeDb(d, c) == mid && Accepts(mid, more, d')
    ensures Accepts(d, [c] + more, d')
  {
  }

  function Trip(available: nat, ride: RideStatus, booking: BookingStatus): Db {
    Db([Offered(1, available).(status := ride)], [Asked("ann", 1, 0.0, 1.0, booking)])
  }

  /** The calls of an ordinary trip, in order. */
  function TripCall(k: nat): Call {
    if k == 0 then CallRideCreate(0, "driver", 0, DEPARTURE, 1, 100.0)
    else if k == 1 then CallCreate(0, "ann", CreateRequest("", 0, 1, 0.0, 1.0, true, true))
    else if k == 2 then CallConfirm(0, "driver")
    else if k == 3 then CallReady(DEPARTURE, 0, "ann", true)
    else if k == 4 then CallStart(DEPARTURE, 0, "driver")
    else if k == 5 then CallPickUp(0, "driver", true)
    else CallDrop(0, "driver")
  }

  /** The tables before each of the calls. */
  function TripState(k: nat): Db {
    if k == 0 then EMPTY
    else if k == 1 then Db([Offered(1, 1)], [])
    else if k == 2 then Trip(1, RideStatus.Scheduled, BookingStatus.Pending)
    else if k == 3 then Trip(0, RideStatus.Scheduled, BookingStatus.Confirmed)
    else if k == 4 then Trip(0, RideStatus.Scheduled, BookingStatus.RiderReady)
    else if k == 5 then Trip(0, RideStatus.Active, BookingStatus.RiderReady)
    else if k == 6 then Trip(0, RideStatus.Active, BookingStatus.PickedUp)
    else Trip(0, RideStatus.Completed, BookingStatus.Completed)
  }

  function TripCalls(k: nat): seq<Call>
    decreases 7 - k
  {
    if k >= 7 then [] else [TripCall(k)] + TripCalls(k + 1)
  }

  lemma TripBegins(k: nat)
    requires k < 3
    ensures Serve(TripState(k), TripCall(k)) == Ok(TripState(k + 1), 0)
  {
  }

  lemma TripGoesOn(k: nat)
    requires 3 <= k < 7
    ensures Serve(TripState(k), TripCall(k)) == Ok(TripState(k + 1), 0)
  {
  }

  /** From offer to drop-off: every endpoint of the ordinary trip accepts, and the ride completes by itself. */
  lemma {:induction false} WholeTrip(k: nat)
    requires k <= 7
    ensures Accepts(TripState(k), TripCalls(k), TripState(7))
    decreases 7 - k
  {
    if k < 7 {
      if k < 3 { TripBegins(k); } else { TripGoesOn(k); }
      WholeTrip(k + 1);
      AcceptsOne(TripState(k), TripCall(k), TripState(k + 1), TripCalls(k + 1), TripState(7));
    }
  }

  // ---- A stale answer ------------------------------------------------------

  /** Every origin is the start of the route and every destination its end. */
  function EndToEnd(): Context {
    Context(Geo((route, lat, lng) => if lat == 1.0 then 0.0 else 1.0, (route, lat, lng) => 0.0), user => 5.0, 0)
  }

  const WHOLE_ROUTE := Query(1.0, 1.0, 2.0, 2.0, 5000.0, 1)

  /** A confirmed trip whose ride is cancelled, set active by hand before its cascade runs, searched, and then cascaded. */
  function RevivedVisit(k: nat): Visit {
    if k < 3 then Act(Request(TripCall(k)))
    else if k == 3 then Act(Request(CallRideCancel(0, 0, "driver")))
    else if k == 4 then Act(Request(CallManualStatus(0, "driver", RideStatus.Active)))
    else if k == 5 then Find(WHOLE_ROUTE)
    else Act(Cascade(0))
  }

  function RevivedVisits(k: nat): seq<Visit> {
    if k == 0 then [] else RevivedVisits(k - 1) + [RevivedVisit(k - 1)]
  }

  lemma OneVisit(k: nat)
    requires k > 0
    ensures Session(RevivedVisits(k), EndToEnd(), "bob")
            == Visited(Session(RevivedVisits(k - 1), EndToEnd(), "bob"), EndToEnd(), "bob", RevivedVisit(k - 1))
  {
    assert RevivedVisits(k)[..|RevivedVisits(k)| - 1] == RevivedVisits(k - 1);
  }

  lemma {:induction false} ConfirmedVisits(k: nat)
    requires k <= 3
    ensures Session(RevivedVisits(k), EndToEnd(), "bob") == Site(World(TripState(k), {}), map[])
  {
    if k > 0 {
      ConfirmedVisits(k - 1);
      OneVisit(k);
      TripBegins(k - 1);
    }
  }

  lemma RideCancelledByHand()
    ensures Serve(TripState(3), CallRideCancel(0, 0, "driver"))
            == Ok(Trip(0, RideStatus.Cancelled, BookingStatus.Confirmed), 0)
    ensures Serve(Trip(0, RideStatus.Cancelled, BookingStatus.Confirmed), CallManualStatus(0, "driver", RideStatus.Active))
            == Ok(Trip(0, RideStatus.Active, BookingStatus.Confirmed), 0)
  {
  }

  lemma RevivedIsReached()
    ensures Session(RevivedVisits(5), EndToEnd(), "bob")
            == Site(World(Trip(0, RideStatus.Active, BookingStatus.Confirmed), {0}), map[])
  {
    ConfirmedVisits(3);
    RideCancelledByHand();
    OneVisit(4);
    OneVisit(5);
  }

  lemma FullThenFree()
    ensures !Listed(Trip(0, RideStatus.Active, BookingStatus.Confirmed), EndToEnd(), WHOLE_ROUTE, "bob", 0)
    ensures Listed(Trip(0, RideStatus.Active, BookingStatus.Cancelled), EndToEnd(), WHOLE_ROUTE, "bob", 0)
  {
    SumOfOne(OccupiedWeights(Trip(0, RideStatus.Active, BookingStatus.Confirmed).bookings, 0, 0.0, 1.0));
    SumOfOne(OccupiedWeights(Trip(0, RideStatus.Active, BookingStatus.Cancelled).bookings, 0, 0.0, 1.0));
  }

  lemma CascadedTrip()
    ensures Cascaded(Trip(0, RideStatus.Active, BookingStatus.Confirmed), 0)
            == Trip(0, RideStatus.Active, BookingStatus.Cancelled)
  {
  }

  lemma EmptyAnswer()
    ensures FindNearby(Trip(0, RideStatus.Active, BookingStatus.Confirmed), EndToEnd(), WHOLE_ROUTE, "bob") == []
  {
    var d := Trip(0, RideStatus.Active, BookingStatus.Confirmed);
    FullThenFree();
    assert RowsUpTo(d, EndToEnd(), WHOLE_ROUTE, "bob", 0) == [];
  }

  lemma FreshAnswer()
    ensures FindNearby(Trip(0, RideStatus.Active, BookingStatus.Cancelled), EndToEnd(), WHOLE_ROUTE, "bob") != []
  {
    FullThenFree();
    RowsAreListed(Trip(0, RideStatus.Active, BookingStatus.Cancelled), EndToEnd(), WHOLE_ROUTE, "bob", 1, 0);
  }

  lemma SearchedIsReached()
    ensures Session(RevivedVisits(6), EndToEnd(), "bob")
            == Site(World(Trip(0, RideStatus.Active, BookingStatus.Confirmed), {0}), map[NearbyKey(WHOLE_ROUTE) := []])
  {
    RevivedIsReached();
    EmptyAnswer();
    OneVisit(6);
  }

  lemma CascadedIsReached()
    ensures Session(RevivedVisits(7), EndToEnd(), "bob")
            == Site(World(Trip(0, RideStatus.Active, BookingStatus.Cancelled), {}), map[NearbyKey(WHOLE_ROUTE) := []])
  {
    SearchedIsReached();
    CascadedTrip();
    OneVisit(7);
  }

  lemma ProperQuery()
    ensures OnRoute(EndToEnd()) && OnGrid(WHOLE_ROUTE)
  {
  }

  /** The cascade runs after the answer was cached: the cache says no ride, the tables offer one. */
  lemma RevivedRideGoesStale()
    ensures OnRoute(EndToEnd()) && OnGrid(WHOLE_ROUTE)
    ensures var s := Session(RevivedVisits(7), EndToEnd(), "bob");
            Answer(s, EndToEnd(), "bob", WHOLE_ROUTE) == [] != FindNearby(s.world.db, EndToEnd(), WHOLE_ROUTE, "bob")
  {
    ProperQuery();
    CascadedIsReached();
    FreshAnswer();
  }
}
