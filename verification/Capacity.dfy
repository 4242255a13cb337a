/** Seats on the road: what the segment capacity test implies at every point of a route. */
module Capacity {
  import opened Sums
  import opened Model
  import opened Transactions

  /** The part of a segment that lies more than half the tolerance inside both ends. */
  predicate Inside(b: Booking, x: real) {
    b.pickup + 0.01 < x < b.dropoff - 0.01
  }

  function LoadWeight(b: Booking, ride: nat, x: real): nat {
    if b.ride == ride && Occupies(b.status) && Inside(b, x) then b.seats else 0
  }

  function LoadWeights(bs: seq<Booking>, ride: nat, x: real): seq<nat> {
    seq(|bs|, i requires 0 <= i < |bs| => LoadWeight(bs[i], ride, x))
  }

  /** Seats taken at point x, each segment shrunk by half the tolerance at both ends. */
  function Load(bs: seq<Booking>, ride: nat, x: real): nat {
    Sum(LoadWeights(bs, ride, x))
  }

  function TrueWeight(b: Booking, ride: nat, x: real): nat {
    if b.ride == ride && Occupies(b.status) && b.pickup < x < b.dropoff then b.seats else 0
  }

  function TrueWeights(bs: seq<Booking>, ride: nat, x: real): seq<nat> {
    seq(|bs|, i requires 0 <= i < |bs| => TrueWeight(bs[i], ride, x))
  }

  /** Seats taken at point x by the segments as stored. */
  function TrueLoad(bs: seq<Booking>, ride: nat, x: real): nat {
    Sum(TrueWeights(bs, ride, x))
  }

  /** Every booking of the old table keeps its weight or loses it, and new bookings weigh nothing. */
  ghost predicate Lighter(bs: seq<Booking>, out: seq<Booking>, ride: nat) {
    && |bs| <= |out|
    && (forall i :: 0 <= i < |bs| ==>
          && out[i].(status := bs[i].status) == bs[i]
          && (bs[i].ride == ride && Occupies(out[i].status) ==> Occupies(bs[i].status)))
    && (forall i :: |bs| <= i < |out| ==> out[i].ride == ride ==> !Occupies(out[i].status))
  }

  lemma LighterLoad(bs: seq<Booking>, out: seq<Booking>, ride: nat, x: real)
    requires Lighter(bs, out, ride)
    ensures Load(out, ride, x) <= Load(bs, ride, x)
  {
    SumDominated(LoadWeights(bs, ride, x), LoadWeights(out, ride, x));
  }

  lemma LighterOccupied(bs: seq<Booking>, out: seq<Booking>, ride: nat, p: real, q: real)
    requires Lighter(bs, out, ride)
    ensures Occupied(out, ride, p, q) <= Occupied(bs, ride, p, q)
  {
    SumDominated(OccupiedWeights(bs, ride, p, q), OccupiedWeights(out, ride, p, q));
  }

  /** Occupancy grows with the segment. */
  lemma OccupiedMonotone(bs: seq<Booking>, ride: nat, p: real, q: real, p': real, q': real)
    requires p' <= p && q <= q'
    ensures Occupied(bs, ride, p, q) <= Occupied(bs, ride, p', q')
  {
    SumDominated(OccupiedWeights(bs, ride, p', q'), OccupiedWeights(bs, ride, p, q));
  }

  /**
   The geometric heart: a booking that shares an inner point with the segment overlaps it,
   so a pending booking that fits can be confirmed without exceeding the total anywhere inside it.
   */
  lemma ConfirmedLoad(bs: seq<Booking>, id: nat, total: nat, x: real)
    requires id < |bs| && bs[id].status.Pending?
    requires Fits(bs, bs[id].ride, bs[id].pickup, bs[id].dropoff, bs[id].seats, total)
    requires Inside(bs[id], x)
    ensures Load(WithStatus(bs, id, BookingStatus.Confirmed), bs[id].ride, x) <= total
  {
    var b := bs[id];
    var out := WithStatus(bs, id, BookingStatus.Confirmed);
    SumDominated(OccupiedWeights(bs, b.ride, b.pickup, b.dropoff), LoadWeights(bs, b.ride, x));
    SumChange(LoadWeights(bs, b.ride, x), LoadWeights(out, b.ride, x), id);
  }

  /** Outside the confirmed segment, and on other rides, nothing changes. */
  lemma ConfirmedLoadElsewhere(bs: seq<Booking>, id: nat, ride: nat, x: real)
    requires id < |bs| && bs[id].status.Pending?
    requires ride != bs[id].ride || !Inside(bs[id], x)
    ensures Load(WithStatus(bs, id, BookingStatus.Confirmed), ride, x) == Load(bs, ride, x)
  {
    SumSame(LoadWeights(bs, ride, x), LoadWeights(WithStatus(bs, id, BookingStatus.Confirmed), ride, x));
  }

  // ---- The load as stored, from loads at several points --------------------

  predicate InsideOneOf(b: Booking, xs: seq<real>) {
    exists j :: 0 <= j < |xs| && Inside(b, xs[j])
  }

  function MissedWeight(b: Booking, ride: nat, x: real, xs: seq<real>): nat {
    if InsideOneOf(b, xs) then 0 else TrueWeight(b, ride, x)
  }

  function MissedWeights(bs: seq<Booking>, ride: nat, x: real, xs: seq<real>): seq<nat> {
    seq(|bs|, i requires 0 <= i < |bs| => MissedWeight(bs[i], ride, x, xs))
  }

  lemma OneMorePoint(bs: seq<Booking>, ride: nat, x: real, xs: seq<real>, y: real)
    ensures Sum(MissedWeights(bs, ride, x, xs)) <= Sum(MissedWeights(bs, ride, x, xs + [y])) + Load(bs, ride, y)
  {
    var none := seq(|bs|, i => 0 as nat);
    SumZero(none);
    forall i | 0 <= i < |bs| && InsideOneOf(bs[i], xs + [y])
      ensures InsideOneOf(bs[i], xs) || Inside(bs[i], y)
    {
      var j :| 0 <= j < |xs + [y]| && Inside(bs[i], (xs + [y])[j]);
      if j < |xs| {
        assert Inside(bs[i], xs[j]);
      }
    }
    SumPairs(MissedWeights(bs, ride, x, xs), none, MissedWeights(bs, ride, x, xs + [y]), LoadWeights(bs, ride, y));
  }

  lemma AddUp(total: nat, missed: nat, fewer: nat, load: nat, n: nat, cap: nat)
    requires total <= missed + n * cap && missed <= fewer + load && load <= cap
    ensures total <= fewer + (n + 1) * cap
  {
  }

  /** Each point accounts for at most cap of the true load. */
  lemma {:induction false} PointsAccount(bs: seq<Booking>, ride: nat, x: real, xs: seq<real>, cap: nat)
    requires forall y :: Load(bs, ride, y) <= cap
    ensures TrueLoad(bs, ride, x) <= Sum(MissedWeights(bs, ride, x, xs)) + |xs| * cap
  {
    if xs == [] {
      assert MissedWeights(bs, ride, x, xs) == TrueWeights(bs, ride, x);
    } else {
      var n := |xs| - 1;
      PointsAccount(bs, ride, x, xs[..n], cap);
      OneMorePoint(bs, ride, x, xs[..n], xs[n]);
      assert xs[..n] + [xs[n]] == xs;
      AddUp(TrueLoad(bs, ride, x), Sum(MissedWeights(bs, ride, x, xs[..n])), Sum(MissedWeights(bs, ride, x, xs)),
            Load(bs, ride, xs[n]), n, cap);
    }
  }

  /** Finitely many segments cover x, so all of them reach a little beyond it on both sides. */
  lemma {:induction false} RoomAround(bs: seq<Booking>, x: real) returns (room: real)
    ensures 0.0 < room < 0.01
    ensures forall i :: 0 <= i < |bs| && bs[i].pickup < x < bs[i].dropoff ==> bs[i].pickup < x - room && x + room < bs[i].dropoff
  {
    if bs == [] {
      room := 0.005;
    } else {
      var b := bs[|bs| - 1];
      room := RoomAround(bs[..|bs| - 1], x);
      if b.pickup < x < b.dropoff {
        var left, right := (x - b.pickup) / 2.0, (b.dropoff - x) / 2.0;
        room := if left < room then left else room;
        room := if right < room then right else room;
      }
    }
  }

  function PointAt(first: real, step: real, j: nat): real {
    first + step * j as real
  }

  /** An interval wider than the step, with a point beyond its left end and the first point before its right end, contains a point. */
  lemma {:induction false} SomePointBetween(first: real, step: real, j: nat, left: real, right: real) returns (k: nat)
    requires left < PointAt(first, step, j) && first < right && right - left > step
    ensures k <= j && left < PointAt(first, step, k) < right
  {
    if j == 0 || PointAt(first, step, j - 1) <= left {
      k := j;
    } else {
      k := SomePointBetween(first, step, j - 1, left, right);
    }
  }

  /** The segment is long enough for k points, spread over the tolerance around x, to leave no gap it can hide in. */
  predicate LongFor(b: Booking, k: nat) {
    (b.dropoff - b.pickup) * (k - 1) as real >= 0.02 * k as real
  }

  lemma LargerFactor(a: real, b: real, m: real)
    requires m > 0.0 && a * m > b * m
    ensures a > b
  {
  }

  lemma StepIsShorter(length: real, step: real, n: nat, width: real)
    requires n >= 1 && step * n as real == width < 0.02
    requires length * n as real >= 0.02 * (n + 1) as real
    ensures length - 0.02 > step
  {
    var m := n as real;
    assert (n + 1) as real == m + 1.0;
    var excess := length - 0.02;
    assert length * m == excess * m + 0.02 * m;
    assert excess * m >= 0.02;
    LargerFactor(excess, step, m);
  }

  /**
   When every occupying segment of the ride is at least 0.02 k / (k - 1) long, the load as stored is
   at most k times any bound on the shrunk load.
   */
  lemma TrueLoadAtMostTimes(bs: seq<Booking>, ride: nat, x: real, k: nat, cap: nat)
    requires k >= 2 && forall y :: Load(bs, ride, y) <= cap
    requires forall i :: 0 <= i < |bs| && bs[i].ride == ride && Occupies(bs[i].status) ==> LongFor(bs[i], k)
    ensures TrueLoad(bs, ride, x) <= k * cap
  {
    var room := RoomAround(bs, x);
    var first, width := x - 0.01 + room, 0.02 - 2.0 * room;
    var step := width / (k - 1) as real;
    assert step * (k - 1) as real == width;
    var xs := seq(k, j requires 0 <= j < k => PointAt(first, step, j));
    forall i | 0 <= i < |bs|
      ensures MissedWeight(bs[i], ride, x, xs) == 0
    {
      var b := bs[i];
      if TrueWeight(b, ride, x) > 0 {
        StepIsShorter(b.dropoff - b.pickup, step, k - 1, width);
        var j := SomePointBetween(first, step, k - 1, b.pickup + 0.01, b.dropoff - 0.01);
        assert Inside(b, xs[j]);
      }
    }
    SumZero(MissedWeights(bs, ride, x, xs));
    PointsAccount(bs, ride, x, xs, cap);
  }

  // ---- Where the load is greatest ------------------------------------------

  function StartWeight(b: Booking, ride: nat, start: real): nat {
    if b.ride == ride && Occupies(b.status) && b.pickup <= start && start + 0.01 < b.dropoff - 0.01 then b.seats else 0
  }

  function StartWeights(bs: seq<Booking>, ride: nat, start: real): seq<nat> {
    seq(|bs|, i requires 0 <= i < |bs| => StartWeight(bs[i], ride, start))
  }

  /** Seats taken just after a pickup's shrunk start. */
  function StartLoad(bs: seq<Booking>, ride: nat, start: real): nat {
    Sum(StartWeights(bs, ride, start))
  }

  /** A point just after the start, before any segment that reaches beyond it ends. */
  lemma {:induction false} JustAfter(bs: seq<Booking>, start: real) returns (x: real)
    ensures start + 0.01 < x
    ensures forall i :: 0 <= i < |bs| && start + 0.01 < bs[i].dropoff - 0.01 ==> x < bs[i].dropoff - 0.01
  {
    if bs == [] {
      x := start + 1.0;
    } else {
      var end := bs[|bs| - 1].dropoff - 0.01;
      x := JustAfter(bs[..|bs| - 1], start);
      if start + 0.01 < end <= x {
        x := (start + 0.01 + end) / 2.0;
      }
    }
  }

  lemma StartLoadIsALoad(bs: seq<Booking>, ride: nat, start: real) returns (x: real)
    ensures StartLoad(bs, ride, start) <= Load(bs, ride, x)
  {
    x := JustAfter(bs, start);
    SumDominated(LoadWeights(bs, ride, x), StartWeights(bs, ride, start));
  }

  /** The last segment to start among those that take seats at x, if any does. */
  lemma {:induction false} LastToStart(bs: seq<Booking>, ride: nat, x: real) returns (last: int)
    ensures -1 <= last < |bs|
    ensures last == -1 ==> forall i :: 0 <= i < |bs| ==> LoadWeight(bs[i], ride, x) == 0
    ensures last >= 0 ==> LoadWeight(bs[last], ride, x) > 0
    ensures last >= 0 ==> forall i :: 0 <= i < |bs| && LoadWeight(bs[i], ride, x) > 0 ==> bs[i].pickup <= bs[last].pickup
  {
    if bs == [] {
      last := -1;
    } else {
      var n := |bs| - 1;
      last := LastToStart(bs[..n], ride, x);
      if LoadWeight(bs[n], ride, x) > 0 && (last == -1 || bs[last].pickup < bs[n].pickup) {
        last := n;
      }
    }
  }

  /** The load is within a bound at every point exactly when it is just after every occupying pickup. */
  lemma LoadWithinIff(bs: seq<Booking>, ride: nat, cap: nat)
    ensures (forall x :: Load(bs, ride, x) <= cap) <==>
            (forall i :: 0 <= i < |bs| && bs[i].ride == ride && Occupies(bs[i].status) ==>
               StartLoad(bs, ride, bs[i].pickup) <= cap)
  {
    if forall x :: Load(bs, ride, x) <= cap {
      forall i | 0 <= i < |bs|
        ensures StartLoad(bs, ride, bs[i].pickup) <= cap
      {
        var x := StartLoadIsALoad(bs, ride, bs[i].pickup);
      }
    }
    if forall i :: 0 <= i < |bs| && bs[i].ride == ride && Occupies(bs[i].status) ==> StartLoad(bs, ride, bs[i].pickup) <= cap {
      forall x
        ensures Load(bs, ride, x) <= cap
      {
        var last := LastToStart(bs, ride, x);
        if last == -1 {
          SumZero(LoadWeights(bs, ride, x));
        } else {
          SumDominated(StartWeights(bs, ride, bs[last].pickup), LoadWeights(bs, ride, x));
        }
      }
    }
  }
}
