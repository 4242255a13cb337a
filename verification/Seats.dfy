/** What the ledger and the capacity invariant say about seats after any run of transactions. */
module Seats {
  import opened Sums
  import opened Model
  import opened Capacity
  import opened Transactions
  import opened Effects
  import opened Ledgers

  function Before(ts: seq<Txn>, k: nat): Db
    requires k <= |ts|
  {
    Run(EMPTY, ts[..k])
  }

  lemma PrefixOfPrefix(ts: seq<Txn>, k: nat)
    requires k < |ts|
    ensures ts[..|ts| - 1][..k] == ts[..k]
  {
  }

  // ---- The largest total ---------------------------------------------------

  lemma PostPeak(d: Db, l: Ledger, t: Txn, r: nat)
    requires Sized(d, l) && r < |Exec(d, t).rides|
    requires r < |d.rides| ==> d.rides[r].total <= l.peak[r]
    ensures Exec(d, t).rides[r].total <= Post(d, l, t).peak[r]
    ensures r < |d.rides| ==> l.peak[r] <= Post(d, l, t).peak[r]
    ensures (r < |d.rides| && Post(d, l, t).peak[r] == l.peak[r]) || Post(d, l, t).peak[r] == Exec(d, t).rides[r].total
    ensures Post(d, l, t).initial[r] == if r < |d.rides| then l.initial[r] else Exec(d, t).rides[r].total
  {
  }

  /** At no earlier moment was the ride's total above the ledger's peak. */
  lemma {:induction false} PeakBoundsTotals(ts: seq<Txn>, r: nat, k: nat)
    requires k <= |ts| && r < |Before(ts, k).rides|
    ensures r < |Run(EMPTY, ts).rides| && Before(ts, k).rides[r].total <= Books(ts).peak[r]
  {
    EveryRunIsGood(ts);
    if k < |ts| {
      PrefixOfPrefix(ts, k);
      var ps := ts[..|ts| - 1];
      PeakBoundsTotals(ps, r, k);
      EveryRunIsGood(ps);
      ExecKeepsRows(Run(EMPTY, ps), ts[|ts| - 1]);
      PostPeak(Run(EMPTY, ps), Books(ps), ts[|ts| - 1], r);
    } else {
      assert ts[..k] == ts;
    }
  }

  /** At some moment the ride's total was the ledger's peak. */
  lemma {:induction false} PeakWasReached(ts: seq<Txn>, r: nat) returns (k: nat)
    requires r < |Run(EMPTY, ts).rides|
    ensures k <= |ts| && r < |Before(ts, k).rides| && Before(ts, k).rides[r].total == Books(ts).peak[r]
  {
    var ps := ts[..|ts| - 1];
    EveryRunIsGood(ps);
    PostPeak(Run(EMPTY, ps), Books(ps), ts[|ts| - 1], r);
    if r < |Run(EMPTY, ps).rides| && Books(ts).peak[r] == Books(ps).peak[r] {
      k := PeakWasReached(ps, r);
      PrefixOfPrefix(ts, k);
    } else {
      k := |ts|;
      assert ts[..k] == ts;
    }
  }

  /** No transaction of the run lowers the ride's total. */
  ghost predicate NeverLowered(ts: seq<Txn>, r: nat) {
    ts != [] ==>
      var ps, d := ts[..|ts| - 1], Run(EMPTY, ts[..|ts| - 1]);
      && NeverLowered(ps, r)
      && (r < |d.rides| ==> r < |Run(EMPTY, ts).rides| && d.rides[r].total <= Run(EMPTY, ts).rides[r].total)
  }

  lemma {:induction false} NeverLoweredPeak(ts: seq<Txn>, r: nat)
    requires NeverLowered(ts, r) && r < |Run(EMPTY, ts).rides|
    ensures Books(ts).peak[r] == Run(EMPTY, ts).rides[r].total
    ensures Books(ts).initial[r] <= Run(EMPTY, ts).rides[r].total
  {
    var ps := ts[..|ts| - 1];
    if r < |Run(EMPTY, ps).rides| {
      NeverLoweredPeak(ps, r);
    }
    PostPeak(Run(EMPTY, ps), Books(ps), ts[|ts| - 1], r);
  }

  // ---- Capacity ------------------------------------------------------------

  /** At every point of every route, occupied seats stay within the largest total the ride has had. */
  lemma CapacityAtEveryPoint(ts: seq<Txn>, r: nat, x: real)
    requires r < |Run(EMPTY, ts).rides|
    ensures Load(Run(EMPTY, ts).bookings, r, x) <= Books(ts).peak[r]
    ensures NeverLowered(ts, r) ==> Load(Run(EMPTY, ts).bookings, r, x) <= Run(EMPTY, ts).rides[r].total
  {
    EveryRunIsGood(ts);
    if NeverLowered(ts, r) {
      NeverLoweredPeak(ts, r);
    }
  }

  /** Every segment that holds seats on the ride is at least 0.02 k / (k - 1) long. */
  ghost predicate LongSegments(bs: seq<Booking>, r: nat, k: nat) {
    k >= 2 && forall i :: 0 <= i < |bs| && bs[i].ride == r && Occupies(bs[i].status) ==> LongFor(bs[i], k)
  }

  /** With segments that long the load as stored is at most k times the total. */
  lemma TrueLoadAtMostTimesTotal(ts: seq<Txn>, r: nat, x: real, k: nat)
    requires r < |Run(EMPTY, ts).rides| && LongSegments(Run(EMPTY, ts).bookings, r, k)
    ensures TrueLoad(Run(EMPTY, ts).bookings, r, x) <= k * Books(ts).peak[r]
    ensures NeverLowered(ts, r) ==> TrueLoad(Run(EMPTY, ts).bookings, r, x) <= k * Run(EMPTY, ts).rides[r].total
  {
    forall y
      ensures Load(Run(EMPTY, ts).bookings, r, y) <= Books(ts).peak[r]
    {
      CapacityAtEveryPoint(ts, r, y);
    }
    TrueLoadAtMostTimes(Run(EMPTY, ts).bookings, r, x, k, Books(ts).peak[r]);
    if NeverLowered(ts, r) {
      NeverLoweredPeak(ts, r);
    }
  }

  /** With segments of at least 0.04 it is at most twice the total. */
  lemma TrueLoadAtMostDouble(ts: seq<Txn>, r: nat, x: real)
    requires r < |Run(EMPTY, ts).rides|
    requires var bs := Run(EMPTY, ts).bookings;
             forall i :: 0 <= i < |bs| && bs[i].ride == r && Occupies(bs[i].status) ==> bs[i].dropoff - bs[i].pickup >= 0.04
    ensures TrueLoad(Run(EMPTY, ts).bookings, r, x) <= 2 * Books(ts).peak[r]
    ensures NeverLowered(ts, r) ==> TrueLoad(Run(EMPTY, ts).bookings, r, x) <= 2 * Run(EMPTY, ts).rides[r].total
  {
    TrueLoadAtMostTimesTotal(ts, r, x, 2);
  }

  /**
   An accepted update keeps the load within the ride's total exactly when, just after each pickup
   of a booking that holds seats, the seats taken are within that total.
   */
  lemma UpdateKeepsCapacityIff(d: Db, now: int, ride: nat, driver: UserId, departure: int, total: int, price: real)
    requires UpdateTx(d, now, ride, driver, departure, total, price).Ok?
    ensures var d' := UpdateTx(d, now, ride, driver, departure, total, price).db;
            (forall x :: Load(d'.bookings, ride, x) <= d'.rides[ride].total) <==>
            (forall i :: 0 <= i < |d.bookings| && d.bookings[i].ride == ride && Occupies(d.bookings[i].status) ==>
               StartLoad(d.bookings, ride, d.bookings[i].pickup) <= if total > 0 then total else d.rides[ride].total)
  {
    LoadWithinIff(d.bookings, ride, if total > 0 then total else d.rides[ride].total);
  }

  // ---- Debits and credits --------------------------------------------------

  predicate IsConfirmOf(d: Db, t: Txn, id: nat) {
    t.Confirm? && t.id == id && Apply(d, t).Ok?
  }

  predicate IsCreditOf(d: Db, t: Txn, id: nat) {
    && (t.MissRide? || (t.Cancel? && t.id < |d.bookings| && Credited(d.bookings[t.id].status)))
    && t.id == id && Apply(d, t).Ok?
  }

  function Confirms(ts: seq<Txn>, id: nat): nat {
    if ts == [] then 0
    else Confirms(ts[..|ts| - 1], id) + if IsConfirmOf(Run(EMPTY, ts[..|ts| - 1]), ts[|ts| - 1], id) then 1 else 0
  }

  function Credits(ts: seq<Txn>, id: nat): nat {
    if ts == [] then 0
    else Credits(ts[..|ts| - 1], id) + if IsCreditOf(Run(EMPTY, ts[..|ts| - 1]), ts[|ts| - 1], id) then 1 else 0
  }

  /** One transaction puts the booking on the books, takes it off, or leaves it. */
  lemma HeldMoves(d: Db, l: Ledger, t: Txn, id: nat)
    requires Good(d, l)
    ensures var c, k := IsConfirmOf(d, t, id), IsCreditOf(d, t, id);
            && !(c && k)
            && (id in Post(d, l, t).held <==> c || (id in l.held && !k))
            && (k ==> id in l.held)
            && (c ==> id < |d.bookings| && d.bookings[id].status.Pending? && id !in l.held)
  {
    assert HeldByStatus(d, l);
  }

  lemma PendingWas(d: Db, t: Txn, id: nat)
    requires id >= |Exec(d, t).bookings| || Exec(d, t).bookings[id].status.Pending?
    ensures id >= |d.bookings| || d.bookings[id].status.Pending?
    ensures !IsConfirmOf(d, t, id)
  {
    if id < |d.bookings| {
      BookingMoves(d, t, id);
    }
  }

  /**
   In every run a booking is confirmed at most once and credited at most as often, and it is on
   the books exactly when it was confirmed and not credited.
   */
  lemma {:induction false} CreditedAtMostOnce(ts: seq<Txn>, id: nat)
    ensures Credits(ts, id) + (if id in Books(ts).held then 1 else 0) == Confirms(ts, id) <= 1
    ensures id >= |Run(EMPTY, ts).bookings| || Run(EMPTY, ts).bookings[id].status.Pending? ==> Confirms(ts, id) == 0
  {
    if ts != [] {
      var ps, t := ts[..|ts| - 1], ts[|ts| - 1];
      CreditedAtMostOnce(ps, id);
      EveryRunIsGood(ps);
      HeldMoves(Run(EMPTY, ps), Books(ps), t, id);
      if id >= |Run(EMPTY, ts).bookings| || Run(EMPTY, ts).bookings[id].status.Pending? {
        PendingWas(Run(EMPTY, ps), t, id);
      }
    }
  }

  /** The exact ledger of a ride after any run. */
  lemma SeatLedger(ts: seq<Txn>, r: nat)
    requires r < |Run(EMPTY, ts).rides|
    ensures Run(EMPTY, ts).rides[r].available + HeldSeats(Run(EMPTY, ts).bookings, Books(ts).held, r)
            == Books(ts).initial[r] + Books(ts).clipped[r]
    ensures Run(EMPTY, ts).rides[r].available <= Run(EMPTY, ts).rides[r].total
  {
    EveryRunIsGood(ts);
    assert BalancedAt(Run(EMPTY, ts), Books(ts), r);
  }

  /**
   A credit rolls back exactly when the seats that debits clipped, less the seats the ride's other
   bookings still hold, exceed what the total has grown by.
   */
  lemma CreditRollsBackIff(ts: seq<Txn>, id: nat, s: BookingStatus, now: int)
    requires id < |Run(EMPTY, ts).bookings| && Credited(Run(EMPTY, ts).bookings[id].status)
    requires Run(EMPTY, ts).bookings[id].ride < |Run(EMPTY, ts).rides|
    ensures var d, l := Run(EMPTY, ts), Books(ts);
            var b := d.bookings[id];
            CloseAndCredit(d, id, s, true, now).Fail? <==>
            l.initial[b.ride] + l.clipped[b.ride] - (HeldSeats(d.bookings, l.held, b.ride) - b.seats) > d.rides[b.ride].total
  {
    SeatLedger(ts, Run(EMPTY, ts).bookings[id].ride);
  }

  /** Without clipping and without lowering the total, no credit ever violates available <= total. */
  lemma CreditNeverRollsBack(ts: seq<Txn>, id: nat, s: BookingStatus, now: int)
    requires id < |Run(EMPTY, ts).bookings| && Credited(Run(EMPTY, ts).bookings[id].status)
    requires Run(EMPTY, ts).bookings[id].ride < |Run(EMPTY, ts).rides|
    requires Books(ts).clipped[Run(EMPTY, ts).bookings[id].ride] == 0
    requires NeverLowered(ts, Run(EMPTY, ts).bookings[id].ride)
    ensures CloseAndCredit(Run(EMPTY, ts), id, s, true, now).Ok?
  {
    var d, l := Run(EMPTY, ts), Books(ts);
    var r := d.bookings[id].ride;
    EveryRunIsGood(ts);
    SeatLedger(ts, r);
    NeverLoweredPeak(ts, r);
    SumMember(HeldWeights(d.bookings, l.held, r), id);
  }

  // ---- When the counter is exact -------------------------------------------

  /** All bookings ever made on the ride pairwise overlap. */
  ghost predicate AllOverlap(bs: seq<Booking>, r: nat) {
    forall i, j :: 0 <= i < |bs| && 0 <= j < |bs| && i != j && bs[i].ride == r && bs[j].ride == r ==>
      Overlaps(bs[i], bs[j].pickup, bs[j].dropoff)
  }

  /** The total is the first one, segments overlap, and every booking on the books still occupies its seats. */
  ghost predicate SteadyAt(d: Db, l: Ledger, r: nat)
    requires Sized(d, l)
  {
    r < |d.rides| ==>
      && d.rides[r].total == l.initial[r]
      && AllOverlap(d.bookings, r)
      && (forall i :: i in l.held && i < |d.bookings| && d.bookings[i].ride == r ==> Occupies(d.bookings[i].status))
  }

  /** Every state of the run is steady. */
  ghost predicate Steady(ts: seq<Txn>, r: nat) {
    SteadyAt(Run(EMPTY, ts), Books(ts), r) && (ts != [] ==> Steady(ts[..|ts| - 1], r))
  }

  function SeatedWeight(b: Booking, r: nat): nat {
    if b.ride == r && Occupies(b.status) then b.seats else 0
  }

  function SeatedWeights(bs: seq<Booking>, r: nat): seq<nat> {
    seq(|bs|, i requires 0 <= i < |bs| => SeatedWeight(bs[i], r))
  }

  /** Seats of all occupying bookings of the ride. */
  function Seated(bs: seq<Booking>, r: nat): nat {
    Sum(SeatedWeights(bs, r))
  }

  lemma NoClipWhenOverlapping(d: Db, l: Ledger, id: nat, driver: UserId, r: nat)
    requires Good(d, l) && SteadyAt(d, l, r) && r < |d.rides| && l.clipped[r] == 0
    requires ConfirmTx(d, id, driver).Ok? && d.bookings[id].ride == r
    ensures Clip(d.rides[r], d.bookings[id].seats) == 0
  {
    var b := d.bookings[id];
    assert BalancedAt(d, l, r);
    SumDominated(OccupiedWeights(d.bookings, r, b.pickup, b.dropoff), HeldWeights(d.bookings, l.held, r));
  }

  lemma {:induction false} SteadyRunsNeverClip(ts: seq<Txn>, r: nat)
    requires Steady(ts, r) && r < |Run(EMPTY, ts).rides|
    ensures Books(ts).clipped[r] == 0
  {
    if ts != [] {
      var ps, t := ts[..|ts| - 1], ts[|ts| - 1];
      EveryRunIsGood(ps);
      if r < |Run(EMPTY, ps).rides| {
        SteadyRunsNeverClip(ps, r);
        if t.Confirm? && Apply(Run(EMPTY, ps), t).Ok? && Run(EMPTY, ps).bookings[t.id].ride == r {
          NoClipWhenOverlapping(Run(EMPTY, ps), Books(ps), t.id, t.driver, r);
        }
      }
    }
  }

  function IdleWeight(b: Booking, held: bool, r: nat): nat {
    if held && b.ride == r && !Occupies(b.status) then b.seats else 0
  }

  function IdleWeights(bs: seq<Booking>, held: set<nat>, r: nat): seq<nat> {
    seq(|bs|, i requires 0 <= i < |bs| => IdleWeight(bs[i], i in held, r))
  }

  /** Seats still on the books of bookings that occupy nothing any more: completed ones, and those the cascade cancelled. */
  function IdleSeats(bs: seq<Booking>, held: set<nat>, r: nat): nat {
    Sum(IdleWeights(bs, held, r))
  }

  lemma {:induction false} SumSplit(w: seq<nat>, u: seq<nat>, v: seq<nat>)
    requires |w| == |u| == |v| && forall i :: 0 <= i < |w| ==> w[i] == u[i] + v[i]
    ensures Sum(w) == Sum(u) + Sum(v)
  {
    if w != [] {
      var n := |w| - 1;
      SumSplit(w[..n], u[..n], v[..n]);
    }
  }

  lemma HeldSplits(d: Db, l: Ledger, r: nat)
    requires Sized(d, l) && HeldByStatus(d, l) && r < |d.rides|
    ensures HeldSeats(d.bookings, l.held, r) == Seated(d.bookings, r) + IdleSeats(d.bookings, l.held, r)
  {
    SumSplit(HeldWeights(d.bookings, l.held, r), SeatedWeights(d.bookings, r), IdleWeights(d.bookings, l.held, r));
  }

  /**
   After any run the counter is exactly total minus occupied seats if and only if the clipped seats,
   less what the total has grown by, are the seats of bookings that occupy nothing any more.
   */
  lemma AvailableIsExactIff(ts: seq<Txn>, r: nat)
    requires r < |Run(EMPTY, ts).rides|
    ensures var d, l := Run(EMPTY, ts), Books(ts);
            d.rides[r].available == d.rides[r].total - Seated(d.bookings, r) <==>
            l.initial[r] + l.clipped[r] - d.rides[r].total == IdleSeats(d.bookings, l.held, r)
  {
    EveryRunIsGood(ts);
    SeatLedger(ts, r);
    HeldSplits(Run(EMPTY, ts), Books(ts), r);
  }

  /** On a steady run nothing is clipped and the counter is exactly total minus occupied seats. */
  lemma AvailableIsExact(ts: seq<Txn>, r: nat)
    requires Steady(ts, r) && r < |Run(EMPTY, ts).rides|
    ensures Books(ts).clipped[r] == 0
    ensures Run(EMPTY, ts).rides[r].available == Run(EMPTY, ts).rides[r].total - Seated(Run(EMPTY, ts).bookings, r)
  {
    SteadyRunsNeverClip(ts, r);
    AvailableIsExactIff(ts, r);
    SumZero(IdleWeights(Run(EMPTY, ts).bookings, Books(ts).held, r));
  }
}
