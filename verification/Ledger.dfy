/**
 What every run of transactions keeps: the capacity of every point of every route, an exact
 ledger of seats, and at most one active booking per ride and rider.
 */
module Ledgers {
  import opened Sums
  import opened Model
  import opened Capacity
  import opened Transactions
  import opened Effects

  /**
   Bookkeeping that no transaction reads: which bookings have been debited and not since
   credited, and for each ride the seats clipped by debits at zero, its first total and its
   largest total.
   */
  datatype Ledger = Ledger(held: set<nat>, clipped: seq<nat>, initial: seq<nat>, peak: seq<nat>)

  function HeldWeight(b: Booking, held: bool, ride: nat): nat {
    if held && b.ride == ride then b.seats else 0
  }

  function HeldWeights(bs: seq<Booking>, held: set<nat>, ride: nat): seq<nat> {
    seq(|bs|, i requires 0 <= i < |bs| => HeldWeight(bs[i], i in held, ride))
  }

  /** Seats of the ride's bookings that were debited and not since credited. */
  function HeldSeats(bs: seq<Booking>, held: set<nat>, ride: nat): nat {
    Sum(HeldWeights(bs, held, ride))
  }

  function Clip(r: Ride, seats: nat): nat {
    if r.available >= seats then 0 else seats - r.available
  }

  ghost predicate Sized(d: Db, l: Ledger) {
    |l.clipped| == |l.initial| == |l.peak| == |d.rides|
  }

  /** The ledger after a transaction on d. */
  function Post(d: Db, l: Ledger, t: Txn): (l': Ledger)
    requires Sized(d, l)
    ensures Sized(Exec(d, t), l')
  {
    match Apply(d, t)
    case Fail(_) => l
    case Ok(d', _) =>
      match t
      case RideCreate(_, _, _, _, total, _) =>
        Ledger(l.held, l.clipped + [0], l.initial + [total as nat], l.peak + [total as nat])
      case RideUpdate(_, ride, _, _, _, _) =>
        l.(peak := l.peak[ride := if d'.rides[ride].total > l.peak[ride] then d'.rides[ride].total else l.peak[ride]])
      case Confirm(id, _) =>
        var b := d.bookings[id];
        l.(held := l.held + {id},
           clipped := l.clipped[b.ride := l.clipped[b.ride] + Clip(d.rides[b.ride], b.seats)])
      case Cancel(id, _, _, _) =>
        if Credited(d.bookings[id].status) then l.(held := l.held - {id}) else l
      case MissRide(id, _, _, _) => l.(held := l.held - {id})
      case _ => l
  }

  /** The ledger after a run that starts from empty tables. */
  function Books(ts: seq<Txn>): (l: Ledger)
    ensures Sized(Run(EMPTY, ts), l)
  {
    if ts == [] then Ledger({}, [], [], [])
    else Post(Run(EMPTY, ts[..|ts| - 1]), Books(ts[..|ts| - 1]), ts[|ts| - 1])
  }

  /** Which bookings are on the books follows from their status, except for cancelled ones. */
  ghost predicate HeldByStatus(d: Db, l: Ledger) {
    && (forall i :: i in l.held ==> i < |d.bookings|)
    && (forall i :: 0 <= i < |d.bookings| ==>
          && (Occupies(d.bookings[i].status) || d.bookings[i].status.Completed? ==> i in l.held)
          && (d.bookings[i].status.Pending? || d.bookings[i].status.NoShow? ==> i !in l.held))
  }

  /** Seats shown as available plus seats on the books: the first total plus what debits clipped. */
  ghost predicate BalancedAt(d: Db, l: Ledger, r: nat)
    requires Sized(d, l) && r < |d.rides|
  {
    d.rides[r].available + HeldSeats(d.bookings, l.held, r) == l.initial[r] + l.clipped[r]
  }

  ghost predicate Balanced(d: Db, l: Ledger)
    requires Sized(d, l)
  {
    forall r :: 0 <= r < |d.rides| ==> BalancedAt(d, l, r)
  }

  ghost predicate WithinPeak(d: Db, l: Ledger)
    requires Sized(d, l)
  {
    && (forall r :: 0 <= r < |d.rides| ==> d.rides[r].total <= l.peak[r])
    && (forall r, x: real :: 0 <= r < |d.rides| ==> Load(d.bookings, r, x) <= l.peak[r])
  }

  ghost predicate OneOpen(d: Db) {
    forall i, j :: 0 <= i < j < |d.bookings| && Open(d.bookings[i].status) && Open(d.bookings[j].status)
                   && d.bookings[i].ride == d.bookings[j].ride ==>
                     d.bookings[i].rider != d.bookings[j].rider
  }

  ghost predicate Good(d: Db, l: Ledger) {
    Sized(d, l) && Wf(d) && HeldByStatus(d, l) && Balanced(d, l) && WithinPeak(d, l) && OneOpen(d)
  }

  // ---- Constraints ---------------------------------------------------------

  lemma ExecHeldByStatus(d: Db, l: Ledger, t: Txn)
    requires Wf(d) && Sized(d, l) && HeldByStatus(d, l)
    ensures HeldByStatus(Exec(d, t), Post(d, l, t))
  {
  }

  lemma ExecOneOpen(d: Db, t: Txn)
    requires OneOpen(d)
    ensures OneOpen(Exec(d, t))
  {
    var bs, out := d.bookings, Exec(d, t).bookings;
    ExecKeepsRows(d, t);
    forall i, j | 0 <= i < j < |out| && Open(out[i].status) && Open(out[j].status) && out[i].ride == out[j].ride
      ensures out[i].rider != out[j].rider
    {
      if j < |bs| {
        BookingMoves(d, t, j);
      } else {
        BookingAppears(d, t, j);
      }
      BookingMoves(d, t, i);
    }
  }

  // ---- Capacity ------------------------------------------------------------

  /** Only a confirmation, and only on its own ride, can make a booking occupy seats. */
  lemma OnlyConfirmOccupies(d: Db, t: Txn, ride: nat)
    requires t.Confirm? ==> t.id < |d.bookings| ==> d.bookings[t.id].ride != ride
    ensures Lighter(d.bookings, Exec(d, t).bookings, ride)
  {
    var bs, out := d.bookings, Exec(d, t).bookings;
    ExecKeepsRows(d, t);
    forall i | 0 <= i < |bs|
      ensures bs[i].ride == ride && Occupies(out[i].status) ==> Occupies(bs[i].status)
    {
      BookingMoves(d, t, i);
    }
    forall i | |bs| <= i < |out|
      ensures !Occupies(out[i].status)
    {
      BookingAppears(d, t, i);
    }
  }

  lemma NewRideIsEmpty(d: Db, ride: nat, x: real)
    requires Wf(d) && ride >= |d.rides|
    ensures Load(d.bookings, ride, x) == 0
  {
    SumZero(LoadWeights(d.bookings, ride, x));
  }

  lemma ExecLoad(d: Db, l: Ledger, t: Txn, r: nat, x: real)
    requires Sized(d, l) && Wf(d) && WithinPeak(d, l) && r < |Exec(d, t).rides|
    ensures Load(Exec(d, t).bookings, r, x) <= Post(d, l, t).peak[r]
  {
    if r >= |d.rides| {
      NewRideIsEmpty(d, r, x);
    } else {
      assert l.peak[r] <= Post(d, l, t).peak[r];
      if t.Confirm? && Apply(d, t).Ok? && d.bookings[t.id].ride == r && Inside(d.bookings[t.id], x) {
        ConfirmedLoad(d.bookings, t.id, d.rides[r].total, x);
      } else if t.Confirm? && Apply(d, t).Ok? {
        ConfirmedLoadElsewhere(d.bookings, t.id, r, x);
      } else if Apply(d, t).Ok? {
        OnlyConfirmOccupies(d, t, r);
        LighterLoad(d.bookings, Exec(d, t).bookings, r, x);
      }
    }
  }

  lemma ExecWithinPeak(d: Db, l: Ledger, t: Txn)
    requires Sized(d, l) && Wf(d) && WithinPeak(d, l)
    ensures WithinPeak(Exec(d, t), Post(d, l, t))
  {
    forall r, x: real | 0 <= r < |Exec(d, t).rides|
      ensures Load(Exec(d, t).bookings, r, x) <= Post(d, l, t).peak[r]
    {
      ExecLoad(d, l, t, r, x);
    }
  }

  // ---- The ledger ----------------------------------------------------------

  /** Moving one booking on or off the books moves its seats. */
  lemma HeldMove(bs: seq<Booking>, out: seq<Booking>, held: set<nat>, held': set<nat>, id: nat, ride: nat)
    requires |bs| == |out| && id < |bs|
    requires forall i :: 0 <= i < |bs| ==> out[i].(status := bs[i].status) == bs[i]
    requires forall i :: i != id ==> (i in held <==> i in held')
    ensures HeldSeats(out, held', ride) + HeldWeight(bs[id], id in held, ride)
            == HeldSeats(bs, held, ride) + HeldWeight(bs[id], id in held', ride)
  {
    SumChange(HeldWeights(bs, held, ride), HeldWeights(out, held', ride), id);
  }

  lemma HeldUnmoved(bs: seq<Booking>, out: seq<Booking>, held: set<nat>, ride: nat)
    requires |bs| <= |out|
    requires forall i :: 0 <= i < |bs| ==> out[i].(status := bs[i].status) == bs[i]
    requires forall i :: i in held ==> i < |bs|
    ensures HeldSeats(out, held, ride) == HeldSeats(bs, held, ride)
  {
    SumSame(HeldWeights(bs, held, ride), HeldWeights(out, held, ride));
  }

  lemma NewRideHoldsNothing(d: Db, held: set<nat>, ride: nat)
    requires Wf(d) && ride >= |d.rides|
    ensures HeldSeats(d.bookings, held, ride) == 0
  {
    SumZero(HeldWeights(d.bookings, held, ride));
  }

  lemma ConfirmBalance(d: Db, l: Ledger, id: nat, driver: UserId, r: nat)
    requires Sized(d, l) && Wf(d) && HeldByStatus(d, l) && r < |d.rides| && BalancedAt(d, l, r)
    ensures BalancedAt(Exec(d, Confirm(id, driver)), Post(d, l, Confirm(id, driver)), r)
  {
    if ConfirmTx(d, id, driver).Ok? {
      HeldMove(d.bookings, WithStatus(d.bookings, id, BookingStatus.Confirmed), l.held, l.held + {id}, id, r);
    }
  }

  /** The shared tail of cancellation and no-show: the credit equals the seats taken off the books. */
  lemma CreditBalance(d: Db, l: Ledger, id: nat, s: BookingStatus, now: int, r: nat)
    requires Sized(d, l) && Wf(d) && HeldByStatus(d, l) && r < |d.rides| && BalancedAt(d, l, r)
    requires id < |d.bookings| && Credited(d.bookings[id].status)
    requires CloseAndCredit(d, id, s, true, now).Ok?
    ensures BalancedAt(CloseAndCredit(d, id, s, true, now).db, l.(held := l.held - {id}), r)
  {
    HeldMove(d.bookings, WithStatus(d.bookings, id, s), l.held, l.held - {id}, id, r);
  }

  ghost predicate LeavesSeats(d: Db, t: Txn) {
    && !t.Confirm? && !t.MissRide?
    && (t.Cancel? && t.id < |d.bookings| ==> !Credited(d.bookings[t.id].status))
  }

  lemma QuietRide(d: Db, l: Ledger, t: Txn, r: nat)
    requires Sized(d, l) && r < |d.rides| && LeavesSeats(d, t)
    ensures Exec(d, t).rides[r].available == d.rides[r].available
    ensures Post(d, l, t).held == l.held
    ensures Post(d, l, t).initial[r] == l.initial[r] && Post(d, l, t).clipped[r] == l.clipped[r]
  {
  }

  /** Every other transaction leaves both sides of the balance alone. */
  lemma QuietBalance(d: Db, l: Ledger, t: Txn, r: nat)
    requires Sized(d, l) && HeldByStatus(d, l) && r < |d.rides| && BalancedAt(d, l, r)
    requires LeavesSeats(d, t)
    ensures BalancedAt(Exec(d, t), Post(d, l, t), r)
  {
    ExecKeepsRows(d, t);
    QuietRide(d, l, t, r);
    var bs, out := d.bookings, Exec(d, t).bookings;
    HeldUnmoved(bs, out, l.held, r);
  }

  lemma ExecBalance(d: Db, l: Ledger, t: Txn, r: nat)
    requires Sized(d, l) && Wf(d) && HeldByStatus(d, l) && Balanced(d, l) && r < |Exec(d, t).rides|
    ensures BalancedAt(Exec(d, t), Post(d, l, t), r)
  {
    if r >= |d.rides| {
      NewRideHoldsNothing(d, l.held, r);
    } else if t.Confirm? {
      ConfirmBalance(d, l, t.id, t.driver, r);
    } else if t.MissRide? {
      if Apply(d, t).Ok? {
        CreditBalance(d, l, t.id, BookingStatus.NoShow, t.now, r);
      }
    } else if t.Cancel? && t.id < |d.bookings| && Credited(d.bookings[t.id].status) {
      if Apply(d, t).Ok? {
        CreditBalance(d, l, t.id, BookingStatus.Cancelled, t.now, r);
      }
    } else {
      QuietBalance(d, l, t, r);
    }
  }

  lemma ExecGood(d: Db, l: Ledger, t: Txn)
    requires Good(d, l)
    ensures Good(Exec(d, t), Post(d, l, t))
  {
    ExecWf(d, t);
    ExecHeldByStatus(d, l, t);
    ExecOneOpen(d, t);
    ExecWithinPeak(d, l, t);
    forall r | 0 <= r < |Exec(d, t).rides|
      ensures BalancedAt(Exec(d, t), Post(d, l, t), r)
    {
      ExecBalance(d, l, t, r);
    }
  }

  /** Every run of transactions from empty tables keeps the capacity, the ledger and uniqueness. */
  lemma {:induction false} EveryRunIsGood(ts: seq<Txn>)
    ensures Good(Run(EMPTY, ts), Books(ts))
  {
    if ts != [] {
      EveryRunIsGood(ts[..|ts| - 1]);
      ExecGood(Run(EMPTY, ts[..|ts| - 1]), Books(ts[..|ts| - 1]), ts[|ts| - 1]);
    }
  }
}
