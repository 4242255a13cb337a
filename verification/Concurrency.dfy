/** What every interleaving of endpoint processes guarantees: the serial results, lifted by serializability. */
module Concurrency {
  import opened Model
  import opened Capacity
  import opened Effects
  import opened Transactions
  import opened Ledgers
  import opened Seats
  import opened Interleaving
  import opened Histories

  /** At every point of every route, whatever the interleaving, occupied seats stay within the largest total so far. */
  lemma CapacityUnderInterleaving(acts: seq<Action>, r: nat, x: real)
    requires r < |Play(acts).db.rides|
    ensures Sized(Play(acts).db, Books(Committed(acts)))
    ensures Load(Play(acts).db.bookings, r, x) <= Books(Committed(acts)).peak[r]
    ensures NeverLowered(Committed(acts), r) ==> Load(Play(acts).db.bookings, r, x) <= Play(acts).db.rides[r].total
  {
    EveryScheduleIsSerial(acts);
    CapacityAtEveryPoint(Committed(acts), r, x);
  }

  /** With segments of at least 0.02 k / (k - 1) the load as stored is at most k times that total. */
  lemma TrueLoadUnderInterleaving(acts: seq<Action>, r: nat, x: real, k: nat)
    requires r < |Play(acts).db.rides| && LongSegments(Play(acts).db.bookings, r, k)
    ensures Sized(Play(acts).db, Books(Committed(acts)))
    ensures TrueLoad(Play(acts).db.bookings, r, x) <= k * Books(Committed(acts)).peak[r]
    ensures NeverLowered(Committed(acts), r) ==> TrueLoad(Play(acts).db.bookings, r, x) <= k * Play(acts).db.rides[r].total
  {
    EveryScheduleIsSerial(acts);
    TrueLoadAtMostTimesTotal(Committed(acts), r, x, k);
  }

  /** The seat ledger is exact in every interleaving, and no booking is credited twice. */
  lemma LedgerUnderInterleaving(acts: seq<Action>, r: nat, id: nat)
    requires r < |Play(acts).db.rides|
    ensures Sized(Play(acts).db, Books(Committed(acts)))
    ensures Play(acts).db.rides[r].available + HeldSeats(Play(acts).db.bookings, Books(Committed(acts)).held, r)
            == Books(Committed(acts)).initial[r] + Books(Committed(acts)).clipped[r]
    ensures Play(acts).db.rides[r].available <= Play(acts).db.rides[r].total
    ensures Credits(Committed(acts), id) <= Confirms(Committed(acts), id) <= 1
  {
    EveryScheduleIsSerial(acts);
    SeatLedger(Committed(acts), r);
    CreditedAtMostOnce(Committed(acts), id);
  }

  /** A rider has at most one active booking on a ride, even without a uniqueness index. */
  lemma OneActiveBookingUnderInterleaving(acts: seq<Action>, i: nat, j: nat)
    requires i < j < |Play(acts).db.bookings|
    requires var bs := Play(acts).db.bookings;
             Open(bs[i].status) && Open(bs[j].status) && bs[i].ride == bs[j].ride
    ensures Play(acts).db.bookings[i].rider != Play(acts).db.bookings[j].rider
  {
    EveryScheduleIsSerial(acts);
    EveryRunIsGood(Committed(acts));
  }

  /** The branch that cancels the other pending bookings of a full ride is never taken. */
  lemma AutoCancelNeverRuns(acts: seq<Action>, id: nat, ride: nat, t: Txn)
    ensures !Commits(Play(acts).db, ConfirmDone(id, ride), t)
  {
    EveryScheduleIsSerial(acts);
    NoRideIsEverFull(Committed(acts));
  }

  // ---- Who moved what ------------------------------------------------------

  /** In every schedule, a committed change of a booking's status is its rider's or its driver's, each within their own moves. */
  lemma BookingMoversUnderInterleaving(acts: seq<Action>, k: nat, i: nat)
    requires k < |Committed(acts)| && i < |Run(EMPTY, Committed(acts)[..k]).bookings|
    ensures Play(acts).db == Run(EMPTY, Committed(acts))
    ensures var d, t := Run(EMPTY, Committed(acts)[..k]), Committed(acts)[k];
            && i < |Exec(d, t).bookings| && d.bookings[i].ride < |d.rides|
            && var b, s := d.bookings[i], Exec(d, t).bookings[i].status;
               s != b.status ==>
                 match s
                 case Pending => false
                 case RiderReady => t.Ready? && t.rider == b.rider
                 case Cancelled => t.CancelSome? || (t.Cancel? && (t.actor == b.rider || t.actor == d.rides[b.ride].driver))
                 case _ => (t.Confirm? || t.PickUp? || t.Drop? || t.MissRide?) && t.driver == d.rides[b.ride].driver
  {
    EveryScheduleIsSerial(acts);
    var d, t := Run(EMPTY, Committed(acts)[..k]), Committed(acts)[k];
    EveryRunIsGood(Committed(acts)[..k]);
    BookingMoves(d, t, i);
    BookingEdges(d, t, i);
    if Exec(d, t).bookings[i].status != d.bookings[i].status {
      BookingMovers(d, t, i);
    }
  }

  /** Although a start rechecks nothing, whoever is about to start a ride drives it. */
  lemma StartersDrive(acts: seq<Action>, p: nat)
    requires p in Play(acts).procs && Play(acts).procs[p].StartGuarded?
    ensures var q := Play(acts).procs[p];
            q.ride < |Play(acts).db.rides| && Play(acts).db.rides[q.ride].driver == q.driver
  {
    EveryScheduleIsSerial(acts);
    assert Knows(Play(acts).db, Play(acts).procs[p]);
  }

  // ---- Status changes ------------------------------------------------------

  /** A cancellation whose guard is stale overwrites a final status. */
  predicate Overwrites(d: Db, t: Txn, id: nat) {
    && t.Cancel? && t.id == id && id < |d.bookings| && Apply(d, t).Ok?
    && (d.bookings[id].status.NoShow? || d.bookings[id].status.Completed?)
  }

  /** A change of status lowers the rank exactly when it is not such a cancellation. */
  lemma RankFallsIff(d: Db, t: Txn, i: nat)
    requires i < |d.bookings| && i < |Exec(d, t).bookings| && Exec(d, t).bookings[i].status != d.bookings[i].status
    ensures Rank(Exec(d, t).bookings[i].status) < Rank(d.bookings[i].status) <==> !Overwrites(d, t, i)
  {
    BookingEdges(d, t, i);
  }

  lemma OverwrittenIsCancelled(d: Db, t: Txn, i: nat)
    requires i < |d.bookings|
    ensures i < |Exec(d, t).bookings|
    ensures d.bookings[i].status.Cancelled? || Overwrites(d, t, i) ==> Exec(d, t).bookings[i].status.Cancelled?
  {
    BookingMoves(d, t, i);
    BookingEdges(d, t, i);
  }

  /** How many times a run changes the status of a booking. */
  function Moves(ts: seq<Txn>, id: nat): nat {
    if ts == [] then 0
    else
      var bs, out := Run(EMPTY, ts[..|ts| - 1]).bookings, Run(EMPTY, ts).bookings;
      Moves(ts[..|ts| - 1], id) + if id < |bs| && id < |out| && out[id].status != bs[id].status then 1 else 0
  }

  /** Somewhere in the run a cancellation overwrites a final status of the booking. */
  predicate Overwritten(ts: seq<Txn>, id: nat) {
    ts != [] && (Overwritten(ts[..|ts| - 1], id) || Overwrites(Run(EMPTY, ts[..|ts| - 1]), ts[|ts| - 1], id))
  }

  lemma {:induction false} MovesDescend(ts: seq<Txn>, id: nat)
    ensures var bs := Run(EMPTY, ts).bookings;
            && Moves(ts, id) + (if id < |bs| then Rank(bs[id].status) else 4) <= 4 + (if Overwritten(ts, id) then 1 else 0)
            && (Overwritten(ts, id) ==> id < |bs| && bs[id].status.Cancelled?)
  {
    if ts != [] {
      var before, t := ts[..|ts| - 1], ts[|ts| - 1];
      var d := Run(EMPTY, before);
      MovesDescend(before, id);
      if id < |d.bookings| {
        OverwrittenIsCancelled(d, t, id);
        if Exec(d, t).bookings[id].status != d.bookings[id].status {
          RankFallsIff(d, t, id);
        }
      }
    }
  }

  /**
   Whatever the interleaving, a booking's status changes at most five times, and at most four unless
   a cancellation commits when the booking is already completed or a no-show.
   */
  lemma FiveChangesUnderInterleaving(acts: seq<Action>, id: nat)
    ensures Play(acts).db == Run(EMPTY, Committed(acts)) && Moves(Committed(acts), id) <= 5
    ensures !Overwritten(Committed(acts), id) ==> Moves(Committed(acts), id) <= 4
  {
    EveryScheduleIsSerial(acts);
    MovesDescend(Committed(acts), id);
  }
}
