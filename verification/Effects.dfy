/** What any single transaction can do to a row: the facts every run is built from. */
module Effects {
  import opened Model
  import opened Transactions

  /** A booking keeps everything but its status, never reopens, and only its own confirmation makes it occupy seats. */
  lemma BookingMoves(d: Db, t: Txn, i: nat)
    requires i < |d.bookings|
    ensures i < |Exec(d, t).bookings|
    ensures var b, b' := d.bookings[i], Exec(d, t).bookings[i];
            && b'.(status := b.status) == b
            && (Open(b'.status) ==> Open(b.status))
            && (b'.status.Pending? ==> b.status.Pending?)
            && (Occupies(b'.status) && !(t.Confirm? && t.id == i) ==> Occupies(b.status))
  {
  }

  /** Every change of a booking's status: which transaction makes it, and from which statuses. */
  lemma BookingEdges(d: Db, t: Txn, i: nat)
    requires i < |d.bookings| && i < |Exec(d, t).bookings|
    ensures var s, s' := d.bookings[i].status, Exec(d, t).bookings[i].status;
            s' != s ==>
              match s'
              case Pending => false
              case Confirmed => t.Confirm? && t.id == i && s.Pending?
              case RiderReady => t.Ready? && t.id == i && s.Confirmed?
              case PickedUp => t.PickUp? && t.id == i && Credited(s) && t.seen.Active?
              case NoShow => t.MissRide? && t.id == i && Credited(s) && t.seen.Active?
              case Completed => t.Drop? && t.id == i && s.PickedUp?
              case Cancelled => (t.Cancel? && t.id == i)
                                || (t.CancelSome? && i in t.rows && (s.Pending? || (!t.onlyPending && Credited(s))))
  {
  }

  /** Who changes a booking's status: the rider reports ready, the driver moves it on, either of them cancels. */
  lemma BookingMovers(d: Db, t: Txn, i: nat)
    requires i < |d.bookings| && i < |Exec(d, t).bookings| && Exec(d, t).bookings[i].status != d.bookings[i].status
    requires d.bookings[i].ride < |d.rides|
    ensures var rider, driver := d.bookings[i].rider, d.rides[d.bookings[i].ride].driver;
            match t
            case Ready(_, user) => user == rider
            case Confirm(_, user) => user == driver
            case PickUp(_, user, _) => user == driver
            case Drop(_, user) => user == driver
            case MissRide(_, user, _, _) => user == driver
            case Cancel(_, user, _, _) => user == rider || user == driver
            case CancelSome(ride, _, _) => ride == d.bookings[i].ride
            case _ => false
  {
  }

  /** Every change of a ride's status: which transaction makes it, and from which statuses. */
  lemma RideEdges(d: Db, t: Txn, r: nat)
    requires r < |d.rides| && r < |Exec(d, t).rides|
    ensures var s, s' := d.rides[r].status, Exec(d, t).rides[r].status;
            s' != s ==>
              match s'
              case Scheduled => s.Full? && (t.Cancel? || t.MissRide?)
              case Active => ((t.Start? || t.ManualStatus?) && t.ride == r) || (s.Full? && (t.Cancel? || t.MissRide?))
              case Completed => (t.Complete? && t.ride == r && t.noneOpen && t.seen.Active?) || (t.ManualStatus? && t.ride == r)
              case Cancelled => t.RideCancel? && t.ride == r && (s.Scheduled? || s.Full?)
              case Full => false
  {
  }

  /** Who sets a ride's columns: its driver, but for the counter and what a booking's end does to the status. */
  lemma RideMovers(d: Db, t: Txn, r: nat)
    requires r < |d.rides| && r < |Exec(d, t).rides| && Exec(d, t).rides[r] != d.rides[r]
    ensures match t
            case RideUpdate(_, ride, user, _, _, _) => ride == r && user == d.rides[r].driver
            case ManualStatus(ride, user, _) => ride == r && user == d.rides[r].driver
            case RideCancel(ride, user) => ride == r && user == d.rides[r].driver
            case Start(ride) => ride == r
            case Complete(ride, _, _) => ride == r
            case Confirm(id, user) => id < |d.bookings| && d.bookings[id].ride == r && user == d.rides[r].driver
            case MissRide(id, user, _, _) => id < |d.bookings| && d.bookings[id].ride == r && user == d.rides[r].driver
            case Cancel(id, user, _, _) =>
              id < |d.bookings| && d.bookings[id].ride == r && (user == d.bookings[id].rider || user == d.rides[r].driver)
            case _ => false
  {
  }

  /** Only a creation adds a booking, and exactly one. */
  lemma BookingAppears(d: Db, t: Txn, i: nat)
    requires |d.bookings| <= i < |Exec(d, t).bookings|
    ensures t.Create? && CreateTx(d, t.now, t.rider, t.req).Ok? && i == |d.bookings|
    ensures Exec(d, t).bookings[i] == NewBooking(d.rides[t.req.ride], t.rider, t.req)
    ensures Exec(d, t).rides == d.rides
  {
  }

  /** A ride keeps its driver, and its seat counts within the table constraints. */
  lemma RideMoves(d: Db, t: Txn, r: nat)
    requires r < |d.rides|
    ensures r < |Exec(d, t).rides|
    ensures var a, a' := d.rides[r], Exec(d, t).rides[r];
            a'.driver == a.driver && (1 <= a.total && a.available <= a.total ==> 1 <= a'.total && a'.available <= a'.total)
  {
  }

  lemma RideAppears(d: Db, t: Txn, r: nat)
    requires |d.rides| <= r < |Exec(d, t).rides|
    ensures t.RideCreate? && r == |d.rides|
    ensures var a := Exec(d, t).rides[r]; 1 <= a.total == a.available && a.status.Scheduled?
    ensures Exec(d, t).bookings == d.bookings
  {
  }

  /** No row disappears, and only a booking's status and a ride's driver-independent columns change. */
  lemma ExecKeepsRows(d: Db, t: Txn)
    ensures |d.rides| <= |Exec(d, t).rides| && |d.bookings| <= |Exec(d, t).bookings|
    ensures forall r :: 0 <= r < |d.rides| ==> Exec(d, t).rides[r].driver == d.rides[r].driver
    ensures forall i :: 0 <= i < |d.bookings| ==>
              Exec(d, t).bookings[i].(status := d.bookings[i].status) == d.bookings[i]
  {
  }

  /** Every transaction keeps the table constraints. */
  lemma ExecWf(d: Db, t: Txn)
    requires Wf(d)
    ensures Wf(Exec(d, t))
  {
    var d' := Exec(d, t);
    ExecKeepsRows(d, t);
    forall r | 0 <= r < |d'.rides|
      ensures 1 <= d'.rides[r].total && d'.rides[r].available <= d'.rides[r].total
    {
      if r < |d.rides| {
        RideMoves(d, t, r);
      } else {
        RideAppears(d, t, r);
      }
    }
    forall i | 0 <= i < |d'.bookings|
      ensures d'.bookings[i].ride < |d'.rides| && 1 <= d'.bookings[i].seats
      ensures 0.0 <= d'.bookings[i].pickup < d'.bookings[i].dropoff <= 1.0
    {
      if i < |d.bookings| {
        BookingMoves(d, t, i);
      } else {
        BookingAppears(d, t, i);
      }
    }
  }
}
