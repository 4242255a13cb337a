/** The status summary's `can_*` flags, and how they agree with the endpoints they announce. */
module StatusFlags {
  import opened Model
  import opened Transactions
  import opened Endpoints

  predicate NotStarted(s: RideStatus) {
    s.Scheduled? || s.Full?
  }

  predicate CanCancelRide(d: Db, ride: nat, now: int)
    requires ride < |d.rides|
  {
    var r := d.rides[ride];
    NotStarted(r.status) && (!HasActiveBooking(d.bookings, ride) || r.departure - now > 60 * MINUTE)
  }

  predicate CanStart(d: Db, ride: nat, now: int)
    requires ride < |d.rides|
  {
    var r := d.rides[ride];
    NotStarted(r.status) && r.departure - now <= 30 * MINUTE && r.departure - now > -10 * MINUTE
  }

  predicate CanCancelBooking(b: Booking, r: Ride, now: int) {
    || (b.status.Pending? && r.status.Scheduled?)
    || (b.status.Confirmed? && r.status.Scheduled? && r.departure - now > 60 * MINUTE)
  }

  predicate CanMarkReady(b: Booking, r: Ride, now: int) {
    b.status.Confirmed? && r.departure - now <= 15 * MINUTE
  }

  /** The driver can cancel when the flag says so, and otherwise only at exactly one hour before departure. */
  lemma CancelRideFlag(d: Db, ride: nat, now: int)
    requires ride < |d.rides|
    ensures RideCancelGuard(d, ride, d.rides[ride].driver, now).Pass? <==>
            CanCancelRide(d, ride, now)
            || (NotStarted(d.rides[ride].status) && d.rides[ride].departure - now == HOUR)
  {
  }

  /** The driver can start when the flag says so, and also from 10 to 60 minutes after departure. */
  lemma StartFlag(d: Db, ride: nat, now: int)
    requires ride < |d.rides|
    ensures StartGuard(d, ride, d.rides[ride].driver, now).Pass? <==>
            CanStart(d, ride, now)
            || (NotStarted(d.rides[ride].status) && 10 * MINUTE <= now - d.rides[ride].departure <= 60 * MINUTE)
  {
  }

  /** The rider can cancel when the flag says so; the rest is what the flag leaves out. */
  lemma CancelBookingFlag(d: Db, id: nat, now: int)
    requires id < |d.bookings| && d.bookings[id].ride < |d.rides|
    ensures var b, r := d.bookings[id], d.rides[d.bookings[id].ride];
            CancelGuard(d, id, b.rider, now).Pass? <==>
            CanCancelBooking(b, r, now)
            || (b.status.Pending? && !r.status.Scheduled?)
            || (b.status.RiderReady? && r.departure - now >= HOUR)
            || (b.status.Confirmed? && (r.departure - now == HOUR || (r.departure - now > HOUR && !r.status.Scheduled?)))
  {
  }

  /** A rider near the pickup point can report ready when the flag says so, and up to 15 minutes earlier. */
  lemma MarkReadyFlag(d: Db, id: nat, now: int)
    requires id < |d.bookings| && d.bookings[id].ride < |d.rides|
    ensures var b, r := d.bookings[id], d.rides[d.bookings[id].ride];
            ReadyGuard(d, id, b.rider, now, true).Pass? <==>
            CanMarkReady(b, r, now) || (b.status.Confirmed? && 15 * MINUTE < r.departure - now <= 30 * MINUTE)
  {
  }
}
