/**
 The two tables of the ride-sharing database. A row's id is its position in the
 table: rows are only ever appended, never deleted.
 */
module Model {
  import opened Sums

  type UserId = string

  datatype RideStatus = Scheduled | Active | Full | Cancelled | Completed

  datatype BookingStatus =
    | Pending | Confirmed | RiderReady | PickedUp | NoShow | Cancelled | Completed

  /** `route` names the stored polyline, which no statement ever updates. */
  datatype Ride = Ride(driver: UserId, route: nat, departure: int, total: nat, available: nat,
                       price: real, status: RideStatus)

  /** `pickup` and `dropoff` are fractions of the route; `key` is the idempotency key ("" for none). */
  datatype Booking = Booking(ride: nat, rider: UserId, seats: nat, status: BookingStatus,
                             pickup: real, dropoff: real, totalPrice: int, key: string)

  datatype Db = Db(rides: seq<Ride>, bookings: seq<Booking>)

  /** Statuses that hold seats on the route. */
  predicate Occupies(s: BookingStatus) {
    s.Confirmed? || s.RiderReady? || s.PickedUp?
  }

  /** Statuses that count as an active booking of a rider on a ride. */
  predicate Open(s: BookingStatus) {
    s.Pending? || Occupies(s)
  }

  /** Statuses in which a ride accepts bookings and appears in searches. */
  predicate Bookable(s: RideStatus) {
    s.Scheduled? || s.Active? || s.Full?
  }

  /** The overlap test of the capacity queries, with its tolerance of 0.02 at both ends. */
  predicate Overlaps(b: Booking, pickup: real, dropoff: real) {
    b.pickup + 0.02 < dropoff && b.dropoff - 0.02 > pickup
  }

  function OccupiedWeight(b: Booking, ride: nat, pickup: real, dropoff: real): nat {
    if b.ride == ride && Occupies(b.status) && Overlaps(b, pickup, dropoff) then b.seats else 0
  }

  function OccupiedWeights(bs: seq<Booking>, ride: nat, pickup: real, dropoff: real): seq<nat> {
    seq(|bs|, i requires 0 <= i < |bs| => OccupiedWeight(bs[i], ride, pickup, dropoff))
  }

  /** Seats taken on a ride by bookings that overlap the segment. */
  function Occupied(bs: seq<Booking>, ride: nat, pickup: real, dropoff: real): nat {
    Sum(OccupiedWeights(bs, ride, pickup, dropoff))
  }

  /** Does the rider already have an active booking on the ride? */
  predicate HasOpen(bs: seq<Booking>, ride: nat, rider: UserId) {
    exists i :: 0 <= i < |bs| && bs[i].ride == ride && bs[i].rider == rider && Open(bs[i].status)
  }

  /** The table constraints, with the segment order that every insert respects. */
  ghost predicate Wf(d: Db) {
    && (forall r :: 0 <= r < |d.rides| ==> 1 <= d.rides[r].total && d.rides[r].available <= d.rides[r].total)
    && (forall i :: 0 <= i < |d.bookings| ==>
          && d.bookings[i].ride < |d.rides|
          && 1 <= d.bookings[i].seats
          && 0.0 <= d.bookings[i].pickup < d.bookings[i].dropoff <= 1.0)
  }
}
