/**
 What each database transaction does when it runs alone: its guards in order, the
 error it reports, and the rows it writes. A failed transaction rolls back, so a
 `Fail` carries no database.
 */
module Transactions {
  import opened Model
  import opened Fares

  datatype Error =
    | BadSeats | BadRide | RideNotFound | BookingNotFound | NotAuthorised | OwnRide | Departed
    | AlreadyBooked | NotOnRoute | SegmentOrder | SegmentCapacity | SegmentFull | CheckViolation
    | TooEarly | TooLate | BadStatus | NotCancellable
    | RideIs(rideStatus: RideStatus) | BookingIs(bookingStatus: BookingStatus)

  datatype Reply = Ok(db: Db, id: nat) | Fail(error: Error)

  /** The outcome of a guard. */
  datatype Verdict = Pass | Stop(error: Error)

  datatype Role = Driver | Rider

  /**
   A booking request. The four location fields are the spatial database's answers for
   the requested points on the ride's route: where along the route they fall, and
   whether they lie within 5000 metres of it.
   */
  datatype CreateRequest = CreateRequest(key: string, ride: nat, seats: int,
                                         pickupAt: real, dropoffAt: real,
                                         pickupNear: bool, dropoffNear: bool)

  const HOUR := 3600
  const MINUTE := 60

  // ---- Bookings ------------------------------------------------------------

  /** Guards of the creation transaction that read only the locked ride row. */
  function RideGuard(r: Ride, now: int, rider: UserId): Verdict {
    if r.driver == rider then Stop(OwnRide)
    else if !Bookable(r.status) then Stop(RideIs(r.status))
    else if r.departure < now - HOUR then Stop(Departed)
    else Pass
  }

  /** Location guards: both points near the route, and in order after snapping. */
  function SegmentGuard(req: CreateRequest): (v: Verdict)
    ensures v.Pass? ==> 0.0 <= SnapPickup(req.pickupAt) < SnapDropoff(req.dropoffAt) <= 1.0
  {
    if !req.pickupNear || !req.dropoffNear then Stop(NotOnRoute)
    else if SnapPickup(req.pickupAt) >= SnapDropoff(req.dropoffAt) then Stop(SegmentOrder)
    else Pass
  }

  predicate Fits(bs: seq<Booking>, ride: nat, pickup: real, dropoff: real, seats: int, total: nat) {
    Occupied(bs, ride, pickup, dropoff) + seats <= total
  }

  function NewBooking(r: Ride, rider: UserId, req: CreateRequest): Booking
    requires req.seats >= 1
  {
    var p, d := SnapPickup(req.pickupAt), SnapDropoff(req.dropoffAt);
    Booking(req.ride, rider, req.seats, BookingStatus.Pending, p, d, TotalFare(r.price, p, d, req.seats), req.key)
  }

  function CreateTx(d: Db, now: int, rider: UserId, req: CreateRequest): Reply {
    if req.seats < 1 then Fail(BadSeats)
    else if req.ride >= |d.rides| then Fail(RideNotFound)
    else
      var r := d.rides[req.ride];
      var p, q := SnapPickup(req.pickupAt), SnapDropoff(req.dropoffAt);
      if RideGuard(r, now, rider).Stop? then Fail(RideGuard(r, now, rider).error)
      else if HasOpen(d.bookings, req.ride, rider) then Fail(AlreadyBooked)
      else if SegmentGuard(req).Stop? then Fail(SegmentGuard(req).error)
      else if !Fits(d.bookings, req.ride, p, q, req.seats, r.total) then Fail(SegmentCapacity)
      else Ok(d.(bookings := d.bookings + [NewBooking(r, rider, req)]), |d.bookings|)
  }

  function Debit(r: Ride, seats: nat): Ride {
    r.(available := if r.available >= seats then r.available - seats else 0)
  }

  /** The seat credit of cancellation and no-show, before the table constraint is checked. */
  function Credit(r: Ride, seats: nat, now: int): Ride {
    r.(available := r.available + seats,
       status := if r.status.Full? && r.available + seats > 0
                 then (if r.departure > now then RideStatus.Scheduled else RideStatus.Active)
                 else r.status)
  }

  function WithStatus(bs: seq<Booking>, id: nat, s: BookingStatus): seq<Booking>
    requires id < |bs|
  {
    bs[id := bs[id].(status := s)]
  }

  predicate Drives(d: Db, id: nat, user: UserId) {
    id < |d.bookings| && d.bookings[id].ride < |d.rides| && d.rides[d.bookings[id].ride].driver == user
  }

  function ConfirmTx(d: Db, id: nat, driver: UserId): Reply {
    if !Drives(d, id, driver) then Fail(NotAuthorised)
    else
      var b := d.bookings[id];
      var r := d.rides[b.ride];
      if !b.status.Pending? then Fail(BookingIs(b.status))
      else if !Bookable(r.status) then Fail(RideIs(r.status))
      else if !Fits(d.bookings, b.ride, b.pickup, b.dropoff, b.seats, r.total) then Fail(SegmentFull)
      else Ok(Db(d.rides[b.ride := Debit(r, b.seats)],
                 WithStatus(d.bookings, id, BookingStatus.Confirmed)), id)
  }

  predicate Credited(s: BookingStatus) {
    s.Confirmed? || s.RiderReady?
  }

  predicate MayCancel(d: Db, id: nat, actor: UserId, role: Role) {
    id < |d.bookings| && (if role.Driver? then Drives(d, id, actor) else d.bookings[id].rider == actor)
  }

  /** Writes the final status and, when seats were held, credits them; the table constraint may veto. */
  function CloseAndCredit(d: Db, id: nat, s: BookingStatus, credit: bool, now: int): Reply
    requires id < |d.bookings| && d.bookings[id].ride < |d.rides|
  {
    var b := d.bookings[id];
    var bs := WithStatus(d.bookings, id, s);
    if !credit then Ok(d.(bookings := bs), id)
    else
      var r := Credit(d.rides[b.ride], b.seats, now);
      if r.available > r.total then Fail(CheckViolation)
      else Ok(Db(d.rides[b.ride := r], bs), id)
  }

  function CancelTx(d: Db, id: nat, actor: UserId, role: Role, now: int): Reply {
    if id >= |d.bookings| || d.bookings[id].ride >= |d.rides| then Fail(BookingNotFound)
    else if !MayCancel(d, id, actor, role) then Fail(NotAuthorised)
    else CloseAndCredit(d, id, BookingStatus.Cancelled, Credited(d.bookings[id].status), now)
  }

  function ReadyTx(d: Db, id: nat, rider: UserId): Reply {
    if id < |d.bookings| && d.bookings[id].rider == rider && d.bookings[id].status.Confirmed?
    then Ok(d.(bookings := WithStatus(d.bookings, id, BookingStatus.RiderReady)), id)
    else Fail(NotAuthorised)
  }

  /** `seen` is the ride status in the statement's snapshot. */
  function PickUpTx(d: Db, id: nat, driver: UserId, seen: RideStatus): Reply {
    if Drives(d, id, driver) && seen.Active? && Credited(d.bookings[id].status)
    then Ok(d.(bookings := WithStatus(d.bookings, id, BookingStatus.PickedUp)), id)
    else Fail(NotAuthorised)
  }

  function DropTx(d: Db, id: nat, driver: UserId): Reply {
    if Drives(d, id, driver) && d.bookings[id].status.PickedUp?
    then Ok(d.(bookings := WithStatus(d.bookings, id, BookingStatus.Completed)), id)
    else Fail(NotAuthorised)
  }

  function NoShowTx(d: Db, id: nat, driver: UserId, seen: RideStatus, now: int): Reply {
    if Drives(d, id, driver) && seen.Active? && Credited(d.bookings[id].status)
    then CloseAndCredit(d, id, BookingStatus.NoShow, true, now)
    else Fail(NotAuthorised)
  }

  /** Cancels the given rows of a ride whose status is in the set the statement names. */
  function CancelRows(bs: seq<Booking>, ride: nat, rows: set<nat>, onlyPending: bool): (out: seq<Booking>)
    ensures |out| == |bs|
  {
    seq(|bs|, i requires 0 <= i < |bs| =>
      if i in rows && CancelsRow(bs[i], ride, onlyPending)
      then bs[i].(status := BookingStatus.Cancelled) else bs[i])
  }

  predicate CancelsRow(b: Booking, ride: nat, onlyPending: bool) {
    && b.ride == ride
    && (b.status.Pending? || (!onlyPending && Credited(b.status)))
  }

  // ---- Rides ---------------------------------------------------------------

  function RideCreateTx(d: Db, now: int, driver: UserId, route: nat, departure: int, total: int, price: real): Reply {
    if total < 1 || price < 0.0 || departure < now then Fail(BadRide)
    else Ok(d.(rides := d.rides + [Ride(driver, route, departure, total, total, price, RideStatus.Scheduled)]),
            |d.rides|)
  }

  function Updated(r: Ride, departure: int, total: int, price: real): Ride {
    r.(departure := departure,
       total := if total > 0 then total else r.total,
       price := if price > 0.0 then price else r.price)
  }

  function UpdateTx(d: Db, now: int, ride: nat, driver: UserId, departure: int, total: int, price: real): Reply {
    if departure < now then Fail(BadRide)
    else if ride >= |d.rides| || d.rides[ride].driver != driver then Fail(RideNotFound)
    else
      var r := Updated(d.rides[ride], departure, total, price);
      if r.available > r.total then Fail(CheckViolation)
      else Ok(d.(rides := d.rides[ride := r]), ride)
  }

  function SetRideStatus(d: Db, ride: nat, s: RideStatus): Db
    requires ride < |d.rides|
  {
    d.(rides := d.rides[ride := d.rides[ride].(status := s)])
  }

  /** The manual status endpoint: active or completed, from any status. */
  function ManualStatusTx(d: Db, ride: nat, driver: UserId, s: RideStatus): Reply {
    if !s.Active? && !s.Completed? then Fail(BadStatus)
    else if ride >= |d.rides| || d.rides[ride].driver != driver then Fail(RideNotFound)
    else Ok(SetRideStatus(d, ride, s), ride)
  }

  function RideCancelTx(d: Db, ride: nat, driver: UserId): Reply {
    if ride < |d.rides| && d.rides[ride].driver == driver
       && (d.rides[ride].status.Scheduled? || d.rides[ride].status.Full?)
    then Ok(SetRideStatus(d, ride, RideStatus.Cancelled), ride)
    else Fail(RideNotFound)
  }

  function StartTx(d: Db, ride: nat): Reply {
    if ride < |d.rides| then Ok(SetRideStatus(d, ride, RideStatus.Active), ride) else Fail(RideNotFound)
  }

  function OpenOn(bs: seq<Booking>, ride: nat): set<nat> {
    set i | 0 <= i < |bs| && bs[i].ride == ride && Open(bs[i].status)
  }

  /** Completion: decided from an earlier count of open bookings and an earlier read of the status. */
  function CompleteTx(d: Db, ride: nat, noneOpen: bool, seen: RideStatus): Reply {
    if ride < |d.rides| && noneOpen && seen.Active?
    then Ok(SetRideStatus(d, ride, RideStatus.Completed), ride)
    else Ok(d, ride)
  }

  // ---- Transactions as data ------------------------------------------------

  datatype Txn =
    | Create(now: int, rider: UserId, req: CreateRequest)
    | Confirm(id: nat, driver: UserId)
    | Cancel(id: nat, actor: UserId, role: Role, now: int)
    | Ready(id: nat, rider: UserId)
    | PickUp(id: nat, driver: UserId, seen: RideStatus)
    | Drop(id: nat, driver: UserId)
    | MissRide(id: nat, driver: UserId, seen: RideStatus, now: int)
    | Complete(ride: nat, noneOpen: bool, seen: RideStatus)
    | Start(ride: nat)
    | RideCreate(now: int, driver: UserId, route: nat, departure: int, total: int, price: real)
    | RideUpdate(now: int, ride: nat, driver: UserId, departure: int, total: int, price: real)
    | ManualStatus(ride: nat, driver: UserId, status: RideStatus)
    | RideCancel(ride: nat, driver: UserId)
    | CancelSome(ride: nat, rows: set<nat>, onlyPending: bool)

  function Apply(d: Db, t: Txn): Reply {
    match t
    case Create(now, rider, req) => CreateTx(d, now, rider, req)
    case Confirm(id, driver) => ConfirmTx(d, id, driver)
    case Cancel(id, actor, role, now) => CancelTx(d, id, actor, role, now)
    case Ready(id, rider) => ReadyTx(d, id, rider)
    case PickUp(id, driver, seen) => PickUpTx(d, id, driver, seen)
    case Drop(id, driver) => DropTx(d, id, driver)
    case MissRide(id, driver, seen, now) => NoShowTx(d, id, driver, seen, now)
    case Complete(ride, noneOpen, seen) => CompleteTx(d, ride, noneOpen, seen)
    case Start(ride) => StartTx(d, ride)
    case RideCreate(now, driver, route, departure, total, price) =>
      RideCreateTx(d, now, driver, route, departure, total, price)
    case RideUpdate(now, ride, driver, departure, total, price) =>
      UpdateTx(d, now, ride, driver, departure, total, price)
    case ManualStatus(ride, driver, status) => ManualStatusTx(d, ride, driver, status)
    case RideCancel(ride, driver) => RideCancelTx(d, ride, driver)
    case CancelSome(ride, rows, onlyPending) =>
      Ok(d.(bookings := CancelRows(d.bookings, ride, rows, onlyPending)), ride)
  }

  /** The database after a transaction: unchanged when it fails. */
  function Exec(d: Db, t: Txn): Db {
    match Apply(d, t)
    case Ok(d', _) => d'
    case Fail(_) => d
  }

  /** The database after transactions that run one after the other. */
  function Run(d: Db, ts: seq<Txn>): Db {
    if ts == [] then d else Exec(Run(d, ts[..|ts| - 1]), ts[|ts| - 1])
  }

  const EMPTY := Db([], [])

  lemma RunSnoc(d: Db, ts: seq<Txn>, t: Txn)
    ensures Run(d, ts + [t]) == Exec(Run(d, ts), t)
  {
  }

  lemma RunOne(d: Db, t: Txn)
    ensures Run(d, [t]) == Exec(d, t)
  {
  }

  lemma RunTwo(d: Db, t: Txn, u: Txn)
    ensures Run(d, [t, u]) == Exec(Exec(d, t), u)
  {
    assert [t, u][..1] == [t];
    RunOne(d, t);
  }

  lemma {:induction false} RunAppend(d: Db, ts: seq<Txn>, us: seq<Txn>)
    ensures Run(d, ts + us) == Run(Run(d, ts), us)
  {
    if us == [] {
      assert ts + us == ts;
    } else {
      assert (ts + us)[..|ts + us| - 1] == ts + us[..|us| - 1];
      RunAppend(d, ts, us[..|us| - 1]);
    }
  }
}
