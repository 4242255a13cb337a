/**
 The endpoints when each runs without interruption: the handler's guards, read from the
 committed tables, followed by one or two transactions. Cancelling a ride is the exception:
 its bookings are cancelled by a separate background step.
 */
module Endpoints {
  import opened Options
  import opened Model
  import opened Transactions

  /** The first booking carrying the key. */
  function FindKey(bs: seq<Booking>, key: string): (found: Option<nat>)
    ensures found.Some? ==> found.value < |bs| && bs[found.value].key == key
    ensures found.None? ==> forall i :: 0 <= i < |bs| ==> bs[i].key != key
  {
    if bs == [] then None
    else
      var earlier := FindKey(bs[..|bs| - 1], key);
      if earlier.Some? then earlier
      else if bs[|bs| - 1].key == key then Some(|bs| - 1)
      else None
  }

  // ---- Guards --------------------------------------------------------------

  function RoleOf(d: Db, id: nat, user: UserId): Role {
    if Drives(d, id, user) then Driver else Rider
  }

  function CancelGuard(d: Db, id: nat, user: UserId, now: int): Verdict {
    if id >= |d.bookings| || d.bookings[id].ride >= |d.rides| then Stop(BookingNotFound)
    else
      var b := d.bookings[id];
      if user != d.rides[b.ride].driver && user != b.rider then Stop(NotAuthorised)
      else if !b.status.Pending? && !Credited(b.status) then Stop(NotCancellable)
      else if Credited(b.status) && d.rides[b.ride].departure - now < HOUR then Stop(TooLate)
      else Pass
  }

  /** `located`: the rider gave valid coordinates and is near the pickup point. */
  function ReadyGuard(d: Db, id: nat, user: UserId, now: int, located: bool): Verdict {
    if id >= |d.bookings| || d.bookings[id].ride >= |d.rides| then Stop(BookingNotFound)
    else
      var b := d.bookings[id];
      if b.rider != user then Stop(NotAuthorised)
      else if !b.status.Confirmed? then Stop(BookingIs(b.status))
      else if now < d.rides[b.ride].departure - 30 * MINUTE then Stop(TooEarly)
      else if !located then Stop(NotOnRoute)
      else Pass
  }

  function StartGuard(d: Db, ride: nat, user: UserId, now: int): Verdict {
    if ride >= |d.rides| then Stop(RideNotFound)
    else
      var r := d.rides[ride];
      if r.driver != user then Stop(NotAuthorised)
      else if !r.status.Scheduled? && !r.status.Full? then Stop(RideIs(r.status))
      else if now < r.departure - 30 * MINUTE then Stop(TooEarly)
      else if now > r.departure + 60 * MINUTE then Stop(TooLate)
      else Pass
  }

  /** Guards shared by the driver's endpoints on one booking. */
  function DriverGuard(d: Db, id: nat, user: UserId): Verdict {
    if id >= |d.bookings| || d.bookings[id].ride >= |d.rides| then Stop(BookingNotFound)
    else if !Drives(d, id, user) then Stop(NotAuthorised)
    else Pass
  }

  /** `located`: the driver is near the rider's pickup point. */
  function PickUpGuard(d: Db, id: nat, user: UserId, located: bool): Verdict {
    if DriverGuard(d, id, user).Stop? then DriverGuard(d, id, user)
    else
      var b := d.bookings[id];
      if !d.rides[b.ride].status.Active? then Stop(RideIs(d.rides[b.ride].status))
      else if !Credited(b.status) then Stop(BookingIs(b.status))
      else if !located then Stop(NotOnRoute)
      else Pass
  }

  function DropGuard(d: Db, id: nat, user: UserId): Verdict {
    if DriverGuard(d, id, user).Stop? then DriverGuard(d, id, user)
    else if !d.bookings[id].status.PickedUp? then Stop(BookingIs(d.bookings[id].status))
    else Pass
  }

  function NoShowGuard(d: Db, id: nat, user: UserId, now: int): Verdict {
    if DriverGuard(d, id, user).Stop? then DriverGuard(d, id, user)
    else
      var b := d.bookings[id];
      if !d.rides[b.ride].status.Active? then Stop(RideIs(d.rides[b.ride].status))
      else if !Credited(b.status) then Stop(BookingIs(b.status))
      else if now < d.rides[b.ride].departure + 10 * MINUTE then Stop(TooEarly)
      else Pass
  }

  /** Bookings whose presence makes a late ride cancellation impossible. */
  predicate HasActiveBooking(bs: seq<Booking>, ride: nat) {
    exists i :: 0 <= i < |bs| && bs[i].ride == ride && (bs[i].status.Pending? || bs[i].status.Confirmed?)
  }

  function RideCancelGuard(d: Db, ride: nat, user: UserId, now: int): Verdict {
    if ride >= |d.rides| then Stop(RideNotFound)
    else
      var r := d.rides[ride];
      if r.driver != user then Stop(NotAuthorised)
      else if !r.status.Scheduled? && !r.status.Full? then Stop(RideIs(r.status))
      else if HasActiveBooking(d.bookings, ride) && r.departure - now < HOUR then Stop(TooLate)
      else Pass
  }

  // ---- Endpoints -----------------------------------------------------------

  function Guarded(v: Verdict, d: Db, t: Txn): Reply {
    if v.Stop? then Fail(v.error) else Apply(d, t)
  }

  function RowsOf(bs: seq<Booking>, ride: nat): set<nat> {
    set i | 0 <= i < |bs| && bs[i].ride == ride
  }

  /** An idempotent request returns the booking it made the first time. */
  function CreateBooking(d: Db, now: int, rider: UserId, req: CreateRequest): Reply {
    if req.seats < 1 then Fail(BadSeats)
    else if req.key != "" && FindKey(d.bookings, req.key).Some? then Ok(d, FindKey(d.bookings, req.key).value)
    else CreateTx(d, now, rider, req)
  }

  /** A confirmation that leaves the ride full cancels the other pending bookings. */
  function ConfirmBooking(d: Db, id: nat, driver: UserId): Reply {
    match ConfirmTx(d, id, driver)
    case Fail(e) => Fail(e)
    case Ok(d', _) =>
      var ride := d'.bookings[id].ride;
      if d'.rides[ride].status.Full?
      then Ok(Exec(d', CancelSome(ride, RowsOf(d'.bookings, ride) - {id}, true)), id)
      else Ok(d', id)
  }

  /** The completion check that follows a drop-off or a no-show. */
  function ThenComplete(reply: Reply): Reply
    requires reply.Ok? ==> reply.id < |reply.db.bookings|
  {
    match reply
    case Fail(e) => Fail(e)
    case Ok(d, id) =>
      var ride := d.bookings[id].ride;
      if ride < |d.rides|
      then Ok(Exec(d, Complete(ride, OpenOn(d.bookings, ride) == {}, d.rides[ride].status)), id)
      else reply
  }

  datatype Call =
    | CallRideCreate(now: int, user: UserId, route: nat, departure: int, total: int, price: real)
    | CallRideUpdate(now: int, ride: nat, user: UserId, departure: int, total: int, price: real)
    | CallManualStatus(ride: nat, user: UserId, status: RideStatus)
    | CallRideCancel(now: int, ride: nat, user: UserId)
    | CallStart(now: int, ride: nat, user: UserId)
    | CallCreate(now: int, user: UserId, req: CreateRequest)
    | CallConfirm(id: nat, user: UserId)
    | CallCancel(now: int, id: nat, user: UserId)
    | CallReady(now: int, id: nat, user: UserId, located: bool)
    | CallPickUp(id: nat, user: UserId, located: bool)
    | CallDrop(id: nat, user: UserId)
    | CallNoShow(now: int, id: nat, user: UserId)

  function StatusSeen(d: Db, id: nat): RideStatus {
    if id < |d.bookings| && d.bookings[id].ride < |d.rides| then d.rides[d.bookings[id].ride].status
    else RideStatus.Cancelled
  }

  function Serve(d: Db, c: Call): Reply {
    match c
    case CallRideCreate(now, user, route, departure, total, price) =>
      RideCreateTx(d, now, user, route, departure, total, price)
    case CallRideUpdate(now, ride, user, departure, total, price) =>
      UpdateTx(d, now, ride, user, departure, total, price)
    case CallManualStatus(ride, user, status) => ManualStatusTx(d, ride, user, status)
    case CallRideCancel(now, ride, user) => Guarded(RideCancelGuard(d, ride, user, now), d, RideCancel(ride, user))
    case CallStart(now, ride, user) => Guarded(StartGuard(d, ride, user, now), d, Start(ride))
    case CallCreate(now, user, req) => CreateBooking(d, now, user, req)
    case CallConfirm(id, user) => ConfirmBooking(d, id, user)
    case CallCancel(now, id, user) =>
      Guarded(CancelGuard(d, id, user, now), d, Cancel(id, user, RoleOf(d, id, user), now))
    case CallReady(now, id, user, located) => Guarded(ReadyGuard(d, id, user, now, located), d, Ready(id, user))
    case CallPickUp(id, user, located) =>
      Guarded(PickUpGuard(d, id, user, located), d, PickUp(id, user, StatusSeen(d, id)))
    case CallDrop(id, user) => ThenComplete(Guarded(DropGuard(d, id, user), d, Drop(id, user)))
    case CallNoShow(now, id, user) =>
      ThenComplete(Guarded(NoShowGuard(d, id, user, now), d, MissRide(id, user, StatusSeen(d, id), now)))
  }

  function ServeDb(d: Db, c: Call): Db {
    if Serve(d, c).Ok? then Serve(d, c).db else d
  }

  /** The tables, and the cancelled rides whose bookings are still to be cancelled in the background. */
  datatype World = World(db: Db, due: set<nat>)

  datatype Event = Request(call: Call) | Cascade(ride: nat)

  function Cascaded(d: Db, ride: nat): Db {
    Exec(d, CancelSome(ride, RowsOf(d.bookings, ride), false))
  }

  function After(w: World, e: Event): World {
    match e
    case Request(c) =>
      World(ServeDb(w.db, c), if c.CallRideCancel? && Serve(w.db, c).Ok? then w.due + {c.ride} else w.due)
    case Cascade(ride) =>
      if ride in w.due then World(Cascaded(w.db, ride), w.due - {ride}) else w
  }

  function History(es: seq<Event>): World {
    if es == [] then World(EMPTY, {}) else After(History(es[..|es| - 1]), es[|es| - 1])
  }
}
