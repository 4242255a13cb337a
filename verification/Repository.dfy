/** The tables as they are updated in place, one transaction per method. */
module Repositories {
  import opened Model
  import opened Fares
  import opened Transactions
  import opened Endpoints

  datatype Result = Success(id: nat) | Failure(error: Error)

  /** The method did what the transaction does: its writes and id, or its error and no change. */
  ghost predicate Fulfils(d: Db, reply: Reply, d': Db, r: Result) {
    match reply
    case Ok(db, id) => d' == db && r == Success(id)
    case Fail(e) => d' == d && r == Failure(e)
  }

  class Repository {
    var rides: seq<Ride>
    var bookings: seq<Booking>

    constructor ()
      ensures Tables() == EMPTY
    {
      rides, bookings := [], [];
    }

    function Tables(): Db
      reads this
    {
      Db(rides, bookings)
    }

    method SetStatus(id: nat, s: BookingStatus)
      requires id < |bookings|
      modifies this`bookings
      ensures bookings == WithStatus(old(bookings), id, s)
    {
      bookings := bookings[id := bookings[id].(status := s)];
    }

    method SetRide(ride: nat, s: RideStatus)
      requires ride < |rides|
      modifies this`rides
      ensures Tables() == SetRideStatus(old(Tables()), ride, s)
    {
      rides := rides[ride := rides[ride].(status := s)];
    }

    method Create(now: int, rider: UserId, req: CreateRequest) returns (r: Result)
      modifies this`bookings
      ensures Fulfils(old(Tables()), CreateBooking(old(Tables()), now, rider, req), Tables(), r)
    {
      if req.seats < 1 {
        return Failure(BadSeats);
      }
      if req.key != "" {
        var existing := FindKey(bookings, req.key);
        if existing.Some? {
          return Success(existing.value);
        }
      }
      if req.ride >= |rides| {
        return Failure(RideNotFound);
      }
      var row := rides[req.ride];
      if row.driver == rider {
        return Failure(OwnRide);
      }
      if row.status != RideStatus.Scheduled && row.status != RideStatus.Active && row.status != RideStatus.Full {
        return Failure(RideIs(row.status));
      }
      if row.departure < now - HOUR {
        return Failure(Departed);
      }
      if HasOpen(bookings, req.ride, rider) {
        return Failure(AlreadyBooked);
      }
      if !req.pickupNear || !req.dropoffNear {
        return Failure(NotOnRoute);
      }
      var pickup, dropoff := Clamp01(req.pickupAt), Clamp01(req.dropoffAt);
      if pickup < 0.05 {
        pickup := 0.0;
      }
      if dropoff > 0.95 {
        dropoff := 1.0;
      }
      if pickup >= dropoff {
        return Failure(SegmentOrder);
      }
      var occupied := Occupied(bookings, req.ride, pickup, dropoff);
      if occupied + req.seats > row.total {
        return Failure(SegmentCapacity);
      }
      var perSeat := SegmentFare(row.price, pickup, dropoff);
      var total := RoundMoney(Times(perSeat as real, req.seats));
      bookings := bookings + [Booking(req.ride, rider, req.seats, BookingStatus.Pending, pickup, dropoff, total, req.key)];
      return Success(|bookings| - 1);
    }

    method ConfirmBooking(id: nat, driver: UserId) returns (r: Result)
      modifies this
      ensures Fulfils(old(Tables()), ConfirmTx(old(Tables()), id, driver), Tables(), r)
    {
      if !Drives(Tables(), id, driver) {
        return Failure(NotAuthorised);
      }
      var b := bookings[id];
      var ride := rides[b.ride];
      if b.status != BookingStatus.Pending {
        return Failure(BookingIs(b.status));
      }
      if !Bookable(ride.status) {
        return Failure(RideIs(ride.status));
      }
      var occupied := Occupied(bookings, b.ride, b.pickup, b.dropoff);
      if occupied + b.seats > ride.total {
        return Failure(SegmentFull);
      }
      var left := ride.available - b.seats;
      rides := rides[b.ride := ride.(available := if left > 0 then left else 0)];
      SetStatus(id, BookingStatus.Confirmed);
      return Success(id);
    }

    /** The credit statement of cancellation and no-show; false when the table constraint rejects it. */
    method RestoreSeats(id: nat, now: int) returns (ok: bool)
      requires id < |bookings| && bookings[id].ride < |rides|
      modifies this`rides
      ensures var r := Credit(old(rides)[bookings[id].ride], bookings[id].seats, now);
              ok == (r.available <= r.total) && rides == if ok then old(rides)[bookings[id].ride := r] else old(rides)
    {
      var b := bookings[id];
      var ride := rides[b.ride];
      var available := ride.available + b.seats;
      if available > ride.total {
        return false;
      }
      var status := ride.status;
      if status == RideStatus.Full && available > 0 {
        status := if ride.departure > now then RideStatus.Scheduled else RideStatus.Active;
      }
      rides := rides[b.ride := ride.(available := available, status := status)];
      return true;
    }

    method CancelBooking(id: nat, actor: UserId, role: Role, now: int) returns (r: Result)
      modifies this
      ensures Fulfils(old(Tables()), CancelTx(old(Tables()), id, actor, role, now), Tables(), r)
    {
      if id >= |bookings| || bookings[id].ride >= |rides| {
        return Failure(BookingNotFound);
      }
      var current := bookings[id].status;
      if !MayCancel(Tables(), id, actor, role) {
        return Failure(NotAuthorised);
      }
      var saved := bookings;
      SetStatus(id, BookingStatus.Cancelled);
      if current == BookingStatus.Confirmed || current == BookingStatus.RiderReady {
        var ok := RestoreSeats(id, now);
        if !ok {
          bookings := saved;  // roll back
          return Failure(CheckViolation);
        }
      }
      return Success(id);
    }

    method MarkRiderReady(id: nat, rider: UserId) returns (r: Result)
      modifies this`bookings
      ensures Fulfils(old(Tables()), ReadyTx(old(Tables()), id, rider), Tables(), r)
    {
      if id < |bookings| && bookings[id].rider == rider && bookings[id].status == BookingStatus.Confirmed {
        SetStatus(id, BookingStatus.RiderReady);
        return Success(id);
      }
      return Failure(NotAuthorised);
    }

    method MarkPickedUp(id: nat, driver: UserId) returns (r: Result)
      modifies this`bookings
      ensures Fulfils(old(Tables()), PickUpTx(old(Tables()), id, driver, StatusSeen(old(Tables()), id)), Tables(), r)
    {
      if Drives(Tables(), id, driver) && rides[bookings[id].ride].status == RideStatus.Active && Credited(bookings[id].status) {
        SetStatus(id, BookingStatus.PickedUp);
        return Success(id);
      }
      return Failure(NotAuthorised);
    }

    method MarkDropped(id: nat, driver: UserId) returns (r: Result)
      modifies this`bookings
      ensures Fulfils(old(Tables()), DropTx(old(Tables()), id, driver), Tables(), r)
    {
      if Drives(Tables(), id, driver) && bookings[id].status == BookingStatus.PickedUp {
        SetStatus(id, BookingStatus.Completed);
        return Success(id);
      }
      return Failure(NotAuthorised);
    }

    method MarkNoShow(id: nat, driver: UserId, now: int) returns (r: Result)
      modifies this
      ensures Fulfils(old(Tables()), NoShowTx(old(Tables()), id, driver, StatusSeen(old(Tables()), id), now), Tables(), r)
    {
      if !Drives(Tables(), id, driver) || rides[bookings[id].ride].status != RideStatus.Active || !Credited(bookings[id].status) {
        return Failure(NotAuthorised);
      }
      var saved := bookings;
      SetStatus(id, BookingStatus.NoShow);
      var ok := RestoreSeats(id, now);
      if !ok {
        bookings := saved;  // roll back
        return Failure(CheckViolation);
      }
      return Success(id);
    }

    method CheckAndUpdateRideCompletion(ride: nat) returns (completed: bool)
      requires ride < |rides|
      modifies this`rides
      ensures Tables() == Exec(old(Tables()), Txn.Complete(ride, OpenOn(old(bookings), ride) == {}, old(rides)[ride].status))
      ensures completed <==> OpenOn(old(bookings), ride) == {} && old(rides)[ride].status.Active?
    {
      completed := false;
      if OpenOn(bookings, ride) == {} {
        if rides[ride].status == RideStatus.Active {
          SetRide(ride, RideStatus.Completed);
          completed := true;
        }
      }
    }

    method CancelPendingBookingsOnRide(ride: nat, exclude: nat)
      modifies this`bookings
      ensures Tables() == Exec(old(Tables()), CancelSome(ride, RowsOf(old(bookings), ride) - {exclude}, true))
    {
      bookings := CancelRows(bookings, ride, RowsOf(bookings, ride) - {exclude}, true);
    }

    /** The background statement that follows a ride cancellation. */
    method CascadeCancel(ride: nat)
      modifies this`bookings
      ensures Tables() == Exec(old(Tables()), CancelSome(ride, RowsOf(old(bookings), ride), false))
    {
      bookings := CancelRows(bookings, ride, RowsOf(bookings, ride), false);
    }

    method CreateRide(now: int, driver: UserId, route: nat, departure: int, total: int, price: real) returns (r: Result)
      modifies this`rides
      ensures Fulfils(old(Tables()), RideCreateTx(old(Tables()), now, driver, route, departure, total, price), Tables(), r)
    {
      if total < 1 || price < 0.0 || departure < now {
        return Failure(BadRide);
      }
      rides := rides + [Ride(driver, route, departure, total, total, price, RideStatus.Scheduled)];
      return Success(|rides| - 1);
    }

    method UpdateRide(now: int, ride: nat, driver: UserId, departure: int, total: int, price: real) returns (r: Result)
      modifies this`rides
      ensures Fulfils(old(Tables()), UpdateTx(old(Tables()), now, ride, driver, departure, total, price), Tables(), r)
    {
      if departure < now {
        return Failure(BadRide);
      }
      if ride >= |rides| || rides[ride].driver != driver {
        return Failure(RideNotFound);
      }
      var row := rides[ride];
      var newTotal := if total > 0 then total else row.total;
      var newPrice := if price > 0.0 then price else row.price;
      if row.available > newTotal {
        return Failure(CheckViolation);
      }
      rides := rides[ride := row.(departure := departure, total := newTotal, price := newPrice)];
      return Success(ride);
    }

    method UpdateRideStatus(ride: nat, driver: UserId, s: RideStatus) returns (r: Result)
      modifies this`rides
      ensures Fulfils(old(Tables()), ManualStatusTx(old(Tables()), ride, driver, s), Tables(), r)
    {
      if s != RideStatus.Active && s != RideStatus.Completed {
        return Failure(BadStatus);
      }
      if ride >= |rides| || rides[ride].driver != driver {
        return Failure(RideNotFound);
      }
      SetRide(ride, s);
      return Success(ride);
    }

    method CancelRide(ride: nat, driver: UserId) returns (r: Result)
      modifies this`rides
      ensures Fulfils(old(Tables()), RideCancelTx(old(Tables()), ride, driver), Tables(), r)
    {
      if ride < |rides| && rides[ride].driver == driver
         && (rides[ride].status == RideStatus.Scheduled || rides[ride].status == RideStatus.Full) {
        SetRide(ride, RideStatus.Cancelled);
        return Success(ride);
      }
      return Failure(RideNotFound);
    }
  }
}
