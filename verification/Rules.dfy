/**
 The endpoints' rules, written out over the columns of the two tables and independently of the
 functions that implement them: what each call checks and in which order, which error it reports,
 and what it changes. The laws say that the endpoints follow these rules on every input.
 */
module Rules {
  import opened Options
  import opened Model
  import opened Fares
  import opened FareLaws
  import opened Transactions
  import opened Endpoints
  import opened Lifecycle
  import opened Ledgers
  import opened Histories

  // ---- Seats on a segment --------------------------------------------------

  /** Seats of the ride's confirmed, ready and picked-up bookings that reach more than 0.02 into the segment from both sides. */
  function SeatsTaken(bs: seq<Booking>, ride: nat, p: real, q: real): nat {
    if bs == [] then 0
    else
      var b := bs[|bs| - 1];
      SeatsTaken(bs[..|bs| - 1], ride, p, q)
      + if b.ride == ride && b.status in {BookingStatus.Confirmed, BookingStatus.RiderReady, BookingStatus.PickedUp}
           && b.pickup < q - 0.02 && p < b.dropoff - 0.02
        then b.seats else 0
  }

  /** The capacity queries count exactly those seats. */
  lemma {:induction false} OccupiedIsSeatsTaken(bs: seq<Booking>, ride: nat, p: real, q: real)
    ensures Occupied(bs, ride, p, q) == SeatsTaken(bs, ride, p, q)
  {
    if bs != [] {
      var n := |bs| - 1;
      OccupiedIsSeatsTaken(bs[..n], ride, p, q);
      assert OccupiedWeights(bs, ride, p, q)[..n] == OccupiedWeights(bs[..n], ride, p, q);
    }
  }

  // ---- Checks --------------------------------------------------------------

  /** One thing an endpoint checks, and what it reports when that does not hold. */
  datatype Check = Check(holds: bool, error: Error)

  /** The error of the first check that does not hold. */
  function FirstFailure(checks: seq<Check>): (e: Option<Error>)
    ensures e.None? <==> forall i :: 0 <= i < |checks| ==> checks[i].holds
  {
    if checks == [] then None
    else if !checks[0].holds then Some(checks[0].error)
    else FirstFailure(checks[1..])
  }

  /** The start of the segment that a request asks for: the first 5% count as the start of the route. */
  function From(req: CreateRequest): real {
    if req.pickupAt < 0.05 then 0.0 else if req.pickupAt > 1.0 then 1.0 else req.pickupAt
  }

  /** Its end: the last 5% count as the end of the route. */
  function To(req: CreateRequest): real {
    if req.dropoffAt > 0.95 then 1.0 else if req.dropoffAt < 0.0 then 0.0 else req.dropoffAt
  }

  predicate KeyKnown(d: Db, key: string) {
    key != "" && exists i :: 0 <= i < |d.bookings| && d.bookings[i].key == key
  }

  /** All the rider's bookings on the ride have come to an end. */
  predicate AllEnded(d: Db, ride: nat, rider: UserId) {
    forall i :: 0 <= i < |d.bookings| && d.bookings[i].ride == ride && d.bookings[i].rider == rider ==>
      d.bookings[i].status in {BookingStatus.Cancelled, BookingStatus.NoShow, BookingStatus.Completed}
  }

  /** A request for a new booking. */
  function CreateChecks(d: Db, now: int, user: UserId, req: CreateRequest): seq<Check> {
    if req.ride >= |d.rides| then [Check(false, RideNotFound)]
    else
      var r := d.rides[req.ride];
      [Check(user != r.driver, OwnRide),
       Check(r.status != RideStatus.Cancelled && r.status != RideStatus.Completed, RideIs(r.status)),
       Check(r.departure + 3600 >= now, Departed),
       Check(AllEnded(d, req.ride, user), AlreadyBooked),
       Check(req.pickupNear && req.dropoffNear, NotOnRoute),
       Check(From(req) < To(req), SegmentOrder),
       Check(SeatsTaken(d.bookings, req.ride, From(req), To(req)) + req.seats <= r.total, SegmentCapacity)]
  }

  predicate Known(d: Db, id: nat) {
    id < |d.bookings| && d.bookings[id].ride < |d.rides|
  }

  function ConfirmChecks(d: Db, id: nat, user: UserId): seq<Check> {
    if !Known(d, id) then [Check(false, NotAuthorised)]
    else
      var b, r := d.bookings[id], d.rides[d.bookings[id].ride];
      [Check(user == r.driver, NotAuthorised),
       Check(b.status == BookingStatus.Pending, BookingIs(b.status)),
       Check(r.status != RideStatus.Cancelled && r.status != RideStatus.Completed, RideIs(r.status)),
       Check(SeatsTaken(d.bookings, b.ride, b.pickup, b.dropoff) + b.seats <= r.total, SegmentFull)]
  }

  /** Bookings that hold seats can be cancelled until an hour before departure, and if the seats fit back in. */
  function CancelChecks(d: Db, now: int, id: nat, user: UserId): seq<Check> {
    if !Known(d, id) then [Check(false, BookingNotFound)]
    else
      var b, r := d.bookings[id], d.rides[d.bookings[id].ride];
      var holding := b.status == BookingStatus.Confirmed || b.status == BookingStatus.RiderReady;
      [Check(user == r.driver || user == b.rider, NotAuthorised),
       Check(b.status == BookingStatus.Pending || holding, NotCancellable),
       Check(holding ==> now + 3600 <= r.departure, TooLate),
       Check(holding ==> r.available + b.seats <= r.total, CheckViolation)]
  }

  function ReadyChecks(d: Db, now: int, id: nat, user: UserId, located: bool): seq<Check> {
    if !Known(d, id) then [Check(false, BookingNotFound)]
    else
      var b, r := d.bookings[id], d.rides[d.bookings[id].ride];
      [Check(user == b.rider, NotAuthorised),
       Check(b.status == BookingStatus.Confirmed, BookingIs(b.status)),
       Check(now >= r.departure - 1800, TooEarly),
       Check(located, NotOnRoute)]
  }

  function PickUpChecks(d: Db, id: nat, user: UserId, located: bool): seq<Check> {
    if !Known(d, id) then [Check(false, BookingNotFound)]
    else
      var b, r := d.bookings[id], d.rides[d.bookings[id].ride];
      [Check(user == r.driver, NotAuthorised),
       Check(r.status == RideStatus.Active, RideIs(r.status)),
       Check(b.status == BookingStatus.Confirmed || b.status == BookingStatus.RiderReady, BookingIs(b.status)),
       Check(located, NotOnRoute)]
  }

  function DropChecks(d: Db, id: nat, user: UserId): seq<Check> {
    if !Known(d, id) then [Check(false, BookingNotFound)]
    else
      var b, r := d.bookings[id], d.rides[d.bookings[id].ride];
      [Check(user == r.driver, NotAuthorised),
       Check(b.status == BookingStatus.PickedUp, BookingIs(b.status))]
  }

  function NoShowChecks(d: Db, now: int, id: nat, user: UserId): seq<Check> {
    if !Known(d, id) then [Check(false, BookingNotFound)]
    else
      var b, r := d.bookings[id], d.rides[d.bookings[id].ride];
      [Check(user == r.driver, NotAuthorised),
       Check(r.status == RideStatus.Active, RideIs(r.status)),
       Check(b.status == BookingStatus.Confirmed || b.status == BookingStatus.RiderReady, BookingIs(b.status)),
       Check(now >= r.departure + 600, TooEarly),
       Check(r.available + b.seats <= r.total, CheckViolation)]
  }

  /** A ride can be started from half an hour before departure until an hour after it. */
  function StartChecks(d: Db, now: int, ride: nat, user: UserId): seq<Check> {
    if ride >= |d.rides| then [Check(false, RideNotFound)]
    else
      var r := d.rides[ride];
      [Check(user == r.driver, NotAuthorised),
       Check(r.status == RideStatus.Scheduled || r.status == RideStatus.Full, RideIs(r.status)),
       Check(now >= r.departure - 1800, TooEarly),
       Check(now <= r.departure + 3600, TooLate)]
  }

  /** In the last hour a ride can be cancelled only if nobody waits for an answer or is confirmed. */
  function RideCancelChecks(d: Db, now: int, ride: nat, user: UserId): seq<Check> {
    if ride >= |d.rides| then [Check(false, RideNotFound)]
    else
      var r := d.rides[ride];
      [Check(user == r.driver, NotAuthorised),
       Check(r.status == RideStatus.Scheduled || r.status == RideStatus.Full, RideIs(r.status)),
       Check(now + 3600 <= r.departure ||
             forall i :: 0 <= i < |d.bookings| && d.bookings[i].ride == ride ==>
               d.bookings[i].status != BookingStatus.Pending && d.bookings[i].status != BookingStatus.Confirmed, TooLate)]
  }

  function UpdateChecks(d: Db, now: int, ride: nat, user: UserId, departure: int, total: int): seq<Check> {
    [Check(departure >= now, BadRide),
     Check(ride < |d.rides| && user == d.rides[ride].driver, RideNotFound),
     Check(ride < |d.rides| && (total > 0 ==> d.rides[ride].available <= total)
           && (total <= 0 ==> d.rides[ride].available <= d.rides[ride].total), CheckViolation)]
  }

  function Checks(d: Db, c: Call): seq<Check> {
    match c
    case CallRideCreate(now, user, route, departure, total, price) =>
      [Check(total >= 1 && price >= 0.0 && departure >= now, BadRide)]
    case CallRideUpdate(now, ride, user, departure, total, price) => UpdateChecks(d, now, ride, user, departure, total)
    case CallManualStatus(ride, user, status) =>
      [Check(status == RideStatus.Active || status == RideStatus.Completed, BadStatus),
       Check(ride < |d.rides| && user == d.rides[ride].driver, RideNotFound)]
    case CallRideCancel(now, ride, user) => RideCancelChecks(d, now, ride, user)
    case CallStart(now, ride, user) => StartChecks(d, now, ride, user)
    case CallCreate(now, user, req) =>
      [Check(req.seats >= 1, BadSeats)] + if KeyKnown(d, req.key) then [] else CreateChecks(d, now, user, req)
    case CallConfirm(id, user) => ConfirmChecks(d, id, user)
    case CallCancel(now, id, user) => CancelChecks(d, now, id, user)
    case CallReady(now, id, user, located) => ReadyChecks(d, now, id, user, located)
    case CallPickUp(id, user, located) => PickUpChecks(d, id, user, located)
    case CallDrop(id, user) => DropChecks(d, id, user)
    case CallNoShow(now, id, user) => NoShowChecks(d, now, id, user)
  }

  /** The call is accepted when every check holds, and otherwise fails with the first one's error. */
  ghost predicate Follows(reply: Reply, checks: seq<Check>) {
    match FirstFailure(checks)
    case None => reply.Ok?
    case Some(e) => reply == Fail(e)
  }

  lemma {:induction false} FailsAt(checks: seq<Check>, i: nat)
    requires i < |checks| && !checks[i].holds && forall j :: 0 <= j < i ==> checks[j].holds
    ensures FirstFailure(checks) == Some(checks[i].error)
  {
    if i > 0 {
      FailsAt(checks[1..], i - 1);
    }
  }

  /** The check at k is the first of those up to k that fails. */
  ghost predicate FailsFirst(checks: seq<Check>, k: nat) {
    k < |checks| && !checks[k].holds && FirstFailure(checks) == Some(checks[k].error)
  }

  /** Where the first of at most seven checks fails, if one does, and what has held before. */
  lemma Found(checks: seq<Check>)
    requires |checks| <= 7
    ensures (forall k :: 0 <= k < |checks| ==> checks[k].holds) ==> FirstFailure(checks) == None
    ensures |checks| > 0 && !checks[0].holds ==> FailsFirst(checks, 0)
    ensures |checks| > 1 && checks[0].holds && !checks[1].holds ==> FailsFirst(checks, 1)
    ensures |checks| > 2 && checks[0].holds && checks[1].holds && !checks[2].holds ==> FailsFirst(checks, 2)
    ensures |checks| > 3 && checks[0].holds && checks[1].holds && checks[2].holds && !checks[3].holds ==> FailsFirst(checks, 3)
    ensures |checks| > 4 && (forall k :: 0 <= k < 4 ==> checks[k].holds) && !checks[4].holds ==> FailsFirst(checks, 4)
    ensures |checks| > 5 && (forall k :: 0 <= k < 5 ==> checks[k].holds) && !checks[5].holds ==> FailsFirst(checks, 5)
    ensures |checks| > 6 && (forall k :: 0 <= k < 6 ==> checks[k].holds) && !checks[6].holds ==> FailsFirst(checks, 6)
  {
    forall k | 0 <= k < |checks| && !checks[k].holds && forall j :: 0 <= j < k ==> checks[j].holds
      ensures FailsFirst(checks, k)
    {
      FailsAt(checks, k);
    }
  }

  /** The functions that creation uses, in the rules' own terms. */
  lemma CreateTerms(d: Db, user: UserId, req: CreateRequest)
    ensures From(req) == SnapPickup(req.pickupAt) && To(req) == SnapDropoff(req.dropoffAt)
    ensures HasOpen(d.bookings, req.ride, user) <==> !AllEnded(d, req.ride, user)
    ensures Occupied(d.bookings, req.ride, From(req), To(req)) == SeatsTaken(d.bookings, req.ride, From(req), To(req))
  {
    OccupiedIsSeatsTaken(d.bookings, req.ride, From(req), To(req));
  }

  lemma CreateFollows(d: Db, now: int, user: UserId, req: CreateRequest)
    requires req.seats >= 1
    ensures Follows(CreateTx(d, now, user, req), CreateChecks(d, now, user, req))
  {
    Found(CreateChecks(d, now, user, req));
    CreateTerms(d, user, req);
  }

  lemma ConfirmFollows(d: Db, id: nat, user: UserId)
    ensures Follows(ConfirmTx(d, id, user), ConfirmChecks(d, id, user))
  {
    Found(ConfirmChecks(d, id, user));
    if Known(d, id) {
      var b := d.bookings[id];
      OccupiedIsSeatsTaken(d.bookings, b.ride, b.pickup, b.dropoff);
    }
  }

  lemma CancelFollows(d: Db, now: int, id: nat, user: UserId)
    ensures Follows(Serve(d, CallCancel(now, id, user)), CancelChecks(d, now, id, user))
  {
    Found(CancelChecks(d, now, id, user));
  }

  lemma ReadyFollows(d: Db, now: int, id: nat, user: UserId, located: bool)
    ensures Follows(Serve(d, CallReady(now, id, user, located)), ReadyChecks(d, now, id, user, located))
  {
    Found(ReadyChecks(d, now, id, user, located));
  }

  lemma PickUpFollows(d: Db, id: nat, user: UserId, located: bool)
    ensures Follows(Serve(d, CallPickUp(id, user, located)), PickUpChecks(d, id, user, located))
  {
    Found(PickUpChecks(d, id, user, located));
  }

  lemma DropFollows(d: Db, id: nat, user: UserId)
    ensures Follows(Serve(d, CallDrop(id, user)), DropChecks(d, id, user))
  {
    Found(DropChecks(d, id, user));
  }

  lemma NoShowFollows(d: Db, now: int, id: nat, user: UserId)
    ensures Follows(Serve(d, CallNoShow(now, id, user)), NoShowChecks(d, now, id, user))
  {
    Found(NoShowChecks(d, now, id, user));
  }

  lemma StartFollows(d: Db, now: int, ride: nat, user: UserId)
    ensures Follows(Serve(d, CallStart(now, ride, user)), StartChecks(d, now, ride, user))
  {
    Found(StartChecks(d, now, ride, user));
  }

  lemma RideCancelFollows(d: Db, now: int, ride: nat, user: UserId)
    ensures Follows(Serve(d, CallRideCancel(now, ride, user)), RideCancelChecks(d, now, ride, user))
  {
    Found(RideCancelChecks(d, now, ride, user));
  }

  lemma UpdateFollows(d: Db, now: int, ride: nat, user: UserId, departure: int, total: int, price: real)
    ensures Follows(UpdateTx(d, now, ride, user, departure, total, price), UpdateChecks(d, now, ride, user, departure, total))
  {
    Found(UpdateChecks(d, now, ride, user, departure, total));
  }

  /** Every endpoint makes exactly its checks, in their order, and reports the first that does not hold. */
  lemma ServeFollowsTheChecks(d: Db, c: Call)
    ensures Follows(Serve(d, c), Checks(d, c))
  {
    match c
    case CallRideCreate(_, _, _, _, _, _) => Found(Checks(d, c));
    case CallRideUpdate(now, ride, user, departure, total, price) => UpdateFollows(d, now, ride, user, departure, total, price);
    case CallManualStatus(_, _, _) => Found(Checks(d, c));
    case CallRideCancel(now, ride, user) => RideCancelFollows(d, now, ride, user);
    case CallStart(now, ride, user) => StartFollows(d, now, ride, user);
    case CallCreate(now, user, req) => RequestFollows(d, now, user, req);
    case CallConfirm(id, user) => ConfirmFollows(d, id, user);
    case CallCancel(now, id, user) => CancelFollows(d, now, id, user);
    case CallReady(now, id, user, located) => ReadyFollows(d, now, id, user, located);
    case CallPickUp(id, user, located) => PickUpFollows(d, id, user, located);
    case CallDrop(id, user) => DropFollows(d, id, user);
    case CallNoShow(now, id, user) => NoShowFollows(d, now, id, user);
  }

  lemma RequestFollows(d: Db, now: int, user: UserId, req: CreateRequest)
    ensures Follows(Serve(d, CallCreate(now, user, req)), Checks(d, CallCreate(now, user, req)))
  {
    var seats := Check(req.seats >= 1, BadSeats);
    var more := if KeyKnown(d, req.key) then [] else CreateChecks(d, now, user, req);
    assert ([seats] + more)[1..] == more;
    if req.seats >= 1 {
      CreateFollows(d, now, user, req);
      assert KeyKnown(d, req.key) <==> req.key != "" && FindKey(d.bookings, req.key).Some?;
    }
  }

  /** A rider is turned away as already booked only with an active booking on the ride. */
  lemma AlreadyBookedMeans(d: Db, now: int, user: UserId, req: CreateRequest)
    requires Serve(d, CallCreate(now, user, req)) == Fail(AlreadyBooked)
    ensures exists i :: 0 <= i < |d.bookings| && d.bookings[i].ride == req.ride && d.bookings[i].rider == user
                        && d.bookings[i].status in {BookingStatus.Pending, BookingStatus.Confirmed,
                                                    BookingStatus.RiderReady, BookingStatus.PickedUp}
  {
    CreateTerms(d, user, req);
    assert !AllEnded(d, req.ride, user);
  }

  // ---- Changes -------------------------------------------------------------

  /** The tables with one booking's status changed, and one ride's counter and status. */
  function Moved(d: Db, id: nat, status: BookingStatus, available: nat, rideStatus: RideStatus): Db
    requires Known(d, id)
  {
    var ride := d.bookings[id].ride;
    Db(d.rides[ride := d.rides[ride].(available := available, status := rideStatus)],
       d.bookings[id := d.bookings[id].(status := status)])
  }

  /** The ride's status after its booking has come to an end: completed if it was active and no other booking is open. */
  ghost predicate EndsWith(d: Db, id: nat, s: RideStatus)
    requires Known(d, id)
  {
    var ride := d.bookings[id].ride;
    var others := exists i :: 0 <= i < |d.bookings| && i != id && d.bookings[i].ride == ride
                              && d.bookings[i].status !in {BookingStatus.Cancelled, BookingStatus.NoShow, BookingStatus.Completed};
    s == if d.rides[ride].status == RideStatus.Active && !others then RideStatus.Completed else d.rides[ride].status
  }

  /** The stored booking is what was asked for, priced within half a unit per seat of its share of the route. */
  predicate Asks(b: Booking, user: UserId, req: CreateRequest, price: real) {
    && b.ride == req.ride && b.rider == user && b.seats == req.seats && b.key == req.key
    && b.status == BookingStatus.Pending && b.pickup == From(req) && b.dropoff == To(req)
    && NearShare(b.totalPrice, price, b.pickup, b.dropoff, b.seats)
  }

  /** What an accepted call changes. */
  ghost predicate Changes(d: Db, c: Call, d': Db, id: nat) {
    match c
    case CallRideCreate(_, user, route, departure, total, price) =>
      && total >= 0 && d'.bookings == d.bookings && id == |d.rides|
      && d'.rides == d.rides + [Ride(user, route, departure, total, total, price, RideStatus.Scheduled)]
    case CallRideUpdate(_, ride, _, departure, total, price) =>
      && d'.bookings == d.bookings && id == ride < |d.rides| && |d'.rides| == |d.rides|
      && (forall r :: 0 <= r < |d.rides| && r != ride ==> d'.rides[r] == d.rides[r])
      && var r, r' := d.rides[ride], d'.rides[ride];
         && r'.departure == departure && r'.available == r.available && r'.status == r.status
         && r'.driver == r.driver && r'.route == r.route
         && r'.total == (if total > 0 then total else r.total) && r'.price == (if price > 0.0 then price else r.price)
    case CallManualStatus(ride, _, status) =>
      id == ride < |d.rides| && d' == d.(rides := d.rides[ride := d.rides[ride].(status := status)])
    case CallRideCancel(_, ride, _) =>
      id == ride < |d.rides| && d' == d.(rides := d.rides[ride := d.rides[ride].(status := RideStatus.Cancelled)])
    case CallStart(_, ride, _) =>
      id == ride < |d.rides| && d' == d.(rides := d.rides[ride := d.rides[ride].(status := RideStatus.Active)])
    case CallCreate(_, user, req) =>
      if KeyKnown(d, req.key) then d' == d && id < |d.bookings| && d.bookings[id].key == req.key
      else
        && d'.rides == d.rides && id == |d.bookings| && |d'.bookings| == id + 1 && d'.bookings[..id] == d.bookings
        && req.ride < |d.rides| && Asks(d'.bookings[id], user, req, d.rides[req.ride].price)
    case CallConfirm(i, _) =>
      && id == i && Known(d, i)
      && var b, r := d.bookings[i], d.rides[d.bookings[i].ride];
         d' == Moved(d, i, BookingStatus.Confirmed, if b.seats < r.available then r.available - b.seats else 0, r.status)
    case CallCancel(_, i, _) =>
      && id == i && Known(d, i)
      && var b, r := d.bookings[i], d.rides[d.bookings[i].ride];
         d' == Moved(d, i, BookingStatus.Cancelled, if b.status == BookingStatus.Pending then r.available else r.available + b.seats,
                     r.status)
    case CallReady(_, i, _, _) =>
      id == i < |d.bookings| && d' == d.(bookings := d.bookings[i := d.bookings[i].(status := BookingStatus.RiderReady)])
    case CallPickUp(i, _, _) =>
      id == i < |d.bookings| && d' == d.(bookings := d.bookings[i := d.bookings[i].(status := BookingStatus.PickedUp)])
    case CallDrop(i, _) =>
      && id == i && Known(d, i)
      && exists s :: EndsWith(d, i, s) && d' == Moved(d, i, BookingStatus.Completed, d.rides[d.bookings[i].ride].available, s)
    case CallNoShow(_, i, _) =>
      && id == i && Known(d, i)
      && var r := d.rides[d.bookings[i].ride];
         exists s :: EndsWith(d, i, s) && d' == Moved(d, i, BookingStatus.NoShow, r.available + d.bookings[i].seats, s)
  }

  lemma NewBookingAsks(r: Ride, user: UserId, req: CreateRequest)
    requires req.seats >= 1 && From(req) < To(req) && r.price >= 0.0
    ensures Asks(NewBooking(r, user, req), user, req, r.price)
  {
    TotalIsShare(r.price, From(req), To(req), req.seats);
  }

  lemma AcceptedCreate(d: Db, now: int, user: UserId, req: CreateRequest)
    requires Serve(d, CallCreate(now, user, req)).Ok? && !KeyKnown(d, req.key)
    ensures req.seats >= 1 && req.ride < |d.rides| && From(req) < To(req)
    ensures Serve(d, CallCreate(now, user, req))
            == Ok(d.(bookings := d.bookings + [NewBooking(d.rides[req.ride], user, req)]), |d.bookings|)
  {
    CreateTerms(d, user, req);
  }

  lemma CreateChanges(d: Db, now: int, user: UserId, req: CreateRequest)
    requires Serve(d, CallCreate(now, user, req)).Ok? && (req.ride < |d.rides| ==> d.rides[req.ride].price >= 0.0)
    ensures var reply := Serve(d, CallCreate(now, user, req)); Changes(d, CallCreate(now, user, req), reply.db, reply.id)
  {
    if !KeyKnown(d, req.key) {
      AcceptedCreate(d, now, user, req);
      NewBookingAsks(d.rides[req.ride], user, req);
    }
  }

  lemma EndChanges(d: Db, id: nat, s: BookingStatus, available: nat) returns (rideStatus: RideStatus)
    requires Known(d, id) && (s == BookingStatus.Completed || s == BookingStatus.NoShow)
    ensures EndsWith(d, id, rideStatus)
    ensures ThenComplete(Ok(Moved(d, id, s, available, d.rides[d.bookings[id].ride].status), id))
            == Ok(Moved(d, id, s, available, rideStatus), id)
  {
    var ride := d.bookings[id].ride;
    var d1 := Moved(d, id, s, available, d.rides[ride].status);
    var open := OpenOn(d1.bookings, ride);
    rideStatus := if d.rides[ride].status == RideStatus.Active && open == {} then RideStatus.Completed else d.rides[ride].status;
    if open != {} {
      var i :| i in open;
      assert i != id && d.bookings[i].ride == ride;
    } else {
      forall i | 0 <= i < |d.bookings| && i != id && d.bookings[i].ride == ride
        ensures !Open(d.bookings[i].status)
      {
        assert i !in open;
      }
    }
    assert d1.rides[ride := d1.rides[ride].(status := rideStatus)] == Moved(d, id, s, available, rideStatus).rides;
  }

  lemma DropChanges(d: Db, id: nat, user: UserId)
    requires Serve(d, CallDrop(id, user)).Ok?
    ensures var reply := Serve(d, CallDrop(id, user)); Changes(d, CallDrop(id, user), reply.db, reply.id)
  {
    var r := d.rides[d.bookings[id].ride];
    assert Guarded(DropGuard(d, id, user), d, Drop(id, user)) == Ok(Moved(d, id, BookingStatus.Completed, r.available, r.status), id);
    var s := EndChanges(d, id, BookingStatus.Completed, r.available);
  }

  lemma NoShowChanges(d: Db, now: int, id: nat, user: UserId)
    requires Serve(d, CallNoShow(now, id, user)).Ok?
    ensures var reply := Serve(d, CallNoShow(now, id, user)); Changes(d, CallNoShow(now, id, user), reply.db, reply.id)
  {
    var r := d.rides[d.bookings[id].ride];
    assert Guarded(NoShowGuard(d, id, user, now), d, MissRide(id, user, StatusSeen(d, id), now))
        == Ok(Moved(d, id, BookingStatus.NoShow, r.available + d.bookings[id].seats, r.status), id);
    var s := EndChanges(d, id, BookingStatus.NoShow, r.available + d.bookings[id].seats);
  }

  lemma ConfirmChanges(d: Db, id: nat, user: UserId)
    requires NeverFull(d) && Serve(d, CallConfirm(id, user)).Ok?
    ensures var reply := Serve(d, CallConfirm(id, user)); Changes(d, CallConfirm(id, user), reply.db, reply.id)
  {
  }

  lemma CancelChanges(d: Db, now: int, id: nat, user: UserId)
    requires NeverFull(d) && Serve(d, CallCancel(now, id, user)).Ok?
    ensures var reply := Serve(d, CallCancel(now, id, user)); Changes(d, CallCancel(now, id, user), reply.db, reply.id)
  {
  }

  /** Every accepted call makes exactly its change, on tables as histories leave them. */
  lemma ServeMakesTheChange(d: Db, c: Call)
    requires NeverFull(d) && (forall r :: 0 <= r < |d.rides| ==> d.rides[r].price >= 0.0) && Serve(d, c).Ok?
    ensures Changes(d, c, Serve(d, c).db, Serve(d, c).id)
  {
    match c
    case CallCreate(now, user, req) => CreateChanges(d, now, user, req);
    case CallConfirm(id, user) => ConfirmChanges(d, id, user);
    case CallCancel(now, id, user) => CancelChanges(d, now, id, user);
    case CallDrop(id, user) => DropChanges(d, id, user);
    case CallNoShow(now, id, user) => NoShowChanges(d, now, id, user);
    case _ =>
  }

  ghost predicate Priced(d: Db) {
    forall r :: 0 <= r < |d.rides| ==> d.rides[r].price >= 0.0
  }

  lemma {:induction false} PricesStay(ts: seq<Txn>)
    ensures Priced(Run(EMPTY, ts))
  {
    if ts != [] {
      PricesStay(ts[..|ts| - 1]);
      OnePriceStays(Run(EMPTY, ts[..|ts| - 1]), ts[|ts| - 1]);
    }
  }

  lemma OnePriceStays(d: Db, t: Txn)
    requires Priced(d)
    ensures Priced(Exec(d, t))
  {
  }

  /** In every history, the manual endpoint included, the next call follows its checks and, accepted, makes its change. */
  lemma EveryCallFollowsTheRules(es: seq<Event>, c: Call)
    ensures var d := History(es).db;
            && Follows(Serve(d, c), Checks(d, c))
            && (Serve(d, c).Ok? ==> Changes(d, c, Serve(d, c).db, Serve(d, c).id))
  {
    var d := History(es).db;
    ServeFollowsTheChecks(d, c);
    HistoryIsARun(es);
    NoRideIsEverFull(Log(es));
    PricesStay(Log(es));
    if Serve(d, c).Ok? {
      ServeMakesTheChange(d, c);
    }
  }

  // ---- Who may change what -------------------------------------------------

  /** A booking's status is changed by its ride's driver or its rider only, each within their own moves. */
  ghost predicate RightCaller(d: Db, c: Call, i: nat, s: BookingStatus)
    requires Known(d, i)
  {
    var rider, driver := d.bookings[i].rider, d.rides[d.bookings[i].ride].driver;
    match s
    case Pending => false
    case Cancelled => c.CallCancel? && (c.user == rider || c.user == driver)
    case RiderReady => c.CallReady? && c.user == rider
    case Confirmed => c.CallConfirm? && c.user == driver
    case PickedUp => c.CallPickUp? && c.user == driver
    case Completed => c.CallDrop? && c.user == driver
    case NoShow => c.CallNoShow? && c.user == driver
  }

  lemma AcceptedHolds(d: Db, c: Call, k: nat)
    requires Serve(d, c).Ok? && k < |Checks(d, c)|
    ensures Checks(d, c)[k].holds
  {
    ServeFollowsTheChecks(d, c);
  }

  /** In every history, the call that changes a booking's status comes from the right user. */
  lemma BookingCallers(es: seq<Event>, c: Call, i: nat)
    requires i < |History(es).db.bookings|
    ensures var d, d' := History(es).db, ServeDb(History(es).db, c);
            && Known(d, i) && i < |d'.bookings|
            && (d'.bookings[i].status != d.bookings[i].status ==> RightCaller(d, c, i, d'.bookings[i].status))
  {
    var d := History(es).db;
    HistoryIsARun(es);
    EveryRunIsGood(Log(es));
    assert Wf(d);
    EveryCallFollowsTheRules(es, c);
    if Serve(d, c).Ok? {
      AcceptedCaller(d, c, i);
    }
  }

  lemma AcceptedCaller(d: Db, c: Call, i: nat)
    requires Known(d, i) && Serve(d, c).Ok? && Changes(d, c, Serve(d, c).db, Serve(d, c).id)
    ensures var d' := Serve(d, c).db;
            i < |d'.bookings| && (d'.bookings[i].status != d.bookings[i].status ==> RightCaller(d, c, i, d'.bookings[i].status))
  {
    if c.CallCreate? {
      var d' := Serve(d, c).db;
      assert !KeyKnown(d, c.req.key) ==> d'.bookings[..|d.bookings|][i] == d.bookings[i];
    } else {
      if |Checks(d, c)| > 0 {
        AcceptedHolds(d, c, 0);
      }
    }
  }

  /** In every history, a ride's status is changed only by a call of its driver. */
  lemma RideCallers(es: seq<Event>, c: Call, r: nat)
    requires r < |History(es).db.rides|
    ensures var d, d' := History(es).db, ServeDb(History(es).db, c);
            r < |d'.rides| && (d'.rides[r].status != d.rides[r].status ==> c.user == d.rides[r].driver)
  {
    var d := History(es).db;
    EveryCallFollowsTheRules(es, c);
    if Serve(d, c).Ok? {
      AcceptedRideCaller(d, c, r);
    }
  }

  lemma AcceptedRideCaller(d: Db, c: Call, r: nat)
    requires r < |d.rides| && Serve(d, c).Ok? && Changes(d, c, Serve(d, c).db, Serve(d, c).id)
    ensures var d' := Serve(d, c).db;
            r < |d'.rides| && (d'.rides[r].status != d.rides[r].status ==> c.user == d.rides[r].driver)
  {
    if !c.CallCreate? && !c.CallRideCreate? {
      AcceptedHolds(d, c, 0);
      if c.CallManualStatus? {
        AcceptedHolds(d, c, 1);
      }
    }
  }
}
