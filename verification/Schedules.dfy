/** Schedules that do happen: transactions can run to their commit, and what interleaving allows that serial calls do not. */
module Schedules {
  import opened Options
  import opened Model
  import opened Transactions
  import opened Endpoints
  import opened Interleaving
  import opened Scenarios
  import opened Concurrency

  // ---- One more action -----------------------------------------------------

  lemma PlayOne(acts: seq<Action>, a: Action) returns (all: seq<Action>)
    requires Enabled(Play(acts), a)
    ensures all == acts + [a] && Play(all) == Next(Play(acts), a)
    ensures Committed(all) == Committed(acts) + if a.Commit? || a.Direct? then [a.t] else []
  {
    all := acts + [a];
    PlayLast(acts, a);
  }

  /** The system after a process has read and locked. */
  function Stepped(s: Sys, p: nat, q: Proc): Sys {
    Sys(s.db, s.procs[p := q], Owned(s.rideLock, RideLocks(q), p), Owned(s.bookingLock, BookingLocks(q), p))
  }

  /** The system after a process has committed. */
  function Finished(s: Sys, p: nat, d: Db, next: Option<Proc>): Sys {
    Sys(d, if next.Some? then (s.procs - {p})[p := next.value] else s.procs - {p},
        Released(s.rideLock, p), Released(s.bookingLock, p))
  }

  /** What lets a process end as `last`: its commit is allowed and writes no row that another has locked. */
  ghost predicate CanEnd(s: Sys, p: nat, last: Proc, t: Txn, next: Option<Proc>) {
    Commits(s.db, last, t) && Follows(s.db, last, next) && MayWrite(s, Some(p), Visible(s.db, last, t))
  }

  lemma CanStep(acts: seq<Action>, p: nat, q: Proc) returns (all: seq<Action>)
    requires p in Play(acts).procs && Reads(Play(acts).db, Play(acts).procs[p], q) && CanHold(Play(acts), p, q)
    ensures acts <= all && Play(all) == Stepped(Play(acts), p, q) && Committed(all) == Committed(acts)
  {
    all := PlayOne(acts, Step(p, q));
  }

  lemma CanFinish(acts: seq<Action>, p: nat, t: Txn, next: Option<Proc>) returns (all: seq<Action>)
    requires p in Play(acts).procs && CanEnd(Play(acts), p, Play(acts).procs[p], t, next)
    ensures acts <= all && Committed(all) == Committed(acts) + [t]
    ensures Play(all) == Finished(Play(acts), p, Visible(Play(acts).db, Play(acts).procs[p], t), next)
  {
    all := PlayOne(acts, Commit(p, t, next));
  }

  lemma CanSpawn(acts: seq<Action>, p: nat, q: Proc, s': Sys) returns (all: seq<Action>)
    requires p !in Play(acts).procs && Begins(Play(acts).db, q) && s' == Play(acts).(procs := Play(acts).procs[p := q])
    ensures acts <= all && Play(all) == s' && Committed(all) == Committed(acts)
  {
    all := PlayOne(acts, Spawn(p, q));
  }

  lemma CanOffer(t: Txn, d: Db) returns (all: seq<Action>)
    requires t.RideCreate? && Apply(EMPTY, t).Ok? && Exec(EMPTY, t) == d
    ensures Play(all) == Sys(d, map[], map[], map[]) && Committed(all) == [t]
  {
    all := PlayOne([], Direct(t));
  }

  // ---- Locks ---------------------------------------------------------------

  lemma ReleasedAgain(lock: map<nat, nat>, rows: set<nat>, p: nat)
    requires forall r :: r in rows ==> FreeFor(lock, r, p)
    ensures Released(Owned(lock, rows, p), p) == Released(lock, p)
  {
  }

  lemma OwnedStaysFree(lock: map<nat, nat>, rows: set<nat>, p: nat, others: set<nat>)
    requires forall r :: r in others ==> FreeFor(lock, r, p)
    ensures forall r :: r in others ==> FreeFor(Owned(lock, rows, p), r, p)
  {
  }

  lemma SteppedCanHold(s: Sys, p: nat, q: Proc, next: Proc)
    requires CanHold(s, p, next)
    ensures CanHold(Stepped(s, p, q), p, next)
  {
    OwnedStaysFree(s.rideLock, RideLocks(q), p, RideLocks(next));
    OwnedStaysFree(s.bookingLock, BookingLocks(q), p, BookingLocks(next));
  }

  lemma SteppedFinishes(s: Sys, p: nat, q: Proc, d: Db, next: Option<Proc>)
    requires CanHold(s, p, q)
    ensures Finished(Stepped(s, p, q), p, d, next) == Finished(s, p, d, next)
  {
    ReleasedAgain(s.rideLock, RideLocks(q), p);
    ReleasedAgain(s.bookingLock, BookingLocks(q), p);
    assert s.procs[p := q] - {p} == s.procs - {p};
  }

  lemma SteppedMayWrite(s: Sys, p: nat, q: Proc, d': Db)
    requires MayWrite(s, Some(p), d')
    ensures MayWrite(Stepped(s, p, q), Some(p), d')
  {
  }

  lemma SteppedCanEnd(s: Sys, p: nat, q: Proc, last: Proc, t: Txn, next: Option<Proc>)
    requires CanEnd(s, p, last, t, next)
    ensures CanEnd(Stepped(s, p, q), p, last, t, next)
  {
    SteppedMayWrite(s, p, q, Visible(s.db, last, t));
  }

  // ---- From a reachable state to a commit ----------------------------------

  /** A process whose rows are not locked by others can take one read and commit. */
  lemma CanCommitOne(acts: seq<Action>, p: nat, q: Proc, t: Txn, next: Option<Proc>) returns (all: seq<Action>)
    requires p in Play(acts).procs && Reads(Play(acts).db, Play(acts).procs[p], q)
    requires CanHold(Play(acts), p, q) && CanEnd(Play(acts), p, q, t, next)
    ensures acts <= all && Committed(all) == Committed(acts) + [t]
    ensures Play(all) == Finished(Play(acts), p, Visible(Play(acts).db, q, t), next)
  {
    var s := Play(acts);
    var read := CanStep(acts, p, q);
    SteppedFinishes(s, p, q, Visible(s.db, q, t), next);
    SteppedCanEnd(s, p, q, q, t, next);
    all := CanFinish(read, p, t, next);
  }

  /** The same with two reads. */
  lemma CanCommitTwo(acts: seq<Action>, p: nat, q1: Proc, q2: Proc, t: Txn, next: Option<Proc>) returns (all: seq<Action>)
    requires p in Play(acts).procs
    requires Reads(Play(acts).db, Play(acts).procs[p], q1) && Reads(Play(acts).db, q1, q2)
    requires CanHold(Play(acts), p, q1) && CanHold(Play(acts), p, q2) && CanEnd(Play(acts), p, q2, t, next)
    ensures acts <= all && Committed(all) == Committed(acts) + [t]
    ensures Play(all) == Finished(Play(acts), p, Visible(Play(acts).db, q2, t), next)
  {
    var s := Play(acts);
    var read := CanStep(acts, p, q1);
    SteppedCanHold(s, p, q1, q2);
    SteppedFinishes(s, p, q1, Visible(s.db, q2, t), next);
    SteppedCanEnd(s, p, q1, q2, t, next);
    all := CanCommitOne(read, p, q2, t, next);
  }

  /** The same with three reads. */
  lemma CanCommitThree(acts: seq<Action>, p: nat, q1: Proc, q2: Proc, q3: Proc, t: Txn, next: Option<Proc>)
    returns (all: seq<Action>)
    requires p in Play(acts).procs
    requires Reads(Play(acts).db, Play(acts).procs[p], q1) && Reads(Play(acts).db, q1, q2) && Reads(Play(acts).db, q2, q3)
    requires CanHold(Play(acts), p, q1) && CanHold(Play(acts), p, q2) && CanHold(Play(acts), p, q3)
    requires CanEnd(Play(acts), p, q3, t, next)
    ensures acts <= all && Committed(all) == Committed(acts) + [t]
    ensures Play(all) == Finished(Play(acts), p, Visible(Play(acts).db, q3, t), next)
  {
    var s := Play(acts);
    var read := CanStep(acts, p, q1);
    SteppedCanHold(s, p, q1, q2);
    SteppedCanHold(s, p, q1, q3);
    SteppedFinishes(s, p, q1, Visible(s.db, q3, t), next);
    SteppedCanEnd(s, p, q1, q3, t, next);
    all := CanCommitTwo(read, p, q2, q3, t, next);
  }

  lemma CreateReads(d: Db, now: int, rider: UserId, req: CreateRequest)
    requires CreateTx(d, now, rider, req).Ok?
    ensures var row := d.rides[req.ride];
            && Reads(d, CreateBegun(now, rider, req), CreateLocked(now, rider, req, row))
            && Reads(d, CreateLocked(now, rider, req, row), CreateUnique(now, rider, req, row))
            && Reads(d, CreateUnique(now, rider, req, row), CreateChecked(now, rider, req, row))
            && Commits(d, CreateChecked(now, rider, req, row), Create(now, rider, req))
            && Visible(d, CreateChecked(now, rider, req, row), Create(now, rider, req)) == Exec(d, Create(now, rider, req))
  {
  }

  /** In every reachable state a creation whose ride is not locked can run to its commit, with the effect it has alone. */
  lemma CreateCanCommit(acts: seq<Action>, p: nat, now: int, rider: UserId, req: CreateRequest) returns (all: seq<Action>)
    requires p in Play(acts).procs && Play(acts).procs[p] == CreateBegun(now, rider, req)
    requires CreateTx(Play(acts).db, now, rider, req).Ok? && req.ride !in Play(acts).rideLock
    ensures acts <= all && Committed(all) == Committed(acts) + [Create(now, rider, req)]
    ensures Play(all) == Finished(Play(acts), p, Exec(Play(acts).db, Create(now, rider, req)), None)
  {
    var d := Play(acts).db;
    var row := d.rides[req.ride];
    CreateReads(d, now, rider, req);
    all := CanCommitThree(acts, p, CreateLocked(now, rider, req, row), CreateUnique(now, rider, req, row),
                          CreateChecked(now, rider, req, row), Create(now, rider, req), None);
  }

  lemma ConfirmReads(d: Db, id: nat, driver: UserId)
    requires ConfirmTx(d, id, driver).Ok?
    ensures var b, row := d.bookings[id], d.rides[d.bookings[id].ride];
            && Reads(d, ConfirmBegun(id, driver), ConfirmHasBooking(id, driver))
            && Reads(d, ConfirmHasBooking(id, driver), ConfirmLocked(id, driver, b, row))
            && Reads(d, ConfirmLocked(id, driver, b, row), ConfirmChecked(id, driver, b, row))
            && Commits(d, ConfirmChecked(id, driver, b, row), Confirm(id, driver))
            && Visible(d, ConfirmChecked(id, driver, b, row), Confirm(id, driver)) == Exec(d, Confirm(id, driver))
  {
  }

  /** In every reachable state a confirmation whose rows are not locked can run to its commit, with the effect it has alone. */
  lemma ConfirmCanCommit(acts: seq<Action>, p: nat, id: nat, driver: UserId) returns (all: seq<Action>)
    requires p in Play(acts).procs && Play(acts).procs[p] == ConfirmBegun(id, driver)
    requires ConfirmTx(Play(acts).db, id, driver).Ok?
    requires id !in Play(acts).bookingLock && Play(acts).db.bookings[id].ride !in Play(acts).rideLock
    ensures acts <= all && Committed(all) == Committed(acts) + [Confirm(id, driver)]
    ensures Play(all) == Finished(Play(acts), p, Exec(Play(acts).db, Confirm(id, driver)),
                                  Some(ConfirmDone(id, Play(acts).db.bookings[id].ride)))
  {
    var d := Play(acts).db;
    var b := d.bookings[id];
    var row := d.rides[b.ride];
    ConfirmReads(d, id, driver);
    all := CanCommitThree(acts, p, ConfirmHasBooking(id, driver), ConfirmLocked(id, driver, b, row),
                          ConfirmChecked(id, driver, b, row), Confirm(id, driver), Some(ConfirmDone(id, b.ride)));
  }

  lemma CancelReads(d: Db, now: int, id: nat, actor: UserId, role: Role)
    requires CancelTx(d, id, actor, role, now).Ok? && Credited(d.bookings[id].status)
    ensures var b := d.bookings[id];
            var row := Credit(d.rides[b.ride], b.seats, now);
            && Reads(d, CancelGuarded(id, actor, role, now), CancelWritten(id, actor, role, now, b))
            && Reads(d, CancelWritten(id, actor, role, now, b), CancelCredited(id, actor, role, now, b, row))
            && Commits(d, CancelCredited(id, actor, role, now, b, row), Cancel(id, actor, role, now))
            && Visible(d, CancelCredited(id, actor, role, now, b, row), Cancel(id, actor, role, now))
               == Exec(d, Cancel(id, actor, role, now))
  {
  }

  /** In every reachable state a cancellation that credits seats, and whose rows are not locked, can run to its commit. */
  lemma CancelCanCommit(acts: seq<Action>, p: nat, now: int, id: nat, actor: UserId, role: Role)
    returns (all: seq<Action>)
    requires p in Play(acts).procs && Play(acts).procs[p] == CancelGuarded(id, actor, role, now)
    requires CancelTx(Play(acts).db, id, actor, role, now).Ok? && Credited(Play(acts).db.bookings[id].status)
    requires id !in Play(acts).bookingLock && Play(acts).db.bookings[id].ride !in Play(acts).rideLock
    ensures acts <= all && Committed(all) == Committed(acts) + [Cancel(id, actor, role, now)]
    ensures Play(all) == Finished(Play(acts), p, Exec(Play(acts).db, Cancel(id, actor, role, now)), None)
  {
    var d := Play(acts).db;
    var b := d.bookings[id];
    var row := Credit(d.rides[b.ride], b.seats, now);
    CancelReads(d, now, id, actor, role);
    all := CanCommitTwo(acts, p, CancelWritten(id, actor, role, now, b), CancelCredited(id, actor, role, now, b, row),
                        Cancel(id, actor, role, now), None);
  }

  lemma NoShowReads(d: Db, now: int, id: nat, driver: UserId)
    requires StatusSeen(d, id).Active? && NoShowTx(d, id, driver, RideStatus.Active, now).Ok?
    ensures var b, seen := d.bookings[id], RideStatus.Active;
            var row := Credit(d.rides[b.ride], b.seats, now);
            && Reads(d, NoShowGuarded(id, driver, now), NoShowSeen(id, driver, now, seen))
            && Reads(d, NoShowSeen(id, driver, now, seen), NoShowWritten(id, driver, now, seen, b))
            && Reads(d, NoShowWritten(id, driver, now, seen, b), NoShowCredited(id, driver, now, seen, b, row))
            && Commits(d, NoShowCredited(id, driver, now, seen, b, row), MissRide(id, driver, seen, now))
            && Visible(d, NoShowCredited(id, driver, now, seen, b, row), MissRide(id, driver, seen, now))
               == Exec(d, MissRide(id, driver, seen, now))
  {
  }

  /** In every reachable state a no-show whose rows are not locked can run to its commit, with the effect it has alone. */
  lemma NoShowCanCommit(acts: seq<Action>, p: nat, now: int, id: nat, driver: UserId) returns (all: seq<Action>)
    requires p in Play(acts).procs && Play(acts).procs[p] == NoShowGuarded(id, driver, now)
    requires StatusSeen(Play(acts).db, id).Active? && NoShowTx(Play(acts).db, id, driver, RideStatus.Active, now).Ok?
    requires id !in Play(acts).bookingLock && Play(acts).db.bookings[id].ride !in Play(acts).rideLock
    ensures acts <= all && Committed(all) == Committed(acts) + [MissRide(id, driver, RideStatus.Active, now)]
    ensures Play(all) == Finished(Play(acts), p, Exec(Play(acts).db, MissRide(id, driver, RideStatus.Active, now)),
                                  Some(CompletionBegun(Play(acts).db.bookings[id].ride)))
  {
    var d, seen := Play(acts).db, RideStatus.Active;
    var b := d.bookings[id];
    var row := Credit(d.rides[b.ride], b.seats, now);
    NoShowReads(d, now, id, driver);
    all := CanCommitThree(acts, p, NoShowSeen(id, driver, now, seen), NoShowWritten(id, driver, now, seen, b),
                          NoShowCredited(id, driver, now, seen, b, row), MissRide(id, driver, seen, now),
                          Some(CompletionBegun(b.ride)));
  }

  /** Cancelling the rows that match changes what cancelling all the ride's rows would. */
  lemma MatchingRowsSuffice(bs: seq<Booking>, ride: nat)
    ensures CancelRows(bs, ride, RowsToCancel(bs, ride), false) == CancelRows(bs, ride, RowsOf(bs, ride), false)
    ensures forall i :: 0 <= i < |bs| && CancelRows(bs, ride, RowsOf(bs, ride), false)[i] != bs[i] ==> i in RowsToCancel(bs, ride)
  {
    var a, b := CancelRows(bs, ride, RowsToCancel(bs, ride), false), CancelRows(bs, ride, RowsOf(bs, ride), false);
    forall i | 0 <= i < |bs|
      ensures a[i] == b[i]
    {
    }
  }

  lemma CascadeReads(d: Db, ride: nat)
    ensures var rows := RowsToCancel(d.bookings, ride);
            var t := CancelSome(ride, rows, false);
            && Reads(d, CascadeDue(ride), CascadeSeen(ride, rows)) && Commits(d, CascadeSeen(ride, rows), t)
            && Visible(d, CascadeSeen(ride, rows), t) == d.(bookings := CancelRows(d.bookings, ride, rows, false))
  {
  }

  lemma CascadedIs(d: Db, ride: nat)
    ensures Cascaded(d, ride) == d.(bookings := CancelRows(d.bookings, ride, RowsOf(d.bookings, ride), false))
  {
  }

  /** In every reachable state a cascade whose bookings are not locked can run to its commit, closing what its snapshot matched. */
  lemma CascadeCanCommit(acts: seq<Action>, p: nat, ride: nat) returns (all: seq<Action>)
    requires p in Play(acts).procs && Play(acts).procs[p] == CascadeDue(ride)
    requires forall i :: i in RowsToCancel(Play(acts).db.bookings, ride) ==> i !in Play(acts).bookingLock
    ensures acts <= all
    ensures Committed(all) == Committed(acts) + [CancelSome(ride, RowsToCancel(Play(acts).db.bookings, ride), false)]
    ensures Play(all) == Finished(Play(acts), p, Cascaded(Play(acts).db, ride), None)
  {
    var s := Play(acts);
    var rows := RowsToCancel(s.db.bookings, ride);
    CascadeReads(s.db, ride);
    CascadedIs(s.db, ride);
    MatchingRowsSuffice(s.db.bookings, ride);
    all := CanCommitOne(acts, p, CascadeSeen(ride, rows), CancelSome(ride, rows, false), None);
  }

  /**
   The idempotency key is looked up before the transaction begins. In every reachable state, two
   requests with one key that have both looked it up both make a booking, on one ride or on two,
   whenever the second is still acceptable after the first.
   */
  lemma OverlappingCreatesRepeatAKey(acts: seq<Action>, p: nat, q: nat, now: int, rider: UserId, req: CreateRequest,
                                     later: int, sender: UserId, other: CreateRequest)
    returns (all: seq<Action>)
    requires p != q && p in Play(acts).procs && q in Play(acts).procs
    requires Play(acts).procs[p] == CreateBegun(now, rider, req) && Play(acts).procs[q] == CreateBegun(later, sender, other)
    requires req.ride !in Play(acts).rideLock && other.ride !in Play(acts).rideLock
    requires CreateTx(Play(acts).db, now, rider, req).Ok?
    requires CreateTx(Exec(Play(acts).db, Create(now, rider, req)), later, sender, other).Ok?
    requires req.key == other.key != ""
    ensures acts <= all
    ensures var n, bs := |Play(acts).db.bookings|, Play(all).db.bookings;
            && |bs| == n + 2 && bs[n].key == bs[n + 1].key == req.key
            && bs[n].ride == req.ride && bs[n + 1].ride == other.ride
  {
    var first := CreateCanCommit(acts, p, now, rider, req);
    all := CreateCanCommit(first, q, later, sender, other);
  }

  /** One more commit changes a booking's status or does not. */
  lemma MovesOnce(acts: seq<Action>, all: seq<Action>, t: Txn, id: nat)
    requires Committed(all) == Committed(acts) + [t]
    ensures var bs, out := Play(acts).db.bookings, Play(all).db.bookings;
            Moves(Committed(all), id) == Moves(Committed(acts), id)
                                         + if id < |bs| && id < |out| && out[id].status != bs[id].status then 1 else 0
  {
    EveryScheduleIsSerial(acts);
    EveryScheduleIsSerial(all);
    assert (Committed(acts) + [t])[..|Committed(acts)|] == Committed(acts);
  }

  // ---- From the empty system: a repeated key -------------------------------

  const SHARED := CreateRequest("key", 0, 1, 0.0, 1.0, true, true)

  const ONE_RIDE := Db([Offered(1, 1)], [])

  const TWO_SEATS := Db([Offered(2, 2)], [])

  lemma BothBegin() returns (acts: seq<Action>)
    ensures Play(acts) == Sys(TWO_SEATS, map[0 := CreateBegun(0, "ann", SHARED), 1 := CreateBegun(1, "bob", SHARED)],
                              map[], map[])
  {
    acts := CanOffer(Offer(2), TWO_SEATS);
    var p, q := CreateBegun(0, "ann", SHARED), CreateBegun(1, "bob", SHARED);
    acts := CanSpawn(acts, 0, p, Sys(TWO_SEATS, map[0 := p], map[], map[]));
    acts := CanSpawn(acts, 1, q, Sys(TWO_SEATS, map[0 := p, 1 := q], map[], map[]));
  }

  lemma BothAreAccepted()
    ensures CreateTx(TWO_SEATS, 0, "ann", SHARED).Ok?
    ensures CreateTx(Exec(TWO_SEATS, Create(0, "ann", SHARED)), 1, "bob", SHARED).Ok?
  {
    SumOfOne(OccupiedWeights(Exec(TWO_SEATS, Create(0, "ann", SHARED)).bookings, 0, 0.0, 1.0));
  }

  /** Two riders send one key for one ride, and from the empty system two bookings with that key are reached. */
  lemma AKeyIsRepeated() returns (all: seq<Action>)
    ensures var bs := Play(all).db.bookings; |bs| == 2 && bs[0].key == bs[1].key == "key" && bs[0].ride == bs[1].ride
  {
    var acts := BothBegin();
    BothAreAccepted();
    all := OverlappingCreatesRepeatAKey(acts, 0, 1, 0, "ann", SHARED, 1, "bob", SHARED);
  }

  // ---- A creation, a confirmation and a credit -----------------------------

  const WHOLE := CreateRequest("", 0, 1, 0.0, 1.0, true, true)

  lemma AskedOnce()
    ensures CreateTx(ONE_RIDE, 0, "ann", WHOLE) == Ok(Trip(1, RideStatus.Scheduled, BookingStatus.Pending), 0)
  {
  }

  lemma ConfirmedOnce()
    ensures ConfirmTx(Trip(1, RideStatus.Scheduled, BookingStatus.Pending), 0, "driver") == Ok(Trip(0, RideStatus.Scheduled, BookingStatus.Confirmed), 0)
  {
    SumOfOne(OccupiedWeights(Trip(1, RideStatus.Scheduled, BookingStatus.Pending).bookings, 0, 0.0, 1.0));
  }

  lemma CancelIsAllowed()
    ensures Begins(Trip(0, RideStatus.Scheduled, BookingStatus.Confirmed), CancelGuarded(0, "ann", Rider, 0))
  {
    var d := Trip(0, RideStatus.Scheduled, BookingStatus.Confirmed);
    assert d.bookings[0].rider == "ann" != d.rides[0].driver;
  }

  lemma CancelledOnce(d: Db)
    requires d == Trip(0, RideStatus.Scheduled, BookingStatus.Confirmed)
    ensures CancelTx(d, 0, "ann", Rider, 0) == Ok(Trip(1, RideStatus.Scheduled, BookingStatus.Cancelled), 0)
    ensures Credited(d.bookings[0].status) && d.bookings[0].ride == 0
  {
    var b, r := d.bookings[0], d.rides[0];
    assert Credit(r, b.seats, 0) == r.(available := 1);
  }

  /** The confirmation begins before the booking it is for exists. */
  lemma AskingIsReached() returns (acts: seq<Action>)
    ensures Play(acts) == Sys(ONE_RIDE, map[0 := CreateBegun(0, "ann", WHOLE), 1 := ConfirmBegun(0, "driver")], map[], map[])
    ensures Committed(acts) == [Offer(1)] && Moves(Committed(acts), 0) == 0
  {
    acts := CanOffer(Offer(1), ONE_RIDE);
    MovesOnce([], acts, Offer(1), 0);
    var p, q := CreateBegun(0, "ann", WHOLE), ConfirmBegun(0, "driver");
    acts := CanSpawn(acts, 0, p, Sys(ONE_RIDE, map[0 := p], map[], map[]));
    acts := CanSpawn(acts, 1, q, Sys(ONE_RIDE, map[0 := p, 1 := q], map[], map[]));
  }

  lemma AskedIsReached() returns (acts: seq<Action>)
    ensures Play(acts) == Sys(Trip(1, RideStatus.Scheduled, BookingStatus.Pending), map[1 := ConfirmBegun(0, "driver")], map[], map[])
    ensures Committed(acts) == [Offer(1), Create(0, "ann", WHOLE)] && Moves(Committed(acts), 0) == 0
  {
    var asking := AskingIsReached();
    AskedOnce();
    acts := CreateCanCommit(asking, 0, 0, "ann", WHOLE);
    MovesOnce(asking, acts, Create(0, "ann", WHOLE), 0);
  }

  lemma ConfirmedIsReached() returns (acts: seq<Action>)
    ensures Play(acts) == Sys(Trip(0, RideStatus.Scheduled, BookingStatus.Confirmed), map[1 := ConfirmDone(0, 0)], map[], map[])
    ensures Committed(acts) == [Offer(1), Create(0, "ann", WHOLE), Confirm(0, "driver")] && Moves(Committed(acts), 0) == 1
  {
    var asked := AskedIsReached();
    ConfirmedOnce();
    acts := ConfirmCanCommit(asked, 1, 0, "driver");
    MovesOnce(asked, acts, Confirm(0, "driver"), 0);
  }

  lemma CancelBegunIsReached() returns (acts: seq<Action>)
    ensures Play(acts) == Sys(Trip(0, RideStatus.Scheduled, BookingStatus.Confirmed),
                              map[1 := ConfirmDone(0, 0), 2 := CancelGuarded(0, "ann", Rider, 0)], map[], map[])
    ensures Committed(acts) == [Offer(1), Create(0, "ann", WHOLE), Confirm(0, "driver")] && Moves(Committed(acts), 0) == 1
  {
    acts := ConfirmedIsReached();
    var c, d := CancelGuarded(0, "ann", Rider, 0), Trip(0, RideStatus.Scheduled, BookingStatus.Confirmed);
    assert Begins(d, c) by { CancelIsAllowed(); }
    acts := CanSpawn(acts, 2, c, Sys(d, map[1 := ConfirmDone(0, 0), 2 := c], map[], map[]));
  }

  /** From the empty system a schedule commits a creation, its confirmation and the cancellation that credits it. */
  lemma ConfirmedAndCredited() returns (acts: seq<Action>)
    ensures Committed(acts) == [Offer(1), Create(0, "ann", WHOLE), Confirm(0, "driver"), Cancel(0, "ann", Rider, 0)]
    ensures Play(acts).db == Trip(1, RideStatus.Scheduled, BookingStatus.Cancelled)
  {
    var begun := CancelBegunIsReached();
    CancelledOnce(Play(begun).db);
    acts := CancelCanCommit(begun, 2, 0, 0, "ann", Rider);
  }

  // ---- A cancelled ride that is revived ------------------------------------

  lemma BothGuardsPass()
    ensures Begins(ONE_RIDE, StartGuarded(0, "driver")) && Begins(ONE_RIDE, RideCancelGuarded(0, "driver"))
  {
    assert StartGuard(ONE_RIDE, 0, "driver", DEPARTURE).Pass?;
    assert RideCancelGuard(ONE_RIDE, 0, "driver", DEPARTURE).Pass?;
  }

  /** The driver starts and cancels at once: both guards pass before either writes. */
  lemma StartingIsReached() returns (acts: seq<Action>)
    ensures Play(acts) == Sys(ONE_RIDE, map[0 := StartGuarded(0, "driver"), 1 := RideCancelGuarded(0, "driver")], map[], map[])
  {
    acts := CanOffer(Offer(1), ONE_RIDE);
    var p, q := StartGuarded(0, "driver"), RideCancelGuarded(0, "driver");
    BothGuardsPass();
    acts := CanSpawn(acts, 0, p, Sys(ONE_RIDE, map[0 := p], map[], map[]));
    acts := CanSpawn(acts, 1, q, Sys(ONE_RIDE, map[0 := p, 1 := q], map[], map[]));
  }

  function Rides(s: RideStatus): Db {
    Db([Offered(1, 1).(status := s)], [])
  }

  lemma RideCancelledIsReached() returns (acts: seq<Action>)
    ensures Play(acts) == Sys(Rides(RideStatus.Cancelled), map[0 := StartGuarded(0, "driver"), 1 := CascadeDue(0)], map[], map[])
  {
    acts := StartingIsReached();
    acts := CanFinish(acts, 1, RideCancel(0, "driver"), Some(CascadeDue(0)));
  }

  /** From the empty system a schedule cancels a ride and then revives it. */
  lemma ACancelledRideIsRevived() returns (acts: seq<Action>, all: seq<Action>)
    ensures acts <= all
    ensures Play(acts).db == Rides(RideStatus.Cancelled) && Play(all).db == Rides(RideStatus.Active)
  {
    acts := RideCancelledIsReached();
    all := CanFinish(acts, 0, Start(0), None);
  }

  // ---- The rest of the trip ------------------------------------------------

  lemma DriverGuardsPass(b: BookingStatus)
    requires Credited(b)
    ensures Begins(Trip(0, RideStatus.Scheduled, b), StartGuarded(0, "driver"))
    ensures Begins(Trip(0, RideStatus.Active, b), PickUpGuarded(0, "driver"))
    ensures Begins(Trip(0, RideStatus.Active, BookingStatus.PickedUp), DropGuarded(0, "driver"))
  {
    assert StartGuard(Trip(0, RideStatus.Scheduled, b), 0, "driver", DEPARTURE).Pass?;
  }

  lemma ReadyGuardPasses()
    ensures Begins(Trip(0, RideStatus.Scheduled, BookingStatus.Confirmed), ReadyGuarded(0, "ann"))
  {
    assert ReadyGuard(Trip(0, RideStatus.Scheduled, BookingStatus.Confirmed), 0, "ann", DEPARTURE, true).Pass?;
  }

  lemma ReadyRuns(acts: seq<Action>, procs: map<nat, Proc>) returns (all: seq<Action>)
    requires Play(acts) == Sys(Trip(0, RideStatus.Scheduled, BookingStatus.Confirmed), procs, map[], map[]) && 3 !in procs
    ensures Play(all) == Sys(Trip(0, RideStatus.Scheduled, BookingStatus.RiderReady), procs, map[], map[])
    ensures acts <= all && Committed(all) == Committed(acts) + [Ready(0, "ann")]
    ensures Moves(Committed(all), 0) == Moves(Committed(acts), 0) + 1
  {
    var q := ReadyGuarded(0, "ann");
    ReadyGuardPasses();
    all := CanSpawn(acts, 3, q, Play(acts).(procs := procs[3 := q]));
    all := CanFinish(all, 3, Ready(0, "ann"), None);
    assert procs[3 := q] - {3} == procs;
    MovesOnce(acts, all, Ready(0, "ann"), 0);
  }

  lemma StartRuns(acts: seq<Action>, procs: map<nat, Proc>, b: BookingStatus) returns (all: seq<Action>)
    requires Play(acts) == Sys(Trip(0, RideStatus.Scheduled, b), procs, map[], map[]) && 3 !in procs && Credited(b)
    ensures Play(all) == Sys(Trip(0, RideStatus.Active, b), procs, map[], map[])
    ensures acts <= all && Committed(all) == Committed(acts) + [Start(0)]
    ensures Moves(Committed(all), 0) == Moves(Committed(acts), 0)
  {
    DriverGuardsPass(b);
    all := CanSpawn(acts, 3, StartGuarded(0, "driver"), Play(acts).(procs := procs[3 := StartGuarded(0, "driver")]));
    all := CanFinish(all, 3, Start(0), None);
    assert procs[3 := StartGuarded(0, "driver")] - {3} == procs;
    MovesOnce(acts, all, Start(0), 0);
  }

  lemma PickUpReads(b: BookingStatus)
    requires Credited(b)
    ensures var d, q := Trip(0, RideStatus.Active, b), PickUpSeen(0, "driver", RideStatus.Active);
            && Reads(d, PickUpGuarded(0, "driver"), q) && Commits(d, q, PickUp(0, "driver", RideStatus.Active))
            && Visible(d, q, PickUp(0, "driver", RideStatus.Active)) == Trip(0, RideStatus.Active, BookingStatus.PickedUp)
  {
  }

  lemma PickUpRuns(acts: seq<Action>, procs: map<nat, Proc>, b: BookingStatus) returns (all: seq<Action>)
    requires Play(acts) == Sys(Trip(0, RideStatus.Active, b), procs, map[], map[]) && 3 !in procs && Credited(b)
    ensures Play(all) == Sys(Trip(0, RideStatus.Active, BookingStatus.PickedUp), procs, map[], map[])
    ensures acts <= all && Committed(all) == Committed(acts) + [PickUp(0, "driver", RideStatus.Active)]
    ensures Moves(Committed(all), 0) == Moves(Committed(acts), 0) + 1
  {
    var q := PickUpGuarded(0, "driver");
    assert Begins(Trip(0, RideStatus.Active, b), q) by { DriverGuardsPass(b); }
    all := CanSpawn(acts, 3, q, Play(acts).(procs := procs[3 := q]));
    PickUpReads(b);
    all := CanCommitOne(all, 3, PickUpSeen(0, "driver", RideStatus.Active), PickUp(0, "driver", RideStatus.Active), None);
    assert procs[3 := q] - {3} == procs;
    MovesOnce(acts, all, PickUp(0, "driver", RideStatus.Active), 0);
  }

  lemma DropWrites()
    ensures var d := Trip(0, RideStatus.Active, BookingStatus.PickedUp);
            && Commits(d, DropGuarded(0, "driver"), Drop(0, "driver"))
            && Follows(d, DropGuarded(0, "driver"), Some(CompletionBegun(0)))
            && Visible(d, DropGuarded(0, "driver"), Drop(0, "driver")) == Trip(0, RideStatus.Active, BookingStatus.Completed)
  {
  }

  lemma DropBegins(acts: seq<Action>, procs: map<nat, Proc>) returns (all: seq<Action>)
    requires Play(acts) == Sys(Trip(0, RideStatus.Active, BookingStatus.PickedUp), procs, map[], map[]) && 3 !in procs
    ensures Play(all) == Sys(Trip(0, RideStatus.Active, BookingStatus.PickedUp), procs[3 := DropGuarded(0, "driver")],
                             map[], map[])
    ensures acts <= all && Committed(all) == Committed(acts)
  {
    DriverGuardsPass(BookingStatus.Confirmed);
    all := CanSpawn(acts, 3, DropGuarded(0, "driver"), Play(acts).(procs := procs[3 := DropGuarded(0, "driver")]));
  }

  lemma DropRuns(acts: seq<Action>, procs: map<nat, Proc>) returns (all: seq<Action>)
    requires Play(acts) == Sys(Trip(0, RideStatus.Active, BookingStatus.PickedUp), procs, map[], map[]) && 3 !in procs
    ensures Play(all) == Sys(Trip(0, RideStatus.Active, BookingStatus.Completed), procs[3 := CompletionBegun(0)], map[], map[])
    ensures acts <= all && Committed(all) == Committed(acts) + [Drop(0, "driver")]
    ensures Moves(Committed(all), 0) == Moves(Committed(acts), 0) + 1
  {
    all := DropBegins(acts, procs);
    DropWrites();
    all := CanFinish(all, 3, Drop(0, "driver"), Some(CompletionBegun(0)));
    assert (procs[3 := DropGuarded(0, "driver")] - {3})[3 := CompletionBegun(0)] == procs[3 := CompletionBegun(0)];
    MovesOnce(acts, all, Drop(0, "driver"), 0);
  }

  // ---- A completed ride with an open booking -------------------------------

  const CONFIRMER := map[1 := ConfirmDone(0, 0)]

  lemma DroppedIsReached() returns (acts: seq<Action>)
    ensures Play(acts) == Sys(Trip(0, RideStatus.Active, BookingStatus.Completed), CONFIRMER[3 := CompletionBegun(0)],
                              map[], map[])
  {
    acts := ConfirmedIsReached();
    acts := StartRuns(acts, CONFIRMER, BookingStatus.Confirmed);
    acts := PickUpRuns(acts, CONFIRMER, BookingStatus.Confirmed);
    acts := DropRuns(acts, CONFIRMER);
  }

  /** The ride after the drop-off with the given status, and one more rider's pending booking. */
  function WithBob(s: RideStatus): Db {
    var d := Trip(0, s, BookingStatus.Completed);
    d.(bookings := d.bookings + [Asked("bob", 1, 0.0, 1.0, BookingStatus.Pending)])
  }

  lemma BobIsAccepted()
    ensures CreateTx(Trip(0, RideStatus.Active, BookingStatus.Completed), 0, "bob", WHOLE)
            == Ok(WithBob(RideStatus.Active), 1)
  {
    SumOfOne(OccupiedWeights(Trip(0, RideStatus.Active, BookingStatus.Completed).bookings, 0, 0.0, 1.0));
  }

  lemma NoneIsOpen()
    ensures Reads(Trip(0, RideStatus.Active, BookingStatus.Completed), CompletionBegun(0), CompletionCounted(0))
  {
    assert OpenOn(Trip(0, RideStatus.Active, BookingStatus.Completed).bookings, 0) == {};
  }

  lemma BobHasBegun() returns (acts: seq<Action>)
    ensures Play(acts) == Sys(Trip(0, RideStatus.Active, BookingStatus.Completed),
                              CONFIRMER[3 := CompletionBegun(0)][4 := CreateBegun(0, "bob", WHOLE)], map[], map[])
  {
    acts := DroppedIsReached();
    var q := CreateBegun(0, "bob", WHOLE);
    acts := CanSpawn(acts, 4, q, Play(acts).(procs := CONFIRMER[3 := CompletionBegun(0)][4 := q]));
  }

  lemma CountingIsReached() returns (acts: seq<Action>)
    ensures Play(acts) == Sys(Trip(0, RideStatus.Active, BookingStatus.Completed),
                              CONFIRMER[3 := CompletionCounted(0)][4 := CreateBegun(0, "bob", WHOLE)], map[], map[])
  {
    acts := BobHasBegun();
    NoneIsOpen();
    acts := CanStep(acts, 3, CompletionCounted(0));
  }

  lemma CountedIsReached() returns (acts: seq<Action>)
    ensures Play(acts) == Sys(WithBob(RideStatus.Active), CONFIRMER[3 := CompletionCounted(0)], map[], map[])
  {
    acts := CountingIsReached();
    BobIsAccepted();
    acts := CreateCanCommit(acts, 4, 0, "bob", WHOLE);
    assert CONFIRMER[3 := CompletionCounted(0)][4 := CreateBegun(0, "bob", WHOLE)] - {4}
        == CONFIRMER[3 := CompletionCounted(0)];
  }

  /** A booking made between a completion's count and its write is left pending on a completed ride. */
  lemma ACompletedRideHasAnOpenBooking() returns (acts: seq<Action>)
    ensures Play(acts).db == WithBob(RideStatus.Completed)
  {
    acts := CountedIsReached();
    acts := CanCommitOne(acts, 3, CompletionSeen(0), Complete(0, true, RideStatus.Active), None);
  }

  // ---- Stale cancellations -------------------------------------------------

  const CANCELLER := CONFIRMER[2 := CancelGuarded(0, "ann", Rider, 0)]

  /** A cancellation has passed its guard; before it writes, the rider is picked up. */
  lemma OnBoardIsReached() returns (acts: seq<Action>)
    ensures Play(acts) == Sys(Trip(0, RideStatus.Active, BookingStatus.PickedUp), CANCELLER, map[], map[])
    ensures Moves(Committed(acts), 0) == 3
  {
    acts := CancelBegunIsReached();
    acts := ReadyRuns(acts, CANCELLER);
    acts := StartRuns(acts, CANCELLER, BookingStatus.RiderReady);
    acts := PickUpRuns(acts, CANCELLER, BookingStatus.RiderReady);
  }

  lemma StaleCancelReads(b: BookingStatus)
    requires b.PickedUp? || b.Completed?
    ensures var d := Trip(0, RideStatus.Active, b);
            var q := CancelWritten(0, "ann", Rider, 0, d.bookings[0]);
            && Reads(d, CancelGuarded(0, "ann", Rider, 0), q) && Commits(d, q, Cancel(0, "ann", Rider, 0))
            && Visible(d, q, Cancel(0, "ann", Rider, 0)) == Trip(0, RideStatus.Active, BookingStatus.Cancelled)
  {
  }

  lemma StaleCancelRuns(acts: seq<Action>, b: BookingStatus) returns (all: seq<Action>)
    requires Play(acts).db == Trip(0, RideStatus.Active, b) && (b.PickedUp? || b.Completed?)
    requires Play(acts).rideLock == map[] && Play(acts).bookingLock == map[]
    requires 2 in Play(acts).procs && Play(acts).procs[2] == CancelGuarded(0, "ann", Rider, 0)
    ensures Play(all).db == Trip(0, RideStatus.Active, BookingStatus.Cancelled)
    ensures acts <= all && Committed(all) == Committed(acts) + [Cancel(0, "ann", Rider, 0)]
    ensures Moves(Committed(all), 0) == Moves(Committed(acts), 0) + 1
  {
    StaleCancelReads(b);
    all := CanCommitOne(acts, 2, CancelWritten(0, "ann", Rider, 0, Play(acts).db.bookings[0]), Cancel(0, "ann", Rider, 0), None);
    MovesOnce(acts, all, Cancel(0, "ann", Rider, 0), 0);
  }

  /** A rider on board becomes cancelled: the seat is free for others, and the counter is not credited. */
  lemma ARiderOnBoardIsCancelled() returns (acts: seq<Action>, all: seq<Action>)
    ensures acts <= all
    ensures Play(acts).db == Trip(0, RideStatus.Active, BookingStatus.PickedUp)
    ensures Play(all).db == Trip(0, RideStatus.Active, BookingStatus.Cancelled)
  {
    acts := OnBoardIsReached();
    all := StaleCancelRuns(acts, BookingStatus.PickedUp);
  }

  /** A booking's status changes five times: the trip to its end, and a cancellation that overwrites it. */
  lemma FiveChangesAreReached() returns (acts: seq<Action>)
    ensures Moves(Committed(acts), 0) == 5
  {
    acts := OnBoardIsReached();
    acts := DropRuns(acts, CANCELLER);
    acts := StaleCancelRuns(acts, BookingStatus.Completed);
  }
}
