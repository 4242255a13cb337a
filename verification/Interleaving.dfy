/**
 The endpoints when they interleave. Each runs as a process that reads committed rows one
 statement at a time, locks rows as its statements do, keeps its writes to itself, and makes
 them visible only when it commits; it may also stop at any moment and roll back. The main
 result is that every interleaving leaves the committed tables exactly as running the committed
 transactions one after the other, in commit order, so whatever every serial run keeps is kept.
 */
module Interleaving {
  import opened Options
  import opened Model
  import opened Fares
  import opened Transactions
  import opened Endpoints
  import opened Capacity
  import opened Effects
  import opened Ledgers

  /** Where a process is, with the values it has read. `was` and `row` are row versions it read or wrote. */
  datatype Proc =
    | CreateBegun(now: int, rider: UserId, req: CreateRequest)
    | CreateLocked(now: int, rider: UserId, req: CreateRequest, row: Ride)
    | CreateUnique(now: int, rider: UserId, req: CreateRequest, row: Ride)
    | CreateChecked(now: int, rider: UserId, req: CreateRequest, row: Ride)
    | ConfirmBegun(id: nat, driver: UserId)
    | ConfirmHasBooking(id: nat, driver: UserId)
    | ConfirmLocked(id: nat, driver: UserId, was: Booking, row: Ride)
    | ConfirmChecked(id: nat, driver: UserId, was: Booking, row: Ride)
    | ConfirmDone(id: nat, ride: nat)
    | CancelGuarded(id: nat, actor: UserId, role: Role, now: int)
    | CancelWritten(id: nat, actor: UserId, role: Role, now: int, was: Booking)
    | CancelCredited(id: nat, actor: UserId, role: Role, now: int, was: Booking, row: Ride)
    | ReadyGuarded(id: nat, rider: UserId)
    | PickUpGuarded(id: nat, driver: UserId)
    | PickUpSeen(id: nat, driver: UserId, seen: RideStatus)
    | DropGuarded(id: nat, driver: UserId)
    | NoShowGuarded(id: nat, driver: UserId, now: int)
    | NoShowSeen(id: nat, driver: UserId, now: int, seen: RideStatus)
    | NoShowWritten(id: nat, driver: UserId, now: int, seen: RideStatus, was: Booking)
    | NoShowCredited(id: nat, driver: UserId, now: int, seen: RideStatus, was: Booking, row: Ride)
    | CompletionBegun(ride: nat)
    | CompletionCounted(ride: nat)
    | CompletionSeen(ride: nat)
    | StartGuarded(ride: nat, driver: UserId)
    | RideCancelGuarded(ride: nat, driver: UserId)
    | CascadeDue(ride: nat)
    | CascadeSeen(ride: nat, rows: set<nat>)

  function RideLocks(q: Proc): set<nat> {
    match q
    case CreateLocked(_, _, req, _) => {req.ride}
    case CreateUnique(_, _, req, _) => {req.ride}
    case CreateChecked(_, _, req, _) => {req.ride}
    case ConfirmLocked(_, _, was, _) => {was.ride}
    case ConfirmChecked(_, _, was, _) => {was.ride}
    case CancelCredited(_, _, _, _, was, _) => {was.ride}
    case NoShowCredited(_, _, _, _, was, _) => {was.ride}
    case _ => {}
  }

  function BookingLocks(q: Proc): set<nat> {
    match q
    case ConfirmHasBooking(id, _) => {id}
    case ConfirmLocked(id, _, _, _) => {id}
    case ConfirmChecked(id, _, _, _) => {id}
    case CancelWritten(id, _, _, _, _) => {id}
    case CancelCredited(id, _, _, _, _, _) => {id}
    case NoShowWritten(id, _, _, _, _) => {id}
    case NoShowCredited(id, _, _, _, _, _) => {id}
    case _ => {}
  }

  /** A handler's guards, evaluated on the committed tables before its transaction begins. */
  ghost predicate Begins(d: Db, q: Proc) {
    match q
    case CreateBegun(_, _, req) => req.seats >= 1 && (req.key == "" || FindKey(d.bookings, req.key).None?)
    case ConfirmBegun(_, _) => true
    case CancelGuarded(id, actor, role, now) => CancelGuard(d, id, actor, now).Pass? && role == RoleOf(d, id, actor)
    case ReadyGuarded(id, rider) => exists now :: ReadyGuard(d, id, rider, now, true).Pass?
    case PickUpGuarded(id, driver) => PickUpGuard(d, id, driver, true).Pass?
    case DropGuarded(id, driver) => DropGuard(d, id, driver).Pass?
    case NoShowGuarded(id, driver, now) => NoShowGuard(d, id, driver, now).Pass?
    case StartGuarded(ride, driver) => exists now :: StartGuard(d, ride, driver, now).Pass?
    case RideCancelGuarded(ride, driver) => exists now :: RideCancelGuard(d, ride, driver, now).Pass?
    case _ => false
  }

  /** The rows that the background cancellation's snapshot matches. */
  function RowsToCancel(bs: seq<Booking>, ride: nat): set<nat> {
    set i | 0 <= i < |bs| && CancelsRow(bs[i], ride, false)
  }

  /** A statement that reads committed rows (and the process's own writes) and lets the process go on. */
  ghost predicate Reads(d: Db, from: Proc, to: Proc) {
    match from
    case CreateBegun(now, rider, req) =>
      && req.ride < |d.rides|
      && to == CreateLocked(now, rider, req, d.rides[req.ride])
      && RideGuard(d.rides[req.ride], now, rider).Pass?
    case CreateLocked(now, rider, req, row) =>
      to == CreateUnique(now, rider, req, row) && !HasOpen(d.bookings, req.ride, rider)
    case CreateUnique(now, rider, req, row) =>
      && to == CreateChecked(now, rider, req, row)
      && SegmentGuard(req).Pass?
      && Fits(d.bookings, req.ride, SnapPickup(req.pickupAt), SnapDropoff(req.dropoffAt), req.seats, row.total)
    case ConfirmBegun(id, driver) => id < |d.bookings| && to == ConfirmHasBooking(id, driver)
    case ConfirmHasBooking(id, driver) =>
      && Drives(d, id, driver)
      && var b := d.bookings[id];
         to == ConfirmLocked(id, driver, b, d.rides[b.ride]) && b.status.Pending? && Bookable(d.rides[b.ride].status)
    case ConfirmLocked(id, driver, was, row) =>
      to == ConfirmChecked(id, driver, was, row)
      && Fits(d.bookings, was.ride, was.pickup, was.dropoff, was.seats, row.total)
    case CancelGuarded(id, actor, role, now) =>
      MayCancel(d, id, actor, role) && to == CancelWritten(id, actor, role, now, d.bookings[id])
    case CancelWritten(id, actor, role, now, was) =>
      && Credited(was.status) && was.ride < |d.rides|
      && var row := Credit(d.rides[was.ride], was.seats, now);
         to == CancelCredited(id, actor, role, now, was, row) && row.available <= row.total
    case PickUpGuarded(id, driver) =>
      Drives(d, id, driver) && StatusSeen(d, id).Active? && to == PickUpSeen(id, driver, StatusSeen(d, id))
    case NoShowGuarded(id, driver, now) =>
      Drives(d, id, driver) && StatusSeen(d, id).Active? && to == NoShowSeen(id, driver, now, StatusSeen(d, id))
    case NoShowSeen(id, driver, now, seen) =>
      && Drives(d, id, driver) && Credited(d.bookings[id].status)
      && to == NoShowWritten(id, driver, now, seen, d.bookings[id])
    case NoShowWritten(id, driver, now, seen, was) =>
      && was.ride < |d.rides|
      && var row := Credit(d.rides[was.ride], was.seats, now);
         to == NoShowCredited(id, driver, now, seen, was, row) && row.available <= row.total
    case CompletionBegun(ride) => to == CompletionCounted(ride) && OpenOn(d.bookings, ride) == {}
    case CompletionCounted(ride) => to == CompletionSeen(ride) && ride < |d.rides| && d.rides[ride].status.Active?
    case CascadeDue(ride) => to == CascadeSeen(ride, RowsToCancel(d.bookings, ride))
    case _ => false
  }

  /** The last statement and the commit: allowed in state d, and logged as transaction t. */
  ghost predicate Commits(d: Db, from: Proc, t: Txn) {
    match from
    case CreateChecked(now, rider, req, _) => t == Create(now, rider, req) && req.seats >= 1
    case ConfirmChecked(id, driver, was, _) =>
      t == Confirm(id, driver) && was.ride < |d.rides| && id < |d.bookings| && d.bookings[id].status.Pending?
    case ConfirmDone(id, ride) =>
      t.CancelSome? && t.ride == ride && t.onlyPending && id !in t.rows && ride < |d.rides| && d.rides[ride].status.Full?
    case CancelWritten(id, actor, role, now, was) =>
      t == Cancel(id, actor, role, now) && id < |d.bookings| && !Credited(was.status)
    case CancelCredited(id, actor, role, now, was, _) =>
      t == Cancel(id, actor, role, now) && id < |d.bookings| && was.ride < |d.rides|
    case ReadyGuarded(id, rider) =>
      t == Ready(id, rider) && id < |d.bookings| && d.bookings[id].rider == rider && d.bookings[id].status.Confirmed?
    case PickUpSeen(id, driver, seen) =>
      t == PickUp(id, driver, seen) && Drives(d, id, driver) && Credited(d.bookings[id].status)
    case DropGuarded(id, driver) =>
      t == Drop(id, driver) && Drives(d, id, driver) && d.bookings[id].status.PickedUp?
    case NoShowCredited(id, driver, now, seen, was, _) =>
      t == MissRide(id, driver, seen, now) && id < |d.bookings| && was.ride < |d.rides|
    case CompletionSeen(ride) => t == Complete(ride, true, RideStatus.Active) && ride < |d.rides|
    case StartGuarded(ride, _) => t == Start(ride) && ride < |d.rides|
    case RideCancelGuarded(ride, driver) =>
      && t == RideCancel(ride, driver)
      && ride < |d.rides| && d.rides[ride].driver == driver
      && (d.rides[ride].status.Scheduled? || d.rides[ride].status.Full?)
    case CascadeSeen(ride, rows) => t == CancelSome(ride, rows, false)
    case _ => false
  }

  /**
   What the commit makes visible: the process's own writes, computed from the values it read
   earlier. A background cancellation writes the rows that its snapshot matched and that still
   match. The one that would follow a confirmation is left free to pick any rows: it never runs.
   */
  function Visible(d: Db, from: Proc, t: Txn): Db
    requires Commits(d, from, t)
  {
    match from
    case CreateChecked(_, rider, req, row) => d.(bookings := d.bookings + [NewBooking(row, rider, req)])
    case ConfirmChecked(id, _, was, _) =>
      Db(d.rides[was.ride := Debit(d.rides[was.ride], was.seats)], WithStatus(d.bookings, id, BookingStatus.Confirmed))
    case CancelWritten(id, _, _, _, _) => d.(bookings := WithStatus(d.bookings, id, BookingStatus.Cancelled))
    case CancelCredited(id, _, _, _, was, row) =>
      Db(d.rides[was.ride := row], WithStatus(d.bookings, id, BookingStatus.Cancelled))
    case ReadyGuarded(id, _) => d.(bookings := WithStatus(d.bookings, id, BookingStatus.RiderReady))
    case PickUpSeen(id, _, _) => d.(bookings := WithStatus(d.bookings, id, BookingStatus.PickedUp))
    case DropGuarded(id, _) => d.(bookings := WithStatus(d.bookings, id, BookingStatus.Completed))
    case NoShowCredited(id, _, _, _, was, row) =>
      Db(d.rides[was.ride := row], WithStatus(d.bookings, id, BookingStatus.NoShow))
    case CompletionSeen(ride) => SetRideStatus(d, ride, RideStatus.Completed)
    case StartGuarded(ride, _) => SetRideStatus(d, ride, RideStatus.Active)
    case RideCancelGuarded(ride, _) => SetRideStatus(d, ride, RideStatus.Cancelled)
    case CascadeSeen(ride, rows) => d.(bookings := CancelRows(d.bookings, ride, rows, false))
    case ConfirmDone(_, ride) => d.(bookings := CancelRows(d.bookings, ride, t.rows, true))
    case _ => d
  }

  // ---- The system ----------------------------------------------------------

  datatype Sys = Sys(db: Db, procs: map<nat, Proc>, rideLock: map<nat, nat>, bookingLock: map<nat, nat>)

  const INIT := Sys(EMPTY, map[], map[], map[])

  datatype Action =
    | Spawn(p: nat, q: Proc)
    | Step(p: nat, q: Proc)
    | Abort(p: nat)
    | Commit(p: nat, t: Txn, next: Option<Proc>)
    | Direct(t: Txn)

  predicate FreeFor(lock: map<nat, nat>, row: nat, p: nat) {
    row !in lock || lock[row] == p
  }

  predicate CanHold(s: Sys, p: nat, q: Proc) {
    && (forall r :: r in RideLocks(q) ==> FreeFor(s.rideLock, r, p))
    && (forall b :: b in BookingLocks(q) ==> FreeFor(s.bookingLock, b, p))
  }

  /** A statement can change a row only when no other process holds its lock. */
  ghost predicate MayWrite(s: Sys, p: Option<nat>, d': Db) {
    && (forall r :: 0 <= r < |s.db.rides| && r < |d'.rides| && d'.rides[r] != s.db.rides[r] ==>
          r !in s.rideLock || p == Some(s.rideLock[r]))
    && (forall b :: 0 <= b < |s.db.bookings| && b < |d'.bookings| && d'.bookings[b] != s.db.bookings[b] ==>
          b !in s.bookingLock || p == Some(s.bookingLock[b]))
  }

  function Owned(lock: map<nat, nat>, rows: set<nat>, p: nat): map<nat, nat> {
    lock + map r | r in rows :: p
  }

  function Released(lock: map<nat, nat>, p: nat): map<nat, nat> {
    map r | r in lock && lock[r] != p :: lock[r]
  }

  /** What an endpoint does after a commit: the second half of its service call, if it has one. */
  ghost predicate Follows(d: Db, from: Proc, next: Option<Proc>) {
    match from
    case ConfirmChecked(id, _, was, _) => next == Some(ConfirmDone(id, was.ride))
    case DropGuarded(id, _) => id < |d.bookings| && next == Some(CompletionBegun(d.bookings[id].ride))
    case NoShowCredited(_, _, _, _, was, _) => next == Some(CompletionBegun(was.ride))
    case RideCancelGuarded(ride, _) => next == Some(CascadeDue(ride))
    case _ => next == None
  }

  ghost predicate Enabled(s: Sys, a: Action) {
    match a
    case Spawn(p, q) => p !in s.procs && Begins(s.db, q)
    case Step(p, q) => p in s.procs && Reads(s.db, s.procs[p], q) && CanHold(s, p, q)
    case Abort(p) => p in s.procs
    case Commit(p, t, next) =>
      && p in s.procs && Commits(s.db, s.procs[p], t) && Follows(s.db, s.procs[p], next)
      && MayWrite(s, Some(p), Visible(s.db, s.procs[p], t))
    case Direct(t) =>
      (t.RideCreate? || t.RideUpdate? || t.ManualStatus?) && Apply(s.db, t).Ok? && MayWrite(s, None, Exec(s.db, t))
  }

  function Ended(s: Sys, p: nat): Sys {
    Sys(s.db, s.procs - {p}, Released(s.rideLock, p), Released(s.bookingLock, p))
  }

  function Next(s: Sys, a: Action): Sys
    requires Enabled(s, a)
  {
    match a
    case Spawn(p, q) => s.(procs := s.procs[p := q])
    case Step(p, q) =>
      Sys(s.db, s.procs[p := q], Owned(s.rideLock, RideLocks(q), p), Owned(s.bookingLock, BookingLocks(q), p))
    case Abort(p) => Ended(s, p)
    case Commit(p, t, next) =>
      var e := Ended(s, p).(db := Visible(s.db, s.procs[p], t));
      if next.Some? then e.(procs := e.procs[p := next.value]) else e
    case Direct(t) => s.(db := Exec(s.db, t))
  }

  /** The system after a schedule; an action that is not enabled waits and does nothing. */
  ghost function Play(acts: seq<Action>): Sys {
    if acts == [] then INIT
    else
      var s := Play(acts[..|acts| - 1]);
      if Enabled(s, acts[|acts| - 1]) then Next(s, acts[|acts| - 1]) else s
  }

  /** The transactions a schedule commits, in commit order. */
  ghost function Committed(acts: seq<Action>): seq<Txn> {
    if acts == [] then []
    else
      var a, s := acts[|acts| - 1], Play(acts[..|acts| - 1]);
      Committed(acts[..|acts| - 1]) + if Enabled(s, a) && (a.Commit? || a.Direct?) then [a.t] else []
  }

  lemma PlayLast(acts: seq<Action>, a: Action)
    ensures var s := Play(acts);
            && Play(acts + [a]) == (if Enabled(s, a) then Next(s, a) else s)
            && Committed(acts + [a]) == Committed(acts) + if Enabled(s, a) && (a.Commit? || a.Direct?) then [a.t] else []
  {
    assert (acts + [a])[..|acts|] == acts;
  }

  // ---- What a process knows while it holds its locks -----------------------

  ghost predicate Knows(d: Db, q: Proc) {
    match q
    case CreateBegun(_, _, req) => req.seats >= 1
    case CreateLocked(now, rider, req, row) => KnowsRide(d, now, rider, req, row)
    case CreateUnique(now, rider, req, row) =>
      KnowsRide(d, now, rider, req, row) && !HasOpen(d.bookings, req.ride, rider)
    case CreateChecked(now, rider, req, row) =>
      && KnowsRide(d, now, rider, req, row) && !HasOpen(d.bookings, req.ride, rider)
      && SegmentGuard(req).Pass?
      && Fits(d.bookings, req.ride, SnapPickup(req.pickupAt), SnapDropoff(req.dropoffAt), req.seats, row.total)
    case ConfirmHasBooking(id, _) => id < |d.bookings|
    case ConfirmLocked(id, driver, was, row) => KnowsBoth(d, id, driver, was, row)
    case ConfirmChecked(id, driver, was, row) =>
      KnowsBoth(d, id, driver, was, row) && Fits(d.bookings, was.ride, was.pickup, was.dropoff, was.seats, row.total)
    case CancelWritten(id, actor, role, _, was) =>
      MayCancel(d, id, actor, role) && was == d.bookings[id]
    case CancelCredited(id, actor, role, now, was, row) =>
      && MayCancel(d, id, actor, role) && was == d.bookings[id] && Credited(was.status)
      && was.ride < |d.rides| && row == Credit(d.rides[was.ride], was.seats, now) && row.available <= row.total
    case PickUpSeen(_, _, seen) => seen.Active?
    case NoShowSeen(_, _, _, seen) => seen.Active?
    case NoShowWritten(id, driver, _, seen, was) =>
      seen.Active? && Drives(d, id, driver) && was == d.bookings[id] && Credited(was.status)
    case NoShowCredited(id, driver, now, seen, was, row) =>
      && seen.Active? && Drives(d, id, driver) && was == d.bookings[id] && Credited(was.status)
      && row == Credit(d.rides[was.ride], was.seats, now) && row.available <= row.total
    case StartGuarded(ride, driver) => ride < |d.rides| && d.rides[ride].driver == driver
    case _ => true
  }

  ghost predicate KnowsRide(d: Db, now: int, rider: UserId, req: CreateRequest, row: Ride) {
    req.seats >= 1 && req.ride < |d.rides| && row == d.rides[req.ride] && RideGuard(row, now, rider).Pass?
  }

  ghost predicate KnowsBoth(d: Db, id: nat, driver: UserId, was: Booking, row: Ride) {
    && Drives(d, id, driver) && was == d.bookings[id] && row == d.rides[was.ride]
    && was.status.Pending? && Bookable(row.status)
  }

  ghost predicate Owns(s: Sys, p: nat, q: Proc) {
    && (forall r :: r in RideLocks(q) ==> r in s.rideLock && s.rideLock[r] == p)
    && (forall b :: b in BookingLocks(q) ==> b in s.bookingLock && s.bookingLock[b] == p)
  }

  ghost predicate Inv(s: Sys) {
    && Wf(s.db)
    && (forall p :: p in s.procs ==> Owns(s, p, s.procs[p]) && Knows(s.db, s.procs[p]))
  }

  // ---- A commit is its transaction, run alone at that moment ---------------

  lemma CommitIsAtomic(d: Db, q: Proc, t: Txn)
    requires Wf(d) && Knows(d, q) && Commits(d, q, t)
    ensures Apply(d, t).Ok? && Visible(d, q, t) == Exec(d, t)
  {
  }

  // ---- Locks protect what a process knows ----------------------------------

  /** Bookings of the ride neither appear nor become open or occupying again. */
  ghost predicate Calm(bs: seq<Booking>, out: seq<Booking>, ride: nat) {
    && Lighter(bs, out, ride)
    && (forall i :: 0 <= i < |bs| && bs[i].ride == ride && Open(out[i].status) ==> Open(bs[i].status))
    && (forall i :: |bs| <= i < |out| ==> out[i].ride != ride)
  }

  ghost predicate Disturbs(d: Db, t: Txn, ride: nat) {
    || (t.Create? && t.req.ride == ride)
    || (t.Confirm? && t.id < |d.bookings| && d.bookings[t.id].ride == ride)
  }

  lemma OthersAreCalm(d: Db, t: Txn, ride: nat)
    requires !Disturbs(d, t, ride)
    ensures Calm(d.bookings, Exec(d, t).bookings, ride)
  {
    OnlyConfirmOccupies(d, t, ride);
    forall i | 0 <= i < |d.bookings|
      ensures Open(Exec(d, t).bookings[i].status) ==> Open(d.bookings[i].status)
    {
      BookingMoves(d, t, i);
    }
    forall i | |d.bookings| <= i < |Exec(d, t).bookings|
      ensures Exec(d, t).bookings[i].ride != ride
    {
      BookingAppears(d, t, i);
    }
  }

  lemma CalmFits(bs: seq<Booking>, out: seq<Booking>, ride: nat, p: real, q: real, seats: int, total: nat)
    requires Calm(bs, out, ride) && Fits(bs, ride, p, q, seats, total)
    ensures Fits(out, ride, p, q, seats, total)
  {
    LighterOccupied(bs, out, ride, p, q);
  }

  lemma CalmUnique(bs: seq<Booking>, out: seq<Booking>, ride: nat, rider: UserId)
    requires Calm(bs, out, ride) && !HasOpen(bs, ride, rider)
    ensures !HasOpen(out, ride, rider)
  {
  }

  /** The rows a process has locked are untouched, and its rides are left calm. */
  ghost predicate Respects(d: Db, t: Txn, q: Proc) {
    && (forall r :: r in RideLocks(q) && r < |d.rides| ==> Exec(d, t).rides[r] == d.rides[r] && !Disturbs(d, t, r))
    && (forall b :: b in BookingLocks(q) && b < |d.bookings| ==> Exec(d, t).bookings[b] == d.bookings[b])
  }

  /** What another's commit leaves a process: no row lost, its locked rows as they were, its locked rides calm. */
  ghost predicate Keeps(d: Db, d': Db, q: Proc) {
    && |d.rides| <= |d'.rides| && |d.bookings| <= |d'.bookings|
    && (forall r :: 0 <= r < |d.rides| ==> d'.rides[r].driver == d.rides[r].driver)
    && (forall b :: 0 <= b < |d.bookings| ==> d'.bookings[b].(status := d.bookings[b].status) == d.bookings[b])
    && (forall r :: r in RideLocks(q) && r < |d.rides| ==> d'.rides[r] == d.rides[r] && Calm(d.bookings, d'.bookings, r))
    && (forall b :: b in BookingLocks(q) && b < |d.bookings| ==> d'.bookings[b] == d.bookings[b])
  }

  lemma KeptKnowledge(d: Db, d': Db, q: Proc)
    requires Knows(d, q) && Keeps(d, d', q)
    ensures Knows(d', q)
  {
    var bs, out := d.bookings, d'.bookings;
    match q
    case CreateUnique(_, rider, req, _) =>
      CalmUnique(bs, out, req.ride, rider);
    case CreateChecked(_, rider, req, row) =>
      CalmUnique(bs, out, req.ride, rider);
      CalmFits(bs, out, req.ride, SnapPickup(req.pickupAt), SnapDropoff(req.dropoffAt), req.seats, row.total);
    case ConfirmChecked(_, _, was, row) =>
      CalmFits(bs, out, was.ride, was.pickup, was.dropoff, was.seats, row.total);
    case _ =>
  }

  lemma KnowledgeSurvives(d: Db, t: Txn, q: Proc)
    requires Knows(d, q) && Respects(d, t, q)
    ensures Knows(Exec(d, t), q)
  {
    ExecKeepsRows(d, t);
    forall r | r in RideLocks(q) && r < |d.rides|
      ensures Calm(d.bookings, Exec(d, t).bookings, r)
    {
      OthersAreCalm(d, t, r);
    }
    KeptKnowledge(d, Exec(d, t), q);
  }

  // ---- Every step keeps the invariant --------------------------------------

  lemma ReadTeaches(d: Db, from: Proc, to: Proc)
    requires Wf(d) && Knows(d, from) && Reads(d, from, to)
    ensures Knows(d, to)
    ensures RideLocks(from) <= RideLocks(to) && BookingLocks(from) <= BookingLocks(to)
  {
  }

  /** Taking free locks leaves every other process's locks alone. */
  lemma OthersKeepLocks(s: Sys, p: nat, q: Proc, o: nat, other: Proc)
    requires CanHold(s, p, q) && Owns(s, o, other) && o != p
    ensures Owns(Sys(s.db, s.procs[p := q], Owned(s.rideLock, RideLocks(q), p), Owned(s.bookingLock, BookingLocks(q), p)), o, other)
  {
  }

  lemma StepKeepsInv(s: Sys, p: nat, q: Proc)
    requires Inv(s) && Enabled(s, Step(p, q))
    ensures Inv(Next(s, Step(p, q)))
  {
    assert Knows(s.db, s.procs[p]);
    ReadTeaches(s.db, s.procs[p], q);
    var s' := Next(s, Step(p, q));
    forall o | o in s'.procs
      ensures Owns(s', o, s'.procs[o]) && Knows(s'.db, s'.procs[o])
    {
      if o != p {
        OthersKeepLocks(s, p, q, o, s.procs[o]);
      }
    }
  }

  lemma SpawnKeepsInv(s: Sys, p: nat, q: Proc)
    requires Inv(s) && Enabled(s, Spawn(p, q))
    ensures Inv(Next(s, Spawn(p, q)))
  {
  }

  lemma EndKeepsInv(s: Sys, p: nat)
    requires Inv(s)
    ensures Inv(Ended(s, p))
  {
  }

  lemma DisturberHoldsLock(d: Db, q: Proc, t: Txn, ride: nat)
    requires Knows(d, q) && Commits(d, q, t) && Disturbs(d, t, ride)
    ensures ride in RideLocks(q)
  {
  }

  /** A committing process respects every other: the rows it disturbs are locked by itself or by no one. */
  lemma CommitRespects(s: Sys, p: nat, t: Txn, o: nat)
    requires Inv(s) && p in s.procs && o in s.procs && o != p
    requires Commits(s.db, s.procs[p], t) && MayWrite(s, Some(p), Visible(s.db, s.procs[p], t))
    ensures Respects(s.db, t, s.procs[o])
  {
    CommitIsAtomic(s.db, s.procs[p], t);
    assert Owns(s, o, s.procs[o]) && Owns(s, p, s.procs[p]) && Knows(s.db, s.procs[p]);
    ExecKeepsRows(s.db, t);
    forall r | r in RideLocks(s.procs[o])
      ensures !Disturbs(s.db, t, r)
    {
      if Disturbs(s.db, t, r) {
        DisturberHoldsLock(s.db, s.procs[p], t, r);
        assert false;
      }
    }
  }

  lemma DirectRespects(s: Sys, t: Txn, o: nat)
    requires Inv(s) && o in s.procs && Enabled(s, Direct(t))
    ensures Respects(s.db, t, s.procs[o])
  {
    assert Owns(s, o, s.procs[o]);
    ExecKeepsRows(s.db, t);
  }

  lemma OthersSurviveCommit(s: Sys, p: nat, t: Txn, o: nat)
    requires Inv(s) && p in s.procs && o in s.procs && o != p
    requires Commits(s.db, s.procs[p], t) && MayWrite(s, Some(p), Visible(s.db, s.procs[p], t))
    ensures Knows(Exec(s.db, t), s.procs[o])
  {
    CommitRespects(s, p, t, o);
    ExecKeepsRows(s.db, t);
    KnowledgeSurvives(s.db, t, s.procs[o]);
  }

  lemma CommitKeepsInv(s: Sys, p: nat, t: Txn, next: Option<Proc>)
    requires Inv(s) && Enabled(s, Commit(p, t, next))
    ensures Inv(Next(s, Commit(p, t, next)))
    ensures Next(s, Commit(p, t, next)).db == Exec(s.db, t)
  {
    CommitIsAtomic(s.db, s.procs[p], t);
    ExecWf(s.db, t);
    if next.Some? {
      FollowupHoldsNothing(s.db, s.procs[p], next);
    }
    var s' := Next(s, Commit(p, t, next));
    forall o | o in s'.procs
      ensures Owns(s', o, s'.procs[o]) && Knows(s'.db, s'.procs[o])
    {
      if o != p {
        OthersSurviveCommit(s, p, t, o);
        assert Owns(s, o, s.procs[o]);
      }
    }
  }

  lemma FollowupHoldsNothing(d: Db, from: Proc, next: Option<Proc>)
    requires Follows(d, from, next) && next.Some?
    ensures RideLocks(next.value) == {} && BookingLocks(next.value) == {}
    ensures forall d': Db :: Knows(d', next.value)
  {
  }

  lemma DirectKeepsInv(s: Sys, t: Txn)
    requires Inv(s) && Enabled(s, Direct(t))
    ensures Inv(Next(s, Direct(t)))
  {
    ExecWf(s.db, t);
    ExecKeepsRows(s.db, t);
    var s' := Next(s, Direct(t));
    forall o | o in s'.procs
      ensures Owns(s', o, s'.procs[o]) && Knows(s'.db, s'.procs[o])
    {
      assert Owns(s, o, s.procs[o]);
      DirectRespects(s, t, o);
      KnowledgeSurvives(s.db, t, s.procs[o]);
    }
  }

  lemma NextKeepsInv(s: Sys, a: Action)
    requires Inv(s) && Enabled(s, a)
    ensures Inv(Next(s, a))
    ensures Next(s, a).db == if a.Commit? || a.Direct? then Exec(s.db, a.t) else s.db
  {
    match a
    case Spawn(p, q) => SpawnKeepsInv(s, p, q);
    case Step(p, q) => StepKeepsInv(s, p, q);
    case Abort(p) => EndKeepsInv(s, p);
    case Commit(p, t, next) => CommitKeepsInv(s, p, t, next);
    case Direct(t) => DirectKeepsInv(s, t);
  }

  /**
   Serializability: after any schedule the committed tables are exactly those of running the
   committed transactions alone, one after the other, in commit order.
   */
  lemma {:induction false} EveryScheduleIsSerial(acts: seq<Action>)
    ensures Inv(Play(acts))
    ensures Play(acts).db == Run(EMPTY, Committed(acts))
  {
    if acts != [] {
      var before, a := acts[..|acts| - 1], acts[|acts| - 1];
      EveryScheduleIsSerial(before);
      if Enabled(Play(before), a) {
        NextKeepsInv(Play(before), a);
        if a.Commit? || a.Direct? {
          RunSnoc(EMPTY, Committed(before), a.t);
        } else {
          assert Committed(before) + [] == Committed(before);
        }
      } else {
        assert Committed(before) + [] == Committed(before);
      }
    }
  }
}
