/**
 Completed rides when the endpoints interleave. Completion counts the open bookings, then reads the
 status, then writes, and locks nothing in between: a creation that commits after the count can
 leave a completed ride with an open booking, and nothing else but the manual endpoint can.
 */
module Completion {
  import opened Model
  import opened Transactions
  import opened Effects
  import opened Interleaving
  import opened Cancellation

  /** The process has counted the ride's open bookings and has not written yet. */
  predicate Counts(q: Proc, ride: nat) {
    q == CompletionCounted(ride) || q == CompletionSeen(ride)
  }

  /** How many actions the schedule had taken when the process last counted. */
  ghost function CountedAt(acts: seq<Action>, p: nat): nat {
    if acts == [] then 0
    else
      var before, a := acts[..|acts| - 1], acts[|acts| - 1];
      if a.Step? && a.p == p && a.q.CompletionCounted? && Enabled(Play(before), a) then |acts|
      else CountedAt(before, p)
  }

  /** How many bookings there were at that moment. */
  ghost function CountedBookings(acts: seq<Action>, p: nat): nat
  {
    |Play(acts[..Min(CountedAt(acts, p), |acts|)]).db.bookings|
  }

  function Min(a: nat, b: nat): nat {
    if a < b then a else b
  }

  lemma {:induction false} CountedInThePast(acts: seq<Action>, p: nat)
    ensures CountedAt(acts, p) <= |acts|
  {
    if acts != [] {
      CountedInThePast(acts[..|acts| - 1], p);
    }
  }

  lemma CountedBookingsStay(before: seq<Action>, a: Action, p: nat)
    ensures var acts := before + [a];
            if a.Step? && a.p == p && a.q.CompletionCounted? && Enabled(Play(before), a)
            then CountedAt(acts, p) == |acts| && CountedBookings(acts, p) == |Play(acts).db.bookings|
            else CountedAt(acts, p) == CountedAt(before, p) && CountedBookings(acts, p) == CountedBookings(before, p)
  {
    var acts := before + [a];
    assert acts[..|acts| - 1] == before;
    CountedInThePast(before, p);
    var k := CountedAt(before, p);
    assert acts[..k] == before[..k];
    assert acts[..|acts|] == acts;
  }

  // ---- What is open was made since the count -------------------------------

  /** Every booking that is open on the ride has been made since the first n were. */
  ghost predicate OpenOnlySince(d: Db, ride: nat, n: nat) {
    n <= |d.bookings| && forall i :: i in OpenOn(d.bookings, ride) ==> i >= n
  }

  lemma OpenSinceSurvives(d: Db, t: Txn, ride: nat, n: nat)
    requires OpenOnlySince(d, ride, n)
    ensures OpenOnlySince(Exec(d, t), ride, n)
  {
    ExecKeepsRows(d, t);
    forall i | i in OpenOn(Exec(d, t).bookings, ride)
      ensures i >= n
    {
      if i < |d.bookings| {
        BookingMoves(d, t, i);
        assert i in OpenOn(d.bookings, ride);
      }
    }
  }

  lemma NextCounts(s: Sys, a: Action, p: nat, ride: nat)
    requires Enabled(s, a) && p in Next(s, a).procs && Counts(Next(s, a).procs[p], ride)
    ensures if a.Step? && a.p == p && a.q.CompletionCounted? then OpenOn(s.db.bookings, ride) == {} && Next(s, a).db == s.db
            else p in s.procs && Counts(s.procs[p], ride)
  {
  }

  /** While a process is between its count and its write, every open booking on the ride was made since the count. */
  lemma {:induction false} OpenSinceCount(acts: seq<Action>, p: nat, ride: nat)
    requires p in Play(acts).procs && Counts(Play(acts).procs[p], ride)
    ensures OpenOnlySince(Play(acts).db, ride, CountedBookings(acts, p))
  {
    if acts != [] {
      var before, a := acts[..|acts| - 1], acts[|acts| - 1];
      EveryScheduleIsSerial(before);
      assert acts == before + [a];
      CountedBookingsStay(before, a, p);
      if Enabled(Play(before), a) {
        NextCounts(Play(before), a, p, ride);
        if !(a.Step? && a.p == p && a.q.CompletionCounted?) {
          OpenSinceCount(before, p, ride);
          CountSurvives(Play(before), a, ride, CountedBookings(before, p));
        }
      } else {
        OpenSinceCount(before, p, ride);
      }
    }
  }

  lemma CountSurvives(s: Sys, a: Action, ride: nat, n: nat)
    requires Inv(s) && Enabled(s, a) && OpenOnlySince(s.db, ride, n)
    ensures OpenOnlySince(Next(s, a).db, ride, n)
  {
    NextKeepsInv(s, a);
    if a.Commit? || a.Direct? {
      OpenSinceSurvives(s.db, a.t, ride, n);
    }
  }

  /** Every booking made on the ride since the first n were is closed again. */
  ghost predicate AllClosedSince(d: Db, ride: nat, n: nat) {
    forall i :: n <= i < |d.bookings| && d.bookings[i].ride == ride ==> !Open(d.bookings[i].status)
  }

  /** A completion that can commit leaves no booking open exactly when every booking made since its count is closed again. */
  lemma CompletionIsCleanIff(acts: seq<Action>, p: nat, ride: nat)
    requires p in Play(acts).procs && Play(acts).procs[p] == CompletionSeen(ride)
    ensures OpenOn(Play(acts).db.bookings, ride) == {} <==>
            AllClosedSince(Play(acts).db, ride, CountedBookings(acts, p))
  {
    OpenSinceCount(acts, p, ride);
    var bs := Play(acts).db.bookings;
    if OpenOn(bs, ride) == {} {
      forall i | CountedBookings(acts, p) <= i < |bs| && bs[i].ride == ride
        ensures !Open(bs[i].status)
      {
        assert i !in OpenOn(bs, ride);
      }
    }
  }

  // ---- Over whole schedules ------------------------------------------------

  predicate IsCompleted(d: Db, r: nat) {
    r < |d.rides| && d.rides[r].status.Completed?
  }

  ghost predicate CompletedAreClosed(d: Db) {
    forall r :: IsCompleted(d, r) ==> OpenOn(d.bookings, r) == {}
  }

  /**
   The action after this schedule completes no ride too early: a completion finds every booking
   made since its count closed again, and a completion by hand finds none open.
   */
  ghost predicate CompletesInTime(acts: seq<Action>, a: Action) {
    Enabled(Play(acts), a) ==>
      && (a.Commit? && a.t.Complete? ==> AllClosedSince(Play(acts).db, a.t.ride, CountedBookings(acts, a.p)))
      && (a.Direct? && a.t.ManualStatus? && a.t.status.Completed? ==> OpenOn(Play(acts).db.bookings, a.t.ride) == {})
  }

  /** What a transaction must not do: complete a ride with an open booking. */
  ghost predicate Closes(d: Db, t: Txn) {
    t.Complete? || (t.ManualStatus? && t.status.Completed?) ==> OpenOn(d.bookings, t.ride) == {}
  }

  /** A transaction keeps completed rides closed exactly when it completes none with an open booking. */
  lemma StaysClosedIff(d: Db, t: Txn)
    requires Wf(d) && CompletedAreClosed(d) && Apply(d, t).Ok?
    requires t.Complete? ==> t.ride < |d.rides| && t.noneOpen && t.seen.Active?
    ensures CompletedAreClosed(Exec(d, t)) <==> Closes(d, t)
  {
    var d' := Exec(d, t);
    if Closes(d, t) {
      forall r, i | IsCompleted(d', r) && i in OpenOn(d'.bookings, r)
        ensures false
      {
        NoneComesOpen(d, t, r, i);
      }
    } else {
      assert IsCompleted(d', t.ride) && d'.bookings == d.bookings;
    }
  }

  lemma NoneComesOpen(d: Db, t: Txn, r: nat, i: nat)
    requires Wf(d) && CompletedAreClosed(d) && Closes(d, t) && IsCompleted(Exec(d, t), r)
    ensures i !in OpenOn(Exec(d, t).bookings, r)
  {
    ExecKeepsRows(d, t);
    if r < |d.rides| {
      RideEdges(d, t, r);
      if i < |d.bookings| {
        BookingMoves(d, t, i);
        assert i !in OpenOn(d.bookings, r);
      } else if i < |Exec(d, t).bookings| {
        BookingAppears(d, t, i);
      }
    } else {
      RideAppears(d, t, r);
    }
  }

  /** One more action keeps completed rides closed exactly when it completes none too early. */
  lemma OneActionIff(acts: seq<Action>, a: Action)
    requires CompletedAreClosed(Play(acts).db) && Enabled(Play(acts), a)
    ensures CompletedAreClosed(Next(Play(acts), a).db) <==> CompletesInTime(acts, a)
  {
    var s := Play(acts);
    EveryScheduleIsSerial(acts);
    NextKeepsInv(s, a);
    if a.Commit? {
      CommitIsAtomic(s.db, s.procs[a.p], a.t);
      if a.t.Complete? {
        CompletionIsCleanIff(acts, a.p, a.t.ride);
      }
    }
    if a.Commit? || a.Direct? {
      StaysClosedIff(s.db, a.t);
    }
  }

  /** In every state that the schedule goes through, completed rides have no open booking. */
  ghost predicate AlwaysClosed(acts: seq<Action>) {
    CompletedAreClosed(Play(acts).db) && (acts != [] ==> AlwaysClosed(acts[..|acts| - 1]))
  }

  /** No action of the schedule completes a ride too early. */
  ghost predicate AllInTime(acts: seq<Action>) {
    acts != [] ==> CompletesInTime(acts[..|acts| - 1], acts[|acts| - 1]) && AllInTime(acts[..|acts| - 1])
  }

  lemma NextClosedIff(acts: seq<Action>)
    requires acts != [] && CompletedAreClosed(Play(acts[..|acts| - 1]).db)
    ensures CompletedAreClosed(Play(acts).db) <==> CompletesInTime(acts[..|acts| - 1], acts[|acts| - 1])
  {
    var before, a := acts[..|acts| - 1], acts[|acts| - 1];
    if Enabled(Play(before), a) {
      OneActionIff(before, a);
    }
  }

  /** Exactly when completed rides never have an open booking: when no action completes a ride too early. */
  lemma {:induction false} CompletedStayClosedIff(acts: seq<Action>)
    ensures AlwaysClosed(acts) <==> AllInTime(acts)
  {
    if acts != [] {
      CompletedStayClosedIff(acts[..|acts| - 1]);
      if AlwaysClosed(acts[..|acts| - 1]) {
        NextClosedIff(acts);
      }
    }
  }

  // ---- A condition on creations --------------------------------------------

  ghost predicate UnderCount(s: Sys, ride: nat) {
    exists p :: p in s.procs && Counts(s.procs[p], ride)
  }

  /** No creation commits on a ride under count, and nobody completes a ride with open bookings by hand. */
  ghost predicate Undisturbed(s: Sys, a: Action) {
    Enabled(s, a) ==>
      && (a.Commit? && a.t.Create? ==> !UnderCount(s, a.t.req.ride))
      && (a.Direct? && a.t.ManualStatus? && a.t.status.Completed? ==> OpenOn(s.db.bookings, a.t.ride) == {})
  }

  ghost predicate AllUndisturbed(acts: seq<Action>) {
    acts != [] ==> Undisturbed(Play(acts[..|acts| - 1]), acts[|acts| - 1]) && AllUndisturbed(acts[..|acts| - 1])
  }

  ghost predicate NoneSince(d: Db, ride: nat, n: nat) {
    forall i :: n <= i < |d.bookings| ==> d.bookings[i].ride != ride
  }

  /** Then no booking at all is made on a ride between a completion's count and its write. */
  lemma {:induction false} NoneMadeSinceCount(acts: seq<Action>, p: nat, ride: nat)
    requires AllUndisturbed(acts) && p in Play(acts).procs && Counts(Play(acts).procs[p], ride)
    ensures NoneSince(Play(acts).db, ride, CountedBookings(acts, p))
  {
    if acts != [] {
      var before, a := acts[..|acts| - 1], acts[|acts| - 1];
      assert acts == before + [a];
      CountedBookingsStay(before, a, p);
      if !Enabled(Play(before), a) {
        NoneMadeSinceCount(before, p, ride);
      } else {
        NextCounts(Play(before), a, p, ride);
        if !(a.Step? && a.p == p && a.q.CompletionCounted?) {
          NoneMadeSinceCount(before, p, ride);
          EveryScheduleIsSerial(before);
          NoneAppears(Play(before), a, p, ride, CountedBookings(before, p));
        }
      }
    }
  }

  lemma NoneAppears(s: Sys, a: Action, p: nat, ride: nat, n: nat)
    requires Inv(s) && Enabled(s, a) && Undisturbed(s, a) && p in s.procs && Counts(s.procs[p], ride)
    requires NoneSince(s.db, ride, n)
    ensures NoneSince(Next(s, a).db, ride, n)
  {
    NextKeepsInv(s, a);
    if a.Commit? || a.Direct? {
      var d' := Exec(s.db, a.t);
      ExecKeepsRows(s.db, a.t);
      forall i | |s.db.bookings| <= i < |d'.bookings|
        ensures d'.bookings[i].ride != ride
      {
        BookingAppears(s.db, a.t, i);
        assert UnderCount(s, ride);
      }
    }
  }

  lemma CompletionSaw(d: Db, q: Proc, t: Txn)
    requires Commits(d, q, t) && t.Complete?
    ensures Counts(q, t.ride)
  {
  }

  lemma UndisturbedIsInTime(before: seq<Action>, a: Action)
    requires AllUndisturbed(before) && Undisturbed(Play(before), a)
    ensures CompletesInTime(before, a)
  {
    if Enabled(Play(before), a) && a.Commit? && a.t.Complete? {
      CompletionSaw(Play(before).db, Play(before).procs[a.p], a.t);
      NoneMadeSinceCount(before, a.p, a.t.ride);
    }
  }

  /** Such a schedule completes no ride too early. */
  lemma {:induction false} UndisturbedAreInTime(acts: seq<Action>)
    requires AllUndisturbed(acts)
    ensures AllInTime(acts)
  {
    if acts != [] {
      UndisturbedAreInTime(acts[..|acts| - 1]);
      UndisturbedIsInTime(acts[..|acts| - 1], acts[|acts| - 1]);
    }
  }

  /**
   So in every schedule in which no creation commits on a ride between a completion's count and its
   write, and nobody completes a ride with open bookings by hand: completed rides have no open
   booking, and riders are on board only of active rides.
   */
  lemma CompletedMeansClosedUnderInterleaving(acts: seq<Action>, i: nat)
    requires AllUndisturbed(acts) && i < |Play(acts).db.bookings|
    ensures var d := Play(acts).db;
            var b := d.bookings[i];
            && b.ride < |d.rides|
            && (d.rides[b.ride].status.Completed? ==> !Open(b.status))
            && (b.status.PickedUp? ==> d.rides[b.ride].status.Active?)
  {
    var d := Play(acts).db;
    EveryScheduleIsSerial(acts);
    UndisturbedAreInTime(acts);
    CompletedStayClosedIff(acts);
    assert IsCompleted(d, d.bookings[i].ride) ==> i !in OpenOn(d.bookings, d.bookings[i].ride);
    if d.bookings[i].status.PickedUp? {
      NobodyRidesACancelledRide(acts, i);
    }
  }
}
