/**
 Cancelled rides when the endpoints interleave. A start tests no status when it writes, so one
 that passed its guard earlier can revive a cancelled ride; nothing else but the manual endpoint
 can. While a ride is cancelled nobody is on board, and its cascade leaves no booking open.
 */
module Cancellation {
  import opened Options
  import opened Model
  import opened Transactions
  import opened Effects
  import opened Interleaving

  // ---- A ride that has departed is never cancelled again -------------------

  predicate Departed(s: RideStatus) {
    s.Active? || s.Completed?
  }

  predicate IsDeparted(d: Db, r: nat) {
    r < |d.rides| && Departed(d.rides[r].status)
  }

  predicate IsCancelled(d: Db, r: nat) {
    r < |d.rides| && d.rides[r].status.Cancelled?
  }

  lemma DepartedForever(d: Db, t: Txn, r: nat)
    requires IsDeparted(d, r)
    ensures IsDeparted(Exec(d, t), r)
  {
    ExecKeepsRows(d, t);
    RideEdges(d, t, r);
  }

  /** While a ride is cancelled its open bookings only get fewer. */
  lemma CancelledShrinks(d: Db, t: Txn, r: nat)
    requires IsCancelled(d, r)
    ensures OpenOn(Exec(d, t).bookings, r) <= OpenOn(d.bookings, r)
  {
    forall i | i in OpenOn(Exec(d, t).bookings, r)
      ensures i in OpenOn(d.bookings, r)
    {
      if i < |d.bookings| {
        BookingMoves(d, t, i);
      } else {
        BookingAppears(d, t, i);
      }
    }
  }

  // ---- What processes that run late still remember correctly ---------------

  /** A pick-up and a completion saw their ride active; a cascade follows a cancellation and saw every open booking. */
  ghost predicate Recalls(d: Db, q: Proc) {
    match q
    case PickUpSeen(id, _, _) => id < |d.bookings| && IsDeparted(d, d.bookings[id].ride)
    case CompletionSeen(ride) => IsDeparted(d, ride)
    case CascadeDue(ride) => IsCancelled(d, ride) || IsDeparted(d, ride)
    case CascadeSeen(ride, rows) =>
      IsDeparted(d, ride) || (IsCancelled(d, ride) && OpenOn(d.bookings, ride) <= rows)
    case _ => true
  }

  /** Riders are on board only of rides that have departed. */
  ghost predicate AllOnboard(d: Db) {
    forall i :: 0 <= i < |d.bookings| && d.bookings[i].status.PickedUp? ==> IsDeparted(d, d.bookings[i].ride)
  }

  ghost predicate Recalled(s: Sys) {
    AllOnboard(s.db) && forall p :: p in s.procs ==> Recalls(s.db, s.procs[p])
  }

  /** What a commit of t needs for the invariant: a pick-up or a completion of a departed ride, unlike a cancelled one. */
  ghost predicate Founded(d: Db, t: Txn) {
    && (t.PickUp? ==> t.id < |d.bookings| && IsDeparted(d, d.bookings[t.id].ride))
    && (t.Complete? ==> IsDeparted(d, t.ride))
  }

  /** A cancelled ride leaves that status by a start or the manual endpoint, and then it has departed. */
  predicate Revives(t: Txn, r: nat) {
    (t.Start? || t.ManualStatus?) && t.ride == r
  }

  lemma CancelledUnlessRevived(d: Db, t: Txn, r: nat)
    requires IsCancelled(d, r) && Founded(d, t) && Apply(d, t).Ok?
    ensures if Revives(t, r) then IsDeparted(Exec(d, t), r) else IsCancelled(Exec(d, t), r)
  {
    ExecKeepsRows(d, t);
    RideEdges(d, t, r);
  }

  lemma OnboardSurvives(d: Db, t: Txn)
    requires AllOnboard(d) && Founded(d, t)
    ensures AllOnboard(Exec(d, t))
  {
    var d' := Exec(d, t);
    forall i | 0 <= i < |d'.bookings| && d'.bookings[i].status.PickedUp?
      ensures IsDeparted(d', d'.bookings[i].ride)
    {
      if i < |d.bookings| {
        BookingEdges(d, t, i);
        BookingMoves(d, t, i);
        DepartedForever(d, t, d.bookings[i].ride);
      } else {
        BookingAppears(d, t, i);
      }
    }
  }

  lemma RecallSurvives(d: Db, t: Txn, q: Proc)
    requires Recalls(d, q) && Founded(d, t) && Apply(d, t).Ok?
    ensures Recalls(Exec(d, t), q)
  {
    match q
    case PickUpSeen(id, _, _) =>
      ExecKeepsRows(d, t);
      DepartedForever(d, t, d.bookings[id].ride);
    case CompletionSeen(ride) => DepartedForever(d, t, ride);
    case CascadeDue(ride) => LateCascade(d, t, ride);
    case CascadeSeen(ride, _) => LateCascade(d, t, ride);
    case _ =>
  }

  lemma LateCascade(d: Db, t: Txn, ride: nat)
    requires (IsCancelled(d, ride) || IsDeparted(d, ride)) && Founded(d, t) && Apply(d, t).Ok?
    ensures IsDeparted(Exec(d, t), ride) || (IsCancelled(d, ride) && IsCancelled(Exec(d, t), ride))
    ensures IsCancelled(d, ride) ==> OpenOn(Exec(d, t).bookings, ride) <= OpenOn(d.bookings, ride)
  {
    if IsDeparted(d, ride) {
      DepartedForever(d, t, ride);
    } else {
      CancelledUnlessRevived(d, t, ride);
      CancelledShrinks(d, t, ride);
    }
  }

  // ---- Every step keeps it -------------------------------------------------

  /** A read of an active ride, or of a cancelled ride's bookings, is remembered correctly. */
  lemma ReadIsRecalled(d: Db, from: Proc, to: Proc)
    requires AllOnboard(d) && Recalls(d, from) && Reads(d, from, to)
    ensures Recalls(d, to)
  {
    if to.CascadeSeen? {
      forall i | i in OpenOn(d.bookings, to.ride) && IsCancelled(d, to.ride)
        ensures i in to.rows
      {
        assert !d.bookings[i].status.PickedUp?;
      }
    }
  }

  lemma CommitIsFounded(d: Db, q: Proc, t: Txn)
    requires Recalls(d, q) && Commits(d, q, t)
    ensures Founded(d, t)
  {
  }

  lemma FollowupRecalls(d: Db, q: Proc, t: Txn, next: Option<Proc>)
    requires Wf(d) && Knows(d, q) && Commits(d, q, t) && Follows(d, q, next) && next.Some?
    ensures Recalls(Exec(d, t), next.value)
  {
    CommitIsAtomic(d, q, t);
  }

  lemma CommitKeepsRecalled(s: Sys, p: nat, t: Txn, next: Option<Proc>)
    requires Inv(s) && Recalled(s) && Enabled(s, Commit(p, t, next))
    ensures Recalled(Next(s, Commit(p, t, next)))
  {
    var s', q := Next(s, Commit(p, t, next)), s.procs[p];
    CommitKeepsInv(s, p, t, next);
    CommitIsAtomic(s.db, q, t);
    CommitIsFounded(s.db, q, t);
    OnboardSurvives(s.db, t);
    forall o | o in s'.procs
      ensures Recalls(s'.db, s'.procs[o])
    {
      if o == p {
        FollowupRecalls(s.db, q, t, next);
      } else {
        RecallSurvives(s.db, t, s.procs[o]);
      }
    }
  }

  lemma NextKeepsRecalled(s: Sys, a: Action)
    requires Inv(s) && Recalled(s) && Enabled(s, a)
    ensures Recalled(Next(s, a))
  {
    match a
    case Spawn(p, q) =>
    case Step(p, q) => ReadIsRecalled(s.db, s.procs[p], q);
    case Abort(p) =>
    case Commit(p, t, next) => CommitKeepsRecalled(s, p, t, next);
    case Direct(t) =>
      OnboardSurvives(s.db, t);
      forall o | o in s.procs
        ensures Recalls(Exec(s.db, t), s.procs[o])
      {
        RecallSurvives(s.db, t, s.procs[o]);
      }
  }

  lemma {:induction false} EveryStateIsRecalled(acts: seq<Action>)
    ensures Inv(Play(acts)) && Recalled(Play(acts))
  {
    EveryScheduleIsSerial(acts);
    if acts != [] {
      var s, a := Play(acts[..|acts| - 1]), acts[|acts| - 1];
      EveryStateIsRecalled(acts[..|acts| - 1]);
      if Enabled(s, a) {
        NextKeepsRecalled(s, a);
      }
    }
  }

  /** In every reachable state riders are on board only of active or completed rides. */
  lemma NobodyRidesACancelledRide(acts: seq<Action>, i: nat)
    requires i < |Play(acts).db.bookings| && Play(acts).db.bookings[i].status.PickedUp?
    ensures IsDeparted(Play(acts).db, Play(acts).db.bookings[i].ride)
  {
    EveryStateIsRecalled(acts);
  }

  // ---- Continuations -------------------------------------------------------

  lemma PlaySnoc(acts: seq<Action>, more: seq<Action>)
    requires more != []
    ensures var s, a := Play(acts + more[..|more| - 1]), more[|more| - 1];
            && Play(acts + more) == (if Enabled(s, a) then Next(s, a) else s)
            && Committed(acts + more) == Committed(acts + more[..|more| - 1])
                                         + if Enabled(s, a) && (a.Commit? || a.Direct?) then [a.t] else []
  {
    var before, a := acts + more[..|more| - 1], more[|more| - 1];
    PlayLast(before, a);
    assert acts + more == before + [a];
  }

  /** A transaction that revives r commits in the continuation. */
  ghost predicate Revived(acts: seq<Action>, more: seq<Action>, r: nat) {
    exists k :: |Committed(acts)| <= k < |Committed(acts + more)| && Revives(Committed(acts + more)[k], r)
  }

  lemma {:induction false} LogGrows(acts: seq<Action>, more: seq<Action>)
    ensures |Committed(acts)| <= |Committed(acts + more)|
  {
    if more == [] {
      assert acts + more == acts;
    } else {
      LogGrows(acts, more[..|more| - 1]);
      PlaySnoc(acts, more);
    }
  }

  lemma RevivedSnoc(acts: seq<Action>, more: seq<Action>, r: nat)
    requires more != []
    ensures var s, a := Play(acts + more[..|more| - 1]), more[|more| - 1];
            Revived(acts, more, r) <==>
            || Revived(acts, more[..|more| - 1], r)
            || (Enabled(s, a) && (a.Commit? || a.Direct?) && Revives(a.t, r))
  {
    PlaySnoc(acts, more);
    LogGrows(acts, more[..|more| - 1]);
    var before, all := Committed(acts + more[..|more| - 1]), Committed(acts + more);
    assert forall k :: 0 <= k < |before| ==> all[k] == before[k];
    if |all| > |before| && Revives(all[|before|], r) {
      assert Revived(acts, more, r);
    }
  }

  /** The last step: a cancelled ride stays so unless a reviving transaction commits; a departed one stays departed. */
  lemma OneStep(s: Sys, a: Action, r: nat)
    requires Inv(s) && Recalled(s) && Enabled(s, a)
    ensures IsDeparted(s.db, r) ==> IsDeparted(Next(s, a).db, r)
    ensures IsCancelled(s.db, r) ==>
              if (a.Commit? || a.Direct?) && Revives(a.t, r) then IsDeparted(Next(s, a).db, r)
              else IsCancelled(Next(s, a).db, r)
    ensures IsCancelled(s.db, r) ==> OpenOn(Next(s, a).db.bookings, r) <= OpenOn(s.db.bookings, r)
  {
    NextKeepsInv(s, a);
    if a.Commit? || a.Direct? {
      if a.Commit? {
        CommitIsFounded(s.db, s.procs[a.p], a.t);
        CommitIsAtomic(s.db, s.procs[a.p], a.t);
      }
      if IsDeparted(s.db, r) {
        DepartedForever(s.db, a.t, r);
      } else if IsCancelled(s.db, r) {
        CancelledUnlessRevived(s.db, a.t, r);
        CancelledShrinks(s.db, a.t, r);
      }
    }
  }

  /**
   From any reachable state in which a ride is cancelled, whatever follows: it is still cancelled
   exactly when no start of it and no manual status on it has committed since; and as long as it
   is, its open bookings only get fewer and none is picked up.
   */
  lemma {:induction false} CancelledUnderInterleaving(acts: seq<Action>, more: seq<Action>, r: nat)
    requires IsCancelled(Play(acts).db, r)
    ensures var d, d' := Play(acts).db, Play(acts + more).db;
            && (if Revived(acts, more, r) then IsDeparted(d', r) else IsCancelled(d', r))
            && (!Revived(acts, more, r) ==>
                  && OpenOn(d'.bookings, r) <= OpenOn(d.bookings, r)
                  && forall i :: i in OpenOn(d'.bookings, r) ==> !d'.bookings[i].status.PickedUp?)
  {
    EveryStateIsRecalled(acts + more);
    if more == [] {
      assert acts + more == acts;
    } else {
      var before, a := more[..|more| - 1], more[|more| - 1];
      CancelledUnderInterleaving(acts, before, r);
      PlaySnoc(acts, more);
      RevivedSnoc(acts, more, r);
      EveryStateIsRecalled(acts + before);
      if Enabled(Play(acts + before), a) {
        OneStep(Play(acts + before), a, r);
      }
    }
  }

  // ---- The cascade ---------------------------------------------------------

  /** The last action is the commit of the cascade of ride r. */
  ghost predicate CascadeCommits(acts: seq<Action>, r: nat) {
    && acts != []
    && var s, a := Play(acts[..|acts| - 1]), acts[|acts| - 1];
       Enabled(s, a) && a.Commit? && s.procs[a.p].CascadeSeen? && s.procs[a.p].ride == r
  }

  /** A cascade that commits while its ride is cancelled leaves none of its bookings open. */
  lemma CascadeClosesAll(d: Db, r: nat, rows: set<nat>, i: nat)
    requires AllOnboard(d) && IsCancelled(d, r) && OpenOn(d.bookings, r) <= rows
    requires i < |d.bookings| && d.bookings[i].ride == r
    ensures !Open(CancelRows(d.bookings, r, rows, false)[i].status)
  {
    if Open(d.bookings[i].status) {
      assert i in OpenOn(d.bookings, r);
    }
  }

  lemma CascadeSweeps(acts: seq<Action>, r: nat)
    requires CascadeCommits(acts, r)
    ensures IsDeparted(Play(acts).db, r) || (IsCancelled(Play(acts).db, r) && OpenOn(Play(acts).db.bookings, r) == {})
  {
    var s, a := Play(acts[..|acts| - 1]), acts[|acts| - 1];
    EveryStateIsRecalled(acts[..|acts| - 1]);
    assert Recalls(s.db, s.procs[a.p]);
    OneStep(s, a, r);
    if IsCancelled(s.db, r) {
      forall i | 0 <= i < |s.db.bookings| && s.db.bookings[i].ride == r
        ensures !Open(Next(s, a).db.bookings[i].status)
      {
        CascadeClosesAll(s.db, r, s.procs[a.p].rows, i);
      }
    }
  }

  /**
   Once the cascade has committed, in every later state the ride either has no open booking or was
   revived: it is then active or completed, and a start of it or a manual status on it committed
   before or after the cascade.
   */
  lemma SweptUnderInterleaving(acts: seq<Action>, more: seq<Action>, r: nat)
    requires CascadeCommits(acts, r)
    ensures var d := Play(acts + more).db;
            IsDeparted(d, r) || (IsCancelled(d, r) && OpenOn(d.bookings, r) == {})
  {
    CascadeSweeps(acts, r);
    if IsCancelled(Play(acts).db, r) {
      CancelledUnderInterleaving(acts, more, r);
    } else {
      DepartedUnderInterleaving(acts, more, r);
    }
  }

  lemma {:induction false} DepartedUnderInterleaving(acts: seq<Action>, more: seq<Action>, r: nat)
    requires IsDeparted(Play(acts).db, r)
    ensures IsDeparted(Play(acts + more).db, r)
  {
    if more == [] {
      assert acts + more == acts;
    } else {
      var before, a := more[..|more| - 1], more[|more| - 1];
      DepartedUnderInterleaving(acts, before, r);
      PlaySnoc(acts, more);
      EveryStateIsRecalled(acts + before);
      if Enabled(Play(acts + before), a) {
        OneStep(Play(acts + before), a, r);
      }
    }
  }
}
