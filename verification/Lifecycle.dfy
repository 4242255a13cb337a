/**
 The life of rides and bookings over every history of uninterrupted endpoint calls, with the
 background cancellation of a cancelled ride's bookings as a step of its own.
 */
module Lifecycle {
  import opened Model
  import opened Transactions
  import opened Endpoints
  import opened Effects

  // ---- Histories are runs of transactions ----------------------------------

  /** The transactions an endpoint call commits. */
  function TxnsOf(d: Db, c: Call): seq<Txn> {
    if Serve(d, c).Fail? then []
    else
      match c
      case CallRideCreate(now, user, route, departure, total, price) =>
        [RideCreate(now, user, route, departure, total, price)]
      case CallRideUpdate(now, ride, user, departure, total, price) =>
        [RideUpdate(now, ride, user, departure, total, price)]
      case CallManualStatus(ride, user, status) => [ManualStatus(ride, user, status)]
      case CallRideCancel(_, ride, user) => [RideCancel(ride, user)]
      case CallStart(_, ride, _) => [Start(ride)]
      case CallCreate(now, user, req) =>
        if req.key != "" && FindKey(d.bookings, req.key).Some? then [] else [Create(now, user, req)]
      case CallConfirm(id, user) =>
        var d' := Exec(d, Confirm(id, user));
        if id < |d'.bookings| && StatusSeen(d', id).Full?
        then [Confirm(id, user),
              CancelSome(d'.bookings[id].ride, RowsOf(d'.bookings, d'.bookings[id].ride) - {id}, true)]
        else [Confirm(id, user)]
      case CallCancel(now, id, user) => [Cancel(id, user, RoleOf(d, id, user), now)]
      case CallReady(_, id, user, _) => [Ready(id, user)]
      case CallPickUp(id, user, _) => [PickUp(id, user, StatusSeen(d, id))]
      case CallDrop(id, user) => ThenCompleteTxns(d, Drop(id, user), id)
      case CallNoShow(now, id, user) => ThenCompleteTxns(d, MissRide(id, user, StatusSeen(d, id), now), id)
  }

  function ThenCompleteTxns(d: Db, t: Txn, id: nat): seq<Txn> {
    var d' := Exec(d, t);
    if id < |d'.bookings| && d'.bookings[id].ride < |d'.rides|
    then [t, Complete(d'.bookings[id].ride, OpenOn(d'.bookings, d'.bookings[id].ride) == {}, StatusSeen(d', id))]
    else [t]
  }

  function TxnsOfEvent(w: World, e: Event): seq<Txn> {
    match e
    case Request(c) => TxnsOf(w.db, c)
    case Cascade(ride) => if ride in w.due then [CancelSome(ride, RowsOf(w.db.bookings, ride), false)] else []
  }

  function Log(es: seq<Event>): seq<Txn> {
    if es == [] then [] else Log(es[..|es| - 1]) + TxnsOfEvent(History(es[..|es| - 1]), es[|es| - 1])
  }

  /** The tables after the at most two transactions of a call. */
  function TwoSteps(d: Db, ts: seq<Txn>): Db {
    if ts == [] then d else if |ts| == 1 then Exec(d, ts[0]) else Exec(Exec(d, ts[0]), ts[1])
  }

  lemma ServeIsTwoSteps(d: Db, c: Call)
    ensures |TxnsOf(d, c)| <= 2 && ServeDb(d, c) == TwoSteps(d, TxnsOf(d, c))
  {
  }

  lemma ServeRunsItsTxns(d: Db, c: Call)
    ensures ServeDb(d, c) == Run(d, TxnsOf(d, c))
  {
    var ts := TxnsOf(d, c);
    ServeIsTwoSteps(d, c);
    if |ts| == 1 {
      RunOne(d, ts[0]);
      assert ts == [ts[0]];
    } else if |ts| == 2 {
      RunTwo(d, ts[0], ts[1]);
      assert ts == [ts[0], ts[1]];
    }
  }

  /** Every history of endpoint calls is a run of the transactions it logs. */
  lemma {:induction false} HistoryIsARun(es: seq<Event>)
    ensures History(es).db == Run(EMPTY, Log(es))
  {
    if es != [] {
      var w, e := History(es[..|es| - 1]), es[|es| - 1];
      HistoryIsARun(es[..|es| - 1]);
      RunAppend(EMPTY, Log(es[..|es| - 1]), TxnsOfEvent(w, e));
      match e
      case Request(c) => ServeRunsItsTxns(w.db, c);
      case Cascade(ride) => RunOne(w.db, CancelSome(ride, RowsOf(w.db.bookings, ride), false));
    }
  }

  // ---- Invariants ----------------------------------------------------------

  predicate NoManual(es: seq<Event>) {
    forall i :: 0 <= i < |es| ==> !IsManual(es[i])
  }

  predicate IsManual(e: Event) {
    e.Request? && e.call.CallManualStatus?
  }

  ghost predicate NeverFull(d: Db) {
    forall r :: 0 <= r < |d.rides| ==> !d.rides[r].status.Full?
  }

  /** Picked-up riders are on active rides, and completed rides have no open bookings. */
  ghost predicate Lively(d: Db) {
    forall i :: 0 <= i < |d.bookings| ==> LivelyAt(d, i)
  }

  ghost predicate LivelyAt(d: Db, i: nat)
    requires i < |d.bookings|
  {
    d.bookings[i].ride < |d.rides| ==>
      && (d.bookings[i].status.PickedUp? ==> d.rides[d.bookings[i].ride].status.Active?)
      && (d.rides[d.bookings[i].ride].status.Completed? ==> !Open(d.bookings[i].status))
  }

  /** A cancelled ride has open bookings only until its background cancellation has run. */
  ghost predicate Swept(w: World) {
    && (forall r :: r in w.due ==> r < |w.db.rides| && w.db.rides[r].status.Cancelled?)
    && (forall i :: 0 <= i < |w.db.bookings| ==> SweptAt(w.db, w.due, i))
  }

  ghost predicate Sound(w: World) {
    Wf(w.db) && NeverFull(w.db) && Lively(w.db) && Swept(w)
  }

  /** What the handlers' guards guarantee about a transaction that follows them at once. */
  ghost predicate Timely(d: Db, t: Txn) {
    match t
    case Cancel(id, _, _, _) => id < |d.bookings| && (d.bookings[id].status.Pending? || Credited(d.bookings[id].status))
    case PickUp(id, _, seen) => seen == StatusSeen(d, id)
    case MissRide(id, _, seen, _) => seen == StatusSeen(d, id)
    case Start(ride) => ride < |d.rides| && (d.rides[ride].status.Scheduled? || d.rides[ride].status.Full?)
    case Complete(ride, noneOpen, seen) =>
      ride < |d.rides| && noneOpen == (OpenOn(d.bookings, ride) == {}) && seen == d.rides[ride].status
    case ManualStatus(_, _, _) => false
    case CancelSome(_, _, onlyPending) => onlyPending
    case _ => true
  }

  lemma ServeIsTimely(d: Db, c: Call)
    requires !c.CallManualStatus?
    ensures var ts := TxnsOf(d, c);
            |ts| <= 2 && (|ts| > 0 ==> Timely(d, ts[0])) && (|ts| > 1 ==> Timely(Exec(d, ts[0]), ts[1]))
  {
  }

  /** Open bookings were open before, or are new and on a bookable ride. */
  lemma OpenWasOpen(d: Db, t: Txn, i: nat)
    requires i < |Exec(d, t).bookings| && Open(Exec(d, t).bookings[i].status)
    ensures var b := Exec(d, t).bookings[i];
            if i < |d.bookings| then Open(d.bookings[i].status) && b.ride == d.bookings[i].ride
            else b.ride < |d.rides| && Bookable(d.rides[b.ride].status) && Exec(d, t).rides == d.rides
  {
  }

  /** Only completion completes a ride, and only when none of its bookings is open. */
  lemma TimelyCompletes(d: Db, t: Txn, r: nat)
    requires Timely(d, t) && NeverFull(d) && r < |d.rides|
    ensures r < |Exec(d, t).rides|
    ensures Exec(d, t).rides[r].status.Completed? ==> d.rides[r].status.Completed? || OpenOn(d.bookings, r) == {}
    ensures d.rides[r].status.Active? ==> Exec(d, t).rides[r].status.Active? || OpenOn(d.bookings, r) == {}
  {
  }

  /** Only a pick-up on an active ride makes a booking picked up. */
  lemma TimelyPicksUp(d: Db, t: Txn, i: nat)
    requires Timely(d, t) && i < |Exec(d, t).bookings| && Exec(d, t).bookings[i].status.PickedUp?
    ensures i < |d.bookings| && d.bookings[i].ride == Exec(d, t).bookings[i].ride
    ensures d.bookings[i].status.PickedUp? || (d.bookings[i].ride < |d.rides| && d.rides[d.bookings[i].ride].status.Active?
                                               && Exec(d, t).rides == d.rides)
  {
  }

  lemma TimelyKeepsLivelyAt(d: Db, t: Txn, i: nat)
    requires Wf(d) && NeverFull(d) && Lively(d) && Timely(d, t) && i < |Exec(d, t).bookings|
    ensures LivelyAt(Exec(d, t), i)
  {
    var d' := Exec(d, t);
    if Open(d'.bookings[i].status) {
      OpenWasOpen(d, t, i);
      var r := d'.bookings[i].ride;
      TimelyCompletes(d, t, r);
      if i < |d.bookings| {
        assert LivelyAt(d, i);
        assert i in OpenOn(d.bookings, r);
      }
      if d'.bookings[i].status.PickedUp? {
        TimelyPicksUp(d, t, i);
      }
    }
  }

  lemma TimelyKeepsLively(d: Db, t: Txn)
    requires Wf(d) && NeverFull(d) && Lively(d) && Timely(d, t)
    ensures Lively(Exec(d, t))
  {
    forall i | 0 <= i < |Exec(d, t).bookings|
      ensures LivelyAt(Exec(d, t), i)
    {
      TimelyKeepsLivelyAt(d, t, i);
    }
  }

  /** Cancelled rides stay cancelled, and only a ride cancellation adds to them. */
  lemma TimelyCancelled(d: Db, t: Txn, r: nat)
    requires Timely(d, t) && r < |d.rides|
    ensures r < |Exec(d, t).rides|
    ensures d.rides[r].status.Cancelled? ==> Exec(d, t).rides[r].status.Cancelled?
    ensures !t.RideCancel? && Exec(d, t).rides[r].status.Cancelled? ==> d.rides[r].status.Cancelled?
  {
  }

  ghost predicate SweptAt(d: Db, due: set<nat>, i: nat)
    requires i < |d.bookings|
  {
    d.bookings[i].ride < |d.rides| && d.rides[d.bookings[i].ride].status.Cancelled? && d.bookings[i].ride !in due ==>
      !Open(d.bookings[i].status)
  }

  lemma TimelyKeepsSweptAt(w: World, t: Txn, due: set<nat>, i: nat)
    requires Wf(w.db) && Swept(w) && Timely(w.db, t) && i < |Exec(w.db, t).bookings|
    requires due == if t.RideCancel? then w.due + {t.ride} else w.due
    ensures SweptAt(Exec(w.db, t), due, i)
  {
    var d := w.db;
    var b := Exec(d, t).bookings[i];
    if Open(b.status) && b.ride < |Exec(d, t).rides| && b.ride !in due {
      OpenWasOpen(d, t, i);
      TimelyCancelled(d, t, b.ride);
      if i < |d.bookings| {
        assert SweptAt(d, w.due, i);
      }
      if t.RideCancel? {
        assert Exec(d, t).rides[b.ride] == d.rides[b.ride];
      }
    }
  }

  lemma TimelyKeepsSwept(w: World, t: Txn)
    requires Wf(w.db) && Swept(w) && Timely(w.db, t)
    ensures t.RideCancel? && Apply(w.db, t).Ok? ==> Swept(World(Exec(w.db, t), w.due + {t.ride}))
    ensures !t.RideCancel? ==> Swept(World(Exec(w.db, t), w.due))
  {
    var due := if t.RideCancel? then w.due + {t.ride} else w.due;
    forall i | 0 <= i < |Exec(w.db, t).bookings|
      ensures SweptAt(Exec(w.db, t), due, i)
    {
      TimelyKeepsSweptAt(w, t, due, i);
    }
    forall r | r in w.due
      ensures r < |Exec(w.db, t).rides| && Exec(w.db, t).rides[r].status.Cancelled?
    {
      TimelyCancelled(w.db, t, r);
    }
  }

  lemma ExecNeverFull(d: Db, t: Txn)
    requires NeverFull(d)
    ensures NeverFull(Exec(d, t))
  {
  }

  lemma TimelyKeepsSound(w: World, t: Txn)
    requires Sound(w) && Timely(w.db, t)
    ensures t.RideCancel? && Apply(w.db, t).Ok? ==> Sound(World(Exec(w.db, t), w.due + {t.ride}))
    ensures !t.RideCancel? ==> Sound(World(Exec(w.db, t), w.due))
  {
    ExecWf(w.db, t);
    ExecNeverFull(w.db, t);
    TimelyKeepsLively(w.db, t);
    TimelyKeepsSwept(w, t);
  }

  lemma ServeKeepsSound(w: World, c: Call)
    requires Sound(w) && !c.CallManualStatus?
    ensures Sound(After(w, Request(c)))
  {
    var ts := TxnsOf(w.db, c);
    ServeRunsItsTxns(w.db, c);
    ServeIsTimely(w.db, c);
    OnlyRideCancelCancels(w.db, c);
    if |ts| == 1 {
      RunOne(w.db, ts[0]);
      assert ts == [ts[0]];
      TimelyKeepsSound(w, ts[0]);
    } else if |ts| == 2 {
      RunTwo(w.db, ts[0], ts[1]);
      assert ts == [ts[0], ts[1]];
      TimelyKeepsSound(w, ts[0]);
      TimelyKeepsSound(World(Exec(w.db, ts[0]), w.due), ts[1]);
    }
  }

  lemma OnlyRideCancelCancels(d: Db, c: Call)
    ensures var ts := TxnsOf(d, c);
            if c.CallRideCancel? && Serve(d, c).Ok?
            then ts == [RideCancel(c.ride, c.user)] && Apply(d, ts[0]).Ok?
            else forall i :: 0 <= i < |ts| ==> !ts[i].RideCancel?
  {
  }

  /** The background cancellation leaves no open booking on its ride and touches no other. */
  lemma CascadeSweeps(d: Db, ride: nat, i: nat)
    requires i < |d.bookings|
    ensures |Cascaded(d, ride).bookings| == |d.bookings| && Cascaded(d, ride).rides == d.rides
    ensures Cascaded(d, ride).bookings[i].(status := d.bookings[i].status) == d.bookings[i]
    ensures d.bookings[i].ride != ride ==> Cascaded(d, ride).bookings[i] == d.bookings[i]
    ensures Open(Cascaded(d, ride).bookings[i].status) ==> Cascaded(d, ride).bookings[i] == d.bookings[i]
    ensures d.bookings[i].ride == ride && Open(Cascaded(d, ride).bookings[i].status) ==> d.bookings[i].status.PickedUp?
  {
  }

  lemma CascadeKeepsSound(w: World, ride: nat)
    requires Sound(w)
    ensures Sound(After(w, Cascade(ride)))
  {
    if ride in w.due {
      var d' := Cascaded(w.db, ride);
      ExecWf(w.db, CancelSome(ride, RowsOf(w.db.bookings, ride), false));
      forall i | 0 <= i < |d'.bookings|
        ensures SweptAt(d', w.due - {ride}, i)
        ensures LivelyAt(d', i)
      {
        CascadeSweeps(w.db, ride, i);
        assert LivelyAt(w.db, i);
        assert SweptAt(w.db, w.due, i);
      }
    }
  }

  lemma AfterKeepsSound(w: World, e: Event)
    requires Sound(w) && !IsManual(e)
    ensures Sound(After(w, e))
  {
    match e
    case Request(c) =>
      ServeKeepsSound(w, c);
    case Cascade(ride) =>
      CascadeKeepsSound(w, ride);
  }

  /** Every history without the manual status endpoint keeps the lifecycle invariants. */
  lemma {:induction false} EveryHistoryIsSound(es: seq<Event>)
    requires NoManual(es)
    ensures Sound(History(es))
  {
    if es != [] {
      EveryHistoryIsSound(es[..|es| - 1]);
      AfterKeepsSound(History(es[..|es| - 1]), es[|es| - 1]);
    }
  }
}
