/** What every history of endpoint calls guarantees about cancellation, completion, progress and retries. */
module Histories {
  import opened Sums
  import opened Model
  import opened Transactions
  import opened Endpoints
  import opened Lifecycle

  // ---- Cancelled rides -----------------------------------------------------

  /** Open bookings of a cancelled ride were open before. */
  ghost predicate Shrinks(d: Db, d': Db, r: nat) {
    && r < |d.rides| && r < |d'.rides|
    && (d.rides[r].status.Cancelled? ==> d'.rides[r].status.Cancelled? && OpenOn(d'.bookings, r) <= OpenOn(d.bookings, r))
  }

  lemma TimelyShrinks(d: Db, t: Txn, r: nat)
    requires Timely(d, t) && r < |d.rides|
    ensures Shrinks(d, Exec(d, t), r)
  {
  }

  lemma ServeShrinks(d: Db, c: Call, r: nat)
    requires !c.CallManualStatus? && r < |d.rides|
    ensures Shrinks(d, ServeDb(d, c), r)
  {
    var ts := TxnsOf(d, c);
    ServeRunsItsTxns(d, c);
    ServeIsTimely(d, c);
    if |ts| == 1 {
      RunOne(d, ts[0]);
      assert ts == [ts[0]];
      TimelyShrinks(d, ts[0], r);
    } else if |ts| == 2 {
      RunTwo(d, ts[0], ts[1]);
      assert ts == [ts[0], ts[1]];
      TimelyShrinks(d, ts[0], r);
      TimelyShrinks(Exec(d, ts[0]), ts[1], r);
    }
  }

  lemma CascadeShrinks(d: Db, ride: nat, r: nat)
    requires r < |d.rides|
    ensures Shrinks(d, Cascaded(d, ride), r)
  {
  }

  lemma HistorySnoc(es: seq<Event>, more: seq<Event>)
    requires more != []
    ensures (es + more)[..|es + more| - 1] == es + more[..|more| - 1]
    ensures History(es + more) == After(History(es + more[..|more| - 1]), more[|more| - 1])
  {
  }

  /**
   Once a ride is cancelled it stays cancelled, its open bookings only get fewer, and none of them
   is picked up; once the background cancellation has run, none is open, ever again.
   */
  lemma {:induction false} CancelledForever(es: seq<Event>, more: seq<Event>, r: nat)
    requires NoManual(es + more)
    requires r < |History(es).db.rides| && History(es).db.rides[r].status.Cancelled?
    ensures var w, w' := History(es), History(es + more);
            && r < |w'.db.rides| && w'.db.rides[r].status.Cancelled?
            && OpenOn(w'.db.bookings, r) <= OpenOn(w.db.bookings, r)
            && (forall i :: i in OpenOn(w'.db.bookings, r) ==> !w'.db.bookings[i].status.PickedUp?)
            && (r !in w.due ==> r !in w'.due && OpenOn(w'.db.bookings, r) == {})
  {
    EveryHistoryIsSound(es + more);
    var w' := History(es + more);
    if more == [] {
      assert es + more == es;
    } else {
      HistorySnoc(es, more);
      var prev, e := History(es + more[..|more| - 1]), more[|more| - 1];
      assert NoManual(es + more[..|more| - 1]) by {
        assert forall i :: 0 <= i < |es + more| - 1 ==> (es + more[..|more| - 1])[i] == (es + more)[i];
      }
      assert (es + more)[|es + more| - 1] == e;
      CancelledForever(es, more[..|more| - 1], r);
      match e
      case Request(c) => ServeShrinks(prev.db, c, r);
      case Cascade(ride) => CascadeShrinks(prev.db, ride, r);
    }
    forall i | i in OpenOn(w'.db.bookings, r)
      ensures !w'.db.bookings[i].status.PickedUp?
    {
      assert LivelyAt(w'.db, i);
    }
    if r !in w'.due {
      forall i | 0 <= i < |w'.db.bookings|
        ensures i !in OpenOn(w'.db.bookings, r)
      {
        assert SweptAt(w'.db, w'.due, i);
      }
    }
  }

  /** In every history without the manual endpoint, a completed ride has no open bookings and riders ride active rides. */
  lemma CompletedMeansClosed(es: seq<Event>, i: nat)
    requires NoManual(es) && i < |History(es).db.bookings|
    ensures var d := History(es).db;
            && d.bookings[i].ride < |d.rides|
            && var b, r := d.bookings[i], d.rides[d.bookings[i].ride];
               (r.status.Completed? ==> !Open(b.status)) && (b.status.PickedUp? ==> r.status.Active?)
  {
    EveryHistoryIsSound(es);
    SoundAt(History(es), i);
  }

  lemma SoundAt(w: World, i: nat)
    requires Sound(w) && i < |w.db.bookings|
    ensures w.db.bookings[i].ride < |w.db.rides| && LivelyAt(w.db, i)
  {
  }

  /** The manual endpoint keeps these invariants exactly when it does not complete a ride with open bookings. */
  lemma ManualStatusKeepsLivelyIff(d: Db, ride: nat, user: UserId, s: RideStatus)
    requires Wf(d) && Lively(d) && ManualStatusTx(d, ride, user, s).Ok?
    ensures Lively(ManualStatusTx(d, ride, user, s).db) <==> (s.Completed? ==> OpenOn(d.bookings, ride) == {})
  {
    var d' := ManualStatusTx(d, ride, user, s).db;
    if i :| s.Completed? && i in OpenOn(d.bookings, ride) {
      assert !LivelyAt(d', i);
    } else {
      forall i | 0 <= i < |d.bookings|
        ensures LivelyAt(d', i)
      {
        assert LivelyAt(d, i);
        assert s.Completed? ==> i !in OpenOn(d.bookings, ride);
      }
    }
  }

  // ---- The full status -----------------------------------------------------

  /** No run of transactions, with or without the manual endpoint, ever makes a ride full. */
  lemma {:induction false} NoRideIsEverFull(ts: seq<Txn>)
    ensures NeverFull(Run(EMPTY, ts))
  {
    if ts != [] {
      NoRideIsEverFull(ts[..|ts| - 1]);
      ExecNeverFull(Run(EMPTY, ts[..|ts| - 1]), ts[|ts| - 1]);
    }
  }

  /** So a confirmation never cancels other bookings: it is its transaction and nothing else. */
  lemma ConfirmNeverAutoCancels(es: seq<Event>, id: nat, driver: UserId)
    ensures ConfirmBooking(History(es).db, id, driver) == ConfirmTx(History(es).db, id, driver)
  {
    HistoryIsARun(es);
    NoRideIsEverFull(Log(es));
    ExecNeverFull(History(es).db, Confirm(id, driver));
  }

  // ---- Progress ------------------------------------------------------------

  function Rank(s: BookingStatus): nat {
    match s
    case Pending => 4
    case Confirmed => 3
    case RiderReady => 2
    case PickedUp => 1
    case _ => 0
  }

  /** A booking keeps its status or moves to one of lower rank. */
  predicate Descends(s: BookingStatus, s': BookingStatus) {
    s == s' || Rank(s') < Rank(s)
  }

  lemma TimelyDescends(d: Db, t: Txn, i: nat)
    requires Timely(d, t) || t.ManualStatus? || t.CancelSome?
    requires i < |d.bookings|
    ensures i < |Exec(d, t).bookings| && Descends(d.bookings[i].status, Exec(d, t).bookings[i].status)
  {
  }

  /** Every call and every background cancellation moves bookings only down the ranks. */
  lemma AfterDescends(w: World, e: Event, i: nat)
    requires i < |w.db.bookings|
    ensures i < |After(w, e).db.bookings| && Descends(w.db.bookings[i].status, After(w, e).db.bookings[i].status)
  {
    match e
    case Request(c) =>
      var ts := TxnsOf(w.db, c);
      ServeRunsItsTxns(w.db, c);
      if c.CallManualStatus? {
        TimelyDescends(w.db, ManualStatus(c.ride, c.user, c.status), i);
      } else {
        ServeIsTimely(w.db, c);
        if |ts| == 1 {
          RunOne(w.db, ts[0]);
          assert ts == [ts[0]];
          TimelyDescends(w.db, ts[0], i);
        } else if |ts| == 2 {
          RunTwo(w.db, ts[0], ts[1]);
          assert ts == [ts[0], ts[1]];
          TimelyDescends(w.db, ts[0], i);
          TimelyDescends(Exec(w.db, ts[0]), ts[1], i);
        }
      }
    case Cascade(ride) =>
      TimelyDescends(w.db, CancelSome(ride, RowsOf(w.db.bookings, ride), false), i);
  }

  function Ranks(bs: seq<Booking>): seq<nat> {
    seq(|bs|, i requires 0 <= i < |bs| => Rank(bs[i].status))
  }

  function Changes(bs: seq<Booking>, out: seq<Booking>): seq<nat>
    requires |bs| <= |out|
  {
    seq(|bs|, i requires 0 <= i < |bs| => if out[i].status != bs[i].status then 1 else 0)
  }

  /** How many booking-status changes the history made. */
  function StatusChanges(es: seq<Event>): nat {
    if es == [] then 0
    else
      var bs, out := History(es[..|es| - 1]).db.bookings, History(es).db.bookings;
      StatusChanges(es[..|es| - 1]) + if |bs| <= |out| then Sum(Changes(bs, out)) else 0
  }

  lemma {:induction false} NewRowsRankAtMostFour(w: seq<nat>, n: nat)
    requires n <= |w| && forall i :: 0 <= i < |w| ==> w[i] <= 4
    ensures Sum(w) <= Sum(w[..n]) + 4 * (|w| - n)
  {
    if n < |w| {
      assert w[..|w| - 1][..n] == w[..n];
      NewRowsRankAtMostFour(w[..|w| - 1], n);
    } else {
      assert w[..n] == w;
    }
  }

  lemma ChangesCostRank(bs: seq<Booking>, out: seq<Booking>)
    requires |bs| <= |out|
    requires forall i :: 0 <= i < |bs| ==> Descends(bs[i].status, out[i].status)
    ensures Sum(Changes(bs, out)) + Sum(Ranks(out)) <= Sum(Ranks(bs)) + 4 * (|out| - |bs|)
  {
    var none := seq(|bs|, i => 0 as nat);
    SumZero(none);
    SumPairs(Changes(bs, out), Ranks(out)[..|bs|], Ranks(bs), none);
    NewRowsRankAtMostFour(Ranks(out), |bs|);
  }

  /** A history with N bookings makes at most 4N booking-status changes. */
  lemma {:induction false} FourChangesPerBooking(es: seq<Event>)
    ensures StatusChanges(es) + Sum(Ranks(History(es).db.bookings)) <= 4 * |History(es).db.bookings|
  {
    if es != [] {
      FourChangesPerBooking(es[..|es| - 1]);
      var w := History(es[..|es| - 1]);
      var out := History(es).db.bookings;
      forall i | 0 <= i < |w.db.bookings|
        ensures |w.db.bookings| <= |out| && Descends(w.db.bookings[i].status, out[i].status)
      {
        AfterDescends(w, es[|es| - 1], i);
        AfterDescends(w, es[|es| - 1], |w.db.bookings| - 1);
      }
      if |w.db.bookings| <= |out| {
        ChangesCostRank(w.db.bookings, out);
      }
    }
  }

  // ---- Idempotent creation -------------------------------------------------

  ghost predicate UniqueKeys(bs: seq<Booking>) {
    forall i, j :: 0 <= i < j < |bs| && bs[i].key == bs[j].key ==> bs[i].key == ""
  }

  /** Bookings keep their key, and a step adds a keyed booking only when the key is new. */
  ghost predicate KeysGrow(bs: seq<Booking>, out: seq<Booking>) {
    && |bs| <= |out| <= |bs| + 1
    && (forall i :: 0 <= i < |bs| ==> out[i].key == bs[i].key)
    && (|bs| < |out| && out[|bs|].key != "" ==> forall i :: 0 <= i < |bs| ==> bs[i].key != out[|bs|].key)
  }

  lemma QuietKeys(d: Db, t: Txn)
    requires !t.Create?
    ensures |Exec(d, t).bookings| == |d.bookings|
    ensures forall i :: 0 <= i < |d.bookings| ==> Exec(d, t).bookings[i].key == d.bookings[i].key
  {
  }

  lemma AfterKeysGrow(w: World, e: Event)
    ensures KeysGrow(w.db.bookings, After(w, e).db.bookings)
  {
    match e
    case Request(c) =>
      if !c.CallCreate? {
        var ts := TxnsOf(w.db, c);
        ServeRunsItsTxns(w.db, c);
        if |ts| == 1 {
          RunOne(w.db, ts[0]);
          assert ts == [ts[0]];
          QuietKeys(w.db, ts[0]);
        } else if |ts| == 2 {
          RunTwo(w.db, ts[0], ts[1]);
          assert ts == [ts[0], ts[1]];
          QuietKeys(w.db, ts[0]);
          QuietKeys(Exec(w.db, ts[0]), ts[1]);
        }
      }
    case Cascade(ride) =>
      QuietKeys(w.db, CancelSome(ride, RowsOf(w.db.bookings, ride), false));
  }

  lemma KeysStayUnique(bs: seq<Booking>, out: seq<Booking>)
    requires UniqueKeys(bs) && KeysGrow(bs, out)
    ensures UniqueKeys(out)
  {
  }

  lemma {:induction false} AtMostOneBookingPerKey(es: seq<Event>)
    ensures UniqueKeys(History(es).db.bookings)
  {
    if es != [] {
      AtMostOneBookingPerKey(es[..|es| - 1]);
      var w, e := History(es[..|es| - 1]), es[|es| - 1];
      AfterKeysGrow(w, e);
      KeysStayUnique(w.db.bookings, After(w, e).db.bookings);
    }
  }

  lemma {:induction false} KeysPersist(es: seq<Event>, more: seq<Event>, i: nat)
    requires i < |History(es).db.bookings|
    ensures i < |History(es + more).db.bookings|
    ensures History(es + more).db.bookings[i].key == History(es).db.bookings[i].key
  {
    if more == [] {
      assert es + more == es;
    } else {
      HistorySnoc(es, more);
      KeysPersist(es, more[..|more| - 1], i);
      AfterKeysGrow(History(es + more[..|more| - 1]), more[|more| - 1]);
    }
  }

  /**
   A booking made with a non-empty key is what every later creation request with that key returns,
   whoever sends it and whatever happened in between, and the request changes nothing.
   */
  lemma ReplayReturnsTheBooking(es: seq<Event>, now: int, rider: UserId, req: CreateRequest,
                                more: seq<Event>, later: int, sender: UserId, replay: CreateRequest)
    requires CreateBooking(History(es).db, now, rider, req).Ok? && req.key != ""
    requires replay.key == req.key && replay.seats >= 1
    ensures var made := CreateBooking(History(es).db, now, rider, req).id;
            var d := History(es + [Request(CallCreate(now, rider, req))] + more).db;
            CreateBooking(d, later, sender, replay) == Ok(d, made)
  {
    var first := es + [Request(CallCreate(now, rider, req))];
    var made := CreateBooking(History(es).db, now, rider, req).id;
    assert first[..|first| - 1] == es;
    KeysPersist(first, more, made);
    AtMostOneBookingPerKey(first + more);
  }
}
