/** Idempotency keys when the endpoints interleave: they stay unique as long as creations that share one do not overlap. */
module Retries {
  import opened Options
  import opened Model
  import opened Transactions
  import opened Effects
  import opened Interleaving
  import opened Histories

  /** The idempotency key a creation carries from its lookup to its commit; "" for none and for other processes. */
  function KeyOf(q: Proc): string {
    match q
    case CreateBegun(_, _, req) => req.key
    case CreateLocked(_, _, req, _) => req.key
    case CreateUnique(_, _, req, _) => req.key
    case CreateChecked(_, _, req, _) => req.key
    case _ => ""
  }

  /** The action, if it begins a creation with a key, finds no creation under way that carries it. */
  ghost predicate BeginsAlone(s: Sys, a: Action) {
    a.Spawn? && Enabled(s, a) && KeyOf(a.q) != "" ==> forall p :: p in s.procs ==> KeyOf(s.procs[p]) != KeyOf(a.q)
  }

  ghost predicate KeysDoNotOverlap(acts: seq<Action>) {
    forall i :: 0 <= i < |acts| ==> BeginsAlone(Play(acts[..i]), acts[i])
  }

  /** Every creation's key is still new, and no two creations share one. */
  ghost predicate KeysAreFree(s: Sys) {
    && UniqueKeys(s.db.bookings)
    && (forall p, i :: p in s.procs && 0 <= i < |s.db.bookings| && KeyOf(s.procs[p]) != "" ==>
          s.db.bookings[i].key != KeyOf(s.procs[p]))
    && (forall p, o :: p in s.procs && o in s.procs && p != o && KeyOf(s.procs[p]) != "" ==>
          KeyOf(s.procs[o]) != KeyOf(s.procs[p]))
  }

  lemma BegunKeyIsNew(d: Db, q: Proc, i: nat)
    requires Begins(d, q) && KeyOf(q) != "" && i < |d.bookings|
    ensures d.bookings[i].key != KeyOf(q)
  {
  }

  lemma ReadsKeepKey(d: Db, from: Proc, to: Proc)
    requires Reads(d, from, to)
    ensures KeyOf(to) == KeyOf(from)
  {
  }

  /** Only a creation's commit adds a booking, and the booking carries the creation's key. */
  lemma CommitAddsItsKey(d: Db, q: Proc, t: Txn)
    requires Wf(d) && Knows(d, q) && Commits(d, q, t)
    ensures KeysKept(d.bookings, Exec(d, t).bookings)
    ensures |Exec(d, t).bookings| <= |d.bookings| + 1
    ensures |Exec(d, t).bookings| == |d.bookings| + 1 ==> Exec(d, t).bookings[|d.bookings|].key == KeyOf(q)
  {
    ExecKeepsRows(d, t);
    if t.Create? {
      CommitIsAtomic(d, q, t);
    } else {
      QuietKeys(d, t);
    }
  }

  ghost predicate KeysKept(bs: seq<Booking>, out: seq<Booking>) {
    |bs| <= |out| && forall i :: 0 <= i < |bs| ==> out[i].key == bs[i].key
  }

  lemma CommitEndsItsKey(s: Sys, p: nat, t: Txn, next: Option<Proc>)
    requires Inv(s) && Enabled(s, Commit(p, t, next))
    ensures var s' := Next(s, Commit(p, t, next));
            && s'.db == Exec(s.db, t)
            && (p in s'.procs ==> KeyOf(s'.procs[p]) == "")
            && (forall o :: o in s'.procs && o != p ==> o in s.procs && s'.procs[o] == s.procs[o])
  {
    CommitIsAtomic(s.db, s.procs[p], t);
  }

  /** Adding the committing creation's booking and ending the creation keeps every key free. */
  lemma CommitFreesKeys(s: Sys, p: nat, t: Txn, next: Option<Proc>)
    requires Inv(s) && KeysAreFree(s) && Enabled(s, Commit(p, t, next))
    ensures KeysAreFree(Next(s, Commit(p, t, next)))
  {
    CommitEndsItsKey(s, p, t, next);
    CommitAddsItsKey(s.db, s.procs[p], t);
    AddedKeyIsFree(s, p, Next(s, Commit(p, t, next)));
  }

  lemma AddedKeyIsFree(s: Sys, p: nat, s': Sys)
    requires KeysAreFree(s) && p in s.procs && KeysKept(s.db.bookings, s'.db.bookings)
    requires |s'.db.bookings| <= |s.db.bookings| + 1
    requires |s'.db.bookings| == |s.db.bookings| + 1 ==> s'.db.bookings[|s.db.bookings|].key == KeyOf(s.procs[p])
    requires p in s'.procs ==> KeyOf(s'.procs[p]) == ""
    requires forall o :: o in s'.procs && o != p ==> o in s.procs && s'.procs[o] == s.procs[o]
    ensures KeysAreFree(s')
  {
  }

  lemma NextKeepsKeysFree(s: Sys, a: Action)
    requires Inv(s) && KeysAreFree(s) && Enabled(s, a) && BeginsAlone(s, a)
    ensures KeysAreFree(Next(s, a))
  {
    match a
    case Spawn(p, q) =>
      forall i | 0 <= i < |s.db.bookings| && KeyOf(q) != ""
        ensures s.db.bookings[i].key != KeyOf(q)
      {
        BegunKeyIsNew(s.db, q, i);
      }
    case Step(p, q) => ReadsKeepKey(s.db, s.procs[p], q);
    case Abort(p) =>
    case Commit(p, t, next) => CommitFreesKeys(s, p, t, next);
    case Direct(t) => QuietKeys(s.db, t);
  }

  /** In every schedule whose creations with one key do not overlap, at most one booking carries a given key. */
  lemma {:induction false} AtMostOneBookingPerKeyUnderInterleaving(acts: seq<Action>)
    requires KeysDoNotOverlap(acts)
    ensures UniqueKeys(Play(acts).db.bookings) && KeysAreFree(Play(acts))
  {
    if acts != [] {
      var before, a := acts[..|acts| - 1], acts[|acts| - 1];
      assert forall i :: 0 <= i < |before| ==> before[..i] == acts[..i] && before[i] == acts[i];
      AtMostOneBookingPerKeyUnderInterleaving(before);
      EveryScheduleIsSerial(before);
      if Enabled(Play(before), a) {
        NextKeepsKeysFree(Play(before), a);
      }
    }
  }
}
