/** The endpoints as they run: guards, transactions, and the search cache. */
module Handlers {
  import opened Model
  import opened Transactions
  import opened Endpoints
  import opened Search
  import opened MatchCache
  import opened Repositories

  class Handler {
    const repo: Repository
    var due: set<nat>
    var cache: Cache

    constructor (repo: Repository)
      requires repo.Tables() == EMPTY
      ensures this.repo == repo
      ensures View() == Site(World(EMPTY, {}), map[])
    {
      this.repo, due, cache := repo, {}, map[];
    }

    ghost function View(): Site
      reads this, repo
    {
      Site(World(repo.Tables(), due), cache)
    }

    /** The endpoint served the call: its reply, its effect on the tables, and the cache emptied if it must be. */
    twostate predicate Served(c: Call, r: Result)
      reads this, repo
    {
      && View() == Acted(old(View()), Request(c))
      && r == match Serve(old(repo.Tables()), c) case Ok(_, id) => Success(id) case Fail(e) => Failure(e)
    }

    method InvalidateMatchCache()
      modifies this`cache
      ensures cache == map[]
    {
      cache := map[];
    }

    // ---- Rides -------------------------------------------------------------

    method CreateRide(now: int, user: UserId, route: nat, departure: int, total: int, price: real) returns (r: Result)
      modifies this`cache, repo
      ensures Served(CallRideCreate(now, user, route, departure, total, price), r)
    {
      r := repo.CreateRide(now, user, route, departure, total, price);
      if r.Success? {
        InvalidateMatchCache();
      }
    }

    method UpdateRide(now: int, ride: nat, user: UserId, departure: int, total: int, price: real) returns (r: Result)
      modifies this`cache, repo
      ensures Served(CallRideUpdate(now, ride, user, departure, total, price), r)
    {
      r := repo.UpdateRide(now, ride, user, departure, total, price);
      if r.Success? {
        InvalidateMatchCache();
      }
    }

    method UpdateStatus(ride: nat, user: UserId, status: RideStatus) returns (r: Result)
      modifies this`cache, repo
      ensures Served(CallManualStatus(ride, user, status), r)
    {
      r := repo.UpdateRideStatus(ride, user, status);
      if r.Success? {
        InvalidateMatchCache();
      }
    }

    method CancelRide(now: int, ride: nat, user: UserId) returns (r: Result)
      modifies this, repo
      ensures Served(CallRideCancel(now, ride, user), r)
    {
      var v := RideCancelGuard(repo.Tables(), ride, user, now);
      if v.Stop? {
        return Failure(v.error);
      }
      r := repo.CancelRide(ride, user);
      if r.Success? {
        due := due + {ride};
        InvalidateMatchCache();
      }
    }

    /** The background step of a ride cancellation; it does not touch the cache. */
    method RunCascade(ride: nat)
      requires ride in due
      modifies this`due, repo
      ensures View() == Acted(old(View()), Event.Cascade(ride))
    {
      repo.CascadeCancel(ride);
      due := due - {ride};
    }

    method StartRide(now: int, ride: nat, user: UserId) returns (r: Result)
      modifies this`cache, repo
      ensures Served(CallStart(now, ride, user), r)
    {
      var v := StartGuard(repo.Tables(), ride, user, now);
      if v.Stop? {
        return Failure(v.error);
      }
      repo.SetRide(ride, RideStatus.Active);
      InvalidateMatchCache();
      return Success(ride);
    }

    // ---- Bookings ----------------------------------------------------------

    method CreateBooking(now: int, user: UserId, req: CreateRequest) returns (r: Result)
      modifies repo
      ensures Served(CallCreate(now, user, req), r)
    {
      r := repo.Create(now, user, req);
    }

    method ConfirmBooking(id: nat, user: UserId) returns (r: Result)
      modifies this`cache, repo
      ensures Served(CallConfirm(id, user), r)
    {
      r := repo.ConfirmBooking(id, user);
      if r.Failure? {
        return;
      }
      var ride := repo.bookings[id].ride;
      if repo.rides[ride].status == RideStatus.Full {
        repo.CancelPendingBookingsOnRide(ride, id);
      }
      InvalidateMatchCache();
    }

    method CancelBooking(now: int, id: nat, user: UserId) returns (r: Result)
      modifies this`cache, repo
      ensures Served(CallCancel(now, id, user), r)
    {
      var v := CancelGuard(repo.Tables(), id, user, now);
      if v.Stop? {
        return Failure(v.error);
      }
      var role := Role.Rider;
      if repo.rides[repo.bookings[id].ride].driver == user {
        role := Role.Driver;
      }
      r := repo.CancelBooking(id, user, role, now);
      if r.Success? {
        InvalidateMatchCache();
      }
    }

    method RiderReady(now: int, id: nat, user: UserId, located: bool) returns (r: Result)
      modifies repo
      ensures Served(CallReady(now, id, user, located), r)
    {
      var v := ReadyGuard(repo.Tables(), id, user, now, located);
      if v.Stop? {
        return Failure(v.error);
      }
      r := repo.MarkRiderReady(id, user);
    }

    method PickedUp(id: nat, user: UserId, located: bool) returns (r: Result)
      modifies repo
      ensures Served(CallPickUp(id, user, located), r)
    {
      var v := PickUpGuard(repo.Tables(), id, user, located);
      if v.Stop? {
        return Failure(v.error);
      }
      r := repo.MarkPickedUp(id, user);
    }

    method Dropped(id: nat, user: UserId) returns (r: Result)
      modifies this`cache, repo
      ensures Served(CallDrop(id, user), r)
    {
      var v := DropGuard(repo.Tables(), id, user);
      if v.Stop? {
        return Failure(v.error);
      }
      r := repo.MarkDropped(id, user);
      var completed := repo.CheckAndUpdateRideCompletion(repo.bookings[id].ride);
      InvalidateMatchCache();
    }

    method NoShow(now: int, id: nat, user: UserId) returns (r: Result)
      modifies this`cache, repo
      ensures Served(CallNoShow(now, id, user), r)
    {
      var v := NoShowGuard(repo.Tables(), id, user, now);
      if v.Stop? {
        return Failure(v.error);
      }
      r := repo.MarkNoShow(id, user, now);
      if r.Failure? {
        return;
      }
      var completed := repo.CheckAndUpdateRideCompletion(repo.bookings[id].ride);
      InvalidateMatchCache();
    }

    // ---- Search ------------------------------------------------------------

    /** Answers from the cache when it can; otherwise searches, if there are coordinates, and stores the answer. */
    method FindNearby(ctx: Context, user: UserId, q: Query) returns (ok: bool, rows: seq<Row>)
      modifies this`cache
      ensures ok <==> NearbyKey(q) in old(cache) || Searchable(q)
      ensures ok ==> rows == Answer(old(View()), ctx, user, q)
      ensures View() == Visited(old(View()), ctx, user, Find(q))
    {
      var key := NearbyKey(q);
      if key in cache {
        return true, cache[key];
      }
      if !Searchable(q) {
        return false, [];
      }
      rows := Search.FindNearby(repo.Tables(), ctx, q, user);
      cache := cache[key := rows];
      ok := true;
    }
  }
}
