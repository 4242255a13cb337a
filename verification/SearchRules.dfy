/** What a search answers, written out over the columns of the tables: which rides it lists, and what each row says. */
module SearchRules {
  import opened Model
  import opened Fares
  import opened Search
  import opened MatchCache
  import opened Rules
  import Endpoints

  // ---- Which rides ---------------------------------------------------------

  function RadiusOf(q: Query): real {
    if q.radius > 0.0 then q.radius else 1000.0
  }

  function SeatsOf(q: Query): int {
    if q.seats > 0 then q.seats else 1
  }

  /** A ride is listed exactly when it is open, not long gone, not one's own, near both points, in their direction, and has room. */
  lemma ListedIff(d: Db, c: Context, q: Query, user: UserId, id: nat)
    ensures Listed(d, c, q, user, id) <==>
            && id < |d.rides|
            && var r := d.rides[id];
               var p, e := c.geo.locate(r.route, q.originLat, q.originLng), c.geo.locate(r.route, q.destLat, q.destLng);
               && r.status != RideStatus.Cancelled && r.status != RideStatus.Completed
               && c.now < r.departure + 3600
               && (user == "" || user != r.driver)
               && c.geo.metres(r.route, q.originLat, q.originLng) <= RadiusOf(q)
               && c.geo.metres(r.route, q.destLat, q.destLng) <= RadiusOf(q)
               && p < e
               && SeatsTaken(d.bookings, id, p, e) + SeatsOf(q) <= r.total
  {
    if id < |d.rides| {
      var r := d.rides[id];
      OccupiedIsSeatsTaken(d.bookings, id, c.geo.locate(r.route, q.originLat, q.originLng),
                           c.geo.locate(r.route, q.destLat, q.destLng));
    }
  }

  /** The row is that of a listed ride among the first n. */
  ghost predicate IsRowOf(d: Db, c: Context, q: Query, user: UserId, n: nat, row: Row) {
    row.id < n <= |d.rides| && Listed(d, c, q, user, row.id) && row == RowOf(c, d.rides[row.id], row.id, q)
  }

  /** Every row is that of a listed ride, and rows come in the order of the rides, so no ride has two. */
  lemma {:induction false} RowsFollowRides(d: Db, c: Context, q: Query, user: UserId, n: nat, k: nat)
    requires n <= |d.rides| && k < |RowsUpTo(d, c, q, user, n)|
    ensures IsRowOf(d, c, q, user, n, RowsUpTo(d, c, q, user, n)[k])
    ensures k > 0 ==> RowsUpTo(d, c, q, user, n)[k - 1].id < RowsUpTo(d, c, q, user, n)[k].id
  {
    var before := RowsUpTo(d, c, q, user, n - 1);
    if k < |before| {
      RowsFollowRides(d, c, q, user, n - 1, k);
    } else if k > 0 {
      RowsFollowRides(d, c, q, user, n - 1, k - 1);
    }
  }

  // ---- What a row says -----------------------------------------------------

  lemma RoundNear(v: real)
    ensures -0.5 <= RoundMoney(v) as real - v <= 0.5
  {
  }

  lemma RoundUp(v: real, w: real)
    requires v <= w
    ensures RoundMoney(v) <= RoundMoney(w)
  {
  }

  lemma NearTenth(v: real)
    ensures -0.05 <= Round(v, 0.1) - v <= 0.05
  {
    RoundNear(v / 0.1);
  }

  lemma NearTenThousandth(v: real)
    ensures -0.00005 <= Round(v, 0.0001) - v <= 0.00005
  {
    RoundNear(v / 0.0001);
  }

  predicate Within(v: real, exact: real, error: real) {
    exact - error <= v <= exact + error
  }

  /** The row's columns are the ride's; its figures are the exact ones, rounded to the decimals shown. */
  ghost predicate Tells(row: Row, c: Context, r: Ride, q: Query) {
    var p, e := c.geo.locate(r.route, q.originLat, q.originLng), c.geo.locate(r.route, q.destLat, q.destLng);
    && row.driver == r.driver && row.departure == r.departure && row.status == r.status
    && row.total == r.total && row.available == r.available && row.price == r.price
    && Within(row.pickupMetres, c.geo.metres(r.route, q.originLat, q.originLng), 0.05)
    && Within(row.dropoffMetres, c.geo.metres(r.route, q.destLat, q.destLng), 0.05)
    && Within(row.pickupAt, p, 0.00005) && Within(row.dropoffAt, e, 0.00005)
    && row.pickupAt <= row.dropoffAt
    && Within(row.coverage, 100.0 * (e - p), 0.05)
  }

  lemma RowTells(c: Context, r: Ride, id: nat, q: Query)
    requires PickupAt(c, r, q) < DropoffAt(c, r, q)
    ensures Tells(RowOf(c, r, id, q), c, r, q)
  {
    var p, e := PickupAt(c, r, q), DropoffAt(c, r, q);
    NearTenth(PickupMetres(c, r, q));
    NearTenth(DropoffMetres(c, r, q));
    NearTenThousandth(p);
    NearTenThousandth(e);
    NearTenth((e - p) * 100.0);
    RoundUp(p / 0.0001, e / 0.0001);
  }

  lemma AtMostOne(a: real, b: real)
    requires a <= b && b > 0.0
    ensures a / b <= 1.0
  {
  }

  /** The score of a listed ride: nearness of both ends, twice the overlap, the rating, and the share of free seats. */
  lemma ListedScore(d: Db, c: Context, q: Query, user: UserId, id: nat)
    requires Listed(d, c, q, user, id) && d.rides[id].total > 0
    ensures var r := d.rides[id];
            var p, e := c.geo.locate(r.route, q.originLat, q.originLng), c.geo.locate(r.route, q.destLat, q.destLng);
            RowOf(c, r, id, q).score
            == (1.0 - c.geo.metres(r.route, q.originLat, q.originLng) / RadiusOf(q))
               + (1.0 - c.geo.metres(r.route, q.destLat, q.destLng) / RadiusOf(q))
               + 2.0 * (e - p) + c.rating(r.driver) / 5.0 + r.available as real / r.total as real
  {
    var r := d.rides[id];
    assert Effective(q).radius == RadiusOf(q);
    AtMostOne(PickupMetres(c, r, q), RadiusOf(q));
    AtMostOne(DropoffMetres(c, r, q), RadiusOf(q));
  }

  lemma ShareInRange(a: real, b: real)
    requires 0.0 <= a <= b && b > 0.0
    ensures 0.0 <= a / b <= 1.0
  {
  }

  /** It lies between 0 and 6. */
  lemma ScoreInRange(d: Db, c: Context, q: Query, user: UserId, id: nat)
    requires Wf(d) && OnRoute(c) && Listed(d, c, q, user, id) && 0.0 <= c.rating(d.rides[id].driver) <= 5.0
    requires var r := d.rides[id];
             c.geo.metres(r.route, q.originLat, q.originLng) >= 0.0 && c.geo.metres(r.route, q.destLat, q.destLng) >= 0.0
    ensures 0.0 <= RowOf(c, d.rides[id], id, q).score <= 6.0
  {
    var r := d.rides[id];
    ListedScore(d, c, q, user, id);
    ShareInRange(PickupMetres(c, r, q), RadiusOf(q));
    ShareInRange(DropoffMetres(c, r, q), RadiusOf(q));
    ShareInRange(r.available as real, r.total as real);
    assert 0.0 <= PickupAt(c, r, q) <= 1.0 && 0.0 <= DropoffAt(c, r, q) <= 1.0;
  }

  /** Every row of an answer: the ride it is about is listed, and it tells that ride's columns and figures. */
  lemma EveryRowTells(d: Db, c: Context, q: Query, user: UserId, k: nat)
    requires k < |FindNearby(d, c, q, user)|
    ensures var row := FindNearby(d, c, q, user)[k];
            && Listed(d, c, q, user, row.id) && Tells(row, c, d.rides[row.id], q)
            && (k > 0 ==> FindNearby(d, c, q, user)[k - 1].id < row.id)
  {
    RowsFollowRides(d, c, q, user, |d.rides|, k);
    var row := FindNearby(d, c, q, user)[k];
    RowTells(c, d.rides[row.id], row.id, q);
  }

  // ---- The cache -----------------------------------------------------------

  /** An endpoint call empties the cache exactly when it succeeds and is not a booking request, a ready report or a pick-up. */
  lemma EmptiedIff(s: Site, c: Endpoints.Call)
    requires s.cache != map[]
    ensures Acted(s, Endpoints.Event.Request(c)).cache == map[] <==>
            Endpoints.Serve(s.world.db, c).Ok? && !c.CallCreate? && !c.CallReady? && !c.CallPickUp?
    ensures Acted(s, Endpoints.Event.Request(c)).cache == map[] || Acted(s, Endpoints.Event.Request(c)).cache == s.cache
  {
  }
}
