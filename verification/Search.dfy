/** The nearby search: which rides it lists, and how it agrees with booking. */
module Search {
  import opened Model
  import opened Fares
  import opened Capacity
  import opened Transactions

  datatype Query = Query(originLat: real, originLng: real, destLat: real, destLng: real, radius: real, seats: int)

  /**
   The spatial database: where along a route the nearest point to a coordinate lies, and how
   many metres away it is.
   */
  datatype Geo = Geo(locate: (nat, real, real) -> real, metres: (nat, real, real) -> real)

  /** One listed ride: the columns that can change, the placement on the route, and the score. */
  datatype Row = Row(id: nat, driver: UserId, departure: int, total: nat, available: nat, price: real,
                     status: RideStatus, pickupMetres: real, dropoffMetres: real,
                     pickupAt: real, dropoffAt: real, coverage: real, score: real)

  /** Everything a search depends on besides the tables. */
  datatype Context = Context(geo: Geo, rating: UserId -> real, now: int)

  const DEFAULT_RADIUS := 1000.0

  /** Missing or non-positive radius and seat count take their defaults. */
  function Effective(q: Query): Query {
    q.(radius := if q.radius <= 0.0 then DEFAULT_RADIUS else q.radius,
       seats := if q.seats <= 0 then 1 else q.seats)
  }

  function PickupAt(c: Context, r: Ride, q: Query): real {
    c.geo.locate(r.route, q.originLat, q.originLng)
  }

  function DropoffAt(c: Context, r: Ride, q: Query): real {
    c.geo.locate(r.route, q.destLat, q.destLng)
  }

  function PickupMetres(c: Context, r: Ride, q: Query): real {
    c.geo.metres(r.route, q.originLat, q.originLng)
  }

  function DropoffMetres(c: Context, r: Ride, q: Query): real {
    c.geo.metres(r.route, q.destLat, q.destLng)
  }

  /** All filters but the one on the searching user. */
  predicate Matches(d: Db, c: Context, q: Query, id: nat)
    requires id < |d.rides|
  {
    var r, e := d.rides[id], Effective(q);
    && Bookable(r.status)
    && r.total - Occupied(d.bookings, id, PickupAt(c, r, q), DropoffAt(c, r, q)) >= e.seats
    && r.departure > c.now - HOUR
    && PickupMetres(c, r, q) <= e.radius
    && DropoffMetres(c, r, q) <= e.radius
    && PickupAt(c, r, q) < DropoffAt(c, r, q)
  }

  /** Drivers do not see their own rides; "" is an anonymous search. */
  predicate ShownTo(r: Ride, user: UserId) {
    user == "" || r.driver != user
  }

  predicate Listed(d: Db, c: Context, q: Query, user: UserId, id: nat) {
    id < |d.rides| && Matches(d, c, q, id) && ShownTo(d.rides[id], user)
  }

  function Round(v: real, unit: real): real
    requires unit > 0.0
  {
    RoundMoney(v / unit) as real * unit
  }

  function Max0(v: real): real {
    if v < 0.0 then 0.0 else v
  }

  function Score(c: Context, r: Ride, q: Query): real
    requires r.total > 0
  {
    var radius := Effective(q).radius;
    Max0(1.0 - PickupMetres(c, r, q) / radius)
    + Max0(1.0 - DropoffMetres(c, r, q) / radius)
    + Max0(DropoffAt(c, r, q) - PickupAt(c, r, q)) * 2.0
    + c.rating(r.driver) / 5.0
    + r.available as real / r.total as real
  }

  function RowOf(c: Context, r: Ride, id: nat, q: Query): Row {
    var p, e := PickupAt(c, r, q), DropoffAt(c, r, q);
    Row(id, r.driver, r.departure, r.total, r.available, r.price, r.status,
        Round(PickupMetres(c, r, q), 0.1), Round(DropoffMetres(c, r, q), 0.1),
        Round(p, 0.0001), Round(e, 0.0001), Round((e - p) * 100.0, 0.1),
        if r.total > 0 then Score(c, r, q) else 0.0)
  }

  /** The listed rides among the first n, in table order. */
  function RowsUpTo(d: Db, c: Context, q: Query, user: UserId, n: nat): seq<Row>
    requires n <= |d.rides|
  {
    if n == 0 then []
    else RowsUpTo(d, c, q, user, n - 1) +
         if Listed(d, c, q, user, n - 1) then [RowOf(c, d.rides[n - 1], n - 1, q)] else []
  }

  function FindNearby(d: Db, c: Context, q: Query, user: UserId): seq<Row> {
    RowsUpTo(d, c, q, user, |d.rides|)
  }

  // ---- Agreement with booking ----------------------------------------------

  /** The booking request for the same points, with the 5000-metre proximity rule of booking. */
  function RequestFor(c: Context, r: Ride, q: Query, id: nat, key: string): CreateRequest {
    CreateRequest(key, id, Effective(q).seats, PickupAt(c, r, q), DropoffAt(c, r, q),
                  PickupMetres(c, r, q) <= 5000.0, DropoffMetres(c, r, q) <= 5000.0)
  }

  predicate Fraction(v: real) {
    0.0 <= v <= 1.0
  }

  /** Snapping only widens a segment. */
  lemma SnappingWidens(p: real, d: real)
    requires Fraction(p) && Fraction(d)
    ensures SnapPickup(p) <= p && d <= SnapDropoff(d)
  {
  }

  /** Exactly which pairs survive booking's order test: those in order, and those a snap puts in order. */
  lemma OrderTestIff(p: real, d: real)
    requires Fraction(p) && Fraction(d)
    ensures SnapPickup(p) < SnapDropoff(d) <==> p < d || (p < 0.05 && d > 0.0) || (d > 0.95 && p < 1.0)
  {
  }

  /**
   A booking that is accepted for two points was listed by a search for them with at least booking's
   radius of 5000 metres, unless the points were only put in order by a snap, or the ride departed
   exactly one hour ago, the one moment that booking admits and search does not.
   */
  lemma AcceptedIsListedIff(d: Db, c: Context, q: Query, user: UserId, id: nat, key: string)
    requires id < |d.rides| && q.radius >= 5000.0
    requires Fraction(PickupAt(c, d.rides[id], q)) && Fraction(DropoffAt(c, d.rides[id], q))
    requires CreateTx(d, c.now, user, RequestFor(c, d.rides[id], q, id, key)).Ok?
    ensures Listed(d, c, q, user, id) <==>
            PickupAt(c, d.rides[id], q) < DropoffAt(c, d.rides[id], q) && d.rides[id].departure != c.now - HOUR
  {
    var p, e := PickupAt(c, d.rides[id], q), DropoffAt(c, d.rides[id], q);
    SnappingWidens(p, e);
    OccupiedMonotone(d.bookings, id, p, e, SnapPickup(p), SnapDropoff(e));
  }

  /** Away from the ends, where nothing snaps, a 5000-metre search lists a rider exactly what the rider can book. */
  lemma ListedIffBookable(d: Db, c: Context, q: Query, user: UserId, id: nat, key: string)
    requires id < |d.rides| && q.radius == 5000.0 && user != ""
    requires Fraction(PickupAt(c, d.rides[id], q)) && Fraction(DropoffAt(c, d.rides[id], q))
    requires SnapPickup(PickupAt(c, d.rides[id], q)) == PickupAt(c, d.rides[id], q)
    requires SnapDropoff(DropoffAt(c, d.rides[id], q)) == DropoffAt(c, d.rides[id], q)
    ensures Listed(d, c, q, user, id)
            && (forall i :: 0 <= i < |d.bookings| && d.bookings[i].ride == id && d.bookings[i].rider == user ==>
                  d.bookings[i].status in {BookingStatus.Cancelled, BookingStatus.NoShow, BookingStatus.Completed}) <==>
            && CreateTx(d, c.now, user, RequestFor(c, d.rides[id], q, id, key)).Ok?
            && d.rides[id].departure != c.now - HOUR
  {
  }

  // ---- Whose search it was -------------------------------------------------

  predicate HasRow(rows: seq<Row>, id: nat) {
    exists k :: 0 <= k < |rows| && rows[k].id == id
  }

  lemma {:induction false} RowsAreListed(d: Db, c: Context, q: Query, user: UserId, n: nat, id: nat)
    requires n <= |d.rides|
    ensures HasRow(RowsUpTo(d, c, q, user, n), id) <==> id < n && Listed(d, c, q, user, id)
  {
    if n > 0 {
      RowsAreListed(d, c, q, user, n - 1, id);
      var before, rows := RowsUpTo(d, c, q, user, n - 1), RowsUpTo(d, c, q, user, n);
      assert forall k :: 0 <= k < |before| ==> rows[k] == before[k];
      if id == n - 1 && Listed(d, c, q, user, id) {
        assert rows[|before|].id == id;
      }
    }
  }

  lemma {:induction false} SameListSameRows(d: Db, c: Context, q: Query, u: UserId, v: UserId, n: nat)
    requires n <= |d.rides|
    requires forall id :: 0 <= id < |d.rides| ==> (Listed(d, c, q, u, id) <==> Listed(d, c, q, v, id))
    ensures RowsUpTo(d, c, q, u, n) == RowsUpTo(d, c, q, v, n)
  {
    if n > 0 {
      SameListSameRows(d, c, q, u, v, n - 1);
    }
  }

  /**
   The cache key leaves the searching user out. Two users' answers are the same exactly when every
   matching ride is shown to both or hidden from both.
   */
  lemma SameAnswerIff(d: Db, c: Context, q: Query, u: UserId, v: UserId)
    ensures FindNearby(d, c, q, u) == FindNearby(d, c, q, v) <==>
            (forall id :: 0 <= id < |d.rides| && Matches(d, c, q, id) ==>
               (ShownTo(d.rides[id], u) <==> ShownTo(d.rides[id], v)))
  {
    if FindNearby(d, c, q, u) == FindNearby(d, c, q, v) {
      forall id | 0 <= id < |d.rides| && Matches(d, c, q, id)
        ensures ShownTo(d.rides[id], u) <==> ShownTo(d.rides[id], v)
      {
        RowsAreListed(d, c, q, u, |d.rides|, id);
        RowsAreListed(d, c, q, v, |d.rides|, id);
      }
    }
    if forall id :: 0 <= id < |d.rides| && Matches(d, c, q, id) ==> (ShownTo(d.rides[id], u) <==> ShownTo(d.rides[id], v)) {
      SameListSameRows(d, c, q, u, v, |d.rides|);
    }
  }
}
