/** The search cache: which calls empty it, and why the others may leave it alone. */
module MatchCache {
  import opened Sums
  import opened Model
  import opened Fares
  import opened Capacity
  import opened Transactions
  import opened Endpoints
  import opened Effects
  import opened Lifecycle
  import opened Search

  datatype Key = Key(originLat: int, originLng: int, destLat: int, destLng: int, radius: int, seats: int)

  /** Coordinates to four decimals, as integers. */
  function Round4(v: real): int {
    RoundMoney(v * 10000.0)
  }

  /** Nearest integer, halves to the even neighbour, as number formatting does. */
  function RoundEven(v: real): int {
    var f := v.Floor;
    if v - f as real < 0.5 || (v - f as real == 0.5 && f % 2 == 0) then f else f + 1
  }

  function NearbyKey(q: Query): Key {
    var e := Effective(q);
    Key(Round4(q.originLat), Round4(q.originLng), Round4(q.destLat), Round4(q.destLng), RoundEven(e.radius), e.seats)
  }

  predicate Integral(v: real) {
    v.Floor as real == v
  }

  predicate OnGrid(q: Query) {
    && Integral(q.originLat * 10000.0) && Integral(q.originLng * 10000.0)
    && Integral(q.destLat * 10000.0) && Integral(q.destLng * 10000.0)
    && Integral(q.radius)
  }

  lemma RoundIntegral(v: real)
    requires Integral(v)
    ensures RoundMoney(v) as real == v && RoundEven(v) as real == v
  {
    var n := v.Floor;
    assert (n as real + 0.5).Floor == n;
    assert (-(n as real) + 0.5).Floor == -n;
  }

  lemma SameCoordinate(v: real, w: real)
    requires Integral(v * 10000.0) && Integral(w * 10000.0)
    ensures Round4(v) == Round4(w) <==> v == w
  {
    RoundIntegral(v * 10000.0);
    RoundIntegral(w * 10000.0);
  }

  /** On the grid, two searches share a key exactly when they ask the same question. */
  lemma SameKeyIff(q: Query, p: Query)
    requires OnGrid(q) && OnGrid(p)
    ensures NearbyKey(q) == NearbyKey(p) <==> Effective(q) == Effective(p)
  {
    SameCoordinate(q.originLat, p.originLat);
    SameCoordinate(q.originLng, p.originLng);
    SameCoordinate(q.destLat, p.destLat);
    SameCoordinate(q.destLng, p.destLng);
    RoundIntegral(Effective(q).radius);
    RoundIntegral(Effective(p).radius);
  }

  lemma {:induction false} EffectiveSameRows(d: Db, c: Context, q: Query, p: Query, user: UserId, n: nat)
    requires Effective(q) == Effective(p) && n <= |d.rides|
    ensures RowsUpTo(d, c, q, user, n) == RowsUpTo(d, c, p, user, n)
  {
    if n > 0 {
      EffectiveSameRows(d, c, q, p, user, n - 1);
      assert Effective(q).originLat == q.originLat && Effective(q).destLat == q.destLat;
      assert Effective(p).originLat == p.originLat && Effective(p).destLat == p.destLat;
      assert Effective(q).originLng == q.originLng && Effective(q).destLng == q.destLng;
      assert Effective(p).originLng == p.originLng && Effective(p).destLng == p.destLng;
    }
  }

  // ---- Calls that leave every answer unchanged -----------------------------

  /** A stretch of the route that a search can ask for. */
  predicate Segment(p: real, q: real) {
    0.0 <= p < q <= 1.0
  }

  /** What a search sees of a ride's occupancy: the seats still free on the segment. */
  function Free(d: Db, r: nat, p: real, q: real): nat
    requires r < |d.rides|
  {
    var occupied := Occupied(d.bookings, r, p, q);
    if occupied <= d.rides[r].total then d.rides[r].total - occupied else 0
  }

  /** The same rides, and the same free seats on every segment of every ride that can be listed. */
  ghost predicate SameAnswers(d: Db, d': Db) {
    && d'.rides == d.rides
    && (forall r, p: real, q: real :: 0 <= r < |d.rides| && Bookable(d.rides[r].status) && Segment(p, q) ==>
          Free(d', r, p, q) == Free(d, r, p, q))
  }

  /** The spatial database places every point within the route. */
  ghost predicate OnRoute(c: Context) {
    forall route, lat, lng :: 0.0 <= c.geo.locate(route, lat, lng) <= 1.0
  }

  lemma {:induction false} SameAnswersSameRows(d: Db, d': Db, c: Context, q: Query, user: UserId, n: nat)
    requires SameAnswers(d, d') && OnRoute(c) && n <= |d.rides|
    ensures RowsUpTo(d', c, q, user, n) == RowsUpTo(d, c, q, user, n)
  {
    if n > 0 {
      SameAnswersSameRows(d, d', c, q, user, n - 1);
      SameListing(d, d', c, q, user, n - 1);
    }
  }

  lemma SameListing(d: Db, d': Db, c: Context, q: Query, user: UserId, id: nat)
    requires SameAnswers(d, d') && OnRoute(c) && id < |d.rides|
    ensures Listed(d', c, q, user, id) == Listed(d, c, q, user, id)
  {
    var r := d.rides[id];
    var p, e := PickupAt(c, r, q), DropoffAt(c, r, q);
    if Bookable(r.status) && p < e {
      assert Segment(p, e);
      assert Free(d', id, p, e) == Free(d, id, p, e);
    }
  }

  /** No search, by anyone, at any time, with any points of any route, tells the two apart. */
  ghost predicate SearchesAgree(d: Db, d': Db) {
    forall c, q, user :: OnRoute(c) ==> FindNearby(d', c, q, user) == FindNearby(d, c, q, user)
  }

  /** A search for n seats from p to q, made when the ride departs. */
  function Probe(departure: int, p: real, q: real): Context {
    Context(Geo((route, lat, lng) => if lat == 1.0 then p else q, (route, lat, lng) => 0.0), user => 0.0, departure)
  }

  function ProbeQuery(n: nat): Query {
    Query(1.0, 1.0, 2.0, 2.0, 1000.0, n)
  }

  lemma ProbeSeesFree(d: Db, r: nat, p: real, q: real, n: nat)
    requires r < |d.rides| && Bookable(d.rides[r].status) && Segment(p, q) && n >= 1
    ensures OnRoute(Probe(d.rides[r].departure, p, q))
    ensures Listed(d, Probe(d.rides[r].departure, p, q), ProbeQuery(n), "", r) <==> Free(d, r, p, q) >= n
  {
  }

  lemma ProbesAgree(d: Db, d': Db, r: nat, p: real, q: real, n: nat)
    requires d'.rides == d.rides && SearchesAgree(d, d')
    requires r < |d.rides| && Bookable(d.rides[r].status) && Segment(p, q) && n >= 1
    ensures Free(d, r, p, q) >= n <==> Free(d', r, p, q) >= n
  {
    var c, query := Probe(d.rides[r].departure, p, q), ProbeQuery(n);
    ProbeSeesFree(d, r, p, q, n);
    ProbeSeesFree(d', r, p, q, n);
    RowsAreListed(d, c, query, "", |d.rides|, r);
    RowsAreListed(d', c, query, "", |d.rides|, r);
    assert FindNearby(d', c, query, "") == FindNearby(d, c, query, "");
  }

  lemma AgreementIsSameFree(d: Db, d': Db, r: nat, p: real, q: real)
    requires d'.rides == d.rides && SearchesAgree(d, d')
    requires r < |d.rides| && Bookable(d.rides[r].status) && Segment(p, q)
    ensures Free(d', r, p, q) == Free(d, r, p, q)
  {
    if Free(d, r, p, q) >= 1 {
      ProbesAgree(d, d', r, p, q, Free(d, r, p, q));
    }
    if Free(d', r, p, q) >= 1 {
      ProbesAgree(d, d', r, p, q, Free(d', r, p, q));
    }
  }

  /** Over unchanged rides, searches agree exactly when the free seats do. */
  lemma SearchesAgreeIff(d: Db, d': Db)
    requires d'.rides == d.rides
    ensures SearchesAgree(d, d') <==> SameAnswers(d, d')
  {
    if SearchesAgree(d, d') {
      forall r, p: real, q: real | 0 <= r < |d.rides| && Bookable(d.rides[r].status) && Segment(p, q)
        ensures Free(d', r, p, q) == Free(d, r, p, q)
      {
        AgreementIsSameFree(d, d', r, p, q);
      }
    }
    if SameAnswers(d, d') {
      forall c, q, user | OnRoute(c)
        ensures FindNearby(d', c, q, user) == FindNearby(d, c, q, user)
      {
        SameAnswersSameRows(d, d', c, q, user, |d.rides|);
      }
    }
  }

  /** Seats are held by the same bookings on the ride before and after. */
  ghost predicate SameSeats(bs: seq<Booking>, out: seq<Booking>, r: nat) {
    Lighter(bs, out, r) && forall i :: 0 <= i < |bs| && bs[i].ride == r && Occupies(bs[i].status) ==> Occupies(out[i].status)
  }

  lemma SameSeatsSameOccupancy(bs: seq<Booking>, out: seq<Booking>, r: nat, p: real, q: real)
    requires SameSeats(bs, out, r)
    ensures Occupied(out, r, p, q) == Occupied(bs, r, p, q)
  {
    var n := |bs|;
    LighterOccupied(bs, out, r, p, q);
    assert Lighter(out[..n], bs, r);
    LighterOccupied(out[..n], bs, r, p, q);
    assert OccupiedWeights(out, r, p, q)[..n] == OccupiedWeights(out[..n], r, p, q);
    assert Lighter(out[..n], out, r);
    OccupiedOfPrefix(out, n, r, p, q);
  }

  lemma {:induction false} OccupiedOfPrefix(bs: seq<Booking>, n: nat, r: nat, p: real, q: real)
    requires n <= |bs| && forall i :: n <= i < |bs| ==> bs[i].ride == r ==> !Occupies(bs[i].status)
    ensures Occupied(bs, r, p, q) == Occupied(bs[..n], r, p, q)
  {
    if n == |bs| {
      assert bs[..n] == bs;
    } else {
      var m := |bs| - 1;
      assert bs[..m][..n] == bs[..n];
      assert OccupiedWeights(bs, r, p, q)[..m] == OccupiedWeights(bs[..m], r, p, q);
      OccupiedOfPrefix(bs[..m], n, r, p, q);
    }
  }

  /** The three calls that do not empty the cache. */
  predicate KeepsCache(c: Call) {
    c.CallCreate? || c.CallReady? || c.CallPickUp?
  }

  lemma KeepingCallsKeepSeats(d: Db, c: Call, r: nat)
    requires KeepsCache(c)
    ensures ServeDb(d, c).rides == d.rides && SameSeats(d.bookings, ServeDb(d, c).bookings, r)
  {
  }

  /** A new pending booking, a rider reporting ready and a pick-up change no answer. */
  lemma KeepingCallsKeepAnswers(d: Db, c: Call)
    requires KeepsCache(c)
    ensures SameAnswers(d, ServeDb(d, c))
  {
    forall r, p: real, q: real | 0 <= r < |d.rides|
      ensures Occupied(ServeDb(d, c).bookings, r, p, q) == Occupied(d.bookings, r, p, q)
    {
      KeepingCallsKeepSeats(d, c, r);
      SameSeatsSameOccupancy(d.bookings, ServeDb(d, c).bookings, r, p, q);
    }
    KeepingCallsKeepSeats(d, c, 0);
  }

  function StayingWeight(b: Booking, ride: nat, p: real, q: real): nat {
    if b.status.PickedUp? then OccupiedWeight(b, ride, p, q) else 0
  }

  function StayingWeights(bs: seq<Booking>, ride: nat, p: real, q: real): seq<nat> {
    seq(|bs|, i requires 0 <= i < |bs| => StayingWeight(bs[i], ride, p, q))
  }

  /** Seats on the segment that riders on board keep through a cascade. */
  function Staying(bs: seq<Booking>, ride: nat, p: real, q: real): nat {
    Sum(StayingWeights(bs, ride, p, q))
  }

  /** The cascade takes seats back from the booking. */
  predicate GivesBack(b: Booking, ride: nat) {
    b.ride == ride && Credited(b.status)
  }

  /** Wherever the cascade takes seats back, the riders on board alone fill the ride. */
  ghost predicate HiddenBelow(bs: seq<Booking>, ride: nat, total: nat) {
    forall i, p: real, q: real :: 0 <= i < |bs| && GivesBack(bs[i], ride) && Segment(p, q) && Overlaps(bs[i], p, q) ==>
      Staying(bs, ride, p, q) >= total
  }

  /** A cascade that changes no answer: its ride is not listed any more, or what it gives back stays hidden. */
  ghost predicate Harmless(d: Db, ride: nat) {
    || ride >= |d.rides| || !Bookable(d.rides[ride].status)
    || HiddenBelow(d.bookings, ride, d.rides[ride].total)
  }

  lemma CascadeElsewhere(d: Db, ride: nat, r: nat, p: real, q: real)
    requires r != ride
    ensures Occupied(Cascaded(d, ride).bookings, r, p, q) == Occupied(d.bookings, r, p, q)
  {
    assert OccupiedWeights(Cascaded(d, ride).bookings, r, p, q) == OccupiedWeights(d.bookings, r, p, q);
  }

  /** After the cascade only the riders on board occupy the segment; where nothing comes back, they alone did before. */
  lemma CascadeLeavesStaying(d: Db, ride: nat, p: real, q: real)
    ensures Occupied(Cascaded(d, ride).bookings, ride, p, q) == Staying(d.bookings, ride, p, q)
    ensures Staying(d.bookings, ride, p, q) <= Occupied(d.bookings, ride, p, q)
    ensures (forall i :: 0 <= i < |d.bookings| && GivesBack(d.bookings[i], ride) ==> !Overlaps(d.bookings[i], p, q)) ==>
              Occupied(d.bookings, ride, p, q) == Staying(d.bookings, ride, p, q)
  {
    var w := StayingWeights(d.bookings, ride, p, q);
    assert OccupiedWeights(Cascaded(d, ride).bookings, ride, p, q) == w;
    SumDominated(OccupiedWeights(d.bookings, ride, p, q), w);
    if forall i :: 0 <= i < |d.bookings| && GivesBack(d.bookings[i], ride) ==> !Overlaps(d.bookings[i], p, q) {
      assert OccupiedWeights(d.bookings, ride, p, q) == w;
    }
  }

  lemma GivingBackShows(d: Db, ride: nat, i: nat, p: real, q: real)
    requires Wf(d) && i < |d.bookings| && GivesBack(d.bookings[i], ride) && Overlaps(d.bookings[i], p, q)
    ensures Staying(d.bookings, ride, p, q) < Occupied(d.bookings, ride, p, q)
  {
    var w, v := OccupiedWeights(d.bookings, ride, p, q), StayingWeights(d.bookings, ride, p, q);
    assert v[i] == 0 && w[i] >= 1;
    OneLighter(w, v, i);
  }

  lemma HarmlessKeepsAnswers(d: Db, ride: nat)
    requires Harmless(d, ride)
    ensures SameAnswers(d, Cascaded(d, ride))
  {
    forall r, p: real, q: real | 0 <= r < |d.rides| && Bookable(d.rides[r].status) && Segment(p, q)
      ensures Free(Cascaded(d, ride), r, p, q) == Free(d, r, p, q)
    {
      if r != ride {
        CascadeElsewhere(d, ride, r, p, q);
      } else {
        CascadeLeavesStaying(d, ride, p, q);
      }
    }
  }

  /**
   The background cancellation changes no answer to any search exactly when its ride is not bookable
   any more, or the riders on board alone fill it wherever seats come back.
   */
  lemma CascadeKeepsAnswersIff(d: Db, ride: nat)
    requires Wf(d) && ride < |d.rides|
    ensures SearchesAgree(d, Cascaded(d, ride)) <==>
            !Bookable(d.rides[ride].status) || HiddenBelow(d.bookings, ride, d.rides[ride].total)
  {
    SearchesAgreeIff(d, Cascaded(d, ride));
    if Harmless(d, ride) {
      HarmlessKeepsAnswers(d, ride);
    } else {
      var i, p: real, q: real :| 0 <= i < |d.bookings| && GivesBack(d.bookings[i], ride) && Segment(p, q)
                                 && Overlaps(d.bookings[i], p, q) && Staying(d.bookings, ride, p, q) < d.rides[ride].total;
      CascadeLeavesStaying(d, ride, p, q);
      GivingBackShows(d, ride, i, p, q);
      assert Free(Cascaded(d, ride), ride, p, q) != Free(d, ride, p, q);
    }
  }

  function OnBoardWeights(bs: seq<Booking>, ride: nat): seq<nat> {
    seq(|bs|, i requires 0 <= i < |bs| => if bs[i].ride == ride && bs[i].status.PickedUp? then bs[i].seats else 0)
  }

  /** With a seat to spare beside the riders on board, that is exactly when every seat comes back within 2% of an end of the route. */
  lemma HiddenBelowIff(bs: seq<Booking>, ride: nat, total: nat)
    requires Sum(OnBoardWeights(bs, ride)) < total
    ensures HiddenBelow(bs, ride, total) <==>
            (forall i :: 0 <= i < |bs| && GivesBack(bs[i], ride) ==> bs[i].dropoff <= 0.02 || bs[i].pickup >= 0.98)
  {
    SumDominated(OnBoardWeights(bs, ride), StayingWeights(bs, ride, 0.0, 1.0));
    if HiddenBelow(bs, ride, total) {
      forall i | 0 <= i < |bs| && GivesBack(bs[i], ride)
        ensures bs[i].dropoff <= 0.02 || bs[i].pickup >= 0.98
      {
        assert Segment(0.0, 1.0);
        assert !Overlaps(bs[i], 0.0, 1.0);
      }
    }
  }

  // ---- Sessions ------------------------------------------------------------

  type Cache = map<Key, seq<Row>>

  datatype Site = Site(world: World, cache: Cache)

  datatype Visit = Act(event: Event) | Find(q: Query) | Expire(key: Key)

  predicate Empties(d: Db, e: Event) {
    e.Request? && Serve(d, e.call).Ok? && !KeepsCache(e.call)
  }

  /** Searches without coordinates are refused before they reach the tables. */
  predicate Searchable(q: Query) {
    q.originLat != 0.0 && q.originLng != 0.0 && q.destLat != 0.0 && q.destLng != 0.0
  }

  /** The answer a search gets: the cached one if there is one. */
  function Answer(s: Site, c: Context, user: UserId, q: Query): seq<Row> {
    if NearbyKey(q) in s.cache then s.cache[NearbyKey(q)] else FindNearby(s.world.db, c, q, user)
  }

  /** A successful call empties the cache unless it is one of the three that need not. */
  function Acted(s: Site, e: Event): Site {
    Site(After(s.world, e), if Empties(s.world.db, e) then map[] else s.cache)
  }

  function Visited(s: Site, c: Context, user: UserId, v: Visit): Site {
    match v
    case Act(e) => Acted(s, e)
    case Find(q) => if Searchable(q) then s.(cache := s.cache[NearbyKey(q) := Answer(s, c, user, q)]) else s
    case Expire(k) => s.(cache := s.cache - {k})
  }

  function Session(vs: seq<Visit>, c: Context, user: UserId): Site {
    if vs == [] then Site(World(EMPTY, {}), map[])
    else Visited(Session(vs[..|vs| - 1], c, user), c, user, vs[|vs| - 1])
  }

  /** Searches stay on the grid, and a background cancellation that runs is harmless. */
  ghost predicate Proper(w: World, v: Visit) {
    && (v.Find? ==> OnGrid(v.q))
    && (v.Act? && v.event.Cascade? && v.event.ride in w.due ==> Harmless(w.db, v.event.ride))
  }

  ghost predicate AllProper(vs: seq<Visit>, c: Context, user: UserId) {
    vs != [] ==>
      Proper(Session(vs[..|vs| - 1], c, user).world, vs[|vs| - 1]) && AllProper(vs[..|vs| - 1], c, user)
  }

  /** Every cached entry a grid search can hit is what a fresh search would return. */
  ghost predicate Coherent(s: Site, c: Context, user: UserId) {
    forall q :: OnGrid(q) && NearbyKey(q) in s.cache ==> s.cache[NearbyKey(q)] == FindNearby(s.world.db, c, q, user)
  }

  lemma VisitKeepsCoherence(s: Site, c: Context, user: UserId, v: Visit)
    requires OnRoute(c) && Proper(s.world, v) && Coherent(s, c, user)
    ensures Coherent(Visited(s, c, user, v), c, user)
  {
    var s' := Visited(s, c, user, v);
    forall q | OnGrid(q) && NearbyKey(q) in s'.cache
      ensures s'.cache[NearbyKey(q)] == FindNearby(s'.world.db, c, q, user)
    {
      match v
      case Find(p) =>
        if NearbyKey(p) == NearbyKey(q) {
          SameKeyIff(p, q);
          EffectiveSameRows(s.world.db, c, p, q, user, |s.world.db.rides|);
        }
      case Expire(_) =>
      case Act(e) =>
        match e
        case Request(call) =>
          if Serve(s.world.db, call).Ok? {
            KeepingCallsKeepAnswers(s.world.db, call);
            SameAnswersSameRows(s.world.db, s'.world.db, c, q, user, |s.world.db.rides|);
          }
        case Cascade(ride) =>
          if ride in s.world.due {
            HarmlessKeepsAnswers(s.world.db, ride);
            SameAnswersSameRows(s.world.db, s'.world.db, c, q, user, |s.world.db.rides|);
          }
    }
  }

  /** In every proper session the cache is coherent, so every search is answered as if there were no cache. */
  lemma {:induction false} EverySessionIsCoherent(vs: seq<Visit>, c: Context, user: UserId)
    requires AllProper(vs, c, user) && OnRoute(c)
    ensures Coherent(Session(vs, c, user), c, user)
    ensures forall q :: OnGrid(q) ==>
              Answer(Session(vs, c, user), c, user, q) == FindNearby(Session(vs, c, user).world.db, c, q, user)
  {
    if vs != [] {
      var s := Session(vs[..|vs| - 1], c, user);
      EverySessionIsCoherent(vs[..|vs| - 1], c, user);
      VisitKeepsCoherence(s, c, user, vs[|vs| - 1]);
    }
  }

  // ---- Which sessions are proper -------------------------------------------

  /** Searches stay on the grid, and no ride awaiting its background cancellation is set active by hand. */
  ghost predicate Careful(w: World, v: Visit) {
    && (v.Find? ==> OnGrid(v.q))
    && (v.Act? && IsManual(v.event) && v.event.call.status.Active? ==> v.event.call.ride !in w.due)
  }

  ghost predicate AllCareful(vs: seq<Visit>, c: Context, user: UserId) {
    vs != [] ==>
      Careful(Session(vs[..|vs| - 1], c, user).world, vs[|vs| - 1]) && AllCareful(vs[..|vs| - 1], c, user)
  }

  ghost predicate DueAreUnlisted(w: World) {
    forall r :: r in w.due ==> r < |w.db.rides| && !Bookable(w.db.rides[r].status)
  }

  lemma TimelyKeepsUnlisted(d: Db, t: Txn, r: nat)
    requires Timely(d, t) && r < |d.rides| && !Bookable(d.rides[r].status)
    ensures r < |Exec(d, t).rides| && !Bookable(Exec(d, t).rides[r].status)
  {
    ExecKeepsRows(d, t);
    RideEdges(d, t, r);
  }

  lemma ServeKeepsUnlisted(d: Db, c: Call, r: nat)
    requires r < |d.rides| && !Bookable(d.rides[r].status)
    requires c.CallManualStatus? && c.status.Active? ==> c.ride != r
    ensures r < |ServeDb(d, c).rides| && !Bookable(ServeDb(d, c).rides[r].status)
  {
    if !c.CallManualStatus? {
      var ts := TxnsOf(d, c);
      ServeRunsItsTxns(d, c);
      ServeIsTimely(d, c);
      if |ts| == 1 {
        RunOne(d, ts[0]);
        assert ts == [ts[0]];
        TimelyKeepsUnlisted(d, ts[0], r);
      } else if |ts| == 2 {
        RunTwo(d, ts[0], ts[1]);
        assert ts == [ts[0], ts[1]];
        TimelyKeepsUnlisted(d, ts[0], r);
        TimelyKeepsUnlisted(Exec(d, ts[0]), ts[1], r);
      }
    }
  }

  lemma VisitKeepsUnlisted(s: Site, c: Context, user: UserId, v: Visit)
    requires DueAreUnlisted(s.world) && Careful(s.world, v)
    ensures DueAreUnlisted(Visited(s, c, user, v).world)
  {
    if v.Act? && v.event.Request? {
      var w' := After(s.world, v.event);
      forall r | r in s.world.due
        ensures r < |w'.db.rides| && !Bookable(w'.db.rides[r].status)
      {
        ServeKeepsUnlisted(s.world.db, v.event.call, r);
      }
    }
  }

  /** A session in which nobody sets a ride active by hand while its cascade is due is proper. */
  lemma {:induction false} CarefulIsProper(vs: seq<Visit>, c: Context, user: UserId)
    requires AllCareful(vs, c, user)
    ensures AllProper(vs, c, user) && DueAreUnlisted(Session(vs, c, user).world)
  {
    if vs != [] {
      CarefulIsProper(vs[..|vs| - 1], c, user);
      VisitKeepsUnlisted(Session(vs[..|vs| - 1], c, user), c, user, vs[|vs| - 1]);
    }
  }
}
