/**
 The fixed-window rate limiter: one counter per client, expiring a fixed time after its first hit.
 Times are in milliseconds, as the store keeps expiries; windows are configured in seconds.
 */
module RateLimit {
  import opened Options

  /** A stored counter; it has no expiry until the request that created it sets one. */
  datatype Entry = Entry(count: nat, expires: Option<int>)

  datatype Config = Config(max: nat, windowSecs: nat)

  predicate ValidConfig(c: Config) {
    c.max > 0 && c.windowSecs > 0
  }

  /** The counter as the store sees it at a moment: gone once its expiry is reached. */
  function Live(e: Option<Entry>, now: int): Option<Entry> {
    if e.Some? && e.value.expires.Some? && now >= e.value.expires.value then None else e
  }

  function Increment(e: Option<Entry>, now: int): Entry {
    if Live(e, now).Some? then e.value.(count := e.value.count + 1) else Entry(1, None)
  }

  function SetExpiry(e: Entry, now: int, windowSecs: nat): Entry {
    e.(expires := Some(now + 1000 * windowSecs))
  }

  /** Seconds until the counter expires, rounded by the store; a full window when it has no expiry. */
  function Ttl(e: Entry, now: int, windowSecs: nat): int {
    if e.expires.Some? && e.expires.value > now then (e.expires.value - now + 500) / 1000 else windowSecs
  }

  /** The counter after one uninterrupted request. */
  function Requested(e: Option<Entry>, now: int, later: int, windowSecs: nat): Entry {
    var hit := Increment(e, now);
    if hit.count == 1 then SetExpiry(hit, later, windowSecs) else hit
  }

  /** The reported time to live is the remaining time to the nearest second; when it and half a second more have passed, the counter is gone. */
  lemma TtlMeans(e: Entry, now: int, windowSecs: nat)
    ensures e.expires.None? ==> Ttl(e, now, windowSecs) == windowSecs
    ensures e.expires.Some? && now < e.expires.value ==>
              && -500 <= 1000 * Ttl(e, now, windowSecs) - (e.expires.value - now) <= 500
              && Live(Some(e), now + 1000 * Ttl(e, now, windowSecs) + 500).None?
  {
  }

  datatype Decision = Allowed(remaining: nat) | Blocked(retryAfter: int)

  class Limiter {
    const config: Config
    var counters: map<string, Entry>

    constructor (config: Config)
      requires ValidConfig(config)
      ensures this.config == config && counters == map[]
    {
      this.config, counters := config, map[];
    }

    function Stored(key: string): Option<Entry>
      reads this
    {
      if key in counters then Some(counters[key]) else None
    }

    /** Increments the counter, and starts its window on the first hit; `later` is when the expiry is set. */
    method IncrementCounter(key: string, now: int, later: int) returns (count: nat, ttl: int)
      requires now <= later
      modifies this
      ensures count == Increment(old(Stored(key)), now).count
      ensures Stored(key) == Some(Requested(old(Stored(key)), now, later, config.windowSecs))
      ensures ttl == Ttl(Stored(key).value, later, config.windowSecs)
      ensures forall k :: k != key ==> Stored(k) == old(Stored(k))
    {
      var entry := Increment(Stored(key), now);
      counters := counters[key := entry];
      count := entry.count;
      if count == 1 {
        counters := counters[key := SetExpiry(entry, later, config.windowSecs)];
      }
      ttl := Ttl(counters[key], later, config.windowSecs);
    }

    /** Allows a request exactly when its count in the current window is at most the maximum. */
    method Handle(ip: string, now: int, later: int) returns (d: Decision)
      requires now <= later
      modifies this
      ensures Stored("ratelimit:" + ip) == Some(Requested(old(Stored("ratelimit:" + ip)), now, later, config.windowSecs))
      ensures d.Blocked? ==> d.retryAfter == Ttl(Stored("ratelimit:" + ip).value, later, config.windowSecs)
      ensures d.Allowed? <==> Increment(old(Stored("ratelimit:" + ip)), now).count <= config.max
      ensures d.Allowed? ==> d.remaining == config.max - Increment(old(Stored("ratelimit:" + ip)), now).count
    {
      var count, ttl := IncrementCounter("ratelimit:" + ip, now, later);
      var remaining := config.max - count;
      if remaining < 0 {
        remaining := 0;
      }
      if count > config.max {
        return Blocked(ttl);
      }
      return Allowed(remaining);
    }
  }

  /**
   What a blocked client is told is enough: when no other request comes, a request made that many
   seconds and half a second later opens a new window and is allowed.
   */
  lemma RetryAfterIsEnough(e: Option<Entry>, now: int, later: int, c: Config, again: int)
    requires ValidConfig(c) && now <= later
    requires var stored := Requested(e, now, later, c.windowSecs);
             && stored.expires.Some? && later < stored.expires.value
             && again >= later + 1000 * Ttl(stored, later, c.windowSecs) + 500
    ensures Increment(Some(Requested(e, now, later, c.windowSecs)), again) == Entry(1, None)
  {
    TtlMeans(Requested(e, now, later, c.windowSecs), later, c.windowSecs);
  }

  // ---- Every interleaving on one counter -----------------------------------

  /** The length of a window in milliseconds. */
  function Window(c: Config): nat {
    1000 * c.windowSecs
  }

  /** A request's increment, and the later command with which the first request of a window sets its expiry. */
  datatype Event = Hit(at: int) | Arm(at: int)

  predicate Ordered(es: seq<Event>) {
    forall i, j :: 0 <= i < j < |es| ==> es[i].at <= es[j].at
  }

  /** The stored counter after the events; only the request that saw count 1 arms, and it does so once. */
  function After(es: seq<Event>, c: Config): Option<Entry> {
    if es == [] then None
    else
      var before, e := After(es[..|es| - 1], c), es[|es| - 1];
      match e
      case Hit(at) => Some(Increment(before, at))
      case Arm(at) =>
        if before.Some? && before.value.expires.None? then Some(SetExpiry(before.value, at, c.windowSecs)) else before
  }

  lemma {:induction false} CountsArePositive(es: seq<Event>, c: Config)
    ensures After(es, c).Some? ==> After(es, c).value.count >= 1
  {
    if es != [] {
      CountsArePositive(es[..|es| - 1], c);
    }
  }

  /** A request that is not interrupted is its hit and, for the first of a window, its arming. */
  lemma RequestIsItsEvents(es: seq<Event>, c: Config, now: int, later: int)
    ensures var hit := es + [Hit(now)];
            Some(Requested(After(es, c), now, later, c.windowSecs))
            == if Increment(After(es, c), now).count == 1 then After(hit + [Arm(later)], c) else After(hit, c)
  {
    CountsArePositive(es, c);
    assert (es + [Hit(now)])[..|es|] == es;
    assert (es + [Hit(now)] + [Arm(later)])[..|es| + 1] == es + [Hit(now)];
  }

  function CountSeen(es: seq<Event>, c: Config, k: nat): nat
    requires k < |es| && es[k].Hit?
  {
    Increment(After(es[..k], c), es[k].at).count
  }

  predicate Admitted(es: seq<Event>, c: Config, k: nat)
    requires k < |es|
  {
    es[k].Hit? && CountSeen(es, c, k) <= c.max
  }

  /** Event k is the first hit of a window. */
  predicate Opens(es: seq<Event>, c: Config, k: nat)
    requires k < |es|
  {
    es[k].Hit? && CountSeen(es, c, k) == 1
  }

  /** Requests admitted in the half-open interval of one window length that starts at `from`. */
  function AdmittedFrom(es: seq<Event>, c: Config, from: int): nat {
    if es == [] then 0
    else
      var k := |es| - 1;
      AdmittedFrom(es[..k], c, from) + if Admitted(es, c, k) && from <= es[k].at < from + Window(c) then 1 else 0
  }

  /** The last window opened, and how many requests it has admitted. */
  datatype Opening = Opening(start: int, admitted: nat)

  function LastWindow(es: seq<Event>, c: Config): Option<Opening> {
    if es == [] then None
    else
      var k := |es| - 1;
      var w := LastWindow(es[..k], c);
      if Opens(es, c, k) then Some(Opening(es[k].at, if c.max >= 1 then 1 else 0))
      else if Admitted(es, c, k) && w.Some? then Some(w.value.(admitted := w.value.admitted + 1))
      else w
  }

  /** The counter counts the hits of its window, and its expiry is at least a window after the opening. */
  lemma {:induction false} WindowInvariant(es: seq<Event>, c: Config)
    requires ValidConfig(c) && Ordered(es)
    ensures After(es, c).Some? <==> LastWindow(es, c).Some?
    ensures LastWindow(es, c).Some? ==>
              var e, w := After(es, c).value, LastWindow(es, c).value;
              && e.count >= 1
              && w.admitted == (if e.count <= c.max then e.count else c.max)
              && (e.expires.Some? ==> e.expires.value >= w.start + Window(c))
              && es != [] && w.start <= es[|es| - 1].at
  {
    if es != [] {
      var k := |es| - 1;
      WindowInvariant(es[..k], c);
      if k > 0 {
        assert es[k - 1].at <= es[k].at;
      }
    }
  }

  /** Each window admits at most the maximum. */
  lemma WindowAdmitsAtMostMax(es: seq<Event>, c: Config)
    requires ValidConfig(c) && Ordered(es) && LastWindow(es, c).Some?
    ensures LastWindow(es, c).value.admitted <= c.max
  {
    WindowInvariant(es, c);
  }

  lemma {:induction false} OpenedAfterOpening(es: seq<Event>, c: Config, i: nat)
    requires ValidConfig(c) && Ordered(es) && i < |es| && Opens(es, c, i)
    ensures LastWindow(es, c).Some? && LastWindow(es, c).value.start >= es[i].at
  {
    var k := |es| - 1;
    if i < k {
      assert es[..k][..i] == es[..i];
      OpenedAfterOpening(es[..k], c, i);
    }
  }

  /** Windows are disjoint and at least a window length long: two openings are that far apart. */
  lemma OpeningsAreApart(es: seq<Event>, c: Config, i: nat, j: nat)
    requires ValidConfig(c) && Ordered(es) && i < j < |es| && Opens(es, c, i) && Opens(es, c, j)
    ensures es[j].at >= es[i].at + Window(c)
  {
    assert es[..j][..i] == es[..i];
    OpenedAfterOpening(es[..j], c, i);
    WindowInvariant(es[..j], c);
  }

  /** Requests admitted in the interval by the current window, and by earlier ones. */
  datatype Tally = Tally(now: nat, before: nat)

  function TallyOf(es: seq<Event>, c: Config, from: int): Tally {
    if es == [] then Tally(0, 0)
    else
      var k := |es| - 1;
      var t := TallyOf(es[..k], c, from);
      var hit := if Admitted(es, c, k) && from <= es[k].at < from + Window(c) then 1 else 0;
      if Opens(es, c, k) then Tally(hit, t.before + t.now) else t.(now := t.now + hit)
  }

  lemma {:induction false} TallyCounts(es: seq<Event>, c: Config, from: int)
    ensures AdmittedFrom(es, c, from) == TallyOf(es, c, from).now + TallyOf(es, c, from).before
  {
    if es != [] {
      TallyCounts(es[..|es| - 1], c, from);
    }
  }

  /**
   An earlier window that contributes opened before the interval, since otherwise the next one opens
   after it; so its own first request is not counted.
   */
  ghost predicate TallyOk(t: Tally, w: Opening, last: int, c: Config, from: int) {
    && t.now <= w.admitted <= c.max
    && (w.start < from ==> t.now <= w.admitted - 1)
    && t.now + t.before <= 2 * c.max - 1
    && (last < from + Window(c) ==> t.before <= c.max - 1 && (t.before > 0 ==> w.start >= from))
    && (last < from ==> t.now == 0 && t.before == 0)
  }

  lemma {:induction false} TallyInvariant(es: seq<Event>, c: Config, from: int)
    requires ValidConfig(c) && Ordered(es)
    ensures if LastWindow(es, c).Some? && es != []
            then TallyOk(TallyOf(es, c, from), LastWindow(es, c).value, es[|es| - 1].at, c, from)
            else TallyOf(es, c, from) == Tally(0, 0)
  {
    if es != [] {
      var k := |es| - 1;
      TallyInvariant(es[..k], c, from);
      WindowInvariant(es[..k], c);
      WindowInvariant(es, c);
      if k > 0 {
        assert es[k - 1].at <= es[k].at;
      }
    }
  }

  /** Any half-open interval of one window length admits at most 2 max - 1. */
  lemma AnyIntervalAdmitsLessThanDouble(es: seq<Event>, c: Config, from: int)
    requires ValidConfig(c) && Ordered(es)
    ensures AdmittedFrom(es, c, from) <= 2 * c.max - 1
  {
    TallyCounts(es, c, from);
    TallyInvariant(es, c, from);
  }

  // ---- The bound is reached ------------------------------------------------

  /** n more requests at one moment. */
  function Hits(es: seq<Event>, n: nat, at: int): seq<Event> {
    if n == 0 then es else Hits(es, n - 1, at) + [Hit(at)]
  }

  /** A request that opens a window, and the rest of the window's quota at one later moment. */
  function Burst(es: seq<Event>, c: Config, open: int, at: int): seq<Event>
    requires ValidConfig(c)
  {
    Hits(es + [Hit(open), Arm(open)], c.max - 1, at)
  }

  /** A window is opened at 0; the rest of its quota comes in its last millisecond, and the next full quota two milliseconds later. */
  function TwoBursts(c: Config): seq<Event>
    requires ValidConfig(c)
  {
    Burst(Burst([], c, 0, Window(c) - 1), c, Window(c) + 1, Window(c) + 1)
  }

  lemma OneMoreHit(es: seq<Event>, c: Config, at: int, from: int)
    requires After(es, c).Some? && After(es, c).value.expires.Some? && at < After(es, c).value.expires.value
    requires After(es, c).value.count < c.max && from <= at < from + Window(c)
    ensures After(es + [Hit(at)], c) == Some(Entry(After(es, c).value.count + 1, After(es, c).value.expires))
    ensures AdmittedFrom(es + [Hit(at)], c, from) == AdmittedFrom(es, c, from) + 1
  {
    assert (es + [Hit(at)])[..|es|] == es;
  }

  /** Requests that follow an armed opening within its window are all admitted, up to the maximum. */
  lemma {:induction false} BurstIsAdmitted(es: seq<Event>, c: Config, n: nat, at: int, from: int)
    requires After(es, c).Some? && After(es, c).value.expires.Some? && at < After(es, c).value.expires.value
    requires After(es, c).value.count + n <= c.max && from <= at < from + Window(c)
    ensures After(Hits(es, n, at), c) == Some(Entry(After(es, c).value.count + n, After(es, c).value.expires))
    ensures AdmittedFrom(Hits(es, n, at), c, from) == AdmittedFrom(es, c, from) + n
  {
    if n > 0 {
      BurstIsAdmitted(es, c, n - 1, at, from);
      OneMoreHit(Hits(es, n - 1, at), c, at, from);
    }
  }

  /** An armed opening, after everything before it has expired. */
  lemma OpeningIsArmed(es: seq<Event>, c: Config, at: int, from: int)
    requires ValidConfig(c) && Live(After(es, c), at).None?
    ensures After(es + [Hit(at), Arm(at)], c) == Some(Entry(1, Some(at + Window(c))))
    ensures AdmittedFrom(es + [Hit(at), Arm(at)], c, from)
            == AdmittedFrom(es, c, from) + if from <= at < from + Window(c) then 1 else 0
  {
    var both := es + [Hit(at), Arm(at)];
    assert both[..|es| + 1] == es + [Hit(at)];
    assert (es + [Hit(at)])[..|es|] == es;
  }

  predicate OrderedUpTo(es: seq<Event>, at: int) {
    Ordered(es) && forall i :: 0 <= i < |es| ==> es[i].at <= at
  }

  lemma {:induction false} HitsAreOrdered(es: seq<Event>, n: nat, at: int)
    requires OrderedUpTo(es, at)
    ensures OrderedUpTo(Hits(es, n, at), at)
  {
    if n > 0 {
      HitsAreOrdered(es, n - 1, at);
    }
  }

  lemma BurstIsOrdered(es: seq<Event>, c: Config, open: int, at: int)
    requires ValidConfig(c) && OrderedUpTo(es, open) && open <= at
    ensures OrderedUpTo(Burst(es, c, open, at), at)
  {
    HitsAreOrdered(es + [Hit(open), Arm(open)], c.max - 1, at);
  }

  lemma TwoBurstsAreOrdered(c: Config)
    requires ValidConfig(c)
    ensures Ordered(TwoBursts(c))
  {
    BurstIsOrdered([], c, 0, Window(c) - 1);
    BurstIsOrdered(Burst([], c, 0, Window(c) - 1), c, Window(c) + 1, Window(c) + 1);
  }

  /** An opening, and the rest of its quota later in its window. */
  lemma BurstFillsAWindow(es: seq<Event>, c: Config, open: int, at: int, from: int)
    requires ValidConfig(c) && Live(After(es, c), open).None?
    requires open <= at < open + Window(c) && from <= at < from + Window(c)
    ensures After(Burst(es, c, open, at), c) == Some(Entry(c.max, Some(open + Window(c))))
    ensures AdmittedFrom(Burst(es, c, open, at), c, from)
            == AdmittedFrom(es, c, from) + c.max - if from <= open then 0 else 1
  {
    OpeningIsArmed(es, c, open, from);
    BurstIsAdmitted(es + [Hit(open), Arm(open)], c, c.max - 1, at, from);
  }

  /** For every maximum and every window a run reaches 2 max - 1 in one window length. */
  lemma NearlyDoubleIsReached(c: Config)
    requires ValidConfig(c)
    ensures Ordered(TwoBursts(c)) && AdmittedFrom(TwoBursts(c), c, Window(c) - 1) == 2 * c.max - 1
  {
    TwoBurstsAreOrdered(c);
    var next, from := Window(c) + 1, Window(c) - 1;
    BurstFillsAWindow([], c, 0, from, from);
    BurstFillsAWindow(Burst([], c, 0, from), c, next, next, from);
  }

  /** The promise of a sliding window: no interval of one window length ever admits more than the maximum. */
  ghost predicate Slides(c: Config) {
    forall es, from :: Ordered(es) ==> AdmittedFrom(es, c, from) <= c.max
  }

  /** The limiter keeps that promise exactly when the maximum is one request. */
  lemma SlidesIff(c: Config)
    requires ValidConfig(c)
    ensures Slides(c) <==> c.max == 1
  {
    if c.max == 1 {
      forall es, from | Ordered(es)
        ensures AdmittedFrom(es, c, from) <= c.max
      {
        AnyIntervalAdmitsLessThanDouble(es, c, from);
      }
    } else {
      NearlyDoubleIsReached(c);
    }
  }
}
