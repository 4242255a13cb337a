/** The websocket hub: rooms of clients, each with a bounded send buffer that is closed once. */
module Hubs {

  type Message = string

  /** Messages a client's send buffer can hold. */
  const CAPACITY := 256

  /**
   One client: its room, its role, the messages waiting in its send buffer, how often its send
   channel has been closed, and the messages its writer has already taken out.
   */
  datatype Peer = Peer(room: string, driver: bool, buffer: seq<Message>, closes: nat, written: seq<Message>)

  /** `panicked`: a send on, or a close of, a closed channel was attempted. */
  datatype HubState<!C> = HubState(rooms: map<string, set<C>>, peers: map<C, Peer>, panicked: bool)

  datatype Event<!C> =
    | Join(c: C, room: string, driver: bool)
    | Leave(c: C)
    | Locate(room: string, msg: Message)
    | Say(room: string, msg: Message)
    | Drain(c: C)

  function NewPeer(room: string, driver: bool): Peer {
    Peer(room, driver, [], 0, [])
  }

  predicate Full(p: Peer) {
    |p.buffer| >= CAPACITY
  }

  /** A send that does not wait: a full buffer gets the channel closed instead. */
  function Delivered(p: Peer, msg: Message): Peer {
    if Full(p) then p.(closes := p.closes + 1) else p.(buffer := p.buffer + [msg])
  }

  function Drained(p: Peer): Peer {
    if p.buffer == [] then p else p.(buffer := p.buffer[1..], written := p.written + [p.buffer[0]])
  }

  /** Locations are for riders only. */
  predicate Wants(p: Peer, isLocation: bool) {
    !isLocation || !p.driver
  }

  function WithRoom<C>(rooms: map<string, set<C>>, k: string, room: set<C>): map<string, set<C>> {
    if room == {} then rooms - {k} else rooms[k := room]
  }

  function Joined<C>(s: HubState<C>, c: C, k: string, driver: bool): HubState<C> {
    s.(rooms := s.rooms[k := (if k in s.rooms then s.rooms[k] else {}) + {c}], peers := s.peers[c := NewPeer(k, driver)])
  }

  predicate InRoom<C>(s: HubState<C>, c: C) {
    c in s.peers && s.peers[c].room in s.rooms && c in s.rooms[s.peers[c].room]
  }

  function Left<C>(s: HubState<C>, c: C): HubState<C> {
    if !InRoom(s, c) then s
    else
      var p := s.peers[c];
      HubState(WithRoom(s.rooms, p.room, s.rooms[p.room] - {c}),
               s.peers[c := p.(closes := p.closes + 1)],
               s.panicked || p.closes > 0)
  }

  function Targets<C>(s: HubState<C>, k: string, isLocation: bool): set<C> {
    if k in s.rooms then set c | c in s.rooms[k] && c in s.peers && Wants(s.peers[c], isLocation) else {}
  }

  function Sent<C>(s: HubState<C>, k: string, msg: Message, isLocation: bool): HubState<C> {
    if k !in s.rooms then s
    else
      var to := Targets(s, k, isLocation);
      HubState(WithRoom(s.rooms, k, s.rooms[k] - set c | c in to && Full(s.peers[c])),
               map c | c in s.peers :: if c in to then Delivered(s.peers[c], msg) else s.peers[c],
               s.panicked || exists c :: c in to && s.peers[c].closes > 0)
  }

  function Taken<C>(s: HubState<C>, c: C): HubState<C> {
    if c in s.peers then s.(peers := s.peers[c := Drained(s.peers[c])]) else s
  }

  function Handle<C>(s: HubState<C>, e: Event<C>): HubState<C> {
    match e
    case Join(c, room, driver) => Joined(s, c, room, driver)
    case Leave(c) => Left(s, c)
    case Locate(room, msg) => Sent(s, room, msg, true)
    case Say(room, msg) => Sent(s, room, msg, false)
    case Drain(c) => Taken(s, c)
  }

  function Play<C>(es: seq<Event<C>>): HubState<C> {
    if es == [] then HubState(map[], map[], false) else Handle(Play(es[..|es| - 1]), es[|es| - 1])
  }

  /** Each client joins at most once. */
  predicate JoinsOnce<C(==)>(es: seq<Event<C>>) {
    forall i, j :: 0 <= i < j < |es| && es[i].Join? && es[j].Join? ==> es[i].c != es[j].c
  }

  // ---- Safety --------------------------------------------------------------

  ghost predicate RoomsOk<C(!new)>(s: HubState<C>) {
    forall k :: k in s.rooms ==>
      s.rooms[k] != {} && forall c :: c in s.rooms[k] ==> c in s.peers && s.peers[c].room == k && s.peers[c].closes == 0
  }

  ghost predicate PeersOk<C(!new)>(s: HubState<C>) {
    forall c :: c in s.peers ==>
      && |s.peers[c].buffer| <= CAPACITY
      && s.peers[c].closes <= 1
      && (s.peers[c].closes == 0 <==> InRoom(s, c))
  }

  ghost predicate Safe<C(!new)>(s: HubState<C>) {
    !s.panicked && RoomsOk(s) && PeersOk(s)
  }

  lemma JoinIsSafe<C(!new)>(s: HubState<C>, c: C, k: string, driver: bool)
    requires Safe(s) && c !in s.peers
    ensures Safe(Joined(s, c, k, driver))
  {
  }

  lemma LeaveIsSafe<C(!new)>(s: HubState<C>, c: C)
    requires Safe(s)
    ensures Safe(Left(s, c))
  {
  }

  function Evicted<C>(s: HubState<C>, k: string, isLocation: bool): set<C> {
    set c | c in Targets(s, k, isLocation) && Full(s.peers[c])
  }

  lemma SendTouchesRoomOnly<C(!new)>(s: HubState<C>, k: string, msg: Message, isLocation: bool, o: C)
    requires Safe(s) && k in s.rooms && o in s.peers
    ensures var s' := Sent(s, k, msg, isLocation);
            && s'.peers[o].closes == (if o in Evicted(s, k, isLocation) then 1 else s.peers[o].closes)
            && (InRoom(s', o) <==> InRoom(s, o) && o !in Evicted(s, k, isLocation))
  {
    var s' := Sent(s, k, msg, isLocation);
    var rest := s.rooms[k] - Evicted(s, k, isLocation);
    assert s'.rooms == WithRoom(s.rooms, k, rest);
    if s.peers[o].room == k && o in rest {
      assert rest != {};
    }
  }

  lemma SendIsSafe<C(!new)>(s: HubState<C>, k: string, msg: Message, isLocation: bool)
    requires Safe(s)
    ensures Safe(Sent(s, k, msg, isLocation))
  {
    if k in s.rooms {
      var s' := Sent(s, k, msg, isLocation);
      forall o | o in s'.peers
        ensures s'.peers[o].closes <= 1 && (s'.peers[o].closes == 0 <==> InRoom(s', o))
      {
        SendTouchesRoomOnly(s, k, msg, isLocation, o);
      }
    }
  }

  lemma DrainIsSafe<C(!new)>(s: HubState<C>, c: C)
    requires Safe(s)
    ensures Safe(Taken(s, c))
  {
  }

  lemma {:induction false} StrangersAreNotPeers<C(!new)>(es: seq<Event<C>>, c: C)
    requires forall i :: 0 <= i < |es| && es[i].Join? ==> es[i].c != c
    ensures c !in Play(es).peers
  {
    if es != [] {
      StrangersAreNotPeers(es[..|es| - 1], c);
    }
  }

  lemma NextIsSafe<C(!new)>(s: HubState<C>, e: Event<C>)
    requires Safe(s) && (e.Join? ==> e.c !in s.peers)
    ensures Safe(Handle(s, e))
  {
    match e
    case Join(c, room, driver) => JoinIsSafe(s, c, room, driver);
    case Leave(c) => LeaveIsSafe(s, c);
    case Locate(room, msg) => SendIsSafe(s, room, msg, true);
    case Say(room, msg) => SendIsSafe(s, room, msg, false);
    case Drain(c) => DrainIsSafe(s, c);
  }

  /** Over every run: no panic, no empty or mismatched room, bounded buffers, channels closed at most once. */
  lemma {:induction false} EveryRunIsSafe<C(!new)>(es: seq<Event<C>>)
    requires JoinsOnce(es)
    ensures Safe(Play(es))
    ensures es != [] && es[|es| - 1].Join? ==> es[|es| - 1].c !in Play(es[..|es| - 1]).peers
  {
    if es != [] {
      var n := |es| - 1;
      EveryRunIsSafe(es[..n]);
      if es[n].Join? {
        StrangersAreNotPeers(es[..n], es[n].c);
      }
      NextIsSafe(Play(es[..n]), es[n]);
    }
  }

  /** A closed client stays closed. */
  lemma ClosedStaysClosed<C(!new)>(s: HubState<C>, e: Event<C>, c: C)
    requires Safe(s) && Safe(Handle(s, e)) && (e.Join? ==> e.c !in s.peers)
    requires c in s.peers && s.peers[c].closes == 1
    ensures c in Handle(s, e).peers && Handle(s, e).peers[c].closes == 1
  {
  }

  lemma LeavingCloses<C(!new)>(s: HubState<C>, c: C)
    requires Safe(s) && c in s.peers
    ensures c in Left(s, c).peers && Left(s, c).peers[c].closes == 1
  {
  }

  lemma PlaySnoc<C(!new)>(es: seq<Event<C>>, e: Event<C>)
    ensures Play(es + [e]) == Handle(Play(es), e)
  {
  }

  lemma JoinsOncePrefix<C(!new)>(es: seq<Event<C>>, more: seq<Event<C>>)
    requires JoinsOnce(es + more)
    ensures JoinsOnce(es)
  {
    assert forall i :: 0 <= i < |es| ==> (es + more)[i] == es[i];
  }

  /** One event after a safe run keeps a closed client closed. */
  lemma OneMoreStaysClosed<C(!new)>(es: seq<Event<C>>, e: Event<C>, c: C)
    requires JoinsOnce(es + [e]) && c in Play(es).peers && Play(es).peers[c].closes == 1
    ensures Safe(Play(es + [e])) && c in Play(es + [e]).peers && Play(es + [e]).peers[c].closes == 1
  {
    JoinsOncePrefix(es, [e]);
    EveryRunIsSafe(es);
    EveryRunIsSafe(es + [e]);
    assert (es + [e])[..|es|] == es;
    ClosedStaysClosed(Play(es), e, c);
  }

  lemma {:induction false} ClosedForever<C(!new)>(es: seq<Event<C>>, more: seq<Event<C>>, c: C)
    requires JoinsOnce(es + more) && c in Play(es).peers && Play(es).peers[c].closes == 1
    ensures Safe(Play(es + more)) && c in Play(es + more).peers && Play(es + more).peers[c].closes == 1
  {
    if more == [] {
      assert es + more == es;
      EveryRunIsSafe(es);
    } else {
      var n := |more| - 1;
      assert es + more == (es + more[..n]) + [more[n]];
      JoinsOncePrefix(es + more[..n], [more[n]]);
      ClosedForever(es, more[..n], c);
      OneMoreStaysClosed(es + more[..n], more[n], c);
    }
  }

  /** Once a joined client has left, it is in no room and its channel has been closed exactly once, ever after. */
  lemma LeftForGood<C(!new)>(es: seq<Event<C>>, c: C, more: seq<Event<C>>)
    requires JoinsOnce(es + [Leave(c)] + more) && c in Play(es).peers
    ensures var s := Play(es + [Leave(c)] + more);
            && c in s.peers && s.peers[c].closes == 1
            && forall k :: k in s.rooms ==> c !in s.rooms[k]
  {
    var left := es + [Leave(c)];
    JoinsOncePrefix(left, more);
    JoinsOncePrefix(es, [Leave(c)]);
    EveryRunIsSafe(es);
    PlaySnoc(es, Leave(c));
    LeavingCloses(Play(es), c);
    ClosedForever(left, more, c);
    NotInAnyRoom(Play(left + more), c);
  }

  lemma NotInAnyRoom<C(!new)>(s: HubState<C>, c: C)
    requires Safe(s) && c in s.peers && s.peers[c].closes == 1
    ensures forall k :: k in s.rooms ==> c !in s.rooms[k]
  {
  }

  // ---- Delivery ------------------------------------------------------------

  /** Everything ever put into the client's send buffer, in order. */
  function Enqueued(p: Peer): seq<Message> {
    p.written + p.buffer
  }

  predicate Addresses<C>(e: Event<C>, room: string, driver: bool) {
    (e.Say? && e.room == room) || (e.Locate? && e.room == room && !driver)
  }

  /** The room's messages that the client should get, since it joined. */
  function Due<C(==)>(es: seq<Event<C>>, c: C, room: string, driver: bool): seq<Message> {
    if es == [] then []
    else
      var before, e := Due(es[..|es| - 1], c, room, driver), es[|es| - 1];
      if e.Join? && e.c == c then []
      else if Addresses(e, room, driver) then before + [e.msg]
      else before
  }

  /** What was enqueued is a prefix of what is due, and all of it while the channel is open. */
  ghost predicate InStep(p: Peer, due: seq<Message>) {
    Enqueued(p) <= due && (p.closes == 0 ==> Enqueued(p) == due)
  }

  ghost predicate DeliveredTo<C>(s: HubState<C>, es: seq<Event<C>>, c: C)
    requires c in s.peers
  {
    var p := s.peers[c];
    InStep(p, Due(es, c, p.room, p.driver))
  }

  lemma SendDelivers<C(!new)>(s: HubState<C>, k: string, msg: Message, isLocation: bool, c: C)
    requires Safe(s) && c in s.peers
    ensures var p, p' := s.peers[c], Sent(s, k, msg, isLocation).peers[c];
            && p'.room == p.room && p'.driver == p.driver
            && if p.closes == 0 && p.room == k && Wants(p, isLocation) && !Full(p)
               then Enqueued(p') == Enqueued(p) + [msg] && p'.closes == 0
               else Enqueued(p') == Enqueued(p) && (p'.closes == 0 ==> p.closes == 0 && (p.room != k || !Wants(p, isLocation)))
  {
  }

  /**
   What one broadcast means for a client in the room: a driver gets no locations; otherwise the
   message goes to the end of the buffer, unless 256 messages wait already, and then the channel is
   closed and the client leaves the room.
   */
  lemma BroadcastMeans<C(!new)>(s: HubState<C>, k: string, msg: Message, isLocation: bool, c: C)
    requires Safe(s) && k in s.rooms && c in s.rooms[k]
    ensures c in s.peers
    ensures var p, e := s.peers[c], if isLocation then Locate(k, msg) else Say(k, msg);
            && c in Handle(s, e).peers
            && var p' := Handle(s, e).peers[c];
               if isLocation && p.driver then p' == p && InRoom(Handle(s, e), c)
               else if |p.buffer| < 256 then p' == p.(buffer := p.buffer + [msg]) && InRoom(Handle(s, e), c)
               else p' == p.(closes := 1) && !InRoom(Handle(s, e), c)
  {
    SendTouchesRoomOnly(s, k, msg, isLocation, c);
  }

  lemma SendKeepsStep<C(!new)>(s: HubState<C>, k: string, msg: Message, isLocation: bool, c: C, due: seq<Message>)
    requires Safe(s) && c in s.peers && InStep(s.peers[c], due)
    ensures var p, p' := s.peers[c], Sent(s, k, msg, isLocation).peers[c];
            && p'.room == p.room && p'.driver == p.driver
            && InStep(p', if p.room == k && Wants(p, isLocation) then due + [msg] else due)
  {
  }

  lemma DrainKeepsStep(p: Peer, due: seq<Message>)
    requires InStep(p, due)
    ensures InStep(Drained(p), due) && Drained(p).room == p.room && Drained(p).driver == p.driver
  {
  }

  /** One event keeps delivery in step with what is due. */
  lemma NextDelivers<C(!new)>(s: HubState<C>, e: Event<C>, c: C, due: seq<Message>)
    requires Safe(s) && c in s.peers && !(e.Join? && e.c == c) && InStep(s.peers[c], due)
    ensures c in Handle(s, e).peers
    ensures var p, p' := s.peers[c], Handle(s, e).peers[c];
            && p'.room == p.room && p'.driver == p.driver
            && InStep(p', if Addresses(e, p.room, p.driver) then due + [e.msg] else due)
  {
    match e
    case Join(o, room, driver) =>
    case Leave(o) =>
    case Locate(room, msg) => SendKeepsStep(s, room, msg, true, c, due);
    case Say(room, msg) => SendKeepsStep(s, room, msg, false, c, due);
    case Drain(o) => DrainKeepsStep(s.peers[c], due);
  }

  /**
   Over every run, what was enqueued for a client is a prefix of what its room was sent since it
   joined, in order, and all of it while the client is in the room.
   */
  lemma {:induction false} EveryRunDelivers<C(!new)>(es: seq<Event<C>>, c: C)
    requires JoinsOnce(es) && c in Play(es).peers
    ensures DeliveredTo(Play(es), es, c)
  {
    var n := |es| - 1;
    var s := Play(es[..n]);
    EveryRunIsSafe(es[..n]);
    if !(es[n].Join? && es[n].c == c) {
      EveryRunDelivers(es[..n], c);
      var p := s.peers[c];
      NextDelivers(s, es[n], c, Due(es[..n], c, p.room, p.driver));
    }
  }

  // ---- The running hub -----------------------------------------------------

  /** A connected client; `buffer` and `closed` are its send channel. */
  class Client {
    const bookingID: string
    const driver: bool
    var buffer: seq<Message>
    var closed: bool
    ghost var written: seq<Message>

    constructor (bookingID: string, driver: bool)
      ensures this.bookingID == bookingID && this.driver == driver
      ensures State() == NewPeer(bookingID, driver)
    {
      this.bookingID, this.driver := bookingID, driver;
      buffer, closed, written := [], false, [];
    }

    ghost function State(): Peer
      reads this
    {
      Peer(bookingID, driver, buffer, if closed then 1 else 0, written)
    }

    /** Sends without waiting; sending on a closed channel would panic. */
    method TrySend(msg: Message) returns (ok: bool)
      requires !closed
      modifies this
      ensures ok == !Full(old(State()))
      ensures State() == if ok then Delivered(old(State()), msg) else old(State())
    {
      ok := |buffer| < CAPACITY;
      if ok {
        buffer := buffer + [msg];
      }
    }

    /** Closing a closed channel would panic. */
    method Close()
      requires !closed
      modifies this
      ensures State() == old(State()).(closes := 1)
    {
      closed := true;
    }

    /** Sends, or closes the channel when its buffer is full. */
    method SendOrClose(msg: Message) returns (kept: bool)
      requires !closed
      modifies this
      ensures kept == !Full(old(State()))
      ensures State() == Delivered(old(State()), msg)
    {
      kept := TrySend(msg);
      if !kept {
        Close();
      }
    }

    /** The writer takes the oldest message, also from a closed channel, until the buffer is empty. */
    method WriteNext() returns (msg: Message, ok: bool)
      modifies this
      ensures State() == Drained(old(State()))
      ensures ok == (old(buffer) != []) && (ok ==> msg == old(buffer)[0])
    {
      msg, ok := "", buffer != [];
      if ok {
        msg := buffer[0];
        buffer := buffer[1..];
        written := written + [msg];
      }
    }
  }

  class Hub {
    var rooms: map<string, set<Client>>
    ghost var known: set<Client>

    ghost function View(): HubState<Client>
      reads this, known
    {
      HubState(rooms, map c | c in known :: c.State(), false)
    }

    /** The hub's rooms hold known clients whose channels are open. */
    ghost predicate Valid()
      reads this, known
    {
      forall k :: k in rooms ==>
        rooms[k] != {} && forall c :: c in rooms[k] ==> c in known && c.bookingID == k && !c.closed
    }

    constructor ()
      ensures Valid() && View() == Play<Client>([])
    {
      rooms, known := map[], {};
    }

    method Register(client: Client)
      requires Valid() && client !in known && client.State() == NewPeer(client.bookingID, client.driver)
      modifies this
      ensures Valid() && known == old(known) + {client}
      ensures View() == Joined(old(View()), client, client.bookingID, client.driver)
    {
      var room := if client.bookingID in rooms then rooms[client.bookingID] else {};
      rooms := rooms[client.bookingID := room + {client}];
      known := known + {client};
    }

    method Unregister(client: Client)
      requires Valid() && client in known
      modifies this, client
      ensures Valid() && known == old(known)
      ensures View() == Left(old(View()), client)
    {
      if client.bookingID in rooms {
        var room := rooms[client.bookingID];
        if client in room {
          room := room - {client};
          client.Close();
          if room == {} {
            rooms := rooms - {client.bookingID};
          } else {
            rooms := rooms[client.bookingID := room];
          }
        }
      }
    }

    /**
     Sends to a room's clients one by one, in any order, skipping drivers for locations; returns
     the clients that stay, after closing those whose buffer was full.
     */
    method SendToRoom(room: set<Client>, msg: Message, isLocation: bool) returns (kept: set<Client>)
      requires forall c :: c in room ==> !c.closed
      modifies room
      ensures forall c :: c in room ==>
                c.State() == if Wants(old(c.State()), isLocation) then Delivered(old(c.State()), msg) else old(c.State())
      ensures forall c :: c in kept <==> c in room && (!Wants(old(c.State()), isLocation) || !Full(old(c.State())))
    {
      kept := room;
      var todo := room;
      while todo != {}
        invariant todo <= room
        invariant forall c :: c in todo ==> !c.closed && c.State() == old(c.State())
        invariant forall c :: c in room && c !in todo ==>
                    c.State() == if Wants(old(c.State()), isLocation) then Delivered(old(c.State()), msg) else old(c.State())
        invariant forall c :: c in kept <==>
                    c in room && (c in todo || !Wants(old(c.State()), isLocation) || !Full(old(c.State())))
        decreases todo
      {
        var client :| client in todo;
        todo := todo - {client};
        if isLocation && client.driver {
          continue;
        }
        var ok := client.SendOrClose(msg);
        if !ok {
          kept := kept - {client};
        }
      }
    }

    /** Delivers a message to a room and deletes the room when nobody is left in it. */
    method Broadcast(bookingID: string, msg: Message, isLocation: bool)
      requires Valid()
      modifies this, if bookingID in rooms then rooms[bookingID] else {}
      ensures Valid() && known == old(known)
      ensures View() == Sent(old(View()), bookingID, msg, isLocation)
    {
      if bookingID in rooms {
        var room := SendToRoom(rooms[bookingID], msg, isLocation);
        if room == {} {
          rooms := rooms - {bookingID};
        } else {
          rooms := rooms[bookingID := room];
        }
        SentIs(old(View()), View(), bookingID, msg, isLocation, room);
      }
    }
  }

  /** A state is the result of a broadcast when every client and the room are as they should be. */
  lemma SentIs<C>(s: HubState<C>, s': HubState<C>, k: string, msg: Message, isLocation: bool, room: set<C>)
    requires k in s.rooms && s'.peers.Keys == s.peers.Keys && s.rooms[k] <= s.peers.Keys
    requires s'.panicked == s.panicked && forall c :: c in s.rooms[k] ==> s.peers[c].closes == 0
    requires s'.rooms == WithRoom(s.rooms, k, room)
    requires forall c :: c in room <==> c in s.rooms[k] && (!Wants(s.peers[c], isLocation) || !Full(s.peers[c]))
    requires forall c :: c in s.peers ==>
               s'.peers[c] == if c in s.rooms[k] && Wants(s.peers[c], isLocation) then Delivered(s.peers[c], msg) else s.peers[c]
    ensures s' == Sent(s, k, msg, isLocation)
  {
    var to := Targets(s, k, isLocation);
    assert room == s.rooms[k] - set c | c in to && Full(s.peers[c]);
    assert s'.peers == Sent(s, k, msg, isLocation).peers;
  }
}
