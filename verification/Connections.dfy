/** app/game/connection_manager.py: which sockets are in which room, which socket a player or host
    is reached on, and which rooms are subscribed. Connecting and disconnecting run under the
    manager's lock; a send does not, so sockets come and go between two of its messages. */
module Connections {
  import opened Prelude

  // Sockets, rooms and players are opaque: only their identity matters.
  type Socket = nat
  type RoomCode = nat
  type PlayerId = nat

  datatype Hub = Hub(
    rooms: map<RoomCode, set<Socket>>, players: map<PlayerId, Socket>,
    hosts: map<RoomCode, Socket>, subscriptions: set<RoomCode>)

  const EMPTY_HUB := Hub(map[], map[], map[], {})

  function RoomSockets(h: Hub, room: RoomCode): set<Socket> {
    if room in h.rooms then h.rooms[room] else {}
  }

  function AddToRoom(h: Hub, s: Socket, room: RoomCode): Hub {
    h.(rooms := h.rooms[room := RoomSockets(h, room) + {s}],
       subscriptions := if room in h.rooms then h.subscriptions else h.subscriptions + {room})
  }

  function RemoveFromRoom(h: Hub, s: Socket, room: RoomCode): Hub {
    if room !in h.rooms then h
    else if h.rooms[room] - {s} == {} then
      h.(rooms := h.rooms - {room}, subscriptions := h.subscriptions - {room})
    else h.(rooms := h.rooms[room := h.rooms[room] - {s}])
  }

  function Connect(h: Hub, s: Socket, room: RoomCode, player: PlayerId): Hub {
    AddToRoom(h, s, room).(players := h.players[player := s])
  }

  /** The player's entry goes, whichever socket it holds. */
  function Disconnect(h: Hub, s: Socket, room: RoomCode, player: PlayerId): Hub {
    RemoveFromRoom(h, s, room).(players := h.players - {player})
  }

  function ConnectHost(h: Hub, s: Socket, room: RoomCode): Hub {
    AddToRoom(h, s, room).(hosts := h.hosts[room := s])
  }

  function DisconnectHost(h: Hub, s: Socket, room: RoomCode): Hub {
    RemoveFromRoom(h, s, room).(hosts := h.hosts - {room})
  }

  ghost predicate Injective(players: map<PlayerId, Socket>) {
    forall p, q :: p in players && q in players && players[p] == players[q] ==> p == q
  }

  /** `s` is the socket on which player `p` is reached. */
  predicate Registered(h: Hub, s: Socket, p: PlayerId) {
    p in h.players && h.players[p] == s
  }

  /** The sockets of the room a local send reaches when `exclude` is left out. */
  function Recipients(h: Hub, room: RoomCode, exclude: Option<PlayerId>): set<Socket> {
    set s | s in RoomSockets(h, room)
      && !(exclude.Some? && Registered(h, s, exclude.value))
  }

  /** The sockets one publish on the room's channel reaches on this server. */
  function Delivered(h: Hub, room: RoomCode, exclude: Option<PlayerId>): set<Socket> {
    if room in h.subscriptions then Recipients(h, room, exclude) else {}
  }

  // ---- Runs ----

  datatype Role = Host | Player(id: PlayerId)
  datatype Seat = Seat(room: RoomCode, role: Role)

  /** The hub with a record of who is connected and which sockets were ever used. */
  datatype State = State(hub: Hub, seats: map<Socket, Seat>, used: set<Socket>)

  const START := State(EMPTY_HUB, map[], {})

  datatype Event = Arrive(s: Socket, seat: Seat) | Leave(s: Socket)

  /** A socket connects once and leaves with the room and player it came with. */
  function Step(st: State, e: Event): State {
    match e
    case Arrive(s, seat) =>
      if s in st.used then st
      else
        var hub := match seat.role
          case Host => ConnectHost(st.hub, s, seat.room)
          case Player(p) => Connect(st.hub, s, seat.room, p);
        State(hub, st.seats[s := seat], st.used + {s})
    case Leave(s) =>
      if s !in st.seats then st
      else
        var seat := st.seats[s];
        var hub := match seat.role
          case Host => DisconnectHost(st.hub, s, seat.room)
          case Player(p) => Disconnect(st.hub, s, seat.room, p);
        State(hub, st.seats - {s}, st.used)
  }

  ghost function Run(st: State, es: seq<Event>): State
    decreases |es|
  {
    if es == [] then st else Run(Step(st, es[0]), es[1..])
  }

  /** The rooms hold exactly the connected sockets, and exactly the non-empty rooms are subscribed. */
  ghost predicate RoomsFit(h: Hub, seats: map<Socket, Seat>) {
    && h.subscriptions == h.rooms.Keys
    && (forall room :: room in h.rooms ==> h.rooms[room] != {})
    && (forall room, s :: s in RoomSockets(h, room) <==> s in seats && seats[s].room == room)
  }

  /** A player or host is reached on a connected socket of its own. */
  ghost predicate RoutesFit(h: Hub, seats: map<Socket, Seat>) {
    && (forall p :: p in h.players ==> h.players[p] in seats && seats[h.players[p]].role == Player(p))
    && (forall room :: room in h.hosts ==> h.hosts[room] in seats && seats[h.hosts[room]] == Seat(room, Host))
  }

  ghost predicate Fits(st: State) {
    RoomsFit(st.hub, st.seats) && RoutesFit(st.hub, st.seats) && st.seats.Keys <= st.used
  }

  lemma AddFits(h: Hub, seats: map<Socket, Seat>, s: Socket, seat: Seat)
    requires RoomsFit(h, seats) && s !in seats
    ensures RoomsFit(AddToRoom(h, s, seat.room), seats[s := seat])
  {
    var h', seats' := AddToRoom(h, s, seat.room), seats[s := seat];
    forall room, t ensures t in RoomSockets(h', room) <==> t in seats' && seats'[t].room == room {
      assert t in RoomSockets(h, room) <==> t in seats && seats[t].room == room;
    }
  }

  lemma RemoveFits(h: Hub, seats: map<Socket, Seat>, s: Socket)
    requires RoomsFit(h, seats) && s in seats
    ensures RoomsFit(RemoveFromRoom(h, s, seats[s].room), seats - {s})
  {
    var h', seats' := RemoveFromRoom(h, s, seats[s].room), seats - {s};
    assert s in RoomSockets(h, seats[s].room);
    forall room, t ensures t in RoomSockets(h', room) <==> t in seats' && seats'[t].room == room {
      assert t in RoomSockets(h, room) <==> t in seats && seats[t].room == room;
      if room == seats[s].room && h.rooms[room] - {s} == {} {
        assert t in h.rooms[room] ==> t == s;
      }
    }
  }

  lemma ArriveFits(st: State, s: Socket, seat: Seat)
    requires Fits(st)
    ensures Fits(Step(st, Arrive(s, seat)))
  {
    if s !in st.used {
      AddFits(st.hub, st.seats, s, seat);
      RoomsAlone(Step(st, Arrive(s, seat)).hub, AddToRoom(st.hub, s, seat.room), st.seats[s := seat]);
    }
  }

  lemma LeaveFits(st: State, s: Socket)
    requires Fits(st)
    ensures Fits(Step(st, Leave(s)))
  {
    if s in st.seats {
      RemoveFits(st.hub, st.seats, s);
      var h', seats' := Step(st, Leave(s)).hub, st.seats - {s};
      forall p | p in h'.players
        ensures h'.players[p] in seats' && seats'[h'.players[p]].role == Player(p)
      {
        assert p in st.hub.players;
      }
      forall room | room in h'.hosts
        ensures h'.hosts[room] in seats' && seats'[h'.hosts[room]] == Seat(room, Host)
      {
        assert room in st.hub.hosts;
      }
      RoomsAlone(h', RemoveFromRoom(st.hub, s, st.seats[s].room), seats');
    }
  }

  lemma RoomsAlone(a: Hub, b: Hub, seats: map<Socket, Seat>)
    requires a.rooms == b.rooms && a.subscriptions == b.subscriptions && RoomsFit(b, seats)
    ensures RoomsFit(a, seats)
  {
    forall room, s ensures s in RoomSockets(a, room) <==> s in seats && seats[s].room == room {
      assert s in RoomSockets(b, room) <==> s in seats && seats[s].room == room;
    }
  }

  lemma StepFits(st: State, e: Event)
    requires Fits(st)
    ensures Fits(Step(st, e))
  {
    match e
    case Arrive(s, seat) => ArriveFits(st, s, seat);
    case Leave(s) => LeaveFits(st, s);
  }

  lemma {:induction false} RunFits(st: State, es: seq<Event>)
    requires Fits(st)
    ensures Fits(Run(st, es))
    decreases |es|
  {
    if es != [] {
      StepFits(st, es[0]);
      RunFits(Step(st, es[0]), es[1..]);
    }
  }

  /** After any sequence of connects and disconnects: subscriptions are the non-empty rooms, no two
      players share a socket, and every registered socket is in its room. */
  lemma MapsConsistent(es: seq<Event>)
    ensures var st := Run(START, es);
      && (forall room :: room in st.hub.subscriptions <==> RoomSockets(st.hub, room) != {})
      && Injective(st.hub.players)
      && (forall room :: room in st.hub.hosts ==> st.hub.hosts[room] in RoomSockets(st.hub, room))
      && (forall p :: p in st.hub.players ==>
            && st.hub.players[p] in st.seats
            && st.hub.players[p] in RoomSockets(st.hub, st.seats[st.hub.players[p]].room))
  {
    RunFits(START, es);
    var st := Run(START, es);
    forall p, q | p in st.hub.players && q in st.hub.players && st.hub.players[p] == st.hub.players[q]
      ensures p == q
    {
      assert Player(p).id == Player(q).id;
    }
  }

  /** One publish reaches every connected socket of the room and no other, except the one socket
      registered for the excluded player; nobody else can be left out. */
  lemma PublishReachesRoom(es: seq<Event>, room: RoomCode, exclude: Option<PlayerId>)
    ensures var st := Run(START, es);
      forall s :: s in Delivered(st.hub, room, exclude) <==>
        && s in st.seats && st.seats[s].room == room
        && !(exclude.Some? && Registered(st.hub, s, exclude.value))
    ensures var st := Run(START, es);
      forall s :: s in st.seats && st.seats[s].room == room && s !in Delivered(st.hub, room, exclude) ==>
        exclude.Some? && st.seats[s].role == Player(exclude.value)
  {
    RunFits(START, es);
    var st := Run(START, es);
    forall s | s in st.seats && st.seats[s].room == room ensures room in st.hub.subscriptions {
      assert s in RoomSockets(st.hub, room);
    }
  }

  /** In every run, whoever connects is the one registered, as the room's host or under their player
      id, and is in the room; nobody else's entry changes. Leaving removes the entry. */
  lemma ArrivalRegisters(es: seq<Event>, s: Socket, seat: Seat)
    requires s !in Run(START, es).used
    ensures var h, h' := Run(START, es).hub, Step(Run(START, es), Arrive(s, seat)).hub;
      && s in RoomSockets(h', seat.room)
      && (seat.role.Host? ==> h'.hosts == h.hosts[seat.room := s] && h'.players == h.players)
      && (seat.role.Player? ==> h'.players == h.players[seat.role.id := s] && h'.hosts == h.hosts)
      && Step(Run(START, es), Arrive(s, seat)).seats == Run(START, es).seats[s := seat]
  {
  }

  lemma LeavingUnregisters(es: seq<Event>, s: Socket)
    requires s in Run(START, es).seats
    ensures var st := Run(START, es);
      var h, h' := st.hub, Step(st, Leave(s)).hub;
      && s !in RoomSockets(h', st.seats[s].room)
      && (st.seats[s].role.Host? ==> h'.hosts == h.hosts - {st.seats[s].room} && h'.players == h.players)
      && (st.seats[s].role.Player? ==> h'.players == h.players - {st.seats[s].role.id} && h'.hosts == h.hosts)
  {
  }
}
