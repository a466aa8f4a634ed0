/** The connection manager as the object it is: four maps updated in place. Each method is proved
    against the operation of module Connections that the runs are built from. */
module LocalConnections {
  import opened Prelude
  import opened Connections

  class ConnectionManager {
    var rooms: map<RoomCode, set<Socket>>
    var players: map<PlayerId, Socket>
    var hosts: map<RoomCode, Socket>
    var subscriptions: set<RoomCode>  // rooms with a subscriber task

    function View(): Hub
      reads this
    {
      Hub(rooms, players, hosts, subscriptions)
    }

    constructor ()
      ensures View() == EMPTY_HUB
    {
      rooms, players, hosts, subscriptions := map[], map[], map[], {};
    }

    method SubscribeToRoom(room: RoomCode)
      modifies `subscriptions
      ensures subscriptions == old(subscriptions) + {room}
    {
      if room in subscriptions {
        return;
      }
      subscriptions := subscriptions + {room};
    }

    /** Nothing published reaches the room any more; other rooms are reached as before. */
    method UnsubscribeFromRoom(room: RoomCode)
      modifies `subscriptions
      ensures subscriptions == old(subscriptions) - {room}
      ensures forall exclude :: Delivered(View(), room, exclude) == {}
      ensures forall r, exclude :: r != room ==> Delivered(View(), r, exclude) == Delivered(old(View()), r, exclude)
    {
      subscriptions := subscriptions - {room};
    }

    method ConnectPlayer(s: Socket, room: RoomCode, player: PlayerId)
      modifies this
      ensures View() == Connect(old(View()), s, room, player)
    {
      if room !in rooms {
        rooms := rooms[room := {}];
        SubscribeToRoom(room);
      }
      rooms := rooms[room := rooms[room] + {s}];
      players := players[player := s];
    }

    method DisconnectPlayer(s: Socket, room: RoomCode, player: PlayerId)
      modifies this
      ensures View() == Disconnect(old(View()), s, room, player)
    {
      if room in rooms {
        rooms := rooms[room := rooms[room] - {s}];
        if rooms[room] == {} {
          rooms := rooms - {room};
          UnsubscribeFromRoom(room);
        }
      }
      players := players - {player};
    }

    method ConnectHostSocket(s: Socket, room: RoomCode)
      modifies this
      ensures View() == ConnectHost(old(View()), s, room)
    {
      if room !in rooms {
        rooms := rooms[room := {}];
        SubscribeToRoom(room);
      }
      rooms := rooms[room := rooms[room] + {s}];
      hosts := hosts[room := s];
    }

    method DisconnectHostSocket(s: Socket, room: RoomCode)
      modifies this
      ensures View() == DisconnectHost(old(View()), s, room)
    {
      if room in rooms {
        rooms := rooms[room := rooms[room] - {s}];
        if rooms[room] == {} {
          rooms := rooms - {room};
          UnsubscribeFromRoom(room);
        }
      }
      hosts := hosts - {room};
    }

    /** `_send_to_local_room`: for each socket the player behind it is looked up by scanning the
        player map. Each socket of the room is sent the message once, but for the excluded
        player's registered socket, which is sure to be left out when no two players share one. */
    method SendToLocalRoom(room: RoomCode, exclude: Option<PlayerId>) returns (sent: seq<Socket>)
      ensures Distinct(sent)
      ensures forall s :: s in Recipients(View(), room, exclude) ==> s in sent
      ensures forall s :: s in sent ==> s in RoomSockets(View(), room)
      ensures Injective(players) ==> forall s :: s in sent ==> s in Recipients(View(), room, exclude)
    {
      var connections := if room in rooms then rooms[room] else {};
      ghost var goal := Recipients(View(), room, exclude);
      var left := connections;
      sent := [];
      while left != {}
        invariant left <= connections && Distinct(sent)
        invariant forall s :: s in sent ==> s in connections && s !in left
        invariant forall s :: s in goal && s !in left ==> s in sent
        invariant Injective(players) ==> forall s :: s in sent ==> s in goal
        decreases |left|
      {
        var s :| s in left;
        var playerId := PlayerOn(s);
        if !(exclude.Some? && playerId == exclude) {
          sent := sent + [s];
        }
        left := left - {s};
      }
    }

    /** The first player of the map whose socket is `s`. */
    method PlayerOn(s: Socket) returns (player: Option<PlayerId>)
      ensures player.Some? ==> player.value in players && players[player.value] == s
      ensures player.None? ==> forall p :: p in players ==> players[p] != s
    {
      var left := players.Keys;
      while left != {}
        invariant left <= players.Keys
        invariant forall p :: p in players && p !in left ==> players[p] != s
        decreases |left|
      {
        var p :| p in left;
        if players[p] == s {
          return Some(p);
        }
        left := left - {p};
      }
      return None;
    }
  }
}
