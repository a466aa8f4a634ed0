/** Whom a broadcast reaches that is to leave one player out: router.py excludes a player from the
    announcement of their own arrival, and the connection manager drops only the one socket that is
    registered for the player. */
module Broadcasts {
  import opened Prelude
  import opened Connections

  // ---- One publish ----

  /** Every connection of `p` in the room is the registered one. */
  ghost predicate AllRegistered(st: State, room: RoomCode, p: PlayerId) {
    forall s :: s in st.seats && st.seats[s] == Seat(room, Player(p)) ==> Registered(st.hub, s, p)
  }

  /** After any connects and disconnects: leaving `p` out works, in that no connection of theirs gets
      the published message, if and only if every connection they have in the room is the one
      registered for them. */
  lemma ExclusionWorks(es: seq<Event>, room: RoomCode, p: PlayerId)
    ensures var st := Run(START, es);
      (forall s :: s in Delivered(st.hub, room, Some(p)) ==> s in st.seats && st.seats[s].role != Player(p))
      <==> AllRegistered(st, room, p)
  {
    PublishReachesRoom(es, room, Some(p));
  }

  lemma RunTwo(st: State, e: Event, f: Event)
    ensures Run(st, [e, f]) == Step(Step(st, e), f)
  {
    assert [e, f][1..] == [f] && [f][1..] == [];
    assert Run(Step(st, e), [f]) == Run(Step(Step(st, e), f), []);
  }

  lemma RunThree(st: State, e: Event, f: Event, g: Event)
    ensures Run(st, [e, f, g]) == Step(Step(Step(st, e), f), g)
  {
    assert [e, f, g][1..] == [f, g];
    RunTwo(Step(st, e), f, g);
  }

  /** A player connects a second time: the earlier connection is no longer registered and gets the
      message meant to leave the player out. */
  lemma EarlierConnectionIsReached(s: Socket, t: Socket, room: RoomCode, p: PlayerId)
    requires s != t
    ensures var seat := Seat(room, Player(p));
      var st := Run(START, [Arrive(s, seat), Arrive(t, seat)]);
      Registered(st.hub, t, p) && Delivered(st.hub, room, Some(p)) == {s}
  {
    var seat := Seat(room, Player(p));
    RunTwo(START, Arrive(s, seat), Arrive(t, seat));
    var st := Run(START, [Arrive(s, seat), Arrive(t, seat)]);
    assert RoomSockets(st.hub, room) == {s, t};
  }

  /** The earlier connection then closes and takes the player's entry with it: the only connection
      left is not registered and gets the message. */
  lemma OnlyConnectionIsReached(s: Socket, t: Socket, room: RoomCode, p: PlayerId)
    requires s != t
    ensures var seat := Seat(room, Player(p));
      var st := Run(START, [Arrive(s, seat), Arrive(t, seat), Leave(s)]);
      p !in st.hub.players && Delivered(st.hub, room, Some(p)) == {t}
  {
    var seat := Seat(room, Player(p));
    RunThree(START, Arrive(s, seat), Arrive(t, seat), Leave(s));
    var st := Run(START, [Arrive(s, seat), Arrive(t, seat), Leave(s)]);
    assert RoomSockets(st.hub, room) == {t};
  }

  // ---- A send while sockets come and go ----

  predicate Skips(h: Hub, s: Socket, exclude: Option<PlayerId>) {
    exclude.Some? && Registered(h, s, exclude.value)
  }

  /** `_send_to_local_room` over the sockets it copied from the room: `moves[i]` is what connects and
      disconnects before the i-th lookup, which sees the player map as it is by then. */
  ghost function SentDuring(st: State, copied: seq<Socket>, moves: seq<seq<Event>>,
                            exclude: Option<PlayerId>): seq<Socket>
    requires |moves| == |copied|
    decreases |copied|
  {
    if copied == [] then []
    else
      var now := Run(st, moves[0]);
      var rest := SentDuring(now, copied[1..], moves[1..], exclude);
      if Skips(now.hub, copied[0], exclude) then rest else [copied[0]] + rest
  }

  /** The state that the i-th lookup sees. */
  ghost function AtLookup(st: State, moves: seq<seq<Event>>, i: nat): State
    requires i < |moves|
    decreases i
  {
    var now := Run(st, moves[0]);
    if i == 0 then now else AtLookup(now, moves[1..], i - 1)
  }

  lemma {:induction false} OnlyCopiedSent(st: State, copied: seq<Socket>, moves: seq<seq<Event>>,
                                          exclude: Option<PlayerId>)
    requires |moves| == |copied|
    ensures forall s :: s in SentDuring(st, copied, moves, exclude) ==> s in copied
    decreases |copied|
  {
    if copied != [] {
      OnlyCopiedSent(Run(st, moves[0]), copied[1..], moves[1..], exclude);
    }
  }

  /** A copied socket is sent the message if and only if it is not the excluded player's registered
      one when its turn comes. */
  lemma {:induction false} SentUnlessRegistered(st: State, copied: seq<Socket>, moves: seq<seq<Event>>,
                                                exclude: Option<PlayerId>, i: nat)
    requires |moves| == |copied| && Distinct(copied) && i < |copied|
    ensures copied[i] in SentDuring(st, copied, moves, exclude)
      <==> !Skips(AtLookup(st, moves, i).hub, copied[i], exclude)
    decreases |copied|
  {
    var now := Run(st, moves[0]);
    OnlyCopiedSent(now, copied[1..], moves[1..], exclude);
    if i > 0 {
      SentUnlessRegistered(now, copied[1..], moves[1..], exclude, i - 1);
      assert copied[i] == copied[1..][i - 1];
    }
  }

  lemma DistinctCons(s: Socket, rest: seq<Socket>)
    requires Distinct(rest) && s !in rest
    ensures Distinct([s] + rest)
  {
    var all := [s] + rest;
    forall i, j | 0 <= i < j < |all| ensures all[i] != all[j] {
      assert all[j] == rest[j - 1];
    }
  }

  lemma {:induction false} SentOnce(st: State, copied: seq<Socket>, moves: seq<seq<Event>>,
                                    exclude: Option<PlayerId>)
    requires |moves| == |copied| && Distinct(copied)
    ensures Distinct(SentDuring(st, copied, moves, exclude))
    decreases |copied|
  {
    if copied != [] {
      var now := Run(st, moves[0]);
      SentOnce(now, copied[1..], moves[1..], exclude);
      OnlyCopiedSent(now, copied[1..], moves[1..], exclude);
      DistinctCons(copied[0], SentDuring(now, copied[1..], moves[1..], exclude));
    }
  }

  /** A socket keeps its seat for as long as it is connected, and is not seated again after. */
  ghost predicate SameSeats(st: State, later: State) {
    && st.used <= later.used
    && forall s :: s in st.used && s in later.seats ==> s in st.seats && later.seats[s] == st.seats[s]
  }

  lemma {:induction false} SeatsLast(st: State, es: seq<Event>)
    requires Fits(st)
    ensures SameSeats(st, Run(st, es)) && Fits(Run(st, es))
    decreases |es|
  {
    if es != [] {
      StepFits(st, es[0]);
      SeatsLast(Step(st, es[0]), es[1..]);
    }
  }

  lemma {:induction false} SeatsLastToLookup(st: State, moves: seq<seq<Event>>, i: nat)
    requires Fits(st) && i < |moves|
    ensures SameSeats(st, AtLookup(st, moves, i)) && Fits(AtLookup(st, moves, i))
    decreases i
  {
    SeatsLast(st, moves[0]);
    if i > 0 {
      SeatsLastToLookup(Run(st, moves[0]), moves[1..], i - 1);
    }
  }

  /** `copied` lists the sockets of the room. */
  ghost predicate Copies(st: State, room: RoomCode, copied: seq<Socket>) {
    Distinct(copied) && forall s :: s in copied <==> s in RoomSockets(st.hub, room)
  }

  lemma CopiedAreSeated(st: State, room: RoomCode, copied: seq<Socket>)
    requires Fits(st) && Copies(st, room, copied)
    ensures forall s :: s in copied <==> s in st.seats && st.seats[s].room == room
    ensures forall s :: s in copied ==> s in st.used
  {
    forall s ensures s in copied <==> s in st.seats && st.seats[s].room == room {
      assert s in copied <==> s in RoomSockets(st.hub, room);
    }
  }

  /** Over whole runs: a send that copied the sockets of a room sends each of them the message once,
      whatever connects and disconnects meanwhile, except connections of the excluded player; and
      such a connection is left out if and only if it is the registered one when its turn comes. */
  lemma LocalSendReachesRoom(es: seq<Event>, room: RoomCode, copied: seq<Socket>,
                             moves: seq<seq<Event>>, exclude: Option<PlayerId>, i: nat)
    requires Copies(Run(START, es), room, copied) && |moves| == |copied| && i < |copied|
    ensures var st := Run(START, es);
      var sent := SentDuring(st, copied, moves, exclude);
      && Distinct(sent) && (forall s :: s in sent ==> s in copied)
      && copied[i] in st.seats && st.seats[copied[i]].room == room
      && (copied[i] in sent <==> !Skips(AtLookup(st, moves, i).hub, copied[i], exclude))
      && (copied[i] !in sent ==> exclude.Some? && st.seats[copied[i]].role == Player(exclude.value))
  {
    var st := Run(START, es);
    RunFits(START, es);
    CopiedAreSeated(st, room, copied);
    SentOnce(st, copied, moves, exclude);
    OnlyCopiedSent(st, copied, moves, exclude);
    SentUnlessRegistered(st, copied, moves, exclude, i);
    SeatsLastToLookup(st, moves, i);
    assert copied[i] in copied;
  }

  // ---- What can be checked before a send ----

  /** `p` neither arrives nor leaves in `es`. */
  predicate QuietRun(st: State, es: seq<Event>, p: PlayerId) {
    forall k :: 0 <= k < |es| ==>
      match es[k]
      case Arrive(_, seat) => seat.role != Player(p)
      case Leave(s) => !(s in st.seats && st.seats[s].role == Player(p))
  }

  predicate Quiet(st: State, moves: seq<seq<Event>>, p: PlayerId) {
    forall i :: 0 <= i < |moves| ==> QuietRun(st, moves[i], p)
  }

  /** Every connection of `p` that is there later was there before. */
  ghost predicate NoNewSeats(st: State, later: State, p: PlayerId) {
    forall s :: s in later.seats && later.seats[s].role == Player(p) ==>
      s in st.seats && st.seats[s].role == Player(p)
  }

  lemma {:induction false} RegistrationLasts(st: State, es: seq<Event>, p: PlayerId)
    requires QuietRun(st, es, p)
    ensures NoNewSeats(st, Run(st, es), p)
    ensures forall s :: Registered(Run(st, es).hub, s, p) <==> Registered(st.hub, s, p)
    decreases |es|
  {
    if es != [] {
      var next := Step(st, es[0]);
      assert QuietRun(next, es[1..], p) by {
        forall k | 0 <= k < |es| - 1 ensures es[1..][k] == es[k + 1] {
        }
      }
      RegistrationLasts(next, es[1..], p);
    }
  }

  lemma {:induction false} RegistrationLastsToLookup(st: State, moves: seq<seq<Event>>, p: PlayerId, i: nat)
    requires Quiet(st, moves, p) && i < |moves|
    ensures forall s :: Registered(AtLookup(st, moves, i).hub, s, p) <==> Registered(st.hub, s, p)
    decreases i
  {
    RegistrationLasts(st, moves[0], p);
    if i > 0 {
      RegistrationLastsToLookup(Run(st, moves[0]), moves[1..], p, i - 1);
    }
  }

  /** No connection of `p` in the room is sent the message. */
  ghost predicate Excludes(st: State, copied: seq<Socket>, moves: seq<seq<Event>>, p: PlayerId)
    requires |moves| == |copied|
  {
    forall s :: s in SentDuring(st, copied, moves, Some(p)) ==> s in st.seats && st.seats[s].role != Player(p)
  }

  lemma QuietSendExcludes(st: State, room: RoomCode, copied: seq<Socket>, moves: seq<seq<Event>>, p: PlayerId)
    requires Fits(st) && Copies(st, room, copied) && |moves| == |copied| && Quiet(st, moves, p)
    ensures Excludes(st, copied, moves, p) <==> AllRegistered(st, room, p)
  {
    CopiedAreSeated(st, room, copied);
    OnlyCopiedSent(st, copied, moves, Some(p));
    forall i | 0 <= i < |copied|
      ensures copied[i] in SentDuring(st, copied, moves, Some(p)) <==> !Registered(st.hub, copied[i], p)
    {
      SentUnlessRegistered(st, copied, moves, Some(p), i);
      RegistrationLastsToLookup(st, moves, p, i);
    }
    ExcludesIff(st, room, copied, moves, p);
  }

  lemma ExcludesIff(st: State, room: RoomCode, copied: seq<Socket>, moves: seq<seq<Event>>, p: PlayerId)
    requires RoutesFit(st.hub, st.seats) && |moves| == |copied|
    requires forall s :: s in copied <==> s in st.seats && st.seats[s].room == room
    requires forall s :: s in SentDuring(st, copied, moves, Some(p)) ==> s in copied
    requires forall i :: 0 <= i < |copied| ==>
      (copied[i] in SentDuring(st, copied, moves, Some(p)) <==> !Registered(st.hub, copied[i], p))
    ensures Excludes(st, copied, moves, p) <==> AllRegistered(st, room, p)
  {
    var sent := SentDuring(st, copied, moves, Some(p));
    forall s | s in copied ensures s in sent <==> !Registered(st.hub, s, p) {
      var i :| 0 <= i < |copied| && copied[i] == s;
    }
  }

  /** Over whole runs: a send during which `p` neither arrives nor leaves keeps the message from them
      if and only if, when it begins, every connection they have in the room is registered. */
  lemma QuietSendExcludesIff(es: seq<Event>, room: RoomCode, copied: seq<Socket>,
                             moves: seq<seq<Event>>, p: PlayerId)
    requires Copies(Run(START, es), room, copied) && |moves| == |copied|
    requires Quiet(Run(START, es), moves, p)
    ensures var st := Run(START, es);
      Excludes(st, copied, moves, p) <==> AllRegistered(st, room, p)
  {
    RunFits(START, es);
    QuietSendExcludes(Run(START, es), room, copied, moves, p);
  }

  /** A send that is not quiet: the player's only connection is registered when it begins, and is
      reached all the same because they connect anew before its turn. */
  lemma ReconnectingIsReached(s: Socket, t: Socket, room: RoomCode, p: PlayerId)
    requires s != t
    ensures var seat := Seat(room, Player(p));
      var st := Run(START, [Arrive(s, seat)]);
      && Copies(st, room, [s]) && AllRegistered(st, room, p)
      && SentDuring(st, [s], [[]], Some(p)) == []
      && SentDuring(st, [s], [[Arrive(t, seat)]], Some(p)) == [s]
      && s in Run(st, [Arrive(t, seat)]).seats
  {
    var seat := Seat(room, Player(p));
    var st := Step(START, Arrive(s, seat));
    RunOne(START, Arrive(s, seat));
    RunOne(st, Arrive(t, seat));
    assert RoomSockets(st.hub, room) == {s};
    assert Run(st, []) == st;
    assert [s][1..] == [] && [[Arrive(t, seat)]][1..] == [];
    assert SentDuring(Step(st, Arrive(t, seat)), [], [], Some(p)) == [];
  }

  lemma RunOne(st: State, e: Event)
    ensures Run(st, [e]) == Step(st, e)
  {
    assert [e][1..] == [];
    assert Run(Step(st, e), []) == Step(st, e);
  }
}
