/** The players of a room: what joining guarantees in every run, and what a player is sent when
    results are private. */
module GameRoster {
  import opened Prelude
  import opened Text
  import opened Leaderboard
  import opened GameModel
  import opened GameWorld
  import opened GameControl
  import opened GameRuns
  import opened GameAnswers
  import opened GameFeed
  import opened GameDistribution

  ghost predicate RosterFits(cfg: Config, players: seq<Player>) {
    && (forall i, j :: 0 <= i < j < |players| ==>
          Lower(cfg.rules, players[i].nickname) != Lower(cfg.rules, players[j].nickname))
    && (forall i :: 0 <= i < |players| ==> players[i].user != Some(cfg.host))
    && (cfg.maxParticipants.Some? && cfg.maxParticipants.value > 0 ==>
          |players| <= cfg.maxParticipants.value)
  }

  predicate HasPlace(cfg: Config, db: Database) {
    match cfg.maxParticipants
    case None => true
    case Some(limit) => limit == 0 || |db.players| < limit
  }

  predicate NicknameFree(cfg: Config, db: Database, nickname: string) {
    forall p :: p in db.players ==> Lower(cfg.rules, p.nickname) != Lower(cfg.rules, nickname)
  }

  /** A player is let in exactly while the game waits, if they are not its host, there is a place,
      and nobody in the room has the nickname in any case; the error names the first of these that
      fails. They start without points, and nothing else changes. */
  lemma JoinsIff(cfg: Config, db: Database, id: PlayerId, nickname: string, user: Option<UserId>)
    ensures JoinRoom(cfg, db, id, nickname, user) ==
      if db.status != Waiting then Err(GameAlreadyStarted)
      else if user == Some(cfg.host) then Err(HostCannotJoin)
      else if !HasPlace(cfg, db) then Err(RoomFull)
      else if !NicknameFree(cfg, db, nickname) then Err(NicknameAlreadyTaken)
      else Ok(db.(players := db.players + [Player(id, nickname, user, 0)]))
  {
  }

  /** The same players in the same order; only scores may differ. */
  ghost predicate SameRoster(a: seq<Player>, b: seq<Player>) {
    && |a| == |b|
    && forall i :: 0 <= i < |a| ==> b[i] == a[i].(score := b[i].score)
  }

  lemma SubmitKeepsRoster(cfg: Config, w: World, player: PlayerId,
                          question: Option<QuestionId>, answers: seq<AnswerId>)
    requires PositiveLimits(cfg)
    ensures SameRoster(w.room.db.players, SubmitStep(cfg, w, player, question, answers).room.db.players)
  {
  }

  lemma JoinKeepsRoster(cfg: Config, w: World, id: PlayerId, nickname: string, user: Option<UserId>)
    requires RosterFits(cfg, w.room.db.players)
    ensures RosterFits(cfg, JoinStep(cfg, w, id, nickname, user).room.db.players)
    ensures w.room.db.status != Waiting ==> JoinStep(cfg, w, id, nickname, user) == w
  {
  }

  lemma StepKeepsRoster(cfg: Config, w: World, e: Event)
    requires ValidConfig(cfg) && RosterFits(cfg, w.room.db.players)
    ensures RosterFits(cfg, Step(cfg, w, e).room.db.players)
    ensures w.room.db.status != Waiting ==>
      SameRoster(w.room.db.players, Step(cfg, w, e).room.db.players)
  {
    match e
    case HandlerStep => HandlerKeepsRows(cfg, w);
    case Join(id, nickname, user) => JoinKeepsRoster(cfg, w, id, nickname, user);
    case Submit(player, question, answers) =>
      SubmitKeepsRoster(cfg, w, player, question, answers);
    case SendUpdate(record) => SendKeepsRows(w, record);
    case _ => OthersLeaveFeed(cfg, w, e);
  }

  lemma {:induction false} RunKeepsRoster(cfg: Config, w: World, es: seq<Event>)
    requires ValidConfig(cfg) && Control(cfg, w) && RosterFits(cfg, w.room.db.players)
    ensures RosterFits(cfg, Run(cfg, w, es).room.db.players)
    ensures w.room.db.status != Waiting ==>
      && Run(cfg, w, es).room.db.status != Waiting
      && SameRoster(w.room.db.players, Run(cfg, w, es).room.db.players)
    decreases |es|
  {
    if es != [] {
      var w' := Step(cfg, w, es[0]);
      StepKeepsRoster(cfg, w, es[0]);
      StepKeepsControl(cfg, w, es[0]);
      if w.room.db.status != Waiting {
        StepMoves(cfg, w, es[0]);
      }
      RunKeepsRoster(cfg, w', es[1..]);
    }
  }

  /** In every run the nicknames of a room differ even in lower case, its host is not among its
      players, and it holds no more players than the quiz admits; from the start of the game the
      players stay the same, whatever happens next. */
  lemma RosterInRuns(cfg: Config, start: int, es: seq<Event>, fs: seq<Event>)
    requires ValidConfig(cfg)
    ensures RosterFits(cfg, After(cfg, start, es).room.db.players)
    ensures After(cfg, start, es).room.db.status != Waiting ==>
      SameRoster(After(cfg, start, es).room.db.players, After(cfg, start, es + fs).room.db.players)
  {
    ControlAtStart(cfg, start);
    RunKeepsRoster(cfg, Begin(start), es);
    ControlInRuns(cfg, start, es);
    RunAppend(cfg, Begin(start), es, fs);
    RunKeepsRoster(cfg, After(cfg, start, es), fs);
  }

  // ---- Private results ----

  /** `_game_finished_for_player`. */
  function OwnEntries(entries: seq<Entry>, id: PlayerId): seq<Entry> {
    if entries == [] then []
    else if entries[0].playerId == id then [entries[0]] + OwnEntries(entries[1..], id)
    else OwnEntries(entries[1..], id)
  }

  lemma {:induction false} OwnEntriesAt(entries: seq<Entry>, id: PlayerId, k: nat)
    requires forall i, j :: 0 <= i < j < |entries| ==> entries[i].playerId != entries[j].playerId
    requires k < |entries| && entries[k].playerId == id
    ensures OwnEntries(entries, id) == [entries[k]]
  {
    if k == 0 {
      NoOwnEntries(entries[1..], id);
    } else {
      OwnEntriesAt(entries[1..], id, k - 1);
    }
  }

  lemma {:induction false} NoOwnEntries(entries: seq<Entry>, id: PlayerId)
    requires forall i :: 0 <= i < |entries| ==> entries[i].playerId != id
    ensures OwnEntries(entries, id) == []
  {
    if entries != [] {
      NoOwnEntries(entries[1..], id);
    }
  }

  /** Players and rows as they are. */
  predicate SameResults(w: World, w': World) {
    w'.room.db.players == w.room.db.players && w'.room.db.records == w.room.db.records
  }

  lemma FinishedStepKeepsResults(cfg: Config, w: World, e: Event)
    requires ValidConfig(cfg) && w.room.db.status == Finished
    ensures SameResults(w, Step(cfg, w, e))
  {
    match e
    case HandlerStep => HandlerKeepsRows(cfg, w);
    case Join(id, nickname, user) => assert Step(cfg, w, e) == JoinStep(cfg, w, id, nickname, user);
    case Submit(player, question, answers) => assert Step(cfg, w, e) == SubmitStep(cfg, w, player, question, answers);
    case SendUpdate(record) => SendKeepsRows(w, record);
    case _ => OthersLeaveFeed(cfg, w, e);
  }

  /** Once a game is finished, its players, their scores and their rows never change again. */
  lemma {:induction false} FinishedIsFinal(cfg: Config, w: World, es: seq<Event>)
    requires ValidConfig(cfg) && Control(cfg, w) && w.room.db.status == Finished
    ensures SameResults(w, Run(cfg, w, es))
    decreases |es|
  {
    if es != [] {
      FinishedStepKeepsResults(cfg, w, es[0]);
      StepMoves(cfg, w, es[0]);
      StepKeepsControl(cfg, w, es[0]);
      FinishedIsFinal(cfg, Step(cfg, w, es[0]), es[1..]);
    }
  }

  /** With private results each player is sent exactly one entry: their own, with their score. Once
      the game is finished its rank is the one their game history shows at every later time. */
  lemma PrivateResultIsOwn(cfg: Config, start: int, es: seq<Event>, fs: seq<Event>, i: nat)
    requires ValidConfig(cfg) && i < |After(cfg, start, es).room.db.players|
    ensures var r := After(cfg, start, es).room;
      var p := r.db.players[i];
      var own := OwnEntries(Board(r), p.id);
      && |own| == 1 && own[0] in Board(r)
      && own[0].playerId == p.id && own[0].nickname == p.nickname && own[0].score == p.score
      && HistoryRank(r.db.players, p.id) == Some(own[0].rank)
      && (r.db.status == Finished ==>
            HistoryRank(After(cfg, start, es + fs).room.db.players, p.id) == Some(own[0].rank))
  {
    AnswersInRuns(cfg, start, es);
    var r := After(cfg, start, es).room;
    BoardShowsOwn(r.db.players, StoredOrEmpty(r.cache.ranking), i);
    if r.db.status == Finished {
      RunAppend(cfg, Begin(start), es, fs);
      FinishedIsFinal(cfg, After(cfg, start, es), fs);
    }
  }

  lemma BoardShowsOwn(players: seq<Player>, prev: Ranking, i: nat)
    requires DistinctIds(players) && i < |players|
    ensures var p := players[i];
      var own := OwnEntries(Entries(players, prev), p.id);
      && |own| == 1 && own[0] in Entries(players, prev)
      && own[0].playerId == p.id && own[0].nickname == p.nickname && own[0].score == p.score
      && HistoryRank(players, p.id) == Some(own[0].rank)
  {
    var entries := Entries(players, prev);
    EntriesInOrder(players, prev);
    var k := PlayerHasEntry(players, prev, players[i]);
    OwnEntriesAt(entries, players[i].id, k);
    HistoryRankAgrees(players, prev, k);
  }
}
