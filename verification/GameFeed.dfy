/** Why a host that reconnects in the middle of a question misses nothing: the feed rebuilt from
    the database is the feed that was sent. */
module GameFeed {
  import opened Prelude
  import opened Leaderboard
  import opened GameModel
  import opened GameWorld
  import opened GameControl
  import opened GameAnswers

  /** `u` is what the answer `r` looks like with the players as they are now. */
  predicate Tells(players: seq<Player>, r: Record, u: HostUpdate) {
    UpdateFor(players, r).Some? && UpdateFor(players, r).value == u
  }

  /** Every update sent for question `q` still matches a row, score included. */
  ghost predicate SentMatchRows(players: seq<Player>, records: seq<Record>, sent: set<Sent>, q: QuestionId) {
    forall s :: s in sent && s.question == q ==>
      exists r :: r in records && r.question == q && Tells(players, r, s.update)
  }

  /** Every row of question `q` has been sent as it is now, or its update is still to be sent. */
  ghost predicate RowsAreSent(players: seq<Player>, records: seq<Record>, sent: set<Sent>,
                              inflight: set<Record>, q: QuestionId)
  {
    forall r :: r in records && r.question == q ==>
      r in inflight || exists u :: Sent(q, u) in sent && Tells(players, r, u)
  }

  ghost predicate FeedFits(players: seq<Player>, records: seq<Record>, sent: set<Sent>,
                           inflight: set<Record>, shown: seq<QuestionId>)
  {
    && (forall r :: r in inflight ==> r in records)
    && (forall s :: s in sent ==> s.question in shown)
    && (shown != [] ==>
          var q := shown[|shown| - 1];
          SentMatchRows(players, records, sent, q) && RowsAreSent(players, records, sent, inflight, q))
  }

  ghost predicate Feed(w: World) {
    FeedFits(w.room.db.players, w.room.db.records, w.sent, w.inflight, w.shown)
  }

  lemma {:induction false} KnownIsFound(players: seq<Player>, id: PlayerId)
    ensures KnownPlayer(players, id) <==> FindPlayer(players, id).Some?
  {
    if players == [] {
    } else {
      KnownIsFound(players[1..], id);
      if KnownPlayer(players, id) && players[0].id != id {
        var i :| 0 <= i < |players| && players[i].id == id;
        assert players[1..][i - 1].id == id;
      }
      if KnownPlayer(players[1..], id) {
        var i :| 0 <= i < |players[1..]| && players[1..][i].id == id;
        assert players[i + 1].id == id;
      }
    }
  }

  lemma {:induction false} FindAfterAdd(players: seq<Player>, scorer: PlayerId, points: int, id: PlayerId)
    requires id != scorer
    ensures FindPlayer(AddPoints(players, scorer, points), id) == FindPlayer(players, id)
  {
    if players == [] {
    } else {
      FindAfterAdd(players[1..], scorer, points, id);
      assert AddPoints(players, scorer, points)[1..] == AddPoints(players[1..], scorer, points);
    }
  }

  /** A new answer moves only its sender's score, and its sender had no row for the question. */
  lemma CommitKeepsFeed(db: Database, sent: set<Sent>, inflight: set<Record>, shown: seq<QuestionId>, r: Record)
    requires shown != [] && r.question == shown[|shown| - 1]
    requires FeedFits(db.players, db.records, sent, inflight, shown)
    requires CommitAnswer(db, r).Ok?
    ensures var db' := CommitAnswer(db, r).value;
      FeedFits(db'.players, db'.records, sent, inflight + {r}, shown)
  {
    var db' := CommitAnswer(db, r).value;
    var q := r.question;
    forall o | o in db.records && o.question == q
      ensures UpdateFor(db'.players, o) == UpdateFor(db.players, o)
    {
      var i :| 0 <= i < |db.records| && db.records[i] == o;
      FindAfterAdd(db.players, r.player, r.points, o.player);
    }
    forall s | s in sent && s.question == q
      ensures exists o :: o in db'.records && o.question == q && Tells(db'.players, o, s.update)
    {
      var o :| o in db.records && o.question == q && Tells(db.players, o, s.update);
      assert o in db'.records;
    }
    forall o | o in db'.records && o.question == q
      ensures o in inflight + {r} || exists u :: Sent(q, u) in sent && Tells(db'.players, o, u)
    {
      if o != r && o !in inflight {
        assert o in db.records;
        var u :| Sent(q, u) in sent && Tells(db.players, o, u);
        assert Tells(db'.players, o, u);
      }
    }
  }

  lemma SubmitKeepsFeed(cfg: Config, w: World, player: PlayerId,
                        question: Option<QuestionId>, answers: seq<AnswerId>)
    requires ValidConfig(cfg) && Control(cfg, w) && Feed(w)
    ensures Feed(SubmitStep(cfg, w, player, question, answers))
  {
    var (r', result) := SubmitAnswer(cfg, w.room, w.now, player, question, answers);
    if result.Ok? {
      AcceptedSubmission(cfg, w, player, question, answers);
      CommitKeepsFeed(w.room.db, w.sent, w.inflight, w.shown, result.value);
    }
  }

  /** One update sent is one fewer pending. */
  lemma SendingKeepsFeed(players: seq<Player>, records: seq<Record>, sent: set<Sent>, inflight: set<Record>,
                         shown: seq<QuestionId>, record: Record, u: HostUpdate)
    requires FeedFits(players, records, sent, inflight, shown)
    requires record in records && record.question in shown && Tells(players, record, u)
    ensures FeedFits(players, records, sent + {Sent(record.question, u)}, inflight - {record}, shown)
  {
    var sent' := sent + {Sent(record.question, u)};
    var q := shown[|shown| - 1];
    forall r | r in records && r.question == q
      ensures r in inflight - {record} || exists v :: Sent(q, v) in sent' && Tells(players, r, v)
    {
      if r == record {
        assert Sent(q, u) in sent' && Tells(players, r, u);
      } else if r !in inflight {
        var v :| Sent(q, v) in sent && Tells(players, r, v);
        assert Sent(q, v) in sent';
      }
    }
  }

  lemma SendKeepsFeed(w: World, record: Record)
    requires Answers(w) && Feed(w)
    ensures Feed(SendStep(w, record))
  {
    if record in w.inflight {
      var db := w.room.db;
      var i :| 0 <= i < |db.records| && db.records[i] == record;
      assert RecordFits(db.records[i], db.players, w.shown);
      KnownIsFound(db.players, record.player);
      var u := UpdateFor(db.players, record).value;
      var sent' := w.sent + {Sent(record.question, u)};
      assert Tells(db.players, record, u);
      SendingKeepsFeed(db.players, db.records, w.sent, w.inflight, w.shown, record, u);
      assert SendStep(w, record) == w.(inflight := w.inflight - {record}, sent := sent');
    }
  }

  /** A question not shown before has no rows and no updates yet. */
  lemma OpenQuestionKeepsFeed(cfg: Config, w: World, next: nat, order: seq<QuestionId>)
    requires ValidConfig(cfg) && Control(cfg, w) && Answers(w) && Feed(w)
    requires w.handler == Advancing(next, order)
    ensures Feed(OpenQuestion(w, next, order))
  {
    if 1 <= next <= |order| {
      ChosenIsPermutation(cfg, order);
      var q := order[next - 1];
      assert q !in w.shown;
      var records := w.room.db.records;
      forall r | r in records ensures r.question != q {
        var i :| 0 <= i < |records| && records[i] == r;
        assert RecordFits(records[i], w.room.db.players, w.shown);
      }
    }
  }

  lemma JoinKeepsFeed(cfg: Config, w: World, id: PlayerId, nickname: string, user: Option<UserId>)
    requires Control(cfg, w) && Feed(w)
    ensures Feed(JoinStep(cfg, w, id, nickname, user))
  {
  }

  /** Steps that leave rows, players, shown questions and updates alone. */
  predicate SameFeed(w: World, w': World) {
    && w'.room.db.players == w.room.db.players && w'.room.db.records == w.room.db.records
    && w'.shown == w.shown && w'.sent == w.sent && w'.inflight == w.inflight
  }

  lemma HandlerKeepsFeed(cfg: Config, w: World)
    requires ValidConfig(cfg) && Control(cfg, w) && Answers(w) && Feed(w)
    ensures Feed(StepHandler(cfg, w))
  {
    match w.handler
    case Advancing(next, order) => OpenQuestionKeepsFeed(cfg, w, next, order);
    case Opened(current, question) => StartClockLeavesFeed(cfg, w, current, question);
    case Deciding(seen, next, count) => DecideLeavesFeed(cfg, w, seen, next, count);
    case ReportingEnd => BoardsLeaveFeed(w);
    case ReportingFinal => BoardsLeaveFeed(w);
    case Clearing => BoardsLeaveFeed(w);
    case _ => HandlerLeavesFeed(cfg, w);
  }

  lemma StartClockLeavesFeed(cfg: Config, w: World, current: nat, question: QuestionId)
    ensures SameFeed(w, StartClock(cfg, w, current, question))
  {
  }

  lemma DecideLeavesFeed(cfg: Config, w: World, seen: Status, next: nat, count: nat)
    ensures SameFeed(w, Decide(cfg, w, seen, next, count))
  {
  }

  lemma BoardsLeaveFeed(w: World)
    ensures SameFeed(w, ShowBoard(w)) && SameFeed(w, ForgetRanking(w))
  {
  }

  lemma HandlerLeavesFeed(cfg: Config, w: World)
    requires w.handler.Idle? || w.handler.StoringOrder? || w.handler.Sending? || w.handler.Announcing?
          || w.handler.ForcingEnd? || w.handler.Ending?
    ensures SameFeed(w, StepHandler(cfg, w))
  {
  }

  lemma TimersLeaveFeed(cfg: Config, w: World, t: Timer)
    ensures SameFeed(w, FireTimer(w, t))
    ensures SameFeed(w, ReportTimer(cfg, w, t))
  {
    BoardsLeaveFeed(w.(timers := w.timers - multiset{t}));
  }

  lemma HostLeavesFeed(cfg: Config, w: World, caller: UserId, order: seq<QuizQuestion>)
    ensures SameFeed(w, PressStartStep(cfg, w, caller, order))
    ensures SameFeed(w, PressNextStep(cfg, w)) && SameFeed(w, FailStep(w))
  {
  }

  lemma LossLeavesFeed(w: World, c: Cache)
    ensures SameFeed(w, WithCache(w, c)) && SameFeed(w, LoseOrderStep(w))
    ensures SameFeed(w, ForgetRanking(w)) && SameFeed(w, ViewStep(w))
  {
  }

  lemma HostEventsLeaveFeed(cfg: Config, w: World, e: Event)
    requires PositiveLimits(cfg) && !e.HandlerStep? && !PlayerEvent(e) && HostEvent(e)
    ensures SameFeed(w, Step(cfg, w, e))
  {
    match e
    case PressStart(caller, order) => HostLeavesFeed(cfg, w, caller, order);
    case PressNext => HostLeavesFeed(cfg, w, 0, []);
    case HandlerFails => HostLeavesFeed(cfg, w, 0, []);
  }

  lemma LossEventsLeaveFeed(cfg: Config, w: World, e: Event)
    requires PositiveLimits(cfg) && !e.HandlerStep? && !PlayerEvent(e) && LossEvent(e)
    ensures SameFeed(w, Step(cfg, w, e))
  {
    match e
    case LoseOrder => LossLeavesFeed(w, w.room.cache);
    case LoseStart => LossLeavesFeed(w, w.room.cache.(questionStart := None));
    case LoseAnswered(index, players) => LossLeavesFeed(w, Forget(w.room.cache, index, players));
    case LoseRanking => LossLeavesFeed(w, w.room.cache);
  }

  lemma QuietEventsLeaveFeed(cfg: Config, w: World, e: Event)
    requires PositiveLimits(cfg) && !e.HandlerStep? && !PlayerEvent(e) && QuietEvent(e)
    ensures SameFeed(w, Step(cfg, w, e))
  {
    match e
    case Tick(_) =>
    case ViewResults => LossLeavesFeed(w, w.room.cache);
  }

  lemma OthersLeaveFeed(cfg: Config, w: World, e: Event)
    requires PositiveLimits(cfg) && !e.HandlerStep? && !PlayerEvent(e)
    ensures SameFeed(w, Step(cfg, w, e))
  {
    if HostEvent(e) {
      HostEventsLeaveFeed(cfg, w, e);
    } else if e.TimerFires? {
      TimersLeaveFeed(cfg, w, e.timer);
    } else if e.TimerReports? {
      TimersLeaveFeed(cfg, w, e.timer);
    } else if LossEvent(e) {
      LossEventsLeaveFeed(cfg, w, e);
    } else {
      QuietEventsLeaveFeed(cfg, w, e);
    }
  }

  lemma StepKeepsFeed(cfg: Config, w: World, e: Event)
    requires ValidConfig(cfg) && Control(cfg, w) && Answers(w) && Feed(w)
    ensures Feed(Step(cfg, w, e))
  {
    if e.HandlerStep? {
      HandlerKeepsFeed(cfg, w);
    } else if e.Join? {
      JoinKeepsFeed(cfg, w, e.id, e.nickname, e.user);
    } else if e.Submit? {
      SubmitKeepsFeed(cfg, w, e.player, e.question, e.answers);
    } else if e.SendUpdate? {
      SendKeepsFeed(w, e.record);
    } else {
      OthersLeaveFeed(cfg, w, e);
    }
  }

  lemma {:induction false} RunKeepsFeed(cfg: Config, w: World, es: seq<Event>)
    requires ValidConfig(cfg) && Control(cfg, w) && Answers(w) && Feed(w)
    ensures Feed(Run(cfg, w, es))
    decreases |es|
  {
    if es != [] {
      StepKeepsControl(cfg, w, es[0]);
      StepKeepsAnswers(cfg, w, es[0]);
      StepKeepsFeed(cfg, w, es[0]);
      RunKeepsFeed(cfg, Step(cfg, w, es[0]), es[1..]);
    }
  }

  /** The updates sent for a question. */
  function SentFor(sent: set<Sent>, question: QuestionId): set<HostUpdate> {
    set s | s in sent && s.question == question :: s.update
  }

  /** The updates still to be sent for a question, as they would be sent now. */
  function PendingFor(players: seq<Player>, inflight: set<Record>, question: QuestionId): set<HostUpdate> {
    set r | r in inflight && r.question == question && UpdateFor(players, r).Some?
      :: UpdateFor(players, r).value
  }

  /** While the current question can be read, the feed rebuilt for a reconnecting host is the
      updates sent for it so far together with those about to be sent, total scores included. Once
      none is pending it is exactly the updates sent. */
  lemma ReconnectEqualsReplay(cfg: Config, start: int, es: seq<Event>)
    requires ValidConfig(cfg)
    requires CurrentQuestion(cfg, After(cfg, start, es).room).Some?
    ensures var w := After(cfg, start, es);
      var q := CurrentQuestion(cfg, w.room).value.id;
      var pending := PendingFor(w.room.db.players, w.inflight, q);
      && RebuiltFeed(w.room.db, q) == SentFor(w.sent, q) + pending
      && ((forall r :: r in w.inflight ==> r.question != q) ==>
            RebuiltFeed(w.room.db, q) == SentFor(w.sent, q))
  {
    FeedInRuns(cfg, start, es);
    ReplayFrom(cfg, After(cfg, start, es));
  }

  lemma FeedInRuns(cfg: Config, start: int, es: seq<Event>)
    requires ValidConfig(cfg)
    ensures Control(cfg, After(cfg, start, es)) && Feed(After(cfg, start, es))
  {
    AnswersInRuns(cfg, start, es);
    ControlAtStart(cfg, start);
    RunKeepsFeed(cfg, Begin(start), es);
  }

  lemma ReplayFrom(cfg: Config, w: World)
    requires Control(cfg, w) && Feed(w) && CurrentQuestion(cfg, w.room).Some?
    ensures var q := CurrentQuestion(cfg, w.room).value.id;
      var pending := PendingFor(w.room.db.players, w.inflight, q);
      && RebuiltFeed(w.room.db, q) == SentFor(w.sent, q) + pending
      && ((forall r :: r in w.inflight ==> r.question != q) ==>
            RebuiltFeed(w.room.db, q) == SentFor(w.sent, q))
  {
    CurrentIsShown(cfg, w);
    FeedAgrees(w, CurrentQuestion(cfg, w.room).value.id);
  }

  /** What a host update says: about one row of the question and the player who sent it, with that
      row's grade, selection and time, and the player's total over all their rows. */
  ghost predicate Describes(db: Database, question: QuestionId, u: HostUpdate) {
    exists r, p :: r in db.records && p in db.players && DescribesRow(db.records, question, u, r, p)
  }

  predicate DescribesRow(records: seq<Record>, question: QuestionId, u: HostUpdate, r: Record, p: Player) {
    && r.question == question && p.id == r.player
    && u.player == r.player && u.nickname == p.nickname && u.isCorrect == r.correct
    && u.answers == r.selected && u.timeTakenMs == r.timeTakenMs
    && u.totalScore == PointsOf(records, p.id)
  }

  lemma {:induction false} FoundPlayer(players: seq<Player>, id: PlayerId)
    requires FindPlayer(players, id).Some?
    ensures FindPlayer(players, id).value in players && FindPlayer(players, id).value.id == id
  {
    if players[0].id != id {
      FoundPlayer(players[1..], id);
    }
  }

  lemma UpdateDescribes(w: World, question: QuestionId, r: Record, u: HostUpdate)
    requires Answers(w) && r in w.room.db.records && r.question == question && Tells(w.room.db.players, r, u)
    ensures Describes(w.room.db, question, u)
  {
    var db := w.room.db;
    var p := FindPlayer(db.players, r.player).value;
    FoundPlayer(db.players, r.player);
    var i :| 0 <= i < |db.players| && db.players[i] == p;
    assert DescribesRow(db.records, question, u, r, p);
  }

  /** In every run, every update of a rebuilt feed describes a row of the question, and every row of
      the question has such an update. */
  lemma RebuiltFeedDescribesRows(cfg: Config, start: int, es: seq<Event>, question: QuestionId)
    requires ValidConfig(cfg)
    ensures var db := After(cfg, start, es).room.db;
      && (forall u :: u in RebuiltFeed(db, question) ==> Describes(db, question, u))
      && (forall r :: r in db.records && r.question == question ==>
            exists u, p :: && u in RebuiltFeed(db, question) && p in db.players
                           && DescribesRow(db.records, question, u, r, p))
  {
    AnswersInRuns(cfg, start, es);
    var w := After(cfg, start, es);
    var db := w.room.db;
    forall u | u in RebuiltFeed(db, question) ensures Describes(db, question, u) {
      var r :| r in db.records && r.question == question && Tells(db.players, r, u);
      UpdateDescribes(w, question, r, u);
    }
    forall r | r in db.records && r.question == question
      ensures exists u, p :: && u in RebuiltFeed(db, question) && p in db.players
                             && DescribesRow(db.records, question, u, r, p)
    {
      RowIsDescribed(w, question, r);
    }
  }

  lemma RowIsDescribed(w: World, question: QuestionId, r: Record)
    requires Answers(w) && r in w.room.db.records && r.question == question
    ensures exists u, p :: && u in RebuiltFeed(w.room.db, question) && p in w.room.db.players
                           && DescribesRow(w.room.db.records, question, u, r, p)
  {
    var db := w.room.db;
    var k :| 0 <= k < |db.records| && db.records[k] == r;
    assert RecordFits(db.records[k], db.players, w.shown);
    KnownIsFound(db.players, r.player);
    FoundPlayer(db.players, r.player);
    var p := FindPlayer(db.players, r.player).value;
    var u := UpdateFor(db.players, r).value;
    assert u in RebuiltFeed(db, question);
    var i :| 0 <= i < |db.players| && db.players[i] == p;
    assert DescribesRow(db.records, question, u, r, p);
  }

  /** In every run, every update sent live for the question opened last still describes a row of it
      as it is now. */
  lemma SentUpdatesDescribeRows(cfg: Config, start: int, es: seq<Event>, s: Sent)
    requires ValidConfig(cfg)
    requires var w := After(cfg, start, es);
      s in w.sent && w.shown != [] && s.question == w.shown[|w.shown| - 1]
    ensures Describes(After(cfg, start, es).room.db, s.question, s.update)
  {
    var w := After(cfg, start, es);
    AnswersInRuns(cfg, start, es);
    FeedInRuns(cfg, start, es);
    var r :| r in w.room.db.records && r.question == s.question && Tells(w.room.db.players, r, s.update);
    UpdateDescribes(w, s.question, r, s.update);
  }

  lemma FeedAgrees(w: World, q: QuestionId)
    requires Feed(w) && w.shown != [] && q == w.shown[|w.shown| - 1]
    ensures RebuiltFeed(w.room.db, q)
         == SentFor(w.sent, q) + PendingFor(w.room.db.players, w.inflight, q)
  {
    var players, records := w.room.db.players, w.room.db.records;
    var rebuilt := RebuiltFeed(w.room.db, q);
    var replayed := SentFor(w.sent, q) + PendingFor(players, w.inflight, q);
    forall u | u in rebuilt ensures u in replayed {
      var r :| r in records && r.question == q && Tells(players, r, u);
      if r in w.inflight {
        assert u in PendingFor(players, w.inflight, q);
      } else {
        var v :| Sent(q, v) in w.sent && Tells(players, r, v);
        assert Tells(players, r, u) && Tells(players, r, v);
        assert UpdateFor(players, r).value == u;
        assert UpdateFor(players, r).value == v;
        assert u == v;
        assert u in SentFor(w.sent, q);
      }
    }
    forall u | u in replayed ensures u in rebuilt {
      if u in SentFor(w.sent, q) {
        var s :| s in w.sent && s.question == q && s.update == u;
        var r :| r in records && r.question == q && Tells(players, r, u);
        assert u in rebuilt;
      } else {
        var r :| r in w.inflight && r.question == q && Tells(players, r, u);
        assert r in records;
      }
    }
  }
}
