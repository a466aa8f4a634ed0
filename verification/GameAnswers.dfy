/** What the interleaving keeps about answers and scores, and why the Redis answered set cannot
    change what is accepted. */
module GameAnswers {
  import opened Prelude
  import opened Scoring
  import opened Leaderboard
  import opened GameModel
  import opened GameWorld
  import opened GameControl
  import opened GameRuns

  /** The points a player's rows add up to. */
  function PointsOf(records: seq<Record>, player: PlayerId): int {
    if records == [] then 0
    else
      var last := records[|records| - 1];
      PointsOf(records[..|records| - 1], player) + if last.player == player then last.points else 0
  }

  /** How many of a player's rows are correct. */
  function CorrectCount(records: seq<Record>, player: PlayerId): nat {
    if records == [] then 0
    else
      var last := records[|records| - 1];
      CorrectCount(records[..|records| - 1], player)
        + if last.player == player && last.correct then 1 else 0
  }

  predicate PointsFit(r: Record) {
    if r.correct then MIN_POINTS_PER_QUESTION <= r.points <= MAX_POINTS_PER_QUESTION else r.points == 0
  }

  predicate RecordFits(r: Record, players: seq<Player>, shown: seq<QuestionId>) {
    KnownPlayer(players, r.player) && r.question in shown && r.timeTakenMs >= 0 && PointsFit(r)
  }

  ghost predicate UniqueKeys(records: seq<Record>) {
    forall i, j :: 0 <= i < j < |records| ==>
      records[i].player != records[j].player || records[i].question != records[j].question
  }

  ghost predicate ScoresFit(players: seq<Player>, records: seq<Record>) {
    forall i :: 0 <= i < |players| ==> players[i].score == PointsOf(records, players[i].id)
  }

  ghost predicate RecordsFit(players: seq<Player>, records: seq<Record>, shown: seq<QuestionId>) {
    && DistinctIds(players) && UniqueKeys(records) && ScoresFit(players, records)
    && (forall i :: 0 <= i < |records| ==> RecordFits(records[i], players, shown))
  }

  /** Whoever the answered set lists for an index has a row for the question of that index. */
  ghost predicate AnsweredFits(answered: map<nat, set<PlayerId>>, records: seq<Record>, shown: seq<QuestionId>) {
    forall k, p :: k in answered && p in answered[k] ==>
      1 <= k <= |shown| && HasRecord(records, p, shown[k - 1])
  }

  predicate ClockFits(questionStart: Option<int>, now: int) {
    questionStart.Some? ==> questionStart.value <= now
  }

  ghost predicate Answers(w: World) {
    && RecordsFit(w.room.db.players, w.room.db.records, w.shown)
    && AnsweredFits(w.room.cache.answered, w.room.db.records, w.shown)
    && ClockFits(w.room.cache.questionStart, w.now)
  }

  // ---- One accepted answer ----

  lemma GradeFits(q: QuizQuestion, player: PlayerId, answers: seq<AnswerId>, start: Option<int>, now: int)
    requires q.timeLimit > 0 && ClockFits(start, now)
    ensures var r := Grade(q, player, answers, start, now);
      r.timeTakenMs >= 0 && PointsFit(r) && r.player == player && r.question == q.id
  {
    ScoreBounds(TimeTaken(q, start, now), q.timeLimit);
  }

  lemma PointsOfAppend(records: seq<Record>, r: Record, player: PlayerId)
    ensures PointsOf(records + [r], player)
         == PointsOf(records, player) + if r.player == player then r.points else 0
  {
    assert (records + [r])[..|records|] == records;
  }

  lemma CommitKeepsRecords(db: Database, shown: seq<QuestionId>, r: Record)
    requires RecordsFit(db.players, db.records, shown)
    requires r.question in shown && r.timeTakenMs >= 0 && PointsFit(r)
    requires CommitAnswer(db, r).Ok?
    ensures var db' := CommitAnswer(db, r).value; RecordsFit(db'.players, db'.records, shown)
  {
    var db' := CommitAnswer(db, r).value;
    forall i | 0 <= i < |db'.players|
      ensures db'.players[i].score == PointsOf(db'.records, db'.players[i].id)
    {
      PointsOfAppend(db.records, r, db.players[i].id);
    }
    KnownAfter(db.players, db'.players);
    forall i | 0 <= i < |db'.records| ensures RecordFits(db'.records[i], db'.players, shown) {
      if i < |db.records| {
        assert RecordFits(db.records[i], db.players, shown);
      }
    }
  }

  /** Players with the same ids are the same known players. */
  lemma KnownAfter(a: seq<Player>, b: seq<Player>)
    requires |a| <= |b| && forall i :: 0 <= i < |a| ==> a[i].id == b[i].id
    ensures forall id :: KnownPlayer(a, id) ==> KnownPlayer(b, id)
  {
    forall id | KnownPlayer(a, id) ensures KnownPlayer(b, id) {
      var i :| 0 <= i < |a| && a[i].id == id;
      assert b[i].id == id;
    }
  }

  lemma HasRecordAfter(a: seq<Record>, r: Record)
    ensures forall p, q :: HasRecord(a, p, q) ==> HasRecord(a + [r], p, q)
    ensures HasRecord(a + [r], r.player, r.question)
  {
    var b := a + [r];
    forall p, q | HasRecord(a, p, q) ensures HasRecord(b, p, q) {
      var i :| 0 <= i < |a| && a[i].player == p && a[i].question == q;
      assert b[i] == a[i];
    }
    assert b[|a|] == r;
  }

  /** While a question runs and the order key is present, the current question is the last one
      shown. */
  lemma CurrentIsShown(cfg: Config, w: World)
    requires Control(cfg, w) && CurrentQuestion(cfg, w.room).Some?
    ensures |w.shown| == w.room.db.index >= 1
    ensures var q := CurrentQuestion(cfg, w.room).value;
      q in cfg.questions && q.id == w.shown[w.room.db.index - 1]
  {
    FoundQuestion(cfg.questions, w.room.cache.order.value[w.room.db.index - 1]);
  }

  /** What an accepted submission is, written out. */
  lemma AcceptedSubmission(cfg: Config, w: World, player: PlayerId,
                           question: Option<QuestionId>, answers: seq<AnswerId>)
    requires ValidConfig(cfg) && Control(cfg, w)
    requires SubmitAnswer(cfg, w.room, w.now, player, question, answers).1.Ok?
    ensures var (r', result) := SubmitAnswer(cfg, w.room, w.now, player, question, answers);
      var q := CurrentQuestion(cfg, w.room);
      && w.room.db.status == Question && q.Some? && question == Some(q.value.id)
      && q.value in cfg.questions && 1 <= w.room.db.index == |w.shown|
      && q.value.id == w.shown[w.room.db.index - 1]
      && result.value == Grade(q.value, player, answers, w.room.cache.questionStart, w.now)
      && CommitAnswer(w.room.db, result.value) == Ok(r'.db)
      && r'.cache == MarkAnswered(w.room.cache, w.room.db.index, player)
  {
    CurrentIsShown(cfg, w);
  }

  lemma SubmitKeepsAnswers(cfg: Config, w: World, player: PlayerId,
                           question: Option<QuestionId>, answers: seq<AnswerId>)
    requires ValidConfig(cfg) && Control(cfg, w) && Answers(w)
    ensures Answers(SubmitStep(cfg, w, player, question, answers))
  {
    if SubmitAnswer(cfg, w.room, w.now, player, question, answers).1.Ok? {
      AcceptedKeepsAnswers(cfg, w, player, question, answers);
    }
  }

  lemma AcceptedKeepsAnswers(cfg: Config, w: World, player: PlayerId,
                             question: Option<QuestionId>, answers: seq<AnswerId>)
    requires ValidConfig(cfg) && Control(cfg, w) && Answers(w)
    requires SubmitAnswer(cfg, w.room, w.now, player, question, answers).1.Ok?
    ensures var r' := SubmitAnswer(cfg, w.room, w.now, player, question, answers).0;
      && RecordsFit(r'.db.players, r'.db.records, w.shown)
      && AnsweredFits(r'.cache.answered, r'.db.records, w.shown)
      && r'.cache.questionStart == w.room.cache.questionStart
  {
    AcceptedSubmission(cfg, w, player, question, answers);
    var record := SubmitAnswer(cfg, w.room, w.now, player, question, answers).1.value;
    var q := CurrentQuestion(cfg, w.room).value;
    GradeFits(q, player, answers, w.room.cache.questionStart, w.now);
    CommittedFits(w.room.db, w.room.cache, w.shown, record, w.room.db.index);
  }

  lemma CommittedFits(db: Database, c: Cache, shown: seq<QuestionId>, r: Record, index: nat)
    requires RecordsFit(db.players, db.records, shown) && AnsweredFits(c.answered, db.records, shown)
    requires 1 <= index <= |shown| && r.question == shown[index - 1] && r.timeTakenMs >= 0 && PointsFit(r)
    requires CommitAnswer(db, r).Ok?
    ensures var db' := CommitAnswer(db, r).value;
      && RecordsFit(db'.players, db'.records, shown)
      && AnsweredFits(MarkAnswered(c, index, r.player).answered, db'.records, shown)
  {
    CommitKeepsRecords(db, shown, r);
    HasRecordAfter(db.records, r);
    MarkKeepsAnswered(c, db.records, r, shown, index);
  }

  lemma MarkKeepsAnswered(c: Cache, records: seq<Record>, r: Record, shown: seq<QuestionId>, index: nat)
    requires AnsweredFits(c.answered, records, shown)
    requires 1 <= index <= |shown| && r.question == shown[index - 1]
    ensures AnsweredFits(MarkAnswered(c, index, r.player).answered, records + [r], shown)
  {
    HasRecordAfter(records, r);
    var after := MarkAnswered(c, index, r.player).answered;
    forall k, p | k in after && p in after[k]
      ensures 1 <= k <= |shown| && HasRecord(records + [r], p, shown[k - 1])
    {
      if k != index || p != r.player {
        assert k in c.answered && p in c.answered[k];
      }
    }
  }

  // ---- Other steps ----

  lemma {:induction false} NoPoints(records: seq<Record>, player: PlayerId)
    requires forall i :: 0 <= i < |records| ==> records[i].player != player
    ensures PointsOf(records, player) == 0
  {
    if records != [] {
      NoPoints(records[..|records| - 1], player);
    }
  }

  lemma JoinKeepsAnswers(cfg: Config, w: World, id: PlayerId, nickname: string, user: Option<UserId>)
    requires Answers(w)
    ensures Answers(JoinStep(cfg, w, id, nickname, user))
  {
    var w' := JoinStep(cfg, w, id, nickname, user);
    if w' != w {
      var players, players', records := w.room.db.players, w'.room.db.players, w.room.db.records;
      KnownAfter(players, players');
      forall i | 0 <= i < |records| ensures records[i].player != id && RecordFits(records[i], players', w.shown) {
        assert RecordFits(records[i], players, w.shown);
      }
      NoPoints(records, id);
    }
  }

  lemma ShowingKeepsRecords(players: seq<Player>, records: seq<Record>, answered: map<nat, set<PlayerId>>,
                            shown: seq<QuestionId>, next: QuestionId)
    requires RecordsFit(players, records, shown) && AnsweredFits(answered, records, shown)
    ensures RecordsFit(players, records, shown + [next]) && AnsweredFits(answered, records, shown + [next])
  {
    forall i | 0 <= i < |records| ensures RecordFits(records[i], players, shown + [next]) {
      assert RecordFits(records[i], players, shown);
    }
  }

  lemma OpenQuestionKeepsAnswers(w: World, next: nat, order: seq<QuestionId>)
    requires Answers(w)
    ensures Answers(OpenQuestion(w, next, order))
  {
    if 1 <= next <= |order| {
      ShowingKeepsRecords(w.room.db.players, w.room.db.records, w.room.cache.answered, w.shown, order[next - 1]);
    }
  }

  /** Steps that leave players, rows, shown questions and the answered set alone. */
  predicate SameAnswers(w: World, w': World) {
    && w'.room.db.players == w.room.db.players && w'.room.db.records == w.room.db.records
    && w'.shown == w.shown && w'.room.cache.answered == w.room.cache.answered
  }

  lemma HandlerKeepsAnswers(cfg: Config, w: World)
    requires Answers(w)
    ensures Answers(StepHandler(cfg, w))
  {
    match w.handler
    case Advancing(next, order) => OpenQuestionKeepsAnswers(w, next, order);
    case Opened(current, question) => StartClockKeepsAnswers(cfg, w, current, question);
    case Deciding(seen, next, count) => DecideKeepsAnswers(cfg, w, seen, next, count);
    case ReportingEnd => ShowBoardKeepsAnswers(w);
    case ReportingFinal => ShowBoardKeepsAnswers(w);
    case _ => QuietBlocksKeepAnswers(cfg, w);
  }

  lemma DecideKeepsAnswers(cfg: Config, w: World, seen: Status, next: nat, count: nat)
    requires Answers(w)
    ensures Answers(Decide(cfg, w, seen, next, count))
  {
  }

  lemma QuietBlocksKeepAnswers(cfg: Config, w: World)
    requires Answers(w)
    requires w.handler.Idle? || w.handler.StoringOrder? || w.handler.Sending? || w.handler.Announcing?
          || w.handler.ForcingEnd? || w.handler.Ending? || w.handler.Clearing?
    ensures Answers(StepHandler(cfg, w))
  {
  }

  lemma ShowBoardKeepsAnswers(w: World)
    requires Answers(w)
    ensures Answers(ShowBoard(w)) && SameAnswers(w, ShowBoard(w))
  {
  }

  lemma StartClockKeepsAnswers(cfg: Config, w: World, current: nat, question: QuestionId)
    requires Answers(w)
    ensures var w' := StartClock(cfg, w, current, question); Answers(w') && SameAnswers(w, w')
  {
  }

  lemma FireKeepsAnswers(w: World, t: Timer)
    requires Answers(w)
    ensures SameAnswers(w, FireTimer(w, t)) && Answers(FireTimer(w, t))
  {
  }

  lemma ReportKeepsAnswers(cfg: Config, w: World, t: Timer)
    requires Answers(w)
    ensures SameAnswers(w, ReportTimer(cfg, w, t)) && Answers(ReportTimer(cfg, w, t))
  {
    var w1 := w.(timers := w.timers - multiset{t});
    ShowBoardKeepsAnswers(w1);
  }

  lemma ForgettingKeepsAnswered(c: Cache, records: seq<Record>, shown: seq<QuestionId>,
                                index: nat, players: set<PlayerId>)
    requires AnsweredFits(c.answered, records, shown)
    ensures AnsweredFits(Forget(c, index, players).answered, records, shown)
  {
    var after := Forget(c, index, players).answered;
    forall k, p | k in after && p in after[k]
      ensures 1 <= k <= |shown| && HasRecord(records, p, shown[k - 1])
    {
      assert k in c.answered && p in c.answered[k];
    }
  }

  lemma StartKeepsAnswers(cfg: Config, w: World, caller: UserId, order: seq<QuizQuestion>)
    requires Answers(w)
    ensures Answers(PressStartStep(cfg, w, caller, order))
  {
  }

  lemma SendKeepsAnswers(w: World, record: Record)
    requires Answers(w)
    ensures Answers(SendStep(w, record))
  {
    var w' := SendStep(w, record);
    assert w'.room == w.room && w'.shown == w.shown && w'.now == w.now;
  }

  lemma ViewKeepsAnswers(w: World)
    requires Answers(w)
    ensures Answers(ViewStep(w))
  {
    ShowBoardKeepsAnswers(w);
  }

  lemma HostEventsKeepAnswers(cfg: Config, w: World, e: Event)
    requires ValidConfig(cfg) && Control(cfg, w) && Answers(w) && HostEvent(e)
    ensures Answers(Step(cfg, w, e))
  {
    match e
    case PressStart(caller, order) => StartKeepsAnswers(cfg, w, caller, order);
    case _ =>
  }

  lemma LossEventsKeepAnswers(cfg: Config, w: World, e: Event)
    requires ValidConfig(cfg) && Control(cfg, w) && Answers(w) && LossEvent(e)
    ensures Answers(Step(cfg, w, e))
  {
    match e
    case LoseAnswered(index, players) =>
      ForgettingKeepsAnswered(w.room.cache, w.room.db.records, w.shown, index, players);
    case _ =>
  }

  lemma QuietEventsKeepAnswers(cfg: Config, w: World, e: Event)
    requires ValidConfig(cfg) && Control(cfg, w) && Answers(w) && QuietEvent(e)
    ensures Answers(Step(cfg, w, e))
  {
    match e
    case ViewResults => ViewKeepsAnswers(w);
    case _ =>
  }

  lemma StepKeepsAnswers(cfg: Config, w: World, e: Event)
    requires ValidConfig(cfg) && Control(cfg, w) && Answers(w)
    ensures Answers(Step(cfg, w, e))
  {
    if e.HandlerStep? {
      HandlerKeepsAnswers(cfg, w);
    } else if HostEvent(e) {
      HostEventsKeepAnswers(cfg, w, e);
    } else if e.Join? {
      JoinKeepsAnswers(cfg, w, e.id, e.nickname, e.user);
    } else if e.Submit? {
      SubmitKeepsAnswers(cfg, w, e.player, e.question, e.answers);
    } else if e.SendUpdate? {
      SendKeepsAnswers(w, e.record);
    } else if e.TimerFires? {
      FireKeepsAnswers(w, e.timer);
    } else if e.TimerReports? {
      ReportKeepsAnswers(cfg, w, e.timer);
    } else if LossEvent(e) {
      LossEventsKeepAnswers(cfg, w, e);
    } else {
      QuietEventsKeepAnswers(cfg, w, e);
    }
  }

  lemma {:induction false} RunKeepsAnswers(cfg: Config, w: World, es: seq<Event>)
    requires ValidConfig(cfg) && Control(cfg, w) && Answers(w)
    ensures Answers(Run(cfg, w, es))
    decreases |es|
  {
    if es != [] {
      StepKeepsControl(cfg, w, es[0]);
      StepKeepsAnswers(cfg, w, es[0]);
      RunKeepsAnswers(cfg, Step(cfg, w, es[0]), es[1..]);
    }
  }

  lemma AnswersInRuns(cfg: Config, start: int, es: seq<Event>)
    requires ValidConfig(cfg)
    ensures Control(cfg, After(cfg, start, es)) && Answers(After(cfg, start, es))
  {
    ControlAtStart(cfg, start);
    ControlInRuns(cfg, start, es);
    RunKeepsAnswers(cfg, Begin(start), es);
  }

  // ---- Scores over whole runs ----

  lemma {:induction false} PointsBetween(records: seq<Record>, player: PlayerId)
    requires forall i :: 0 <= i < |records| ==> PointsFit(records[i])
    ensures 100 * CorrectCount(records, player) <= PointsOf(records, player)
         <= 1000 * CorrectCount(records, player)
  {
    if records != [] {
      PointsBetween(records[..|records| - 1], player);
    }
  }

  /** The questions a player has rows for. */
  function QuestionsOf(records: seq<Record>, player: PlayerId): set<QuestionId> {
    set r | r in records && r.player == player :: r.question
  }

  lemma QuestionsOfAppend(front: seq<Record>, last: Record, player: PlayerId)
    requires UniqueKeys(front + [last])
    ensures QuestionsOf(front + [last], player)
         == QuestionsOf(front, player) + if last.player == player then {last.question} else {}
    ensures last.player == player ==> last.question !in QuestionsOf(front, player)
  {
    var records := front + [last];
    forall r | r in front && r.player == player && last.player == player
      ensures r.question != last.question
    {
      var i :| 0 <= i < |front| && front[i] == r;
      assert records[i] == r && records[|front|] == last;
    }
  }

  lemma {:induction false} CorrectAtMostQuestions(records: seq<Record>, player: PlayerId)
    requires UniqueKeys(records)
    ensures CorrectCount(records, player) <= |QuestionsOf(records, player)|
  {
    if records != [] {
      var front := records[..|records| - 1];
      var last := records[|records| - 1];
      assert records == front + [last];
      CorrectAtMostQuestions(front, player);
      QuestionsOfAppend(front, last, player);
    }
  }

  lemma SubsetCard<T>(a: set<T>, b: set<T>)
    requires a <= b
    ensures |a| <= |b|
  {
    assert b == a + (b - a);
  }

  /** In every reachable state a player's score is the sum over its rows, and with c correct rows
      it lies between 100c and 1000c, where c does not exceed the number of questions opened. */
  lemma ScoreConservation(cfg: Config, start: int, es: seq<Event>, i: nat)
    requires ValidConfig(cfg)
    requires i < |After(cfg, start, es).room.db.players|
    ensures var db := After(cfg, start, es).room.db;
      var p := db.players[i];
      var c := CorrectCount(db.records, p.id);
      && p.score == PointsOf(db.records, p.id)
      && 100 * c <= p.score <= 1000 * c
      && c <= db.index
  {
    AnswersInRuns(cfg, start, es);
    ShownIsPrefix(cfg, start, es);
    ScoreFits(After(cfg, start, es), i);
  }

  lemma ScoreFits(w: World, i: nat)
    requires Answers(w) && i < |w.room.db.players| && Distinct(w.shown)
    ensures var db := w.room.db;
      var p := db.players[i];
      var c := CorrectCount(db.records, p.id);
      && p.score == PointsOf(db.records, p.id)
      && 100 * c <= p.score <= 1000 * c
      && c <= |w.shown|
  {
    var db := w.room.db;
    var p := db.players[i];
    forall k | 0 <= k < |db.records| ensures PointsFit(db.records[k]) {
      assert RecordFits(db.records[k], db.players, w.shown);
    }
    PointsBetween(db.records, p.id);
    CorrectAtMostQuestions(db.records, p.id);
    forall q | q in QuestionsOf(db.records, p.id) ensures q in Elements(w.shown) {
      var r :| r in db.records && r.player == p.id && r.question == q;
      var k :| 0 <= k < |db.records| && db.records[k] == r;
      assert RecordFits(db.records[k], db.players, w.shown);
    }
    SubsetCard(QuestionsOf(db.records, p.id), Elements(w.shown));
    DistinctCard(w.shown);
  }

  /** A refused submission changes nothing, and an accepted one changes only the sender's score,
      by the points of the one new row. */
  lemma SubmissionEffect(cfg: Config, start: int, es: seq<Event>, player: PlayerId,
                         question: Option<QuestionId>, answers: seq<AnswerId>)
    requires ValidConfig(cfg)
    ensures var r := After(cfg, start, es).room;
      var (r', result) := SubmitAnswer(cfg, r, After(cfg, start, es).now, player, question, answers);
      match result
      case Err(_) => r' == r
      case Ok(record) =>
        && r'.db.records == r.db.records + [record] && record.player == player
        && !HasRecord(r.db.records, player, record.question) && question == Some(record.question)
        && |r'.db.players| == |r.db.players|
        && (forall i :: 0 <= i < |r.db.players| ==>
              r'.db.players[i] == if r.db.players[i].id == player
                then r.db.players[i].(score := r.db.players[i].score + record.points)
                else r.db.players[i])
        && r'.db.status == r.db.status == Question && r'.db.index == r.db.index
        && player in AnsweredAt(r'.cache, r'.db.index)
        && (r'.cache.order, r'.cache.questionStart, r'.cache.ranking)
             == (r.cache.order, r.cache.questionStart, r.cache.ranking)
  {
    var w := After(cfg, start, es);
    ControlInRuns(cfg, start, es);
    if SubmitAnswer(cfg, w.room, w.now, player, question, answers).1.Ok? {
      AcceptedSubmission(cfg, w, player, question, answers);
    }
  }

  /** A submission is taken exactly from a known player without a row for it, not listed as having
      answered, while a question runs and the submission names it. It is refused as not active when
      no question runs, or when an unlisted player does not name the running one, and as already
      answered otherwise. */
  lemma SubmissionTakenIff(cfg: Config, r: Room, now: int, player: PlayerId,
                           question: Option<QuestionId>, answers: seq<AnswerId>)
    requires PositiveLimits(cfg)
    ensures var result := SubmitAnswer(cfg, r, now, player, question, answers).1;
      var listed := player in AnsweredAt(r.cache, r.db.index);
      var active := r.db.status == Question && (listed || NamesCurrent(cfg, r, question));
      && (result == Err(QuestionNotActive) <==> !active)
      && (result.Ok? <==>
            && active && !listed && KnownPlayer(r.db.players, player)
            && !HasRecord(r.db.records, player, question.value))
      && (result.Ok? || result == Err(QuestionNotActive) || result == Err(AlreadyAnswered))
  {
    if CurrentQuestion(cfg, r).Some? {
      FoundQuestion(cfg.questions, r.cache.order.value[r.db.index - 1]);
    }
  }

  // ---- The answered set is only a cache ----

  predicate NamesCurrent(cfg: Config, r: Room, question: Option<QuestionId>) {
    CurrentQuestion(cfg, r).Some? && question == Some(CurrentQuestion(cfg, r).value.id)
  }

  /** Whatever members the answered set has lost, `submit_answer` accepts exactly the submissions
      that the unique key alone accepts, with the same row and the same database afterwards. Only
      the error may differ, exactly when the sender is still listed for a running question and
      the submission does not name that question. */
  lemma AnsweredSetRefines(cfg: Config, start: int, es: seq<Event>, player: PlayerId,
                           question: Option<QuestionId>, answers: seq<AnswerId>)
    requires ValidConfig(cfg)
    ensures var w := After(cfg, start, es);
      var (r', cached) := SubmitAnswer(cfg, w.room, w.now, player, question, answers);
      var plain := SubmitUncached(cfg, w.room, w.now, player, question, answers);
      && (cached.Ok? <==> plain.Ok?)
      && (cached.Ok? ==> r'.db == plain.value.0 && cached.value == plain.value.1)
      && (cached.Err? ==> r' == w.room)
      && (cached.Err? && plain.Err? ==>
            (cached.error != plain.error <==>
              && w.room.db.status == Question
              && player in AnsweredAt(w.room.cache, w.room.db.index)
              && !NamesCurrent(cfg, w.room, question)))
  {
    var w := After(cfg, start, es);
    AnswersInRuns(cfg, start, es);
    if w.room.db.status == Question && player in AnsweredAt(w.room.cache, w.room.db.index) {
      assert HasRecord(w.room.db.records, player, w.shown[w.room.db.index - 1]);
      if NamesCurrent(cfg, w.room, question) {
        CurrentIsShown(cfg, w);
      }
    }
  }
}
