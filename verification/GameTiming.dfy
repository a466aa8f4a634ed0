/** From when an answer is timed. The start key is written after the question is committed, so
    there is a window in which the key of the previous question is still in place. */
module GameTiming {
  import opened Prelude
  import opened Scoring
  import opened Leaderboard
  import opened GameModel
  import opened GameWorld
  import opened GameRuns
  import opened GameAnswers
  import opened GameTimers
  import opened Sorting
  import opened Text

  /** The start key is no older than the running question, except that it is no newer while its
      write is pending or after the handler has failed before that write. */
  ghost predicate TimedFit(h: Handler, missed: bool, start: Option<int>, openedAt: int, now: int) {
    && openedAt <= now && !(h.Opened? && missed)
    && (start.Some? ==>
          && start.value <= now
          && (h.Opened? || missed ==> start.value <= openedAt)
          && (!h.Opened? && !missed ==> start.value >= openedAt))
  }

  ghost predicate Timed(w: World) {
    TimedFit(w.handler, w.missed.clock, w.room.cache.questionStart, w.openedAt, w.now)
  }

  /** Steps that leave the start key and the opening time alone and do not open a question. */
  predicate SameClock(w: World, w': World) {
    && w'.room.cache.questionStart == w.room.cache.questionStart && w'.openedAt == w.openedAt
    && w'.now == w.now && w'.missed == w.missed
    && (w'.handler.Opened? <==> w.handler.Opened?)
  }

  lemma OpenSetsClock(w: World, next: nat, order: seq<QuestionId>)
    requires Timed(w) && w.handler.Advancing?
    ensures Timed(OpenQuestion(w, next, order))
  {
  }

  lemma StartSetsClock(cfg: Config, w: World, current: nat, question: QuestionId)
    requires Timed(w) && w.handler.Opened?
    ensures Timed(StartClock(cfg, w, current, question))
  {
  }

  lemma QuietBlocksKeepClock(cfg: Config, w: World)
    requires !w.handler.Advancing? && !w.handler.Opened? && !w.handler.Deciding?
    requires !w.handler.ReportingEnd? && !w.handler.ReportingFinal?
    ensures SameClock(w, StepHandler(cfg, w))
  {
  }

  lemma BoardKeepsClock(w: World, h: Handler)
    requires h.Opened? <==> w.handler.Opened?
    ensures SameClock(w, ShowBoard(w).(handler := h))
  {
  }

  lemma DecideKeepsClock(cfg: Config, w: World, seen: Status, next: nat, count: nat)
    requires w.handler.Deciding?
    ensures SameClock(w, Decide(cfg, w, seen, next, count))
  {
  }

  lemma HandlerKeepsTimed(cfg: Config, w: World)
    requires Timed(w)
    ensures Timed(StepHandler(cfg, w))
  {
    match w.handler
    case Advancing(next, order) => OpenSetsClock(w, next, order);
    case Opened(current, question) => StartSetsClock(cfg, w, current, question);
    case Deciding(seen, next, count) => DecideKeepsClock(cfg, w, seen, next, count);
    case ReportingEnd => BoardKeepsClock(w, Idle);
    case ReportingFinal => BoardKeepsClock(w, Clearing);
    case _ => QuietBlocksKeepClock(cfg, w);
  }

  lemma TimersKeepClock(cfg: Config, w: World, t: Timer)
    ensures SameClock(w, FireTimer(w, t)) && SameClock(w, ReportTimer(cfg, w, t))
  {
    var w1 := w.(timers := w.timers - multiset{t});
    BoardKeepsClock(w1, w1.handler);
  }

  lemma SubmitKeepsClock(cfg: Config, w: World, player: PlayerId,
                         question: Option<QuestionId>, answers: seq<AnswerId>)
    requires PositiveLimits(cfg)
    ensures SameClock(w, SubmitStep(cfg, w, player, question, answers))
  {
  }

  lemma PlayersKeepClock(cfg: Config, w: World, id: PlayerId, nickname: string, user: Option<UserId>, record: Record)
    ensures SameClock(w, JoinStep(cfg, w, id, nickname, user)) && SameClock(w, SendStep(w, record))
  {
    var w' := SendStep(w, record);
    assert w' == w.(inflight := w'.inflight, sent := w'.sent);
  }

  lemma PressStartKeepsClock(cfg: Config, w: World, caller: UserId, order: seq<QuizQuestion>)
    ensures SameClock(w, PressStartStep(cfg, w, caller, order))
  {
  }

  lemma OthersKeepTimed(cfg: Config, w: World, c: Cache)
    requires Timed(w)
    ensures Timed(PressNextStep(cfg, w)) && Timed(FailStep(w))
    ensures c.questionStart == w.room.cache.questionStart || c.questionStart == None ==> Timed(WithCache(w, c))
    ensures Timed(LoseOrderStep(w)) && Timed(ForgetRanking(w))
  {
  }

  lemma HostEventsKeepTimed(cfg: Config, w: World, e: Event)
    requires PositiveLimits(cfg) && Timed(w) && HostEvent(e)
    ensures Timed(Step(cfg, w, e))
  {
    match e
    case PressStart(caller, order) => PressStartKeepsClock(cfg, w, caller, order);
    case _ => OthersKeepTimed(cfg, w, w.room.cache);
  }

  lemma PlayerEventsKeepTimed(cfg: Config, w: World, e: Event)
    requires PositiveLimits(cfg) && Timed(w) && PlayerEvent(e)
    ensures Timed(Step(cfg, w, e))
  {
    match e
    case Join(id, nickname, user) =>
      PlayersKeepClock(cfg, w, id, nickname, user, Record(0, 0, [], false, 0, 0));
    case Submit(player, question, answers) => SubmitKeepsClock(cfg, w, player, question, answers);
    case SendUpdate(record) => PlayersKeepClock(cfg, w, 0, [], None, record);
  }

  lemma LossEventsKeepTimed(cfg: Config, w: World, e: Event)
    requires PositiveLimits(cfg) && Timed(w) && LossEvent(e)
    ensures Timed(Step(cfg, w, e))
  {
    match e
    case LoseOrder => OthersKeepTimed(cfg, w, w.room.cache);
    case LoseStart => OthersKeepTimed(cfg, w, w.room.cache.(questionStart := None));
    case LoseAnswered(index, players) => OthersKeepTimed(cfg, w, Forget(w.room.cache, index, players));
    case LoseRanking => OthersKeepTimed(cfg, w, w.room.cache);
  }

  lemma QuietEventsKeepTimed(cfg: Config, w: World, e: Event)
    requires PositiveLimits(cfg) && Timed(w) && QuietEvent(e)
    ensures Timed(Step(cfg, w, e))
  {
    match e
    case Tick(_) =>
    case ViewResults => BoardKeepsClock(w, w.handler);
  }

  lemma StepKeepsTimed(cfg: Config, w: World, e: Event)
    requires PositiveLimits(cfg) && Timed(w)
    ensures Timed(Step(cfg, w, e))
  {
    if e.HandlerStep? {
      HandlerKeepsTimed(cfg, w);
    } else if HostEvent(e) {
      HostEventsKeepTimed(cfg, w, e);
    } else if PlayerEvent(e) {
      PlayerEventsKeepTimed(cfg, w, e);
    } else if TimerEvent(e) {
      TimersKeepClock(cfg, w, e.timer);
    } else if LossEvent(e) {
      LossEventsKeepTimed(cfg, w, e);
    } else {
      QuietEventsKeepTimed(cfg, w, e);
    }
  }

  lemma {:induction false} RunKeepsTimed(cfg: Config, w: World, es: seq<Event>)
    requires PositiveLimits(cfg) && Timed(w)
    ensures Timed(Run(cfg, w, es))
    decreases |es|
  {
    if es != [] {
      StepKeepsTimed(cfg, w, es[0]);
      RunKeepsTimed(cfg, Step(cfg, w, es[0]), es[1..]);
    }
  }

  lemma MillisecondsMonotone(a: int, b: int)
    requires 0 <= a <= b
    ensures 0 <= Milliseconds(a) <= Milliseconds(b)
  {
  }

  /** How an accepted answer is timed. Without a start key it counts as the whole limit and scores
      the minimum. With a key written for its question it takes at most the time since the
      question was opened and scores at least what that time is worth. While that key is not yet
      written, or if the handler failed before writing it, the key is an earlier one: the answer
      takes at least that time and scores at most what it is worth. */
  lemma AnswerTiming(cfg: Config, start: int, es: seq<Event>, player: PlayerId,
                     question: Option<QuestionId>, answers: seq<AnswerId>)
    requires ValidConfig(cfg)
    requires var w := After(cfg, start, es);
      SubmitAnswer(cfg, w.room, w.now, player, question, answers).1.Ok?
    ensures var w := After(cfg, start, es);
      var record := SubmitAnswer(cfg, w.room, w.now, player, question, answers).1.value;
      var sinceOpening := Milliseconds(w.now - w.openedAt);
      var key := w.room.cache.questionStart;
      var q := CurrentQuestion(cfg, w.room);
      && q.Some? && q.value.timeLimit > 0
      && (key.None? ==>
            record.timeTakenMs == q.value.timeLimit && (record.correct ==> record.points == MIN_POINTS_PER_QUESTION))
      && (key.Some? && !w.handler.Opened? && !w.missed.clock ==>
            && key.value >= w.openedAt && record.timeTakenMs <= sinceOpening
            && record.points >= CalculateScore(sinceOpening, q.value.timeLimit, record.correct))
      && (key.Some? && (w.handler.Opened? || w.missed.clock) ==>
            && key.value <= w.openedAt && record.timeTakenMs >= sinceOpening
            && record.points <= CalculateScore(sinceOpening, q.value.timeLimit, record.correct))
  {
    var w := After(cfg, start, es);
    ControlInRuns(cfg, start, es);
    RunKeepsTimed(cfg, Begin(start), es);
    AcceptedSubmission(cfg, w, player, question, answers);
    var q := CurrentQuestion(cfg, w.room).value;
    var record := SubmitAnswer(cfg, w.room, w.now, player, question, answers).1.value;
    var sinceOpening := Milliseconds(w.now - w.openedAt);
    match w.room.cache.questionStart
    case None =>
      ScoreIsIntegerFormula(q.timeLimit, q.timeLimit);
    case Some(s) =>
      if w.handler.Opened? || w.missed.clock {
        MillisecondsMonotone(w.now - w.openedAt, w.now - s);
        ScoreAntitoneInTime(sinceOpening, record.timeTakenMs, q.timeLimit);
      } else {
        MillisecondsMonotone(w.now - s, w.now - w.openedAt);
        ScoreAntitoneInTime(record.timeTakenMs, sinceOpening, q.timeLimit);
      }
  }

  // ---- An answer timed from the previous question ----

  function SampleQuestion(id: QuestionId): QuizQuestion {
    QuizQuestion(id, id, 5000, [QuizAnswer(id, true)])
  }

  /** Two questions of five seconds, each with one option. */
  const SAMPLE := Config([SampleQuestion(1), SampleQuestion(2)], None, 0, false, PLAIN_RULES)

  /** One player has joined and none has answered. */
  ghost predicate At(w: World, h: Handler, status: Status, index: nat, start: Option<int>, now: int) {
    && w.handler == h && w.room.db.status == status && w.room.db.index == index
    && w.room.cache.questionStart == start && w.now == now
    && w.room.db.players == [Player(7, "ann", None, 0)] && w.room.db.records == []
    && w.room.cache.answered == map[]
    && (h.StoringOrder? || w.room.cache.order == Some([1, 2]))
  }

  lemma SampleStarts() returns (es: seq<Event>)
    ensures At(After(SAMPLE, 0, es), Sending(1), Starting, 0, None, 0)
  {
    var order := SAMPLE.questions;
    var w1 := SampleJoins();
    var w2 := SampleIsStarted(w1);
    assert Step(SAMPLE, Begin(0), Join(7, "ann", None)) == w1;
    assert Step(SAMPLE, w1, PressStart(0, order)) == w2;
    RunTwo(SAMPLE, Begin(0), Join(7, "ann", None), PressStart(0, order));
    RunSnoc(SAMPLE, Begin(0), [Join(7, "ann", None), PressStart(0, order)], HandlerStep);
    SampleOrderWritten(w2);
    es := [Join(7, "ann", None), PressStart(0, order)] + [HandlerStep];
  }

  lemma SampleOrderWritten(w: World)
    requires At(w, StoringOrder([1, 2]), Starting, 0, None, 0)
    ensures At(Step(SAMPLE, w, HandlerStep), Sending(1), Starting, 0, None, 0)
  {
    assert Step(SAMPLE, w, HandlerStep) == WriteOrder(w, [1, 2]);
  }

  lemma SampleJoins() returns (w: World)
    ensures w == JoinStep(SAMPLE, Begin(0), 7, "ann", None)
    ensures w == Begin(0).(room := w.room)
    ensures w.room == EMPTY_ROOM.(db := EMPTY_ROOM.db.(players := [Player(7, "ann", None, 0)]))
  {
    w := JoinStep(SAMPLE, Begin(0), 7, "ann", None);
  }

  lemma SampleIsStarted(w: World) returns (w': World)
    requires w == Begin(0).(room := w.room)
    requires w.room == EMPTY_ROOM.(db := EMPTY_ROOM.db.(players := [Player(7, "ann", None, 0)]))
    ensures w' == PressStartStep(SAMPLE, w, 0, SAMPLE.questions)
    ensures At(w', StoringOrder([1, 2]), Starting, 0, None, 0)
  {
    SortOfSorted(SAMPLE.questions, PositionOf);
    assert PlayOrder(SAMPLE, SAMPLE.questions);
    assert Ids(SAMPLE.questions) == [1, 2];
    w' := PressStartStep(SAMPLE, w, 0, SAMPLE.questions);
  }

  /** Two handler steps open the next question at the time `now`. */
  lemma SampleOpens(w: World, status: Status, index: nat, start: Option<int>, now: int) returns (w': World)
    requires At(w, Sending(index + 1), status, index, start, now) && index <= 1
    ensures w' == Step(SAMPLE, Step(SAMPLE, w, HandlerStep), HandlerStep)
    ensures At(w', Opened(index + 1, index + 1), Question, index + 1, start, now) && w'.openedAt == now
  {
    var w1 := ReadOrder(w, index + 1);
    assert Step(SAMPLE, w, HandlerStep) == w1;
    w' := OpenQuestion(w1, index + 1, [1, 2]);
    assert Step(SAMPLE, w1, HandlerStep) == w';
  }

  /** The first question's clock and task start. */
  lemma SampleAnnounces(w: World)
    requires At(w, Opened(1, 1), Question, 1, None, 0)
    ensures At(Run(SAMPLE, w, [HandlerStep, HandlerStep]), Idle, Question, 1, Some(0), 0)
  {
    var w1 := StartClock(SAMPLE, w, 1, 1);
    assert FindQuestion(SAMPLE.questions, 1) == Some(SampleQuestion(1));
    assert Step(SAMPLE, w, HandlerStep) == w1;
    assert Step(SAMPLE, w1, HandlerStep) == StartTimer(w1, 1, 5000);
    RunTwo(SAMPLE, w, HandlerStep, HandlerStep);
  }

  /** Two seconds later the host presses for the next question. */
  lemma SampleIsPressed(w: World)
    requires At(w, Idle, Question, 1, Some(0), 0)
    ensures At(Run(SAMPLE, w, [Tick(2000000), PressNext]), Deciding(Question, 2, 2), Question, 1, Some(0), 2000000)
  {
    var w1 := w.(now := 2000000);
    assert Step(SAMPLE, w, Tick(2000000)) == w1;
    assert Step(SAMPLE, w1, PressNext) == PressNextStep(SAMPLE, w1);
    RunTwo(SAMPLE, w, Tick(2000000), PressNext);
  }

  /** The running question is ended first. */
  lemma SampleIsForced(w: World)
    requires At(w, Deciding(Question, 2, 2), Question, 1, Some(0), 2000000)
    ensures At(Run(SAMPLE, w, [HandlerStep, HandlerStep]), ReportingEnd, Revealing, 1, Some(0), 2000000)
  {
    var w1 := Decide(SAMPLE, w, Question, 2, 2);
    assert CurrentQuestion(SAMPLE, w.room) == Some(SampleQuestion(1));
    assert Step(SAMPLE, w, HandlerStep) == w1;
    assert Step(SAMPLE, w1, HandlerStep) == ForceEnd(w1);
    RunTwo(SAMPLE, w, HandlerStep, HandlerStep);
  }

  lemma SampleReports(w: World)
    requires At(w, ReportingEnd, Revealing, 1, Some(0), 2000000)
    ensures At(Run(SAMPLE, w, [HandlerStep, PressNext]), Deciding(Revealing, 2, 2), Revealing, 1, Some(0), 2000000)
  {
    var w1 := ShowBoard(w).(handler := Idle);
    assert Step(SAMPLE, w, HandlerStep) == w1;
    assert Step(SAMPLE, w1, PressNext) == PressNextStep(SAMPLE, w1);
    RunTwo(SAMPLE, w, HandlerStep, PressNext);
  }

  lemma SampleDecides(w: World)
    requires At(w, Deciding(Revealing, 2, 2), Revealing, 1, Some(0), 2000000)
    ensures At(Step(SAMPLE, w, HandlerStep), Sending(2), Revealing, 1, Some(0), 2000000)
  {
    assert Step(SAMPLE, w, HandlerStep) == Decide(SAMPLE, w, Revealing, 2, 2);
  }

  lemma SampleMovesOn(w: World) returns (es: seq<Event>)
    requires At(w, Opened(1, 1), Question, 1, None, 0)
    ensures At(Run(SAMPLE, w, es), Sending(2), Revealing, 1, Some(0), 2000000)
  {
    es := [HandlerStep, HandlerStep];
    SampleAnnounces(w);
    SampleIsPressed(Run(SAMPLE, w, es));
    RunAppend(SAMPLE, w, es, [Tick(2000000), PressNext]);
    es := es + [Tick(2000000), PressNext];
    SampleIsForced(Run(SAMPLE, w, es));
    RunAppend(SAMPLE, w, es, [HandlerStep, HandlerStep]);
    es := es + [HandlerStep, HandlerStep];
    SampleReports(Run(SAMPLE, w, es));
    RunAppend(SAMPLE, w, es, [HandlerStep, PressNext]);
    es := es + [HandlerStep, PressNext];
    SampleDecides(Run(SAMPLE, w, es));
    RunSnoc(SAMPLE, w, es, HandlerStep);
    es := es + [HandlerStep];
  }

  lemma SampleFirstOpens() returns (es: seq<Event>)
    ensures At(After(SAMPLE, 0, es), Opened(1, 1), Question, 1, None, 0)
  {
    var before := SampleStarts();
    var w := SampleOpens(After(SAMPLE, 0, before), Starting, 0, None, 0);
    RunTwo(SAMPLE, After(SAMPLE, 0, before), HandlerStep, HandlerStep);
    RunAppend(SAMPLE, Begin(0), before, [HandlerStep, HandlerStep]);
    es := before + [HandlerStep, HandlerStep];
  }

  lemma SampleSecondOpens() returns (es: seq<Event>)
    ensures At(After(SAMPLE, 0, es), Opened(2, 2), Question, 2, Some(0), 2000000)
    ensures After(SAMPLE, 0, es).openedAt == 2000000
  {
    var before := SampleFirstOpens();
    var between := SampleMovesOn(After(SAMPLE, 0, before));
    RunAppend(SAMPLE, Begin(0), before, between);
    var w := SampleOpens(After(SAMPLE, 0, before + between), Revealing, 1, Some(0), 2000000);
    RunTwo(SAMPLE, After(SAMPLE, 0, before + between), HandlerStep, HandlerStep);
    RunAppend(SAMPLE, Begin(0), before + between, [HandlerStep, HandlerStep]);
    es := before + between + [HandlerStep, HandlerStep];
  }

  /** The window costs points: in a reachable state a correct answer given the moment its question
      opens is accepted as if it had taken two seconds, and scores 640 instead of 1000. */
  lemma WindowCostsPoints() returns (es: seq<Event>)
    ensures ValidConfig(SAMPLE)
    ensures var w := After(SAMPLE, 0, es);
      var result := SubmitAnswer(SAMPLE, w.room, w.now, 7, Some(2), [2]).1;
      && w.now == w.openedAt
      && result.Ok? && result.value.correct && result.value.timeTakenMs == 2000
      && result.value.points == 640 && CalculateScore(0, 5000, true) == 1000
  {
    es := SampleSecondOpens();
    SampleGraded(After(SAMPLE, 0, es));
  }

  lemma SampleGraded(w: World)
    requires At(w, Opened(2, 2), Question, 2, Some(0), 2000000)
    ensures var result := SubmitAnswer(SAMPLE, w.room, w.now, 7, Some(2), [2]).1;
      && result.Ok? && result.value.correct && result.value.timeTakenMs == 2000
      && result.value.points == 640 && CalculateScore(0, 5000, true) == 1000
  {
    assert FindQuestion(SAMPLE.questions, 2) == Some(SampleQuestion(2));
    assert CurrentQuestion(SAMPLE, w.room) == Some(SampleQuestion(2));
    assert Elements([2]) == {2};
    assert SampleQuestion(2).answers[0].id in CorrectIds(SampleQuestion(2));
    assert CorrectIds(SampleQuestion(2)) == {2};
    assert w.room.db.players[0].id == 7;
    ScoreIsIntegerFormula(2000, 5000);
    ScoreIsIntegerFormula(0, 5000);
  }
}
