/** What holds of every run of a room, in every interleaving. */
module GameRuns {
  import opened Prelude
  import opened Sorting
  import opened Leaderboard
  import opened GameModel
  import opened GameWorld
  import opened GameControl

  lemma {:induction false} RunKeepsControl(cfg: Config, w: World, es: seq<Event>)
    requires ValidConfig(cfg) && Control(cfg, w)
    ensures Control(cfg, Run(cfg, w, es))
    decreases |es|
  {
    if es != [] {
      StepKeepsControl(cfg, w, es[0]);
      RunKeepsControl(cfg, Step(cfg, w, es[0]), es[1..]);
    }
  }

  lemma ControlInRuns(cfg: Config, start: int, es: seq<Event>)
    requires ValidConfig(cfg)
    ensures Control(cfg, After(cfg, start, es))
  {
    ControlAtStart(cfg, start);
    RunKeepsControl(cfg, Begin(start), es);
  }

  // ---- Status only moves forward ----

  /** The moves a game may make: start, open the next question, end the running one, finish. */
  predicate Move(s: Status, i: nat, s': Status, i': nat) {
    || (s == Waiting && s' == Starting && i' == i)
    || ((s == Starting || s == Revealing) && s' == Question && i' == i + 1)
    || (s == Question && s' == Revealing && i' == i)
    || ((s == Starting || s == Revealing) && s' == Finished && i' == i)
  }

  predicate StaysOrMoves(a: Database, b: Database) {
    (a.status == b.status && a.index == b.index) || Move(a.status, a.index, b.status, b.index)
  }

  lemma HandlerMoves(cfg: Config, w: World)
    requires Control(cfg, w)
    ensures StaysOrMoves(w.room.db, StepHandler(cfg, w).room.db)
  {
    match w.handler
    case Advancing(next, order) => OpeningMoves(cfg, w, next, order);
    case Opened(current, question) => ClockMoves(cfg, w, current, question);
    case Deciding(seen, next, count) => DecideMoves(cfg, w, seen, next, count);
    case _ => OtherBlocksMove(cfg, w);
  }

  lemma OpeningMoves(cfg: Config, w: World, next: nat, order: seq<QuestionId>)
    requires Control(cfg, w) && w.handler == Advancing(next, order)
    ensures StaysOrMoves(w.room.db, OpenQuestion(w, next, order).room.db)
  {
  }

  lemma ClockMoves(cfg: Config, w: World, current: nat, question: QuestionId)
    ensures StartClock(cfg, w, current, question).room.db == w.room.db
  {
  }

  lemma DecideMoves(cfg: Config, w: World, seen: Status, next: nat, count: nat)
    ensures Decide(cfg, w, seen, next, count).room == w.room
  {
  }

  lemma OtherBlocksMove(cfg: Config, w: World)
    requires Control(cfg, w) && !w.handler.Advancing? && !w.handler.Opened? && !w.handler.Deciding?
    ensures StaysOrMoves(w.room.db, StepHandler(cfg, w).room.db)
  {
    if w.handler.ForcingEnd? || w.handler.Ending? {
      EndingBlocksMove(cfg, w);
    } else {
      QuietBlocksStay(cfg, w);
    }
  }

  lemma EndingBlocksMove(cfg: Config, w: World)
    requires Control(cfg, w) && (w.handler.ForcingEnd? || w.handler.Ending?)
    ensures StaysOrMoves(w.room.db, StepHandler(cfg, w).room.db)
  {
    if w.handler.ForcingEnd? {
      assert StepHandler(cfg, w) == ForceEnd(w);
    } else {
      assert StepHandler(cfg, w) == Finish(w);
    }
  }

  lemma QuietBlocksStay(cfg: Config, w: World)
    requires !w.handler.Advancing? && !w.handler.Opened? && !w.handler.Deciding?
    requires !w.handler.ForcingEnd? && !w.handler.Ending?
    ensures StepHandler(cfg, w).room.db == w.room.db
  {
  }

  lemma TimerMoves(cfg: Config, w: World, t: Timer)
    ensures StaysOrMoves(w.room.db, FireTimer(w, t).room.db)
    ensures ReportTimer(cfg, w, t).room.db == w.room.db
  {
  }

  lemma PlayersMove(cfg: Config, w: World, e: Event)
    requires PositiveLimits(cfg) && PlayerEvent(e)
    ensures var db := Step(cfg, w, e).room.db; db.status == w.room.db.status && db.index == w.room.db.index
  {
    match e
    case Join(id, nickname, user) => assert Step(cfg, w, e) == JoinStep(cfg, w, id, nickname, user);
    case Submit(p, q, a) => assert Step(cfg, w, e) == SubmitStep(cfg, w, p, q, a);
    case SendUpdate(record) => assert Step(cfg, w, e) == SendStep(w, record);
  }

  lemma HostEventsMove(cfg: Config, w: World, e: Event)
    requires ValidConfig(cfg) && Control(cfg, w) && HostEvent(e)
    ensures StaysOrMoves(w.room.db, Step(cfg, w, e).room.db)
  {
  }

  lemma QuietEventsMove(cfg: Config, w: World, e: Event)
    requires ValidConfig(cfg) && Control(cfg, w) && (QuietEvent(e) || LossEvent(e))
    ensures StaysOrMoves(w.room.db, Step(cfg, w, e).room.db)
  {
  }

  /** One step, whoever takes it, leaves status and index alone or makes one legal move. */
  lemma StepMoves(cfg: Config, w: World, e: Event)
    requires ValidConfig(cfg) && Control(cfg, w)
    ensures StaysOrMoves(w.room.db, Step(cfg, w, e).room.db)
  {
    if e.HandlerStep? {
      HandlerMoves(cfg, w);
    } else if HostEvent(e) {
      HostEventsMove(cfg, w, e);
    } else if PlayerEvent(e) {
      PlayersMove(cfg, w, e);
    } else if TimerEvent(e) {
      TimerMoves(cfg, w, e.timer);
    } else {
      QuietEventsMove(cfg, w, e);
    }
  }

  /** Over any continuation of any run: the index never drops, progress never drops, and a
      finished game stays finished at the same index. */
  lemma {:induction false} NeverBack(cfg: Config, w: World, es: seq<Event>)
    requires ValidConfig(cfg) && Control(cfg, w)
    ensures var a, b := w.room.db, Run(cfg, w, es).room.db;
      && Progress(a.status, a.index) <= Progress(b.status, b.index)
      && a.index <= b.index <= |cfg.questions|
      && (a.status == Finished ==> b.status == Finished && b.index == a.index)
    decreases |es|
  {
    if es != [] {
      StepMoves(cfg, w, es[0]);
      StepKeepsControl(cfg, w, es[0]);
      NeverBack(cfg, Step(cfg, w, es[0]), es[1..]);
    }
  }

  /** The start time is set exactly when the game is past waiting and the end time exactly when it
      is finished. */
  lemma TimestampsFollowStatus(cfg: Config, start: int, es: seq<Event>)
    requires ValidConfig(cfg)
    ensures var db := After(cfg, start, es).room.db;
      && (db.startedAt.Some? <==> db.status != Waiting)
      && (db.endedAt.Some? <==> db.status == Finished)
  {
    ControlInRuns(cfg, start, es);
  }

  /** The start is not in the future, and the end neither before the start nor in the future. */
  predicate TimesFit(started: Option<int>, ended: Option<int>, now: int) {
    && (started.Some? ==> started.value <= now)
    && (ended.Some? ==> started.Some? && started.value <= ended.value <= now)
  }

  predicate TimesInOrder(w: World) { TimesFit(w.room.db.startedAt, w.room.db.endedAt, w.now) }

  predicate SameTimes(w: World, w': World) {
    w'.room.db.startedAt == w.room.db.startedAt && w'.room.db.endedAt == w.room.db.endedAt && w'.now == w.now
  }

  lemma StartKeepsTimes(cfg: Config, w: World, caller: UserId, order: seq<QuizQuestion>)
    requires Control(cfg, w) && TimesInOrder(w)
    ensures TimesInOrder(PressStartStep(cfg, w, caller, order))
    ensures SameTimes(w, PressNextStep(cfg, w)) && SameTimes(w, FailStep(w))
  {
  }

  lemma EndingKeepsTimes(cfg: Config, w: World, next: nat, order: seq<QuestionId>)
    requires Control(cfg, w) && TimesInOrder(w)
    ensures w.handler == Advancing(next, order) ==> TimesInOrder(OpenQuestion(w, next, order))
    ensures w.handler.Ending? ==> TimesInOrder(Finish(w))
  {
  }

  lemma HandlerKeepsTimes(cfg: Config, w: World)
    requires Control(cfg, w) && TimesInOrder(w)
    ensures TimesInOrder(StepHandler(cfg, w))
  {
    match w.handler
    case Advancing(next, order) => EndingKeepsTimes(cfg, w, next, order);
    case Opened(current, question) => ClockMoves(cfg, w, current, question);
    case Deciding(seen, next, count) => DecideMoves(cfg, w, seen, next, count);
    case Ending => EndingKeepsTimes(cfg, w, 0, []);
    case _ => QuietBlocksKeepTimes(cfg, w);
  }

  lemma QuietBlocksKeepTimes(cfg: Config, w: World)
    requires !w.handler.Advancing? && !w.handler.Opened? && !w.handler.Deciding? && !w.handler.Ending?
    ensures SameTimes(w, StepHandler(cfg, w))
  {
  }

  lemma PlayersKeepTimes(cfg: Config, w: World, e: Event)
    requires PositiveLimits(cfg) && PlayerEvent(e)
    ensures SameTimes(w, Step(cfg, w, e))
  {
    match e
    case Join(id, nickname, user) => assert Step(cfg, w, e) == JoinStep(cfg, w, id, nickname, user);
    case Submit(p, q, a) => assert Step(cfg, w, e) == SubmitStep(cfg, w, p, q, a);
    case SendUpdate(record) => assert Step(cfg, w, e) == SendStep(w, record);
  }

  lemma OthersKeepTimes(cfg: Config, w: World, e: Event)
    requires PositiveLimits(cfg) && (TimerEvent(e) || LossEvent(e) || e.ViewResults?)
    ensures SameTimes(w, Step(cfg, w, e))
  {
  }

  lemma StepKeepsTimes(cfg: Config, w: World, e: Event)
    requires ValidConfig(cfg) && Control(cfg, w) && TimesInOrder(w)
    ensures TimesInOrder(Step(cfg, w, e))
  {
    if e.HandlerStep? {
      HandlerKeepsTimes(cfg, w);
    } else if e.PressStart? {
      StartKeepsTimes(cfg, w, e.caller, e.order);
    } else if HostEvent(e) {
      StartKeepsTimes(cfg, w, 0, []);
    } else if PlayerEvent(e) {
      PlayersKeepTimes(cfg, w, e);
    } else if e.Tick? {
    } else {
      OthersKeepTimes(cfg, w, e);
    }
  }

  lemma {:induction false} RunKeepsTimes(cfg: Config, w: World, es: seq<Event>)
    requires ValidConfig(cfg) && Control(cfg, w) && TimesInOrder(w)
    ensures TimesInOrder(Run(cfg, w, es))
    decreases |es|
  {
    if es != [] {
      StepKeepsTimes(cfg, w, es[0]);
      StepKeepsControl(cfg, w, es[0]);
      RunKeepsTimes(cfg, Step(cfg, w, es[0]), es[1..]);
    }
  }

  /** In every run a finished game ended no earlier than it started, and neither lies in the future. */
  lemma TimestampsInOrder(cfg: Config, start: int, es: seq<Event>)
    requires ValidConfig(cfg)
    ensures var w := After(cfg, start, es);
      TimesFit(w.room.db.startedAt, w.room.db.endedAt, w.now)
  {
    ControlAtStart(cfg, start);
    RunKeepsTimes(cfg, Begin(start), es);
  }

  /** A waiting game starts exactly when its host presses start with an order of the quiz, and the
      start is then. */
  lemma StartsByHost(cfg: Config, start: int, es: seq<Event>, e: Event)
    requires ValidConfig(cfg) && After(cfg, start, es).room.db.status == Waiting
    ensures var w := After(cfg, start, es);
      var db := Step(cfg, w, e).room.db;
      && (db.status != Waiting <==>
            && e.PressStart? && e.caller == cfg.host && PlayOrder(cfg, e.order) && w.handler.Idle?)
      && (db.status != Waiting ==> db.status == Starting && db.startedAt == Some(w.now))
  {
    var w := After(cfg, start, es);
    ControlInRuns(cfg, start, es);
    if e.HandlerStep? {
      WaitingHandlerWaits(cfg, w);
    } else if e.PressStart? {
      StartingIff(cfg, w, e.caller, e.order);
    } else {
      StepMoves(cfg, w, e);
      OthersDoNotStart(cfg, w, e);
    }
  }

  lemma WaitingHandlerWaits(cfg: Config, w: World)
    requires Control(cfg, w) && w.room.db.status == Waiting
    ensures StepHandler(cfg, w).room.db == w.room.db
  {
    if w.handler.Deciding? {
      DecideMoves(cfg, w, w.handler.seen, w.handler.next, w.handler.count);
    }
  }

  lemma StartingIff(cfg: Config, w: World, caller: UserId, order: seq<QuizQuestion>)
    requires w.room.db.status == Waiting
    ensures var db := PressStartStep(cfg, w, caller, order).room.db;
      && (db.status != Waiting <==> caller == cfg.host && PlayOrder(cfg, order) && w.handler.Idle?)
      && (db.status != Waiting ==> db.status == Starting && db.startedAt == Some(w.now))
  {
  }

  lemma OthersDoNotStart(cfg: Config, w: World, e: Event)
    requires PositiveLimits(cfg) && w.room.db.status == Waiting && !e.HandlerStep? && !e.PressStart?
    ensures Step(cfg, w, e).room.db.status == Waiting
  {
    if PlayerEvent(e) {
      PlayersMove(cfg, w, e);
    } else if TimerEvent(e) {
      TimerMoves(cfg, w, e.timer);
    }
  }

  /** A game of n questions changes status at most 2n + 2 times, and each change counts. */
  lemma ChangesBounded(cfg: Config, start: int, es: seq<Event>)
    requires ValidConfig(cfg)
    ensures var w := After(cfg, start, es);
      && w.changes == Progress(w.room.db.status, w.room.db.index)
      && w.changes <= 2 * |cfg.questions| + 2
  {
    ControlInRuns(cfg, start, es);
  }

  // ---- Losses ----

  /** The loss of a Redis key takes that key and nothing else. */
  lemma LossesLose(cfg: Config, w: World)
    requires PositiveLimits(cfg)
    ensures var c := w.room.cache;
      && Step(cfg, w, LoseOrder).room == w.room.(cache := c.(order := None))
      && Step(cfg, w, LoseStart).room == w.room.(cache := c.(questionStart := None))
      && Step(cfg, w, LoseRanking).room == w.room.(cache := c.(ranking := None))
  {
  }

  /** The loss of members of an answered set takes exactly those. */
  lemma AnsweredLost(cfg: Config, w: World, index: nat, players: set<PlayerId>, k: nat)
    requires PositiveLimits(cfg)
    ensures var r := Step(cfg, w, LoseAnswered(index, players)).room;
      && r.db == w.room.db
      && AnsweredAt(r.cache, k) == AnsweredAt(w.room.cache, k) - if k == index then players else {}
  {
    ForgetLoses(w.room.cache, index, players, k);
    assert Step(cfg, w, LoseAnswered(index, players)) == WithCache(w, Forget(w.room.cache, index, players));
  }

  lemma ForgetLoses(c: Cache, index: nat, players: set<PlayerId>, k: nat)
    ensures AnsweredAt(Forget(c, index, players), k)
      == AnsweredAt(c, k) - if k == index then players else {}
  {
  }

  // ---- Timeouts ----

  /** Once question `t.index` has ended, its timeout task changes nothing in the room, however
      late it fires and whatever has happened in between. */
  lemma LateTimerHarmless(cfg: Config, w: World, es: seq<Event>, t: Timer)
    requires ValidConfig(cfg) && Control(cfg, w)
    requires Progress(w.room.db.status, w.room.db.index) > 2 * t.index
    ensures var w' := Run(cfg, w, es); FireTimer(w', t).room == w'.room
  {
    NeverBack(cfg, w, es);
    RunKeepsControl(cfg, w, es);
  }

  // ---- Coverage ----

  lemma {:induction false} KeyKept(cfg: Config, w: World, es: seq<Event>)
    requires PositiveLimits(cfg) && !w.orderLost && LoseOrder !in es
    ensures !Run(cfg, w, es).orderLost
    decreases |es|
  {
    if es != [] {
      StepKeepsKey(cfg, w, es[0]);
      KeyKept(cfg, Step(cfg, w, es[0]), es[1..]);
    }
  }

  lemma StepKeepsKey(cfg: Config, w: World, e: Event)
    requires PositiveLimits(cfg) && e != LoseOrder
    ensures Step(cfg, w, e).orderLost == w.orderLost
  {
    match e
    case HandlerStep => HandlerKeepsKey(cfg, w);
    case Join(id, nickname, user) => assert Step(cfg, w, e) == JoinStep(cfg, w, id, nickname, user);
    case Submit(p, q, a) => assert Step(cfg, w, e) == SubmitStep(cfg, w, p, q, a);
    case SendUpdate(record) => assert Step(cfg, w, e) == SendStep(w, record);
    case _ =>
  }

  lemma HandlerKeepsKey(cfg: Config, w: World)
    ensures StepHandler(cfg, w).orderLost == w.orderLost
  {
    match w.handler
    case Advancing(next, order) => assert StepHandler(cfg, w) == OpenQuestion(w, next, order);
    case Opened(current, question) => assert StepHandler(cfg, w) == StartClock(cfg, w, current, question);
    case Deciding(seen, next, count) => assert StepHandler(cfg, w) == Decide(cfg, w, seen, next, count);
    case _ =>
  }

  /** At any time the questions opened are the first `index` of the chosen order. */
  lemma ShownIsPrefix(cfg: Config, start: int, es: seq<Event>)
    requires ValidConfig(cfg)
    ensures var w := After(cfg, start, es);
      && |w.shown| == w.room.db.index && Distinct(w.shown)
      && (w.playOrder.Some? ==> Chosen(cfg, w.playOrder.value) && w.shown <= w.playOrder.value)
  {
    var w := After(cfg, start, es);
    ControlInRuns(cfg, start, es);
    if w.playOrder.Some? {
      ChosenIsPermutation(cfg, w.playOrder.value);
    }
  }

  /** If the order key is never lost, a finished game has opened exactly the chosen order: every
      question of the quiz once, and by position unless the room shuffles. It has then changed
      status exactly 2n + 2 times. */
  lemma FinishedCoversQuiz(cfg: Config, start: int, es: seq<Event>)
    requires ValidConfig(cfg) && LoseOrder !in es
    requires After(cfg, start, es).room.db.status == Finished
    ensures var w := After(cfg, start, es);
      && Chosen(cfg, w.shown)
      && Distinct(w.shown) && (forall id :: id in w.shown <==> id in Ids(cfg.questions))
      && (!cfg.randomize ==> w.shown == Ids(StableSort(cfg.questions, PositionOf)))
      && w.changes == 2 * |cfg.questions| + 2
  {
    var w := After(cfg, start, es);
    ControlInRuns(cfg, start, es);
    KeyKept(cfg, Begin(start), es);
    var order := w.playOrder.value;
    ChosenIsPermutation(cfg, order);
    assert order[..w.room.db.index] == order;
    var qs: seq<QuizQuestion> :| PlayOrder(cfg, qs) && order == Ids(qs);
  }

  /** A handler about to open a question ends the game instead, at the index reached so far,
      exactly when the order key is gone or all its questions have been opened. */
  lemma EndsInsteadOfOpening(cfg: Config, start: int, es: seq<Event>)
    requires ValidConfig(cfg)
    requires After(cfg, start, es).handler.Sending?
    ensures var w := After(cfg, start, es);
      var key := w.room.cache.order;
      var w' := Step(cfg, Step(cfg, w, HandlerStep), HandlerStep);
      && (w'.room.db.status == Finished <==> key.None? || w.room.db.index == |key.value|)
      && (w'.room.db.status != Finished ==>
            w'.room.db.status == Question && w'.room.db.index == w.room.db.index + 1)
  {
    var w := After(cfg, start, es);
    ControlInRuns(cfg, start, es);
    var w1 := ReadOrder(w, w.handler.next);
    assert Step(cfg, w, HandlerStep) == w1;
    if w.room.cache.order.None? {
      EndsWithoutOrder(cfg, w1);
    } else {
      OpensFromOrder(cfg, w1, w.handler.next, w.room.cache.order.value);
    }
  }

  lemma EndsWithoutOrder(cfg: Config, w: World)
    requires PositiveLimits(cfg) && w.handler.Ending?
    ensures Step(cfg, w, HandlerStep).room.db.status == Finished
  {
    assert Step(cfg, w, HandlerStep) == Finish(w);
  }

  lemma OpensFromOrder(cfg: Config, w: World, next: nat, order: seq<QuestionId>)
    requires PositiveLimits(cfg) && w.handler == Advancing(next, order) && next > 0
    ensures var db := Step(cfg, w, HandlerStep).room.db;
      if next > |order| then db.status == Finished else db.status == Question && db.index == next
  {
    assert Step(cfg, w, HandlerStep) == OpenQuestion(w, next, order);
  }
}
