/** When a question may time out: never before its time limit has passed since it was opened. */
module GameDue {
  import opened Prelude
  import opened Leaderboard
  import opened GameModel
  import opened GameWorld
  import opened GameControl
  import opened GameRuns
  import opened GameTimers

  /** The question opened last. */
  function LastShown(cfg: Config, shown: seq<QuestionId>): Option<QuizQuestion> {
    if shown == [] then None else FindQuestion(cfg.questions, shown[|shown| - 1])
  }

  function Announced(h: Handler): Option<int> {
    if h.Announcing? then Some(h.timeLimit) else None
  }

  /** What is announced is the limit of the question opened last, and no timeout task of the
      running index is due before that limit has passed since the opening. */
  ghost predicate DueFits(cfg: Config, announced: Option<int>, timers: multiset<Timer>, index: nat,
                          shown: seq<QuestionId>, openedAt: int, now: int)
  {
    var q := LastShown(cfg, shown);
    && openedAt <= now
    && (announced.Some? ==> q.Some? && announced.value == q.value.timeLimit)
    && (forall due :: Sleeping(index, due) in timers ==>
          q.Some? && due >= openedAt + 1000 * q.value.timeLimit)
  }

  ghost predicate Due(cfg: Config, w: World) {
    DueFits(cfg, Announced(w.handler), w.timers, w.room.db.index, w.shown, w.openedAt, w.now)
  }

  /** Steps that open no question and create no timeout task. */
  ghost predicate SameDue(w: World, w': World) {
    && w'.room.db.index == w.room.db.index && w'.shown == w.shown && w'.openedAt == w.openedAt
    && w'.now == w.now
    && (Announced(w'.handler).Some? ==> Announced(w'.handler) == Announced(w.handler))
    && (forall i, due :: Sleeping(i, due) in w'.timers ==> Sleeping(i, due) in w.timers)
  }

  lemma OpenKeepsDue(cfg: Config, w: World, next: nat, order: seq<QuestionId>)
    requires Control(cfg, w) && Due(cfg, w) && w.handler == Advancing(next, order)
    ensures Due(cfg, OpenQuestion(w, next, order))
  {
    assert forall t :: t in w.timers ==> t.index < w.room.db.index + 1;
  }

  lemma ClockKeepsDue(cfg: Config, w: World, current: nat, question: QuestionId)
    requires Control(cfg, w) && Due(cfg, w) && w.handler == Opened(current, question)
    ensures Due(cfg, StartClock(cfg, w, current, question))
  {
  }

  lemma TimerKeepsDue(cfg: Config, w: World, current: nat, timeLimit: int)
    requires Control(cfg, w) && Due(cfg, w) && w.handler == Announcing(current, timeLimit)
    ensures Due(cfg, StartTimer(w, current, timeLimit))
  {
  }

  lemma QuietKeepsDue(cfg: Config, w: World)
    requires !w.handler.Advancing? && !w.handler.Opened? && !w.handler.Announcing? && !w.handler.Deciding?
    requires !w.handler.ReportingEnd? && !w.handler.ReportingFinal?
    ensures SameDue(w, StepHandler(cfg, w))
  {
  }

  lemma DecideKeepsDue(cfg: Config, w: World, seen: Status, next: nat, count: nat)
    ensures SameDue(w, Decide(cfg, w, seen, next, count))
  {
  }

  lemma BoardKeepsDue(w: World, h: Handler)
    requires h == w.handler || h == Idle || h == Clearing
    ensures SameDue(w, ShowBoard(w).(handler := h))
  {
  }

  lemma OtherBlocksKeepDue(cfg: Config, w: World)
    requires !w.handler.Advancing? && !w.handler.Opened? && !w.handler.Announcing?
    ensures SameDue(w, StepHandler(cfg, w))
  {
    match w.handler
    case Deciding(seen, next, count) => DecideKeepsDue(cfg, w, seen, next, count);
    case ReportingEnd => BoardKeepsDue(w, Idle);
    case ReportingFinal => BoardKeepsDue(w, Clearing);
    case _ => QuietKeepsDue(cfg, w);
  }

  lemma SameKeepsDue(cfg: Config, w: World, w': World)
    requires Due(cfg, w) && SameDue(w, w')
    ensures Due(cfg, w')
  {
  }

  lemma HandlerKeepsDue(cfg: Config, w: World)
    requires Control(cfg, w) && Due(cfg, w)
    ensures Due(cfg, StepHandler(cfg, w))
  {
    if w.handler.Advancing? {
      OpenKeepsDue(cfg, w, w.handler.next, w.handler.order);
    } else if w.handler.Opened? {
      ClockKeepsDue(cfg, w, w.handler.current, w.handler.question);
    } else if w.handler.Announcing? {
      TimerKeepsDue(cfg, w, w.handler.current, w.handler.timeLimit);
    } else {
      OtherBlocksKeepDue(cfg, w);
      SameKeepsDue(cfg, w, StepHandler(cfg, w));
    }
  }

  lemma FireKeepsDue(w: World, t: Timer)
    ensures SameDue(w, FireTimer(w, t))
  {
  }

  lemma ReportKeepsDue(cfg: Config, w: World, t: Timer)
    ensures SameDue(w, ReportTimer(cfg, w, t))
  {
    var w1 := w.(timers := w.timers - multiset{t});
    BoardKeepsDue(w1, w1.handler);
  }

  lemma PlayersKeepDue(cfg: Config, w: World, id: PlayerId, nickname: string, user: Option<UserId>, record: Record)
    ensures SameDue(w, JoinStep(cfg, w, id, nickname, user)) && SameDue(w, SendStep(w, record))
  {
    var w' := SendStep(w, record);
    assert w' == w.(inflight := w'.inflight, sent := w'.sent);
  }

  lemma SubmitKeepsDue(cfg: Config, w: World, player: PlayerId,
                       question: Option<QuestionId>, answers: seq<AnswerId>)
    requires PositiveLimits(cfg)
    ensures SameDue(w, SubmitStep(cfg, w, player, question, answers))
  {
  }

  lemma HostKeepsDue(cfg: Config, w: World, caller: UserId, order: seq<QuizQuestion>)
    ensures SameDue(w, PressStartStep(cfg, w, caller, order))
    ensures SameDue(w, PressNextStep(cfg, w)) && SameDue(w, FailStep(w))
  {
  }

  lemma LossKeepsDue(w: World, c: Cache)
    ensures SameDue(w, WithCache(w, c)) && SameDue(w, LoseOrderStep(w)) && SameDue(w, ForgetRanking(w))
  {
  }

  lemma HostEventsKeepDue(cfg: Config, w: World, e: Event)
    requires ValidConfig(cfg) && Control(cfg, w) && Due(cfg, w) && HostEvent(e)
    ensures Due(cfg, Step(cfg, w, e))
  {
    match e
    case PressStart(caller, order) => HostKeepsDue(cfg, w, caller, order);
    case PressNext => HostKeepsDue(cfg, w, 0, []);
    case HandlerFails => HostKeepsDue(cfg, w, 0, []);
  }

  lemma PlayerEventsKeepDue(cfg: Config, w: World, e: Event)
    requires ValidConfig(cfg) && Control(cfg, w) && Due(cfg, w) && PlayerEvent(e)
    ensures Due(cfg, Step(cfg, w, e))
  {
    match e
    case Join(id, nickname, user) =>
      PlayersKeepDue(cfg, w, id, nickname, user, Record(0, 0, [], false, 0, 0));
    case Submit(player, question, answers) => SubmitKeepsDue(cfg, w, player, question, answers);
    case SendUpdate(record) => PlayersKeepDue(cfg, w, 0, [], None, record);
  }

  lemma LossEventsKeepDue(cfg: Config, w: World, e: Event)
    requires ValidConfig(cfg) && Control(cfg, w) && Due(cfg, w) && LossEvent(e)
    ensures Due(cfg, Step(cfg, w, e))
  {
    match e
    case LoseOrder => LossKeepsDue(w, w.room.cache);
    case LoseStart => LossKeepsDue(w, w.room.cache.(questionStart := None));
    case LoseAnswered(index, players) => LossKeepsDue(w, Forget(w.room.cache, index, players));
    case LoseRanking => LossKeepsDue(w, w.room.cache);
  }

  lemma QuietEventsKeepDue(cfg: Config, w: World, e: Event)
    requires ValidConfig(cfg) && Control(cfg, w) && Due(cfg, w) && QuietEvent(e)
    ensures Due(cfg, Step(cfg, w, e))
  {
    match e
    case Tick(_) =>
    case ViewResults => BoardKeepsDue(w, w.handler);
  }

  lemma StepKeepsDue(cfg: Config, w: World, e: Event)
    requires ValidConfig(cfg) && Control(cfg, w) && Due(cfg, w)
    ensures Due(cfg, Step(cfg, w, e))
  {
    if e.HandlerStep? {
      HandlerKeepsDue(cfg, w);
    } else if HostEvent(e) {
      HostEventsKeepDue(cfg, w, e);
    } else if PlayerEvent(e) {
      PlayerEventsKeepDue(cfg, w, e);
    } else if e.TimerFires? {
      FireKeepsDue(w, e.timer);
    } else if e.TimerReports? {
      ReportKeepsDue(cfg, w, e.timer);
    } else if LossEvent(e) {
      LossEventsKeepDue(cfg, w, e);
    } else {
      QuietEventsKeepDue(cfg, w, e);
    }
  }

  lemma {:induction false} RunKeepsDue(cfg: Config, w: World, es: seq<Event>)
    requires ValidConfig(cfg) && Control(cfg, w) && Due(cfg, w)
    ensures Due(cfg, Run(cfg, w, es))
    decreases |es|
  {
    if es != [] {
      StepKeepsDue(cfg, w, es[0]);
      StepKeepsControl(cfg, w, es[0]);
      RunKeepsDue(cfg, Step(cfg, w, es[0]), es[1..]);
    }
  }

  lemma DueInRuns(cfg: Config, start: int, es: seq<Event>)
    requires ValidConfig(cfg)
    ensures Due(cfg, After(cfg, start, es))
  {
    ControlAtStart(cfg, start);
    RunKeepsDue(cfg, Begin(start), es);
  }

  /** A timeout never cuts a question short: if one ends the running question, that question's
      whole time limit has passed since it was opened. */
  lemma NeverCutShort(cfg: Config, start: int, es: seq<Event>, t: Timer)
    requires ValidConfig(cfg)
    ensures var w := After(cfg, start, es);
      FireTimer(w, t).room != w.room ==>
        var q := LastShown(cfg, w.shown);
        && q.Some? && w.room.db.status == Question && w.room.db.index == t.index
        && w.now >= w.openedAt + 1000 * q.value.timeLimit
  {
    DueInRuns(cfg, start, es);
  }

  /** The handler that announces a question gives its task exactly the question's limit from that
      moment. */
  lemma DueIsAnnouncementPlusLimit(cfg: Config, start: int, es: seq<Event>)
    requires ValidConfig(cfg) && After(cfg, start, es).handler.Announcing?
    ensures var w := After(cfg, start, es);
      var q := LastShown(cfg, w.shown);
      && q.Some?
      && Step(cfg, w, HandlerStep).timers
           == w.timers + multiset{Sleeping(w.room.db.index, w.now + 1000 * q.value.timeLimit)}
  {
    var w := After(cfg, start, es);
    DueInRuns(cfg, start, es);
    ControlInRuns(cfg, start, es);
    assert Step(cfg, w, HandlerStep) == StartTimer(w, w.handler.current, w.handler.timeLimit);
  }

  ghost predicate OverAfterFiring(cfg: Config, w: World, es: seq<Event>, fs: seq<Event>, t: Timer)
    requires PositiveLimits(cfg)
  {
    var db := Run(cfg, Step(cfg, Run(cfg, w, es), TimerFires(t)), fs).room.db;
    Progress(db.status, db.index) > 2 * t.index
  }

  /** Every running question whose task its handler has not failed to create, and is not about to
      create, has a task of its own: it is due only after the limit, and in every continuation the
      question is over for good once that task fires at or after that time. */
  lemma OwnTimer(cfg: Config, start: int, before: seq<Event>) returns (t: Timer)
    requires ValidConfig(cfg)
    requires var w := After(cfg, start, before);
      w.room.db.status == Question && !w.missed.timer && !AboutToStartTimer(w.handler)
    ensures var w := After(cfg, start, before);
      var q := LastShown(cfg, w.shown);
      && t in w.timers && t.Sleeping? && t.index == w.room.db.index
      && q.Some? && t.due >= w.openedAt + 1000 * q.value.timeLimit
      && forall es, fs :: Run(cfg, w, es).now >= t.due ==> OverAfterFiring(cfg, w, es, fs, t)
  {
    var w := After(cfg, start, before);
    ControlInRuns(cfg, start, before);
    DueInRuns(cfg, start, before);
    assert HasTimer(w.timers, w.room.db.index);
    var due :| Sleeping(w.room.db.index, due) in w.timers;
    t := Sleeping(w.room.db.index, due);
    forall es, fs | Run(cfg, w, es).now >= t.due ensures OverAfterFiring(cfg, w, es, fs, t) {
      FiredTimerEnds(cfg, w, es, fs, t);
    }
  }
}
