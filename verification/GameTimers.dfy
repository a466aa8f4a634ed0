/** Timeout tasks: when a running question is sure to end, when it can never end on its own, and
    that no timeout cuts a question short. */
module GameTimers {
  import opened GameModel
  import opened GameWorld
  import opened GameControl
  import opened GameRuns

  // ---- A question with a timeout task ends ----

  lemma RunTwo(cfg: Config, w: World, e: Event, f: Event)
    requires PositiveLimits(cfg)
    ensures Run(cfg, w, [e, f]) == Step(cfg, Step(cfg, w, e), f)
  {
    assert [e, f][1..] == [f] && [f][1..] == [];
    assert Run(cfg, Step(cfg, w, e), [f]) == Run(cfg, Step(cfg, Step(cfg, w, e), f), []);
  }

  /** Steps taken without the host pressing a button and without any player. */
  predicate Unattended(e: Event) { e.HandlerStep? || e.Tick? || e.TimerFires? }

  predicate AllUnattended(es: seq<Event>) {
    forall i :: 0 <= i < |es| ==> Unattended(es[i])
  }

  lemma TimerEndsRunning(cfg: Config, w: World, due: int)
    requires PositiveLimits(cfg) && w.room.db.status == Question
    requires Sleeping(w.room.db.index, due) in w.timers
    ensures Run(cfg, w, [Tick(due), TimerFires(Sleeping(w.room.db.index, due))]).room == Reveal(w.room)
  {
    var t := Sleeping(w.room.db.index, due);
    RunTwo(cfg, w, Tick(due), TimerFires(t));
    var w1 := Step(cfg, w, Tick(due));
    assert w1.room == w.room && w1.timers == w.timers && w1.now >= due;
    assert Step(cfg, w1, TimerFires(t)) == FireTimer(w1, t);
  }

  lemma AnnouncingEnds(cfg: Config, w: World) returns (es: seq<Event>)
    requires PositiveLimits(cfg) && w.room.db.status == Question
    requires w.handler.Announcing? && w.handler.current == w.room.db.index
    ensures AllUnattended(es)
    ensures Run(cfg, w, es).room == Reveal(w.room)
  {
    var w1 := StartTimer(w, w.handler.current, w.handler.timeLimit);
    var due := w.now + w.handler.timeLimit * 1000;
    assert Step(cfg, w, HandlerStep) == w1;
    var rest := [Tick(due), TimerFires(Sleeping(w.room.db.index, due))];
    TimerEndsRunning(cfg, w1, due);
    es := [HandlerStep] + rest;
    assert es[1..] == rest;
  }

  /** What is left of a running question ends it without the host: its timeout task, a handler
      that will create one, or a handler that is already forcing the end. */
  predicate EndsAlone(cfg: Config, w: World) {
    || !w.missed.timer
    || w.handler.ForcingEnd?
    || (w.handler.Deciding? && CurrentQuestion(cfg, w.room).Some?)
  }

  lemma RunningQuestionEnds(cfg: Config, w: World) returns (es: seq<Event>)
    requires ValidConfig(cfg) && Control(cfg, w) && w.room.db.status == Question && EndsAlone(cfg, w)
    ensures AllUnattended(es)
    ensures Run(cfg, w, es).room.db == w.room.db.(status := Revealing)
  {
    if w.handler.Opened? {
      es := OpenedEnds(cfg, w);
    } else if w.handler.Announcing? {
      es := AnnouncingEnds(cfg, w);
    } else if !w.missed.timer {
      assert HasTimer(w.timers, w.room.db.index);
      var due :| Sleeping(w.room.db.index, due) in w.timers;
      TimerEndsRunning(cfg, w, due);
      es := [Tick(due), TimerFires(Sleeping(w.room.db.index, due))];
    } else if w.handler.ForcingEnd? {
      ForcedEnd(cfg, w);
      es := [HandlerStep];
    } else {
      es := DecidingEnds(cfg, w);
    }
  }

  lemma OpenedEnds(cfg: Config, w: World) returns (es: seq<Event>)
    requires ValidConfig(cfg) && Control(cfg, w) && w.handler.Opened?
    ensures AllUnattended(es)
    ensures Run(cfg, w, es).room.db == w.room.db.(status := Revealing)
  {
    var w1 := StartClock(cfg, w, w.handler.current, w.handler.question);
    StartClockKeepsControl(cfg, w, w.handler.current, w.handler.question);
    var rest := AnnouncingEnds(cfg, w1);
    assert Step(cfg, w, HandlerStep) == w1;
    es := [HandlerStep] + rest;
    assert es[1..] == rest;
  }

  lemma DecidingEnds(cfg: Config, w: World) returns (es: seq<Event>)
    requires PositiveLimits(cfg) && w.handler.Deciding? && w.handler.seen == Question
    requires CurrentQuestion(cfg, w.room).Some?
    ensures AllUnattended(es)
    ensures Run(cfg, w, es).room == Reveal(w.room)
  {
    var w1 := Decide(cfg, w, w.handler.seen, w.handler.next, w.handler.count);
    assert Step(cfg, w, HandlerStep) == w1;
    ForcedEnd(cfg, w1);
    es := [HandlerStep, HandlerStep];
    RunTwo(cfg, w, HandlerStep, HandlerStep);
  }

  lemma ForcedEnd(cfg: Config, w: World)
    requires PositiveLimits(cfg) && w.handler.ForcingEnd?
    ensures Step(cfg, w, HandlerStep).room == Reveal(w.room)
    ensures Run(cfg, w, [HandlerStep]).room == Reveal(w.room)
  {
    assert Step(cfg, w, HandlerStep) == ForceEnd(w);
    assert [HandlerStep][1..] == [];
    assert Run(cfg, Step(cfg, w, HandlerStep), []) == Step(cfg, w, HandlerStep);
  }

  // ---- A question without one ----

  /** A running question whose timeout task was never created, with no handler to end it. */
  predicate Deserted(cfg: Config, w: World) {
    w.room.db.status == Question && !EndsAlone(cfg, w)
  }

  lemma DesertedStays(cfg: Config, w: World, e: Event)
    requires ValidConfig(cfg) && Control(cfg, w) && Deserted(cfg, w) && Unattended(e)
    ensures Step(cfg, w, e).room == w.room && Deserted(cfg, Step(cfg, w, e))
  {
    match e
    case Tick(_) =>
    case TimerFires(t) =>
      assert Step(cfg, w, e) == FireTimer(w, t);
    case HandlerStep =>
      assert w.handler.Idle? || w.handler.Deciding?;
      if w.handler.Deciding? {
        assert Step(cfg, w, e) == Decide(cfg, w, w.handler.seen, w.handler.next, w.handler.count);
      }
  }

  lemma {:induction false} DesertedForever(cfg: Config, w: World, es: seq<Event>)
    requires ValidConfig(cfg) && Control(cfg, w) && Deserted(cfg, w) && AllUnattended(es)
    ensures Run(cfg, w, es).room == w.room
    decreases |es|
  {
    if es != [] {
      StepKeepsControl(cfg, w, es[0]);
      DesertedStays(cfg, w, es[0]);
      DesertedForever(cfg, Step(cfg, w, es[0]), es[1..]);
    }
  }

  ghost predicate EndsIn(cfg: Config, w: World, es: seq<Event>)
    requires PositiveLimits(cfg)
  {
    AllUnattended(es) && Run(cfg, w, es).room.db.status != Question
  }

  /** In every reachable state a running question can end without the host pressing a button if
      and only if its handler has not failed between opening it and creating its timeout task, or
      a handler is already forcing its end. */
  lemma EndsWithoutHost(cfg: Config, start: int, before: seq<Event>)
    requires ValidConfig(cfg)
    requires After(cfg, start, before).room.db.status == Question
    ensures var w := After(cfg, start, before);
      EndsAlone(cfg, w) <==> exists es: seq<Event> :: EndsIn(cfg, w, es)
  {
    var w := After(cfg, start, before);
    ControlInRuns(cfg, start, before);
    if EndsAlone(cfg, w) {
      var es := RunningQuestionEnds(cfg, w);
      assert EndsIn(cfg, w, es);
    } else {
      forall es: seq<Event> ensures !EndsIn(cfg, w, es) {
        if AllUnattended(es) {
          DesertedForever(cfg, w, es);
        }
      }
    }
  }

  // ---- Every schedule ----

  /** The task still sleeps, or its question has ended. */
  predicate SleepsOrEnded(w: World, t: Timer) {
    t in w.timers || Progress(w.room.db.status, w.room.db.index) > 2 * t.index
  }

  predicate KeepsTimers(w: World, w': World) { w.timers <= w'.timers }

  lemma HandlerKeepsTimers(cfg: Config, w: World)
    ensures KeepsTimers(w, StepHandler(cfg, w))
  {
    match w.handler
    case Advancing(next, order) => assert StepHandler(cfg, w) == OpenQuestion(w, next, order);
    case Opened(current, question) => assert StepHandler(cfg, w) == StartClock(cfg, w, current, question);
    case Deciding(seen, next, count) => assert StepHandler(cfg, w) == Decide(cfg, w, seen, next, count);
    case _ =>
  }

  lemma PlayersKeepTimers(cfg: Config, w: World, e: Event)
    requires PositiveLimits(cfg) && PlayerEvent(e)
    ensures KeepsTimers(w, Step(cfg, w, e))
  {
    match e
    case Join(id, nickname, user) => assert Step(cfg, w, e) == JoinStep(cfg, w, id, nickname, user);
    case Submit(player, question, answers) => assert Step(cfg, w, e) == SubmitStep(cfg, w, player, question, answers);
    case SendUpdate(record) => assert Step(cfg, w, e) == SendStep(w, record);
  }

  lemma OthersKeepTimers(cfg: Config, w: World, e: Event)
    requires PositiveLimits(cfg) && (HostEvent(e) || QuietEvent(e) || LossEvent(e))
    ensures KeepsTimers(w, Step(cfg, w, e))
  {
  }

  lemma ReportKeepsSleeping(cfg: Config, w: World, u: Timer, t: Timer)
    requires t.Sleeping?
    ensures t in w.timers ==> t in ReportTimer(cfg, w, u).timers
  {
  }

  lemma StepKeepsEveryTimer(cfg: Config, w: World, e: Event)
    requires PositiveLimits(cfg) && !TimerEvent(e)
    ensures KeepsTimers(w, Step(cfg, w, e))
  {
    if e.HandlerStep? {
      HandlerKeepsTimers(cfg, w);
      assert Step(cfg, w, e) == StepHandler(cfg, w);
    } else if PlayerEvent(e) {
      PlayersKeepTimers(cfg, w, e);
    } else {
      OthersKeepTimers(cfg, w, e);
    }
  }

  lemma StepKeepsTimers(cfg: Config, w: World, e: Event, t: Timer)
    requires PositiveLimits(cfg) && t.Sleeping? && !e.TimerFires?
    ensures t in w.timers ==> t in Step(cfg, w, e).timers
  {
    if e.TimerReports? {
      ReportKeepsSleeping(cfg, w, e.timer, t);
    } else {
      StepKeepsEveryTimer(cfg, w, e);
    }
  }

  lemma OtherStepsSleepOrEnd(cfg: Config, w: World, e: Event, t: Timer)
    requires ValidConfig(cfg) && Control(cfg, w) && t.Sleeping? && SleepsOrEnded(w, t) && !e.TimerFires?
    ensures SleepsOrEnded(Step(cfg, w, e), t)
  {
    StepKeepsTimers(cfg, w, e, t);
    StepMoves(cfg, w, e);
  }

  lemma StepSleepsOrEnds(cfg: Config, w: World, e: Event, t: Timer)
    requires ValidConfig(cfg) && Control(cfg, w) && t.Sleeping? && SleepsOrEnded(w, t)
    ensures SleepsOrEnded(Step(cfg, w, e), t)
  {
    if e.TimerFires? {
      FiringEnds(cfg, w, e.timer, t);
    } else {
      OtherStepsSleepOrEnd(cfg, w, e, t);
    }
  }

  lemma FiringEnds(cfg: Config, w: World, u: Timer, t: Timer)
    requires Control(cfg, w) && t.Sleeping? && SleepsOrEnded(w, t)
    ensures SleepsOrEnded(FireTimer(w, u), t)
    ensures u == t && w.now >= t.due ==>
      Progress(FireTimer(w, u).room.db.status, FireTimer(w, u).room.db.index) > 2 * t.index
  {
  }

  lemma {:induction false} RunSleepsOrEnds(cfg: Config, w: World, es: seq<Event>, t: Timer)
    requires ValidConfig(cfg) && Control(cfg, w) && t.Sleeping? && SleepsOrEnded(w, t)
    ensures SleepsOrEnded(Run(cfg, w, es), t)
    decreases |es|
  {
    if es != [] {
      StepSleepsOrEnds(cfg, w, es[0], t);
      StepKeepsControl(cfg, w, es[0]);
      RunSleepsOrEnds(cfg, Step(cfg, w, es[0]), es[1..], t);
    }
  }

  /** In every continuation, whatever else happens before and after: once the timeout task of a
      question fires at or after its due time, that question is over for good. */
  lemma FiredTimerEnds(cfg: Config, w: World, es: seq<Event>, fs: seq<Event>, t: Timer)
    requires ValidConfig(cfg) && Control(cfg, w) && t.Sleeping? && t in w.timers
    requires Run(cfg, w, es).now >= t.due
    ensures var db := Run(cfg, Step(cfg, Run(cfg, w, es), TimerFires(t)), fs).room.db;
      && Progress(db.status, db.index) > 2 * t.index
      && !(db.status == Question && db.index == t.index)
  {
    var w1 := Run(cfg, w, es);
    RunSleepsOrEnds(cfg, w, es, t);
    RunKeepsControl(cfg, w, es);
    EndsOnFiring(cfg, w1, t);
    NeverBack(cfg, Step(cfg, w1, TimerFires(t)), fs);
  }

  lemma EndsOnFiring(cfg: Config, w: World, t: Timer)
    requires ValidConfig(cfg) && Control(cfg, w) && t.Sleeping? && SleepsOrEnded(w, t) && w.now >= t.due
    ensures var w' := Step(cfg, w, TimerFires(t));
      Control(cfg, w') && Progress(w'.room.db.status, w'.room.db.index) > 2 * t.index
  {
    FiringEnds(cfg, w, t, t);
    StepKeepsControl(cfg, w, TimerFires(t));
    assert Step(cfg, w, TimerFires(t)) == FireTimer(w, t);
  }

  // ---- A reachable deserted question ----

  /** The events that bring the first question of `order` up, short of its start key. */
  function Opening(cfg: Config, order: seq<QuizQuestion>): seq<Event> {
    [PressStart(cfg.host, order), HandlerStep, HandlerStep, HandlerStep]
  }

  lemma FirstOpens(cfg: Config, start: int, order: seq<QuizQuestion>)
    requires PositiveLimits(cfg) && PlayOrder(cfg, order) && order != []
    ensures var w := After(cfg, start, Opening(cfg, order));
      w.room.db.status == Question && w.room.db.index == 1 && w.handler.Opened?
  {
    var w0 := Begin(start);
    var w1 := PressStartStep(cfg, w0, cfg.host, order);
    var w2 := WriteOrder(w1, Ids(order));
    var w3 := ReadOrder(w2, 1);
    var es := Opening(cfg, order);
    assert Step(cfg, w0, es[0]) == w1;
    assert Step(cfg, w1, HandlerStep) == w2;
    assert Step(cfg, w2, HandlerStep) == w3;
    assert Step(cfg, w3, HandlerStep) == OpenQuestion(w3, 1, Ids(order));
    RunTwo(cfg, w0, es[0], HandlerStep);
    RunTwo(cfg, w2, HandlerStep, HandlerStep);
    RunAppend(cfg, w0, [es[0], HandlerStep], [HandlerStep, HandlerStep]);
    assert es == [es[0], HandlerStep] + [HandlerStep, HandlerStep];
  }

  lemma RunSnoc(cfg: Config, w: World, es: seq<Event>, e: Event)
    requires PositiveLimits(cfg)
    ensures Run(cfg, w, es + [e]) == Step(cfg, Run(cfg, w, es), e)
  {
    RunAppend(cfg, w, es, [e]);
    var w' := Run(cfg, w, es);
    assert [e][1..] == [];
    assert Run(cfg, Step(cfg, w', e), []) == Step(cfg, w', e);
  }

  /** For every quiz with a question and every play order: the host starts, the first question is
      opened, and its handler fails before the timeout task exists. The question then runs until
      the host returns, whatever time passes. */
  lemma DesertedIsReachable(cfg: Config, start: int, order: seq<QuizQuestion>, es: seq<Event>)
    requires ValidConfig(cfg) && PlayOrder(cfg, order) && order != [] && AllUnattended(es)
    ensures var w := After(cfg, start, Opening(cfg, order) + [HandlerFails]);
      && w.room.db.status == Question && w.room.db.index == 1 && !EndsAlone(cfg, w)
      && Run(cfg, w, es).room.db.status == Question
  {
    FirstOpens(cfg, start, order);
    RunSnoc(cfg, Begin(start), Opening(cfg, order), HandlerFails);
    var w := After(cfg, start, Opening(cfg, order));
    assert Step(cfg, w, HandlerFails) == FailStep(w);
    ControlInRuns(cfg, start, Opening(cfg, order) + [HandlerFails]);
    DesertedForever(cfg, FailStep(w), es);
  }
}
