/** When a started game can still be brought to its end by the host, its handler, the clock and the
    timeout tasks. */
module GameEnding {
  import opened Leaderboard
  import opened GameModel
  import opened GameWorld
  import opened GameControl
  import opened GameRuns
  import opened GameTimers

  predicate Driving(e: Event) { e.PressNext? || Unattended(e) }

  predicate AllDriving(es: seq<Event>) {
    forall i :: 0 <= i < |es| ==> Driving(es[i])
  }

  /** The two ways a started game gets stuck: its handler failed before opening the first question,
      or a running question has lost both its order key and its timeout task. */
  predicate Stuck(w: World) {
    match w.room.db.status
    case Starting => w.handler.Idle? || w.handler.Deciding?
    case Question => w.room.cache.order.None? && w.missed.timer && !w.handler.ForcingEnd?
    case _ => false
  }

  lemma CurrentUnlessLost(cfg: Config, w: World)
    requires ValidConfig(cfg) && Control(cfg, w) && w.room.db.status == Question
    ensures CurrentQuestion(cfg, w.room).Some? <==> w.room.cache.order.Some?
  {
    if w.room.cache.order.Some? {
      var order := w.room.cache.order.value;
      ChosenIsPermutation(cfg, order);
      FoundQuestion(cfg.questions, order[w.room.db.index - 1]);
    }
  }

  // ---- A stuck game stays stuck ----

  /** What being stuck depends on. */
  predicate SameStuck(w: World, w': World) {
    && w'.room.db.status == w.room.db.status && w'.missed == w.missed
    && (w.room.cache.order.None? ==> w'.room.cache.order.None?)
    && w'.handler == w.handler
  }

  lemma HostStaysStuck(cfg: Config, w: World, caller: UserId, order: seq<QuizQuestion>)
    requires Control(cfg, w) && Stuck(w)
    ensures Stuck(PressStartStep(cfg, w, caller, order)) && Stuck(PressNextStep(cfg, w)) && Stuck(FailStep(w))
  {
  }

  lemma HandlerStaysStuck(cfg: Config, w: World)
    requires ValidConfig(cfg) && Control(cfg, w) && Stuck(w)
    ensures Stuck(StepHandler(cfg, w))
  {
    if w.room.db.status == Question {
      CurrentUnlessLost(cfg, w);
    }
    if w.handler.Deciding? {
      assert StepHandler(cfg, w) == Decide(cfg, w, w.handler.seen, w.handler.next, w.handler.count);
    }
  }

  lemma TimersStayStuck(cfg: Config, w: World, t: Timer)
    requires Control(cfg, w) && Stuck(w)
    ensures Stuck(FireTimer(w, t)) && SameStuck(w, ReportTimer(cfg, w, t))
  {
  }

  lemma PlayersStayStuck(cfg: Config, w: World, e: Event)
    requires PositiveLimits(cfg) && PlayerEvent(e)
    ensures SameStuck(w, Step(cfg, w, e))
  {
    match e
    case Join(id, nickname, user) => assert Step(cfg, w, e) == JoinStep(cfg, w, id, nickname, user);
    case Submit(player, question, answers) => assert Step(cfg, w, e) == SubmitStep(cfg, w, player, question, answers);
    case SendUpdate(record) => assert Step(cfg, w, e) == SendStep(w, record);
  }

  lemma LossesStayStuck(cfg: Config, w: World, e: Event)
    requires PositiveLimits(cfg) && (QuietEvent(e) || LossEvent(e))
    ensures SameStuck(w, Step(cfg, w, e))
  {
  }

  lemma HostEventsStayStuck(cfg: Config, w: World, e: Event)
    requires ValidConfig(cfg) && Control(cfg, w) && Stuck(w) && HostEvent(e)
    ensures Stuck(Step(cfg, w, e))
  {
    match e
    case PressStart(caller, order) => HostStaysStuck(cfg, w, caller, order);
    case PressNext => HostStaysStuck(cfg, w, 0, []);
    case HandlerFails => HostStaysStuck(cfg, w, 0, []);
  }

  lemma StuckStays(cfg: Config, w: World, e: Event)
    requires ValidConfig(cfg) && Control(cfg, w) && Stuck(w)
    ensures Stuck(Step(cfg, w, e))
  {
    if e.HandlerStep? {
      HandlerStaysStuck(cfg, w);
    } else if HostEvent(e) {
      HostEventsStayStuck(cfg, w, e);
    } else if PlayerEvent(e) {
      PlayersStayStuck(cfg, w, e);
    } else if TimerEvent(e) {
      TimersStayStuck(cfg, w, e.timer);
    } else {
      LossesStayStuck(cfg, w, e);
    }
  }

  /** A stuck game stays stuck, so it never finishes, whatever anyone does. */
  lemma {:induction false} StuckForever(cfg: Config, w: World, es: seq<Event>)
    requires ValidConfig(cfg) && Control(cfg, w) && Stuck(w)
    ensures Stuck(Run(cfg, w, es))
    decreases |es|
  {
    if es != [] {
      StuckStays(cfg, w, es[0]);
      StepKeepsControl(cfg, w, es[0]);
      StuckForever(cfg, Step(cfg, w, es[0]), es[1..]);
    }
  }

  // ---- Any other game can be driven on ----

  /** How many blocks lie between the handler and the next change of status. */
  function Rank(h: Handler, s: Status): nat {
    match h
    case Idle => if s == Revealing then 11 else 2
    case StoringOrder(_) => 9
    case Sending(_) => 8
    case Advancing(_, _) => 7
    case Opened(_, _) => 6
    case Announcing(_, _) => 5
    case Deciding(seen, _, _) => if s != Revealing then 4 else if seen == Question then 14 else 10
    case ForcingEnd => if s == Revealing then 13 else 3
    case ReportingEnd => 12
    case Ending => 4
    case _ => 0
  }

  /** A started game that is not stuck. */
  predicate Open(w: World) {
    w.room.db.status != Waiting && !Stuck(w)
  }

  predicate Closer(w: World, w': World) {
    var p, p' := Progress(w.room.db.status, w.room.db.index), Progress(w'.room.db.status, w'.room.db.index);
    p' > p || (p' == p && Rank(w'.handler, w'.room.db.status) < Rank(w.handler, w.room.db.status))
  }

  lemma HandlerDrives(cfg: Config, w: World)
    requires ValidConfig(cfg) && Control(cfg, w) && Open(w)
    requires w.room.db.status != Finished && !w.handler.Idle?
    ensures Open(StepHandler(cfg, w)) && Closer(w, StepHandler(cfg, w))
  {
    match w.handler
    case Sending(next) => SendingDrives(cfg, w, next);
    case Advancing(next, order) => AdvancingDrives(cfg, w, next, order);
    case Opened(current, question) => OpenedDrives(cfg, w, current, question);
    case Deciding(seen, next, count) => DecideDrives(cfg, w, seen, next, count);
    case _ => OtherBlocksDrive(cfg, w);
  }

  lemma SendingDrives(cfg: Config, w: World, next: nat)
    requires Control(cfg, w) && Open(w) && w.handler == Sending(next)
    ensures Open(ReadOrder(w, next)) && Closer(w, ReadOrder(w, next))
  {
  }

  lemma AdvancingDrives(cfg: Config, w: World, next: nat, order: seq<QuestionId>)
    requires Control(cfg, w) && Open(w) && w.handler == Advancing(next, order)
    ensures Open(OpenQuestion(w, next, order)) && Closer(w, OpenQuestion(w, next, order))
  {
  }

  lemma OtherBlocksDrive(cfg: Config, w: World)
    requires Control(cfg, w) && Open(w) && w.room.db.status != Finished
    requires w.handler.StoringOrder? || w.handler.Announcing? || w.handler.ForcingEnd?
          || w.handler.ReportingEnd? || w.handler.Ending? || w.handler.ReportingFinal? || w.handler.Clearing?
    ensures Open(StepHandler(cfg, w)) && Closer(w, StepHandler(cfg, w))
  {
    match w.handler
    case StoringOrder(order) => StoringDrives(cfg, w, order);
    case Announcing(current, timeLimit) => AnnouncingDrives(cfg, w, current, timeLimit);
    case ForcingEnd => ForcingDrives(cfg, w);
    case Ending => EndingDrives(cfg, w);
    case ReportingEnd => ReportingDrives(cfg, w);
    case _ =>
  }

  lemma StoringDrives(cfg: Config, w: World, order: seq<QuestionId>)
    requires Control(cfg, w) && Open(w) && w.handler == StoringOrder(order)
    ensures Open(WriteOrder(w, order)) && Closer(w, WriteOrder(w, order))
  {
  }

  lemma AnnouncingDrives(cfg: Config, w: World, current: nat, timeLimit: int)
    requires Control(cfg, w) && Open(w) && w.handler == Announcing(current, timeLimit)
    ensures Open(StartTimer(w, current, timeLimit)) && Closer(w, StartTimer(w, current, timeLimit))
  {
  }

  lemma ForcingDrives(cfg: Config, w: World)
    requires Control(cfg, w) && Open(w) && w.handler.ForcingEnd?
    ensures Open(ForceEnd(w)) && Closer(w, ForceEnd(w))
  {
  }

  lemma EndingDrives(cfg: Config, w: World)
    requires Control(cfg, w) && Open(w) && w.handler.Ending? && w.room.db.status != Finished
    ensures Open(Finish(w)) && Closer(w, Finish(w))
  {
  }

  lemma ReportingDrives(cfg: Config, w: World)
    requires Control(cfg, w) && Open(w) && w.handler.ReportingEnd?
    ensures Open(ShowBoard(w).(handler := Idle)) && Closer(w, ShowBoard(w).(handler := Idle))
  {
  }

  lemma OpenedDrives(cfg: Config, w: World, current: nat, question: QuestionId)
    requires ValidConfig(cfg) && Control(cfg, w) && Open(w) && w.handler == Opened(current, question)
    ensures Open(StartClock(cfg, w, current, question)) && Closer(w, StartClock(cfg, w, current, question))
  {
    StartClockKeepsControl(cfg, w, current, question);
  }

  lemma DecideDrives(cfg: Config, w: World, seen: Status, next: nat, count: nat)
    requires ValidConfig(cfg) && Control(cfg, w) && Open(w) && w.handler == Deciding(seen, next, count)
    requires w.room.db.status != Finished
    ensures Open(Decide(cfg, w, seen, next, count)) && Closer(w, Decide(cfg, w, seen, next, count))
  {
    if w.room.db.status == Question {
      CurrentUnlessLost(cfg, w);
    }
  }

  /** An idle handler: the running question times out or is ended by the host, and after a
      question the host asks for the next one. */
  lemma IdleDrives(cfg: Config, w: World) returns (es: seq<Event>)
    requires ValidConfig(cfg) && Control(cfg, w) && Open(w)
    requires w.room.db.status != Finished && w.handler.Idle?
    ensures AllDriving(es) && es != []
    ensures Open(Run(cfg, w, es)) && Closer(w, Run(cfg, w, es))
  {
    if w.room.db.status == Revealing {
      es := [PressNext];
      assert Step(cfg, w, PressNext) == PressNextStep(cfg, w);
      assert es[1..] == [];
      assert Run(cfg, Step(cfg, w, PressNext), []) == PressNextStep(cfg, w);
    } else if !w.missed.timer {
      es := RunningQuestionEnds(cfg, w);
    } else {
      es := HostForcesEnd(cfg, w);
    }
  }

  lemma HostForcesEnd(cfg: Config, w: World) returns (es: seq<Event>)
    requires ValidConfig(cfg) && Control(cfg, w) && Open(w)
    requires w.room.db.status == Question && w.handler.Idle? && w.missed.timer
    ensures AllDriving(es) && es != [] && Run(cfg, w, es).room == Reveal(w.room)
  {
    CurrentUnlessLost(cfg, w);
    var w1 := PressNextStep(cfg, w);
    assert Step(cfg, w, PressNext) == w1;
    var rest := DecidingEnds(cfg, w1);
    es := [PressNext] + rest;
    assert es[1..] == rest;
  }

  lemma DrivesOn(cfg: Config, w: World) returns (es: seq<Event>)
    requires ValidConfig(cfg) && Control(cfg, w) && Open(w) && w.room.db.status != Finished
    ensures AllDriving(es)
    ensures var w' := Run(cfg, w, es);
      && Control(cfg, w') && Open(w') && Closer(w, w')
      && Progress(w'.room.db.status, w'.room.db.index) <= 2 * |cfg.questions| + 2
  {
    if w.handler.Idle? {
      es := IdleDrives(cfg, w);
    } else {
      es := [HandlerStep];
      HandlerDrives(cfg, w);
      assert es[1..] == [];
      assert Run(cfg, Step(cfg, w, HandlerStep), []) == StepHandler(cfg, w);
    }
    RunKeepsControl(cfg, w, es);
    ProgressBounded(cfg, Run(cfg, w, es));
  }

  lemma RunsToEnd(cfg: Config, w: World) returns (es: seq<Event>)
    requires ValidConfig(cfg) && Control(cfg, w) && Open(w)
    ensures AllDriving(es) && Run(cfg, w, es).room.db.status == Finished
    decreases 2 * |cfg.questions| + 2 - Progress(w.room.db.status, w.room.db.index),
      Rank(w.handler, w.room.db.status)
  {
    if w.room.db.status == Finished {
      es := [];
    } else {
      var first := DrivesOn(cfg, w);
      var rest := RunsToEnd(cfg, Run(cfg, w, first));
      RunAppend(cfg, w, first, rest);
      es := first + rest;
    }
  }

  lemma ProgressBounded(cfg: Config, w: World)
    requires Control(cfg, w)
    ensures Progress(w.room.db.status, w.room.db.index) <= 2 * |cfg.questions| + 2
  {
  }

  ghost predicate FinishesIn(cfg: Config, w: World, es: seq<Event>)
    requires PositiveLimits(cfg)
  {
    Run(cfg, w, es).room.db.status == Finished
  }

  /** In every reachable state of a started game: if it is not stuck, presses of the host, handler
      steps, the clock and timeout tasks can still finish it; if it is stuck, nothing that anyone
      does ever will. */
  lemma CanFinishUnlessStuck(cfg: Config, start: int, before: seq<Event>)
    requires ValidConfig(cfg) && After(cfg, start, before).room.db.status != Waiting
    ensures var w := After(cfg, start, before);
      && (!Stuck(w) ==> exists es: seq<Event> :: AllDriving(es) && FinishesIn(cfg, w, es))
      && (Stuck(w) ==> forall es: seq<Event> :: !FinishesIn(cfg, w, es))
  {
    var w := After(cfg, start, before);
    ControlInRuns(cfg, start, before);
    if Stuck(w) {
      forall es: seq<Event> ensures !FinishesIn(cfg, w, es) {
        StuckForever(cfg, w, es);
      }
    } else {
      var es := RunsToEnd(cfg, w);
      assert FinishesIn(cfg, w, es);
    }
  }

  // ---- Both failures happen ----

  /** For every quiz with a question and every play order a game gets stuck in its first question:
      its handler fails before the timeout task exists, and the order key is lost. */
  lemma StuckInQuestion(cfg: Config, start: int, order: seq<QuizQuestion>)
    requires ValidConfig(cfg) && PlayOrder(cfg, order) && order != []
    ensures var w := After(cfg, start, Opening(cfg, order) + [HandlerFails] + [LoseOrder]);
      w.room.db.status == Question && Stuck(w)
  {
    DesertedIsReachable(cfg, start, order, []);
    RunSnoc(cfg, Begin(start), Opening(cfg, order) + [HandlerFails], LoseOrder);
    var w := After(cfg, start, Opening(cfg, order) + [HandlerFails]);
    assert Step(cfg, w, LoseOrder) == LoseOrderStep(w);
  }

  /** For every quiz and every play order a game gets stuck before its first question: its handler
      fails during the countdown. */
  lemma StuckInCountdown(cfg: Config, start: int, order: seq<QuizQuestion>)
    requires ValidConfig(cfg) && PlayOrder(cfg, order)
    ensures var w := After(cfg, start, [PressStart(cfg.host, order), HandlerFails]);
      w.room.db.status == Starting && Stuck(w)
  {
    var w1 := PressStartStep(cfg, Begin(start), cfg.host, order);
    assert Step(cfg, Begin(start), PressStart(cfg.host, order)) == w1;
    assert Step(cfg, w1, HandlerFails) == FailStep(w1);
    RunTwo(cfg, Begin(start), PressStart(cfg.host, order), HandlerFails);
  }

  /** For every quiz and every play order a game finishes without having shown a question: the order
      key is lost right after it was written. */
  lemma FinishesUnplayed(cfg: Config, start: int, order: seq<QuizQuestion>)
    requires ValidConfig(cfg) && PlayOrder(cfg, order)
    ensures var w := After(cfg, start,
        [PressStart(cfg.host, order), HandlerStep] + ([LoseOrder, HandlerStep] + [HandlerStep]));
      w.room.db.status == Finished && w.room.db.index == 0 && w.shown == []
  {
    OrderWritten(cfg, start, order);
    var w2 := After(cfg, start, [PressStart(cfg.host, order), HandlerStep]);
    LosesOrderEarly(cfg, w2);
    RunAppend(cfg, Begin(start), [PressStart(cfg.host, order), HandlerStep],
              [LoseOrder, HandlerStep] + [HandlerStep]);
  }

  lemma OrderWritten(cfg: Config, start: int, order: seq<QuizQuestion>)
    requires PositiveLimits(cfg) && PlayOrder(cfg, order)
    ensures var w := After(cfg, start, [PressStart(cfg.host, order), HandlerStep]);
      w.handler == Sending(1) && w.room.db.index == 0 && w.shown == []
  {
    var w1 := PressStartStep(cfg, Begin(start), cfg.host, order);
    assert Step(cfg, Begin(start), PressStart(cfg.host, order)) == w1;
    assert Step(cfg, w1, HandlerStep) == WriteOrder(w1, Ids(order));
    RunTwo(cfg, Begin(start), PressStart(cfg.host, order), HandlerStep);
  }

  lemma LosesOrderEarly(cfg: Config, w: World)
    requires PositiveLimits(cfg) && w.handler == Sending(1)
    ensures var w' := Run(cfg, w, [LoseOrder, HandlerStep] + [HandlerStep]);
      w'.room.db.status == Finished && w'.room.db.index == w.room.db.index && w'.shown == w.shown
  {
    var w1 := LoseOrderStep(w);
    assert Step(cfg, w, LoseOrder) == w1;
    var w2 := ReadOrder(w1, 1);
    assert Step(cfg, w1, HandlerStep) == w2;
    RunTwo(cfg, w, LoseOrder, HandlerStep);
    RunSnoc(cfg, w, [LoseOrder, HandlerStep], HandlerStep);
    assert Step(cfg, w2, HandlerStep) == Finish(w2);
  }
}
