/** What the interleaving keeps about status, question index, handler and timers, and what follows
    for whole runs. */
module GameControl {
  import opened Prelude
  import opened Sorting
  import opened Leaderboard
  import opened GameModel
  import opened GameWorld

  /** How far a game has come, in status changes. */
  function Progress(s: Status, index: nat): nat {
    match s
    case Waiting => 0
    case Starting => 1
    case Question => 2 * index
    case Revealing => 2 * index + 1
    case Finished => 2 * index + 2
  }

  predicate Playing(s: Status) { s == Question || s == Revealing }

  /** The handler is about to open question `next`. */
  predicate ReadyToOpen(n: nat, s: Status, index: nat, next: nat) {
    next == index + 1 && (s == Starting || (s == Revealing && next <= n))
  }

  /** Status, index, times and the count of changes agree. */
  predicate StageFits(n: nat, s: Status, index: nat, started: bool, ended: bool,
                      changes: nat, orderLost: bool)
  {
    && index <= n
    && (s == Waiting || s == Starting ==> index == 0)
    && (Playing(s) ==> index >= 1)
    && changes == Progress(s, index)
    && (s == Finished && !orderLost ==> index == n)
    && (started <==> s != Waiting)
    && (ended <==> s == Finished)
  }

  /** `order` lists the questions in an order that `start_game` may choose. */
  ghost predicate Chosen(cfg: Config, order: seq<QuestionId>) {
    exists questions: seq<QuizQuestion> :: PlayOrder(cfg, questions) && order == Ids(questions)
  }

  /** The play order is one `start_game` may choose, its first `index` questions have been shown,
      and the key in Redis is that order or absent. */
  ghost predicate OrderFits(cfg: Config, s: Status, index: nat, key: Option<seq<QuestionId>>,
                            playOrder: Option<seq<QuestionId>>, shown: seq<QuestionId>, orderLost: bool)
  {
    && (playOrder.None? <==> s == Waiting)
    && (playOrder.None? ==> shown == [] && key.None?)
    && (playOrder.Some? ==>
          && Chosen(cfg, playOrder.value) && |playOrder.value| == |cfg.questions|
          && index <= |playOrder.value| && shown == playOrder.value[..index]
          && (key.Some? ==> key == playOrder)
          && (!orderLost && s != Starting ==> key == playOrder))
  }

  predicate HandlerFits(n: nat, h: Handler, s: Status, index: nat, key: Option<seq<QuestionId>>,
                        playOrder: Option<seq<QuestionId>>, shown: seq<QuestionId>, orderLost: bool)
  {
    match h
    case Idle => true
    case StoringOrder(order) => s == Starting && playOrder == Some(order)
    case Sending(next) => ReadyToOpen(n, s, index, next) && (!orderLost ==> key == playOrder)
    case Advancing(next, order) =>
      ReadyToOpen(n, s, index, next) && playOrder == Some(order) && (!orderLost ==> key == playOrder)
    case Opened(current, question) =>
      s == Question && current == index && shown != [] && question == shown[|shown| - 1]
    case Announcing(current, _) => s == Question && current == index
    case Deciding(seen, next, count) =>
      && next == index + 1 && count == n
      && (seen == s || (seen == Question && s == Revealing))
    case ForcingEnd => Playing(s)
    case ReportingEnd => s == Revealing
    case Ending =>
      && (s == Starting || s == Revealing || s == Finished)
      && (!orderLost ==> index == n && key == playOrder)
    case ReportingFinal => s == Finished
    case Clearing => s == Finished
  }

  ghost predicate HasTimer(timers: multiset<Timer>, index: nat) {
    exists due :: Sleeping(index, due) in timers
  }

  /** Timeout tasks belong to questions opened before. A running question has its own unless its
      handler is about to create it or failed before it could, and then it has none. */
  ghost predicate TimersFit(timers: multiset<Timer>, starting: bool, s: Status, index: nat, missed: bool) {
    && !(starting && missed)
    && (forall t :: t in timers ==> 1 <= t.index <= index && (starting || missed ==> t.index < index))
    && (s == Question && !missed && !starting ==> HasTimer(timers, index))
  }

  ghost predicate Control(cfg: Config, w: World) {
    var db, key, n := w.room.db, w.room.cache.order, |cfg.questions|;
    && StageFits(n, db.status, db.index, db.startedAt.Some?, db.endedAt.Some?, w.changes, w.orderLost)
    && OrderFits(cfg, db.status, db.index, key, w.playOrder, w.shown, w.orderLost)
    && HandlerFits(n, w.handler, db.status, db.index, key, w.playOrder, w.shown, w.orderLost)
    && TimersFit(w.timers, AboutToStartTimer(w.handler), db.status, db.index, w.missed.timer)
  }

  lemma PermutationIds(a: seq<QuizQuestion>, b: seq<QuizQuestion>, id: QuestionId)
    requires multiset(a) == multiset(b) && id in Ids(a)
    ensures id in Ids(b)
  {
    var i :| 0 <= i < |a| && a[i].id == id;
    assert a[i] in multiset(b);
    var k :| 0 <= k < |b| && b[k] == a[i];
    assert Ids(b)[k] == id;
  }

  lemma PermutationDistinct(a: seq<QuizQuestion>, b: seq<QuizQuestion>, i: nat, j: nat)
    requires multiset(a) == multiset(b) && Distinct(Ids(b)) && i < j < |a|
    ensures a[i].id != a[j].id
  {
    if a[i].id == a[j].id {
      assert a[i] in multiset(b) && a[j] in multiset(b);
      var k :| 0 <= k < |b| && b[k] == a[i];
      var l :| 0 <= l < |b| && b[l] == a[j];
      assert Ids(b)[k] == Ids(b)[l];
      TwiceInMultiset(a, i, j);
      OccursOnce(b, k);
    }
  }

  /** A chosen order has every question of the quiz exactly once. */
  lemma ChosenIsPermutation(cfg: Config, order: seq<QuestionId>)
    requires Distinct(Ids(cfg.questions)) && Chosen(cfg, order)
    ensures |order| == |cfg.questions| && Distinct(order)
    ensures forall id :: id in order <==> id in Ids(cfg.questions)
  {
    var qs: seq<QuizQuestion> :| PlayOrder(cfg, qs) && order == Ids(qs);
    PlayOrderPermutes(cfg, qs);
    forall i, j | 0 <= i < j < |order| ensures order[i] != order[j] {
      PermutationDistinct(qs, cfg.questions, i, j);
    }
    forall id ensures id in order <==> id in Ids(cfg.questions) {
      if id in order { PermutationIds(qs, cfg.questions, id); }
      if id in Ids(cfg.questions) { PermutationIds(cfg.questions, qs, id); }
    }
  }

  lemma OccursOnce(s: seq<QuizQuestion>, a: nat)
    requires Distinct(Ids(s)) && a < |s|
    ensures multiset(s)[s[a]] == 1
  {
    assert s == s[..a] + [s[a]] + s[a + 1..];
    forall i | 0 <= i < |s| && i != a ensures s[i] != s[a] {
      assert Ids(s)[i] != Ids(s)[a];
    }
    assert s[a] !in s[..a] && s[a] !in s[a + 1..];
  }

  lemma PlayOrderPermutes(cfg: Config, questions: seq<QuizQuestion>)
    requires PlayOrder(cfg, questions)
    ensures multiset(questions) == multiset(cfg.questions) && |questions| == |cfg.questions|
  {
    SortSorts(cfg.questions, PositionOf);
    assert |multiset(questions)| == |questions| && |multiset(cfg.questions)| == |cfg.questions|;
  }

  lemma ControlAtStart(cfg: Config, start: int)
    ensures Control(cfg, Begin(start))
  {
  }

  /** Only the handler moves on, to a block that fits and that has no timeout task to create. */
  lemma MovingOnKeepsControl(cfg: Config, w: World, h: Handler)
    requires Control(cfg, w) && !AboutToStartTimer(w.handler) && !AboutToStartTimer(h)
    requires HandlerFits(|cfg.questions|, h, w.room.db.status, w.room.db.index, w.room.cache.order,
                         w.playOrder, w.shown, w.orderLost)
    ensures Control(cfg, w.(handler := h))
  {
  }

  lemma ReadOrderKeepsControl(cfg: Config, w: World, next: nat)
    requires Control(cfg, w) && w.handler == Sending(next)
    ensures Control(cfg, ReadOrder(w, next))
  {
    MovingOnKeepsControl(cfg, w, ReadOrder(w, next).handler);
  }

  lemma OpenQuestionKeepsControl(cfg: Config, w: World, next: nat, order: seq<QuestionId>)
    requires Control(cfg, w) && w.handler == Advancing(next, order)
    ensures Control(cfg, OpenQuestion(w, next, order))
  {
    if next > |order| {
      PastOrderKeepsControl(cfg, w, next, order);
    } else {
      OpensKeepsControl(cfg, w, next, order);
    }
  }

  lemma PastOrderKeepsControl(cfg: Config, w: World, next: nat, order: seq<QuestionId>)
    requires Control(cfg, w) && w.handler == Advancing(next, order) && next > |order|
    ensures Control(cfg, OpenQuestion(w, next, order))
  {
  }

  lemma OpensKeepsControl(cfg: Config, w: World, next: nat, order: seq<QuestionId>)
    requires Control(cfg, w) && w.handler == Advancing(next, order) && next <= |order|
    ensures Control(cfg, OpenQuestion(w, next, order))
  {
    assert order[..next] == order[..next - 1] + [order[next - 1]];
  }

  lemma StartClockKeepsControl(cfg: Config, w: World, current: nat, question: QuestionId)
    requires Distinct(Ids(cfg.questions)) && Control(cfg, w) && w.handler == Opened(current, question)
    ensures Control(cfg, StartClock(cfg, w, current, question))
  {
    assert question == w.playOrder.value[w.room.db.index - 1];
    ChosenIsPermutation(cfg, w.playOrder.value);
    FoundQuestion(cfg.questions, question);
  }

  lemma StartTimerKeepsControl(cfg: Config, w: World, current: nat, timeLimit: int)
    requires Control(cfg, w) && w.handler == Announcing(current, timeLimit)
    ensures Control(cfg, StartTimer(w, current, timeLimit))
  {
    assert Sleeping(current, w.now + timeLimit * 1000) in StartTimer(w, current, timeLimit).timers;
  }

  lemma DecideKeepsControl(cfg: Config, w: World, seen: Status, next: nat, count: nat)
    requires Control(cfg, w) && w.handler == Deciding(seen, next, count)
    ensures Control(cfg, Decide(cfg, w, seen, next, count))
  {
    MovingOnKeepsControl(cfg, w, Decide(cfg, w, seen, next, count).handler);
  }

  lemma ForceEndKeepsControl(cfg: Config, w: World)
    requires Control(cfg, w) && w.handler.ForcingEnd?
    ensures Control(cfg, ForceEnd(w))
  {
  }

  lemma FinishKeepsControl(cfg: Config, w: World)
    requires Control(cfg, w) && w.handler.Ending?
    ensures Control(cfg, Finish(w))
  {
  }

  lemma ShowBoardKeepsControl(cfg: Config, w: World, h: Handler)
    requires Control(cfg, w)
    requires || h == w.handler
             || (h == Idle && w.handler == ReportingEnd)
             || (h == Clearing && w.handler == ReportingFinal)
    ensures Control(cfg, ShowBoard(w).(handler := h))
  {
  }

  predicate OpensGame(h: Handler) {
    h.StoringOrder? || h.Sending? || h.Advancing? || h.Opened? || h.Announcing?
  }

  lemma OpeningBlocksKeepControl(cfg: Config, w: World)
    requires Distinct(Ids(cfg.questions)) && Control(cfg, w) && OpensGame(w.handler)
    ensures Control(cfg, StepHandler(cfg, w))
  {
    match w.handler
    case StoringOrder(_) =>
    case Sending(next) => ReadOrderKeepsControl(cfg, w, next);
    case Advancing(next, order) => OpenQuestionKeepsControl(cfg, w, next, order);
    case Opened(current, question) => StartClockKeepsControl(cfg, w, current, question);
    case Announcing(current, timeLimit) => StartTimerKeepsControl(cfg, w, current, timeLimit);
  }

  lemma ClosingBlocksKeepControl(cfg: Config, w: World)
    requires Control(cfg, w) && !OpensGame(w.handler)
    ensures Control(cfg, StepHandler(cfg, w))
  {
    match w.handler
    case Deciding(seen, next, count) => DecideKeepsControl(cfg, w, seen, next, count);
    case ForcingEnd => ForceEndKeepsControl(cfg, w);
    case ReportingEnd => ShowBoardKeepsControl(cfg, w, Idle);
    case Ending => FinishKeepsControl(cfg, w);
    case ReportingFinal => ShowBoardKeepsControl(cfg, w, Clearing);
    case _ =>
  }

  lemma HandlerKeepsControl(cfg: Config, w: World)
    requires Distinct(Ids(cfg.questions)) && Control(cfg, w)
    ensures Control(cfg, StepHandler(cfg, w))
  {
    if OpensGame(w.handler) {
      OpeningBlocksKeepControl(cfg, w);
    } else {
      ClosingBlocksKeepControl(cfg, w);
    }
  }

  lemma TimerLeaves(timers: multiset<Timer>, t: Timer, starting: bool, s: Status, index: nat, missed: bool)
    requires TimersFit(timers, starting, s, index, missed)
    requires t.index != index || t.Reporting?
    ensures TimersFit(timers - multiset{t}, starting, s, index, missed)
  {
    if HasTimer(timers, index) {
      var due :| Sleeping(index, due) in timers;
      assert Sleeping(index, due) in timers - multiset{t};
    }
  }

  lemma FireTimerKeepsControl(cfg: Config, w: World, t: Timer)
    requires Control(cfg, w)
    ensures Control(cfg, FireTimer(w, t))
  {
    if t in w.timers && t.Sleeping? && w.now >= t.due {
      var db := w.room.db;
      if TimeoutEnds(w.room, t.index) {
        TimersAfterEnd(w.timers, t, AboutToStartTimer(w.handler), db.index, w.missed.timer);
      } else if t.index != db.index {
        TimerLeaves(w.timers, t, AboutToStartTimer(w.handler), db.status, db.index, w.missed.timer);
      }
    }
  }

  lemma TimersAfterEnd(timers: multiset<Timer>, t: Timer, starting: bool, index: nat, missed: bool)
    requires TimersFit(timers, starting, Question, index, missed) && t in timers
    ensures TimersFit(timers - multiset{t} + multiset{Reporting(t.index)}, starting, Revealing, index, missed)
  {
  }

  lemma ReportTimerKeepsControl(cfg: Config, w: World, t: Timer)
    requires Control(cfg, w)
    ensures Control(cfg, ReportTimer(cfg, w, t))
  {
    if t in w.timers && t.Reporting? {
      var db := w.room.db;
      TimerLeaves(w.timers, t, AboutToStartTimer(w.handler), db.status, db.index, w.missed.timer);
      var w' := w.(timers := w.timers - multiset{t});
      ShowBoardKeepsControl(cfg, w', w'.handler);
    }
  }

  lemma PressStartKeepsControl(cfg: Config, w: World, caller: UserId, order: seq<QuizQuestion>)
    requires Control(cfg, w)
    ensures Control(cfg, PressStartStep(cfg, w, caller, order))
  {
    if PlayOrder(cfg, order) {
      StartedOrderFits(cfg, order, w.orderLost);
    }
  }

  lemma StartedOrderFits(cfg: Config, order: seq<QuizQuestion>, orderLost: bool)
    requires PlayOrder(cfg, order)
    ensures OrderFits(cfg, Starting, 0, None, Some(Ids(order)), [], orderLost)
  {
    PlayOrderPermutes(cfg, order);
    assert Chosen(cfg, Ids(order));
  }

  lemma PressNextKeepsControl(cfg: Config, w: World)
    requires Control(cfg, w)
    ensures Control(cfg, PressNextStep(cfg, w)) && Control(cfg, FailStep(w))
  {
  }

  lemma SubmitKeepsControl(cfg: Config, w: World, player: PlayerId,
                           question: Option<QuestionId>, answers: seq<AnswerId>)
    requires PositiveLimits(cfg) && Control(cfg, w)
    ensures Control(cfg, SubmitStep(cfg, w, player, question, answers))
  {
  }

  lemma JoinKeepsControl(cfg: Config, w: World, id: PlayerId, nickname: string, user: Option<UserId>)
    requires Control(cfg, w)
    ensures Control(cfg, JoinStep(cfg, w, id, nickname, user))
  {
  }

  lemma SendKeepsControl(cfg: Config, w: World, record: Record)
    requires Control(cfg, w)
    ensures Control(cfg, SendStep(w, record))
  {
    var w' := SendStep(w, record);
    assert w' == w.(inflight := w'.inflight, sent := w'.sent);
  }

  /** Steps that change nothing the invariant speaks of. */
  predicate SameControl(w: World, w': World) {
    && w'.room.db == w.room.db && w'.room.cache.order == w.room.cache.order && w'.handler == w.handler
    && w'.timers == w.timers && w'.playOrder == w.playOrder && w'.shown == w.shown
    && w'.orderLost == w.orderLost && w'.changes == w.changes && w'.missed == w.missed
  }

  lemma SameKeepsControl(cfg: Config, w: World, w': World)
    requires Control(cfg, w) && SameControl(w, w')
    ensures Control(cfg, w')
  {
  }

  lemma LossKeepsControl(cfg: Config, w: World)
    requires Control(cfg, w)
    ensures Control(cfg, LoseOrderStep(w))
  {
  }

  lemma QuietEventsLeaveControl(cfg: Config, w: World, e: Event)
    requires PositiveLimits(cfg) && (QuietEvent(e) || (LossEvent(e) && !e.LoseOrder?))
    ensures SameControl(w, Step(cfg, w, e))
  {
  }

  lemma HostEventsKeepControl(cfg: Config, w: World, e: Event)
    requires ValidConfig(cfg) && Control(cfg, w) && HostEvent(e)
    ensures Control(cfg, Step(cfg, w, e))
  {
    match e
    case PressStart(caller, order) => PressStartKeepsControl(cfg, w, caller, order);
    case _ => PressNextKeepsControl(cfg, w);
  }

  lemma OtherEventsKeepControl(cfg: Config, w: World, e: Event)
    requires ValidConfig(cfg) && Control(cfg, w) && (QuietEvent(e) || LossEvent(e))
    ensures Control(cfg, Step(cfg, w, e))
  {
    if e.LoseOrder? {
      LossKeepsControl(cfg, w);
    } else {
      QuietEventsLeaveControl(cfg, w, e);
      SameKeepsControl(cfg, w, Step(cfg, w, e));
    }
  }

  lemma StepKeepsControl(cfg: Config, w: World, e: Event)
    requires ValidConfig(cfg) && Control(cfg, w)
    ensures Control(cfg, Step(cfg, w, e))
  {
    if e.HandlerStep? {
      HandlerKeepsControl(cfg, w);
    } else if HostEvent(e) {
      HostEventsKeepControl(cfg, w, e);
    } else if e.Join? {
      JoinKeepsControl(cfg, w, e.id, e.nickname, e.user);
    } else if e.Submit? {
      SubmitKeepsControl(cfg, w, e.player, e.question, e.answers);
    } else if e.SendUpdate? {
      SendKeepsControl(cfg, w, e.record);
    } else if e.TimerFires? {
      FireTimerKeepsControl(cfg, w, e.timer);
    } else if e.TimerReports? {
      ReportTimerKeepsControl(cfg, w, e.timer);
    } else {
      OtherEventsKeepControl(cfg, w, e);
    }
  }
}
