/** One running room: the host's handler, detached timeout tasks and answering players,
    interleaved. The handlers of app/game/router.py are programs whose atomic blocks are separate
    steps, so anything may happen between two of them. */
module GameWorld {
  import opened Prelude
  import opened Leaderboard
  import opened GameModel

  /** Where the host's handler is. One host message is handled at a time. */
  datatype Handler =
    | Idle
    | StoringOrder(order: seq<QuestionId>)          // started; order key not yet written
    | Sending(next: nat)                            // counting down, or about to read the room
    | Advancing(next: nat, order: seq<QuestionId>)  // order key read; commit pending
    | Opened(current: nat, question: QuestionId)    // question committed; start key pending
    | Announcing(current: nat, timeLimit: int)      // broadcasting; timeout task pending
    | Deciding(seen: Status, next: nat, count: nat) // "next" pressed: what the first read saw
    | ForcingEnd                                    // current question found; commit pending
    | ReportingEnd                                  // forced end committed; leaderboard pending
    | Ending                                        // `end_game` entered
    | ReportingFinal                                // finished; final leaderboard pending
    | Clearing                                      // final results sent; ranking key pending

  /** A detached `question_timeout` task. */
  datatype Timer =
    | Sleeping(index: nat, due: int)
    | Reporting(index: nat)      // it ended its question; leaderboard pending

  /** A host update sent for a question. */
  datatype Sent = Sent(question: QuestionId, update: HostUpdate)

  /** A handler failed before the start key of its question, or before its timeout task. */
  datatype Missed = Missed(clock: bool, timer: bool)

  datatype World = World(
    room: Room,
    now: int,                    // microseconds; never goes backwards
    handler: Handler,
    timers: multiset<Timer>,
    inflight: set<Record>,       // accepted answers whose host update is not yet sent
    // History, read by no step:
    playOrder: Option<seq<QuestionId>>,  // the order chosen at the start
    shown: seq<QuestionId>,      // questions opened so far
    openedAt: int,               // when the last of them was opened
    changes: nat,                // status changes so far
    orderLost: bool,             // the order key was lost at some time
    missed: Missed,              // what the handler of the last question failed to do
    boards: seq<seq<Entry>>,     // leaderboards since the ranking key was last absent
    sent: set<Sent>)             // host updates sent so far

  /** A question is open whose timeout task does not exist yet. */
  predicate AboutToStartTimer(h: Handler) { h.Opened? || h.Announcing? }

  datatype Event =
    | Tick(to: int)
    | Join(id: PlayerId, nickname: string, user: Option<UserId>)
    | PressStart(caller: UserId, order: seq<QuizQuestion>)
    | PressNext
    | HandlerStep
    | HandlerFails
    | TimerFires(timer: Timer)
    | TimerReports(timer: Timer)
    | Submit(player: PlayerId, question: Option<QuestionId>, answers: seq<AnswerId>)
    | SendUpdate(record: Record)
    | ViewResults
    | LoseOrder
    | LoseStart
    | LoseAnswered(index: nat, players: set<PlayerId>)
    | LoseRanking

  // Who takes a step, besides the host's handler.
  predicate HostEvent(e: Event) { e.PressStart? || e.PressNext? || e.HandlerFails? }
  predicate PlayerEvent(e: Event) { e.Join? || e.Submit? || e.SendUpdate? }
  predicate TimerEvent(e: Event) { e.TimerFires? || e.TimerReports? }
  predicate LossEvent(e: Event) { e.LoseOrder? || e.LoseStart? || e.LoseAnswered? || e.LoseRanking? }
  predicate QuietEvent(e: Event) { e.Tick? || e.ViewResults? }

  function Begin(now: int): World {
    World(EMPTY_ROOM, now, Idle, multiset{}, {}, None, [], now, 0, false, Missed(false, false), [], {})
  }

  /** Puts a room in place, counting a status change. */
  function Commit(w: World, r: Room): World {
    w.(room := r, changes := if r.db.status != w.room.db.status then w.changes + 1 else w.changes)
  }

  /** A leaderboard is computed and its ranking stored. */
  function ShowBoard(w: World): World {
    w.(room := AfterLeaderboard(w.room), boards := w.boards + [Board(w.room)])
  }

  // ---- Blocks of the host's handler ----

  function WriteOrder(w: World, order: seq<QuestionId>): World {
    w.(room := StoreOrder(w.room, order), handler := Sending(1))
  }

  /** `advance_to_question` reads the room and the order key. */
  function ReadOrder(w: World, next: nat): World {
    match w.room.cache.order
    case None => w.(handler := Ending)
    case Some(order) => w.(handler := Advancing(next, order))
  }

  /** `advance_to_question` commits, whatever the status is by then. */
  function OpenQuestion(w: World, next: nat, order: seq<QuestionId>): World {
    var w' := Commit(w, CommitAdvance(w.room, next, order, w.now));
    if next > |order| then w'.(handler := Ending)
    else if next == 0 then w  // question numbers start at one
    else w'.(handler := Opened(next, order[next - 1]), shown := w.shown + [order[next - 1]],
             openedAt := w.now, missed := Missed(false, false))
  }

  function StartClock(cfg: Config, w: World, current: nat, question: QuestionId): World {
    var w' := w.(room := StoreQuestionStart(w.room, w.now));
    match FindQuestion(cfg.questions, question)
    case None => w'.(handler := Ending)
    case Some(q) => w'.(handler := Announcing(current, q.timeLimit))
  }

  function StartTimer(w: World, current: nat, timeLimit: int): World {
    w.(timers := w.timers + multiset{Sleeping(current, w.now + timeLimit * 1000)}, handler := Idle)
  }

  /** `handle_next_question` after its first read. */
  function Decide(cfg: Config, w: World, seen: Status, next: nat, count: nat): World {
    if seen == Question then
      w.(handler := if CurrentQuestion(cfg, w.room).None? then Idle else ForcingEnd)
    else if seen != Revealing then w.(handler := Idle)
    else if next > count then w.(handler := Ending)
    else w.(handler := Sending(next))
  }

  function ForceEnd(w: World): World {
    Commit(w, Reveal(w.room)).(handler := ReportingEnd)
  }

  function Finish(w: World): World {
    Commit(w, EndGame(w.room, w.now)).(handler := ReportingFinal)
  }

  function ForgetRanking(w: World): World {
    w.(room := ClearRanking(w.room), boards := [])
  }

  /** The next atomic block of the host's handler. */
  function StepHandler(cfg: Config, w: World): World {
    match w.handler
    case Idle => w
    case StoringOrder(order) => WriteOrder(w, order)
    case Sending(next) => ReadOrder(w, next)
    case Advancing(next, order) => OpenQuestion(w, next, order)
    case Opened(current, question) => StartClock(cfg, w, current, question)
    case Announcing(current, timeLimit) => StartTimer(w, current, timeLimit)
    case Deciding(seen, next, count) => Decide(cfg, w, seen, next, count)
    case ForcingEnd => ForceEnd(w)
    case ReportingEnd => ShowBoard(w).(handler := Idle)
    case Ending => Finish(w)
    case ReportingFinal => ShowBoard(w).(handler := Clearing)
    case Clearing => ForgetRanking(w).(handler := Idle)
  }

  // ---- The other actors ----

  ghost function PressStartStep(cfg: Config, w: World, caller: UserId, order: seq<QuizQuestion>): World {
    if w.handler != Idle || !PlayOrder(cfg, order) then w
    else
      match StartGame(cfg, w.room.db, caller, w.now)
      case Err(_) => w
      case Ok(db) => Commit(w, w.room.(db := db))
                       .(handler := StoringOrder(Ids(order)), playOrder := Some(Ids(order)))
  }

  /** `handle_next_question` reads the room. */
  function PressNextStep(cfg: Config, w: World): World {
    if w.handler != Idle then w
    else w.(handler := Deciding(w.room.db.status, w.room.db.index + 1, |cfg.questions|))
  }

  function FailStep(w: World): World {
    w.(handler := Idle, missed := Missed(
      w.missed.clock || w.handler.Opened?, w.missed.timer || AboutToStartTimer(w.handler)))
  }

  function JoinStep(cfg: Config, w: World, id: PlayerId, nickname: string, user: Option<UserId>): World {
    if KnownPlayer(w.room.db.players, id) then w
    else
      match JoinRoom(cfg, w.room.db, id, nickname, user)
      case Err(_) => w
      case Ok(db) => w.(room := w.room.(db := db))
  }

  function FireTimer(w: World, t: Timer): World {
    if t !in w.timers || !t.Sleeping? || w.now < t.due then w
    else if TimeoutEnds(w.room, t.index) then
      Commit(w, FireTimeout(w.room, t.index))
        .(timers := w.timers - multiset{t} + multiset{Reporting(t.index)})
    else w.(timers := w.timers - multiset{t})
  }

  function ReportTimer(cfg: Config, w: World, t: Timer): World {
    if t !in w.timers || !t.Reporting? then w
    else
      var w' := w.(timers := w.timers - multiset{t});
      if CurrentQuestion(cfg, w.room).Some? then ShowBoard(w') else w'
  }

  ghost function SubmitStep(cfg: Config, w: World, player: PlayerId,
                            question: Option<QuestionId>, answers: seq<AnswerId>): World
    requires PositiveLimits(cfg)
  {
    var (r, result) := SubmitAnswer(cfg, w.room, w.now, player, question, answers);
    match result
    case Err(_) => w.(room := r)
    case Ok(record) => w.(room := r, inflight := w.inflight + {record})
  }

  function SendStep(w: World, record: Record): World {
    if record !in w.inflight then w
    else
      var w' := w.(inflight := w.inflight - {record});
      match UpdateFor(w.room.db.players, record)
      case None => w'
      case Some(u) => w'.(sent := w.sent + {Sent(record.question, u)})
  }

  /** A client connecting to a game that runs or has finished is sent a leaderboard. */
  function ViewStep(w: World): World {
    if w.room.db.status == Waiting then w else ShowBoard(w)
  }

  function Forget(c: Cache, index: nat, players: set<PlayerId>): Cache {
    if index in c.answered then c.(answered := c.answered[index := c.answered[index] - players]) else c
  }

  function WithCache(w: World, c: Cache): World {
    w.(room := w.room.(cache := c))
  }

  function LoseOrderStep(w: World): World {
    WithCache(w, w.room.cache.(order := None)).(orderLost := true)
  }

  /** One step. An event that is not possible in `w` leaves it unchanged. */
  ghost function Step(cfg: Config, w: World, e: Event): World
    requires PositiveLimits(cfg)
  {
    match e
    case Tick(to) => if to > w.now then w.(now := to) else w
    case Join(id, nickname, user) => JoinStep(cfg, w, id, nickname, user)
    case PressStart(caller, order) => PressStartStep(cfg, w, caller, order)
    case PressNext => PressNextStep(cfg, w)
    case HandlerStep => StepHandler(cfg, w)
    case HandlerFails => FailStep(w)
    case TimerFires(t) => FireTimer(w, t)
    case TimerReports(t) => ReportTimer(cfg, w, t)
    case Submit(player, question, answers) => SubmitStep(cfg, w, player, question, answers)
    case SendUpdate(record) => SendStep(w, record)
    case ViewResults => ViewStep(w)
    case LoseOrder => LoseOrderStep(w)
    case LoseStart => WithCache(w, w.room.cache.(questionStart := None))
    case LoseAnswered(index, players) => WithCache(w, Forget(w.room.cache, index, players))
    case LoseRanking => ForgetRanking(w)
  }

  ghost function Run(cfg: Config, w: World, es: seq<Event>): World
    requires PositiveLimits(cfg)
    decreases |es|
  {
    if es == [] then w else Run(cfg, Step(cfg, w, es[0]), es[1..])
  }

  /** The state after the events `es` from an empty room. */
  ghost function After(cfg: Config, start: int, es: seq<Event>): World
    requires PositiveLimits(cfg)
  {
    Run(cfg, Begin(start), es)
  }

  lemma {:induction false} RunAppend(cfg: Config, w: World, es: seq<Event>, fs: seq<Event>)
    requires PositiveLimits(cfg)
    ensures Run(cfg, w, es + fs) == Run(cfg, Run(cfg, w, es), fs)
    decreases |es|
  {
    if es == [] {
      assert es + fs == fs;
    } else {
      assert (es + fs)[1..] == es[1..] + fs;
      RunAppend(cfg, Step(cfg, w, es[0]), es[1..], fs);
    }
  }
}
