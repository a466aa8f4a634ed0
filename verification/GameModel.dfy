/** The state of one game room and the atomic blocks of `GameService` and of the WebSocket
    handlers, as functions on that state. A room's state is split as in the program: rows of the
    transactional database, and Redis keys that may vanish at any time. */
module GameModel {
  import opened Prelude
  import opened Sorting
  import opened Scoring
  import opened Text
  import opened Leaderboard

  type QuestionId = nat
  type AnswerId = nat

  datatype QuizAnswer = QuizAnswer(id: AnswerId, isCorrect: bool)

  datatype QuizQuestion = QuizQuestion(
    id: QuestionId, position: int, timeLimit: int, answers: seq<QuizAnswer>)

  /** What does not change while a game runs: the quiz and the options of the room. */
  datatype Config = Config(
    questions: seq<QuizQuestion>, maxParticipants: Option<int>,
    host: UserId, randomize: bool, rules: CaseRules)

  datatype Status = Waiting | Starting | Question | Revealing | Finished

  /** One row of the answer table. */
  datatype Record = Record(
    player: PlayerId, question: QuestionId, selected: seq<AnswerId>,
    correct: bool, timeTakenMs: int, points: int)

  datatype Database = Database(
    status: Status, index: nat, startedAt: Option<int>, endedAt: Option<int>,
    players: seq<Player>, records: seq<Record>)

  /** The Redis keys of the room: question order, start of the running question, who answered
      which question index, and the previous ranking. */
  datatype Cache = Cache(
    order: Option<seq<QuestionId>>, questionStart: Option<int>,
    answered: map<nat, set<PlayerId>>, ranking: Option<Ranking>)

  datatype Room = Room(db: Database, cache: Cache)

  datatype Error =
    | GameAlreadyStarted | HostCannotJoin | RoomFull | NicknameAlreadyTaken
    | NotHost | QuestionNotActive | AlreadyAnswered

  datatype AnswerResult = AnswerResult(
    isCorrect: bool, correctIds: set<AnswerId>, points: int, timeTakenMs: int)

  function QuestionIdOf(q: QuizQuestion): QuestionId { q.id }

  function PositionOf(q: QuizQuestion): int { q.position }

  function Ids(questions: seq<QuizQuestion>): seq<QuestionId> {
    Map(questions, QuestionIdOf)
  }

  /** The quiz schema admits time limits of 5 to 300 seconds; questions have distinct keys. */
  ghost predicate ValidConfig(cfg: Config) {
    && Distinct(Ids(cfg.questions))
    && (forall i :: 0 <= i < |cfg.questions| ==> 5000 <= cfg.questions[i].timeLimit <= 300000)
  }

  const EMPTY_ROOM := Room(
    Database(Waiting, 0, None, None, [], []), Cache(None, None, map[], None))

  // ---- Joining ----

  predicate NicknameTaken(rules: CaseRules, players: seq<Player>, nickname: string) {
    exists i :: 0 <= i < |players| && Lower(rules, players[i].nickname) == Lower(rules, nickname)
  }

  /** `join_room`: the new player's key `id` is fresh. */
  function JoinRoom(cfg: Config, db: Database, id: PlayerId, nickname: string, user: Option<UserId>)
    : Result<Database, Error>
  {
    if db.status != Waiting then Err(GameAlreadyStarted)
    else if user == Some(cfg.host) then Err(HostCannotJoin)
    else if cfg.maxParticipants.Some? && cfg.maxParticipants.value != 0
            && |db.players| >= cfg.maxParticipants.value then Err(RoomFull)
    else if NicknameTaken(cfg.rules, db.players, nickname) then Err(NicknameAlreadyTaken)
    else Ok(db.(players := db.players + [Player(id, nickname, user, 0)]))
  }

  // ---- Starting ----

  /** The play orders `start_game` may produce: any shuffle, or sorted by position. */
  ghost predicate PlayOrder(cfg: Config, questions: seq<QuizQuestion>) {
    if cfg.randomize then multiset(questions) == multiset(cfg.questions)
    else questions == StableSort(cfg.questions, PositionOf)
  }

  /** The guard and commit of `start_game`. */
  function StartGame(cfg: Config, db: Database, caller: UserId, now: int): Result<Database, Error> {
    if cfg.host != caller then Err(NotHost)
    else if db.status != Waiting then Err(GameAlreadyStarted)
    else Ok(db.(status := Starting, startedAt := Some(now)))
  }

  function StoreOrder(r: Room, order: seq<QuestionId>): Room {
    r.(cache := r.cache.(order := Some(order)))
  }

  // ---- Questions ----

  function FindQuestion(questions: seq<QuizQuestion>, id: QuestionId): Option<QuizQuestion> {
    if questions == [] then None
    else if questions[0].id == id then Some(questions[0])
    else FindQuestion(questions[1..], id)
  }

  /** `get_current_question`. */
  function CurrentQuestion(cfg: Config, r: Room): Option<QuizQuestion> {
    if r.db.index == 0 || r.cache.order.None? || r.db.index > |r.cache.order.value| then None
    else FindQuestion(cfg.questions, r.cache.order.value[r.db.index - 1])
  }

  /** The commit of `advance_to_question`, for the order key it has read. */
  function CommitAdvance(r: Room, index: nat, order: seq<QuestionId>, now: int): Room {
    if index > |order| then r.(db := r.db.(status := Finished, endedAt := Some(now)))
    else r.(db := r.db.(status := Question, index := index))
  }

  function StoreQuestionStart(r: Room, now: int): Room {
    r.(cache := r.cache.(questionStart := Some(now)))
  }

  /** The commit of a forced end of the question. */
  function Reveal(r: Room): Room {
    r.(db := r.db.(status := Revealing))
  }

  /** The guard of `question_timeout`. */
  predicate TimeoutEnds(r: Room, index: nat) {
    r.db.index == index && r.db.status == Question
  }

  /** The guard and commit of `question_timeout`. */
  function FireTimeout(r: Room, index: nat): Room {
    if TimeoutEnds(r, index) then Reveal(r) else r
  }

  /** The commit of `end_game`. */
  function EndGame(r: Room, now: int): Room {
    r.(db := r.db.(status := Finished, endedAt := Some(now)))
  }

  // ---- Answers ----

  function CorrectIds(q: QuizQuestion): set<AnswerId> {
    set i | 0 <= i < |q.answers| && q.answers[i].isCorrect :: q.answers[i].id
  }

  /** `a` is the id of an option that the quiz marks correct. */
  predicate MarkedCorrect(q: QuizQuestion, a: AnswerId) {
    exists i :: 0 <= i < |q.answers| && q.answers[i].isCorrect && q.answers[i].id == a
  }

  lemma CorrectIdsAreMarked(q: QuizQuestion)
    ensures forall a :: a in CorrectIds(q) <==> MarkedCorrect(q, a)
  {
  }

  /** Elapsed milliseconds from a difference in microseconds, cut toward zero. */
  function Milliseconds(micros: int): int {
    if micros >= 0 then micros / 1000 else -(-micros / 1000)
  }

  function TimeTaken(q: QuizQuestion, start: Option<int>, now: int): int {
    match start
    case Some(s) => Milliseconds(now - s)
    case None => q.timeLimit
  }

  /** The row `submit_answer` writes for a submission to question `q`. */
  function Grade(q: QuizQuestion, player: PlayerId, answers: seq<AnswerId>,
                 start: Option<int>, now: int): Record
    requires q.timeLimit > 0
  {
    var time := TimeTaken(q, start, now);
    var correct := Elements(answers) == CorrectIds(q);
    Record(player, q.id, answers, correct, time, CalculateScore(time, q.timeLimit, correct))
  }

  predicate KnownPlayer(players: seq<Player>, id: PlayerId) {
    exists i :: 0 <= i < |players| && players[i].id == id
  }

  /** The unique key (player, question) of the answer table is taken. */
  predicate HasRecord(records: seq<Record>, player: PlayerId, question: QuestionId) {
    exists i :: 0 <= i < |records| && records[i].player == player && records[i].question == question
  }

  function AddPoints(players: seq<Player>, id: PlayerId, points: int): (r: seq<Player>)
    ensures |r| == |players|
    ensures forall i :: 0 <= i < |players| ==>
      r[i] == if players[i].id == id then players[i].(score := players[i].score + points)
              else players[i]
  {
    seq(|players|, i requires 0 <= i < |players| =>
      if players[i].id == id then players[i].(score := players[i].score + points) else players[i])
  }

  /** The commit of a graded answer: the score and the row together, refused when the row's key is
      taken or its player does not exist. */
  function CommitAnswer(db: Database, record: Record): Result<Database, Error> {
    if !KnownPlayer(db.players, record.player) then Err(AlreadyAnswered)
    else if HasRecord(db.records, record.player, record.question) then Err(AlreadyAnswered)
    else Ok(db.(players := AddPoints(db.players, record.player, record.points),
                records := db.records + [record]))
  }

  function AnsweredAt(c: Cache, index: nat): set<PlayerId> {
    if index in c.answered then c.answered[index] else {}
  }

  function MarkAnswered(c: Cache, index: nat, player: PlayerId): Cache {
    c.(answered := c.answered[index := AnsweredAt(c, index) + {player}])
  }

  ghost predicate PositiveLimits(cfg: Config) {
    forall i :: 0 <= i < |cfg.questions| ==> cfg.questions[i].timeLimit > 0
  }

  lemma {:induction false} FoundQuestion(questions: seq<QuizQuestion>, id: QuestionId)
    ensures var f := FindQuestion(questions, id);
      && (f.Some? ==> f.value in questions && f.value.id == id)
      && (f.None? ==> id !in Ids(questions))
  {
    if questions == [] {
    } else {
      FoundQuestion(questions[1..], id);
      assert questions == [questions[0]] + questions[1..];
      assert Ids(questions) == [questions[0].id] + Ids(questions[1..]);
    }
  }

  /** `submit_answer` without its check of the answered set: the unique key alone decides. A
      submission names a question, or carries a malformed id (`None`). */
  ghost function SubmitUncached(cfg: Config, r: Room, now: int, player: PlayerId,
                                question: Option<QuestionId>, answers: seq<AnswerId>)
    : Result<(Database, Record), Error>
    requires PositiveLimits(cfg)
  {
    if r.db.status != Question || question.None? then Err(QuestionNotActive)
    else
      match CurrentQuestion(cfg, r)
      case None => Err(QuestionNotActive)
      case Some(q) =>
        if q.id != question.value then Err(QuestionNotActive)
        else
          assert q in cfg.questions by { FoundQuestion(cfg.questions, r.cache.order.value[r.db.index - 1]); }
          var record := Grade(q, player, answers, r.cache.questionStart, now);
          match CommitAnswer(r.db, record)
          case Err(e) => Err(e)
          case Ok(db) => Ok((db, record))
  }

  /** `submit_answer`: the check of the answered set comes first, and an accepted answer is added
      to it. */
  ghost function SubmitAnswer(cfg: Config, r: Room, now: int, player: PlayerId,
                              question: Option<QuestionId>, answers: seq<AnswerId>)
    : (Room, Result<Record, Error>)
    requires PositiveLimits(cfg)
  {
    if r.db.status != Question then (r, Err(QuestionNotActive))
    else if player in AnsweredAt(r.cache, r.db.index) then (r, Err(AlreadyAnswered))
    else
      match SubmitUncached(cfg, r, now, player, question, answers)
      case Err(e) => (r, Err(e))
      case Ok((db, record)) => (Room(db, MarkAnswered(r.cache, r.db.index, player)), Ok(record))
  }

  // ---- Leaderboard and host feed ----

  function StoredOrEmpty(ranking: Option<Ranking>): Ranking {
    match ranking case Some(m) => m case None => map[]
  }

  function Board(r: Room): seq<Entry> {
    Entries(r.db.players, StoredOrEmpty(r.cache.ranking))
  }

  /** `get_leaderboard` overwrites the stored ranking. */
  function AfterLeaderboard(r: Room): Room {
    r.(cache := r.cache.(ranking := Some(NewRanking(r.db.players))))
  }

  function ClearRanking(r: Room): Room {
    r.(cache := r.cache.(ranking := None))
  }

  /** What the host is told about one answer. */
  datatype HostUpdate = HostUpdate(
    player: PlayerId, nickname: string, isCorrect: bool, answers: seq<AnswerId>,
    timeTakenMs: int, totalScore: int)

  function FindPlayer(players: seq<Player>, id: PlayerId): Option<Player> {
    if players == [] then None
    else if players[0].id == id then Some(players[0])
    else FindPlayer(players[1..], id)
  }

  /** The update built from an answer and the player row as it is now, if there is one. */
  function UpdateFor(players: seq<Player>, record: Record): Option<HostUpdate> {
    match FindPlayer(players, record.player)
    case None => None
    case Some(p) => Some(HostUpdate(record.player, p.nickname, record.correct, record.selected,
                                    record.timeTakenMs, p.score))
  }

  /** `build_host_answer_details`: the join of the question's rows with the players. */
  ghost function RebuiltFeed(db: Database, question: QuestionId): set<HostUpdate> {
    set r | r in db.records && r.question == question && UpdateFor(db.players, r).Some?
      :: UpdateFor(db.players, r).value
  }
}
