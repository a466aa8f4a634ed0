/** From stored quiz to running game: what `create_room` guarantees the game about its quiz. */
module QuizPlay {
  import opened Prelude
  import opened Sorting
  import opened Text
  import opened QuizSchemas
  import opened QuizService
  import GameModel
  import GameWorld
  import GameRuns
  import GameDistribution

  function PlayedAnswer(a: Answer): GameModel.QuizAnswer {
    GameModel.QuizAnswer(a.id, a.isCorrect)
  }

  function PlayedQuestion(q: Question): GameModel.QuizQuestion {
    GameModel.QuizQuestion(q.id, q.position, q.timeLimit, Map(q.answers, PlayedAnswer))
  }

  /** The checks of `create_room`, and the game configuration the new room has. */
  function OpenRoom(rules: CaseRules, st: Store, id: QuizId, user: UserId, randomize: bool)
    : Result<GameModel.Config, Error>
  {
    match Owned(st, id, user)
    case Err(e) => Err(e)
    case Ok(q) =>
      if q.status != Published then Err(QuizNotPlayable)
      else
        Ok(GameModel.Config(Map(q.questions, PlayedQuestion),
                            Some(q.settings.maxParticipants), user, randomize, rules))
  }

  lemma PlayedQuestionAnswerable(q: Question, position: int, next: nat)
    requires QuestionFits(q, position, next)
    ensures GameDistribution.HasMarked(PlayedQuestion(q))
  {
    var i :| 0 <= i < |q.answers| && q.answers[i].isCorrect;
    assert PlayedQuestion(q).answers[i] == PlayedAnswer(q.answers[i]);
  }

  /** Whatever requests led to the quiz, a room can only be opened on a non-empty quiz with
      distinct questions, each with a correct option and a limit of 5 to 300 seconds, listed in
      the order of their positions; it admits 1 to 30 players. */
  lemma OpenedQuizzesArePlayable(
      rules: CaseRules, rs: seq<Request>, id: QuizId, user: UserId, randomize: bool)
    requires Lawful(rules)
    requires OpenRoom(rules, Run(rules, EMPTY_STORE, rs), id, user, randomize).Ok?
    ensures var cfg := OpenRoom(rules, Run(rules, EMPTY_STORE, rs), id, user, randomize).value;
      && GameModel.ValidConfig(cfg) && GameDistribution.Answerable(cfg)
      && cfg.questions != []
      && StableSort(cfg.questions, GameModel.PositionOf) == cfg.questions
      && cfg.maxParticipants.Some? && 1 <= cfg.maxParticipants.value <= 30
  {
    var st := Run(rules, EMPTY_STORE, rs);
    StoredQuizzesFit(rules, rs, id);
    FitQuizIsPlayable(rules, st.quizzes[id], st.next);
    var cfg := OpenRoom(rules, st, id, user, randomize).value;
    SortOfSorted(cfg.questions, GameModel.PositionOf);
  }

  lemma FitQuizIsPlayable(rules: CaseRules, q: Quiz, next: nat)
    requires QuizFits(rules, q, next)
    ensures var played := Map(q.questions, PlayedQuestion);
      && Distinct(GameModel.Ids(played))
      && (forall i :: 0 <= i < |played| ==>
            5000 <= played[i].timeLimit <= 300000 && played[i].position == i + 1
            && GameDistribution.HasMarked(played[i]))
  {
    var played := Map(q.questions, PlayedQuestion);
    forall i | 0 <= i < |played|
      ensures 5000 <= played[i].timeLimit <= 300000 && played[i].position == i + 1
        && GameDistribution.HasMarked(played[i])
    {
      assert QuestionFits(q.questions[i], i + 1, next);
      PlayedQuestionAnswerable(q.questions[i], i + 1, next);
    }
  }

  /** In every run of every game on a stored quiz, a submission that selects nothing is graded
      wrong and earns nothing. */
  lemma EmptySelectionFails(
      rules: CaseRules, rs: seq<Request>, id: QuizId, user: UserId, randomize: bool,
      cfg: GameModel.Config, start: int, es: seq<GameWorld.Event>)
    requires Lawful(rules)
    requires OpenRoom(rules, Run(rules, EMPTY_STORE, rs), id, user, randomize) == Ok(cfg)
    ensures GameModel.PositiveLimits(cfg)
    ensures var records := GameWorld.After(cfg, start, es).room.db.records;
      forall i :: 0 <= i < |records| && records[i].selected == [] ==>
        !records[i].correct && records[i].points == 0
  {
    OpenedQuizzesArePlayable(rules, rs, id, user, randomize);
    var records := GameWorld.After(cfg, start, es).room.db.records;
    forall i | 0 <= i < |records| && records[i].selected == []
      ensures !records[i].correct && records[i].points == 0
    {
      GameDistribution.EmptySelectionNeverCorrect(cfg, start, es, i);
    }
  }

  /** A finished game without shuffling, whose order key was never lost, has shown the questions
      of the stored quiz in the author's order, each once. */
  lemma UnshuffledGameFollowsAuthor(
      rules: CaseRules, rs: seq<Request>, id: QuizId, user: UserId,
      cfg: GameModel.Config, start: int, es: seq<GameWorld.Event>)
    requires Lawful(rules)
    requires OpenRoom(rules, Run(rules, EMPTY_STORE, rs), id, user, false) == Ok(cfg)
    ensures GameModel.PositiveLimits(cfg)
    ensures var w := GameWorld.After(cfg, start, es);
      var questions := Run(rules, EMPTY_STORE, rs).quizzes[id].questions;
      GameWorld.LoseOrder !in es && w.room.db.status == GameModel.Finished ==>
        && |w.shown| == |questions|
        && forall i :: 0 <= i < |questions| ==> w.shown[i] == questions[i].id
  {
    OpenedQuizzesArePlayable(rules, rs, id, user, false);
    var w := GameWorld.After(cfg, start, es);
    if GameWorld.LoseOrder !in es && w.room.db.status == GameModel.Finished {
      GameRuns.FinishedCoversQuiz(cfg, start, es);
    }
  }

  /** A room opens exactly for the creator of a published quiz. Its game then asks the questions of the
      quiz, with their limits, options and marks, and its host is the creator. */
  lemma OpenedRoomHoldsQuiz(rules: CaseRules, st: Store, id: QuizId, user: UserId, randomize: bool)
    ensures OpenRoom(rules, st, id, user, randomize).Ok? <==>
      id in st.quizzes && st.quizzes[id].creator == user && st.quizzes[id].status == Published
    ensures OpenRoom(rules, st, id, user, randomize).Ok? ==>
      var cfg, q := OpenRoom(rules, st, id, user, randomize).value, st.quizzes[id];
      && cfg.host == user && cfg.randomize == randomize && cfg.rules == rules
      && cfg.maxParticipants == Some(q.settings.maxParticipants)
      && |cfg.questions| == |q.questions|
      && forall i :: 0 <= i < |q.questions| ==> AsksQuestion(cfg.questions[i], q.questions[i])
  {
  }

  predicate AsksQuestion(asked: GameModel.QuizQuestion, q: Question) {
    && asked.id == q.id && asked.position == q.position && asked.timeLimit == q.timeLimit
    && |asked.answers| == |q.answers|
    && forall i :: 0 <= i < |q.answers| ==>
      asked.answers[i].id == q.answers[i].id && asked.answers[i].isCorrect == q.answers[i].isCorrect
  }
}
