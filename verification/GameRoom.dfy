/** `GameService` and the committing blocks of the WebSocket handlers, as methods that update the
    room in place. Each is proved against the function of module GameModel that the interleaving is
    built from. */
module GameRoom {
  import opened Prelude
  import opened Sorting
  import opened Scoring
  import opened Text
  import opened Leaderboard
  import opened GameModel
  import opened GameFeed
  import opened GameDistribution

  lemma OptionIdsAre(q: QuizQuestion, counts: map<AnswerId, nat>)
    requires counts == map i | 0 <= i < |q.answers| :: q.answers[i].id := 0
    ensures forall a :: a in counts <==> a in OptionIds(q)
  {
    forall a ensures a in counts <==> a in OptionIds(q) {
      if a in OptionIds(q) {
        var i :| 0 <= i < |OptionIds(q)| && OptionIds(q)[i] == a;
        assert q.answers[i].id in counts;
      }
      if a in counts {
        var i :| 0 <= i < |q.answers| && q.answers[i].id == a;
        assert OptionIds(q)[i] == a;
      }
    }
  }

  /** Every submission by anyone is refused as not active and changes nothing. */
  ghost predicate AnswersRefused(r: Room) {
    forall cfg: Config, now, player, question, answers :: PositiveLimits(cfg) ==>
      GameModel.SubmitAnswer(cfg, r, now, player, question, answers) == (r, Err(QuestionNotActive))
  }

  /** Looking a question up finds one exactly when the list holds the id. */
  lemma FoundIsListed(questions: seq<QuizQuestion>, id: QuestionId)
    ensures FindQuestion(questions, id).Some? <==> id in Ids(questions)
    ensures FindQuestion(questions, id).Some? ==>
      FindQuestion(questions, id).value in questions && FindQuestion(questions, id).value.id == id
  {
    FoundQuestion(questions, id);
    if FindQuestion(questions, id).Some? {
      var i :| 0 <= i < |questions| && questions[i] == FindQuestion(questions, id).value;
      assert Ids(questions)[i] == id;
    }
  }

  /** `questions` are the questions of the quiz in some order. */
  ghost predicate Orders(cfg: Config, questions: seq<QuizQuestion>) {
    Distinct(Ids(cfg.questions)) && multiset(questions) == multiset(cfg.questions)
  }

  /** At index k the room's current question is the k-th of `questions`. */
  ghost predicate PlaysInOrder(cfg: Config, r: Room, questions: seq<QuizQuestion>) {
    forall k: nat :: 1 <= k <= |questions| ==>
      CurrentQuestion(cfg, r.(db := r.db.(index := k))) == Some(questions[k - 1])
  }

  lemma OrderPlays(cfg: Config, r: Room, questions: seq<QuizQuestion>)
    requires Orders(cfg, questions) && r.cache.order == Some(Ids(questions))
    ensures PlaysInOrder(cfg, r, questions)
  {
    forall k: nat | 1 <= k <= |questions|
      ensures CurrentQuestion(cfg, r.(db := r.db.(index := k))) == Some(questions[k - 1])
    {
      var q := questions[k - 1];
      assert q in multiset(cfg.questions);
      var i :| 0 <= i < |cfg.questions| && cfg.questions[i] == q;
      assert Ids(cfg.questions)[i] == q.id;
      FoundQuestion(cfg.questions, q.id);
      var j :| 0 <= j < |cfg.questions| && cfg.questions[j] == FindQuestion(cfg.questions, q.id).value;
      assert Ids(cfg.questions)[j] == q.id;
    }
  }

  /** The update tells about a row of the question and the player who sent it. */
  ghost predicate ComesFromRow(players: seq<Player>, records: seq<Record>, question: QuestionId, u: HostUpdate) {
    exists r, p :: r in records && p in players && r.question == question && IsAbout(u, r, p)
  }

  predicate IsAbout(u: HostUpdate, r: Record, p: Player) {
    && p.id == r.player && u.player == r.player && u.nickname == p.nickname
    && u.isCorrect == r.correct && u.answers == r.selected
    && u.timeTakenMs == r.timeTakenMs && u.totalScore == p.score
  }

  lemma UpdateComesFromRow(players: seq<Player>, records: seq<Record>, k: nat, u: HostUpdate)
    requires k < |records| && Tells(players, records[k], u)
    ensures ComesFromRow(players, records, records[k].question, u)
  {
    FoundPlayer(players, records[k].player);
    assert IsAbout(u, records[k], FindPlayer(players, records[k].player).value);
  }

  class RoomState {
    // Database rows.
    var status: Status
    var index: nat
    var startedAt: Option<int>
    var endedAt: Option<int>
    var players: seq<Player>
    var records: seq<Record>
    // Redis keys.
    var order: Option<seq<QuestionId>>
    var questionStart: Option<int>
    var answered: map<nat, set<PlayerId>>
    var ranking: Option<Ranking>

    function View(): Room
      reads this
    {
      Room(Database(status, index, startedAt, endedAt, players, records),
           Cache(order, questionStart, answered, ranking))
    }

    constructor ()
      ensures View() == EMPTY_ROOM
    {
      status, index, startedAt, endedAt, players, records := Waiting, 0, None, None, [], [];
      order, questionStart, answered, ranking := None, None, map[], None;
    }

    /** `join_room`, with the loop over the room's nicknames. */
    method JoinRoom(cfg: Config, id: PlayerId, nickname: string, user: Option<UserId>)
      returns (error: Option<Error>)
      modifies this
      ensures match GameModel.JoinRoom(cfg, old(View().db), id, nickname, user)
        case Err(e) => error == Some(e) && View() == old(View())
        case Ok(db) => error == None && View() == old(View()).(db := db)
    {
      if status != Waiting {
        return Some(GameAlreadyStarted);
      }
      if user == Some(cfg.host) {
        return Some(HostCannotJoin);
      }
      if cfg.maxParticipants.Some? && cfg.maxParticipants.value != 0
         && |players| >= cfg.maxParticipants.value {
        return Some(RoomFull);
      }
      var i := 0;
      while i < |players|
        invariant 0 <= i <= |players|
        invariant View() == old(View())
        invariant forall j :: 0 <= j < i ==>
          Lower(cfg.rules, players[j].nickname) != Lower(cfg.rules, nickname)
      {
        if Lower(cfg.rules, players[i].nickname) == Lower(cfg.rules, nickname) {
          return Some(NicknameAlreadyTaken);
        }
        i := i + 1;
      }
      players := players + [Player(id, nickname, user, 0)];
      return None;
    }

    /** `start_game` up to its commit; `shuffled` is what `random.shuffle` produced. */
    method StartGame(cfg: Config, caller: UserId, now: int, shuffled: seq<QuizQuestion>)
      returns (result: Result<seq<QuizQuestion>, Error>)
      requires multiset(shuffled) == multiset(cfg.questions)
      modifies this
      ensures match GameModel.StartGame(cfg, old(View().db), caller, now)
        case Err(e) => result == Err(e) && View() == old(View())
        case Ok(db) => result.Ok? && PlayOrder(cfg, result.value) && View() == old(View()).(db := db)
    {
      if cfg.host != caller {
        return Err(NotHost);
      }
      if status != Waiting {
        return Err(GameAlreadyStarted);
      }
      var questions;
      if cfg.randomize {
        questions := shuffled;
      } else {
        questions := StableSort(cfg.questions, PositionOf);
      }
      status := Starting;
      startedAt := Some(now);
      return Ok(questions);
    }

    /** The end of `start_game`, the order key: with it, the current question at index k is the k-th
        of the order chosen. */
    method WriteOrder(questions: seq<QuizQuestion>)
      modifies this
      ensures View() == StoreOrder(old(View()), Ids(questions))
      ensures forall cfg: Config :: Orders(cfg, questions) ==> PlaysInOrder(cfg, View(), questions)
    {
      order := Some(Ids(questions));
      forall cfg: Config | Orders(cfg, questions) ensures PlaysInOrder(cfg, View(), questions) {
        OrderPlays(cfg, View(), questions);
      }
    }

    /** `get_current_question`: the question of the quiz that the order key names at the current
        index; none if the key is gone, the index is outside it, or the quiz has no such question. */
    method GetCurrentQuestion(cfg: Config) returns (question: Option<QuizQuestion>)
      ensures question == CurrentQuestion(cfg, View())
      ensures question.Some? <==>
        order.Some? && 1 <= index <= |order.value| && order.value[index - 1] in Ids(cfg.questions)
      ensures question.Some? ==>
        question.value in cfg.questions && question.value.id == order.value[index - 1]
    {
      if index == 0 || order.None? || index > |order.value| {
        return None;
      }
      FoundIsListed(cfg.questions, order.value[index - 1]);
      question := FindQuestion(cfg.questions, order.value[index - 1]);
    }

    /** The commit of `advance_to_question`, for the order key read before: the question it opens can
        be ended by its own timeout and no other. */
    method Advance(questionIndex: nat, questionIds: seq<QuestionId>, now: int) returns (opens: bool)
      modifies this
      ensures opens <==> questionIndex <= |questionIds|
      ensures opens ==> forall k :: TimeoutEnds(View(), k) <==> k == questionIndex
      ensures !opens ==> AnswersRefused(View()) && forall k :: FireTimeout(View(), k) == View()
      ensures View() == CommitAdvance(old(View()), questionIndex, questionIds, now)
    {
      if questionIndex > |questionIds| {
        status := Finished;
        endedAt := Some(now);
        return false;
      }
      status := Question;
      index := questionIndex;
      return true;
    }

    /** The start key: an answer given at once takes no time, and the full score if it is right. */
    method WriteQuestionStart(now: int)
      modifies this
      ensures View() == StoreQuestionStart(old(View()), now)
      ensures forall q: QuizQuestion, player: PlayerId, answers: seq<AnswerId> :: q.timeLimit > 0 ==>
        var r := Grade(q, player, answers, questionStart, now);
        r.timeTakenMs == 0 && r.points == if r.correct then MAX_POINTS_PER_QUESTION else 0
    {
      questionStart := Some(now);
      forall q: QuizQuestion, player: PlayerId, answers: seq<AnswerId> | q.timeLimit > 0
        ensures var r := Grade(q, player, answers, questionStart, now);
          r.timeTakenMs == 0 && r.points == if r.correct then MAX_POINTS_PER_QUESTION else 0
      {
        ScoreBounds(0, q.timeLimit);
      }
    }

    /** The commit of `handle_next_question` on a running question: from then on no timeout task
        changes the room and no answer is taken. */
    method ForceEnd()
      modifies this
      ensures View() == Reveal(old(View()))
      ensures forall i :: FireTimeout(View(), i) == View()
      ensures AnswersRefused(View())
    {
      status := Revealing;
    }

    /** The guard and commit of `question_timeout`: a timeout that ends the question is the last word
        on it, and any other leaves the question to its own. */
    method Timeout(questionIndex: nat) returns (ended: bool)
      modifies this
      ensures ended <==> TimeoutEnds(old(View()), questionIndex)
      ensures View() == FireTimeout(old(View()), questionIndex)
      ensures ended ==> AnswersRefused(View())
      ensures forall k :: !ended && k != questionIndex ==> TimeoutEnds(View(), k) == TimeoutEnds(old(View()), k)
      ensures forall k :: ended ==> FireTimeout(View(), k) == View()
    {
      if index != questionIndex {
        return false;
      }
      if status != Question {
        return false;
      }
      status := Revealing;
      return true;
    }

    /** The commit of `end_game`: scores and rows are final, as no timeout task changes the room and
        no player joins or answers any more. */
    method EndGame(now: int)
      modifies this
      ensures View() == GameModel.EndGame(old(View()), now)
      ensures forall i :: FireTimeout(View(), i) == View()
      ensures AnswersRefused(View())
      ensures forall cfg, id, nickname, user ::
        GameModel.JoinRoom(cfg, View().db, id, nickname, user) == Err(GameAlreadyStarted)
    {
      status := Finished;
      endedAt := Some(now);
    }

    /** `submit_answer`. */
    method SubmitAnswer(cfg: Config, now: int, player: PlayerId, question: Option<QuestionId>,
                        answers: seq<AnswerId>)
      returns (result: Result<AnswerResult, Error>)
      requires PositiveLimits(cfg)
      modifies this
      ensures var (r, spec) := GameModel.SubmitAnswer(cfg, old(View()), now, player, question, answers);
        && View() == r
        && match spec
           case Err(e) => result == Err(e)
           case Ok(record) =>
             && old(CurrentQuestion(cfg, View())).Some?
             && result == Ok(AnswerResult(record.correct,
                                          CorrectIds(old(CurrentQuestion(cfg, View())).value),
                                          record.points, record.timeTakenMs))
      ensures result.Ok? ==>
        && old(CurrentQuestion(cfg, View())).Some?
        && forall a :: a in result.value.correctIds <==>
          MarkedCorrect(old(CurrentQuestion(cfg, View())).value, a)
      ensures result.Ok? ==>
        (result.value.isCorrect <==> SelectsExactlyMarked(old(CurrentQuestion(cfg, View())).value, answers))
    {
      if status != Question {
        return Err(QuestionNotActive);
      }
      if index in answered && player in answered[index] {
        return Err(AlreadyAnswered);
      }
      if question.None? {
        return Err(QuestionNotActive);
      }
      var current := GetCurrentQuestion(cfg);
      if current.None? || current.value.id != question.value {
        return Err(QuestionNotActive);
      }
      var q := current.value;
      assert q in cfg.questions by {
        FoundQuestion(cfg.questions, order.value[index - 1]);
      }
      var timeTaken := q.timeLimit;
      if questionStart.Some? {
        timeTaken := Milliseconds(now - questionStart.value);
      }
      var correctIds := CorrectIds(q);
      CorrectIdsAreMarked(q);
      SelectsMarkedIff(q, answers);
      var isCorrect := Elements(answers) == correctIds;
      var points := CalculateScore(timeTaken, q.timeLimit, isCorrect);
      if !KnownPlayer(players, player) || HasRecord(records, player, q.id) {
        return Err(AlreadyAnswered);  // the commit fails and is rolled back
      }
      players := AddPoints(players, player, points);
      records := records + [Record(player, q.id, answers, isCorrect, timeTaken, points)];
      answered := answered[index := (if index in answered then answered[index] else {}) + {player}];
      return Ok(AnswerResult(isCorrect, correctIds, points, timeTaken));
    }

    /** `get_leaderboard`: ranks are assigned in one pass, and the stored ranking is overwritten. */
    method GetLeaderboard() returns (entries: seq<Entry>)
      modifies this
      ensures entries == Board(old(View()))
      ensures View() == AfterLeaderboard(old(View()))
    {
      var sorted := ByScore(players);
      var prev := StoredOrEmpty(ranking);
      entries := [];
      var newRanking: Ranking := map[];
      var i := 0;
      while i < |sorted|
        invariant 0 <= i <= |sorted|
        invariant View() == old(View())
        invariant entries == EntriesOf(sorted, prev)[..i]
        invariant newRanking == RankingOf(sorted[..i])
      {
        var rank := i + 1;
        var player := sorted[i];
        var prevRank := if player.id in prev then prev[player.id] else rank;
        newRanking := newRanking[player.id := rank];
        entries := entries + [Entry(rank, player.id, player.nickname, player.score, prevRank - rank)];
        assert sorted[..i + 1][..i] == sorted[..i];
        i := i + 1;
      }
      assert sorted[..i] == sorted;
      ranking := Some(newRanking);
    }

    /** `clear_ranking_state`: the next leaderboard shows no changes. */
    method ClearRankingState()
      modifies this
      ensures View() == ClearRanking(old(View()))
      ensures forall e :: e in Board(View()) ==> e.change == 0
    {
      ranking := None;
    }

    /** `compute_answer_distribution`: a counter for each option of the question. */
    method ComputeAnswerDistribution(question: QuizQuestion) returns (counts: map<AnswerId, nat>)
      ensures forall a :: a in counts <==> a in OptionIds(question)
      ensures forall a :: a in counts ==> counts[a] == Selections(records, question.id, a)
    {
      counts := map i | 0 <= i < |question.answers| :: question.answers[i].id := 0;
      OptionIdsAre(question, counts);
      var k := 0;
      while k < |records|
        invariant 0 <= k <= |records|
        invariant forall a :: a in counts <==> a in OptionIds(question)
        invariant forall a :: a in counts ==> counts[a] == Selections(records[..k], question.id, a)
      {
        assert records[..k + 1][..k] == records[..k];
        if records[k].question == question.id {
          counts := CountSelected(counts, records[k].selected);
        }
        k := k + 1;
      }
      assert records[..k] == records;
    }

    /** The inner loop: ids that are no options are skipped, repeats count again. */
    static method CountSelected(before: map<AnswerId, nat>, selected: seq<AnswerId>)
      returns (counts: map<AnswerId, nat>)
      ensures counts.Keys == before.Keys
      ensures forall a :: a in counts ==> counts[a] == before[a] + multiset(selected)[a]
    {
      counts := before;
      var j := 0;
      while j < |selected|
        invariant 0 <= j <= |selected|
        invariant counts.Keys == before.Keys
        invariant forall a :: a in counts ==> counts[a] == before[a] + multiset(selected[..j])[a]
      {
        assert selected[..j + 1] == selected[..j] + [selected[j]];
        if selected[j] in counts {
          counts := counts[selected[j] := counts[selected[j]] + 1];
        }
        j := j + 1;
      }
      assert selected[..j] == selected;
    }

    /** `build_host_answer_details`: one update for each row of the question. */
    method BuildHostAnswerDetails(question: QuestionId) returns (details: seq<HostUpdate>)
      ensures forall u :: u in details <==> u in RebuiltFeed(View().db, question)
      ensures forall u :: u in details ==> ComesFromRow(players, records, question, u)
    {
      details := [];
      var k := 0;
      while k < |records|
        invariant 0 <= k <= |records|
        invariant forall u :: u in details <==>
          exists j :: 0 <= j < k && records[j].question == question && Tells(players, records[j], u)
        invariant forall u :: u in details ==> ComesFromRow(players, records, question, u)
      {
        if records[k].question == question {
          var update := UpdateFor(players, records[k]);
          if update.Some? {
            assert Tells(players, records[k], update.value);
            UpdateComesFromRow(players, records, k, update.value);
            details := details + [update.value];
          }
        }
        k := k + 1;
      }
    }
  }
}
