/** The answer distribution shown at the end of a question, and how it relates to grading. */
module GameDistribution {
  import opened Prelude
  import opened Leaderboard
  import opened GameModel
  import opened GameWorld
  import opened GameControl
  import opened GameAnswers
  import opened GameFeed

  /** How often option `a` was selected in the stored rows of question `q`, with repeats. */
  function Selections(records: seq<Record>, q: QuestionId, a: AnswerId): nat {
    if records == [] then 0
    else
      var last := records[|records| - 1];
      Selections(records[..|records| - 1], q, a)
        + if last.question == q then multiset(last.selected)[a] else 0
  }

  function OptionIds(q: QuizQuestion): seq<AnswerId> {
    seq(|q.answers|, i requires 0 <= i < |q.answers| => q.answers[i].id)
  }

  /** How many of a row's selected ids are options at all. */
  function OptionsSelected(selected: seq<AnswerId>, options: seq<AnswerId>): nat {
    if selected == [] then 0
    else
      OptionsSelected(selected[..|selected| - 1], options)
        + if selected[|selected| - 1] in options then 1 else 0
  }

  /** How many stored ids of question `q` are options. */
  function StoredOptions(records: seq<Record>, q: QuestionId, options: seq<AnswerId>): nat {
    if records == [] then 0
    else
      var last := records[|records| - 1];
      StoredOptions(records[..|records| - 1], q, options)
        + if last.question == q then OptionsSelected(last.selected, options) else 0
  }

  function SelectionTotal(records: seq<Record>, q: QuestionId, options: seq<AnswerId>): nat {
    if options == [] then 0
    else SelectionTotal(records, q, options[1..]) + Selections(records, q, options[0])
  }

  function RowTotal(selected: seq<AnswerId>, options: seq<AnswerId>): nat {
    if options == [] then 0
    else RowTotal(selected, options[1..]) + multiset(selected)[options[0]]
  }

  lemma {:induction false} RowTotalAppend(front: seq<AnswerId>, x: AnswerId, options: seq<AnswerId>)
    requires Distinct(options)
    ensures RowTotal(front + [x], options) == RowTotal(front, options) + if x in options then 1 else 0
  {
    if options == [] {
    } else {
      RowTotalAppend(front, x, options[1..]);
      assert multiset(front + [x]) == multiset(front) + multiset{x};
      assert options == [options[0]] + options[1..];
    }
  }

  lemma {:induction false} RowTotalCounts(selected: seq<AnswerId>, options: seq<AnswerId>)
    requires Distinct(options)
    ensures RowTotal(selected, options) == OptionsSelected(selected, options)
  {
    if selected == [] {
      RowTotalEmpty(options);
    } else {
      var front, x := selected[..|selected| - 1], selected[|selected| - 1];
      assert selected == front + [x];
      RowTotalCounts(front, options);
      RowTotalAppend(front, x, options);
    }
  }

  lemma {:induction false} RowTotalEmpty(options: seq<AnswerId>)
    ensures RowTotal([], options) == 0
  {
    if options != [] {
      RowTotalEmpty(options[1..]);
    }
  }

  lemma {:induction false} SelectionTotalAppend(front: seq<Record>, r: Record, q: QuestionId, options: seq<AnswerId>)
    ensures SelectionTotal(front + [r], q, options)
         == SelectionTotal(front, q, options) + if r.question == q then RowTotal(r.selected, options) else 0
  {
    if options != [] {
      SelectionTotalAppend(front, r, q, options[1..]);
      assert (front + [r])[..|front|] == front;
    }
  }

  /** The counts of all options add up to the number of stored ids that are options: ids that are
      not options are not counted, and no stored option is missed or counted twice. */
  lemma {:induction false} CountsSumToStoredOptions(records: seq<Record>, q: QuestionId, options: seq<AnswerId>)
    requires Distinct(options)
    ensures SelectionTotal(records, q, options) == StoredOptions(records, q, options)
  {
    if records == [] {
      NothingSelected(q, options);
    } else {
      var front, last := records[..|records| - 1], records[|records| - 1];
      assert records == front + [last];
      CountsSumToStoredOptions(front, q, options);
      SelectionTotalAppend(front, last, q, options);
      RowTotalCounts(last.selected, options);
    }
  }

  lemma {:induction false} NothingSelected(q: QuestionId, options: seq<AnswerId>)
    ensures SelectionTotal([], q, options) == 0
  {
    if options != [] {
      NothingSelected(q, options[1..]);
    }
  }

  // ---- Agreement with grading ----

  /** A row is marked correct exactly when it selects the correct options and nothing else. */
  ghost predicate GradedWell(cfg: Config, records: seq<Record>) {
    forall i :: 0 <= i < |records| ==>
      var q := FindQuestion(cfg.questions, records[i].question);
      q.Some? && (records[i].correct <==> Elements(records[i].selected) == CorrectIds(q.value))
  }

  lemma SubmitKeepsGrades(cfg: Config, w: World, player: PlayerId,
                          question: Option<QuestionId>, answers: seq<AnswerId>)
    requires ValidConfig(cfg) && Control(cfg, w) && GradedWell(cfg, w.room.db.records)
    ensures GradedWell(cfg, SubmitStep(cfg, w, player, question, answers).room.db.records)
  {
    if SubmitAnswer(cfg, w.room, w.now, player, question, answers).1.Ok? {
      AcceptedSubmission(cfg, w, player, question, answers);
      FoundQuestion(cfg.questions, w.room.cache.order.value[w.room.db.index - 1]);
    }
  }

  lemma OtherStepsKeepRows(cfg: Config, w: World, e: Event)
    requires PositiveLimits(cfg) && !e.Submit?
    ensures Step(cfg, w, e).room.db.records == w.room.db.records
  {
    match e
    case HandlerStep => HandlerKeepsRows(cfg, w);
    case Join(id, nickname, user) => JoinKeepsRows(cfg, w, id, nickname, user);
    case SendUpdate(record) => SendKeepsRows(w, record);
    case _ => OthersLeaveFeed(cfg, w, e);
  }

  lemma JoinKeepsRows(cfg: Config, w: World, id: PlayerId, nickname: string, user: Option<UserId>)
    ensures JoinStep(cfg, w, id, nickname, user).room.db.records == w.room.db.records
  {
  }

  lemma SendKeepsRows(w: World, record: Record)
    ensures SendStep(w, record).room == w.room
  {
  }

  lemma HandlerKeepsRows(cfg: Config, w: World)
    ensures StepHandler(cfg, w).room.db.records == w.room.db.records
    ensures StepHandler(cfg, w).room.db.players == w.room.db.players
  {
    match w.handler
    case Advancing(next, order) => OpenKeepsRows(w, next, order);
    case Opened(current, question) => StartClockLeavesFeed(cfg, w, current, question);
    case Deciding(seen, next, count) => DecideLeavesFeed(cfg, w, seen, next, count);
    case ReportingEnd => BoardsLeaveFeed(w);
    case ReportingFinal => BoardsLeaveFeed(w);
    case Clearing => BoardsLeaveFeed(w);
    case _ => HandlerLeavesFeed(cfg, w);
  }

  lemma OpenKeepsRows(w: World, next: nat, order: seq<QuestionId>)
    ensures OpenQuestion(w, next, order).room.db.records == w.room.db.records
    ensures OpenQuestion(w, next, order).room.db.players == w.room.db.players
  {
  }

  lemma {:induction false} RunKeepsGrades(cfg: Config, w: World, es: seq<Event>)
    requires ValidConfig(cfg) && Control(cfg, w) && GradedWell(cfg, w.room.db.records)
    ensures GradedWell(cfg, Run(cfg, w, es).room.db.records)
    decreases |es|
  {
    if es != [] {
      var e := es[0];
      StepKeepsControl(cfg, w, e);
      if e.Submit? {
        SubmitKeepsGrades(cfg, w, e.player, e.question, e.answers);
      } else {
        OtherStepsKeepRows(cfg, w, e);
      }
      RunKeepsGrades(cfg, Step(cfg, w, e), es[1..]);
    }
  }

  /** How many rows of question `q` are marked correct. */
  function CorrectRows(records: seq<Record>, q: QuestionId): nat {
    if records == [] then 0
    else
      var last := records[|records| - 1];
      CorrectRows(records[..|records| - 1], q) + if last.question == q && last.correct then 1 else 0
  }

  /** The selections of option `a` in rows of question `q` that are marked correct. */
  function SelectionsInCorrect(records: seq<Record>, q: QuestionId, a: AnswerId): nat {
    if records == [] then 0
    else
      var last := records[|records| - 1];
      SelectionsInCorrect(records[..|records| - 1], q, a)
        + if last.question == q && last.correct then multiset(last.selected)[a] else 0
  }

  lemma {:induction false} CorrectRowsSelect(cfg: Config, records: seq<Record>, q: QuizQuestion, a: AnswerId)
    requires GradedWell(cfg, records) && FindQuestion(cfg.questions, q.id) == Some(q)
    ensures a in CorrectIds(q) ==> CorrectRows(records, q.id) <= SelectionsInCorrect(records, q.id, a)
    ensures a !in CorrectIds(q) ==> SelectionsInCorrect(records, q.id, a) == 0
    ensures SelectionsInCorrect(records, q.id, a) <= Selections(records, q.id, a)
  {
    if records != [] {
      var front, last := records[..|records| - 1], records[|records| - 1];
      CorrectRowsSelect(cfg, front, q, a);
      assert records[|records| - 1] == last;
      if last.question == q.id && last.correct {
        assert a in Elements(last.selected) <==> a in last.selected;
        assert a in last.selected <==> a in multiset(last.selected);
      }
    }
  }

  /** Every option marked correct is among the selected ids, and every selected id is that of such an
      option. */
  ghost predicate SelectsExactlyMarked(q: QuizQuestion, selected: seq<AnswerId>) {
    && (forall i :: 0 <= i < |q.answers| && q.answers[i].isCorrect ==> q.answers[i].id in selected)
    && (forall k :: 0 <= k < |selected| ==> MarkedCorrect(q, selected[k]))
  }

  lemma SelectsMarkedIff(q: QuizQuestion, selected: seq<AnswerId>)
    ensures Elements(selected) == CorrectIds(q) <==> SelectsExactlyMarked(q, selected)
  {
    CorrectIdsAreMarked(q);
    if Elements(selected) == CorrectIds(q) {
      forall i | 0 <= i < |q.answers| && q.answers[i].isCorrect ensures q.answers[i].id in selected {
        assert MarkedCorrect(q, q.answers[i].id);
      }
      forall k | 0 <= k < |selected| ensures MarkedCorrect(q, selected[k]) {
        assert selected[k] in Elements(selected);
      }
    }
    if SelectsExactlyMarked(q, selected) {
      forall a | a in selected ensures a in CorrectIds(q) {
        var k :| 0 <= k < |selected| && selected[k] == a;
        assert MarkedCorrect(q, selected[k]);
      }
      forall a | a in CorrectIds(q) ensures a in selected {
        var i :| 0 <= i < |q.answers| && q.answers[i].isCorrect && q.answers[i].id == a;
      }
    }
  }

  /** In every run a stored row is graded correct if and only if its player selected every option
      that the quiz marks correct and nothing else. */
  lemma GradedByMarks(cfg: Config, start: int, es: seq<Event>, i: nat) returns (q: QuizQuestion)
    requires ValidConfig(cfg) && i < |After(cfg, start, es).room.db.records|
    ensures q in cfg.questions && q.id == After(cfg, start, es).room.db.records[i].question
    ensures var r := After(cfg, start, es).room.db.records[i];
      r.correct <==> SelectsExactlyMarked(q, r.selected)
  {
    ControlAtStart(cfg, start);
    RunKeepsGrades(cfg, Begin(start), es);
    var r := After(cfg, start, es).room.db.records[i];
    FoundQuestion(cfg.questions, r.question);
    q := FindQuestion(cfg.questions, r.question).value;
    SelectsMarkedIff(q, r.selected);
  }

  /** In every reachable state and for every question of the quiz: a correct option has been
      selected at least once for each row graded correct, and rows graded correct add nothing to
      any other option, whatever ids were submitted or repeated. */
  lemma DistributionAgreesWithGrading(cfg: Config, start: int, es: seq<Event>, q: QuizQuestion, a: AnswerId)
    requires ValidConfig(cfg) && FindQuestion(cfg.questions, q.id) == Some(q)
    ensures var records := After(cfg, start, es).room.db.records;
      && (MarkedCorrect(q, a) ==> CorrectRows(records, q.id) <= Selections(records, q.id, a))
      && (!MarkedCorrect(q, a) ==> SelectionsInCorrect(records, q.id, a) == 0)
  {
    CorrectIdsAreMarked(q);
    ControlAtStart(cfg, start);
    RunKeepsGrades(cfg, Begin(start), es);
    CorrectRowsSelect(cfg, After(cfg, start, es).room.db.records, q, a);
  }

  predicate HasMarked(q: QuizQuestion) {
    exists j :: 0 <= j < |q.answers| && q.answers[j].isCorrect
  }

  /** Every question has a correct option. */
  ghost predicate Answerable(cfg: Config) {
    forall i :: 0 <= i < |cfg.questions| ==> HasMarked(cfg.questions[i])
  }

  /** In a quiz whose questions all have a correct option, an empty selection is never graded
      correct and never scores. */
  lemma EmptySelectionNeverCorrect(cfg: Config, start: int, es: seq<Event>, i: nat)
    requires ValidConfig(cfg) && Answerable(cfg)
    requires i < |After(cfg, start, es).room.db.records|
    requires After(cfg, start, es).room.db.records[i].selected == []
    ensures var r := After(cfg, start, es).room.db.records[i]; !r.correct && r.points == 0
  {
    var w := After(cfg, start, es);
    ControlAtStart(cfg, start);
    RunKeepsGrades(cfg, Begin(start), es);
    AnswersInRuns(cfg, start, es);
    var r := w.room.db.records[i];
    assert RecordFits(r, w.room.db.players, w.shown);
    FoundQuestion(cfg.questions, r.question);
    var q := FindQuestion(cfg.questions, r.question).value;
    SelectsMarkedIff(q, r.selected);
    var k :| 0 <= k < |cfg.questions| && cfg.questions[k] == q;
    assert HasMarked(cfg.questions[k]);
  }
}
