/** `QuizService`'s requests as methods on the quiz tables. A method works on its own copy of a quiz
    and commits by storing it; raising before the commit leaves the tables alone. */
module QuizDatabase {
  import opened Prelude
  import opened Text
  import opened QuizSchemas
  import opened QuizService

  /** One question without a correct answer fails the whole list, wherever it stands. */
  lemma {:induction false} RowsErrPersists(docs: seq<QuestionDoc>, next: nat, i: nat)
    requires i <= |docs| && QuestionRows(docs[..i], next) == Err(InvalidQuizData)
    ensures QuestionRows(docs, next) == Err(InvalidQuizData)
    decreases |docs| - i
  {
    if i == |docs| {
      assert docs[..i] == docs;
    } else {
      assert docs[..i + 1][..i] == docs[..i];
      RowsErrPersists(docs, next, i + 1);
    }
  }

  lemma {:induction false} RowsErrIsInvalid(docs: seq<QuestionDoc>, next: nat)
    ensures QuestionRows(docs, next).Err? ==> QuestionRows(docs, next) == Err(InvalidQuizData)
  {
    if docs != [] {
      RowsErrIsInvalid(docs[..|docs| - 1], next);
    }
  }

  /** A draft never refuses an update for being published. */
  lemma DraftTakesUpdates(rules: CaseRules, st: Store, id: QuizId, user: UserId, body: Patch)
    requires id in st.quizzes && st.quizzes[id].status == Draft
    ensures Update(rules, st, id, user, body) != Err(QuizPublished)
  {
    if ValidatePatch(rules, body).Ok? && ValidatePatch(rules, body).value.questions.Some? {
      RowsErrIsInvalid(ValidatePatch(rules, body).value.questions.value, st.next);
    }
  }

  class Quizzes {
    const rules: CaseRules
    var quizzes: map<QuizId, Quiz>
    var next: nat

    function View(): Store
      reads this
    {
      Store(quizzes, next)
    }

    constructor (rules: CaseRules)
      ensures View() == EMPTY_STORE && this.rules == rules
    {
      this.rules := rules;
      quizzes, next := map[], 0;
    }

    /** The answer rows of one question, and whether one of them is correct. */
    static method BuildAnswers(docs: seq<AnswerDoc>, first: nat)
      returns (rows: seq<Answer>, correct: seq<Answer>)
      ensures rows == AnswerRows(docs, first)
      ensures correct != [] <==> HasCorrect(docs)
    {
      rows, correct := [], [];
      var i := 0;
      while i < |docs|
        invariant 0 <= i <= |docs| && rows == AnswerRows(docs, first)[..i]
        invariant correct != [] <==> HasCorrect(docs[..i])
      {
        assert docs[..i + 1][..i] == docs[..i];
        ghost var before, after := docs[..i], docs[..i + 1];
        assert HasCorrect(before) ==> HasCorrect(after) by {
          if HasCorrect(before) {
            var k :| 0 <= k < |before| && before[k].isCorrect;
            assert after[k].isCorrect;
          }
        }
        assert after[i] == docs[i];
        var answer := Answer(first + i, docs[i].text, docs[i].isCorrect);
        rows := rows + [answer];
        if docs[i].isCorrect {
          correct := correct + [answer];
        }
        i := i + 1;
      }
      assert docs[..i] == docs;
    }

    /** The loop over a request's questions, shared by `create_quiz` and `update_quiz`. */
    static method BuildQuestions(docs: seq<QuestionDoc>, first: nat)
      returns (r: Result<seq<Question>, Error>, used: nat)
      ensures r == QuestionRows(docs, first)
      ensures r.Ok? ==> used == KeysUsed(docs)
    {
      var rows: seq<Question> := [];
      used := 0;
      var i := 0;
      while i < |docs|
        invariant 0 <= i <= |docs|
        invariant QuestionRows(docs[..i], first) == Ok(rows) && used == KeysUsed(docs[..i])
      {
        assert docs[..i + 1][..i] == docs[..i];
        var answers, correct := BuildAnswers(docs[i].answers, first + used + 1);
        if correct == [] {
          RowsErrPersists(docs, first, i + 1);
          return Err(InvalidQuizData), used;
        }
        rows := rows + [Question(first + used, docs[i].text, i + 1, docs[i].timeLimit,
                                 docs[i].allowMultiple, answers)];
        used := used + 1 + |docs[i].answers|;
        i := i + 1;
      }
      assert docs[..i] == docs;
      r := Ok(rows);
    }

    /** `create_quiz` on a parsed request body. */
    method CreateQuiz(user: UserId, body: Document) returns (r: Result<QuizId, Error>)
      modifies this
      ensures match Create(rules, old(View()), user, body)
        case Err(e) => r == Err(e) && View() == old(View())
        case Ok(after) => r == Ok(old(next)) && View() == after
    {
      var title := ValidateTitle(rules, body.title);
      var tags := CheckTags(rules, body.tags);
      if title.Err? || tags.Err? || !DescriptionFits(body.description)
         || !SettingsFit(body.settings) || !LimitsFit(body.questions) {
        return Err(InvalidQuizData);
      }
      var questions, used := BuildQuestions(body.questions, next + 1);
      if questions.Err? {
        return Err(questions.error);
      }
      quizzes := quizzes[next := Quiz(user, title.value, body.description, tags.value,
                                      body.settings, Draft, questions.value)];
      r := Ok(next);
      next := next + 1 + used;
    }

    /** `update_quiz`: assigns the fields present in the request, one after the other. */
    method UpdateQuiz(id: QuizId, user: UserId, body: Patch) returns (error: Option<Error>)
      modifies this
      ensures match Update(rules, old(View()), id, user, body)
        case Err(e) => error == Some(e) && View() == old(View())
        case Ok(after) => error == None && View() == after
    {
      var valid := ValidatePatch(rules, body);
      if valid.Err? {
        return Some(valid.error);
      }
      var data := valid.value;
      if id !in quizzes {
        return Some(QuizNotFound);
      }
      var quiz := quizzes[id];
      if quiz.creator != user {
        return Some(QuizAccessDenied);
      }
      if quiz.status == Published {
        return Some(QuizPublished);
      }
      if data.title.Some? {
        quiz := quiz.(title := data.title.value);
      }
      if data.description.Some? {
        quiz := quiz.(description := data.description);
      }
      if data.tags.Some? {
        quiz := quiz.(tags := data.tags.value);
      }
      if data.settings.Some? {
        quiz := quiz.(settings := data.settings.value);
      }
      assert quiz == Patched(quizzes[id], data);
      var taken := 0;
      if data.questions.Some? {
        var questions, used := BuildQuestions(data.questions.value, next);
        if questions.Err? {
          return Some(questions.error);
        }
        quiz := quiz.(questions := questions.value);
        taken := used;
      }
      quizzes := quizzes[id := quiz];
      next := next + taken;
      error := None;
    }

    /** `set_quiz_status`: what is published has a question and refuses every valid update, and a
        draft refuses none for being published. */
    method SetQuizStatus(id: QuizId, user: UserId, status: Status) returns (error: Option<Error>)
      modifies this
      ensures error.None? && status == Published ==>
        && id in quizzes && quizzes[id].questions != []
        && forall body :: ValidatePatch(rules, body).Ok? ==>
          Update(rules, View(), id, user, body) == Err(QuizPublished)
      ensures error.None? && status == Draft ==>
        forall body, u :: Update(rules, View(), id, u, body) != Err(QuizPublished)
      ensures match SetStatus(old(View()), id, user, status)
        case Err(e) => error == Some(e) && View() == old(View())
        case Ok(after) => error == None && View() == after
    {
      if id !in quizzes {
        return Some(QuizNotFound);
      }
      var quiz := quizzes[id];
      if quiz.creator != user {
        return Some(QuizAccessDenied);
      }
      if status == Published && quiz.questions == [] {
        return Some(InvalidQuizData);
      }
      quiz := quiz.(status := status);
      quizzes := quizzes[id := quiz];
      error := None;
      if status == Draft {
        forall body, u ensures Update(rules, View(), id, u, body) != Err(QuizPublished) {
          DraftTakesUpdates(rules, View(), id, u, body);
        }
      }
    }

    /** `delete_quiz`: nobody finds the quiz any more, and every other quiz is found as before. */
    method DeleteQuiz(id: QuizId, user: UserId) returns (error: Option<Error>)
      modifies this
      ensures error.None? ==> forall u :: Owned(View(), id, u) == Err(QuizNotFound)
      ensures forall other, u :: other != id ==> Owned(View(), other, u) == Owned(old(View()), other, u)
      ensures match Delete(old(View()), id, user)
        case Err(e) => error == Some(e) && View() == old(View())
        case Ok(after) => error == None && View() == after
    {
      if id !in quizzes {
        return Some(QuizNotFound);
      }
      if quizzes[id].creator != user {
        return Some(QuizAccessDenied);
      }
      quizzes := quizzes - {id};
      error := None;
    }
  }
}
