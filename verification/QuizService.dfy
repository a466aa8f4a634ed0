/** Quizzes as app/quiz/services.py stores, updates and publishes them. Fresh UUIDs are modelled
    by a counter. A request that raises leaves the database as it was, since its transaction is
    never committed. */
module QuizService {
  import opened Prelude
  import opened Text
  import opened QuizSchemas

  type UserId = nat
  type QuizId = nat

  datatype Status = Draft | Published

  datatype Answer = Answer(id: nat, text: string, isCorrect: bool)

  datatype Question = Question(
    id: nat, text: string, position: int, timeLimit: int, allowMultiple: bool,
    answers: seq<Answer>)

  datatype Quiz = Quiz(
    creator: UserId, title: string, description: Option<string>, tags: seq<string>,
    settings: Settings, status: Status, questions: seq<Question>)

  datatype Store = Store(quizzes: map<QuizId, Quiz>, next: nat)

  const EMPTY_STORE := Store(map[], 0)

  // ---- Building question rows ----

  predicate HasCorrect(answers: seq<AnswerDoc>) {
    exists i :: 0 <= i < |answers| && answers[i].isCorrect
  }

  /** How many fresh keys the rows of `docs` use: one per question and one per answer. */
  function KeysUsed(docs: seq<QuestionDoc>): nat {
    if docs == [] then 0
    else KeysUsed(docs[..|docs| - 1]) + 1 + |docs[|docs| - 1].answers|
  }

  function AnswerRows(docs: seq<AnswerDoc>, next: nat): (rows: seq<Answer>)
    ensures |rows| == |docs|
  {
    seq(|docs|, i requires 0 <= i < |docs| => Answer(next + i, docs[i].text, docs[i].isCorrect))
  }

  function QuestionRow(doc: QuestionDoc, position: int, next: nat): Question {
    Question(next, doc.text, position, doc.timeLimit, doc.allowMultiple,
             AnswerRows(doc.answers, next + 1))
  }

  /** The rows for `docs`, with positions from 1; refused if a question has no correct answer. */
  function QuestionRows(docs: seq<QuestionDoc>, next: nat): Result<seq<Question>, Error> {
    if docs == [] then Ok([])
    else
      var front, last := docs[..|docs| - 1], docs[|docs| - 1];
      match QuestionRows(front, next)
      case Err(e) => Err(e)
      case Ok(rows) =>
        if !HasCorrect(last.answers) then Err(InvalidQuizData)
        else Ok(rows + [QuestionRow(last, |docs|, next + KeysUsed(front))])
  }

  // ---- Requests ----

  function Owned(st: Store, id: QuizId, user: UserId): Result<Quiz, Error> {
    if id !in st.quizzes then Err(QuizNotFound)
    else if st.quizzes[id].creator != user then Err(QuizAccessDenied)
    else Ok(st.quizzes[id])
  }

  /** `create_quiz`, which also serves imports; the new quiz takes the key `st.next`. */
  function Create(rules: CaseRules, st: Store, user: UserId, body: Document): Result<Store, Error> {
    match ValidateDocument(rules, body)
    case Err(e) => Err(e)
    case Ok(d) =>
      match QuestionRows(d.questions, st.next + 1)
      case Err(e) => Err(e)
      case Ok(rows) =>
        Ok(Store(
          st.quizzes[st.next := Quiz(user, d.title, d.description, d.tags, d.settings, Draft, rows)],
          st.next + 1 + KeysUsed(d.questions)))
  }

  /** The scalar fields and tags of an update. */
  function Patched(q: Quiz, p: Patch): Quiz {
    q.(title := if p.title.Some? then p.title.value else q.title,
       description := if p.description.Some? then p.description else q.description,
       tags := if p.tags.Some? then p.tags.value else q.tags,
       settings := if p.settings.Some? then p.settings.value else q.settings)
  }

  function Update(rules: CaseRules, st: Store, id: QuizId, user: UserId, body: Patch)
    : Result<Store, Error>
  {
    match (ValidatePatch(rules, body), Owned(st, id, user))
    case (Err(e), _) => Err(e)
    case (_, Err(e)) => Err(e)
    case (Ok(p), Ok(q)) =>
      if q.status == Published then Err(QuizPublished)
      else if p.questions.None? then Ok(st.(quizzes := st.quizzes[id := Patched(q, p)]))
      else
        match QuestionRows(p.questions.value, st.next)
        case Err(e) => Err(e)
        case Ok(rows) =>
          Ok(Store(st.quizzes[id := Patched(q, p).(questions := rows)],
                   st.next + KeysUsed(p.questions.value)))
  }

  function SetStatus(st: Store, id: QuizId, user: UserId, status: Status): Result<Store, Error> {
    match Owned(st, id, user)
    case Err(e) => Err(e)
    case Ok(q) =>
      if status == Published && q.questions == [] then Err(InvalidQuizData)
      else Ok(st.(quizzes := st.quizzes[id := q.(status := status)]))
  }

  function Delete(st: Store, id: QuizId, user: UserId): Result<Store, Error> {
    match Owned(st, id, user)
    case Err(e) => Err(e)
    case Ok(_) => Ok(st.(quizzes := st.quizzes - {id}))
  }

  function AnswerDocOf(a: Answer): AnswerDoc { AnswerDoc(a.text, a.isCorrect) }

  function QuestionDocOf(q: Question): QuestionDoc {
    QuestionDoc(q.text, q.timeLimit, q.allowMultiple, Map(q.answers, AnswerDocOf))
  }

  datatype Request =
    | Creating(user: UserId, document: Document)
    | Updating(user: UserId, id: QuizId, patch: Patch)
    | SettingStatus(user: UserId, id: QuizId, status: Status)
    | Deleting(user: UserId, id: QuizId)

  function Handled(rules: CaseRules, st: Store, r: Request): Result<Store, Error> {
    match r
    case Creating(user, document) => Create(rules, st, user, document)
    case Updating(user, id, patch) => Update(rules, st, id, user, patch)
    case SettingStatus(user, id, status) => SetStatus(st, id, user, status)
    case Deleting(user, id) => Delete(st, id, user)
  }

  function Step(rules: CaseRules, st: Store, r: Request): Store {
    match Handled(rules, st, r)
    case Ok(after) => after
    case Err(_) => st
  }

  /** Every list of requests, in the order in which they are served. */
  function Run(rules: CaseRules, st: Store, rs: seq<Request>): Store {
    if rs == [] then st
    else Step(rules, Run(rules, st, rs[..|rs| - 1]), rs[|rs| - 1])
  }

  // ---- What every stored quiz satisfies ----

  ghost predicate QuestionFits(q: Question, position: int, next: nat) {
    && q.position == position && 5000 <= q.timeLimit <= 300000 && q.id < next
    && (exists i :: 0 <= i < |q.answers| && q.answers[i].isCorrect)
    && (forall i, j :: 0 <= i < j < |q.answers| ==> q.answers[i].id < q.answers[j].id)
  }

  ghost predicate QuestionsFit(questions: seq<Question>, next: nat) {
    && (forall i :: 0 <= i < |questions| ==> QuestionFits(questions[i], i + 1, next))
    && (forall i, j :: 0 <= i < j < |questions| ==> questions[i].id < questions[j].id)
  }

  ghost predicate QuizFits(rules: CaseRules, q: Quiz, next: nat) {
    && TitleFits(rules, q.title) && DescriptionFits(q.description) && TagsFit(rules, q.tags)
    && SettingsFit(q.settings) && QuestionsFit(q.questions, next)
    && (q.status == Published ==> q.questions != [])
  }

  ghost predicate StoreFits(rules: CaseRules, st: Store) {
    forall id :: id in st.quizzes ==> id < st.next && QuizFits(rules, st.quizzes[id], st.next)
  }

  /** The rows hold the documents, at positions 1, 2, ..., under ascending keys of [first, bound). */
  ghost predicate RowsHold(rows: seq<Question>, docs: seq<QuestionDoc>, first: nat, bound: nat) {
    && |rows| == |docs|
    && (forall i :: 0 <= i < |docs| ==> QuestionDocOf(rows[i]) == docs[i] && rows[i].position == i + 1)
    && (forall i :: 0 <= i < |docs| ==> first <= rows[i].id < bound)
    && (forall i, j :: 0 <= i < j < |docs| ==> rows[i].id < rows[j].id)
  }

  lemma RowsHoldOneMore(rows: seq<Question>, docs: seq<QuestionDoc>, first: nat, bound: nat)
    requires rows != [] && docs != []
    requires var row, doc := rows[|rows| - 1], docs[|docs| - 1];
      && RowsHold(rows[..|rows| - 1], docs[..|docs| - 1], first, row.id)
      && first <= row.id < bound && QuestionDocOf(row) == doc && row.position == |docs|
    ensures RowsHold(rows, docs, first, bound)
  {
    var front, docs' := rows[..|rows| - 1], docs[..|docs| - 1];
    forall i | 0 <= i < |docs'|
      ensures rows[i] == front[i] && docs[i] == docs'[i]
    {
    }
  }

  lemma {:induction false} RowsBuiltIff(docs: seq<QuestionDoc>, next: nat)
    ensures QuestionRows(docs, next).Ok? <==>
      forall i :: 0 <= i < |docs| ==> HasCorrect(docs[i].answers)
  {
    if docs != [] {
      var front, last := docs[..|docs| - 1], docs[|docs| - 1];
      RowsBuiltIff(front, next);
      if QuestionRows(docs, next).Ok? {
        forall i | 0 <= i < |docs| ensures HasCorrect(docs[i].answers) {
          assert i < |front| ==> docs[i] == front[i];
        }
      }
    }
  }

  lemma {:induction false} BuiltRowsHold(docs: seq<QuestionDoc>, next: nat)
    requires QuestionRows(docs, next).Ok?
    ensures RowsHold(QuestionRows(docs, next).value, docs, next, next + KeysUsed(docs))
  {
    if docs != [] {
      var front, last := docs[..|docs| - 1], docs[|docs| - 1];
      var rows, row := QuestionRows(docs, next).value, QuestionRow(last, |docs|, next + KeysUsed(front));
      BuiltRowsHold(front, next);
      RowHoldsDocument(last, |docs|, next + KeysUsed(front));
      assert rows[..|rows| - 1] == QuestionRows(front, next).value && rows[|rows| - 1] == row;
      RowsHoldOneMore(rows, docs, next, next + KeysUsed(docs));
    }
  }

  /** Building succeeds exactly when every question has a correct answer; the rows then hold the
      document's content, at positions 1, 2, ..., under fresh distinct keys. */
  lemma RowsHoldDocument(docs: seq<QuestionDoc>, next: nat)
    ensures QuestionRows(docs, next).Ok? <==>
      forall i :: 0 <= i < |docs| ==> HasCorrect(docs[i].answers)
    ensures QuestionRows(docs, next).Ok? ==>
      RowsHold(QuestionRows(docs, next).value, docs, next, next + KeysUsed(docs))
  {
    RowsBuiltIff(docs, next);
    if QuestionRows(docs, next).Ok? {
      BuiltRowsHold(docs, next);
    }
  }

  lemma RowHoldsDocument(doc: QuestionDoc, position: int, next: nat)
    ensures QuestionDocOf(QuestionRow(doc, position, next)) == doc
  {
    assert Map(AnswerRows(doc.answers, next + 1), AnswerDocOf) == doc.answers;
  }

  lemma RowFits(doc: QuestionDoc, position: int, next: nat, bound: nat)
    requires 5000 <= doc.timeLimit <= 300000 && HasCorrect(doc.answers) && next < bound
    ensures QuestionFits(QuestionRow(doc, position, next), position, bound)
  {
    var i :| 0 <= i < |doc.answers| && doc.answers[i].isCorrect;
    assert QuestionRow(doc, position, next).answers[i].isCorrect;
  }

  lemma {:induction false} RowAt(docs: seq<QuestionDoc>, next: nat, i: nat)
    requires QuestionRows(docs, next).Ok? && i < |docs|
    ensures var rows := QuestionRows(docs, next).value;
      |rows| == |docs| && rows[i] == QuestionRow(docs[i], i + 1, rows[i].id)
  {
    var front := docs[..|docs| - 1];
    if i < |front| {
      RowAt(front, next, i);
    } else if front != [] {
      RowAt(front, next, 0);
    }
  }

  lemma BuiltRowsFit(docs: seq<QuestionDoc>, next: nat)
    requires LimitsFit(docs) && QuestionRows(docs, next).Ok?
    ensures QuestionsFit(QuestionRows(docs, next).value, next + KeysUsed(docs))
  {
    RowsHoldDocument(docs, next);
    var rows := QuestionRows(docs, next).value;
    forall i | 0 <= i < |rows| ensures QuestionFits(rows[i], i + 1, next + KeysUsed(docs)) {
      RowAt(docs, next, i);
      RowFits(docs[i], i + 1, rows[i].id, next + KeysUsed(docs));
    }
  }

  lemma CreateKeepsFit(rules: CaseRules, st: Store, user: UserId, body: Document)
    requires Lawful(rules) && StoreFits(rules, st) && Create(rules, st, user, body).Ok?
    ensures StoreFits(rules, Create(rules, st, user, body).value)
  {
    var d := ValidateDocument(rules, body).value;
    TitleNormal(rules, body.title);
    TagsNormal(rules, body.tags);
    BuiltRowsFit(d.questions, st.next + 1);
    var after := Create(rules, st, user, body).value;
    StoringKeepsFit(rules, st, st.next, after.quizzes[st.next], after.next);
  }

  lemma PatchedFits(rules: CaseRules, q: Quiz, body: Patch, next: nat)
    requires Lawful(rules) && QuizFits(rules, q, next) && ValidatePatch(rules, body).Ok?
    ensures QuizFits(rules, Patched(q, ValidatePatch(rules, body).value), next)
  {
    if body.title.Some? {
      TitleNormal(rules, body.title.value);
    }
    if body.tags.Some? {
      TagsNormal(rules, body.tags.value);
    }
  }

  lemma PatchKeepsFit(rules: CaseRules, st: Store, id: QuizId, q: Quiz, body: Patch)
    requires Lawful(rules) && StoreFits(rules, st) && id in st.quizzes && ValidatePatch(rules, body).Ok?
    requires q == Patched(st.quizzes[id], ValidatePatch(rules, body).value)
    ensures StoreFits(rules, Store(st.quizzes[id := q], st.next)) && QuizFits(rules, q, st.next)
  {
    PatchedFits(rules, st.quizzes[id], body, st.next);
    StoringKeepsFit(rules, st, id, q, st.next);
  }

  lemma NewQuestionsKeepFit(rules: CaseRules, st: Store, id: QuizId, q: Quiz, docs: seq<QuestionDoc>)
    requires StoreFits(rules, st) && id in st.quizzes && QuizFits(rules, q, st.next)
    requires q.status == Draft && LimitsFit(docs) && QuestionRows(docs, st.next).Ok?
    ensures var later := st.next + KeysUsed(docs);
      StoreFits(rules, Store(st.quizzes[id := q.(questions := QuestionRows(docs, st.next).value)], later))
  {
    BuiltRowsFit(docs, st.next);
    var rows := QuestionRows(docs, st.next).value;
    StoringKeepsFit(rules, st, id, q.(questions := rows), st.next + KeysUsed(docs));
  }

  lemma UpdateKeepsFit(rules: CaseRules, st: Store, id: QuizId, user: UserId, body: Patch)
    requires Lawful(rules) && StoreFits(rules, st) && Update(rules, st, id, user, body).Ok?
    ensures StoreFits(rules, Update(rules, st, id, user, body).value)
  {
    var p := ValidatePatch(rules, body).value;
    var q := Patched(st.quizzes[id], p);
    PatchKeepsFit(rules, st, id, q, body);
    if p.questions.Some? {
      NewQuestionsKeepFit(rules, st, id, q, p.questions.value);
    }
  }

  lemma LaterStillFits(rules: CaseRules, q: Quiz, next: nat, later: nat)
    requires QuizFits(rules, q, next) && next <= later
    ensures QuizFits(rules, q, later)
  {
    forall i | 0 <= i < |q.questions| ensures QuestionFits(q.questions[i], i + 1, later) {
      assert QuestionFits(q.questions[i], i + 1, next);
    }
  }

  lemma StoringKeepsFit(rules: CaseRules, st: Store, id: QuizId, q: Quiz, later: nat)
    requires StoreFits(rules, st) && id < later && st.next <= later && QuizFits(rules, q, later)
    ensures StoreFits(rules, Store(st.quizzes[id := q], later))
  {
    forall k | k in st.quizzes ensures QuizFits(rules, st.quizzes[k], later) {
      LaterStillFits(rules, st.quizzes[k], st.next, later);
    }
  }

  lemma {:induction false} RunKeepsFit(rules: CaseRules, st: Store, rs: seq<Request>)
    requires Lawful(rules) && StoreFits(rules, st)
    ensures StoreFits(rules, Run(rules, st, rs))
  {
    if rs != [] {
      var before := Run(rules, st, rs[..|rs| - 1]);
      RunKeepsFit(rules, st, rs[..|rs| - 1]);
      match rs[|rs| - 1]
      case Creating(user, document) =>
        if Create(rules, before, user, document).Ok? {
          CreateKeepsFit(rules, before, user, document);
        }
      case Updating(user, id, patch) =>
        if Update(rules, before, id, user, patch).Ok? {
          UpdateKeepsFit(rules, before, id, user, patch);
        }
      case SettingStatus(_, _, _) =>
      case Deleting(_, _) =>
    }
  }

  /** Whatever requests were served, every stored quiz is playable: its title and tags are
      normalised, its questions are numbered 1 to n, each has a correct option and a time limit of
      5 to 300 seconds, and if it is published it has a question. */
  lemma StoredQuizzesFit(rules: CaseRules, rs: seq<Request>, id: QuizId)
    requires Lawful(rules) && id in Run(rules, EMPTY_STORE, rs).quizzes
    ensures var st := Run(rules, EMPTY_STORE, rs); QuizFits(rules, st.quizzes[id], st.next)
  {
    RunKeepsFit(rules, EMPTY_STORE, rs);
  }

  // ---- Who may change what ----

  /** A request by which the creator takes a quiz out of the published state. */
  predicate Withdraws(r: Request, id: QuizId, creator: UserId) {
    || r == SettingStatus(creator, id, Draft)
    || r == Deleting(creator, id)
  }

  predicate From(r: Request, user: UserId) {
    match r
    case Creating(u, _) => u == user
    case Updating(u, _, _) => u == user
    case SettingStatus(u, _, _) => u == user
    case Deleting(u, _) => u == user
  }

  lemma NextGrows(rules: CaseRules, st: Store, r: Request)
    ensures st.next <= Step(rules, st, r).next
  {
  }

  /** While its creator neither unpublishes nor deletes it, a published quiz does not change in
      any way, whatever else is requested by anyone. */
  lemma {:induction false} PublishedIsFrozen(rules: CaseRules, st: Store, rs: seq<Request>, id: QuizId)
    requires id in st.quizzes && id < st.next && st.quizzes[id].status == Published
    requires forall i :: 0 <= i < |rs| ==> !Withdraws(rs[i], id, st.quizzes[id].creator)
    ensures id in Run(rules, st, rs).quizzes && id < Run(rules, st, rs).next
    ensures Run(rules, st, rs).quizzes[id] == st.quizzes[id]
  {
    if rs != [] {
      PublishedIsFrozen(rules, st, rs[..|rs| - 1], id);
      NextGrows(rules, Run(rules, st, rs[..|rs| - 1]), rs[|rs| - 1]);
    }
  }

  /** Nobody but its creator changes, unpublishes or deletes a quiz. */
  lemma {:induction false} OnlyCreatorChanges(rules: CaseRules, st: Store, rs: seq<Request>, id: QuizId)
    requires id in st.quizzes && id < st.next
    requires forall i :: 0 <= i < |rs| ==> !From(rs[i], st.quizzes[id].creator)
    ensures id in Run(rules, st, rs).quizzes && id < Run(rules, st, rs).next
    ensures Run(rules, st, rs).quizzes[id] == st.quizzes[id]
  {
    if rs != [] {
      OnlyCreatorChanges(rules, st, rs[..|rs| - 1], id);
      NextGrows(rules, Run(rules, st, rs[..|rs| - 1]), rs[|rs| - 1]);
    }
  }

  // ---- What accepted requests do ----

  /** A quiz is created exactly when its document is valid and every question has a correct answer. It
      then holds the validated document as a draft of its creator, and nothing else changes. */
  lemma CreatedHoldsDocument(rules: CaseRules, st: Store, user: UserId, body: Document)
    ensures Create(rules, st, user, body).Ok? <==>
      && ValidateDocument(rules, body).Ok?
      && forall i :: 0 <= i < |body.questions| ==> HasCorrect(body.questions[i].answers)
    ensures Create(rules, st, user, body).Ok? ==>
      var d := ValidateDocument(rules, body).value;
      var after := Create(rules, st, user, body).value;
      && st.next in after.quizzes && after.quizzes - {st.next} == st.quizzes - {st.next}
      && var q := after.quizzes[st.next];
      && q.creator == user && q.status == Draft
      && q.title == d.title && q.description == d.description && q.tags == d.tags && q.settings == d.settings
      && Map(q.questions, QuestionDocOf) == body.questions
  {
    if ValidateDocument(rules, body).Ok? {
      DocumentAcceptedIff(rules, body);
      RowsHoldDocument(body.questions, st.next + 1);
      if QuestionRows(body.questions, st.next + 1).Ok? {
        assert Map(QuestionRows(body.questions, st.next + 1).value, QuestionDocOf) == body.questions;
      }
    }
  }

  /** What an update leaves in the quiz: the fields it gives, and the old ones for the rest. */
  ghost predicate HoldsUpdate(old': Quiz, new': Quiz, p: Patch) {
    && new'.creator == old'.creator && new'.status == old'.status
    && new'.title == (if p.title.Some? then p.title.value else old'.title)
    && new'.description == (if p.description.Some? then p.description else old'.description)
    && new'.tags == (if p.tags.Some? then p.tags.value else old'.tags)
    && new'.settings == (if p.settings.Some? then p.settings.value else old'.settings)
    && (if p.questions.Some? then Map(new'.questions, QuestionDocOf) == p.questions.value
        else new'.questions == old'.questions)
  }

  /** Another's quiz is denied, and one that is not there is not found. */
  lemma OwnedIff(st: Store, id: QuizId, user: UserId)
    ensures Owned(st, id, user) == Err(QuizNotFound) <==> id !in st.quizzes
    ensures Owned(st, id, user) == Err(QuizAccessDenied) <==> id in st.quizzes && st.quizzes[id].creator != user
    ensures Owned(st, id, user).Ok? ==> id in st.quizzes && Owned(st, id, user) == Ok(st.quizzes[id])
  {
  }

  /** A valid update is accepted exactly for a draft of the caller whose new questions, if any, all
      have a correct answer; the error otherwise names what is wrong. */
  lemma UpdateAcceptedIff(rules: CaseRules, st: Store, id: QuizId, user: UserId, body: Patch)
    ensures Update(rules, st, id, user, body).Ok? <==>
      && ValidatePatch(rules, body).Ok? && id in st.quizzes
      && st.quizzes[id].creator == user && st.quizzes[id].status == Draft
      && (body.questions.Some? ==>
            forall i :: 0 <= i < |body.questions.value| ==> HasCorrect(body.questions.value[i].answers))
    ensures ValidatePatch(rules, body).Ok? && Owned(st, id, user).Err? ==>
      Update(rules, st, id, user, body) == Err(Owned(st, id, user).error)
    ensures ValidatePatch(rules, body).Ok? && Owned(st, id, user).Ok? && st.quizzes[id].status == Published ==>
      Update(rules, st, id, user, body) == Err(QuizPublished)
  {
    PatchAcceptedIff(rules, body);
    if body.questions.Some? {
      RowsBuiltIff(body.questions.value, st.next);
    }
  }

  /** An accepted update leaves in the quiz what it gives, keeps the rest of it, and changes no other. */
  lemma UpdatedHoldsFields(rules: CaseRules, st: Store, id: QuizId, user: UserId, body: Patch)
    requires Update(rules, st, id, user, body).Ok?
    ensures var after := Update(rules, st, id, user, body).value;
      && id in st.quizzes && id in after.quizzes && after.quizzes - {id} == st.quizzes - {id}
      && HoldsUpdate(st.quizzes[id], after.quizzes[id], ValidatePatch(rules, body).value)
  {
    PatchAcceptedIff(rules, body);
    if body.questions.Some? {
      var docs := body.questions.value;
      BuiltRowsHold(docs, st.next);
      assert Map(QuestionRows(docs, st.next).value, QuestionDocOf) == docs;
    }
  }

  /** The status is set exactly for a quiz of the caller that is not published empty, and only it. */
  lemma StatusSetIff(st: Store, id: QuizId, user: UserId, status: Status)
    ensures SetStatus(st, id, user, status).Ok? <==>
      && id in st.quizzes && st.quizzes[id].creator == user
      && (status == Published ==> st.quizzes[id].questions != [])
    ensures SetStatus(st, id, user, status).Ok? ==>
      SetStatus(st, id, user, status).value.quizzes
        == st.quizzes[id := st.quizzes[id].(status := status)]
  {
  }

  /** A quiz is deleted exactly by its creator, and only it. */
  lemma DeletedIff(st: Store, id: QuizId, user: UserId)
    ensures Delete(st, id, user).Ok? <==> id in st.quizzes && st.quizzes[id].creator == user
    ensures Delete(st, id, user).Ok? ==> Delete(st, id, user).value.quizzes == st.quizzes - {id}
  {
  }
}
