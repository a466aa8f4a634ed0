/** Export and re-import. The tags of a quiz and the answers of a question are read without an
    ORDER BY, so an export may list them in any order, and so may the export of what was imported
    from it. */
module QuizExport {
  import opened Prelude
  import opened Sorting
  import opened Text
  import opened QuizSchemas
  import opened QuizService

  /** The order in which one read of the database returns the tags of a quiz and the answer rows
      of a question. */
  datatype Loader = Loader(tags: seq<string> -> seq<string>, answers: seq<Answer> -> seq<Answer>)

  /** Each row is returned once. */
  ghost predicate Loads(load: Loader) {
    && (forall tags :: multiset(load.tags(tags)) == multiset(tags))
    && (forall rows :: multiset(load.answers(rows)) == multiset(rows))
  }

  function PositionOf(q: Question): int { q.position }

  function LoadedAnswers(load: Loader, rows: seq<Answer>): seq<AnswerDoc> {
    Map(load.answers(rows), AnswerDocOf)
  }

  function LoadedQuestions(load: Loader, questions: seq<Question>): (docs: seq<QuestionDoc>)
    ensures |docs| == |questions|
  {
    seq(|questions|, i requires 0 <= i < |questions| =>
      QuestionDocOf(questions[i]).(answers := LoadedAnswers(load, questions[i].answers)))
  }

  /** `export_quiz`, for one read of the database. */
  function Export(load: Loader, st: Store, id: QuizId, user: UserId): Result<Document, Error> {
    match Owned(st, id, user)
    case Err(e) => Err(e)
    case Ok(q) =>
      Ok(Document(q.title, q.description, load.tags(q.tags), q.settings,
                  LoadedQuestions(load, StableSort(q.questions, PositionOf))))
  }

  // ---- Orders ----

  predicate AllEqual<T(==)>(s: seq<T>) {
    forall i, j :: 0 <= i < j < |s| ==> s[i] == s[j]
  }

  lemma PermutedAllEqual<T>(s: seq<T>, t: seq<T>)
    requires AllEqual(s) && multiset(t) == multiset(s)
    ensures t == s
  {
    assert |t| == |multiset(t)| && |s| == |multiset(s)|;
    forall i | 0 <= i < |t| ensures t[i] == s[i] {
      assert t[i] in multiset(s);
      var k :| 0 <= k < |s| && s[k] == t[i];
    }
  }

  lemma {:induction false} MapPermutes<T, U>(s: seq<T>, t: seq<T>, f: T -> U)
    requires multiset(s) == multiset(t)
    ensures multiset(Map(s, f)) == multiset(Map(t, f))
  {
    if s == [] {
      assert |t| == |multiset(t)|;
    } else {
      assert s[0] in multiset(t);
      var k :| 0 <= k < |t| && t[k] == s[0];
      WithoutFirst(s, t, k);
      MapPermutes(s[1..], t[..k] + t[k + 1..], f);
      MapSplits(s, 0, f);
      MapSplits(t, k, f);
    }
  }

  lemma WithoutFirst<T>(s: seq<T>, t: seq<T>, k: nat)
    requires multiset(s) == multiset(t) && s != [] && k < |t| && t[k] == s[0]
    ensures multiset(s[1..]) == multiset(t[..k] + t[k + 1..])
  {
    assert s == [s[0]] + s[1..];
    assert t == t[..k] + [t[k]] + t[k + 1..];
    assert multiset(s[1..]) == multiset(s) - multiset{s[0]};
    assert multiset(t[..k] + t[k + 1..]) == multiset(t) - multiset{t[k]};
  }

  lemma MapSplits<T, U>(t: seq<T>, k: nat, f: T -> U)
    requires k < |t|
    ensures multiset(Map(t, f)) == multiset{f(t[k])} + multiset(Map(t[..k] + t[k + 1..], f))
    ensures k == 0 ==> t[..k] + t[k + 1..] == t[1..]
  {
    assert Map(t, f) == Map(t[..k], f) + [f(t[k])] + Map(t[k + 1..], f);
    assert Map(t[..k] + t[k + 1..], f) == Map(t[..k], f) + Map(t[k + 1..], f);
  }

  function Rotated<T>(s: seq<T>): seq<T> {
    if s == [] then [] else s[1..] + [s[0]]
  }

  lemma RotatedPermutes<T>(s: seq<T>)
    ensures multiset(Rotated(s)) == multiset(s)
  {
    if s != [] {
      assert s == [s[0]] + s[1..];
    }
  }

  /** Only a constant list is its own rotation. */
  lemma {:induction false} RotatedFixed<T>(s: seq<T>, i: nat)
    requires Rotated(s) == s && i < |s|
    ensures s[i] == s[0]
  {
    if i > 0 {
      RotatedFixed(s, i - 1);
      assert Rotated(s)[i - 1] == s[i];
    }
  }

  /** Rows in the order of their insertion, and rows in an order moved on by one. */
  const INSERTION_ORDER := Loader(tags => tags, rows => rows)
  const MOVED_ORDER := Loader(tags => Rotated(tags), rows => Rotated(rows))

  lemma OrdersLoad()
    ensures Loads(INSERTION_ORDER) && Loads(MOVED_ORDER)
  {
    forall tags ensures multiset(MOVED_ORDER.tags(tags)) == multiset(tags) {
      RotatedPermutes(tags);
    }
    forall rows ensures multiset(MOVED_ORDER.answers(rows)) == multiset(rows) {
      RotatedPermutes(rows);
    }
  }

  // ---- What an export holds ----

  lemma LoadedTagsFit(rules: CaseRules, tags: seq<string>, loaded: seq<string>)
    requires TagsFit(rules, tags) && multiset(loaded) == multiset(tags)
    ensures TagsFit(rules, loaded)
  {
    assert |loaded| == |multiset(loaded)|;
    forall i | 0 <= i < |loaded| ensures TagFits(rules, loaded[i]) {
      assert loaded[i] in multiset(tags);
    }
    forall i, j | 0 <= i < j < |loaded| ensures loaded[i] != loaded[j] {
      if loaded[i] == loaded[j] {
        TwiceInMultiset(loaded, i, j);
        var k :| 0 <= k < |tags| && tags[k] == loaded[i];
        OnceInMultiset(tags, k);
      }
    }
  }

  /** The export of a stored quiz lists its questions by position. */
  lemma ExportOfFit(rules: CaseRules, load: Loader, st: Store, id: QuizId)
    requires id in st.quizzes && QuizFits(rules, st.quizzes[id], st.next)
    ensures var q := st.quizzes[id];
      Export(load, st, id, q.creator) ==
        Ok(Document(q.title, q.description, load.tags(q.tags), q.settings,
                    LoadedQuestions(load, q.questions)))
  {
    SortOfSorted(st.quizzes[id].questions, PositionOf);
  }

  lemma LoadedHasCorrect(load: Loader, rows: seq<Answer>)
    requires Loads(load) && exists a :: 0 <= a < |rows| && rows[a].isCorrect
    ensures HasCorrect(LoadedAnswers(load, rows))
  {
    var a :| 0 <= a < |rows| && rows[a].isCorrect;
    var loaded := load.answers(rows);
    assert rows[a] in multiset(loaded);
    var k :| 0 <= k < |loaded| && loaded[k] == rows[a];
    assert LoadedAnswers(load, rows)[k].isCorrect;
  }

  lemma ExportedQuestionsBuild(load: Loader, questions: seq<Question>, bound: nat, next: nat)
    requires Loads(load) && QuestionsFit(questions, bound)
    ensures var docs := LoadedQuestions(load, questions);
      LimitsFit(docs) && QuestionRows(docs, next).Ok?
  {
    var docs := LoadedQuestions(load, questions);
    forall i | 0 <= i < |docs|
      ensures 5000 <= docs[i].timeLimit <= 300000 && HasCorrect(docs[i].answers)
    {
      assert QuestionFits(questions[i], i + 1, bound);
      LoadedHasCorrect(load, questions[i].answers);
    }
    RowsHoldDocument(docs, next);
  }

  /** The export is a fixed point of validation, and import accepts it. */
  lemma ExportIsImportable(rules: CaseRules, load: Loader, st: Store, id: QuizId, next: nat)
    requires Loads(load) && id in st.quizzes && QuizFits(rules, st.quizzes[id], st.next)
    ensures var doc := Export(load, st, id, st.quizzes[id].creator).value;
      && ValidateDocument(rules, doc) == Ok(doc)
      && QuestionRows(doc.questions, next).Ok?
  {
    var q := st.quizzes[id];
    ExportOfFit(rules, load, st, id);
    TitleFixed(rules, q.title);
    LoadedTagsFit(rules, q.tags, load.tags(q.tags));
    TagsFixed(rules, load.tags(q.tags));
    ExportedQuestionsBuild(load, q.questions, st.next, next);
  }

  /** Importing a fixed point of validation stores its content under the new key. */
  lemma ImportStoresContent(rules: CaseRules, st: Store, importer: UserId, doc: Document)
    requires ValidateDocument(rules, doc) == Ok(doc) && QuestionRows(doc.questions, st.next + 1).Ok?
    ensures Create(rules, st, importer, doc).Ok?
    ensures var after := Create(rules, st, importer, doc).value;
      && st.next in after.quizzes
      && var q := after.quizzes[st.next];
      && (q.creator, q.title, q.description, q.tags, q.settings)
           == (importer, doc.title, doc.description, doc.tags, doc.settings)
      && Map(q.questions, QuestionDocOf) == doc.questions
  {
    RowsHoldDocument(doc.questions, st.next + 1);
    var rows := QuestionRows(doc.questions, st.next + 1).value;
    assert Map(rows, QuestionDocOf) == doc.questions;
  }

  // ---- The round trip ----

  /** Exports a quiz with one read, imports the document, and exports the import with another. */
  function Trip(rules: CaseRules, first: Loader, second: Loader, st: Store, id: QuizId, importer: UserId)
    : (Result<Document, Error>, Result<Document, Error>)
  {
    if id !in st.quizzes then (Err(QuizNotFound), Err(QuizNotFound))
    else
      match Export(first, st, id, st.quizzes[id].creator)
      case Err(e) => (Err(e), Err(e))
      case Ok(doc) =>
        match Create(rules, st, importer, doc)
        case Err(e) => (Ok(doc), Err(e))
        case Ok(after) => (Ok(doc), Export(second, after, st.next, importer))
  }

  predicate SameQuestion(a: QuestionDoc, b: QuestionDoc) {
    a == b.(answers := a.answers) && multiset(a.answers) == multiset(b.answers)
  }

  /** The documents differ at most in the order of tags and of the answers within a question. */
  predicate SameContent(a: Document, b: Document) {
    && a == b.(tags := a.tags, questions := a.questions)
    && multiset(a.tags) == multiset(b.tags)
    && |a.questions| == |b.questions|
    && forall i :: 0 <= i < |a.questions| ==> SameQuestion(a.questions[i], b.questions[i])
  }

  /** There is only one order to list this quiz in: it has at most one tag, and the answers of
      each question read alike. */
  predicate OrderFree(q: Quiz) {
    |q.tags| <= 1 && forall i :: 0 <= i < |q.questions| ==> AllEqual(Map(q.questions[i].answers, AnswerDocOf))
  }

  /** The imported rows of a question hold what was exported; a later read may permute them. */
  lemma ReexportedQuestion(second: Loader, rows: seq<Question>, docs: seq<QuestionDoc>, i: nat)
    requires Loads(second) && Map(rows, QuestionDocOf) == docs && i < |docs|
    ensures Map(rows[i].answers, AnswerDocOf) == docs[i].answers
    ensures SameQuestion(LoadedQuestions(second, rows)[i], docs[i])
  {
    assert Map(rows, QuestionDocOf)[i] == QuestionDocOf(rows[i]);
    MapPermutes(second.answers(rows[i].answers), rows[i].answers, AnswerDocOf);
  }

  lemma Reexported(rules: CaseRules, second: Loader, st: Store, importer: UserId, doc: Document)
    requires Lawful(rules) && StoreFits(rules, st) && Loads(second)
    requires ValidateDocument(rules, doc) == Ok(doc) && QuestionRows(doc.questions, st.next + 1).Ok?
    ensures Create(rules, st, importer, doc).Ok?
    ensures var after := Create(rules, st, importer, doc).value;
      && st.next in after.quizzes
      && Map(after.quizzes[st.next].questions, QuestionDocOf) == doc.questions
      && Export(second, after, st.next, importer)
           == Ok(doc.(tags := second.tags(doc.tags),
                      questions := LoadedQuestions(second, after.quizzes[st.next].questions)))
  {
    ImportStoresContent(rules, st, importer, doc);
    CreateKeepsFit(rules, st, importer, doc);
    ExportOfFit(rules, second, Create(rules, st, importer, doc).value, st.next);
  }

  /** The second read keeps the order of the imported tags and answers, as far as it shows. */
  predicate KeepsOrder(second: Loader, tags: seq<string>, rows: seq<Question>) {
    && second.tags(tags) == tags
    && forall i :: 0 <= i < |rows| ==>
      LoadedAnswers(second, rows[i].answers) == Map(rows[i].answers, AnswerDocOf)
  }

  lemma SameContentOfTrip(second: Loader, doc: Document, rows: seq<Question>)
    requires Loads(second) && Map(rows, QuestionDocOf) == doc.questions
    ensures var again := doc.(tags := second.tags(doc.tags), questions := LoadedQuestions(second, rows));
      SameContent(again, doc) && (again == doc <==> KeepsOrder(second, doc.tags, rows))
  {
    var again := doc.(tags := second.tags(doc.tags), questions := LoadedQuestions(second, rows));
    forall i | 0 <= i < |rows|
      ensures SameQuestion(again.questions[i], doc.questions[i])
      ensures again.questions[i] == doc.questions[i] <==>
        LoadedAnswers(second, rows[i].answers) == Map(rows[i].answers, AnswerDocOf)
    {
      ReexportedQuestion(second, rows, doc.questions, i);
    }
    if KeepsOrder(second, doc.tags, rows) {
      assert again.questions == doc.questions;
    }
  }

  /** For every quiz reachable by any requests, and however the two reads order their rows: its
      creator can export it, anyone can import the export, and exporting the import gives the same
      document up to the order of tags and answers. It is the very same document if and only if
      the second read keeps the order of the imported rows. */
  lemma ExportImportRoundTrip(rules: CaseRules, first: Loader, second: Loader, rs: seq<Request>,
                              id: QuizId, importer: UserId)
    requires Lawful(rules) && Loads(first) && Loads(second) && id in Run(rules, EMPTY_STORE, rs).quizzes
    ensures var st := Run(rules, EMPTY_STORE, rs);
      var (exported, again) := Trip(rules, first, second, st, id, importer);
      && exported.Ok? && again.Ok? && SameContent(again.value, exported.value)
      && var imported := Create(rules, st, importer, exported.value);
      && imported.Ok? && st.next in imported.value.quizzes
      && (again == exported <==>
            KeepsOrder(second, exported.value.tags, imported.value.quizzes[st.next].questions))
  {
    var st := Run(rules, EMPTY_STORE, rs);
    RunKeepsFit(rules, EMPTY_STORE, rs);
    TripFrom(rules, first, second, st, id, importer);
  }

  /** What came of importing `doc` under the key `next` and exporting it again. */
  ghost predicate ComesBack(second: Loader, doc: Document, imported: Result<Store, Error>, next: QuizId,
                            again: Result<Document, Error>)
  {
    && imported.Ok? && next in imported.value.quizzes && again.Ok?
    && var rows := imported.value.quizzes[next].questions;
    && Map(rows, QuestionDocOf) == doc.questions
    && SameContent(again.value, doc)
    && (again == Ok(doc) <==> KeepsOrder(second, doc.tags, rows))
  }

  lemma ImportComesBack(rules: CaseRules, second: Loader, st: Store, importer: UserId, doc: Document)
    requires Lawful(rules) && StoreFits(rules, st) && Loads(second)
    requires ValidateDocument(rules, doc) == Ok(doc) && QuestionRows(doc.questions, st.next + 1).Ok?
    ensures var imported := Create(rules, st, importer, doc);
      && imported.Ok?
      && ComesBack(second, doc, imported, st.next, Export(second, imported.value, st.next, importer))
  {
    Reexported(rules, second, st, importer, doc);
    SameContentOfTrip(second, doc, Create(rules, st, importer, doc).value.quizzes[st.next].questions);
  }

  lemma TripFrom(rules: CaseRules, first: Loader, second: Loader, st: Store, id: QuizId, importer: UserId)
    requires Lawful(rules) && Loads(first) && Loads(second) && StoreFits(rules, st) && id in st.quizzes
    ensures var (exported, again) := Trip(rules, first, second, st, id, importer);
      && exported == Export(first, st, id, st.quizzes[id].creator) && exported.Ok?
      && ComesBack(second, exported.value, Create(rules, st, importer, exported.value), st.next, again)
  {
    ExportIsImportable(rules, first, st, id, st.next + 1);
    var doc := Export(first, st, id, st.quizzes[id].creator).value;
    ImportComesBack(rules, second, st, importer, doc);
    TripIs(rules, first, second, st, id, importer, doc);
  }

  lemma TripIs(rules: CaseRules, first: Loader, second: Loader, st: Store, id: QuizId,
               importer: UserId, doc: Document)
    requires id in st.quizzes && Export(first, st, id, st.quizzes[id].creator) == Ok(doc)
    requires Create(rules, st, importer, doc).Ok?
    ensures Trip(rules, first, second, st, id, importer)
      == (Ok(doc), Export(second, Create(rules, st, importer, doc).value, st.next, importer))
  {
  }

  // ---- When every order gives the same document ----

  ghost predicate TripUnchanged(rules: CaseRules, first: Loader, second: Loader, st: Store,
                                id: QuizId, importer: UserId)
  {
    var (exported, again) := Trip(rules, first, second, st, id, importer);
    again == exported
  }

  lemma OrderFreeTrips(rules: CaseRules, first: Loader, second: Loader, st: Store, id: QuizId, importer: UserId)
    requires Lawful(rules) && Loads(first) && Loads(second) && StoreFits(rules, st) && id in st.quizzes
    requires OrderFree(st.quizzes[id])
    ensures TripUnchanged(rules, first, second, st, id, importer)
  {
    var q := st.quizzes[id];
    TripFrom(rules, first, second, st, id, importer);
    ExportOfFit(rules, first, st, id);
    var doc := Export(first, st, id, q.creator).value;
    var rows := Create(rules, st, importer, doc).value.quizzes[st.next].questions;
    OneTagLoads(first, q.tags);
    OneTagLoads(second, q.tags);
    forall i | 0 <= i < |rows|
      ensures LoadedAnswers(second, rows[i].answers) == Map(rows[i].answers, AnswerDocOf)
    {
      AlikeAnswersLoad(first, q.questions[i].answers);
      ReexportedQuestion(second, rows, doc.questions, i);
      AlikeAnswersLoad(second, rows[i].answers);
    }
  }

  lemma OneTagLoads(load: Loader, tags: seq<string>)
    requires Loads(load) && |tags| <= 1
    ensures load.tags(tags) == tags
  {
    PermutedAllEqual(tags, load.tags(tags));
  }

  lemma AlikeAnswersLoad(load: Loader, rows: seq<Answer>)
    requires Loads(load) && AllEqual(Map(rows, AnswerDocOf))
    ensures LoadedAnswers(load, rows) == Map(rows, AnswerDocOf)
  {
    MapPermutes(load.answers(rows), rows, AnswerDocOf);
    PermutedAllEqual(Map(rows, AnswerDocOf), LoadedAnswers(load, rows));
  }

  lemma MovedTags(tags: seq<string>)
    requires Distinct(tags) && |tags| >= 2
    ensures Rotated(tags) != tags
  {
    if Rotated(tags) == tags {
      RotatedFixed(tags, 1);
    }
  }

  lemma MovedAnswers(rows: seq<Answer>)
    requires !AllEqual(Map(rows, AnswerDocOf))
    ensures LoadedAnswers(MOVED_ORDER, rows) != Map(rows, AnswerDocOf)
  {
    var docs := Map(rows, AnswerDocOf);
    assert LoadedAnswers(MOVED_ORDER, rows) == Rotated(docs);
    if Rotated(docs) == docs {
      var i, j :| 0 <= i < j < |docs| && docs[i] != docs[j];
      RotatedFixed(docs, i);
      RotatedFixed(docs, j);
    }
  }

  /** A quiz with two tags, or with two answers of one question that differ, comes back changed if
      the import is read in an order moved on by one. */
  lemma MovedTripChanges(rules: CaseRules, st: Store, id: QuizId, importer: UserId)
    requires Lawful(rules) && StoreFits(rules, st) && id in st.quizzes && !OrderFree(st.quizzes[id])
    ensures !TripUnchanged(rules, INSERTION_ORDER, MOVED_ORDER, st, id, importer)
  {
    var q := st.quizzes[id];
    OrdersLoad();
    TripFrom(rules, INSERTION_ORDER, MOVED_ORDER, st, id, importer);
    ExportOfFit(rules, INSERTION_ORDER, st, id);
    var doc := Export(INSERTION_ORDER, st, id, q.creator).value;
    var rows := Create(rules, st, importer, doc).value.quizzes[st.next].questions;
    if |q.tags| >= 2 {
      MovedTags(q.tags);
    } else {
      var i :| 0 <= i < |q.questions| && !AllEqual(Map(q.questions[i].answers, AnswerDocOf));
      ReexportedQuestion(MOVED_ORDER, rows, doc.questions, i);
      assert doc.questions[i].answers == Map(q.questions[i].answers, AnswerDocOf);
      MovedAnswers(rows[i].answers);
    }
  }

  /** The document survives the round trip under every order of the two reads if and only if the
      quiz has at most one tag and the answers of each of its questions read alike. */
  lemma RoundTripExactWhenOrderFree(rules: CaseRules, rs: seq<Request>, id: QuizId, importer: UserId)
    requires Lawful(rules) && id in Run(rules, EMPTY_STORE, rs).quizzes
    ensures var st := Run(rules, EMPTY_STORE, rs);
      (forall first: Loader, second: Loader :: Loads(first) && Loads(second) ==>
         TripUnchanged(rules, first, second, st, id, importer))
      <==> OrderFree(st.quizzes[id])
  {
    var st := Run(rules, EMPTY_STORE, rs);
    RunKeepsFit(rules, EMPTY_STORE, rs);
    if OrderFree(st.quizzes[id]) {
      forall first: Loader, second: Loader | Loads(first) && Loads(second)
        ensures TripUnchanged(rules, first, second, st, id, importer)
      {
        OrderFreeTrips(rules, first, second, st, id, importer);
      }
    } else {
      OrdersLoad();
      MovedTripChanges(rules, st, id, importer);
    }
  }

  // ---- Quizzes that come back changed ----

  const SAMPLE_SETTINGS := Settings(30000, Private, 5)

  const TWO_TAGS := Document("quiz", None, ["a", "b"], SAMPLE_SETTINGS, [])

  const TWO_ANSWERS := Document("quiz", None, [], SAMPLE_SETTINGS,
    [QuestionDoc("?", 30000, false, [AnswerDoc("yes", true), AnswerDoc("no", false)])])

  lemma PlainRulesLawful()
    ensures Lawful(PLAIN_RULES)
  {
  }

  lemma TwoTagsCreated(user: UserId)
    ensures Create(PLAIN_RULES, EMPTY_STORE, user, TWO_TAGS).Ok?
    ensures Create(PLAIN_RULES, EMPTY_STORE, user, TWO_TAGS).value.quizzes[0].tags == ["a", "b"]
  {
    TwoTagsValid();
    assert QuestionRows([], 1) == Ok([]);
  }

  lemma TwoTagsValid()
    ensures ValidateDocument(PLAIN_RULES, TWO_TAGS) == Ok(TWO_TAGS)
  {
    TitleFixed(PLAIN_RULES, "quiz");
    TwoTagsFit();
    TagsFixed(PLAIN_RULES, ["a", "b"]);
  }

  lemma TwoTagsFit()
    ensures TagsFit(PLAIN_RULES, ["a", "b"])
  {
    var tags := ["a", "b"];
    assert tags[0] == "a" && tags[1] == "b" && "a"[0] != "b"[0];
    forall i | 0 <= i < |tags| ensures TagFits(PLAIN_RULES, tags[i]) {
    }
  }

  lemma TwoAnswersCreated(user: UserId)
    ensures Create(PLAIN_RULES, EMPTY_STORE, user, TWO_ANSWERS).Ok?
    ensures var q := Create(PLAIN_RULES, EMPTY_STORE, user, TWO_ANSWERS).value.quizzes[0];
      |q.questions| == 1 && Map(q.questions[0].answers, AnswerDocOf) == TWO_ANSWERS.questions[0].answers
  {
    TitleFixed(PLAIN_RULES, "quiz");
    assert HasCorrect(TWO_ANSWERS.questions[0].answers) by {
      assert TWO_ANSWERS.questions[0].answers[0].isCorrect;
    }
    RowsHoldDocument(TWO_ANSWERS.questions, 1);
    var rows := QuestionRows(TWO_ANSWERS.questions, 1).value;
    assert QuestionDocOf(rows[0]) == TWO_ANSWERS.questions[0];
  }

  lemma RunOne(rules: CaseRules, r: Request)
    ensures Run(rules, EMPTY_STORE, [r]) == Step(rules, EMPTY_STORE, r)
  {
    assert [r][..0] == [];
  }

  /** One request creates a quiz with two tags that need not survive the round trip. */
  lemma TwoTagsComeBackChanged(user: UserId)
    ensures var st := Run(PLAIN_RULES, EMPTY_STORE, [Creating(user, TWO_TAGS)]);
      0 in st.quizzes && !TripUnchanged(PLAIN_RULES, INSERTION_ORDER, MOVED_ORDER, st, 0, user)
  {
    PlainRulesLawful();
    TwoTagsCreated(user);
    RunOne(PLAIN_RULES, Creating(user, TWO_TAGS));
    RunKeepsFit(PLAIN_RULES, EMPTY_STORE, [Creating(user, TWO_TAGS)]);
    MovedTripChanges(PLAIN_RULES, Run(PLAIN_RULES, EMPTY_STORE, [Creating(user, TWO_TAGS)]), 0, user);
  }

  /** One request creates an untagged quiz whose two answers need not either. */
  lemma TwoAnswersComeBackChanged(user: UserId)
    ensures var st := Run(PLAIN_RULES, EMPTY_STORE, [Creating(user, TWO_ANSWERS)]);
      0 in st.quizzes && !TripUnchanged(PLAIN_RULES, INSERTION_ORDER, MOVED_ORDER, st, 0, user)
  {
    PlainRulesLawful();
    TwoAnswersCreated(user);
    var st := Run(PLAIN_RULES, EMPTY_STORE, [Creating(user, TWO_ANSWERS)]);
    RunOne(PLAIN_RULES, Creating(user, TWO_ANSWERS));
    RunKeepsFit(PLAIN_RULES, EMPTY_STORE, [Creating(user, TWO_ANSWERS)]);
    var docs := Map(st.quizzes[0].questions[0].answers, AnswerDocOf);
    assert docs[0] != docs[1];
    assert !AllEqual(docs);
    MovedTripChanges(PLAIN_RULES, st, 0, user);
  }

  // ---- The export is the quiz ----

  /** An export of a stored quiz is for its creator only. It gives the quiz's title, description and
      settings, its tags in some order, and its questions by position, each with its text, limit, mode
      and answers in some order. */
  lemma ExportHoldsQuiz(rules: CaseRules, load: Loader, rs: seq<Request>, id: QuizId, user: UserId)
    requires Lawful(rules) && Loads(load) && id in Run(rules, EMPTY_STORE, rs).quizzes
    ensures var st := Run(rules, EMPTY_STORE, rs);
      var q := st.quizzes[id];
      var exported := Export(load, st, id, user);
      && (exported.Ok? <==> user == q.creator)
      && (exported.Ok? ==>
            && exported.value.title == q.title && exported.value.description == q.description
            && exported.value.settings == q.settings && multiset(exported.value.tags) == multiset(q.tags)
            && |exported.value.questions| == |q.questions|
            && forall i :: 0 <= i < |q.questions| ==>
              SameQuestion(exported.value.questions[i], QuestionDocOf(q.questions[i])))
  {
    var st := Run(rules, EMPTY_STORE, rs);
    var q := st.quizzes[id];
    RunKeepsFit(rules, EMPTY_STORE, rs);
    ExportOfFit(rules, load, st, id);
    forall i | 0 <= i < |q.questions|
      ensures SameQuestion(LoadedQuestions(load, q.questions)[i], QuestionDocOf(q.questions[i]))
    {
      MapPermutes(load.answers(q.questions[i].answers), q.questions[i].answers, AnswerDocOf);
    }
  }
}
