/** The validators of app/quiz/schemas.py: what a quiz document may hold, and how titles and tags
    are normalised on the way in. */
module QuizSchemas {
  import opened Prelude
  import opened Text

  const MAX_TITLE_LENGTH := 50
  const MAX_DESCRIPTION_LENGTH := 300
  const MAX_TAG_LENGTH := 30
  const MAX_TAGS_PER_QUIZ := 5
  const MAX_PARTICIPANTS_LIMIT := 30

  datatype Error =
    | InvalidQuizData | QuizNotFound | QuizAccessDenied | QuizPublished | QuizNotPlayable

  datatype Visibility = Private | Public

  datatype Settings = Settings(defaultTime: int, visibility: Visibility, maxParticipants: int)

  datatype AnswerDoc = AnswerDoc(text: string, isCorrect: bool)

  datatype QuestionDoc = QuestionDoc(
    text: string, timeLimit: int, allowMultiple: bool, answers: seq<AnswerDoc>)

  /** The body of a create or import request, and what an export produces. */
  datatype Document = Document(
    title: string, description: Option<string>, tags: seq<string>,
    settings: Settings, questions: seq<QuestionDoc>)

  /** The body of an update: absent fields are left alone. */
  datatype Patch = Patch(
    title: Option<string>, description: Option<string>, tags: Option<seq<string>>,
    settings: Option<Settings>, questions: Option<seq<QuestionDoc>>)

  // ---- Validators ----

  function ValidateTitle(rules: CaseRules, v: string): Result<string, Error> {
    if Strip(rules, v) == [] then Err(InvalidQuizData)
    else if |v| > MAX_TITLE_LENGTH then Err(InvalidQuizData)
    else Ok(Strip(rules, v))
  }

  predicate DescriptionFits(v: Option<string>) {
    v.Some? ==> |v.value| <= MAX_DESCRIPTION_LENGTH
  }

  function NormalTag(rules: CaseRules, raw: string): string {
    Lower(rules, Strip(rules, raw))
  }

  /** The normalised, non-empty tags in the order given; refused if one is too long. */
  function NormalTags(rules: CaseRules, raw: seq<string>): Result<seq<string>, Error> {
    if raw == [] then Ok([])
    else
      match NormalTags(rules, raw[..|raw| - 1])
      case Err(e) => Err(e)
      case Ok(tags) =>
        var tag := NormalTag(rules, raw[|raw| - 1]);
        if tag == [] then Ok(tags)
        else if |tag| > MAX_TAG_LENGTH then Err(InvalidQuizData)
        else Ok(tags + [tag])
  }

  /** `list(dict.fromkeys(s))`: the first of each, in order. */
  function Unique(s: seq<string>): seq<string> {
    if s == [] then []
    else
      var front := Unique(s[..|s| - 1]);
      if s[|s| - 1] in front then front else front + [s[|s| - 1]]
  }

  function ValidateTags(rules: CaseRules, raw: seq<string>): Result<seq<string>, Error> {
    match NormalTags(rules, raw)
    case Err(e) => Err(e)
    case Ok(tags) =>
      if |Unique(tags)| > MAX_TAGS_PER_QUIZ then Err(InvalidQuizData) else Ok(Unique(tags))
  }

  predicate SettingsFit(s: Settings) {
    1 <= s.maxParticipants <= MAX_PARTICIPANTS_LIMIT && s.visibility == Private
  }

  predicate LimitsFit(questions: seq<QuestionDoc>) {
    forall i :: 0 <= i < |questions| ==> 5000 <= questions[i].timeLimit <= 300000
  }

  /** The whole body of a create or import request. */
  function ValidateDocument(rules: CaseRules, d: Document): Result<Document, Error> {
    match (ValidateTitle(rules, d.title), ValidateTags(rules, d.tags))
    case (Ok(title), Ok(tags)) =>
      if DescriptionFits(d.description) && SettingsFit(d.settings) && LimitsFit(d.questions)
      then Ok(d.(title := title, tags := tags)) else Err(InvalidQuizData)
    case _ => Err(InvalidQuizData)
  }

  function ValidatePatch(rules: CaseRules, p: Patch): Result<Patch, Error> {
    if p.title.Some? && ValidateTitle(rules, p.title.value).Err? then Err(InvalidQuizData)
    else if p.tags.Some? && ValidateTags(rules, p.tags.value).Err? then Err(InvalidQuizData)
    else if !DescriptionFits(p.description) || (p.settings.Some? && !SettingsFit(p.settings.value))
            || (p.questions.Some? && !LimitsFit(p.questions.value)) then Err(InvalidQuizData)
    else
      Ok(p.(title := if p.title.None? then None else Some(ValidateTitle(rules, p.title.value).value),
            tags := if p.tags.None? then None else Some(ValidateTags(rules, p.tags.value).value)))
  }

  // ---- What normalisation guarantees ----

  predicate TitleFits(rules: CaseRules, t: string) {
    t != [] && |t| <= MAX_TITLE_LENGTH && !rules.isSpace(t[0]) && !rules.isSpace(t[|t| - 1])
  }

  ghost predicate TagFits(rules: CaseRules, t: string) {
    t != [] && |t| <= MAX_TAG_LENGTH && Stripped(rules, t) && LowerCase(rules, t)
  }

  ghost predicate TagsFit(rules: CaseRules, tags: seq<string>) {
    && |tags| <= MAX_TAGS_PER_QUIZ && Distinct(tags)
    && forall i :: 0 <= i < |tags| ==> TagFits(rules, tags[i])
  }

  lemma TitleNormal(rules: CaseRules, v: string)
    requires ValidateTitle(rules, v).Ok?
    ensures TitleFits(rules, ValidateTitle(rules, v).value)
  {
    var _, _ := StripKeepsMiddle(rules, v);
  }

  /** A valid title passes unchanged. */
  lemma TitleFixed(rules: CaseRules, t: string)
    requires TitleFits(rules, t)
    ensures ValidateTitle(rules, t) == Ok(t)
  {
    StripFixes(rules, t);
  }

  lemma NormalTagFits(rules: CaseRules, raw: string)
    requires Lawful(rules)
    ensures Stripped(rules, NormalTag(rules, raw)) && LowerCase(rules, NormalTag(rules, raw))
  {
    var _, _ := StripKeepsMiddle(rules, raw);
    LowerKeepsStripped(rules, Strip(rules, raw));
    LowerIsLowerCase(rules, Strip(rules, raw));
  }

  lemma NormalTagFixed(rules: CaseRules, t: string)
    requires Stripped(rules, t) && LowerCase(rules, t)
    ensures NormalTag(rules, t) == t
  {
    StripFixes(rules, t);
    LowerFixes(rules, t);
  }

  lemma {:induction false} NormalTagsFit(rules: CaseRules, raw: seq<string>)
    requires Lawful(rules) && NormalTags(rules, raw).Ok?
    ensures forall t :: t in NormalTags(rules, raw).value ==> TagFits(rules, t)
  {
    if raw != [] {
      NormalTagsFit(rules, raw[..|raw| - 1]);
      NormalTagFits(rules, raw[|raw| - 1]);
    }
  }

  lemma {:induction false} UniqueDistinct(s: seq<string>)
    ensures Distinct(Unique(s))
    ensures forall t :: t in Unique(s) <==> t in s
  {
    if s != [] {
      UniqueDistinct(s[..|s| - 1]);
      assert s == s[..|s| - 1] + [s[|s| - 1]];
    }
  }

  /** Where `t` first occurs in `s`. */
  function FirstAt(s: seq<string>, t: string): nat {
    if s == [] || s[0] == t then 0 else 1 + FirstAt(s[1..], t)
  }

  lemma {:induction false} FirstAtSnoc(s: seq<string>, x: string, t: string)
    ensures t in s ==> FirstAt(s + [x], t) == FirstAt(s, t) < |s|
    ensures t !in s ==> FirstAt(s, t) == |s| && (t == x ==> FirstAt(s + [x], t) == |s|)
  {
    if s == [] {
      assert s + [x] == [x];
    } else {
      assert (s + [x])[1..] == s[1..] + [x];
      FirstAtSnoc(s[1..], x, t);
      assert s == [s[0]] + s[1..];
    }
  }

  /** De-duplication keeps the order in which the author first entered each tag. */
  lemma {:induction false} UniqueKeepsOrder(s: seq<string>, i: nat, j: nat)
    requires i < j < |Unique(s)|
    ensures FirstAt(s, Unique(s)[i]) < FirstAt(s, Unique(s)[j])
  {
    var front, last := s[..|s| - 1], s[|s| - 1];
    assert s == front + [last];
    UniqueDistinct(front);
    FirstAtSnoc(front, last, Unique(s)[i]);
    FirstAtSnoc(front, last, Unique(s)[j]);
    if j < |Unique(front)| {
      UniqueKeepsOrder(front, i, j);
    }
  }

  lemma {:induction false} UniqueFixed(s: seq<string>)
    requires Distinct(s)
    ensures Unique(s) == s
  {
    if s != [] {
      var front := s[..|s| - 1];
      UniqueFixed(front);
      assert s == front + [s[|s| - 1]];
    }
  }

  lemma {:induction false} NormalTagsFixed(rules: CaseRules, tags: seq<string>)
    requires forall i :: 0 <= i < |tags| ==> TagFits(rules, tags[i])
    ensures NormalTags(rules, tags) == Ok(tags)
  {
    if tags != [] {
      var front := tags[..|tags| - 1];
      NormalTagsFixed(rules, front);
      NormalTagFixed(rules, tags[|tags| - 1]);
      assert tags == front + [tags[|tags| - 1]];
    }
  }

  /** Accepted tags are normal: at most five, without repeats, each non-empty, within its length,
      stripped and in lower case; exactly the normal forms that are not empty survive. */
  lemma TagsNormal(rules: CaseRules, raw: seq<string>)
    requires Lawful(rules) && ValidateTags(rules, raw).Ok?
    ensures TagsFit(rules, ValidateTags(rules, raw).value)
    ensures forall t :: t in ValidateTags(rules, raw).value <==>
      t != [] && exists i :: 0 <= i < |raw| && t == NormalTag(rules, raw[i])
  {
    var tags := NormalTags(rules, raw).value;
    NormalTagsFit(rules, raw);
    NormalTagsFrom(rules, raw);
    UniqueDistinct(tags);
  }

  lemma {:induction false} NormalTagsFrom(rules: CaseRules, raw: seq<string>)
    requires NormalTags(rules, raw).Ok?
    ensures forall t :: t in NormalTags(rules, raw).value <==>
      t != [] && exists i :: 0 <= i < |raw| && t == NormalTag(rules, raw[i])
  {
    if raw != [] {
      var front := raw[..|raw| - 1];
      NormalTagsFrom(rules, front);
      var tags := NormalTags(rules, raw).value;
      forall t ensures t in tags <==> t != [] && exists i :: 0 <= i < |raw| && t == NormalTag(rules, raw[i]) {
        if t in NormalTags(rules, front).value {
          var i :| 0 <= i < |front| && t == NormalTag(rules, front[i]);
          assert t == NormalTag(rules, raw[i]);
        }
        if t != [] && exists i :: 0 <= i < |raw| && t == NormalTag(rules, raw[i]) {
          var i :| 0 <= i < |raw| && t == NormalTag(rules, raw[i]);
          if i < |front| {
            assert t == NormalTag(rules, front[i]);
          }
        }
      }
    }
  }

  /** Normal tags pass unchanged. */
  lemma TagsFixed(rules: CaseRules, tags: seq<string>)
    requires TagsFit(rules, tags)
    ensures ValidateTags(rules, tags) == Ok(tags)
  {
    NormalTagsFixed(rules, tags);
    UniqueFixed(tags);
  }

  /** Validating what validation produced changes nothing. */
  lemma ValidationIdempotent(rules: CaseRules, d: Document)
    requires Lawful(rules) && ValidateDocument(rules, d).Ok?
    ensures ValidateDocument(rules, ValidateDocument(rules, d).value) == ValidateDocument(rules, d)
  {
    TitleNormal(rules, d.title);
    TitleFixed(rules, ValidateTitle(rules, d.title).value);
    TagsNormal(rules, d.tags);
    TagsFixed(rules, ValidateTags(rules, d.tags).value);
  }

  /** `_validate_tags`, as the loop that appends and the pass that de-duplicates. */
  method CheckTags(rules: CaseRules, raw: seq<string>) returns (r: Result<seq<string>, Error>)
    ensures r == ValidateTags(rules, raw)
  {
    var validated := [];
    var i := 0;
    while i < |raw|
      invariant 0 <= i <= |raw|
      invariant NormalTags(rules, raw[..i]) == Ok(validated)
    {
      assert raw[..i + 1][..i] == raw[..i];
      var tag := Lower(rules, Strip(rules, raw[i]));
      if tag != [] {
        if |tag| > MAX_TAG_LENGTH {
          ErrPersists(rules, raw, i + 1);
          return Err(InvalidQuizData);
        }
        validated := validated + [tag];
      }
      i := i + 1;
    }
    assert raw[..i] == raw;
    var unique := [];
    i := 0;
    while i < |validated|
      invariant 0 <= i <= |validated|
      invariant unique == Unique(validated[..i])
    {
      assert validated[..i + 1][..i] == validated[..i];
      if validated[i] !in unique {
        unique := unique + [validated[i]];
      }
      i := i + 1;
    }
    assert validated[..i] == validated;
    if |unique| > MAX_TAGS_PER_QUIZ {
      return Err(InvalidQuizData);
    }
    return Ok(unique);
  }

  lemma {:induction false} ErrPersists(rules: CaseRules, raw: seq<string>, i: nat)
    requires i <= |raw| && NormalTags(rules, raw[..i]) == Err(InvalidQuizData)
    ensures NormalTags(rules, raw) == Err(InvalidQuizData)
    decreases |raw| - i
  {
    if i == |raw| {
      assert raw[..i] == raw;
    } else {
      assert raw[..i + 1][..i] == raw[..i];
      ErrPersists(rules, raw, i + 1);
    }
  }

  // ---- What is accepted ----

  /** A title is accepted exactly when something is left after stripping and the text as sent has at
      most 50 characters; what is stored is the stripped text. */
  lemma TitleAcceptedIff(rules: CaseRules, v: string)
    ensures ValidateTitle(rules, v).Ok? <==>
      |v| <= 50 && exists i :: 0 <= i < |v| && !rules.isSpace(v[i])
    ensures ValidateTitle(rules, v).Ok? ==> ValidateTitle(rules, v).value == Strip(rules, v)
  {
    StripEmptyIff(rules, v);
  }

  /** The different normal forms that are not empty. */
  function NormalForms(rules: CaseRules, raw: seq<string>): set<string> {
    set i | 0 <= i < |raw| && NormalTag(rules, raw[i]) != [] :: NormalTag(rules, raw[i])
  }

  lemma {:induction false} NormalTagsOkIff(rules: CaseRules, raw: seq<string>)
    ensures NormalTags(rules, raw).Ok? <==>
      forall i :: 0 <= i < |raw| ==> |NormalTag(rules, raw[i])| <= 30
  {
    if raw != [] {
      var front := raw[..|raw| - 1];
      NormalTagsOkIff(rules, front);
      if NormalTags(rules, raw).Ok? {
        forall i | 0 <= i < |raw| ensures |NormalTag(rules, raw[i])| <= 30 {
          assert i < |front| ==> raw[i] == front[i];
        }
      }
    }
  }

  /** Tags are accepted exactly when no normal form has more than 30 characters and there are at most
      five different ones; what is stored is each of them once. */
  lemma TagsAcceptedIff(rules: CaseRules, raw: seq<string>)
    ensures ValidateTags(rules, raw).Ok? <==>
      && (forall i :: 0 <= i < |raw| ==> |NormalTag(rules, raw[i])| <= 30)
      && |NormalForms(rules, raw)| <= 5
    ensures ValidateTags(rules, raw).Ok? ==>
      Distinct(ValidateTags(rules, raw).value)
      && Elements(ValidateTags(rules, raw).value) == NormalForms(rules, raw)
  {
    NormalTagsOkIff(rules, raw);
    if NormalTags(rules, raw).Ok? {
      var tags := NormalTags(rules, raw).value;
      NormalTagsFrom(rules, raw);
      UniqueDistinct(tags);
      DistinctCard(Unique(tags));
      assert Elements(Unique(tags)) == NormalForms(rules, raw);
    }
  }

  /** A request body is accepted exactly when its title and tags are, its description has at most 300
      characters, it admits 1 to 30 players, is private, and gives each question 5 to 300 seconds. */
  lemma DocumentAcceptedIff(rules: CaseRules, d: Document)
    ensures ValidateDocument(rules, d).Ok? <==>
      && ValidateTitle(rules, d.title).Ok? && ValidateTags(rules, d.tags).Ok?
      && (match d.description case None => true case Some(text) => |text| <= 300)
      && 1 <= d.settings.maxParticipants <= 30 && d.settings.visibility == Private
      && (forall i :: 0 <= i < |d.questions| ==> 5000 <= d.questions[i].timeLimit <= 300000)
    ensures ValidateDocument(rules, d).Ok? ==>
      ValidateDocument(rules, d).value
        == d.(title := ValidateTitle(rules, d.title).value, tags := ValidateTags(rules, d.tags).value)
  {
  }

  /** The same for an update, for the fields it gives. */
  lemma PatchAcceptedIff(rules: CaseRules, p: Patch)
    ensures ValidatePatch(rules, p).Ok? <==>
      && (p.title.Some? ==> ValidateTitle(rules, p.title.value).Ok?)
      && (p.tags.Some? ==> ValidateTags(rules, p.tags.value).Ok?)
      && (p.description.Some? ==> |p.description.value| <= 300)
      && (p.settings.Some? ==>
            1 <= p.settings.value.maxParticipants <= 30 && p.settings.value.visibility == Private)
      && (p.questions.Some? ==>
            forall i :: 0 <= i < |p.questions.value| ==> 5000 <= p.questions.value[i].timeLimit <= 300000)
    ensures ValidatePatch(rules, p).Ok? ==>
      var v := ValidatePatch(rules, p).value;
      && v.description == p.description && v.settings == p.settings && v.questions == p.questions
      && (if p.title.Some? then v.title == Some(ValidateTitle(rules, p.title.value).value) else v.title.None?)
      && (if p.tags.Some? then v.tags == Some(ValidateTags(rules, p.tags.value).value) else v.tags.None?)
  {
  }
}
