/** Statistics of finished games: `get_quiz_stats` and `_compute_quiz_stats` for one quiz, and
    `get_bulk_quiz_stats`, which loads the sessions of many quizzes at once. `sessions` is the
    session table in the one order in which it loads; times are in microseconds. */
module QuizStats {
  import opened Prelude
  import opened Scoring
  import opened Sorting
  import opened QuizSchemas
  import opened QuizService

  datatype Scorer = Scorer(nickname: string, score: int)

  datatype Session = Session(
    quiz: QuizId, finished: bool, startedAt: Option<int>, endedAt: Option<int>,
    players: seq<Scorer>)

  /** `playedAt` is absent where the program writes `datetime.min`. */
  datatype TopPlayer = TopPlayer(nickname: string, score: int, playedAt: Option<int>)

  datatype Stats = Stats(
    timesPlayed: nat, totalPlayers: nat, averageScore: int, averageDuration: int,
    topPlayers: seq<TopPlayer>)

  const EMPTY_STATS := Stats(0, 0, 0, 0, [])

  /** Python's `int(x)` of a quotient: rounds towards zero. */
  function Truncated(x: int, d: int): int
    requires d > 0
  {
    if x >= 0 then x / d else -((-x) / d)
  }

  /** Python's `//` by a positive number rounds down, as does Dafny's. */
  function FloorAverage(s: seq<int>): int {
    if s == [] then 0 else Sum(s) / |s|
  }

  function SessionPlayers(s: Session): seq<TopPlayer> {
    seq(|s.players|, i requires 0 <= i < |s.players| =>
      TopPlayer(s.players[i].nickname, s.players[i].score, s.startedAt))
  }

  /** Every player of every session, in load order. */
  function AllPlayers(sessions: seq<Session>): seq<TopPlayer> {
    if sessions == [] then []
    else AllPlayers(sessions[..|sessions| - 1]) + SessionPlayers(sessions[|sessions| - 1])
  }

  function Durations(sessions: seq<Session>): seq<int> {
    if sessions == [] then []
    else
      var front, s := Durations(sessions[..|sessions| - 1]), sessions[|sessions| - 1];
      if s.startedAt.Some? && s.endedAt.Some?
      then front + [Truncated(s.endedAt.value - s.startedAt.value, 1000000)] else front
  }

  function TopScore(p: TopPlayer): int { p.score }

  function TopKey(p: TopPlayer): int { -p.score }

  function TopTen(players: seq<TopPlayer>): seq<TopPlayer> {
    var ranked := StableSort(players, TopKey);
    if |ranked| <= 10 then ranked else ranked[..10]
  }

  /** What both `get_quiz_stats` and `_compute_quiz_stats` compute from the finished sessions. */
  function Compute(sessions: seq<Session>): Stats {
    if sessions == [] then EMPTY_STATS
    else
      var players := AllPlayers(sessions);
      Stats(|sessions|, |players|, FloorAverage(Map(players, TopScore)),
            FloorAverage(Durations(sessions)), TopTen(players))
  }

  predicate Counts(s: Session, id: QuizId) {
    s.quiz == id && s.finished
  }

  /** The finished sessions of one quiz, in load order. */
  function FinishedOf(sessions: seq<Session>, id: QuizId): seq<Session> {
    if sessions == [] then []
    else
      var front, s := FinishedOf(sessions[..|sessions| - 1], id), sessions[|sessions| - 1];
      if Counts(s, id) then front + [s] else front
  }

  function SingleStats(st: Store, sessions: seq<Session>, id: QuizId, user: UserId)
    : Result<Stats, Error>
  {
    match Owned(st, id, user)
    case Err(e) => Err(e)
    case Ok(_) => Ok(Compute(FinishedOf(sessions, id)))
  }

  /** The single statistics of each id that has them, in the order requested. */
  function EachSingle(st: Store, sessions: seq<Session>, ids: seq<QuizId>, user: UserId)
    : seq<(QuizId, Stats)>
  {
    if ids == [] then []
    else
      var front, id := EachSingle(st, sessions, ids[..|ids| - 1], user), ids[|ids| - 1];
      match SingleStats(st, sessions, id, user)
      case Ok(stats) => front + [(id, stats)]
      case Err(_) => front
  }

  // ---- What the numbers mean ----

  /** The average is the largest integer whose multiple by the count does not exceed the sum. */
  lemma FloorAverageIs(s: seq<int>, a: int)
    requires s != []
    ensures FloorAverage(s) == a <==> a * |s| <= Sum(s) < (a + 1) * |s|
  {
    QuotientFits(Sum(s), |s|, a);
    QuotientFits(Sum(s), |s|, a + 1);
  }

  /** The top list and the players left out of it together are exactly the players; the list has
      ten entries unless there are fewer players, in non-increasing score, and no excluded player
      beats any listed one. Ties go to the earlier row. */
  lemma TopTenBeatsRest(players: seq<TopPlayer>) returns (rest: seq<TopPlayer>)
    ensures multiset(TopTen(players)) + multiset(rest) == multiset(players)
    ensures |TopTen(players)| == if |players| < 10 then |players| else 10
    ensures Sorted(TopTen(players), TopKey)
    ensures forall t, r :: t in TopTen(players) && r in rest ==> t.score >= r.score
    ensures StableRearrangement(players, TopTen(players) + rest, TopKey)
  {
    var ranked := StableSort(players, TopKey);
    SortSorts(players, TopKey);
    SortStable(players, TopKey);
    assert |multiset(ranked)| == |multiset(players)|;
    rest := ranked[|TopTen(players)|..];
    assert ranked == TopTen(players) + rest;
    SortedSplit(ranked, TopTen(players), rest);
  }

  lemma SortedSplit(ranked: seq<TopPlayer>, top: seq<TopPlayer>, rest: seq<TopPlayer>)
    requires Sorted(ranked, TopKey) && ranked == top + rest
    ensures Sorted(top, TopKey)
    ensures forall t, r :: t in top && r in rest ==> t.score >= r.score
  {
    forall t, r | t in top && r in rest ensures t.score >= r.score {
      var i :| 0 <= i < |top| && top[i] == t;
      var j :| 0 <= j < |rest| && rest[j] == r;
      assert ranked[i] == t && ranked[|top| + j] == r;
      assert TopKey(ranked[i]) <= TopKey(ranked[|top| + j]);
    }
    forall i, j | 0 <= i < j < |top| ensures TopKey(top[i]) <= TopKey(top[j]) {
      assert top[i] == ranked[i] && top[j] == ranked[j];
    }
  }

  // ---- One query for many quizzes ----

  /** Where in `ids` the user's quizzes are, in order. */
  function OwnedAt(st: Store, ids: seq<QuizId>, user: UserId): (at: seq<nat>)
    ensures forall k :: 0 <= k < |at| ==> at[k] < |ids|
    ensures forall k, l :: 0 <= k < l < |at| ==> at[k] < at[l]
    ensures forall i :: 0 <= i < |ids| ==> (i in at <==> Owned(st, ids[i], user).Ok?)
  {
    if ids == [] then []
    else
      var front := OwnedAt(st, ids[..|ids| - 1], user);
      if Owned(st, ids[|ids| - 1], user).Ok? then front + [|ids| - 1] else front
  }

  /** Every requested id of an owned quiz is answered with its single statistics, as often as it
      is requested and in the order requested; nothing else is answered. */
  lemma {:induction false} EachSingleIsSelection(
      st: Store, sessions: seq<Session>, ids: seq<QuizId>, user: UserId)
    ensures var items, at := EachSingle(st, sessions, ids, user), OwnedAt(st, ids, user);
      && |items| == |at|
      && forall k :: 0 <= k < |at| ==>
        items[k].0 == ids[at[k]] && SingleStats(st, sessions, ids[at[k]], user) == Ok(items[k].1)
  {
    if ids != [] {
      var front, id := ids[..|ids| - 1], ids[|ids| - 1];
      EachSingleIsSelection(st, sessions, front, user);
      var at := OwnedAt(st, front, user);
      assert forall k :: 0 <= k < |at| ==> ids[at[k]] == front[at[k]];
      assert SingleStats(st, sessions, id, user).Ok? <==> Owned(st, id, user).Ok?;
    }
  }

  /** `_compute_quiz_stats`: comprehensions over the sessions, and an in-place sort of a local
      list. */
  method ComputeQuizStats(sessions: seq<Session>) returns (stats: Stats)
    ensures stats == Compute(sessions)
  {
    if sessions == [] {
      return EMPTY_STATS;
    }
    var top: seq<TopPlayer>, durations: seq<int> := [], [];
    var i := 0;
    while i < |sessions|
      invariant 0 <= i <= |sessions|
      invariant top == AllPlayers(sessions[..i]) && durations == Durations(sessions[..i])
    {
      assert sessions[..i + 1][..i] == sessions[..i];
      var s := sessions[i];
      top := top + SessionPlayers(s);
      if s.startedAt.Some? && s.endedAt.Some? {
        durations := durations + [Truncated(s.endedAt.value - s.startedAt.value, 1000000)];
      }
      i := i + 1;
    }
    assert sessions[..i] == sessions;
    var total := |top|;
    var averageScore := if total > 0 then Sum(Map(top, TopScore)) / total else 0;
    var averageDuration := if durations != [] then Sum(durations) / |durations| else 0;
    top := StableSort(top, TopKey);
    stats := Stats(|sessions|, total, averageScore, averageDuration,
                   if |top| <= 10 then top else top[..10]);
  }

  /** `get_bulk_quiz_stats`: one pass over the sessions fills a dictionary of lists. The result is
      the single statistics of each owned id, in the order requested and with repeats. */
  method GetBulkQuizStats(st: Store, sessions: seq<Session>, ids: seq<QuizId>, user: UserId)
    returns (items: seq<(QuizId, Stats)>)
    ensures items == EachSingle(st, sessions, ids, user)
  {
    if ids == [] {
      return [];
    }
    var found := set id | id in ids && id in st.quizzes && st.quizzes[id].creator == user;
    var byQuiz: map<QuizId, seq<Session>> := map id | id in ids :: [];
    var i := 0;
    while i < |sessions|
      invariant 0 <= i <= |sessions|
      invariant forall id :: id in byQuiz <==> id in ids
      invariant forall id :: id in byQuiz ==> byQuiz[id] == FinishedOf(sessions[..i], id)
    {
      assert sessions[..i + 1][..i] == sessions[..i];
      var s := sessions[i];
      if s.finished && s.quiz in byQuiz {
        byQuiz := byQuiz[s.quiz := byQuiz[s.quiz] + [s]];
      }
      i := i + 1;
    }
    assert sessions[..i] == sessions;
    items := [];
    i := 0;
    while i < |ids|
      invariant 0 <= i <= |ids|
      invariant items == EachSingle(st, sessions, ids[..i], user)
    {
      assert ids[..i + 1][..i] == ids[..i];
      assert ids[i] in ids;
      if ids[i] in found {
        var stats := ComputeQuizStats(byQuiz[ids[i]]);
        items := items + [(ids[i], stats)];
      }
      i := i + 1;
    }
    assert ids[..i] == ids;
  }

  /** `get_quiz_stats`, for one quiz. */
  method GetQuizStats(st: Store, sessions: seq<Session>, id: QuizId, user: UserId)
    returns (r: Result<Stats, Error>)
    ensures r == SingleStats(st, sessions, id, user)
  {
    if id !in st.quizzes {
      return Err(QuizNotFound);
    }
    if st.quizzes[id].creator != user {
      return Err(QuizAccessDenied);
    }
    var stats := ComputeQuizStats(FinishedOf(sessions, id));
    r := Ok(stats);
  }

  // ---- Which numbers these are ----

  function ScoreOf(p: Scorer): int { p.score }

  function PlayersIn(s: Session): int { |s.players| }

  function ScoresIn(s: Session): int { Total(s.players, ScoreOf) }

  function Timed(s: Session): int { if s.startedAt.Some? && s.endedAt.Some? then 1 else 0 }

  /** Whole seconds from start to end. */
  function SecondsOf(s: Session): int {
    if Timed(s) == 1 then
      var micros := s.endedAt.value - s.startedAt.value;
      if micros >= 0 then micros / 1000000 else -((-micros) / 1000000)
    else 0
  }

  lemma {:induction false} TotalAppend<T>(s: seq<T>, t: seq<T>, f: T -> int)
    ensures Total(s + t, f) == Total(s, f) + Total(t, f)
  {
    if s == [] {
      assert s + t == t;
    } else {
      assert (s + t)[1..] == s[1..] + t;
      TotalAppend(s[1..], t, f);
    }
  }

  lemma {:induction false} SumIsTotal(s: seq<TopPlayer>)
    ensures Sum(Map(s, TopScore)) == Total(s, TopScore)
  {
    if s != [] {
      SumIsTotal(s[1..]);
      assert Map(s, TopScore)[1..] == Map(s[1..], TopScore);
    }
  }

  lemma {:induction false} ScoresOfPlayers(players: seq<Scorer>, startedAt: Option<int>, k: nat)
    requires k <= |players|
    ensures var s := Session(0, true, startedAt, None, players);
      Total(SessionPlayers(s)[k..], TopScore) == Total(players[k..], ScoreOf)
    decreases |players| - k
  {
    var s := Session(0, true, startedAt, None, players);
    if k < |players| {
      ScoresOfPlayers(players, startedAt, k + 1);
      assert SessionPlayers(s)[k..][1..] == SessionPlayers(s)[k + 1..];
      assert players[k..][1..] == players[k + 1..];
    }
  }

  lemma SessionScores(s: Session)
    ensures Total(SessionPlayers(s), TopScore) == ScoresIn(s)
  {
    ScoresOfPlayers(s.players, s.startedAt, 0);
    assert SessionPlayers(s)[0..] == SessionPlayers(s) && s.players[0..] == s.players;
    assert SessionPlayers(s) == SessionPlayers(Session(0, true, s.startedAt, None, s.players));
  }

  lemma {:induction false} AllPlayersCount(sessions: seq<Session>)
    ensures |AllPlayers(sessions)| == Total(sessions, PlayersIn)
  {
    if sessions != [] {
      var front, last := sessions[..|sessions| - 1], sessions[|sessions| - 1];
      AllPlayersCount(front);
      TotalOfLast(sessions, PlayersIn);
    }
  }

  lemma {:induction false} AllPlayersScores(sessions: seq<Session>)
    ensures Total(AllPlayers(sessions), TopScore) == Total(sessions, ScoresIn)
  {
    if sessions != [] {
      var front, last := sessions[..|sessions| - 1], sessions[|sessions| - 1];
      AllPlayersScores(front);
      SessionScores(last);
      TotalAppend(AllPlayers(front), SessionPlayers(last), TopScore);
      TotalOfLast(sessions, ScoresIn);
    }
  }

  lemma TotalOfLast<T>(s: seq<T>, f: T -> int)
    requires s != []
    ensures Total(s, f) == Total(s[..|s| - 1], f) + f(s[|s| - 1])
  {
    var front, last := s[..|s| - 1], s[|s| - 1];
    assert s == front + [last];
    TotalAppend(front, [last], f);
  }

  lemma {:induction false} SumAppend(s: seq<int>, x: int)
    ensures Sum(s + [x]) == Sum(s) + x
  {
    if s == [] {
    } else {
      assert (s + [x])[1..] == s[1..] + [x];
      SumAppend(s[1..], x);
    }
  }

  lemma {:induction false} DurationsTotals(sessions: seq<Session>)
    ensures |Durations(sessions)| == Total(sessions, Timed) && Sum(Durations(sessions)) == Total(sessions, SecondsOf)
  {
    if sessions != [] {
      var front, last := sessions[..|sessions| - 1], sessions[|sessions| - 1];
      DurationsTotals(front);
      TotalOfLast(sessions, Timed);
      TotalOfLast(sessions, SecondsOf);
      if Timed(last) == 1 {
        SumAppend(Durations(front), SecondsOf(last));
      }
    }
  }

  /** `a` is the floor of `sum / n`, and zero when there is nothing to average. */
  predicate Averages(a: int, sum: int, n: int) {
    if n > 0 then a * n <= sum < (a + 1) * n else a == 0
  }

  /** The statistics of a list of sessions: how many there are, how many players took part in them
      all, the average of the players' scores, and the average length in whole seconds of the
      sessions that have both times. */
  lemma StatsMean(sessions: seq<Session>)
    ensures var stats := Compute(sessions);
      && stats.timesPlayed == |sessions| && stats.totalPlayers == Total(sessions, PlayersIn)
      && Averages(stats.averageScore, Total(sessions, ScoresIn), Total(sessions, PlayersIn))
      && Averages(stats.averageDuration, Total(sessions, SecondsOf), Total(sessions, Timed))
      && stats.topPlayers == TopTen(AllPlayers(sessions))
  {
    AllPlayersCount(sessions);
    AllPlayersScores(sessions);
    DurationsTotals(sessions);
    SumIsTotal(AllPlayers(sessions));
    FloorAverages(Map(AllPlayers(sessions), TopScore));
    FloorAverages(Durations(sessions));
    if sessions == [] {
      assert TopTen(AllPlayers(sessions)) == [];
    }
  }

  lemma FloorAverages(s: seq<int>)
    ensures Averages(FloorAverage(s), Sum(s), |s|)
  {
    if s != [] {
      FloorAverageIs(s, FloorAverage(s));
    }
  }

  /** A player is listed with the name and score they had in one of the sessions, and its start. */
  lemma {:induction false} ListedPlayed(sessions: seq<Session>, t: TopPlayer)
    ensures t in AllPlayers(sessions) <==>
      exists i, j :: && 0 <= i < |sessions| && 0 <= j < |sessions[i].players|
                     && t == TopPlayer(sessions[i].players[j].nickname, sessions[i].players[j].score,
                                       sessions[i].startedAt)
  {
    if sessions != [] {
      var front, last := sessions[..|sessions| - 1], sessions[|sessions| - 1];
      ListedPlayed(front, t);
      if t in AllPlayers(front) {
        var i, j :| && 0 <= i < |front| && 0 <= j < |front[i].players|
                    && t == TopPlayer(front[i].players[j].nickname, front[i].players[j].score, front[i].startedAt);
        assert sessions[i] == front[i];
      }
      if t in SessionPlayers(last) {
        var j :| 0 <= j < |SessionPlayers(last)| && SessionPlayers(last)[j] == t;
        assert sessions[|front|] == last;
      }
      if exists i, j :: && 0 <= i < |sessions| && 0 <= j < |sessions[i].players|
                        && t == TopPlayer(sessions[i].players[j].nickname, sessions[i].players[j].score,
                                          sessions[i].startedAt) {
        var i, j :| && 0 <= i < |sessions| && 0 <= j < |sessions[i].players|
                    && t == TopPlayer(sessions[i].players[j].nickname, sessions[i].players[j].score,
                                      sessions[i].startedAt);
        if i < |front| {
          assert front[i] == sessions[i];
        } else {
          assert SessionPlayers(last)[j] == t;
        }
      }
    }
  }

  /** The sessions counted for a quiz are exactly its finished ones, each as often as it is stored. */
  lemma {:induction false} FinishedOfIs(sessions: seq<Session>, id: QuizId, s: Session)
    ensures multiset(FinishedOf(sessions, id))[s]
      == if s.quiz == id && s.finished then multiset(sessions)[s] else 0
  {
    if sessions != [] {
      var front, last := sessions[..|sessions| - 1], sessions[|sessions| - 1];
      FinishedOfIs(front, id, s);
      assert sessions == front + [last];
    }
  }
}
