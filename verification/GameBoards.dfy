/** Leaderboards over whole runs: gains and losses of places cancel, and they add up. */
module GameBoards {
  import opened Prelude
  import opened Leaderboard
  import opened GameModel
  import opened GameWorld
  import opened GameControl
  import opened GameAnswers
  import opened GameTimers

  /** The rank a board shows for a player. */
  function RankIn(board: seq<Entry>, id: PlayerId): int {
    if board == [] then 0
    else if board[0].playerId == id then board[0].rank
    else RankIn(board[1..], id)
  }

  /** The change a board shows for a player. */
  function ChangeIn(board: seq<Entry>, id: PlayerId): int {
    if board == [] then 0
    else if board[0].playerId == id then board[0].change
    else ChangeIn(board[1..], id)
  }

  function ChangeTotal(boards: seq<seq<Entry>>, id: PlayerId): int {
    if boards == [] then 0
    else ChangeTotal(boards[..|boards| - 1], id) + ChangeIn(boards[|boards| - 1], id)
  }

  lemma {:induction false} LookupAt(board: seq<Entry>, i: nat)
    requires i < |board|
    requires forall a, b :: 0 <= a < b < |board| ==> board[a].playerId != board[b].playerId
    ensures RankIn(board, board[i].playerId) == board[i].rank
    ensures ChangeIn(board, board[i].playerId) == board[i].change
  {
    if i > 0 {
      assert board[0].playerId != board[i].playerId;
      LookupAt(board[1..], i - 1);
    }
  }

  lemma BoardLookup(players: seq<Player>, prev: Ranking, id: PlayerId)
    requires DistinctIds(players) && HasId(players, id)
    ensures var board := Entries(players, prev);
      && id in NewRanking(players)
      && RankIn(board, id) == NewRanking(players)[id]
      && ChangeIn(board, id) == PreviousRank(prev, id, NewRanking(players)[id]) - RankIn(board, id)
  {
    SortedDistinct(players);
    EntriesInOrder(players, prev);
    var sorted := ByScore(players);
    assert HasId(sorted, id);
    var i :| 0 <= i < |sorted| && sorted[i].id == id;
    ChangeIsRankDifference(players, prev, i);
    LookupAt(Entries(players, prev), i);
  }

  ghost predicate Telescopes(players: seq<Player>, boards: seq<seq<Entry>>, ranking: Ranking)
    requires boards != []
  {
    forall id :: HasId(players, id) ==>
      && ChangeTotal(boards, id) == RankIn(boards[0], id) - RankIn(boards[|boards| - 1], id)
      && id in ranking && ranking[id] == RankIn(boards[|boards| - 1], id)
  }

  ghost predicate EarlierRanking(players: seq<Player>, ranking: Ranking) {
    exists before: seq<Player> :: SameIds(before, players) && ranking == NewRanking(before)
  }

  ghost predicate BoardsFit(s: Status, players: seq<Player>, boards: seq<seq<Entry>>, ranking: Option<Ranking>) {
    && (ranking.None? <==> boards == [])
    && (s == Waiting ==> boards == [])
    && (forall i :: 0 <= i < |boards| ==> SumOfChanges(boards[i]) == 0)
    && (ranking.Some? ==>
          EarlierRanking(players, ranking.value) && Telescopes(players, boards, ranking.value))
  }

  ghost predicate Boards(w: World) {
    BoardsFit(w.room.db.status, w.room.db.players, w.boards, w.room.cache.ranking)
  }

  lemma TelescopesOn(players: seq<Player>, boards: seq<seq<Entry>>, prev: Ranking)
    requires DistinctIds(players)
    requires if boards == [] then prev == map[] else Telescopes(players, boards, prev)
    ensures Telescopes(players, boards + [Entries(players, prev)], NewRanking(players))
  {
    var board := Entries(players, prev);
    var boards' := boards + [board];
    forall id | HasId(players, id)
      ensures ChangeTotal(boards', id) == RankIn(boards'[0], id) - RankIn(board, id)
      ensures id in NewRanking(players) && NewRanking(players)[id] == RankIn(board, id)
    {
      BoardLookup(players, prev, id);
      assert boards'[..|boards|] == boards;
    }
  }

  lemma ShowBoardKeepsBoards(w: World)
    requires Boards(w) && DistinctIds(w.room.db.players) && w.room.db.status != Waiting
    ensures Boards(ShowBoard(w))
  {
    var players, ranking := w.room.db.players, w.room.cache.ranking;
    var prev := StoredOrEmpty(ranking);
    TelescopesOn(players, w.boards, prev);
    ChangesSumToZero(players, prev);
    assert SameIds(players, players);
    var w' := ShowBoard(w);
    assert w'.boards == w.boards + [Entries(players, prev)];
    assert w'.room.cache.ranking == Some(NewRanking(players));
  }

  /** New scores do not matter to a stored ranking, only who the players are. */
  lemma ScoresKeepBoards(s: Status, a: seq<Player>, b: seq<Player>, boards: seq<seq<Entry>>, ranking: Option<Ranking>)
    requires BoardsFit(s, a, boards, ranking) && SameIds(a, b)
    ensures BoardsFit(s, b, boards, ranking)
  {
    if ranking.Some? {
      var before: seq<Player> :| SameIds(before, a) && ranking.value == NewRanking(before);
      assert SameIds(before, b);
      forall id | HasId(b, id) ensures HasId(a, id) {
        var i :| 0 <= i < |b| && b[i].id == id;
        assert a[i].id == id;
      }
    }
  }

  lemma SubmitKeepsBoards(cfg: Config, w: World, player: PlayerId,
                          question: Option<QuestionId>, answers: seq<AnswerId>)
    requires ValidConfig(cfg) && Control(cfg, w) && Boards(w)
    ensures Boards(SubmitStep(cfg, w, player, question, answers))
  {
    var (r', result) := SubmitAnswer(cfg, w.room, w.now, player, question, answers);
    if result.Ok? {
      AcceptedSubmission(cfg, w, player, question, answers);
      ScoresKeepBoards(Question, w.room.db.players, r'.db.players, w.boards, w.room.cache.ranking);
    }
  }

  /** Steps that leave players, boards and the stored ranking alone. */
  predicate SameBoards(w: World, w': World) {
    && w'.room.db.players == w.room.db.players && w'.boards == w.boards
    && w'.room.cache.ranking == w.room.cache.ranking
    && (w'.room.db.status == Waiting ==> w.room.db.status == Waiting)
  }

  predicate TouchesRanking(h: Handler) { h.ReportingEnd? || h.ReportingFinal? || h.Clearing? }

  lemma HandlerKeepsBoards(cfg: Config, w: World)
    requires Control(cfg, w) && Boards(w) && DistinctIds(w.room.db.players)
    ensures Boards(StepHandler(cfg, w))
  {
    if TouchesRanking(w.handler) {
      ReportsKeepBoards(cfg, w);
    } else {
      BlocksLeaveBoards(cfg, w);
      SameKeepsBoards(w, StepHandler(cfg, w));
    }
  }

  lemma ReportsKeepBoards(cfg: Config, w: World)
    requires Control(cfg, w) && Boards(w) && DistinctIds(w.room.db.players) && TouchesRanking(w.handler)
    ensures Boards(StepHandler(cfg, w))
  {
    if w.handler.Clearing? {
      ForgettingKeepsBoards(w);
    } else {
      ShowBoardKeepsBoards(w);
    }
  }

  lemma BlocksLeaveBoards(cfg: Config, w: World)
    requires !TouchesRanking(w.handler)
    ensures SameBoards(w, StepHandler(cfg, w))
  {
    match w.handler
    case Opened(current, question) => StartClockLeavesBoards(cfg, w, current, question);
    case Deciding(seen, next, count) => DecideLeavesBoards(cfg, w, seen, next, count);
    case Advancing(next, order) => OpenLeavesBoards(w, next, order);
    case _ => HandlerLeavesBoards(cfg, w);
  }

  lemma StartClockLeavesBoards(cfg: Config, w: World, current: nat, question: QuestionId)
    ensures SameBoards(w, StartClock(cfg, w, current, question))
  {
  }

  lemma DecideLeavesBoards(cfg: Config, w: World, seen: Status, next: nat, count: nat)
    ensures SameBoards(w, Decide(cfg, w, seen, next, count))
  {
  }

  lemma OpenLeavesBoards(w: World, next: nat, order: seq<QuestionId>)
    ensures SameBoards(w, OpenQuestion(w, next, order))
  {
  }

  lemma HandlerLeavesBoards(cfg: Config, w: World)
    requires w.handler.Idle? || w.handler.StoringOrder? || w.handler.Sending? || w.handler.Announcing?
          || w.handler.ForcingEnd? || w.handler.Ending?
    ensures SameBoards(w, StepHandler(cfg, w))
  {
  }

  lemma FireLeavesBoards(w: World, t: Timer)
    ensures SameBoards(w, FireTimer(w, t))
  {
  }

  /** A report shows a leaderboard, or none, once its task is gone. */
  lemma ReportShowsOrLeaves(cfg: Config, w: World, t: Timer)
    ensures var w1 := w.(timers := w.timers - multiset{t});
      SameBoards(w, ReportTimer(cfg, w, t))
      || (CurrentQuestion(cfg, w.room).Some? && ReportTimer(cfg, w, t) == ShowBoard(w1))
  {
  }

  lemma HostLeavesBoards(cfg: Config, w: World, caller: UserId, order: seq<QuizQuestion>)
    ensures SameBoards(w, PressStartStep(cfg, w, caller, order))
    ensures SameBoards(w, PressNextStep(cfg, w)) && SameBoards(w, FailStep(w))
  {
  }

  lemma JoinKeepsBoards(cfg: Config, w: World, id: PlayerId, nickname: string, user: Option<UserId>)
    requires Boards(w)
    ensures Boards(JoinStep(cfg, w, id, nickname, user))
  {
  }

  lemma SendLeavesBoards(w: World, record: Record)
    ensures SameBoards(w, SendStep(w, record))
  {
  }

  lemma ForgettingKeepsBoards(w: World)
    requires Boards(w)
    ensures Boards(ForgetRanking(w))
  {
  }

  lemma ViewKeepsBoards(w: World)
    requires DistinctIds(w.room.db.players) && Boards(w)
    ensures Boards(ViewStep(w))
  {
    if w.room.db.status != Waiting {
      ShowBoardKeepsBoards(w);
    }
  }

  lemma HostEventsKeepBoards(cfg: Config, w: World, e: Event)
    requires ValidConfig(cfg) && Control(cfg, w) && Answers(w) && Boards(w) && HostEvent(e)
    ensures Boards(Step(cfg, w, e))
  {
    match e
    case PressStart(caller, order) => HostLeavesBoards(cfg, w, caller, order);
    case PressNext => HostLeavesBoards(cfg, w, 0, []);
    case HandlerFails => HostLeavesBoards(cfg, w, 0, []);
  }

  lemma SameKeepsBoards(w: World, w': World)
    requires Boards(w) && SameBoards(w, w')
    ensures Boards(w')
  {
  }

  lemma LossEventsLeaveBoards(cfg: Config, w: World, e: Event)
    requires PositiveLimits(cfg) && LossEvent(e) && !e.LoseRanking?
    ensures SameBoards(w, Step(cfg, w, e))
  {
  }

  lemma LossEventsKeepBoards(cfg: Config, w: World, e: Event)
    requires ValidConfig(cfg) && Control(cfg, w) && Answers(w) && Boards(w) && LossEvent(e)
    ensures Boards(Step(cfg, w, e))
  {
    if e.LoseRanking? {
      ForgettingKeepsBoards(w);
    } else {
      LossEventsLeaveBoards(cfg, w, e);
      SameKeepsBoards(w, Step(cfg, w, e));
    }
  }

  lemma QuietEventsKeepBoards(cfg: Config, w: World, e: Event)
    requires ValidConfig(cfg) && Control(cfg, w) && Answers(w) && Boards(w) && QuietEvent(e)
    ensures Boards(Step(cfg, w, e))
  {
    match e
    case Tick(_) =>
    case ViewResults => ViewKeepsBoards(w);
  }

  lemma StepKeepsBoards(cfg: Config, w: World, e: Event)
    requires ValidConfig(cfg) && Control(cfg, w) && Answers(w) && Boards(w)
    ensures Boards(Step(cfg, w, e))
  {
    if e.HandlerStep? {
      HandlerKeepsBoards(cfg, w);
    } else if HostEvent(e) {
      HostEventsKeepBoards(cfg, w, e);
    } else if e.Join? {
      JoinKeepsBoards(cfg, w, e.id, e.nickname, e.user);
    } else if e.Submit? {
      SubmitKeepsBoards(cfg, w, e.player, e.question, e.answers);
    } else if e.SendUpdate? {
      SendLeavesBoards(w, e.record);
    } else if e.TimerFires? {
      FireLeavesBoards(w, e.timer);
    } else if e.TimerReports? {
      ReportShowsOrLeaves(cfg, w, e.timer);
      if CurrentQuestion(cfg, w.room).Some? {
        ShowBoardKeepsBoards(w.(timers := w.timers - multiset{e.timer}));
      }
    } else if LossEvent(e) {
      LossEventsKeepBoards(cfg, w, e);
    } else {
      QuietEventsKeepBoards(cfg, w, e);
    }
  }

  lemma {:induction false} RunKeepsBoards(cfg: Config, w: World, es: seq<Event>)
    requires ValidConfig(cfg) && Control(cfg, w) && Answers(w) && Boards(w)
    ensures Boards(Run(cfg, w, es))
    decreases |es|
  {
    if es != [] {
      StepKeepsControl(cfg, w, es[0]);
      StepKeepsAnswers(cfg, w, es[0]);
      StepKeepsBoards(cfg, w, es[0]);
      RunKeepsBoards(cfg, Step(cfg, w, es[0]), es[1..]);
    }
  }

  /** In every run: the changes of each leaderboard sum to zero, and since the ranking key was last
      absent a player's changes add up to its first rank less its last. */
  lemma ChangesCancelAndTelescope(cfg: Config, start: int, es: seq<Event>)
    requires ValidConfig(cfg)
    ensures var w := After(cfg, start, es);
      && (forall i :: 0 <= i < |w.boards| ==> SumOfChanges(w.boards[i]) == 0)
      && (w.boards != [] ==> forall id :: HasId(w.room.db.players, id) ==>
            ChangeTotal(w.boards, id)
            == RankIn(w.boards[0], id) - RankIn(w.boards[|w.boards| - 1], id))
      && (w.boards != [] <==> w.room.cache.ranking.Some?)
  {
    AnswersInRuns(cfg, start, es);
    ControlAtStart(cfg, start);
    RunKeepsBoards(cfg, Begin(start), es);
  }

  // ---- A question that ends is reported ----

  /** From `w` to `w'` one leaderboard is shown: it ranks all players with the scores they have, and
      is what the ranking key holds afterwards. Rows, players and status stay. */
  ghost predicate ShowsNewBoard(w: World, w': World) {
    && w'.room.db == w.room.db
    && |w'.boards| == |w.boards| + 1 && w'.boards[..|w.boards|] == w.boards
    && var board := w'.boards[|w.boards|];
    && BoardShows(board, w.room.db.players)
    && w'.room.cache.ranking.Some? && StoresRanks(w'.room.cache.ranking.value, board)
  }

  ghost predicate BoardShows(board: seq<Entry>, players: seq<Player>) {
    && |board| == |players|
    && (forall i :: 0 <= i < |board| ==> board[i].rank == i + 1)
    && (forall i, j :: 0 <= i < j < |board| ==> board[i].score >= board[j].score)
    && (forall p :: p in players ==> exists e :: e in board && Shows(e, p))
  }

  ghost predicate StoresRanks(ranking: Ranking, board: seq<Entry>) {
    && (forall i :: 0 <= i < |board| ==>
          board[i].playerId in ranking && ranking[board[i].playerId] == board[i].rank)
    && (forall id :: id in ranking ==> exists e :: e in board && e.playerId == id)
  }

  lemma RanksStored(players: seq<Player>, prev: Ranking)
    requires DistinctIds(players)
    ensures StoresRanks(NewRanking(players), Entries(players, prev))
  {
    SortedDistinct(players);
    RankingAt(ByScore(players));
    EntriesFollow(ByScore(players), prev);
    RanksOf(ByScore(players), NewRanking(players), Entries(players, prev));
  }

  lemma EntriesFollow(ranked: seq<Player>, prev: Ranking)
    ensures forall i :: 0 <= i < |ranked| ==>
      EntriesOf(ranked, prev)[i].playerId == ranked[i].id && EntriesOf(ranked, prev)[i].rank == i + 1
  {
  }

  lemma RanksOf(ranked: seq<Player>, ranking: Ranking, board: seq<Entry>)
    requires |board| == |ranked|
    requires forall i :: 0 <= i < |ranked| ==> board[i].playerId == ranked[i].id && board[i].rank == i + 1
    requires forall i :: 0 <= i < |ranked| ==> ranked[i].id in ranking && ranking[ranked[i].id] == i + 1
    requires forall id :: id in ranking ==> HasId(ranked, id)
    ensures StoresRanks(ranking, board)
  {
    forall id | id in ranking ensures exists e :: e in board && e.playerId == id {
      assert HasId(ranked, id);
      var i :| 0 <= i < |ranked| && ranked[i].id == id;
      assert board[i] in board && board[i].playerId == id;
    }
  }

  lemma ShowBoardShows(w: World)
    requires DistinctIds(w.room.db.players)
    ensures ShowsNewBoard(w, ShowBoard(w))
  {
    var prev := StoredOrEmpty(w.room.cache.ranking);
    EntriesInOrder(w.room.db.players, prev);
    EntriesShowPlayers(w.room.db.players, prev);
    RanksStored(w.room.db.players, prev);
    assert ShowBoard(w).boards == w.boards + [Entries(w.room.db.players, prev)];
  }

  /** In every run, a timeout task that has ended its question shows exactly one leaderboard when it
      reports and the current question can be read, and none otherwise; either way it is gone. */
  lemma TimeoutReports(cfg: Config, start: int, es: seq<Event>, t: Timer)
    requires ValidConfig(cfg)
    requires t.Reporting? && t in After(cfg, start, es).timers
    ensures var w := After(cfg, start, es);
      var w' := Step(cfg, w, TimerReports(t));
      && w'.timers == w.timers - multiset{t}
      && (if CurrentQuestion(cfg, w.room).Some? then ShowsNewBoard(w, w') else w'.boards == w.boards)
  {
    AnswersInRuns(cfg, start, es);
    TimeoutReportsFrom(cfg, After(cfg, start, es), t);
  }

  lemma TimeoutReportsFrom(cfg: Config, w: World, t: Timer)
    requires PositiveLimits(cfg) && DistinctIds(w.room.db.players) && t.Reporting? && t in w.timers
    ensures var w' := Step(cfg, w, TimerReports(t));
      && w'.timers == w.timers - multiset{t}
      && (if CurrentQuestion(cfg, w.room).Some? then ShowsNewBoard(w, w') else w'.boards == w.boards)
  {
    var w1 := w.(timers := w.timers - multiset{t});
    ShowBoardShows(w1);
    assert Step(cfg, w, TimerReports(t)) == if CurrentQuestion(cfg, w.room).Some? then ShowBoard(w1) else w1;
    assert ShowsNewBoard(w1, ShowBoard(w1)) ==> ShowsNewBoard(w, ShowBoard(w1));
  }

  /** Nothing but its own report removes a task that owes one. */
  lemma ReportStaysPending(cfg: Config, w: World, e: Event, t: Timer)
    requires PositiveLimits(cfg) && t.Reporting? && t in w.timers && e != TimerReports(t)
    ensures t in Step(cfg, w, e).timers
  {
    if e.TimerFires? {
      FiringKeepsReports(w, e.timer, t);
    } else if e.TimerReports? {
      OtherReportKeeps(cfg, w, e.timer, t);
    } else {
      StepKeepsEveryTimer(cfg, w, e);
    }
  }

  lemma FiringKeepsReports(w: World, u: Timer, t: Timer)
    requires t.Reporting? && t in w.timers
    ensures t in FireTimer(w, u).timers
  {
  }

  lemma OtherReportKeeps(cfg: Config, w: World, u: Timer, t: Timer)
    requires t in w.timers && u != t
    ensures t in ReportTimer(cfg, w, u).timers
  {
  }

  /** The handler shows a leaderboard after ending a question and one after ending the game, and so
      does a client that connects to a started game; the last block drops the ranking key. */
  lemma HandlerReports(cfg: Config, start: int, es: seq<Event>)
    requires ValidConfig(cfg)
    ensures var w := After(cfg, start, es);
      && (w.handler.ReportingEnd? || w.handler.ReportingFinal? ==>
            ShowsNewBoard(w, Step(cfg, w, HandlerStep)))
      && (w.handler.Clearing? ==> Step(cfg, w, HandlerStep).room.cache.ranking.None?)
      && (w.room.db.status != Waiting ==> ShowsNewBoard(w, Step(cfg, w, ViewResults)))
  {
    var w := After(cfg, start, es);
    AnswersInRuns(cfg, start, es);
    ShowBoardShows(w);
    HandlerReportsFrom(cfg, w);
    if w.room.db.status != Waiting {
      ViewReports(cfg, w);
    }
  }

  lemma HandlerReportsFrom(cfg: Config, w: World)
    requires PositiveLimits(cfg)
    ensures w.handler.ReportingEnd? ==> Step(cfg, w, HandlerStep) == ShowBoard(w).(handler := Idle)
    ensures w.handler.ReportingFinal? ==> Step(cfg, w, HandlerStep) == ShowBoard(w).(handler := Clearing)
    ensures w.handler.Clearing? ==> Step(cfg, w, HandlerStep) == ForgetRanking(w).(handler := Idle)
  {
  }

  lemma ViewReports(cfg: Config, w: World)
    requires PositiveLimits(cfg) && w.room.db.status != Waiting
    ensures Step(cfg, w, ViewResults) == ShowBoard(w)
  {
  }

  /** Whoever ends a question or the game owes a report: a timeout leaves its task pending, and the
      handler moves on to its reporting block. */
  lemma EndingOwesReport(cfg: Config, w: World, t: Timer)
    ensures FireTimer(w, t).room != w.room ==> Reporting(t.index) in FireTimer(w, t).timers
    ensures w.handler.ForcingEnd? ==> StepHandler(cfg, w).handler.ReportingEnd?
    ensures w.handler.Ending? ==> StepHandler(cfg, w).handler.ReportingFinal?
  {
  }
}
