# AskIt: verified models of the quiz backend

Dafny models of the stateful parts of the backend, with proofs over all their runs. `dafny verify
dfyconfig.toml` checks everything.

- **The running game.** `GameModel` holds the rows and Redis keys of one room and each atomic block
  of `GameService` and the WebSocket handlers as a function. `GameWorld` interleaves the host's
  handler (a program with a position), any number of detached timeout tasks, joining and answering
  players, clients that open a leaderboard, the clock, arbitrary loss of Redis keys and handler
  failures. `GameControl` and `GameRuns` prove the inductive invariant and what follows for status
  and index; `GameTimers`, `GameDue` and `GameEnding` say which questions end, when, and which games
  can. `GameAnswers`, `GameTiming`, `GameFeed`, `GameBoards`, `GameDistribution` and `GameRoster`
  prove what a run keeps about scores, timing, the host's feed,
  leaderboards, distributions and players. `Scoring`, `Sorting` and `Leaderboard` are the pure
  parts. In `GameRoom` the same operations update a room in place, and every method is proved equal
  to the function used in the interleaving.
- **Tokens and lockout.** `AuthModel` has tokens, versions, the expiring denylist, auto-refresh and
  the failure counter, with real time arithmetic. `AuthTokens`, `AuthRefresh`, `AuthAccounts` and
  `Lockout` prove what holds over runs; `AuthServer` is the in-place form, a class that keeps their
  invariants.
- **Connections.** `Connections` holds the four maps of the connection manager and their invariant
  over any sequence of connects and disconnects; `Broadcasts` says whom a message that is to leave
  one player out reaches, also while sockets come and go during the send; `LocalConnections` is the
  in-place form.
- **Quizzes.** `QuizSchemas` (validators), `QuizService` (create, update, publish, delete),
  `QuizExport` (export and import), `QuizDatabase` (in-place form), `QuizStats` (single and batched
  statistics) and `QuizPlay`, which joins a stored quiz to the game played on it. `Text` is `strip`
  and `lower` over any lawful character tables.

## Assumptions

- One host message is handled at a time. Atomic steps are: a timer's guard and commit
  (app/game/router.py:623-632), a submission (app/game/services.py:380-461), a join, a leaderboard,
  and each single store call. Between them anything may happen; the host's read and its later
  commit are separate steps.
- The quiz is fixed while a game on it runs (`QuizService.PublishedIsFrozen` gives this while the
  creator leaves it published). Room codes are already in upper case.
- The rows of players, submitted answers and sessions load in one fixed order. The tags of a quiz and
  the answers of a question may load in any order, different for every read.
- Arithmetic is exact. The clock never goes backwards. Store calls succeed, except where a handler
  fails (`HandlerFails`). The game's Redis keys may vanish at any time; denylist entries and
  counters live exactly until their expiry.
- UUIDs are fresh. Signatures cannot be forged: a client presents issued tokens or other text, and
  each token has exactly one text form, since the denylist goes by the text
  (app/core/security.py:20-26). Password hashing and verification are uninterpreted
  functions; where a result needs that a password verifies against its own hash, it says so. A login, a
  refresh or a password change is one step. A socket connects once and leaves with the room and
  player it came with.
- A request that raises is rolled back.

## Where the code differs from what it says or suggests

- app/quiz/schemas.py:64-65 says that a client reads back the tag list it sent. Neither tags nor
  answers are loaded with an ordering (app/models/quiz.py:102-104, 125-130), so an export may list
  both in any order and an import need not export to the same document.
  `QuizExport.RoundTripExactWhenOrderFree` says exactly for which quizzes it must, and
  `QuizExport.TwoTagsComeBackChanged` and `QuizExport.TwoAnswersComeBackChanged` give two for which
  it need not.
- app/auth/router.py:132-134 calls a refresh token a single use. That is so at the refresh route
  (`AuthTokens.RedeemedOnce`), but the middleware mints access tokens from an unspent refresh token
  any number of times (`AuthRefresh.MintsUntilSpent`, `AuthRefresh.OneTokenMintsTwice`).
- A question is committed before its start time is stored (app/game/services.py:351-360). An answer
  between the two is timed from the previous question's start and can only lose points by it
  (`GameTiming.AnswerTiming`, `GameTiming.WindowCostsPoints`).
- A handler that fails between opening a question and creating its timeout task leaves a question
  that only the host can end (`GameTimers.EndsWithoutHost`, `GameTimers.DesertedIsReachable`), and not
  even the host once the order key is gone as well (`GameEnding.CanFinishUnlessStuck`,
  `GameEnding.StuckInQuestion`).
- Losing the order key ends the game at the next opening instead of failing it
  (`GameRuns.EndsInsteadOfOpening`, `GameEnding.FinishesUnplayed`).
- A broadcast that is to leave a player out leaves out only the socket registered for them, so it
  works if and only if every connection they have in the room is that one (`Broadcasts.ExclusionWorks`).
  A player who has connected twice is reached on the earlier connection, and, once that one closes,
  on the only one left (`Broadcasts.EarlierConnectionIsReached`, `Broadcasts.OnlyConnectionIsReached`).
  During a send each connection is judged at its own turn (`Broadcasts.LocalSendReachesRoom`).

## Model

| member | source | states |
|---|---|---|
| `GameControl.StepKeepsControl` | app/game/router.py:439-488 | The control invariant survives every step of every actor: it ties the handler's position between its read and its commit, the timers, the status, the index, the times and the order key together |
| `GameRuns.StepMoves` | app/game/services.py:256-353 | Any single step leaves status and index alone or makes one legal move: start, open exactly the next question, end the running one, or finish; although the advance itself has no status guard |
| `GameRuns.NeverBack` | app/game/router.py:668-676 | Over any continuation of any run the index never drops and finished is absorbing |
| `GameRuns.TimestampsFollowStatus` | app/game/services.py:266-271 | `started_at` is set exactly when the status is not waiting, `ended_at` exactly when it is finished |
| `GameRuns.TimestampsInOrder` | app/game/services.py:344-346 | In every run a game ended no earlier than it started, and neither lies in the future |
| `GameRuns.StartsByHost` | app/game/services.py:250-268 | A waiting game starts exactly when its host presses start with an order of the quiz, and its start is then |
| `GameRuns.ChangesBounded` | app/game/services.py:343-353 | A game of n questions changes status at most 2n + 2 times, since every change raises the progress measure by exactly one |
| `GameRuns.LateTimerHarmless` | app/game/router.py:612-632 | Once its question has ended, a timeout task changes nothing, however late it fires and whatever happens before |
| `GameTimers.EndsWithoutHost` | app/game/router.py:607-629 | In every reachable state a running question can end without the host if and only if its handler did not fail between opening it and creating its timeout task, or a handler is already forcing its end |
| `GameTimers.DesertedIsReachable` | app/game/router.py:583-609 | For every quiz and play order a run exists in which the handler fails before the timeout task; that question then runs on, whatever time passes |
| `GameTimers.FiredTimerEnds` | app/game/router.py:618-629 | In every continuation, once a question's timeout task fires at or after its due time, the question is over for good |
| `GameDue.OwnTimer` | app/game/router.py:607-609 | Every running question whose task its handler neither missed nor still has to create has a task of its own, due only after the limit, whose firing ends it in every continuation |
| `GameDue.NeverCutShort` | app/game/router.py:612-629 | A timeout that ends a question fires no earlier than its whole limit after its opening |
| `GameDue.DueIsAnnouncementPlusLimit` | app/game/router.py:596-618 | The task created for a question is due exactly that question's limit after its announcement |
| `GameEnding.CanFinishUnlessStuck` | app/game/router.py:439-488 | In every reachable state of a started game: unless it is stuck, presses, handler steps, clock and timeouts can still finish it; if it is stuck, nothing that anyone does ever will. Stuck means: handler gone before the first question, or a running question without order key and without timeout task |
| `GameEnding.StuckInQuestion` | app/game/router.py:583-609 | For every quiz with a question and every play order a run gets stuck in its first question |
| `GameEnding.StuckInCountdown` | app/game/router.py:416-436 | For every quiz and play order a run gets stuck before its first question |
| `GameRuns.ShownIsPrefix` | app/game/services.py:343-369 | At any time the opened questions are, without repeats, the first `index` of the chosen order |
| `GameRuns.FinishedCoversQuiz` | app/game/services.py:258-280 | If the order key is never lost, a finished game has opened every question exactly once, in the chosen order (by position unless shuffled), with exactly 2n + 2 status changes |
| `GameRuns.EndsInsteadOfOpening` | app/game/services.py:331-353 | A handler about to open a question finishes the game instead if and only if the order key is gone or all its questions were opened; otherwise it opens the next index |
| `GameEnding.FinishesUnplayed` | app/game/services.py:331-336 | For every quiz and play order a run that loses the order key right after it was written finishes without having shown a question |
| `GameControl.ChosenIsPermutation` | app/game/services.py:258-264 | Every order the game may start with lists each question of the quiz once |
| `GameAnswers.ScoreConservation` | app/game/services.py:427-456 | In every reachable state a player's score is the sum of the points of its rows; with c correct rows it lies in 100c..1000c and c is at most the index |
| `GameAnswers.SubmissionEffect` | app/game/services.py:371-476 | A refused submission changes nothing; an accepted one adds one row under a free key and moves one score by that row's points |
| `GameAnswers.SubmissionTakenIff` | app/game/services.py:384-459 | A submission is taken if and only if a question runs, it names it, and a known player without a row who is not listed sends it; the error otherwise is exact |
| `GameAnswers.AnsweredSetRefines` | app/game/services.py:387-461 | For every answered set reachable with arbitrary losses, `submit_answer` accepts and writes exactly what the unique key alone would; the errors differ if and only if a listed player of a running question names another question |
| `GameAnswers.AnswersInRuns` | app/game/services.py:427-461 | In every run: scores, unique rows and the answered set agree, and the start key never lies in the future |
| `GameTiming.AnswerTiming` | app/game/services.py:408-416 | With a start key written for its question an answer takes at most the time since the opening and scores at least its worth; while that key is pending, or after the handler failed before writing it, it takes at least that time and scores at most its worth; without a key it scores the minimum |
| `GameTiming.WindowCostsPoints` | app/game/services.py:351-360 | A reachable state in which a correct answer given the moment its question opens is timed as two seconds and scores 640 instead of 1000 |
| `GameFeed.ReconnectEqualsReplay` | app/game/services.py:719-752 | While the current question can be read, the feed rebuilt for a reconnecting host is, as a set, the updates sent for that question together with those about to be sent, total scores included |
| `GameFeed.RebuiltFeedDescribesRows` | app/game/services.py:729-752 | In every run each rebuilt update gives the player, nickname, grade, selection and time of a row of the question and that player's total over all rows, and every row of the question has one |
| `GameFeed.SentUpdatesDescribeRows` | app/game/router.py:508-522 | In every run each update sent live for the question opened last describes a row of it in the same way, as it is now |
| `GameBoards.ChangesCancelAndTelescope` | app/game/services.py:487-517 | In every run the changes of each leaderboard sum to zero, and since the ranking key was last absent a player's changes add up to first rank minus last rank |
| `GameBoards.TimeoutReports` | app/game/router.py:634-653 | In every run a timeout that has ended its question shows exactly one leaderboard when it reports, if the current question can be read: all players with the scores they have, and the stored ranking then gives each the rank shown |
| `GameBoards.HandlerReports` | app/game/router.py:457-466 | The handler shows such a leaderboard after ending a question and after ending the game, and so does connecting to a started game; then the ranking key is dropped |
| `GameBoards.EndingOwesReport` | app/game/router.py:630-632 | Whoever ends a question or the game owes a report: the task stays pending, the handler moves to its reporting block |
| `GameBoards.ReportStaysPending` | app/game/router.py:607-609 | Nothing but its own report removes a task that owes one |
| `GameDistribution.CountsSumToStoredOptions` | app/game/services.py:537-543 | The counts over the options sum to the number of stored ids that are options, repeats included |
| `GameDistribution.GradedByMarks` | app/game/services.py:420-425 | In every run a row is graded correct if and only if its player selected every option the quiz marks correct and nothing else |
| `GameDistribution.DistributionAgreesWithGrading` | app/game/services.py:521-543 | In every run an option marked correct is counted at least once per row graded correct, and such rows add nothing to any other option, even with repeated ids |
| `GameDistribution.EmptySelectionNeverCorrect` | app/game/services.py:421-425 | If every question has a correct option, no reachable row with an empty selection is correct or scores |
| `GameRoster.RosterInRuns` | app/game/services.py:201-221 | In every run nicknames differ even in lower case, the host is no player, the quiz's limit is kept; from the start on only scores change |
| `GameRoster.JoinsIff` | app/game/services.py:196-221 | A player is let in exactly while the game waits, if not its host, with a place free and a nickname nobody has in any case; each refusal has its own error; they start without points |
| `GameRoster.FinishedIsFinal` | app/game/services.py:380-386 | Once a game is finished its players, scores and rows never change again |
| `GameRoster.PrivateResultIsOwn` | app/game/router.py:656-665 | With private results each player is sent exactly one entry, their own, with their score and, in a finished game, the rank their history shows at every later time |
| `Scoring.ScoreIsIntegerFormula` | app/game/services.py:74-81 | The real-valued formula equals 100 plus an integer division, for every time and limit |
| `Scoring.ScoreBounds` | app/game/services.py:74-81 | A correct answer scores 100 to 1000; 1000 only at time zero, 100 exactly when less than a 900th of the limit was left |
| `Scoring.ScoreAntitoneInTime` | app/game/services.py:74-81 | Answering later never earns more |
| `Scoring.ScoreMonotoneInLimit` | app/game/services.py:74-81 | For the same time a longer limit never earns less |
| `Sorting.StableSortUnique` | app/game/services.py:487-487 | Sorted plus stable determines the list: any stable sort returns the same leaderboard order |
| `Leaderboard.EntriesInOrder` | app/game/services.py:487-511 | Ranks are 1..n in non-increasing score, one entry per player |
| `Leaderboard.EntriesShowPlayers` | app/game/services.py:497-511 | The entries show exactly the players, each with its own nickname and score |
| `Leaderboard.RankBetweenCounts` | app/game/services.py:487-511 | Each rank exceeds the number of strictly better players and is at most the number of players with at least that score |
| `Leaderboard.TiesKeepLoadOrder` | app/game/services.py:487-487 | Players with the same score are ranked in the order in which they load |
| `Leaderboard.StoredRankingIsBijection` | app/game/services.py:498-517 | The stored ranking maps the players one to one onto 1..n |
| `Leaderboard.ChangesSumToZero` | app/game/services.py:494-511 | Against any earlier ranking of the same players, or none, the changes sum to zero |
| `Leaderboard.ChangeIsRankDifference` | app/game/services.py:501-509 | Against an earlier ranking of the same players, a change is the earlier rank minus the new one |
| `Leaderboard.HistoryRankAgrees` | app/game/services.py:608-620 | The rank in a player's history is the rank on the leaderboard |
| `GameRoom.RoomState.JoinRoom` | app/game/services.py:188-234 | In-place form: all four refusals in order, the nickname loop, and the exact new state |
| `GameRoom.RoomState.StartGame` | app/game/services.py:250-271 | Guards, play order and commit, tied to the step the interleaving uses |
| `GameRoom.RoomState.GetCurrentQuestion` | app/game/services.py:290-318 | A question is found if and only if the order key is there, the index is inside it and the quiz has that question; it is then the one the key names at the index |
| `GameRoom.RoomState.Advance` | app/game/services.py:341-353 | Whatever the status, an index in the order is opened and exactly that index's timeout can end it; past the end the game is over for timeouts and answers |
| `GameRoom.RoomState.WriteOrder` | app/game/services.py:273-280 | With the key written, the current question at index k is the k-th question of the chosen order, for every order of the quiz |
| `GameRoom.RoomState.WriteQuestionStart` | app/game/services.py:355-360 | An answer given the moment the key is written takes no time and scores 1000 if it is right |
| `GameRoom.RoomState.ForceEnd` | app/game/router.py:455-456 | After a forced end no timeout task changes the room and every submission is refused as not active |
| `GameRoom.RoomState.Timeout` | app/game/router.py:623-632 | Ends the question only if index and status still match, after which no timeout and no answer has any effect; otherwise every other timeout is as it was |
| `GameRoom.RoomState.EndGame` | app/game/router.py:674-676 | After the end no timeout task changes the room, every submission is refused and nobody can join |
| `GameRoom.RoomState.SubmitAnswer` | app/game/services.py:380-476 | Every check in order, the joint commit of score and row, and the cache write; the answer is correct iff it selects exactly the options marked correct, and those ids are what the client is told |
| `GameRoom.RoomState.GetLeaderboard` | app/game/services.py:484-519 | The loop yields the entries of the sorted players and overwrites the stored ranking |
| `GameRoom.RoomState.ClearRankingState` | app/game/services.py:545-547 | The next leaderboard shows no change for anyone |
| `GameRoom.RoomState.ComputeAnswerDistribution` | app/game/services.py:521-543 | The nested loops count, per option, its multiplicity over all rows of the question |
| `GameRoom.RoomState.BuildHostAnswerDetails` | app/game/services.py:719-752 | The rebuilt feed is exactly the join of the question's rows with their players, each update giving that row's grade, selection and time and that player's nickname and score |
| `AuthTokens.RunKeepsGood` | app/auth/services/jwt_service.py:31-46 | In every run no token runs ahead of its account's version, denylist entries outlive the tokens they name, derived tokens carry their origin's version; versions and the denylist only grow |
| `AuthTokens.RevokedForever` | app/user/services/user_service.py:81-89 | After a version bump no older token, nor any access token auto-refreshed from one before or after, is accepted at any gate at any later time |
| `AuthTokens.PasswordChangeBumps` | app/user/router.py:42-77 | A password change stores the new hash, bumps the caller and leaves everyone else alone |
| `AuthTokens.PasswordChangeKeepsCaller` | app/user/router.py:52-72 | The pair a password change hands out is accepted at once by the guard and by refresh |
| `AuthTokens.DeactivationIsFinal` | app/user/services/user_service.py:30-36 | After a successful deactivation no token of the account, issued before or later, is accepted at any gate in any continuation |
| `AuthTokens.DeactivatedForever` | app/user/services/user_service.py:30-36 | No token of a deactivated account is ever accepted again, issued then or later |
| `AuthTokens.SpentForever` | app/core/security.py:24-32 | A denylisted token is refused by refresh and by auto-refresh at every later time: its entry cannot expire first |
| `AuthTokens.RedeemedOnce` | app/auth/router.py:116-142 | In any run a refresh token is redeemed at most once |
| `AuthTokens.LoggedOutForever` | app/auth/router.py:146-153 | A token presented to a logout is refused by refresh and mints nothing at every later time |
| `AuthTokens.FreshPairLives` | app/auth/services/jwt_service.py:34-46 | A freshly minted pair is not denylisted and, for an active account at that version, accepted |
| `AuthAccounts.LoginIff` | app/auth/services/auth_service.py:24-30 | A login succeeds if and only if the address is not locked and names an active account whose stored hash verifies the password; each error has its own exact condition |
| `AuthAccounts.LoginIsForAddress` | app/auth/services/auth_service.py:35-40 | The pair handed out is for the account of the address |
| `AuthAccounts.ChangesPasswordIff` | app/user/services/user_service.py:81-89 | A change succeeds if and only if the guard lets the caller through and their stored hash verifies the current password; otherwise nothing changes |
| `AuthAccounts.NewPasswordLogsIn` | app/user/services/user_service.py:84-86 | Until the next change or deactivation and while the address is not locked, the new password logs in, and the old one only if it verifies against the new hash |
| `AuthAccounts.RegisteredLogsIn` | app/auth/router.py:63-70 | The same for the password of a registration |
| `AuthAccounts.RegistersIff` | app/auth/router.py:63-72 | Registration succeeds if and only if key, address and user name are free, and adds an active account with the hash |
| `AuthAccounts.RunKeepsAccounts` | app/models/user.py:20-21 | In every run addresses and user names stay unique, and accounts nobody touched stay as they are |
| `AuthAccounts.OneCounterPerAddress` | app/core/security.py:48-51 | White space around an address and its letter case do not give it a second counter |
| `AuthAccounts.LifetimesAre` | app/auth/services/jwt_service.py:27-46 | An access token lives 3600 and a refresh token 604800 seconds from its whole second of issue, exactly |
| `AuthAccounts.GuardIff` | app/auth/dependencies.py:19-50 | The guard lets through exactly live access tokens of the current version of an active account |
| `AuthAccounts.RefreshIff` | app/auth/router.py:116-142 | A refresh succeeds exactly with a live, undenylisted refresh token of the current version of an active account, and hands out that account and version |
| `AuthAccounts.AutoRefreshIff` | app/core/middleware.py:43-64 | The middleware mints exactly for an expired access token with a live, undenylisted refresh token |
| `AuthRefresh.MintsUntilSpent` | app/core/middleware.py:53-64 | After any requests and until it expires, a live refresh token still mints a new access token of its account and version for a client with an expired one, if and only if no refresh and no logout has spent it |
| `AuthRefresh.OneTokenMintsTwice` | app/core/middleware.py:53-64 | A reachable state in which two requests with one refresh token are given two different, accepted access tokens |
| `Lockout.LockoutBound` | app/auth/router.py:92-104 | With no successful login in between, one counter lifetime holds at most 10 failed checks and any half-open 900 seconds at most 19 |
| `Lockout.NineteenReached` | app/core/security.py:54-60 | The bound is exact: a run with 19 failed checks in 900 seconds exists |
| `Lockout.LockedOut` | app/auth/router.py:92-94 | A login is refused unchecked if and only if the current lifetime holds ten failures and has not expired; trying does not extend it |
| `AuthServer.Server.RecordFailedLogin` | app/core/security.py:54-60 | Counts one more failure for this address and none for others; increment-then-expire is the modelled step |
| `AuthServer.Server.GetLoginAttempts` | app/core/security.py:68-71 | The number of failed checks in the current counter lifetime, at most ten, as the history of failures tells it |
| `AuthServer.Server.ResetLoginAttempts` | app/core/security.py:63-65 | Afterwards the address counts no attempts, every other address counts what it did, and the invariants hold |
| `AuthServer.Server.BlacklistRefreshToken` | app/core/security.py:24-26 | The cookie is denylisted at exactly the times before its ttl has passed; every other cookie is as before at every time |
| `AuthServer.Server.IsRefreshTokenBlacklisted` | app/core/security.py:29-32 | A listed token is refused by refresh and mints nothing by auto-refresh, whatever access token comes with it |
| `AuthServer.Server.CreateToken` | app/auth/services/jwt_service.py:31-46 | The token is unlike any issued before, not denylisted, and decodes to itself as its own kind only |
| `AuthServer.Server.LogIn` | app/auth/router.py:92-106 | Succeeds iff unlocked with a found, active account whose hash verifies the password; success resets the counter and hands out an accepted pair, wrong credentials count one more failure, any other refusal changes nothing |
| `AuthServer.Server.RotateTokens` | app/auth/router.py:116-142 | All refusals in order; on success the presented token is refused from then on and the new pair is accepted |
| `AuthServer.Server.LogOut` | app/auth/router.py:146-153 | Afterwards the presented token is refused by refresh and mints nothing; the invariants hold |
| `AuthServer.Server.Dispatch` | app/core/middleware.py:38-87 | Mints a new token only for an expired access token with an undenylisted valid refresh token; the guard then accepts the request if and only if that refresh token is of the current version and its account active |
| `AuthServer.Server.SetPassword` | app/user/services/user_service.py:81-89 | Succeeds iff the stored hash verifies the current password; then no token issued before is accepted by any gate and the new pair is; otherwise nothing changes |
| `AuthServer.Server.DeactivateAccount` | app/user/services/user_service.py:30-36 | No token issued for the account is accepted by any gate any more |
| `Connections.MapsConsistent` | app/game/connection_manager.py:23-78 | After any connects and disconnects: subscriptions are the non-empty rooms, no two players share a socket, registered sockets are in their rooms |
| `Connections.ArrivalRegisters` | app/game/connection_manager.py:23-60 | In every run whoever connects is registered, as the room's host or under their player id, is in the room, and no other entry changes |
| `Connections.LeavingUnregisters` | app/game/connection_manager.py:33-77 | Whoever leaves is out of the room and their entry gone, and no other entry changes |
| `Connections.PublishReachesRoom` | app/game/connection_manager.py:106-164 | One publish reaches every socket of the room except the excluded player's registered one, and only sockets of that player are left out |
| `Broadcasts.ExclusionWorks` | app/game/connection_manager.py:80-124 | After any connects and disconnects, a publish that is to leave a player out reaches no connection of theirs if and only if every connection they have in the room is the registered one |
| `Broadcasts.EarlierConnectionIsReached` | app/game/router.py:225-239 | A reachable state: a player who has connected twice is reached on the earlier connection |
| `Broadcasts.OnlyConnectionIsReached` | app/game/connection_manager.py:68-77 | A reachable state: once the earlier connection closes, the excluded player is reached on the only one left |
| `Broadcasts.LocalSendReachesRoom` | app/game/connection_manager.py:106-124 | Whatever connects and disconnects between two messages of a send, every socket copied from the room is sent the message once, unless it is the excluded player's registered one when its turn comes, and only then is it left out |
| `Broadcasts.QuietSendExcludesIff` | app/game/connection_manager.py:106-124 | A send during which the excluded player neither arrives nor leaves reaches no connection of theirs if and only if, when it begins, every connection they have in the room is registered |
| `Broadcasts.ReconnectingIsReached` | app/game/connection_manager.py:112-118 | A send that begins with the player's only connection registered still reaches it if they connect anew before its turn |
| `LocalConnections.ConnectionManager.ConnectPlayer` | app/game/connection_manager.py:51-60 | New maps after a player connects, subscribing a new room |
| `LocalConnections.ConnectionManager.DisconnectPlayer` | app/game/connection_manager.py:68-77 | New maps after it leaves, dropping and unsubscribing an emptied room and the player's entry whichever socket it holds |
| `LocalConnections.ConnectionManager.ConnectHostSocket` | app/game/connection_manager.py:23-30 | New maps after a host connects: its socket joins the room and becomes the room's host entry |
| `LocalConnections.ConnectionManager.DisconnectHostSocket` | app/game/connection_manager.py:33-40 | New maps after a host leaves: its socket leaves the room, and the host entry goes whichever socket it holds |
| `LocalConnections.ConnectionManager.SubscribeToRoom` | app/game/connection_manager.py:126-154 | Subscribes the room, once |
| `LocalConnections.ConnectionManager.UnsubscribeFromRoom` | app/game/connection_manager.py:156-164 | Nothing published reaches the room any more; other rooms are reached as before |
| `LocalConnections.ConnectionManager.SendToLocalRoom` | app/game/connection_manager.py:106-124 | Each socket of the room is sent the message once; only the excluded player's registered socket is left out, and it surely is when no two players share one |
| `Text.StripKeepsMiddle` | app/quiz/schemas.py:38-38 | Stripping keeps one contiguous piece and drops only white space around it |
| `QuizSchemas.TitleNormal` | app/quiz/schemas.py:29-38 | An accepted title is non-empty, at most 50 characters and stripped |
| `QuizSchemas.TagsNormal` | app/quiz/schemas.py:51-69 | Accepted tags are at most five, distinct, non-empty, at most 30 characters, stripped and in lower case; exactly the non-empty normal forms survive |
| `QuizSchemas.UniqueKeepsOrder` | app/quiz/schemas.py:64-66 | De-duplication keeps the order in which tags were first entered |
| `QuizSchemas.ValidationIdempotent` | app/quiz/schemas.py:134-157 | Validating a validated document changes nothing |
| `QuizSchemas.TitleAcceptedIff` | app/quiz/schemas.py:29-38 | A title is accepted iff it has at most 50 characters as sent and something other than white space; its stripped form is stored |
| `QuizSchemas.TagsAcceptedIff` | app/quiz/schemas.py:51-69 | Tags are accepted iff no normal form exceeds 30 characters and at most five differ; each is stored once |
| `QuizSchemas.DocumentAcceptedIff` | app/quiz/schemas.py:81-157 | A body is accepted iff title and tags are, with at most 300 characters of description, 1 to 30 players, private, and 5 to 300 seconds per question |
| `QuizSchemas.PatchAcceptedIff` | app/quiz/schemas.py:160-180 | The same for the fields an update gives |
| `QuizSchemas.CheckTags` | app/quiz/schemas.py:51-69 | The append loop and the de-duplicating pass compute that normalisation, errors included |
| `QuizService.RowsHoldDocument` | app/quiz/services.py:124-150 | Building rows succeeds if and only if every question has a correct answer; the rows then hold the document's content at positions 1..n under distinct keys |
| `QuizService.CreatedHoldsDocument` | app/quiz/services.py:108-157 | A quiz is created iff its document is valid and answerable; it then holds the validated document as a draft of its creator |
| `QuizService.UpdateAcceptedIff` | app/quiz/services.py:192-253 | A valid update is accepted iff it is for a draft of the caller and its questions are answerable; the error otherwise is exact |
| `QuizService.UpdatedHoldsFields` | app/quiz/services.py:207-253 | An accepted update stores the fields it gives, keeps the rest, and changes no other quiz |
| `QuizService.StatusSetIff` | app/quiz/services.py:275-285 | The status is set iff the quiz is the caller's and would not be published empty, and nothing else changes |
| `QuizService.DeletedIff` | app/quiz/services.py:292-309 | A quiz is deleted iff the caller created it, and only it |
| `QuizService.StoredQuizzesFit` | app/quiz/services.py:192-288 | After any requests every stored quiz is normalised, numbered 1..n, answerable, within its limits, and non-empty if published |
| `QuizService.PublishedIsFrozen` | app/quiz/services.py:204-205 | Until its creator unpublishes or deletes it, a published quiz does not change in any way |
| `QuizService.OnlyCreatorChanges` | app/quiz/services.py:201-202 | Requests of anyone but its creator leave a quiz unchanged |
| `QuizExport.ExportIsImportable` | app/quiz/services.py:503-536 | An export passes validation unchanged and its questions can be built, in whatever order its rows were read |
| `QuizExport.ExportHoldsQuiz` | app/quiz/services.py:503-536 | The export gives the quiz's title, description, settings and tags, and its questions by position with text, limit, mode and answers; only to its creator |
| `QuizExport.ExportImportRoundTrip` | app/quiz/router.py:138-145 | For every reachable quiz and however the two reads order their rows, exporting an imported export gives the same document up to the order of tags and answers, and the very same one if and only if the second read keeps the order of the imported rows |
| `QuizExport.RoundTripExactWhenOrderFree` | app/quiz/services.py:512-536 | The document survives the round trip under every order of the two reads if and only if the quiz has at most one tag and the answers of each question read alike |
| `QuizExport.TwoTagsComeBackChanged` | app/quiz/services.py:529-529 | A quiz of one request whose two tags come back in another order |
| `QuizExport.TwoAnswersComeBackChanged` | app/quiz/services.py:518-521 | A quiz of one request whose two answers come back in another order |
| `QuizDatabase.Quizzes.BuildQuestions` | app/quiz/services.py:124-150 | The loop over questions builds those rows or fails on the first question without a correct answer |
| `QuizDatabase.Quizzes.CreateQuiz` | app/quiz/services.py:108-157 | Validates, builds and stores under a fresh key; a refused request changes nothing |
| `QuizDatabase.Quizzes.UpdateQuiz` | app/quiz/services.py:192-263 | Refusals in order, then the given fields only; a failed update changes nothing |
| `QuizDatabase.Quizzes.SetQuizStatus` | app/quiz/services.py:265-290 | What is published has a question and refuses every valid update; a draft refuses none for being published |
| `QuizDatabase.Quizzes.DeleteQuiz` | app/quiz/services.py:292-309 | Nobody finds the quiz afterwards, and everybody finds every other quiz as before |
| `QuizPlay.OpenedQuizzesArePlayable` | app/game/services.py:96-121 | A room can only be opened on a non-empty quiz with distinct, answerable questions in position order, for 1 to 30 players |
| `QuizPlay.OpenedRoomHoldsQuiz` | app/game/services.py:96-121 | A room opens iff the caller created the quiz and it is published; its game asks the quiz's questions with their limits, options and marks |
| `QuizPlay.EmptySelectionFails` | app/game/services.py:421-425 | In every game on a stored quiz an empty selection is wrong and earns nothing |
| `QuizPlay.UnshuffledGameFollowsAuthor` | app/game/services.py:258-264 | A finished unshuffled game whose order key was kept has shown the author's questions in the author's order |
| `QuizStats.FloorAverageIs` | app/quiz/services.py:427-429 | The average is the one integer a with a·n ≤ sum < (a+1)·n |
| `QuizStats.StatsMean` | app/quiz/services.py:458-501 | Sessions, players, floor average of the players' scores, and floor average length in whole seconds of the sessions that have both times |
| `QuizStats.ListedPlayed` | app/quiz/services.py:481-489 | The players considered for the top list are exactly those of the sessions, with nickname, score and session start |
| `QuizStats.FinishedOfIs` | app/quiz/services.py:404-412 | The sessions counted are exactly the finished ones of the quiz |
| `QuizStats.TopTenBeatsRest` | app/quiz/services.py:439-456 | Top list and rest partition the players; no excluded player beats a listed one; ties go to the earlier row |
| `QuizStats.EachSingleIsSelection` | app/quiz/services.py:573-577 | Each owned id is answered with its single statistics, in the order requested and as often as requested; nothing else is |
| `QuizStats.GetBulkQuizStats` | app/quiz/services.py:538-577 | The batched query with its dictionary of lists returns exactly that |
| `QuizStats.ComputeQuizStats` | app/quiz/services.py:458-501 | The loops compute counts, floor averages and top list of the given sessions |
| `QuizStats.GetQuizStats` | app/quiz/services.py:391-456 | Single statistics, or the error for a missing or foreign quiz |

## Left out

- GameRuns.FinishedCoversQuiz: needs that the order key is kept, since without it the game ends early.
- LocalConnections.ConnectionManager.SendToLocalRoom: sees the maps as one snapshot; Broadcasts.LocalSendReachesRoom is about sockets that come and go during a send. A send that raises is logged by the program and counts as sent here.
- Lockout.LockoutBound: requests for one address are taken one at a time; concurrent checks of one address can exceed the bound.
- Scoring.ScoreIsIntegerFormula: exact arithmetic; rounding of floating-point numbers is not modelled.
- Text.StripKeepsMiddle: lower-casing is per character, so the context rule for a final Greek sigma is not modelled.
- Two host sockets acting at once, and races inside one transaction.
- A stale disconnect after a reconnect: the entry goes whichever socket it holds, so the newest socket need not stay routed.
- The host's WebSocket handshake, which checks signature and activity but not the token version.
- Room creation beyond its checks: code generation and the retry on a collision.
- Broadcast contents, countdown messages, answer shuffling and the immediate-feedback option.
- Listing, profile, favourite and history endpoints apart from the history rank; they only read or set single values.
- Deleting a quiz also deletes its sessions; the statistics take the session table as given.
- Column lengths, JSON and UUID parsing, cookies, rate limits, logging, migrations and settings.
- `close_all`, subscriber tasks that die on Redis errors, server restarts and lost in-memory timers.
- Publishing across several server processes: one process's sockets are modelled.
