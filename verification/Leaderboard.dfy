/** Ranking the players of a room: app/game/services.py, `get_leaderboard` and the rank part of
    `get_game_history`. */
module Leaderboard {
  import opened Prelude
  import opened Sorting

  // Identifiers are opaque: only their equality matters.
  type PlayerId = nat
  type UserId = nat

  datatype Player = Player(id: PlayerId, nickname: string, user: Option<UserId>, score: int)

  datatype Entry = Entry(rank: nat, playerId: PlayerId, nickname: string, score: int, change: int)

  /** The ranking kept between leaderboards: player to rank, counted from one. */
  type Ranking = map<PlayerId, nat>

  function ScoreKey(p: Player): int { -p.score }

  /** `sorted(players, key=score, reverse=True)`. */
  function ByScore(players: seq<Player>): seq<Player> {
    StableSort(players, ScoreKey)
  }

  function PreviousRank(prev: Ranking, id: PlayerId, rank: nat): nat {
    if id in prev then prev[id] else rank
  }

  function EntryFor(p: Player, rank: nat, prev: Ranking): Entry {
    Entry(rank, p.id, p.nickname, p.score, PreviousRank(prev, p.id, rank) - rank)
  }

  function EntriesOf(ranked: seq<Player>, prev: Ranking): (r: seq<Entry>)
    ensures |r| == |ranked|
  {
    seq(|ranked|, i requires 0 <= i < |ranked| => EntryFor(ranked[i], i + 1, prev))
  }

  function RankingOf(ranked: seq<Player>): Ranking {
    if ranked == [] then map[]
    else RankingOf(ranked[..|ranked| - 1])[ranked[|ranked| - 1].id := |ranked|]
  }

  /** The entries shown for `players` when `prev` is the stored ranking. */
  function Entries(players: seq<Player>, prev: Ranking): seq<Entry> {
    EntriesOf(ByScore(players), prev)
  }

  /** The ranking stored after showing them. */
  function NewRanking(players: seq<Player>): Ranking {
    RankingOf(ByScore(players))
  }

  function FirstIndex(ranked: seq<Player>, id: PlayerId): Option<nat> {
    if ranked == [] then None
    else if ranked[0].id == id then Some(0)
    else match FirstIndex(ranked[1..], id)
         case None => None
         case Some(i) => Some(i + 1)
  }

  /** The rank shown in a player's game history. */
  function HistoryRank(players: seq<Player>, id: PlayerId): Option<nat> {
    match FirstIndex(ByScore(players), id)
    case None => None
    case Some(i) => Some(i + 1)
  }

  ghost predicate DistinctIds(players: seq<Player>) {
    forall i, j :: 0 <= i < j < |players| ==> players[i].id != players[j].id
  }

  ghost predicate SameIds(a: seq<Player>, b: seq<Player>) {
    |a| == |b| && forall i :: 0 <= i < |a| ==> a[i].id == b[i].id
  }

  ghost predicate HasId(players: seq<Player>, id: PlayerId) {
    exists i :: 0 <= i < |players| && players[i].id == id
  }

  /** `prev` is what an earlier leaderboard of the same players stored, whatever their scores
      were at the time, or nothing at all. */
  ghost predicate StoredRanking(prev: Ranking, players: seq<Player>) {
    prev == map[] || exists earlier: seq<Player> :: SameIds(earlier, players) && prev == NewRanking(earlier)
  }

  // ---- Ranking is a bijection ----

  lemma SortedDistinct(players: seq<Player>)
    requires DistinctIds(players)
    ensures |ByScore(players)| == |players| && DistinctIds(ByScore(players))
    ensures forall id :: HasId(ByScore(players), id) <==> HasId(players, id)
  {
    SortSorts(players, ScoreKey);
    var t := ByScore(players);
    forall i, j | 0 <= i < j < |t| ensures t[i].id != t[j].id {
      if t[i].id == t[j].id {
        assert t[i] in multiset(players) && t[j] in multiset(players);
        var a :| 0 <= a < |players| && players[a] == t[i];
        var b :| 0 <= b < |players| && players[b] == t[j];
        assert a == b;
        TwiceInMultiset(t, i, j);
        OnceInMultiset(players, a);
      }
    }
    forall id ensures HasId(t, id) <==> HasId(players, id) {
      if HasId(t, id) {
        var i :| 0 <= i < |t| && t[i].id == id;
        assert t[i] in multiset(players);
      }
      if HasId(players, id) {
        var i :| 0 <= i < |players| && players[i].id == id;
        assert players[i] in multiset(t);
        assert players[i] in t;
      }
    }
  }

  lemma {:induction false} RankingAt(ranked: seq<Player>)
    requires DistinctIds(ranked)
    ensures forall i :: 0 <= i < |ranked| ==>
              ranked[i].id in RankingOf(ranked) && RankingOf(ranked)[ranked[i].id] == i + 1
    ensures forall id :: id in RankingOf(ranked) ==> HasId(ranked, id)
  {
    if ranked == [] {
    } else {
      var front := ranked[..|ranked| - 1];
      RankingAt(front);
      assert forall i :: 0 <= i < |front| ==> ranked[i] == front[i];
      forall id | id in RankingOf(ranked) ensures HasId(ranked, id) {
        if id == ranked[|ranked| - 1].id {
        } else {
          assert HasId(front, id);
          var i :| 0 <= i < |front| && front[i].id == id;
          assert ranked[i].id == id;
        }
      }
    }
  }

  ghost predicate SomeoneRanks(m: Ranking, k: int) {
    exists id :: id in m && m[id] == k
  }

  /** A stored ranking maps the players of the room one to one onto 1..n. */
  lemma StoredRankingIsBijection(players: seq<Player>)
    requires DistinctIds(players)
    ensures var m := NewRanking(players);
      && (forall id :: id in m <==> HasId(players, id))
      && (forall id :: id in m ==> 1 <= m[id] <= |players|)
      && (forall a, b :: a in m && b in m && a != b ==> m[a] != m[b])
      && (forall k :: 1 <= k <= |players| ==> SomeoneRanks(m, k))
  {
    SortedDistinct(players);
    var t := ByScore(players);
    RankingAt(t);
    var m := NewRanking(players);
    forall id | HasId(players, id) ensures id in m {
      assert HasId(t, id);
    }
    forall k | 1 <= k <= |players| ensures SomeoneRanks(m, k) {
      assert t[k - 1].id in m && m[t[k - 1].id] == k;
    }
    forall a, b | a in m && b in m && a != b ensures m[a] != m[b] {
      assert HasId(t, a) && HasId(t, b);
    }
    forall id | id in m ensures 1 <= m[id] <= |players| {
      assert HasId(t, id);
    }
  }

  // ---- What one leaderboard says ----

  ghost predicate Shows(e: Entry, p: Player) {
    e.playerId == p.id && e.nickname == p.nickname && e.score == p.score
  }

  /** Ranks are 1..n, best score first, no player twice. */
  lemma EntriesInOrder(players: seq<Player>, prev: Ranking)
    requires DistinctIds(players)
    ensures var es := Entries(players, prev);
      && |es| == |players|
      && (forall i :: 0 <= i < |es| ==> es[i].rank == i + 1)
      && (forall i, j :: 0 <= i < j < |es| ==> es[i].score >= es[j].score)
      && (forall i, j :: 0 <= i < j < |es| ==> es[i].playerId != es[j].playerId)
  {
    SortSorts(players, ScoreKey);
    SortedDistinct(players);
    var t := ByScore(players);
    var es := Entries(players, prev);
    forall i, j | 0 <= i < j < |es| ensures es[i].score >= es[j].score {
      assert ScoreKey(t[i]) <= ScoreKey(t[j]);
    }
  }

  /** Every entry shows a player of the room. */
  lemma EntryShowsPlayer(players: seq<Player>, prev: Ranking, i: nat) returns (p: Player)
    requires i < |Entries(players, prev)|
    ensures p in players && Shows(Entries(players, prev)[i], p)
  {
    SortSorts(players, ScoreKey);
    p := ByScore(players)[i];
    assert p in multiset(players);
  }

  /** Every player of the room has an entry. */
  lemma PlayerHasEntry(players: seq<Player>, prev: Ranking, p: Player) returns (i: nat)
    requires p in players
    ensures i < |Entries(players, prev)| && Shows(Entries(players, prev)[i], p)
  {
    SortSorts(players, ScoreKey);
    var t := ByScore(players);
    assert p in multiset(t);
    i :| 0 <= i < |t| && t[i] == p;
  }

  /** Every player of the room has an entry with its own nickname and score, and no one else does. */
  lemma EntriesShowPlayers(players: seq<Player>, prev: Ranking)
    ensures forall e :: e in Entries(players, prev) ==> exists p :: p in players && Shows(e, p)
    ensures forall p :: p in players ==> exists e :: e in Entries(players, prev) && Shows(e, p)
  {
    var es := Entries(players, prev);
    forall e | e in es ensures exists p :: p in players && Shows(e, p) {
      var i :| 0 <= i < |es| && es[i] == e;
      var p := EntryShowsPlayer(players, prev, i);
    }
    forall p | p in players ensures exists e :: e in es && Shows(e, p) {
      var i := PlayerHasEntry(players, prev, p);
      assert es[i] in es;
    }
  }

  /** How many players score more than `score`. */
  function Better(players: seq<Player>, score: int): int {
    Total(players, (p: Player) => if p.score > score then 1 else 0)
  }

  /** How many players score at least `score`. */
  function AtLeast(players: seq<Player>, score: int): int {
    Total(players, (p: Player) => if p.score >= score then 1 else 0)
  }

  lemma {:induction false} TotalOfNone(s: seq<Player>, f: Player -> int)
    requires forall i :: 0 <= i < |s| ==> f(s[i]) == 0
    ensures Total(s, f) == 0
  {
    if s != [] {
      TotalOfNone(s[1..], f);
    }
  }

  lemma {:induction false} TotalUpTo(s: seq<Player>, f: Player -> int, n: nat)
    requires n <= |s|
    requires forall i :: 0 <= i < |s| ==> 0 <= f(s[i]) <= 1
    ensures (forall i :: n <= i < |s| ==> f(s[i]) == 0) ==> Total(s, f) <= n
    ensures (forall i :: 0 <= i < n ==> f(s[i]) == 1) ==> Total(s, f) >= n
    ensures 0 <= Total(s, f)
  {
    if s == [] {
    } else if n == 0 {
      TotalUpTo(s[1..], f, 0);
    } else {
      TotalUpTo(s[1..], f, n - 1);
    }
  }

  /** A rank lies above the number of strictly better players and does not exceed the number of
      players who score at least as much. */
  lemma RankBetweenCounts(players: seq<Player>, prev: Ranking, i: nat)
    requires i < |Entries(players, prev)|
    ensures var e := Entries(players, prev)[i];
      Better(players, e.score) < e.rank <= AtLeast(players, e.score)
  {
    var t := ByScore(players);
    var score := t[i].score;
    SortSorts(players, ScoreKey);
    var above := (p: Player) => if p.score > score then 1 else 0;
    var level := (p: Player) => if p.score >= score then 1 else 0;
    SortTotal(players, ScoreKey, above);
    SortTotal(players, ScoreKey, level);
    forall j | i <= j < |t| ensures above(t[j]) == 0 {
      assert i < j ==> ScoreKey(t[i]) <= ScoreKey(t[j]);
    }
    TotalUpTo(t, above, i);
    forall j | 0 <= j < i + 1 ensures level(t[j]) == 1 {
      assert j < i ==> ScoreKey(t[j]) <= ScoreKey(t[i]);
    }
    TotalUpTo(t, level, i + 1);
  }

  lemma {:induction false} FirstIndexAt(ranked: seq<Player>, i: nat)
    requires DistinctIds(ranked) && i < |ranked|
    ensures FirstIndex(ranked, ranked[i].id) == Some(i)
  {
    if i > 0 {
      assert ranked[0].id != ranked[i].id;
      FirstIndexAt(ranked[1..], i - 1);
    }
  }

  /** The rank in a player's history is the rank on the leaderboard. */
  lemma HistoryRankAgrees(players: seq<Player>, prev: Ranking, i: nat)
    requires DistinctIds(players) && i < |players|
    ensures |Entries(players, prev)| == |players|
    ensures var e := Entries(players, prev)[i];
      HistoryRank(players, e.playerId) == Some(e.rank)
  {
    SortedDistinct(players);
    FirstIndexAt(ByScore(players), i);
  }

  // ---- Changes ----

  function ChangeOf(e: Entry): int { e.change }

  function SumOfChanges(es: seq<Entry>): int {
    Total(es, ChangeOf)
  }

  /** 1 + 2 + ... + n. */
  function Triangle(n: nat): nat {
    if n == 0 then 0 else n + Triangle(n - 1)
  }

  lemma {:induction false} TotalSnoc<T>(s: seq<T>, x: T, f: T -> int)
    ensures Total(s + [x], f) == Total(s, f) + f(x)
  {
    if s == [] {
      assert s + [x] == [x];
    } else {
      assert (s + [x])[1..] == s[1..] + [x];
      TotalSnoc(s[1..], x, f);
    }
  }

  lemma {:induction false} TotalOfRanks(ranked: seq<Player>, f: Player -> int)
    requires forall i :: 0 <= i < |ranked| ==> f(ranked[i]) == i + 1
    ensures Total(ranked, f) == Triangle(|ranked|)
  {
    if ranked == [] {
    } else {
      var front := ranked[..|ranked| - 1];
      assert ranked == front + [ranked[|ranked| - 1]];
      TotalOfRanks(front, f);
      TotalSnoc(front, ranked[|ranked| - 1], f);
    }
  }

  lemma {:induction false} TotalSameIds(a: seq<Player>, b: seq<Player>, f: Player -> int, g: Player -> int)
    requires |a| == |b| && forall i :: 0 <= i < |a| ==> f(a[i]) == g(b[i])
    ensures Total(a, f) == Total(b, g)
  {
    if a != [] {
      TotalSameIds(a[1..], b[1..], f, g);
    }
  }

  /** The changes of a board are previous ranks less new ranks. */
  lemma {:induction false} ChangesAsDifference(ranked: seq<Player>, prev: Ranking, f: Player -> int)
    requires forall i :: 0 <= i < |ranked| ==>
               f(ranked[i]) == PreviousRank(prev, ranked[i].id, i + 1)
    ensures SumOfChanges(EntriesOf(ranked, prev)) == Total(ranked, f) - Triangle(|ranked|)
  {
    if ranked == [] {
    } else {
      var n := |ranked|;
      var front := ranked[..n - 1];
      ChangesAsDifference(front, prev, f);
      assert ranked == front + [ranked[n - 1]];
      assert EntriesOf(ranked, prev) == EntriesOf(front, prev) + [EntryFor(ranked[n - 1], n, prev)];
      TotalSnoc(EntriesOf(front, prev), EntryFor(ranked[n - 1], n, prev), ChangeOf);
      TotalSnoc(front, ranked[n - 1], f);
    }
  }

  /** What one player gains another loses: the changes of a leaderboard sum to zero, whether it
      is the first one or follows any earlier board of the same players. */
  lemma ChangesSumToZero(players: seq<Player>, prev: Ranking)
    requires DistinctIds(players) && StoredRanking(prev, players)
    ensures SumOfChanges(Entries(players, prev)) == 0
  {
    SortedDistinct(players);
    var t := ByScore(players);
    if prev == map[] {
      RankingAt(t);
      var own := RankingOf(t);
      var f := (p: Player) => if p.id in own then own[p.id] else 0;
      ChangesAsDifference(t, prev, f);
      TotalOfRanks(t, f);
    } else {
      var before: seq<Player> :| SameIds(before, players) && prev == NewRanking(before);
      var f := (p: Player) => if p.id in prev then prev[p.id] else 0;
      forall i | 0 <= i < |t| ensures f(t[i]) == PreviousRank(prev, t[i].id, i + 1) {
        RankedBefore(players, before, t[i].id);
      }
      ChangesAsDifference(t, prev, f);
      SortTotal(players, ScoreKey, f);
      TotalSameIds(before, players, f, f);
      TotalOfStored(before, f);
    }
  }

  lemma RankedBefore(players: seq<Player>, before: seq<Player>, id: PlayerId)
    requires DistinctIds(players) && SameIds(before, players) && HasId(ByScore(players), id)
    ensures id in NewRanking(before)
  {
    SortedDistinct(players);
    StoredRankingIsBijection(before);
    var k :| 0 <= k < |players| && players[k].id == id;
    assert before[k].id == id;
    assert HasId(before, id);
  }

  lemma TotalOfStored(before: seq<Player>, f: Player -> int)
    requires DistinctIds(before)
    requires var m := NewRanking(before);
      forall p: Player :: f(p) == if p.id in m then m[p.id] else 0
    ensures Total(before, f) == Triangle(|before|)
  {
    SortedDistinct(before);
    var u := ByScore(before);
    RankingAt(u);
    TotalOfRanks(u, f);
    SortTotal(before, ScoreKey, f);
  }

  /** The change shown for one player is the stored rank less the new one. */
  lemma ChangeIsRankDifference(players: seq<Player>, prev: Ranking, i: nat)
    requires DistinctIds(players) && i < |players|
    ensures |Entries(players, prev)| == |players|
    ensures var e := Entries(players, prev)[i];
      && e.playerId in NewRanking(players) && NewRanking(players)[e.playerId] == e.rank
      && e.change == PreviousRank(prev, e.playerId, e.rank) - e.rank
  {
    SortedDistinct(players);
    RankingAt(ByScore(players));
  }

  /** Players with the same score are ranked in the order in which they load. */
  lemma TiesKeepLoadOrder(players: seq<Player>, prev: Ranking, i: nat, j: nat) returns (p: nat, q: nat)
    requires i < j < |players| && players[i].score == players[j].score
    ensures p < q < |Entries(players, prev)|
    ensures Shows(Entries(players, prev)[p], players[i]) && Shows(Entries(players, prev)[q], players[j])
    ensures Entries(players, prev)[p].rank < Entries(players, prev)[q].rank
  {
    p, q := SortKeepsOrder(players, ScoreKey, i, j);
  }
}
