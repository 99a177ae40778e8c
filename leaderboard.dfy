/** `getLeaderboard`: every profile (or, for newcomers, every profile created
    in the last seven days), scored, sorted by score and ranked by position.
    The store is abstracted as the rows its two queries return. */
module Leaderboard {
  import opened Wrappers
  import opened Scoring
  import opened Sorting
  import opened Records

  function MetricsOf(p: Profile): Metrics
  {
    Metrics(p.upvotes, p.views, p.streak)
  }

  datatype Entry = Entry(
    userId: Id, username: string, displayName: string, avatar: string,
    rank: int, score: nat,
    views: Option<nat>, upvotes: Option<nat>, streak: Option<nat>,
    badges: Option<seq<string>>, projectCount: nat, email: string, createdAt: int)

  /** How many project rows belong to `u`. */
  function CountOwned(rows: seq<Project>, u: Id): nat
  {
    if rows == [] then 0
    else CountOwned(rows[..|rows| - 1], u) + (if rows[|rows| - 1].userId == u then 1 else 0)
  }

  /** `map.get(u) || 0`. */
  function Lookup(m: map<Id, nat>, u: Id): nat
  {
    if u in m then m[u] else 0
  }

  /** The `projectCountMap` loop: one pass over the rows, adding one to the
      owner's count each time. */
  method CountProjectsByUser(rows: seq<Project>) returns (counts: map<Id, nat>)
    ensures forall u :: Lookup(counts, u) == CountOwned(rows, u)
    ensures forall u :: u in counts ==> counts[u] > 0
  {
    counts := map[];
    var i := 0;
    while i < |rows|
      invariant 0 <= i <= |rows|
      invariant forall u :: Lookup(counts, u) == CountOwned(rows[..i], u)
      invariant forall u :: u in counts ==> counts[u] > 0
    {
      assert rows[..i + 1][..i] == rows[..i];
      var owner := rows[i].userId;
      var count := Lookup(counts, owner);
      counts := counts[owner := count + 1];
      i := i + 1;
    }
    assert rows[..|rows|] == rows;
  }

  /** The profiles created at or after `since`, in fetch order. */
  function CreatedSince(ps: seq<Profile>, since: int): (r: seq<Profile>)
    ensures forall p :: p in r <==> p in ps && p.createdAt >= since
    ensures forall p :: multiset(r)[p] == if p.createdAt >= since then multiset(ps)[p] else 0
    ensures |r| <= |ps|
  {
    if ps == [] then []
    else
      assert ps == [ps[0]] + ps[1..];
      (if ps[0].createdAt >= since then [ps[0]] else []) + CreatedSince(ps[1..], since)
  }

  /** The profiles the query returns for `sortBy`: only `newcomers` filters. */
  function Candidates(profiles: seq<Profile>, sortBy: Timeframe, now: int): seq<Profile>
  {
    if sortBy == Newcomers then CreatedSince(profiles, now - WeekMs) else profiles
  }

  /** The entry built for one profile, before ranking. */
  function EntryFor(p: Profile, projectCount: nat, sortBy: Timeframe): Entry
  {
    Entry(p.userId, p.username, p.displayName, p.avatar,
          0, CalculateScore(MetricsOf(p), sortBy),
          p.views, p.upvotes, p.streak, p.badges, projectCount, p.email, p.createdAt)
  }

  function ScoreOf(e: Entry): int
  {
    e.score
  }

  /** The entries of the candidates, in fetch order, with their project
      counts. */
  function EntriesOf(cands: seq<Profile>, rows: seq<Project>, sortBy: Timeframe): (r: seq<Entry>)
    ensures |r| == |cands|
    ensures forall i :: 0 <= i < |r| ==> r[i] == EntryFor(cands[i], CountOwned(rows, cands[i].userId), sortBy)
  {
    seq(|cands|, i requires 0 <= i < |cands| => EntryFor(cands[i], CountOwned(rows, cands[i].userId), sortBy))
  }

  /** `.map((entry, index) => ({ ...entry, rank: index + 1 }))`. */
  function Ranked(s: seq<Entry>): (r: seq<Entry>)
    ensures |r| == |s|
    ensures forall i :: 0 <= i < |r| ==> r[i] == s[i].(rank := i + 1)
  {
    seq(|s|, i requires 0 <= i < |s| => s[i].(rank := i + 1))
  }

  /** The entries with their rank reset to the 0 they are built with. */
  function Unranked(s: seq<Entry>): (r: seq<Entry>)
    ensures |r| == |s|
    ensures forall i :: 0 <= i < |r| ==> r[i] == s[i].(rank := 0)
  {
    seq(|s|, i requires 0 <= i < |s| => s[i].(rank := 0))
  }

  /** The whole pipeline on the rows the two queries return; a failed
      profile query (`!profiles`) gives the empty board, a failed project
      query counts no projects. */
  function LeaderboardOf(fetched: Option<seq<Profile>>, projectRows: Option<seq<Project>>,
                         sortBy: Timeframe, now: int): (board: seq<Entry>)
    ensures fetched.None? ==> board == []
    ensures fetched.Some? ==> |board| == |Candidates(fetched.value, sortBy, now)|
  {
    match fetched
    case None => []
    case Some(profiles) =>
      var rows := if projectRows.Some? then projectRows.value else [];
      Ranked(SortDesc(EntriesOf(Candidates(profiles, sortBy, now), rows, sortBy), ScoreOf))
  }

  /** `getLeaderboard`, with the store's answers and the clock as inputs. */
  method GetLeaderboard(fetched: Option<seq<Profile>>, projectRows: Option<seq<Project>>,
                        sortBy: Timeframe, now: int) returns (board: seq<Entry>)
    ensures board == LeaderboardOf(fetched, projectRows, sortBy, now)
  {
    if fetched.None? {
      return [];
    }
    var profiles := Candidates(fetched.value, sortBy, now);
    var rows := if projectRows.Some? then projectRows.value else [];
    var counts := CountProjectsByUser(rows);
    var entries := seq(|profiles|, i requires 0 <= i < |profiles| =>
                       EntryFor(profiles[i], Lookup(counts, profiles[i].userId), sortBy));
    assert entries == EntriesOf(profiles, rows, sortBy);
    board := Ranked(SortDesc(entries, ScoreOf));
  }

  /** Positions give the ranks: the entry at index i has rank i + 1, so ranks
      run 1..N with no gap and no tie; scores never increase down the board. */
  lemma LeaderboardRanked(fetched: Option<seq<Profile>>, projectRows: Option<seq<Project>>,
                          sortBy: Timeframe, now: int)
    ensures var board := LeaderboardOf(fetched, projectRows, sortBy, now);
      && (forall i :: 0 <= i < |board| ==> board[i].rank == i + 1)
      && (forall i, j :: 0 <= i < j < |board| ==> board[i].score >= board[j].score)
  {
    if fetched.Some? {
      var rows := if projectRows.Some? then projectRows.value else [];
      var sorted := SortDesc(EntriesOf(Candidates(fetched.value, sortBy, now), rows, sortBy), ScoreOf);
      var board := Ranked(sorted);
      assert board == LeaderboardOf(fetched, projectRows, sortBy, now);
      forall i, j | 0 <= i < j < |board| ensures board[i].score >= board[j].score {
        assert board[i].score == ScoreOf(sorted[i]) && board[j].score == ScoreOf(sorted[j]);
      }
    }
  }

  /** Entries are built with rank 0, and sorting keeps that, so dropping the
      ranks again gives back the sorted entries. */
  lemma SortedEntriesUnranked(entries: seq<Entry>)
    requires forall i :: 0 <= i < |entries| ==> entries[i].rank == 0
    ensures Unranked(Ranked(SortDesc(entries, ScoreOf))) == SortDesc(entries, ScoreOf)
  {
    var sorted := SortDesc(entries, ScoreOf);
    forall i | 0 <= i < |sorted| ensures Unranked(Ranked(sorted))[i] == sorted[i] {
      assert sorted[i] in multiset(entries);
    }
  }

  /** The board, ranks aside, is a permutation of the candidates' entries. */
  lemma {:induction false} LeaderboardIsPermutation(profiles: seq<Profile>, projectRows: Option<seq<Project>>,
                                   sortBy: Timeframe, now: int)
    ensures var rows := if projectRows.Some? then projectRows.value else [];
            var cands := Candidates(profiles, sortBy, now);
            multiset(Unranked(LeaderboardOf(Some(profiles), projectRows, sortBy, now)))
              == multiset(EntriesOf(cands, rows, sortBy))
  {
    var rows := if projectRows.Some? then projectRows.value else [];
    var entries := EntriesOf(Candidates(profiles, sortBy, now), rows, sortBy);
    var sorted := SortDesc(entries, ScoreOf);
    SortedEntriesUnranked(entries);
  }

  /** Every entry on the board is, rank aside, the entry of some candidate. */
  lemma BoardEntryFromCandidate(profiles: seq<Profile>, projectRows: Option<seq<Project>>,
                                sortBy: Timeframe, now: int, e: Entry)
    requires e in LeaderboardOf(Some(profiles), projectRows, sortBy, now)
    ensures var rows := if projectRows.Some? then projectRows.value else [];
      var cands := Candidates(profiles, sortBy, now);
      exists j :: 0 <= j < |cands| && EntryFor(cands[j], CountOwned(rows, cands[j].userId), sortBy) == e.(rank := 0)
  {
    var rows := if projectRows.Some? then projectRows.value else [];
    var entries := EntriesOf(Candidates(profiles, sortBy, now), rows, sortBy);
    var board := LeaderboardOf(Some(profiles), projectRows, sortBy, now);
    LeaderboardIsPermutation(profiles, projectRows, sortBy, now);
    var i :| 0 <= i < |board| && board[i] == e;
    assert Unranked(board)[i] == e.(rank := 0);
    assert e.(rank := 0) in multiset(entries);
    var j :| 0 <= j < |entries| && entries[j] == e.(rank := 0);
  }

  /** Every candidate's entry is, rank aside, on the board. */
  lemma CandidateOnBoard(profiles: seq<Profile>, projectRows: Option<seq<Project>>,
                         sortBy: Timeframe, now: int, j: nat)
    requires j < |Candidates(profiles, sortBy, now)|
    ensures var rows := if projectRows.Some? then projectRows.value else [];
      var cands := Candidates(profiles, sortBy, now);
      exists e :: e in LeaderboardOf(Some(profiles), projectRows, sortBy, now)
                  && e.(rank := 0) == EntryFor(cands[j], CountOwned(rows, cands[j].userId), sortBy)
  {
    var rows := if projectRows.Some? then projectRows.value else [];
    var entries := EntriesOf(Candidates(profiles, sortBy, now), rows, sortBy);
    var board := LeaderboardOf(Some(profiles), projectRows, sortBy, now);
    LeaderboardIsPermutation(profiles, projectRows, sortBy, now);
    assert entries[j] in multiset(Unranked(board));
    var i :| 0 <= i < |board| && Unranked(board)[i] == entries[j];
    assert board[i] in board;
  }

  /** Every entry's project count is the number of project rows its user
      owns, and its score is the weighted sum of its counters. */
  lemma LeaderboardCounts(profiles: seq<Profile>, projectRows: Option<seq<Project>>,
                          sortBy: Timeframe, now: int)
    ensures var rows := if projectRows.Some? then projectRows.value else [];
      forall e :: e in LeaderboardOf(Some(profiles), projectRows, sortBy, now) ==>
        && e.projectCount == CountOwned(rows, e.userId)
        && e.score == CalculateScore(Metrics(e.upvotes, e.views, e.streak), AllTime)
        && exists p :: p in Candidates(profiles, sortBy, now) && EntryFor(p, e.projectCount, sortBy) == e.(rank := 0)
  {
    var rows := if projectRows.Some? then projectRows.value else [];
    var cands := Candidates(profiles, sortBy, now);
    forall e | e in LeaderboardOf(Some(profiles), projectRows, sortBy, now)
      ensures e.projectCount == CountOwned(rows, e.userId)
      ensures e.score == CalculateScore(Metrics(e.upvotes, e.views, e.streak), AllTime)
      ensures exists p :: p in cands && EntryFor(p, e.projectCount, sortBy) == e.(rank := 0)
    {
      BoardEntryFromCandidate(profiles, projectRows, sortBy, now, e);
      var j :| 0 <= j < |cands| && EntryFor(cands[j], CountOwned(rows, cands[j].userId), sortBy) == e.(rank := 0);
      assert cands[j] in cands;
    }
  }

  /** For `newcomers` the board holds exactly the profiles created in the
      last seven days (the query has no upper bound on `created_at`). */
  /** One board entry of the newcomers board lies in the week's window. */
  lemma NewcomerEntryInWindow(profiles: seq<Profile>, projectRows: Option<seq<Project>>, now: int, e: Entry)
    requires e in LeaderboardOf(Some(profiles), projectRows, Newcomers, now)
    ensures e.createdAt >= now - WeekMs
  {
    var rows := if projectRows.Some? then projectRows.value else [];
    var cands := Candidates(profiles, Newcomers, now);
    BoardEntryFromCandidate(profiles, projectRows, Newcomers, now, e);
    var j :| 0 <= j < |cands| && EntryFor(cands[j], CountOwned(rows, cands[j].userId), Newcomers) == e.(rank := 0);
    assert cands[j] in cands;
  }

  /** One profile of the week's window is on the newcomers board. */
  lemma NewcomerOnBoard(profiles: seq<Profile>, projectRows: Option<seq<Project>>, now: int, p: Profile)
    requires p in profiles && p.createdAt >= now - WeekMs
    ensures exists e :: e in LeaderboardOf(Some(profiles), projectRows, Newcomers, now)
                        && e.userId == p.userId && e.createdAt == p.createdAt
  {
    var cands := Candidates(profiles, Newcomers, now);
    assert p in cands;
    var j :| 0 <= j < |cands| && cands[j] == p;
    CandidateOnBoard(profiles, projectRows, Newcomers, now, j);
  }

  lemma NewcomersWindow(profiles: seq<Profile>, projectRows: Option<seq<Project>>, now: int)
    ensures var board := LeaderboardOf(Some(profiles), projectRows, Newcomers, now);
      && (forall e :: e in board ==> e.createdAt >= now - WeekMs)
      && (forall p :: p in profiles && p.createdAt >= now - WeekMs ==>
            exists e :: e in board && e.userId == p.userId && e.createdAt == p.createdAt)
  {
    var board := LeaderboardOf(Some(profiles), projectRows, Newcomers, now);
    forall e | e in board ensures e.createdAt >= now - WeekMs {
      NewcomerEntryInWindow(profiles, projectRows, now, e);
    }
    forall p | p in profiles && p.createdAt >= now - WeekMs
      ensures exists e :: e in board && e.userId == p.userId && e.createdAt == p.createdAt
    {
      NewcomerOnBoard(profiles, projectRows, now, p);
    }
  }

  /** Equal scores keep fetch order: the entries with any one score appear
      on the board in the order their profiles were fetched. */
  lemma LeaderboardTiesKeepFetchOrder(profiles: seq<Profile>, projectRows: Option<seq<Project>>,
                                      sortBy: Timeframe, now: int, score: int)
    ensures var rows := if projectRows.Some? then projectRows.value else [];
      WithKey(Unranked(LeaderboardOf(Some(profiles), projectRows, sortBy, now)), ScoreOf, score)
        == WithKey(EntriesOf(Candidates(profiles, sortBy, now), rows, sortBy), ScoreOf, score)
  {
    var rows := if projectRows.Some? then projectRows.value else [];
    var entries := EntriesOf(Candidates(profiles, sortBy, now), rows, sortBy);
    var sorted := SortDesc(entries, ScoreOf);
    LeaderboardIsPermutation(profiles, projectRows, sortBy, now);
    SortedEntriesUnranked(entries);
    SortDescStable(entries, ScoreOf, score);
  }
}
