/** The landing page's leaderboard preview: the rank and badge lookups, the
    set of ranks the visitor has upvoted, and the top-ten table. The users
    and their score come from a local store that is not part of this model,
    so both are inputs. */
module Preview {
  import opened Sorting
  import Scoring

  const Gold: string := "🥇"
  const Silver: string := "🥈"
  const Bronze: string := "🥉"

  /** `getRankBadge`: a medal for the first three ranks, nothing after. */
  function GetRankBadge(rank: int): (r: string)
    ensures r != "" <==> 1 <= rank <= 3
    ensures rank == 1 ==> r == Gold
    ensures rank == 2 ==> r == Silver
    ensures rank == 3 ==> r == Bronze
  {
    if rank == 1 then Gold
    else if rank == 2 then Silver
    else if rank == 3 then Bronze
    else ""
  }

  const DefaultBorder: string := "border-[#E0DEDB]"

  /** `getBorderColor`. */
  function GetBorderColor(rank: int): (r: string)
    ensures r == DefaultBorder <==> !(1 <= rank <= 3)
  {
    if rank == 1 then "border-yellow-400"
    else if rank == 2 then "border-gray-300"
    else if rank == 3 then "border-orange-400"
    else DefaultBorder
  }

  /** `getBgGlow`. */
  function GetBgGlow(rank: int): (r: string)
    ensures r == "" <==> !(1 <= rank <= 3)
  {
    if rank == 1 then "shadow-yellow-400/30"
    else if rank == 2 then "shadow-gray-400/30"
    else if rank == 3 then "shadow-orange-400/30"
    else ""
  }

  /** The three podium ranks each get their own medal, border and glow. */
  lemma PodiumStylesDistinct(a: int, b: int)
    requires 1 <= a <= 3 && 1 <= b <= 3 && a != b
    ensures GetRankBadge(a) != GetRankBadge(b)
    ensures GetBorderColor(a) != GetBorderColor(b)
    ensures GetBgGlow(a) != GetBgGlow(b)
  {
    assert Gold[0] != Silver[0] && Silver[0] != Bronze[0] && Gold[0] != Bronze[0];
    assert "border-yellow-400"[7] != "border-gray-300"[7];
    assert "border-yellow-400"[7] != "border-orange-400"[7];
    assert "border-gray-300"[7] != "border-orange-400"[7];
    assert "shadow-yellow-400/30"[7] != "shadow-gray-400/30"[7];
    assert "shadow-yellow-400/30"[7] != "shadow-orange-400/30"[7];
    assert "shadow-gray-400/30"[7] != "shadow-orange-400/30"[7];
  }

  const FallbackEmoji: string := "🏅"

  /** `badgeMap` in `getBadgeEmoji`. */
  const BadgeEmojis: map<string, string> := map[
    "Bronze" := "🏆", "Silver" := "⭐", "Gold" := "🔥", "Diamond" := "💎",
    "Popular" := "🚀", "Trending" := "🎯", "Viral" := "⚡",
    "Consistent" := "🌟", "Dedicated" := "🎨", "Unstoppable" := "💫",
    "Builder" := "🏗️", "Prolific" := "📈"]

  /** `badgeMap[badgeName] || "🏅"`: every listed emoji is non-empty, so the
      fallback is taken exactly for names the map does not list. */
  function GetBadgeEmoji(name: string): (r: string)
    ensures name in BadgeEmojis ==> r == BadgeEmojis[name]
    ensures name !in BadgeEmojis ==> r == FallbackEmoji
  {
    if name in BadgeEmojis && BadgeEmojis[name] != "" then BadgeEmojis[name] else FallbackEmoji
  }

  /** The emoji of a badge the badge rules can award. */
  function EarnedEmoji(b: Scoring.Badge): string
  {
    match b
    case Bronze => "🏆"
    case Silver => "⭐"
    case Gold => "🔥"
    case Diamond => "💎"
    case Popular => "🚀"
    case Trending => "🎯"
    case Viral => "⚡"
    case Consistent => "🌟"
    case Dedicated => "🎨"
    case Unstoppable => "💫"
  }

  /** The emoji the lookup gives a badge the rules award is its own one,
      never the fallback. */
  lemma EarnedBadgeEmoji(b: Scoring.Badge)
    ensures GetBadgeEmoji(Scoring.Name(b)) == EarnedEmoji(b) != FallbackEmoji
  {
    assert Scoring.Name(b) in BadgeEmojis;
    assert EarnedEmoji(b)[0] != FallbackEmoji[0];
  }

  /** Every badge the rules award has its own emoji: never the fallback and
      never another badge's. */
  lemma EarnedBadgesHaveOwnEmoji(b: Scoring.Badge, b': Scoring.Badge)
    ensures GetBadgeEmoji(Scoring.Name(b)) == EarnedEmoji(b) != FallbackEmoji
    ensures b != b' ==> GetBadgeEmoji(Scoring.Name(b)) != GetBadgeEmoji(Scoring.Name(b'))
  {
    EarnedBadgeEmoji(b);
    EarnedBadgeEmoji(b');
    if b != b' {
      assert EarnedEmoji(b)[0] != EarnedEmoji(b')[0];
    }
  }

  /** `handleUpvote`'s updater: the new set is the old one with `rank`
      added when it was absent and removed when it was present. */
  function Toggled(prev: set<int>, rank: int): (next: set<int>)
    ensures forall r :: r in next <==> (r in prev <==> r != rank)
  {
    if rank in prev then prev - {rank} else prev + {rank}
  }

  /** The updater as the component runs it: copy the set, then delete or
      add. */
  method ToggleRank(prev: set<int>, rank: int) returns (next: set<int>)
    ensures next == Toggled(prev, rank)
    ensures rank in next <==> rank !in prev
    ensures forall r :: r != rank ==> (r in next <==> r in prev)
  {
    next := prev;
    if rank in next {
      next := next - {rank};
    } else {
      next := next + {rank};
    }
  }

  /** Toggling the same rank twice restores the set; toggles of two ranks
      commute. */
  lemma ToggleInvolution(s: set<int>, a: int, b: int)
    ensures Toggled(Toggled(s, a), a) == s
    ensures Toggled(Toggled(s, a), b) == Toggled(Toggled(s, b), a)
  {
  }

  /** `user.upvotes + (isUpvoted ? 1 : 0)`. */
  function DisplayedUpvotes(upvotes: nat, upvoted: set<int>, rank: int): (r: nat)
    ensures upvotes <= r <= upvotes + 1
    ensures r == upvotes + 1 <==> rank in upvoted
  {
    upvotes + if rank in upvoted then 1 else 0
  }

  /** A click moves its row's count by one, up or down, and no other rank's. */
  lemma ToggleMovesOneCount(upvotes: nat, s: set<int>, rank: int, other: int)
    ensures DisplayedUpvotes(upvotes, Toggled(s, rank), rank)
         == if rank in s then DisplayedUpvotes(upvotes, s, rank) - 1 else DisplayedUpvotes(upvotes, s, rank) + 1
    ensures other != rank ==> DisplayedUpvotes(upvotes, Toggled(s, rank), other) == DisplayedUpvotes(upvotes, s, other)
    ensures upvotes <= DisplayedUpvotes(upvotes, s, rank) <= upvotes + 1
  {
  }

  // The top-ten table

  /** A user of the local store, with the fields the table shows. */
  datatype User = User(displayName: string, avatar: string, upvotes: nat, streak: nat, views: nat, badges: seq<string>)

  datatype Row = Row(
    rank: int, name: string, score: int, badge: string, avatar: string,
    upvotes: nat, streak: nat, views: nat, badges: seq<string>, borderColor: string, bgGlow: string)

  function RowScore(r: Row): int { r.score }

  /** The row built for the user at `index` of the unsorted list. */
  function RowAt(users: seq<User>, index: nat, scoreOf: User -> int): Row
    requires index < |users|
  {
    var u := users[index];
    Row(index + 1, u.displayName, scoreOf(u), GetRankBadge(index + 1), u.avatar,
        u.upvotes, u.streak, u.views, u.badges, GetBorderColor(index + 1), GetBgGlow(index + 1))
  }

  function Rows(users: seq<User>, scoreOf: User -> int): (r: seq<Row>)
    ensures |r| == |users|
    ensures forall i :: 0 <= i < |r| ==> r[i] == RowAt(users, i, scoreOf)
  {
    seq(|users|, i requires 0 <= i < |users| => RowAt(users, i, scoreOf))
  }

  /** `leaderboardData` as written: ranks, medals and borders are assigned
      from the unsorted list, then the rows are sorted and cut to ten. */
  function LeaderboardData(users: seq<User>, scoreOf: User -> int): (data: seq<Row>)
    ensures |data| <= 10 && |data| <= |users|
    ensures |users| >= 10 ==> |data| == 10
  {
    Take(SortDesc(Rows(users, scoreOf), RowScore), 10)
  }

  /** Built rows carry their position as rank, so no two are equal. */
  lemma RowsDistinct(users: seq<User>, scoreOf: User -> int)
    ensures NoDuplicates(Rows(users, scoreOf))
  {
    var rows := Rows(users, scoreOf);
    forall i, j | 0 <= i < j < |rows| ensures rows[i] != rows[j] {
      assert rows[i].rank != rows[j].rank;
    }
  }

  /** The sorted rows are the built rows, each once. */
  lemma SortedRowsFacts(users: seq<User>, scoreOf: User -> int)
    ensures var sorted := SortDesc(Rows(users, scoreOf), RowScore);
      && NoDuplicates(sorted)
      && (forall r :: r in sorted ==> 1 <= r.rank <= |users| && r == RowAt(users, r.rank - 1, scoreOf))
  {
    var rows := Rows(users, scoreOf);
    var sorted := SortDesc(rows, RowScore);
    RowsDistinct(users, scoreOf);
    PermutationDistinct(rows, sorted);
    forall r | r in sorted ensures 1 <= r.rank <= |users| && r == RowAt(users, r.rank - 1, scoreOf) {
      assert r in multiset(rows);
      var i :| 0 <= i < |rows| && rows[i] == r;
    }
  }

  /** At most ten rows, highest score first. */
  lemma LeaderboardDataOrder(users: seq<User>, scoreOf: User -> int)
    ensures var data := LeaderboardData(users, scoreOf);
      && |data| == (if |users| <= 10 then |users| else 10)
      && (forall i, j :: 0 <= i < j < |data| ==> data[i].score >= data[j].score)
  {
    var sorted := SortDesc(Rows(users, scoreOf), RowScore);
    assert forall i, j :: 0 <= i < j < |sorted| ==> RowScore(sorted[i]) >= RowScore(sorted[j]);
  }

  /** Each row is the row of the user at position rank - 1 of the unsorted
      list, so no two rows share a rank. */
  lemma LeaderboardDataRows(users: seq<User>, scoreOf: User -> int)
    ensures var data := LeaderboardData(users, scoreOf);
      && (forall r :: r in data ==> 1 <= r.rank <= |users| && r == RowAt(users, r.rank - 1, scoreOf))
      && (forall i, j :: 0 <= i < j < |data| ==> data[i].rank != data[j].rank)
  {
    var sorted := SortDesc(Rows(users, scoreOf), RowScore);
    var data := LeaderboardData(users, scoreOf);
    SortedRowsFacts(users, scoreOf);
    forall r | r in data ensures 1 <= r.rank <= |users| && r == RowAt(users, r.rank - 1, scoreOf) {
      var i :| 0 <= i < |data| && data[i] == r;
      assert sorted[i] in sorted;
    }
    forall i, j | 0 <= i < j < |data| ensures data[i].rank != data[j].rank {
      assert sorted[i] in sorted && sorted[j] in sorted;
      assert sorted[i] != sorted[j];
    }
  }

  /** Two clicks on different rows never touch the same count: toggling one
      row's rank leaves every other row's displayed count as it was. */
  lemma ToggleTouchesOneRow(users: seq<User>, scoreOf: User -> int, s: set<int>, i: nat, j: nat)
    requires i < |LeaderboardData(users, scoreOf)| && j < |LeaderboardData(users, scoreOf)| && i != j
    ensures var data := LeaderboardData(users, scoreOf);
      DisplayedUpvotes(data[j].upvotes, Toggled(s, data[i].rank), data[j].rank)
        == DisplayedUpvotes(data[j].upvotes, s, data[j].rank)
  {
    LeaderboardDataRows(users, scoreOf);
  }

  /** The medal shown on the top row is the one for its place in the
      unsorted list: with a low scorer listed before a high scorer, the top
      row carries rank 2 and the silver medal. */
  lemma RankFromUnsortedPosition()
    ensures var users := [User("low", "", 0, 0, 0, []), User("high", "", 0, 0, 0, [])];
            var scoreOf := (u: User) => if u.displayName == "high" then 100 else 1;
            var data := LeaderboardData(users, scoreOf);
      && |data| == 2 && data[0].name == "high" && data[0].rank == 2 && data[0].badge == Silver
  {
    var users := [User("low", "", 0, 0, 0, []), User("high", "", 0, 0, 0, [])];
    var scoreOf := (u: User) => if u.displayName == "high" then 100 else 1;
    var rows := Rows(users, scoreOf);
    assert rows == [RowAt(users, 0, scoreOf), RowAt(users, 1, scoreOf)];
    assert rows[1..] == [rows[1]];
    assert SortDesc(rows[1..], RowScore) == [rows[1]];
  }

  /** `leaderboardData` with the rank and its styles assigned after the
      sort, as `getLeaderboard` does. */
  function LeaderboardDataCorrected(users: seq<User>, scoreOf: User -> int): (data: seq<Row>)
    ensures |data| == if |users| <= 10 then |users| else 10
  {
    var sorted := Take(SortDesc(Rows(users, scoreOf), RowScore), 10);
    seq(|sorted|, i requires 0 <= i < |sorted| =>
      sorted[i].(rank := i + 1, badge := GetRankBadge(i + 1),
                 borderColor := GetBorderColor(i + 1), bgGlow := GetBgGlow(i + 1)))
  }

  /** With ranks assigned after sorting, the row at position i has rank i + 1
      and that rank's medal, scores never increase, and the gold medal goes
      to a highest score. */
  lemma CorrectedRanksFollowScore(users: seq<User>, scoreOf: User -> int)
    ensures var data := LeaderboardDataCorrected(users, scoreOf);
      && (forall i :: 0 <= i < |data| ==> data[i].rank == i + 1 && data[i].badge == GetRankBadge(i + 1))
      && (forall i, j :: 0 <= i < j < |data| ==> data[i].score >= data[j].score)
      && (forall k :: 0 <= k < |users| && |data| > 0 ==> data[0].score >= scoreOf(users[k]))
  {
    var rows := Rows(users, scoreOf);
    var sorted := SortDesc(rows, RowScore);
    assert forall i, j :: 0 <= i < j < |sorted| ==> RowScore(sorted[i]) >= RowScore(sorted[j]);
    forall k | 0 <= k < |users| ensures RowScore(sorted[0]) >= scoreOf(users[k]) {
      assert rows[k] in rows;
      SortedHeadIsLargest(rows, RowScore, rows[k]);
    }
  }
}
