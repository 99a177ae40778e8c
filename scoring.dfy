/** Leaderboard score and achievement badges, both derived from a
    profile's three counters. */
module Scoring {
  import opened Wrappers
  import opened Sorting

  /** The `timeframe` / `sortBy` argument of the leaderboard. */
  datatype Timeframe = Today | Yesterday | AllTime | Newcomers

  /** The counters read from a profile; any of them may be missing. */
  datatype Metrics = Metrics(upvotes: Option<nat>, views: Option<nat>, streak: Option<nat>)

  const UpvoteWeight: nat := 40
  const ViewWeight: nat := 30
  const StreakWeight: nat := 20

  /** `calculateScore`: the weighted sum of the counters. The timeframe is
      accepted and ignored. */
  function CalculateScore(m: Metrics, timeframe: Timeframe): (r: nat)
    ensures r >= UpvoteWeight * OrZero(m.upvotes) && r >= ViewWeight * OrZero(m.views)
    ensures r >= StreakWeight * OrZero(m.streak)
    ensures r == 0 <==> OrZero(m.upvotes) == 0 && OrZero(m.views) == 0 && OrZero(m.streak) == 0
  {
    OrZero(m.upvotes) * UpvoteWeight + OrZero(m.views) * ViewWeight + OrZero(m.streak) * StreakWeight
  }

  /** The score is the same for every timeframe. */
  lemma ScoreIgnoresTimeframe(m: Metrics, t: Timeframe, t': Timeframe)
    ensures CalculateScore(m, t) == CalculateScore(m, t')
  {
  }

  /** A missing counter scores like a zero counter. */
  lemma ScoreMissingIsZero(m: Metrics, t: Timeframe)
    ensures CalculateScore(m, t)
         == CalculateScore(Metrics(Some(OrZero(m.upvotes)), Some(OrZero(m.views)), Some(OrZero(m.streak))), t)
  {
  }

  /** `a` has at least `b`'s value in every counter. */
  predicate Dominates(a: Metrics, b: Metrics)
  {
    && OrZero(a.upvotes) >= OrZero(b.upvotes)
    && OrZero(a.views) >= OrZero(b.views)
    && OrZero(a.streak) >= OrZero(b.streak)
  }

  /** More of every counter never lowers the score, and one more upvote,
      view or streak day adds exactly that counter's weight. */
  lemma ScoreMonotone(a: Metrics, b: Metrics, t: Timeframe)
    requires Dominates(a, b)
    ensures CalculateScore(a, t) >= CalculateScore(b, t)
    ensures CalculateScore(a, t) - CalculateScore(b, t)
         == UpvoteWeight * (OrZero(a.upvotes) - OrZero(b.upvotes))
          + ViewWeight * (OrZero(a.views) - OrZero(b.views))
          + StreakWeight * (OrZero(a.streak) - OrZero(b.streak))
  {
  }

  lemma ScoreExample()
    ensures CalculateScore(Metrics(Some(12), Some(150), Some(4)), AllTime) == 5060
  {
  }

  // Badges

  datatype Metric = UpvoteCount | ViewCount | StreakDays

  datatype Badge =
    | Bronze | Silver | Gold | Diamond
    | Popular | Trending | Viral
    | Consistent | Dedicated | Unstoppable

  function Name(b: Badge): string
  {
    match b
    case Bronze => "Bronze"
    case Silver => "Silver"
    case Gold => "Gold"
    case Diamond => "Diamond"
    case Popular => "Popular"
    case Trending => "Trending"
    case Viral => "Viral"
    case Consistent => "Consistent"
    case Dedicated => "Dedicated"
    case Unstoppable => "Unstoppable"
  }

  /** The counter a badge looks at. */
  function MetricOf(b: Badge): Metric
  {
    match b
    case Bronze | Silver | Gold | Diamond => UpvoteCount
    case Popular | Trending | Viral => ViewCount
    case Consistent | Dedicated | Unstoppable => StreakDays
  }

  /** The value that counter must reach. */
  function Threshold(b: Badge): nat
  {
    match b
    case Bronze => 10
    case Silver => 50
    case Gold => 200
    case Diamond => 10000
    case Popular => 100
    case Trending => 500
    case Viral => 2000
    case Consistent => 3
    case Dedicated => 7
    case Unstoppable => 30
  }

  /** The order in which the badge rules are tried. */
  const BadgeOrder: seq<Badge> :=
    [Bronze, Silver, Gold, Diamond, Popular, Trending, Viral, Consistent, Dedicated, Unstoppable]

  /** Where a badge's rule stands in that order. */
  function Position(b: Badge): (k: nat)
    ensures k < |BadgeOrder| && BadgeOrder[k] == b
  {
    match b
    case Bronze => 0
    case Silver => 1
    case Gold => 2
    case Diamond => 3
    case Popular => 4
    case Trending => 5
    case Viral => 6
    case Consistent => 7
    case Dedicated => 8
    case Unstoppable => 9
  }

  function Value(m: Metrics, metric: Metric): nat
  {
    match metric
    case UpvoteCount => OrZero(m.upvotes)
    case ViewCount => OrZero(m.views)
    case StreakDays => OrZero(m.streak)
  }

  predicate Earns(m: Metrics, b: Badge)
  {
    Value(m, MetricOf(b)) >= Threshold(b)
  }

  /** The names of the badges earned among the first `k` rules, in rule
      order. */
  function EarnedUpTo(k: nat, m: Metrics): seq<string>
    requires k <= |BadgeOrder|
  {
    if k == 0 then []
    else
      var b := BadgeOrder[k - 1];
      EarnedUpTo(k - 1, m) + (if Earns(m, b) then [Name(b)] else [])
  }

  /** The badge list the rule table gives a profile. */
  function BadgesFor(m: Metrics): seq<string>
  {
    EarnedUpTo(|BadgeOrder|, m)
  }

  /** `[...new Set(s)]`: the first occurrence of every element, in order. */
  function Dedup(s: seq<string>): (r: seq<string>)
    ensures forall x :: x in r <==> x in s
    ensures NoDuplicates(r)
    ensures NoDuplicates(s) ==> r == s
  {
    if s == [] then []
    else
      var init, last := s[..|s| - 1], s[|s| - 1];
      assert s == init + [last];
      var d := Dedup(init);
      if last in d then d else d + [last]
  }

  /** `generateBadges`: ten threshold rules, each pushing its label, then
      duplicates dropped. */
  method GenerateBadges(profile: Metrics) returns (badges: seq<string>)
    ensures badges == BadgesFor(profile)
  {
    var pushed: seq<string> := [];
    var upvotes, views, streak := OrZero(profile.upvotes), OrZero(profile.views), OrZero(profile.streak);

    // Tier badges, from upvotes
    if upvotes >= 10 { pushed := pushed + ["Bronze"]; }
    assert pushed == EarnedUpTo(1, profile);
    if upvotes >= 50 { pushed := pushed + ["Silver"]; }
    assert pushed == EarnedUpTo(2, profile);
    if upvotes >= 200 { pushed := pushed + ["Gold"]; }
    assert pushed == EarnedUpTo(3, profile);
    if upvotes >= 10000 { pushed := pushed + ["Diamond"]; }
    assert pushed == EarnedUpTo(4, profile);

    // From views
    if views >= 100 { pushed := pushed + ["Popular"]; }
    assert pushed == EarnedUpTo(5, profile);
    if views >= 500 { pushed := pushed + ["Trending"]; }
    assert pushed == EarnedUpTo(6, profile);
    if views >= 2000 { pushed := pushed + ["Viral"]; }
    assert pushed == EarnedUpTo(7, profile);

    // From the streak
    if streak >= 3 { pushed := pushed + ["Consistent"]; }
    assert pushed == EarnedUpTo(8, profile);
    if streak >= 7 { pushed := pushed + ["Dedicated"]; }
    assert pushed == EarnedUpTo(9, profile);
    if streak >= 30 { pushed := pushed + ["Unstoppable"]; }

    assert pushed == BadgesFor(profile);
    BadgesForShape(profile);
    badges := Dedup(pushed);
  }

  /** `x` occurs in `s` before `y` does. */
  predicate BeforeIn(s: seq<string>, x: string, y: string)
  {
    exists i, j :: 0 <= i < j < |s| && s[i] == x && s[j] == y
  }

  lemma NameInjective(a: Badge, b: Badge)
    requires Name(a) == Name(b)
    ensures a == b
  {
  }

  /** A badge's name is among the first `k` rules' output iff its rule is
      among them and its threshold is met. */
  lemma {:induction false} EarnedUpToMembers(k: nat, m: Metrics)
    requires k <= |BadgeOrder|
    ensures forall b: Badge :: Name(b) in EarnedUpTo(k, m) <==> Position(b) < k && Earns(m, b)
  {
    if k > 0 {
      EarnedUpToMembers(k - 1, m);
      var last := BadgeOrder[k - 1];
      assert Position(last) == k - 1;
      forall b: Badge ensures Name(b) in EarnedUpTo(k, m) <==> Position(b) < k && Earns(m, b) {
        if Name(b) == Name(last) { NameInjective(b, last); }
      }
    }
  }

  /** No name is output twice. */
  lemma {:induction false} EarnedUpToDistinct(k: nat, m: Metrics)
    requires k <= |BadgeOrder|
    ensures NoDuplicates(EarnedUpTo(k, m))
  {
    if k > 0 {
      EarnedUpToDistinct(k - 1, m);
      EarnedUpToMembers(k - 1, m);
      assert Position(BadgeOrder[k - 1]) == k - 1;
    }
  }

  /** Of two earned badges, the one whose rule comes first is output first. */
  lemma {:induction false} EarnedUpToOrder(k: nat, m: Metrics, b: Badge, b': Badge)
    requires k <= |BadgeOrder|
    requires Position(b) < Position(b') < k
    requires Earns(m, b) && Earns(m, b')
    ensures BeforeIn(EarnedUpTo(k, m), Name(b), Name(b'))
  {
    var prev, s := EarnedUpTo(k - 1, m), EarnedUpTo(k, m);
    EarnedUpToMembers(k - 1, m);
    if Position(b') < k - 1 {
      EarnedUpToOrder(k - 1, m, b, b');
      var i, j :| 0 <= i < j < |prev| && prev[i] == Name(b) && prev[j] == Name(b');
      assert s[i] == Name(b) && s[j] == Name(b');
    } else {
      assert BadgeOrder[k - 1] == b';
      var i :| 0 <= i < |prev| && prev[i] == Name(b);
      assert s[i] == Name(b) && s[|s| - 1] == Name(b');
    }
  }

  lemma BadgesForShape(m: Metrics)
    ensures forall b: Badge :: Name(b) in BadgesFor(m) <==> Earns(m, b)
    ensures NoDuplicates(BadgesFor(m))
    ensures forall b, b' :: Name(b) in BadgesFor(m) && Name(b') in BadgesFor(m) && Position(b) < Position(b')
              ==> BeforeIn(BadgesFor(m), Name(b), Name(b'))
  {
    EarnedUpToMembers(|BadgeOrder|, m);
    EarnedUpToDistinct(|BadgeOrder|, m);
    forall b, b' | Name(b) in BadgesFor(m) && Name(b') in BadgesFor(m) && Position(b) < Position(b')
      ensures BeforeIn(BadgesFor(m), Name(b), Name(b'))
    {
      EarnedUpToOrder(|BadgeOrder|, m, b, b');
    }
  }

  /** Badges are monotone: more of every counter keeps every badge. */
  lemma {:induction false} EarnedUpToMonotone(k: nat, a: Metrics, b: Metrics)
    requires k <= |BadgeOrder|
    requires Dominates(a, b)
    ensures forall n :: n in EarnedUpTo(k, b) ==> n in EarnedUpTo(k, a)
  {
    if k > 0 {
      EarnedUpToMonotone(k - 1, a, b);
    }
  }

  lemma BadgesMonotone(a: Metrics, b: Metrics)
    requires Dominates(a, b)
    ensures forall n :: n in BadgesFor(b) ==> n in BadgesFor(a)
  {
    EarnedUpToMonotone(|BadgeOrder|, a, b);
  }

  /** Reaching a tier earns every lower tier of the same counter too. */
  lemma TiersAccumulate(m: Metrics)
    ensures Earns(m, Diamond) ==> Earns(m, Gold)
    ensures Earns(m, Gold) ==> Earns(m, Silver)
    ensures Earns(m, Silver) ==> Earns(m, Bronze)
    ensures Earns(m, Viral) ==> Earns(m, Trending)
    ensures Earns(m, Trending) ==> Earns(m, Popular)
    ensures Earns(m, Unstoppable) ==> Earns(m, Dedicated)
    ensures Earns(m, Dedicated) ==> Earns(m, Consistent)
  {
  }

  lemma BadgesExample()
    ensures BadgesFor(Metrics(Some(12), Some(150), Some(4))) == ["Bronze", "Popular", "Consistent"]
  {
    var m := Metrics(Some(12), Some(150), Some(4));
    assert EarnedUpTo(4, m) == ["Bronze"];
    assert EarnedUpTo(7, m) == ["Bronze", "Popular"];
  }
}
