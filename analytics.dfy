/** The analytics reductions: growth between two fifteen-day windows, the
    activity timeline, a user's totals and the global totals with the top
    countries. Each takes the rows its queries return; a failed query
    (`data` is null) is `None`. */
module Analytics {
  import opened Wrappers
  import opened Records
  import opened Sorting
  import Leaderboard
  import Scoring

  /** `rows.reduce((sum, r) => sum + f(r), 0)`. */
  function SumOf<T>(rows: seq<T>, f: T -> nat): nat
  {
    if rows == [] then 0 else SumOf(rows[..|rows| - 1], f) + f(rows[|rows| - 1])
  }

  lemma {:induction false} SumAppend<T>(a: seq<T>, b: seq<T>, f: T -> nat)
    ensures SumOf(a + b, f) == SumOf(a, f) + SumOf(b, f)
  {
    if b != [] {
      SumAppend(a, b[..|b| - 1], f);
      assert (a + b)[..|a + b| - 1] == a + b[..|b| - 1];
      assert (a + b)[|a + b| - 1] == b[|b| - 1];
      assert SumOf(a + b, f) == SumOf(a + b[..|b| - 1], f) + f(b[|b| - 1]);
    } else {
      assert a + b == a;
    }
  }

  /** `data?.reduce(...) || 0`: a failed query sums to zero. */
  function Total<T>(data: Option<seq<T>>, f: T -> nat): nat
  {
    if data.Some? then SumOf(data.value, f) else 0
  }

  /** `data || []`. */
  function OrEmpty<T>(data: Option<seq<T>>): seq<T>
  {
    if data.Some? then data.value else []
  }

  // getUserGrowthRate

  /** A `daily_stats` row; `date` is a day number. */
  datatype DailyRow = DailyRow(userId: Id, date: int, views: Option<nat>, upvotes: Option<nat>)

  function RowViews(d: DailyRow): nat { OrZero(d.views) }
  function RowUpvotes(d: DailyRow): nat { OrZero(d.upvotes) }

  /** The row is the user's and dated on or after `from` and, when there is
      a bound, before `until`. */
  predicate InWindow(d: DailyRow, user: Id, from: int, until: Option<int>)
  {
    d.userId == user && d.date >= from && (until.Some? ==> d.date < until.value)
  }

  /** The rows the `.eq`/`.gte`/`.lt` filters select, each as often as it
      occurs. */
  function StatsBetween(rows: seq<DailyRow>, user: Id, from: int, until: Option<int>): (r: seq<DailyRow>)
    ensures forall d :: d in r <==> d in rows && InWindow(d, user, from, until)
    ensures forall d :: multiset(r)[d] == if InWindow(d, user, from, until) then multiset(rows)[d] else 0
  {
    if rows == [] then []
    else
      var last := rows[|rows| - 1];
      assert rows == rows[..|rows| - 1] + [last];
      StatsBetween(rows[..|rows| - 1], user, from, until) + (if InWindow(last, user, from, until) then [last] else [])
  }

  /** The first query: from thirty days ago up to fifteen days ago. */
  function FirstPeriod(rows: seq<DailyRow>, user: Id, today: int): seq<DailyRow>
  {
    StatsBetween(rows, user, today - 30, Some(today - 15))
  }

  /** The second query: from fifteen days ago on. */
  function SecondPeriod(rows: seq<DailyRow>, user: Id, today: int): seq<DailyRow>
  {
    StatsBetween(rows, user, today - 15, None)
  }

  /** `Math.round(p / q)` for a positive `q`: the integer nearest to p / q,
      halves rounded up. */
  function RoundDiv(p: int, q: int): (r: int)
    requires q > 0
    ensures q * (2 * r - 1) <= 2 * p < q * (2 * r + 1)
  {
    var r := (2 * p + q) / (2 * q);
    assert 2 * p + q == (2 * q) * r + (2 * p + q) % (2 * q);
    assert (2 * q) * r == q * (2 * r);
    r
  }

  /** `r` is the percentage change from `first` to `second` rounded to the
      nearest integer, halves up: r - 1/2 <= 100 (second - first) / first < r + 1/2. */
  predicate RoundedChange(first: nat, second: nat, r: int)
    requires first > 0
  {
    first * (2 * r - 1) <= 200 * (second - first) < first * (2 * r + 1)
  }

  /** `Math.round(((second - first) / first) * 100)`, or 0 when the first
      period is empty. */
  function GrowthPercent(first: nat, second: nat): (r: int)
    ensures first == 0 ==> r == 0
    ensures first > 0 ==> RoundedChange(first, second, r)
  {
    if first > 0 then RoundDiv((second - first) * 100, first) else 0
  }

  datatype GrowthRate = GrowthRate(viewsGrowth: int, upvotesGrowth: int)

  /** `getUserGrowthRate` on the two queries' answers. */
  function GrowthRateOf(first: Option<seq<DailyRow>>, second: Option<seq<DailyRow>>): GrowthRate
  {
    GrowthRate(GrowthPercent(Total(first, RowViews), Total(second, RowViews)),
               GrowthPercent(Total(first, RowUpvotes), Total(second, RowUpvotes)))
  }

  /** `getUserGrowthRate` on the `daily_stats` table. */
  function UserGrowthRate(rows: seq<DailyRow>, user: Id, today: int): (g: GrowthRate)
    ensures SumOf(FirstPeriod(rows, user, today), RowViews) == 0 ==> g.viewsGrowth == 0
    ensures SumOf(FirstPeriod(rows, user, today), RowUpvotes) == 0 ==> g.upvotesGrowth == 0
    ensures var f := SumOf(FirstPeriod(rows, user, today), RowViews);
            f > 0 ==> RoundedChange(f, SumOf(SecondPeriod(rows, user, today), RowViews), g.viewsGrowth)
    ensures var f := SumOf(FirstPeriod(rows, user, today), RowUpvotes);
            f > 0 ==> RoundedChange(f, SumOf(SecondPeriod(rows, user, today), RowUpvotes), g.upvotesGrowth)
  {
    GrowthRateOf(Some(FirstPeriod(rows, user, today)), Some(SecondPeriod(rows, user, today)))
  }

  lemma MulMonotone(q: int, a: int, b: int)
    requires q > 0 && a <= b
    ensures q * a <= q * b
  {
  }

  /** The sign of the growth: it is at least +1 exactly when the second
      period is at least half a percent above the first, at most -1 exactly
      when it is more than half a percent below, and 0 in between. */
  lemma {:induction false} GrowthSign(first: nat, second: nat)
    requires first > 0
    ensures GrowthPercent(first, second) >= 1 <==> 200 * (second - first) >= first
    ensures GrowthPercent(first, second) <= -1 <==> 200 * (second - first) + first < 0
    ensures GrowthPercent(first, second) > 0 ==> second > first
    ensures second == first ==> GrowthPercent(first, second) == 0
  {
    var p, r := (second - first) * 100, GrowthPercent(first, second);
    if r >= 1 {
      MulMonotone(first, 1, 2 * r - 1);
    } else {
      MulMonotone(first, 2 * r + 1, 1);
    }
    if r <= -1 {
      MulMonotone(first, 2 * r + 1, -1);
    } else {
      MulMonotone(first, -1, 2 * r - 1);
    }
  }

  /** With no activity in the first period the growth is 0, whatever the
      second period holds. */
  lemma NoFirstPeriodNoGrowth(rows: seq<DailyRow>, user: Id, today: int)
    requires forall d :: d in rows && d.userId == user ==> d.date < today - 30 || d.date >= today - 15
    ensures UserGrowthRate(rows, user, today) == GrowthRate(0, 0)
  {
  }

  /** So the growth is not "positive iff the second period is larger": a
      0.1% rise rounds to 0. */
  lemma SmallRiseRoundsToZero()
    ensures GrowthPercent(1000, 1001) == 0
  {
  }

  lemma GrowthExamples()
    ensures GrowthPercent(10, 20) == 100
    ensures GrowthPercent(10, 0) == -100
    ensures GrowthPercent(8, 9) == 13
    ensures GrowthPercent(0, 50) == 0
  {
  }

  // getUserActivityTimeline

  /** A timeline item: its `type` is the constructor, its `data` the row. */
  datatype Activity = ProjectCreated(project: Project) | UpvoteGiven(vote: UpvoteRow)

  function Timestamp(a: Activity): int
  {
    match a
    case ProjectCreated(p) => p.createdAt
    case UpvoteGiven(u) => u.createdAt
  }

  function TagProjects(ps: seq<Project>): (r: seq<Activity>)
    ensures |r| == |ps|
    ensures forall i :: 0 <= i < |r| ==> r[i] == ProjectCreated(ps[i])
  {
    seq(|ps|, i requires 0 <= i < |ps| => ProjectCreated(ps[i]))
  }

  function TagUpvotes(us: seq<UpvoteRow>): (r: seq<Activity>)
    ensures |r| == |us|
    ensures forall i :: 0 <= i < |r| ==> r[i] == UpvoteGiven(us[i])
  {
    seq(|us|, i requires 0 <= i < |us| => UpvoteGiven(us[i]))
  }

  /** The merge of the two queries' answers, newest first. */
  function Timeline(projects: Option<seq<Project>>, upvotes: Option<seq<UpvoteRow>>): seq<Activity>
  {
    SortDesc(TagProjects(OrEmpty(projects)) + TagUpvotes(OrEmpty(upvotes)), Timestamp)
  }

  /** The user's projects created at or after `start`. */
  function ProjectsSince(ps: seq<Project>, user: Id, start: int): (r: seq<Project>)
    ensures forall p :: p in r <==> p in ps && p.userId == user && p.createdAt >= start
    ensures forall p :: multiset(r)[p] == if p.userId == user && p.createdAt >= start then multiset(ps)[p] else 0
  {
    if ps == [] then []
    else
      var last := ps[|ps| - 1];
      assert ps == ps[..|ps| - 1] + [last];
      ProjectsSince(ps[..|ps| - 1], user, start) + (if last.userId == user && last.createdAt >= start then [last] else [])
  }

  /** The upvotes the user gave at or after `start`. */
  function UpvotesGivenSince(us: seq<UpvoteRow>, user: Id, start: int): (r: seq<UpvoteRow>)
    ensures forall u :: u in r <==> u in us && u.voterId == user && u.createdAt >= start
    ensures forall u :: multiset(r)[u] == if u.voterId == user && u.createdAt >= start then multiset(us)[u] else 0
  {
    if us == [] then []
    else
      var last := us[|us| - 1];
      assert us == us[..|us| - 1] + [last];
      UpvotesGivenSince(us[..|us| - 1], user, start) + (if last.voterId == user && last.createdAt >= start then [last] else [])
  }

  /** `startDate`: `days` days before `now`. */
  function WindowStart(now: int, days: int): int
  {
    now - days * DayMs
  }

  /** `getUserActivityTimeline(userId, days)` on the two tables. */
  function ActivityTimeline(projects: seq<Project>, upvotes: seq<UpvoteRow>, user: Id, now: int, days: int): (t: seq<Activity>)
    ensures |t| == |ProjectsSince(projects, user, WindowStart(now, days))|
                 + |UpvotesGivenSince(upvotes, user, WindowStart(now, days))|
    ensures forall i, j :: 0 <= i < j < |t| ==> Timestamp(t[i]) >= Timestamp(t[j])
  {
    var start := WindowStart(now, days);
    Timeline(Some(ProjectsSince(projects, user, start)), Some(UpvotesGivenSince(upvotes, user, start)))
  }

  /** The timeline holds every project and every upvote once, tagged by its
      source, and nothing else; it is newest first. */
  lemma TimelineShape(projects: Option<seq<Project>>, upvotes: Option<seq<UpvoteRow>>)
    ensures var t := Timeline(projects, upvotes);
      && |t| == |OrEmpty(projects)| + |OrEmpty(upvotes)|
      && (forall i, j :: 0 <= i < j < |t| ==> Timestamp(t[i]) >= Timestamp(t[j]))
      && multiset(t) == multiset(TagProjects(OrEmpty(projects))) + multiset(TagUpvotes(OrEmpty(upvotes)))
  {
    var t := Timeline(projects, upvotes);
    assert forall i, j :: 0 <= i < j < |t| ==> Timestamp(t[i]) >= Timestamp(t[j]);
  }

  lemma TaggedMembers(ps: seq<Project>, us: seq<UpvoteRow>, p: Project, u: UpvoteRow)
    ensures ProjectCreated(p) in TagProjects(ps) <==> p in ps
    ensures UpvoteGiven(u) in TagUpvotes(us) <==> u in us
    ensures ProjectCreated(p) !in TagUpvotes(us) && UpvoteGiven(u) !in TagProjects(ps)
  {
    if p in ps {
      var i :| 0 <= i < |ps| && ps[i] == p;
      assert TagProjects(ps)[i] == ProjectCreated(p);
    }
    if u in us {
      var i :| 0 <= i < |us| && us[i] == u;
      assert TagUpvotes(us)[i] == UpvoteGiven(u);
    }
  }

  /** A project is on the timeline iff it was in its query's answer. */
  lemma TimelineProjects(projects: Option<seq<Project>>, upvotes: Option<seq<UpvoteRow>>, p: Project)
    ensures ProjectCreated(p) in Timeline(projects, upvotes) <==> p in OrEmpty(projects)
  {
    var ps, us := TagProjects(OrEmpty(projects)), TagUpvotes(OrEmpty(upvotes));
    var t := Timeline(projects, upvotes);
    assert multiset(t) == multiset(ps) + multiset(us);
    assert ProjectCreated(p) in t <==> ProjectCreated(p) in multiset(t);
    TaggedMembers(OrEmpty(projects), OrEmpty(upvotes), p, UpvoteRow("", "", ProfileTarget, 0));
  }

  /** An upvote is on the timeline iff it was in its query's answer. */
  lemma TimelineUpvotes(projects: Option<seq<Project>>, upvotes: Option<seq<UpvoteRow>>, u: UpvoteRow)
    ensures UpvoteGiven(u) in Timeline(projects, upvotes) <==> u in OrEmpty(upvotes)
  {
    var ps, us := TagProjects(OrEmpty(projects)), TagUpvotes(OrEmpty(upvotes));
    var t := Timeline(projects, upvotes);
    assert multiset(t) == multiset(ps) + multiset(us);
    assert UpvoteGiven(u) in t <==> UpvoteGiven(u) in multiset(t);
    TaggedMembers(OrEmpty(projects), OrEmpty(upvotes), Project("", "", "", None, None, 0), u);
  }

  /** Every project on the timeline is the user's own and inside the
      window. */
  lemma TimelineWindowProjects(projects: seq<Project>, upvotes: seq<UpvoteRow>, user: Id, now: int, days: int, p: Project)
    requires ProjectCreated(p) in ActivityTimeline(projects, upvotes, user, now, days)
    ensures p in projects && p.userId == user && p.createdAt >= WindowStart(now, days)
  {
    var start := WindowStart(now, days);
    TimelineProjects(Some(ProjectsSince(projects, user, start)), Some(UpvotesGivenSince(upvotes, user, start)), p);
  }

  /** Every upvote on the timeline is one the user gave inside the window. */
  lemma TimelineWindowUpvotes(projects: seq<Project>, upvotes: seq<UpvoteRow>, user: Id, now: int, days: int, u: UpvoteRow)
    requires UpvoteGiven(u) in ActivityTimeline(projects, upvotes, user, now, days)
    ensures u in upvotes && u.voterId == user && u.createdAt >= WindowStart(now, days)
  {
    var start := WindowStart(now, days);
    TimelineUpvotes(Some(ProjectsSince(projects, user, start)), Some(UpvotesGivenSince(upvotes, user, start)), u);
  }

  /** Items with the same timestamp keep the merge order: projects first,
      each list in the order its query returned it. */
  lemma TimelineTiesKeepMergeOrder(projects: Option<seq<Project>>, upvotes: Option<seq<UpvoteRow>>, k: int)
    ensures WithKey(Timeline(projects, upvotes), Timestamp, k)
         == WithKey(TagProjects(OrEmpty(projects)), Timestamp, k) + WithKey(TagUpvotes(OrEmpty(upvotes)), Timestamp, k)
  {
    var ps, us := TagProjects(OrEmpty(projects)), TagUpvotes(OrEmpty(upvotes));
    SortDescStable(ps + us, Timestamp, k);
    WithKeyAppend(ps, us, Timestamp, k);
  }

  // getUserAnalytics

  function ProjectViews(p: Project): nat { OrZero(p.views) }
  function ProjectUpvotes(p: Project): nat { OrZero(p.upvotes) }

  datatype ProfileSummary = ProfileSummary(views: nat, upvotes: nat, streak: nat, badges: seq<string>, rank: nat)
  datatype ProjectSummary = ProjectSummary(total: nat, totalViews: nat, totalUpvotes: nat, list: seq<Project>)
  datatype Engagement = Engagement(views: nat, upvotes: nat)
  datatype UserAnalytics = UserAnalytics(
    profile: ProfileSummary, projects: ProjectSummary, dailyStats: seq<DailyRow>, totalEngagement: Engagement)

  /** `getUserAnalytics` on the answers of its three queries: no profile, no
      analytics. */
  function UserAnalyticsOf(profile: Option<Profile>, projects: Option<seq<Project>>,
                           dailyStats: Option<seq<DailyRow>>): (r: Option<UserAnalytics>)
    ensures r.Some? <==> profile.Some?
    ensures r.Some? ==> r.value.projects.total == |r.value.projects.list|
    ensures r.Some? ==> r.value.totalEngagement.views == r.value.profile.views + r.value.projects.totalViews
    ensures r.Some? ==> r.value.totalEngagement.upvotes == r.value.profile.upvotes + r.value.projects.totalUpvotes
  {
    match profile
    case None => None
    case Some(p) =>
      var views, upvotes := Total(projects, ProjectViews), Total(projects, ProjectUpvotes);
      Some(UserAnalytics(
        ProfileSummary(OrZero(p.views), OrZero(p.upvotes), OrZero(p.streak),
                       if p.badges.Some? then p.badges.value else [], OrZero(p.rank)),
        ProjectSummary(|OrEmpty(projects)|, views, upvotes, OrEmpty(projects)),
        OrEmpty(dailyStats),
        Engagement(OrZero(p.views) + views, OrZero(p.upvotes) + upvotes)))
  }

  /** One more project raises the project totals and the total engagement by
      exactly that project's counters. */
  lemma UserAnalyticsAddProject(profile: Profile, projects: seq<Project>, dailyStats: Option<seq<DailyRow>>, p: Project)
    ensures var before := UserAnalyticsOf(Some(profile), Some(projects), dailyStats).value;
            var after := UserAnalyticsOf(Some(profile), Some(projects + [p]), dailyStats).value;
      && after.projects.total == before.projects.total + 1
      && after.projects.totalViews == before.projects.totalViews + OrZero(p.views)
      && after.projects.totalUpvotes == before.projects.totalUpvotes + OrZero(p.upvotes)
      && after.totalEngagement.views == before.totalEngagement.views + OrZero(p.views)
      && after.totalEngagement.upvotes == before.totalEngagement.upvotes + OrZero(p.upvotes)
      && after.profile == before.profile
  {
    assert (projects + [p])[..|projects|] == projects;
  }

  /** A sum is at least each of its terms. */
  lemma {:induction false} SumAtLeastEach<T>(rows: seq<T>, f: T -> nat, i: nat)
    requires i < |rows|
    ensures SumOf(rows, f) >= f(rows[i])
  {
    if i < |rows| - 1 {
      SumAtLeastEach(rows[..|rows| - 1], f, i);
    }
  }

  /** The totals of two batches of projects add up, and the project views
      total is never below any one project's views. */
  lemma UserAnalyticsTotals(profile: Profile, a: seq<Project>, b: seq<Project>, dailyStats: Option<seq<DailyRow>>)
    ensures var all := UserAnalyticsOf(Some(profile), Some(a + b), dailyStats).value;
      && all.projects.totalViews == UserAnalyticsOf(Some(profile), Some(a), dailyStats).value.projects.totalViews
                                    + UserAnalyticsOf(Some(profile), Some(b), dailyStats).value.projects.totalViews
      && all.projects.totalUpvotes == UserAnalyticsOf(Some(profile), Some(a), dailyStats).value.projects.totalUpvotes
                                    + UserAnalyticsOf(Some(profile), Some(b), dailyStats).value.projects.totalUpvotes
      && (forall p :: p in a + b ==> all.projects.totalViews >= OrZero(p.views))
  {
    SumAppend(a, b, ProjectViews);
    SumAppend(a, b, ProjectUpvotes);
    forall p | p in a + b ensures SumOf(a + b, ProjectViews) >= OrZero(p.views) {
      var i :| 0 <= i < |a + b| && (a + b)[i] == p;
      SumAtLeastEach(a + b, ProjectViews, i);
    }
  }

  // getGlobalAnalytics: the country counts

  /** `if (p.location_country)`: null and "" are skipped. */
  predicate HasCountry(p: Profile)
  {
    p.country.Some? && p.country.value != ""
  }

  /** How many profiles give `c` as their country. */
  function CountryCount(profiles: seq<Profile>, c: string): nat
  {
    if profiles == [] then 0
    else
      var last := profiles[|profiles| - 1];
      CountryCount(profiles[..|profiles| - 1], c) + (if HasCountry(last) && last.country.value == c then 1 else 0)
  }

  /** The countries in the order a `Map` first receives them. */
  function CountriesInOrder(profiles: seq<Profile>): (r: seq<string>)
    ensures NoDuplicates(r)
    ensures forall c :: c in r <==> CountryCount(profiles, c) > 0
  {
    if profiles == [] then []
    else
      var last := profiles[|profiles| - 1];
      var prev := CountriesInOrder(profiles[..|profiles| - 1]);
      if HasCountry(last) && last.country.value !in prev then prev + [last.country.value] else prev
  }

  /** First-seen order: reading more profiles only appends countries, so
      the order of any prefix's countries is kept. */
  lemma {:induction false} CountriesFirstSeen(profiles: seq<Profile>, k: nat)
    requires k <= |profiles|
    ensures CountriesInOrder(profiles[..k]) <= CountriesInOrder(profiles)
  {
    if k < |profiles| {
      var init := profiles[..|profiles| - 1];
      assert init[..k] == profiles[..k];
      CountriesFirstSeen(init, k);
    } else {
      assert profiles[..k] == profiles;
    }
  }

  /** Countries with equal counts keep the map's insertion order through
      the sort; this order decides which of them survive the cut at ten. */
  lemma TallyTiesKeepMapOrder(profiles: seq<Profile>, n: int)
    ensures WithKey(SortDesc(CountryTally(profiles), EntryCount), EntryCount, n)
         == WithKey(CountryTally(profiles), EntryCount, n)
  {
    SortDescStable(CountryTally(profiles), EntryCount, n);
  }

  /** The `countryCounts` loop: one pass, a map of counts and the order in
      which the map first saw each key. */
  method CountCountries(profiles: seq<Profile>) returns (order: seq<string>, counts: map<string, nat>)
    ensures order == CountriesInOrder(profiles)
    ensures forall c :: c in counts <==> c in order
    ensures forall c :: c in counts ==> counts[c] == CountryCount(profiles, c)
  {
    order, counts := [], map[];
    var i := 0;
    while i < |profiles|
      invariant 0 <= i <= |profiles|
      invariant order == CountriesInOrder(profiles[..i])
      invariant forall c :: c in counts <==> c in order
      invariant forall c :: c in counts ==> counts[c] == CountryCount(profiles[..i], c)
    {
      assert profiles[..i + 1][..i] == profiles[..i];
      var p := profiles[i];
      if p.country.Some? && p.country.value != "" {
        var c := p.country.value;
        var count := if c in counts then counts[c] else 0;
        counts := counts[c := count + 1];
        if c !in order {
          order := order + [c];
        }
      }
      i := i + 1;
    }
    assert profiles[..|profiles|] == profiles;
  }

  datatype CountryEntry = CountryEntry(country: string, count: nat)

  function EntryCount(e: CountryEntry): int { e.count }

  /** `Array.from(countryCounts.entries()).map(...)`. */
  function CountryTally(profiles: seq<Profile>): (r: seq<CountryEntry>)
    ensures |r| == |CountriesInOrder(profiles)|
    ensures forall i :: 0 <= i < |r| ==>
      r[i] == CountryEntry(CountriesInOrder(profiles)[i], CountryCount(profiles, CountriesInOrder(profiles)[i]))
  {
    var order := CountriesInOrder(profiles);
    seq(|order|, i requires 0 <= i < |order| => CountryEntry(order[i], CountryCount(profiles, order[i])))
  }

  /** `.sort((a, b) => b.count - a.count).slice(0, 10)`. */
  function TopCountries(profiles: seq<Profile>): (top: seq<CountryEntry>)
    ensures |top| <= 10
    ensures forall i, j :: 0 <= i < j < |top| ==> top[i].count >= top[j].count
  {
    Take(SortDesc(CountryTally(profiles), EntryCount), 10)
  }

  method GetTopCountries(profiles: seq<Profile>) returns (top: seq<CountryEntry>)
    ensures top == TopCountries(profiles)
  {
    var order, counts := CountCountries(profiles);
    var entries := seq(|order|, i requires 0 <= i < |order| => CountryEntry(order[i], counts[order[i]]));
    assert entries == CountryTally(profiles);
    top := Take(SortDesc(entries, EntryCount), 10);
  }

  /** The tally has one entry per country, with its count. */
  lemma TallyFacts(profiles: seq<Profile>)
    ensures NoDuplicates(CountryTally(profiles))
    ensures forall e :: e in CountryTally(profiles) <==>
              CountryCount(profiles, e.country) > 0 && e.count == CountryCount(profiles, e.country)
  {
    var tally, order := CountryTally(profiles), CountriesInOrder(profiles);
    forall e ensures e in tally <==> CountryCount(profiles, e.country) > 0 && e.count == CountryCount(profiles, e.country) {
      if CountryCount(profiles, e.country) > 0 && e.count == CountryCount(profiles, e.country) {
        var k :| 0 <= k < |order| && order[k] == e.country;
        assert tally[k] == e;
      }
    }
  }

  /** The sorted tally: the same entries, still one per country. */
  lemma SortedTallyFacts(profiles: seq<Profile>)
    ensures var sorted := SortDesc(CountryTally(profiles), EntryCount);
      && NoDuplicates(sorted)
      && (forall e :: e in sorted <==>
            CountryCount(profiles, e.country) > 0 && e.count == CountryCount(profiles, e.country))
  {
    var tally := CountryTally(profiles);
    var sorted := SortDesc(tally, EntryCount);
    TallyFacts(profiles);
    PermutationDistinct(tally, sorted);
    assert forall e :: e in sorted <==> e in multiset(tally);
  }

  /** At most ten countries, most profiles first, each once with its true
      count. */
  lemma TopCountriesShape(profiles: seq<Profile>)
    ensures var top := TopCountries(profiles);
      && |top| <= 10
      && (forall i, j :: 0 <= i < j < |top| ==> top[i].count >= top[j].count)
      && (forall i, j :: 0 <= i < j < |top| ==> top[i].country != top[j].country)
      && (forall e :: e in top ==> e.count == CountryCount(profiles, e.country) && e.count > 0)
  {
    var sorted := SortDesc(CountryTally(profiles), EntryCount);
    var top := TopCountries(profiles);
    SortedTallyFacts(profiles);
    assert forall i :: 0 <= i < |top| ==> top[i] == sorted[i] && sorted[i] in sorted;
  }

  /** Every country left out has no more profiles than any country kept, and
      with ten countries or fewer none is left out. */
  lemma TopCountriesCut(profiles: seq<Profile>, c: string)
    requires CountryCount(profiles, c) > 0
    ensures var top := TopCountries(profiles);
      && ((forall f :: f in top ==> f.country != c) ==> forall e :: e in top ==> CountryCount(profiles, c) <= e.count)
      && (|CountriesInOrder(profiles)| <= 10 ==> exists e :: e in top && e.country == c)
  {
    var sorted := SortDesc(CountryTally(profiles), EntryCount);
    var top := TopCountries(profiles);
    SortedTallyFacts(profiles);
    var entry := CountryEntry(c, CountryCount(profiles, c));
    assert entry in sorted;
    var j :| 0 <= j < |sorted| && sorted[j] == entry;
    if j < |top| {
      assert top[j] == entry;
    } else {
      TopCutKeepsLargest(sorted, EntryCount, 10);
      forall e | e in top ensures CountryCount(profiles, c) <= e.count {
        var i :| 0 <= i < |top| && top[i] == e;
        assert EntryCount(Take(sorted, 10)[i]) >= EntryCount(sorted[j]);
      }
    }
  }

  // getGlobalAnalytics: the totals

  function ProfileViews(p: Profile): nat { OrZero(p.views) }
  function ProfileUpvotes(p: Profile): nat { OrZero(p.upvotes) }

  datatype GlobalAnalytics = GlobalAnalytics(
    totalUsers: nat, newThisWeek: nat, totalProjects: nat,
    totalViews: nat, totalUpvotes: nat, totalProfileUpvotes: nat,
    topCountries: seq<CountryEntry>)

  /** `getGlobalAnalytics` on the profile, project and upvote tables; a
      table whose query fails counts as empty. */
  function GlobalAnalyticsOf(profiles: Option<seq<Profile>>, projects: Option<seq<Project>>,
                             upvotes: Option<seq<UpvoteRow>>, now: int): (g: GlobalAnalytics)
    ensures g.newThisWeek <= g.totalUsers
    ensures |g.topCountries| <= 10
    ensures profiles.None? ==> g.totalUsers == 0 && g.totalViews == 0 && g.totalProfileUpvotes == 0
  {
    var ps := OrEmpty(profiles);
    GlobalAnalytics(
      |ps|, |Leaderboard.CreatedSince(ps, now - WeekMs)|, |OrEmpty(projects)|,
      Total(profiles, ProfileViews), |OrEmpty(upvotes)|, Total(profiles, ProfileUpvotes),
      TopCountries(ps))
  }

  /** The new users counted globally are exactly the newcomers leaderboard,
      and never more than all users. */
  lemma NewUsersAreNewcomers(profiles: seq<Profile>, projects: seq<Project>, upvotes: seq<UpvoteRow>, now: int)
    ensures var g := GlobalAnalyticsOf(Some(profiles), Some(projects), Some(upvotes), now);
      && g.newThisWeek == |Leaderboard.LeaderboardOf(Some(profiles), Some(projects), Scoring.Newcomers, now)|
      && g.newThisWeek <= g.totalUsers
  {
  }
}
