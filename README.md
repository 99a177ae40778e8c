# Builder leaderboard core, in Dafny

This project models the core of a developer-profile site backed by a hosted
relational store with four tables: `profiles`, `projects`, `upvotes` and
`daily_stats`. It covers:

- the leaderboard score and the achievement badges derived from a profile's
  counters;
- the leaderboard itself: candidate profiles, project counts per user,
  sorting by score and ranks by position;
- the upvote ledger: the "can upvote" check, adding and removing a profile
  upvote, adding a project upvote, counting project views and the per-day
  `daily_stats` rows;
- the analytics reductions: growth between two fifteen-day periods, the
  activity timeline, a user's totals and the global totals with the top
  countries;
- the Gmail-only sign-up check;
- the landing page's leaderboard preview: medal, border and glow per rank,
  badge emoji, the upvote toggle and the top-ten table.

Modules, one per concern:

| module | file | form |
|---|---|---|
| `Wrappers` | wrappers.dfy | `Option` (a nullable column or a failed query) and `x \|\| 0` |
| `Records` | records.dfy | the table rows the code reads |
| `Sorting` | sorting.dfy | the stable descending sort every `.sort((a, b) => key(b) - key(a))` in the code performs, and `.slice(0, n)` |
| `Email` | email.dfy | `isGmailEmail` / `validateEmail`, pure functions |
| `Scoring` | scoring.dfy | `calculateScore`; `generateBadges` as a method with its ten pushes, specified by a rule table |
| `Leaderboard` | leaderboard.dfy | `getLeaderboard`: the `projectCountMap` loop as a method, the rest as functions of the two queries' answers |
| `Ledger` | ledger.dfy | the tables as the fields of a `Store` class whose methods update them in place, each proved against a pure transition function |
| `Analytics` | analytics.dfy | growth rate, timeline, user and global analytics; the `countryCounts` loop as a method |
| `Preview` | preview.dfy | the preview component's helpers, its toggle and its table |

The store is never called. The leaderboard and the analytics take what
their queries return, with `None` for a query whose `data` is null. The
ledger reads its own tables, and those reads always succeed. The writes whose error the
code checks (the upvote inserts, the upvote delete and the views update)
take a boolean "fails" input, because the store decides that. The writes
whose error the code ignores are taken to succeed. The clock is an input:
`now` in milliseconds, `today` as a day number.

JavaScript's sort is stable, so `Sorting.SortDesc` is a stable insertion
sort. The tie order is stated by lemmas: `SortDescStable`,
`LeaderboardTiesKeepFetchOrder` and `TimelineTiesKeepMergeOrder`.

`.single()` returns a row only when exactly one row matches. The "can
upvote" check `!data` is therefore "the number of matching rows is not 1".
The ledger invariant `AtMostOnce` (no voter has two rows for one target)
is kept by every operation. Under it, the check is exactly "no row yet".

Two points of the code shape the model:

- The newcomer filter has only the lower bound `created_at >= now - 7 days`
  (lib/supabase-storage.ts:399-403). A profile dated in the future passes it.
- `removeProfileUpvote` lowers the counter whether or not a row was deleted
  (lib/supabase-storage.ts:220-232; see Findings).

## Model

| member | source | states |
|---|---|---|
| `Email.IsGmailEmail` | lib/supabase.ts:14-16 | true exactly when the lower-cased address is some string followed by "@gmail.com" |
| `Email.ValidateEmail` | lib/supabase.ts:19-35 | the empty address gets "Email is required"; a non-Gmail address gets the Gmail-only error; a Gmail address whose local part is empty or holds '@' or whitespace gets "Invalid Gmail format"; valid iff none of these, and valid iff there is no error |
| `Email.GmailPatternIsLocalPart` | lib/supabase.ts:28-32 | once `isGmailEmail` holds, the regex `^[^\s@]+@gmail\.com$/i` accepts exactly the addresses with a non-empty local part free of '@' and whitespace |
| `Email.ValidEmailShape` | lib/supabase.ts:19-35 | an accepted address splits into a non-empty local part without '@' or whitespace and a domain that lower-cases to "@gmail.com" |
| `Email.SplitAddress` | lib/supabase.ts:19-35 | conversely, every such split is a Gmail address, and the verdict depends only on the local part |
| `Email.EmptySuffixLocalRefused` | lib/supabase.ts:28-32 | "@gmail.com" alone is refused with the format error |
| `Email.SecondAtRefused` | lib/supabase.ts:28-32 | "a@b@gmail.com" is refused with the format error |
| `Email.OtherDomainRefused` | lib/supabase.ts:24-26 | "ann@yahoo.com" is refused with the Gmail-only error |
| `Email.MixedCaseAccepted` | lib/supabase.ts:14-35 | "Ann@GMail.COM" is accepted: both checks ignore letter case |
| `Scoring.CalculateScore` | lib/supabase-storage.ts:385-393 | the score is at least 40 per upvote, 30 per view and 20 per streak day, and it is 0 exactly when all three counters are 0 or null |
| `Scoring.ScoreIgnoresTimeframe` | lib/supabase-storage.ts:385-393 | the score is the same for every timeframe |
| `Scoring.ScoreMissingIsZero` | lib/supabase-storage.ts:386-388 | a null counter scores like a zero counter |
| `Scoring.ScoreMonotone` | lib/supabase-storage.ts:385-393 | more of every counter never lowers the score, and the difference is 40 per upvote, 30 per view and 20 per streak day |
| `Scoring.ScoreExample` | lib/supabase-storage.ts:385-393 | 12 upvotes, 150 views and a 4-day streak score 5060 |
| `Scoring.Dedup` | lib/supabase-storage.ts:589 | `[...new Set(s)]` holds the same elements as `s`, each once, and is `s` itself when `s` has no duplicates |
| `Scoring.GenerateBadges` | lib/supabase-storage.ts:567-590 | the ten threshold pushes followed by de-duplication yield exactly the rule table's badge list |
| `Scoring.EarnedUpToMembers` | lib/supabase-storage.ts:574-587 | a badge is in the output of the first k rules iff its rule is among them and its threshold is met |
| `Scoring.EarnedUpToDistinct` | lib/supabase-storage.ts:574-587 | the pushes never repeat a name |
| `Scoring.EarnedUpToOrder` | lib/supabase-storage.ts:574-587 | of two earned badges, the one whose rule comes first is listed first |
| `Scoring.BadgesForShape` | lib/supabase-storage.ts:567-590 | a profile has a badge iff its counter reaches that badge's threshold; no badge twice; badges listed in rule order |
| `Scoring.BadgesMonotone` | lib/supabase-storage.ts:567-590 | more of every counter never loses a badge |
| `Scoring.TiersAccumulate` | lib/supabase-storage.ts:574-587 | each tier implies the lower tiers of the same counter (Diamond implies Gold implies Silver implies Bronze, and so on) |
| `Scoring.BadgesExample` | lib/supabase-storage.ts:567-590 | 12 upvotes, 150 views and a 4-day streak give ["Bronze", "Popular", "Consistent"] |
| `Sorting.InsertDesc` | lib/supabase-storage.ts:437 | inserting into a descending sequence keeps it descending and adds exactly that element |
| `Sorting.SortDesc` | lib/supabase-storage.ts:437 | the sort's result is descending by key and a permutation of its input |
| `Sorting.InsertDescStable` | lib/supabase-storage.ts:437 | insertion puts the new element in front of every element with the same key |
| `Sorting.SortDescStable` | lib/supabase-storage.ts:437 | the sort is stable: among elements with any one key, the input order is kept |
| `Sorting.WithKeyAppend` | lib/supabase-storage.ts:807-818 | the elements with a given key of a concatenation are those of each part, in order |
| `Sorting.PermutationDistinct` | lib/supabase-storage.ts:740-743 | a permutation of a sequence without duplicates has none either |
| `Sorting.Take` | lib/supabase-storage.ts:743 | `.slice(0, n)` keeps the first min(n, length) elements unchanged |
| `Sorting.TopCutKeepsLargest` | lib/supabase-storage.ts:742-743 | after a descending sort, nothing cut off has a larger key than anything kept |
| `Sorting.SortedHeadIsLargest` | components/landing/leaderboard-preview.tsx:165 | the first element after the sort has the largest key of all |
| `Leaderboard.CountProjectsByUser` | lib/supabase-storage.ts:414-418 | the one-pass map gives every user the number of project rows they own (`get(u) \|\| 0`), and stores no zero |
| `Leaderboard.CreatedSince` | lib/supabase-storage.ts:399-403 | the newcomer query returns exactly the profiles created at or after its bound, each as often as it occurs among all profiles, and drops every other |
| `Leaderboard.LeaderboardOf` | lib/supabase-storage.ts:396-444 | a failed profile query gives the empty board; otherwise one entry per candidate profile |
| `Leaderboard.GetLeaderboard` | lib/supabase-storage.ts:396-444 | the method's board is the pipeline's board; a failed profile query gives the empty board |
| `Leaderboard.LeaderboardRanked` | lib/supabase-storage.ts:420-441 | ranks run 1..N by position with no gap and no tie, and scores never increase down the board |
| `Leaderboard.SortedEntriesUnranked` | lib/supabase-storage.ts:425-441 | entries are built with rank 0, so dropping the assigned ranks gives back the sorted entries |
| `Leaderboard.LeaderboardIsPermutation` | lib/supabase-storage.ts:420-441 | ranks aside, the board is a permutation of the candidates' entries |
| `Leaderboard.BoardEntryFromCandidate` | lib/supabase-storage.ts:420-441 | every board entry is, rank aside, some candidate's entry |
| `Leaderboard.CandidateOnBoard` | lib/supabase-storage.ts:420-441 | every candidate's entry is on the board |
| `Leaderboard.LeaderboardCounts` | lib/supabase-storage.ts:413-435 | each entry's project count is its user's number of project rows, its score is the weighted sum of its counters, and it comes from a candidate |
| `Leaderboard.NewcomerEntryInWindow` | lib/supabase-storage.ts:399-403 | any one entry of the newcomers board was created at or after the week's bound |
| `Leaderboard.NewcomerOnBoard` | lib/supabase-storage.ts:399-403 | any one profile created at or after the week's bound is on the newcomers board |
| `Leaderboard.NewcomersWindow` | lib/supabase-storage.ts:399-403 | the newcomers board holds only profiles created in the last seven days, and every such profile is on it |
| `Leaderboard.LeaderboardTiesKeepFetchOrder` | lib/supabase-storage.ts:436-437 | entries with equal scores keep the order in which their profiles were fetched |
| `Ledger.Store.CanUpvoteProfile` | lib/supabase-storage.ts:117-127 | the check is "not exactly one matching row", and under the ledger invariant "no matching row" |
| `Ledger.Store.AddProfileUpvote` | lib/supabase-storage.ts:130-204 | the new tables and the result are those of the transition: refused when the check fails or the insert fails; otherwise the row is added, the profile counter (null read as 0) rises by one and today's `daily_stats` upvotes rise by one or a (0, 1) row is created |
| `Ledger.Store.RemoveProfileUpvote` | lib/supabase-storage.ts:207-241 | refused when the delete fails; otherwise every matching row is deleted and a positive counter is lowered by one |
| `Ledger.Store.AddProjectUpvote` | lib/supabase-storage.ts:336-382 | refused when exactly one vote exists or the insert fails; otherwise the row is added and the project counter rises by one |
| `Ledger.Store.IncrementProjectViews` | lib/supabase-storage.ts:306-333 | refused for a missing project or a failed update; otherwise `views` (null read as 0) rises by one |
| `Ledger.Store.RecordDailyStats` | lib/supabase-storage.ts:617-657 | the (user, today) row gains one view or one upvote, or is created as (1, 0) or (0, 1); the result is always true |
| `Ledger.ProfileUpvoteAdded` | lib/supabase-storage.ts:130-204 | succeeds iff the check admits the vote and the insert does not fail; a refusal changes nothing; a success appends exactly that vote and leaves the projects alone; the target's upvote counter rises by exactly one on success when the profile exists, its views are kept, no profile is added, and no other profile's row and no other day's row changes |
| `Ledger.ProfileUpvoteRemoved` | lib/supabase-storage.ts:207-241 | succeeds iff the delete does not fail; a failure changes nothing; projects, `daily_stats` and the set of profiles are never changed; on success every row of the vote is deleted and the target's counter is lowered by one when positive and otherwise kept; its views are kept, and no other profile's row changes |
| `Ledger.ProfileUpvoteRemovedCorrected` | lib/supabase-storage.ts:207-241 | succeeds iff the delete does not fail, and a failure changes nothing; a success deletes every row of the vote; the target's counter is lowered by one exactly when the call succeeds, a row was deleted and the counter was positive; its views, every other profile's row, the set of profiles, projects and `daily_stats` are never changed |
| `Ledger.ProjectUpvoteAdded` | lib/supabase-storage.ts:336-382 | succeeds iff the check admits the vote and the insert does not fail; a refusal changes nothing; a success appends exactly that vote; profiles and `daily_stats` are never changed; the project's upvote counter rises by exactly one on success when the project exists, its views are kept, no project is added, and no other project's row changes |
| `Ledger.ProjectViewsIncremented` | lib/supabase-storage.ts:306-333 | succeeds iff the project exists and the update does not fail; a failure changes nothing; on success the project's views (null read as 0) rise by exactly one and its upvotes are kept; votes, profiles, `daily_stats`, the set of projects and every other project's row are never changed |
| `Ledger.DailyStatsRecorded` | lib/supabase-storage.ts:617-657 | always succeeds; only `daily_stats` changes, and its keys gain exactly (user, today) |
| `Ledger.CountPresent` | lib/supabase-storage.ts:117-127 | a vote has a positive count iff it is in the table |
| `Ledger.AppendCounts` | lib/supabase-storage.ts:137-144 | an insert raises the inserted vote's count and its target's tally by one and no other |
| `Ledger.WithoutCounts` | lib/supabase-storage.ts:209-215 | the delete removes every row equal to the vote and keeps every other row's count |
| `Ledger.WithoutTally` | lib/supabase-storage.ts:209-215 | the delete lowers the target's tally by the number of rows deleted and no other tally |
| `Ledger.WithoutAbsent` | lib/supabase-storage.ts:209-215 | deleting a vote that is not there changes nothing |
| `Ledger.SingleIsExistence` | lib/supabase-storage.ts:117-127 | under the ledger invariant, `!data` after `.single()` is exactly "the voter has not voted" |
| `Ledger.SingleAdmitsThirdRow` | lib/supabase-storage.ts:117-148 | without the invariant it is not: with two rows already present, a third is inserted |
| `Ledger.InsertKeepsAtMostOnce` | lib/supabase-storage.ts:130-149 | an insert the check admitted keeps the invariant |
| `Ledger.DeleteKeepsAtMostOnce` | lib/supabase-storage.ts:209-215 | a delete keeps the invariant |
| `Ledger.OperationsKeepAtMostOnce` | lib/supabase-storage.ts:117-382 | every ledger operation, and the corrected removal, keeps the invariant |
| `Ledger.AddProfileUpvoteTwice` | lib/supabase-storage.ts:130-204 | the first call succeeds iff the voter had not voted; a second call fails and changes nothing; the counter rises by at most one; exactly one row remains |
| `Ledger.AddProjectUpvoteTwice` | lib/supabase-storage.ts:336-382 | the same for project upvotes: the first call succeeds iff the voter had not voted; a second call fails and changes nothing; the project counter rises by one exactly when the first call succeeded on an existing project; exactly one row remains |
| `Ledger.RemoveProfileUpvoteEffect` | lib/supabase-storage.ts:207-241 | after a removal no matching row is left, every other row is kept, and the counter is lowered by one when positive and never below 0; for a profile that does not exist the delete still runs and no counter changes |
| `Ledger.AddThenRemoveProfileUpvote` | lib/supabase-storage.ts:130-241 | add then remove restores the upvote rows and every profile's upvote count |
| `Ledger.AddKeepsTallied` | lib/supabase-storage.ts:130-172 | adding keeps a profile's counter equal to its number of votes |
| `Ledger.CorrectedRemoveKeepsTallied` | lib/supabase-storage.ts:207-241 | the corrected removal keeps the counter equal to the number of votes |
| `Ledger.RemoveWithoutVoteBreaksTally` | lib/supabase-storage.ts:220-232 | the removal as written lowers the counter of a profile the caller never voted for |
| `Ledger.DailyStatsRecordedEffect` | lib/supabase-storage.ts:617-657 | only the (user, today) row changes, only the named counter rises, and only by one; every other row and table is unchanged |
| `Ledger.DailyStatsCommute` | lib/supabase-storage.ts:617-657 | recording a view and an upvote in either order gives the same row |
| `Ledger.AddProfileUpvoteRecordsDay` | lib/supabase-storage.ts:174-197 | a successful profile upvote changes `daily_stats` exactly as `recordDailyStats(target, 'upvote')` would |
| `Ledger.ProjectViewsCount` | lib/supabase-storage.ts:306-333 | n calls on an existing project raise its views by exactly n, keep its upvotes, and change no other project's row and no other table; on a missing project nothing changes |
| `Analytics.SumAppend` | lib/supabase-storage.ts:677-678 | the `reduce` sum of a concatenation is the sum of the parts |
| `Analytics.StatsBetween` | lib/supabase-storage.ts:832-844 | a row is selected iff it is the user's and dated inside the window (the first period has an upper bound, the second does not); each selected row is kept as often as it occurs, every other row is dropped |
| `Analytics.RoundDiv` | lib/supabase-storage.ts:861-862 | `Math.round(p / q)`: the result r satisfies r - 1/2 <= p/q < r + 1/2 |
| `Analytics.GrowthPercent` | lib/supabase-storage.ts:852-862 | 0 when the first period is 0; otherwise the integer nearest to 100·(second − first)/first, halves rounded up |
| `Analytics.UserGrowthRate` | lib/supabase-storage.ts:828-868 | for each counter, over the sums of the user's rows in the first and the second period: growth 0 when the first sum is 0, otherwise the integer nearest to 100·(second − first)/first, halves rounded up |
| `Analytics.GrowthSign` | lib/supabase-storage.ts:852-863 | growth >= 1 iff the second period is at least 0.5% above the first; <= -1 iff it is more than 0.5% below; positive growth implies a rise; equal periods give 0 |
| `Analytics.NoFirstPeriodNoGrowth` | lib/supabase-storage.ts:852-858 | no activity in the first period gives growth 0 in both counters, whatever the second period holds |
| `Analytics.SmallRiseRoundsToZero` | lib/supabase-storage.ts:852-862 | a rise from 1000 to 1001 reports 0 |
| `Analytics.GrowthExamples` | lib/supabase-storage.ts:852-862 | 10 to 20 is 100, 10 to 0 is -100, 8 to 9 is 13, 0 to 50 is 0 |
| `Analytics.ProjectsSince` | lib/supabase-storage.ts:790-796 | exactly the user's projects created at or after the start date, each as often as it occurs among the rows |
| `Analytics.UpvotesGivenSince` | lib/supabase-storage.ts:798-804 | exactly the upvotes the user gave at or after the start date, each as often as it occurs among the rows |
| `Analytics.ActivityTimeline` | lib/supabase-storage.ts:786-826 | as many items as the two windowed queries return together, newest first |
| `Analytics.TimelineShape` | lib/supabase-storage.ts:806-818 | the timeline has one item per row of each query, newest first, and is a permutation of the tagged rows |
| `Analytics.TaggedMembers` | lib/supabase-storage.ts:807-816 | a project is among the tagged projects iff it was a row, likewise an upvote, and a tag never changes kind |
| `Analytics.TimelineProjects` | lib/supabase-storage.ts:806-818 | a project is on the timeline iff its query returned it |
| `Analytics.TimelineUpvotes` | lib/supabase-storage.ts:806-818 | an upvote is on the timeline iff its query returned it |
| `Analytics.TimelineWindowProjects` | lib/supabase-storage.ts:786-818 | every project on a user's timeline is the user's own and created inside the window |
| `Analytics.TimelineWindowUpvotes` | lib/supabase-storage.ts:786-818 | every upvote on a user's timeline was given by the user inside the window |
| `Analytics.TimelineTiesKeepMergeOrder` | lib/supabase-storage.ts:806-818 | items with the same timestamp keep the merge order: projects first, each in its query's order |
| `Analytics.UserAnalyticsOf` | lib/supabase-storage.ts:660-705 | a result exactly when the profile exists; the project count is the length of the project list; total engagement is the profile's counters plus the project totals |
| `Analytics.UserAnalyticsAddProject` | lib/supabase-storage.ts:677-698 | one more project raises the project count, the project totals and the total engagement by exactly that project's counters, and leaves the profile summary unchanged |
| `Analytics.SumAtLeastEach` | lib/supabase-storage.ts:677 | a sum is at least each of its terms |
| `Analytics.UserAnalyticsTotals` | lib/supabase-storage.ts:677-698 | the project totals of two batches add up, and the views total is never below one project's views |
| `Analytics.CountriesInOrder` | lib/supabase-storage.ts:732-738 | the map's keys: each country once, exactly the countries with a positive count |
| `Analytics.CountriesFirstSeen` | lib/supabase-storage.ts:732-738 | the keys come in first-seen order: the countries of any prefix of the profiles are a prefix of the countries of all of them |
| `Analytics.TallyTiesKeepMapOrder` | lib/supabase-storage.ts:740-742 | countries with equal counts keep the map's insertion order through the sort, which decides which of them survive the cut at ten |
| `Analytics.CountCountries` | lib/supabase-storage.ts:732-738 | the loop's map holds exactly those countries, each with its number of profiles; null and "" are skipped |
| `Analytics.TopCountries` | lib/supabase-storage.ts:740-743 | at most ten countries, most profiles first |
| `Analytics.GetTopCountries` | lib/supabase-storage.ts:732-743 | the loop-and-sort method returns the specified top list |
| `Analytics.TallyFacts` | lib/supabase-storage.ts:732-741 | an entry is in the tally iff its country occurs and the entry carries its true count; no entry twice |
| `Analytics.SortedTallyFacts` | lib/supabase-storage.ts:740-742 | sorting keeps those entries, each once |
| `Analytics.TopCountriesShape` | lib/supabase-storage.ts:740-743 | at most ten countries, most profiles first, no country twice, each with its true positive count |
| `Analytics.TopCountriesCut` | lib/supabase-storage.ts:740-743 | a country left out has no more profiles than any kept; with ten countries or fewer none is left out |
| `Analytics.GlobalAnalyticsOf` | lib/supabase-storage.ts:707-767 | the week's new users never exceed all users; at most ten countries; a failed profile query gives zero users, views and profile upvotes |
| `Analytics.NewUsersAreNewcomers` | lib/supabase-storage.ts:724-729 | the week's new users number exactly the newcomers leaderboard's entries, and never exceed all users |
| `Preview.GetRankBadge` | components/landing/leaderboard-preview.tsx:373-378 | a medal exactly for ranks 1-3: gold, silver, bronze; otherwise "" |
| `Preview.GetBorderColor` | components/landing/leaderboard-preview.tsx:380-385 | the default border exactly outside ranks 1-3 |
| `Preview.GetBgGlow` | components/landing/leaderboard-preview.tsx:387-392 | no glow exactly outside ranks 1-3 |
| `Preview.PodiumStylesDistinct` | components/landing/leaderboard-preview.tsx:373-392 | the three podium ranks get three different medals, borders and glows |
| `Preview.GetBadgeEmoji` | components/landing/leaderboard-preview.tsx:394-410 | a listed name gets its emoji, any other the fallback "🏅" |
| `Preview.EarnedBadgeEmoji` | components/landing/leaderboard-preview.tsx:394-410 | every badge the badge rules award gets its own emoji, never the fallback |
| `Preview.EarnedBadgesHaveOwnEmoji` | components/landing/leaderboard-preview.tsx:394-410 | and no two of those badges share an emoji |
| `Preview.Toggled` | components/landing/leaderboard-preview.tsx:170-178 | a rank is in the new set iff it was in the old one xor it is the clicked rank |
| `Preview.ToggleRank` | components/landing/leaderboard-preview.tsx:168-179 | the copy-then-delete-or-add updater: the clicked rank flips and no other rank changes |
| `Preview.ToggleInvolution` | components/landing/leaderboard-preview.tsx:168-179 | two clicks on the same row restore the set |
| `Preview.DisplayedUpvotes` | components/landing/leaderboard-preview.tsx:259-260 | the shown count is the stored count, plus one exactly when the row's rank is in the upvoted set |
| `Preview.ToggleMovesOneCount` | components/landing/leaderboard-preview.tsx:259-260 | a click moves its row's displayed count by one, up or down, leaves other ranks' counts alone, and the count stays within upvotes..upvotes + 1 |
| `Preview.RowsDistinct` | components/landing/leaderboard-preview.tsx:151-164 | each row carries its own index + 1 as rank, so no two rows are equal |
| `Preview.SortedRowsFacts` | components/landing/leaderboard-preview.tsx:151-165 | after the sort each row is still, once, the row of the user at index rank - 1 |
| `Preview.LeaderboardData` | components/landing/leaderboard-preview.tsx:151-166 | at most ten rows and never more than users; exactly ten when there are ten users or more |
| `Preview.LeaderboardDataOrder` | components/landing/leaderboard-preview.tsx:151-166 | at most ten rows, highest score first |
| `Preview.LeaderboardDataRows` | components/landing/leaderboard-preview.tsx:151-166 | each shown row is the row of the user at index rank - 1, and no two shown rows share a rank |
| `Preview.ToggleTouchesOneRow` | components/landing/leaderboard-preview.tsx:168-179 | clicking one shown row never changes another shown row's count |
| `Preview.RankFromUnsortedPosition` | components/landing/leaderboard-preview.tsx:151-166 | a low scorer listed before a high scorer leaves the top row with rank 2 and the silver medal |
| `Preview.LeaderboardDataCorrected` | components/landing/leaderboard-preview.tsx:151-166 | with ranks assigned after the sort, the table still holds min(10, users) rows |
| `Preview.CorrectedRanksFollowScore` | components/landing/leaderboard-preview.tsx:151-166 | the corrected table gives position i rank i + 1 and that rank's medal; scores never increase; the gold row has the highest score of all users |

## Left out

- Network, authentication and the store itself. The queries of the leaderboard and the analytics take their answers as inputs, and a failed query is `None`. The ledger's reads come from the tables and always succeed (see the three lines below). Only the writes whose error the code checks have a failure input: the upvote inserts, the upvote delete and the views update.
- `Ledger.ProfileUpvoteAdded`: writes whose errors the source ignores are taken to succeed: the counter update and the `daily_stats` select, update and insert (lib/supabase-storage.ts:151-195). The source can return true with those writes lost, leaving the counter behind the votes; the model does not capture that.
- `Ledger.ProfileUpvoteAdded`: the `canUpvoteProfile` read (lib/supabase-storage.ts:117-125) is taken to succeed. In the source a failed read leaves `data` null, so `!data` lets the insert through even when a vote exists; the model does not capture that.
- `Ledger.ProfileUpvoteRemoved`: the counter read and the decrement, whose errors the source ignores (lib/supabase-storage.ts:223-233), are taken to succeed. In the source a failed read leaves `profile` null and the decrement is skipped; the model does not capture that.
- `Ledger.ProjectUpvoteAdded`: the project counter read and update, whose errors the source ignores (lib/supabase-storage.ts:363-375), are taken to succeed.
- `Ledger.ProjectUpvoteAdded`: the `existingVote` read (lib/supabase-storage.ts:339-347) is taken to succeed. In the source a failed read leaves `existingVote` null, which lets the insert through even when a vote exists; the model does not capture that.
- `Ledger.ProjectViewsIncremented`: the read of the project (lib/supabase-storage.ts:309-315) is taken to succeed. A failed read makes the source return false with nothing changed, which is the outcome of the model's failed update.
- Clocks. `Date.now()` and `getTodayDate()` are inputs. Timestamps are milliseconds as integers and dates are day numbers, not ISO strings.
- Concurrency. Interleaved calls, including the lost-update races of the read-then-write counter updates, are not modelled; each operation is atomic.
- The `increment` RPC in `addProfileUpvote` and its read-then-write fallback both raise the counter by one and are modelled as one step. A profile row that does not exist is left as it is.
- `Email.LowerChar`: only ASCII letters are lower-cased. `toLowerCase` maps other scripts too, and the model does not capture that.
- `Preview.GetBadgeEmoji`: names that JavaScript resolves through the object prototype (such as "constructor") are treated as unlisted and get the fallback.
- `Analytics.GrowthPercent`: computed exactly as round(100·(second − first)/first). The source's floating-point division and multiplication are not modelled.
- Counters are non-negative integers. A negative count is out of scope. In the ledger, whose writes create every `daily_stats` row with both counters set, those counters are never null (`Ledger.DayStat`); the analytics read rows from outside, so there they are nullable and read as 0 (`Analytics.DailyRow`). The `upvotes` table likewise has two row types: the ledger's `Ledger.Vote` without the timestamp, and the timeline's `Records.UpvoteRow` with it. A null `daily_stats.upvotes` would be written back as 1 by `addProfileUpvote`, since null + 1 is 1 in JavaScript, which is what the model's 0 + 1 gives.
- `Ledger.DailyStatsRecorded`: `daily_stats` is a map keyed by (user, date), so it never holds two rows for one day. In the source nothing prevents that; with two such rows `.single()` finds none and a third row is inserted (lib/supabase-storage.ts:174-180, 622-628). The model does not capture duplicate day rows.
- `Analytics.GlobalAnalyticsOf`: the week's new users are counted from the profiles answer, not by the separate count query (lib/supabase-storage.ts:724-729). When the profiles query fails the model reports 0 new users, where the source would still report the count query's answer.
- `Ledger.AddThenRemoveProfileUpvote`: a null upvote counter comes back as 0, not null. The lemma therefore states equal counts and the same profile keys, not equal rows.
- Ordering that the queries impose: the `.order(...)` clauses and the 30-row limit on `daily_stats` in `getUserAnalytics`. The rows arrive as given, and only the in-code sort is modelled.
- `getUserProfile`'s fallbacks and extra fields. `getUserAnalytics` takes the profile, or `None`, as its input.
- The preview's users and their score come from the local mock store (`getAllUsers`, `calculateScore` in lib/storage), which is not part of this model. Both are inputs.
- `incrementProfileViews` (an RPC whose body lives in the store) and `randomizeCoordinates` (random numbers) are not part of this model. The same goes for the other CRUD helpers and for every page and component except the leaderboard preview's logic.
- The `try`/`catch` paths that turn a thrown error into `false`, `null` or `[]` are not modelled. Apart from the failure flags above, no step throws in the model.

## Findings

| source | as written | input that shows it | evidently intended | confidence | as-written member | corrected member |
|---|---|---|---|---|---|---|
| lib/supabase-storage.ts:207-241 | `removeProfileUpvote` lowers the profile's upvote counter after any successful delete, even when no row matched | "eve" never voted for "ann", who has one upvote from "bob"; eve's removal deletes nothing but lowers ann's counter to 0 | lower the counter only when a row was deleted, so the counter keeps equal to the number of votes | medium, not executed | `Ledger.RemoveWithoutVoteBreaksTally` | `Ledger.CorrectedRemoveKeepsTallied` |
| components/landing/leaderboard-preview.tsx:151-166 | rank, medal, border and glow are assigned from the position in the unsorted user list, then the rows are sorted | users [low (score 1), high (score 100)]: the top row shows rank 2 and the silver medal | assign rank and styles after sorting, as `getLeaderboard` does | low (the mock store may already list users by score), not executed | `Preview.RankFromUnsortedPosition` | `Preview.CorrectedRanksFollowScore` |
