/** The upvote ledger and the counters it drives: the `upvotes` table, the
    `upvotes`/`views` counters of profiles and projects, and the
    `daily_stats` rows. The hosted store is an in-memory `Store`; a failed
    insert, delete or update is an input flag, because the store decides it. */
module Ledger {
  import opened Wrappers
  import opened Records

  /** A calendar day (`YYYY-MM-DD` in the store), as a day number. */
  type Day = int

  /** One row of `upvotes`: who voted for what. */
  datatype Vote = Vote(voter: Id, target: Id, kind: TargetType)

  /** The counter columns of a `profiles` or `projects` row; both are
      nullable. */
  datatype Counters = Counters(views: Option<nat>, upvotes: Option<nat>)

  /** The counter columns of a `daily_stats` row. */
  datatype DayStat = DayStat(views: nat, upvotes: nat)

  /** The `type` argument of `recordDailyStats`. */
  datatype StatKind = ViewStat | UpvoteStat

  /** The four tables, as one value. `daily_stats` is keyed by (user, day):
      there is at most one row per key. */
  datatype Tables = Tables(
    votes: seq<Vote>,
    profiles: map<Id, Counters>,
    projects: map<Id, Counters>,
    daily: map<(Id, Day), DayStat>)

  /** The tables after an operation, and what the operation returned. */
  datatype Outcome = Outcome(tables: Tables, ok: bool)

  // Counting rows

  /** How many rows of `rows` are `v`. */
  function Count(rows: seq<Vote>, v: Vote): nat
  {
    if rows == [] then 0
    else Count(rows[..|rows| - 1], v) + (if rows[|rows| - 1] == v then 1 else 0)
  }

  /** How many rows vote for `target` as a `kind`. */
  function Tally(rows: seq<Vote>, target: Id, kind: TargetType): nat
  {
    if rows == [] then 0
    else
      var last := rows[|rows| - 1];
      Tally(rows[..|rows| - 1], target, kind) + (if last.target == target && last.kind == kind then 1 else 0)
  }

  /** `.delete()` with three `eq` filters: every row equal to `v` goes. */
  function Without(rows: seq<Vote>, v: Vote): seq<Vote>
  {
    if rows == [] then []
    else Without(rows[..|rows| - 1], v) + (if rows[|rows| - 1] == v then [] else [rows[|rows| - 1]])
  }

  /** The ledger invariant: no (voter, target, type) has two rows. */
  ghost predicate AtMostOnce(rows: seq<Vote>)
  {
    forall v :: Count(rows, v) <= 1
  }

  lemma {:induction false} CountPresent(rows: seq<Vote>, v: Vote)
    ensures Count(rows, v) > 0 <==> v in rows
  {
    if rows != [] {
      var init := rows[..|rows| - 1];
      CountPresent(init, v);
      assert rows == init + [rows[|rows| - 1]];
    }
  }

  lemma AppendCounts(rows: seq<Vote>, x: Vote)
    ensures forall v :: Count(rows + [x], v) == Count(rows, v) + (if x == v then 1 else 0)
    ensures forall target, kind :: Tally(rows + [x], target, kind)
              == Tally(rows, target, kind) + (if x.target == target && x.kind == kind then 1 else 0)
  {
    assert (rows + [x])[..|rows|] == rows;
  }

  /** Deleting `v`'s rows removes all of them and keeps every other row. */
  lemma {:induction false} WithoutCounts(rows: seq<Vote>, v: Vote)
    ensures Count(Without(rows, v), v) == 0
    ensures forall w :: w != v ==> Count(Without(rows, v), w) == Count(rows, w)
  {
    if rows != [] {
      var init, last := rows[..|rows| - 1], rows[|rows| - 1];
      WithoutCounts(init, v);
      if last == v {
        assert Without(rows, v) == Without(init, v) + [] == Without(init, v);
      } else {
        assert Without(rows, v) == Without(init, v) + [last];
        AppendCounts(Without(init, v), last);
      }
    }
  }

  /** Deleting `v`'s rows lowers the tally of `v`'s target by the number
      deleted, and no other tally. */
  lemma {:induction false} WithoutTally(rows: seq<Vote>, v: Vote)
    ensures Tally(Without(rows, v), v.target, v.kind) + Count(rows, v) == Tally(rows, v.target, v.kind)
    ensures forall target, kind :: (target != v.target || kind != v.kind) ==>
              Tally(Without(rows, v), target, kind) == Tally(rows, target, kind)
  {
    if rows != [] {
      var init, last := rows[..|rows| - 1], rows[|rows| - 1];
      WithoutTally(init, v);
      if last == v {
        assert Without(rows, v) == Without(init, v) + [] == Without(init, v);
      } else {
        assert Without(rows, v) == Without(init, v) + [last];
        AppendCounts(Without(init, v), last);
      }
    }
  }

  lemma {:induction false} WithoutAbsent(rows: seq<Vote>, v: Vote)
    requires Count(rows, v) == 0
    ensures Without(rows, v) == rows
  {
    if rows != [] {
      var init, last := rows[..|rows| - 1], rows[|rows| - 1];
      WithoutAbsent(init, v);
      assert rows == init + [last];
    }
  }

  // The operations, on the tables as values

  /** `canUpvoteProfile` (and the check at the top of `addProjectUpvote`):
      `.single()` returns data only when exactly one row matches, and the
      caller may vote when there is no data. */
  predicate CanUpvote(rows: seq<Vote>, v: Vote)
  {
    Count(rows, v) != 1
  }

  function BumpUpvotes(m: map<Id, Counters>, id: Id): map<Id, Counters>
  {
    if id in m then m[id := m[id].(upvotes := Some(OrZero(m[id].upvotes) + 1))] else m
  }

  function BumpViews(m: map<Id, Counters>, id: Id): map<Id, Counters>
  {
    if id in m then m[id := m[id].(views := Some(OrZero(m[id].views) + 1))] else m
  }

  /** Every key other than `key` has the same row, or the same absence of
      one, in `after` as in `before`. */
  ghost predicate OthersUnchanged<K(!new), V>(before: map<K, V>, after: map<K, V>, key: K)
  {
    forall k :: k != key ==> (k in after <==> k in before) && (k in before ==> after[k] == before[k])
  }

  /** The row a day starts with when its first event is of `kind`. */
  function FirstOfDay(kind: StatKind): DayStat
  {
    match kind
    case ViewStat => DayStat(1, 0)
    case UpvoteStat => DayStat(0, 1)
  }

  /** Update the day's row, or insert it. */
  function BumpDay(daily: map<(Id, Day), DayStat>, key: (Id, Day), kind: StatKind): map<(Id, Day), DayStat>
  {
    if key in daily then
      var d := daily[key];
      daily[key := match kind case ViewStat => d.(views := d.views + 1) case UpvoteStat => d.(upvotes := d.upvotes + 1)]
    else
      daily[key := FirstOfDay(kind)]
  }

  /** `addProfileUpvote`: refused when the check finds a vote or the insert
      fails; otherwise one row, one more upvote on the profile and on the
      target's row for today. */
  function ProfileUpvoteAdded(t: Tables, target: Id, voter: Id, today: Day, insertFails: bool): (o: Outcome)
    ensures o.ok <==> CanUpvote(t.votes, Vote(voter, target, ProfileTarget)) && !insertFails
    ensures !o.ok ==> o.tables == t
    ensures o.ok ==> o.tables.votes == t.votes + [Vote(voter, target, ProfileTarget)] && o.tables.projects == t.projects
    ensures OthersUnchanged(t.profiles, o.tables.profiles, target)
    ensures o.tables.profiles.Keys == t.profiles.Keys
    ensures target in t.profiles ==> o.tables.profiles[target].views == t.profiles[target].views
    ensures ProfileUpvotes(o.tables, target) == ProfileUpvotes(t, target) + (if o.ok && target in t.profiles then 1 else 0)
    ensures OthersUnchanged(t.daily, o.tables.daily, (target, today))
  {
    var v := Vote(voter, target, ProfileTarget);
    if !CanUpvote(t.votes, v) || insertFails then Outcome(t, false)
    else Outcome(t.(votes := t.votes + [v],
                    profiles := BumpUpvotes(t.profiles, target),
                    daily := BumpDay(t.daily, (target, today), UpvoteStat)), true)
  }

  /** The profile counter lowered by one when it is positive; a null counter
      is not positive. */
  function DropUpvote(m: map<Id, Counters>, id: Id): map<Id, Counters>
  {
    if id in m && m[id].upvotes.Some? && m[id].upvotes.value > 0 then
      m[id := m[id].(upvotes := Some(m[id].upvotes.value - 1))]
    else m
  }

  /** `removeProfileUpvote` as written: the counter is lowered whether or
      not a row was deleted. */
  function ProfileUpvoteRemoved(t: Tables, target: Id, voter: Id, deleteFails: bool): (o: Outcome)
    ensures o.ok <==> !deleteFails
    ensures !o.ok ==> o.tables == t
    ensures o.tables.projects == t.projects && o.tables.daily == t.daily
    ensures o.tables.profiles.Keys == t.profiles.Keys
    ensures OthersUnchanged(t.profiles, o.tables.profiles, target)
    ensures target in t.profiles ==> o.tables.profiles[target].views == t.profiles[target].views
    ensures o.ok ==> o.tables.votes == Without(t.votes, Vote(voter, target, ProfileTarget))
    ensures ProfileUpvotes(o.tables, target)
              == if o.ok && ProfileUpvotes(t, target) > 0 then ProfileUpvotes(t, target) - 1 else ProfileUpvotes(t, target)
  {
    var v := Vote(voter, target, ProfileTarget);
    if deleteFails then Outcome(t, false)
    else Outcome(t.(votes := Without(t.votes, v), profiles := DropUpvote(t.profiles, target)), true)
  }

  /** `removeProfileUpvote` lowering the counter only when a row went. */
  function ProfileUpvoteRemovedCorrected(t: Tables, target: Id, voter: Id, deleteFails: bool): (o: Outcome)
    ensures o.ok <==> !deleteFails
    ensures !o.ok ==> o.tables == t
    ensures Count(t.votes, Vote(voter, target, ProfileTarget)) == 0 ==> o.tables.profiles == t.profiles
    ensures o.ok ==> o.tables.votes == Without(t.votes, Vote(voter, target, ProfileTarget))
    ensures o.tables.projects == t.projects && o.tables.daily == t.daily
    ensures o.tables.profiles.Keys == t.profiles.Keys
    ensures OthersUnchanged(t.profiles, o.tables.profiles, target)
    ensures target in t.profiles ==> o.tables.profiles[target].views == t.profiles[target].views
    ensures ProfileUpvotes(o.tables, target)
              == if o.ok && Count(t.votes, Vote(voter, target, ProfileTarget)) > 0 && ProfileUpvotes(t, target) > 0
                 then ProfileUpvotes(t, target) - 1 else ProfileUpvotes(t, target)
  {
    var v := Vote(voter, target, ProfileTarget);
    if deleteFails then Outcome(t, false)
    else Outcome(t.(votes := Without(t.votes, v),
                    profiles := if Count(t.votes, v) > 0 then DropUpvote(t.profiles, target) else t.profiles), true)
  }

  /** `addProjectUpvote`: like the profile case, with the project counter
      and no daily row. */
  function ProjectUpvoteAdded(t: Tables, projectId: Id, voter: Id, insertFails: bool): (o: Outcome)
    ensures o.ok <==> CanUpvote(t.votes, Vote(voter, projectId, ProjectTarget)) && !insertFails
    ensures !o.ok ==> o.tables == t
    ensures o.tables.profiles == t.profiles && o.tables.daily == t.daily
    ensures o.ok ==> o.tables.votes == t.votes + [Vote(voter, projectId, ProjectTarget)]
    ensures OthersUnchanged(t.projects, o.tables.projects, projectId)
    ensures o.tables.projects.Keys == t.projects.Keys
    ensures projectId in t.projects ==> o.tables.projects[projectId].views == t.projects[projectId].views
    ensures ProjectUpvotes(o.tables, projectId) == ProjectUpvotes(t, projectId) + (if o.ok && projectId in t.projects then 1 else 0)
  {
    var v := Vote(voter, projectId, ProjectTarget);
    if !CanUpvote(t.votes, v) || insertFails then Outcome(t, false)
    else Outcome(t.(votes := t.votes + [v], projects := BumpUpvotes(t.projects, projectId)), true)
  }

  /** `incrementProjectViews`: false for a missing project or a failed
      update. */
  function ProjectViewsIncremented(t: Tables, projectId: Id, updateFails: bool): (o: Outcome)
    ensures o.ok <==> projectId in t.projects && !updateFails
    ensures !o.ok ==> o.tables == t
    ensures o.tables.votes == t.votes && o.tables.projects.Keys == t.projects.Keys
    ensures o.tables.profiles == t.profiles && o.tables.daily == t.daily
    ensures OthersUnchanged(t.projects, o.tables.projects, projectId)
    ensures o.ok ==> OrZero(o.tables.projects[projectId].views) == OrZero(t.projects[projectId].views) + 1
                     && o.tables.projects[projectId].upvotes == t.projects[projectId].upvotes
  {
    if projectId !in t.projects || updateFails then Outcome(t, false)
    else Outcome(t.(projects := BumpViews(t.projects, projectId)), true)
  }

  /** `recordDailyStats`: store errors are not thrown, so it always answers
      true. */
  function DailyStatsRecorded(t: Tables, user: Id, kind: StatKind, today: Day): (o: Outcome)
    ensures o.ok
    ensures o.tables.votes == t.votes && o.tables.profiles == t.profiles && o.tables.projects == t.projects
    ensures o.tables.daily.Keys == t.daily.Keys + {(user, today)}
  {
    Outcome(t.(daily := BumpDay(t.daily, (user, today), kind)), true)
  }

  // The store, updated in place

  class Store {
    var votes: seq<Vote>
    var profiles: map<Id, Counters>
    var projects: map<Id, Counters>
    var daily: map<(Id, Day), DayStat>

    ghost function State(): Tables
      reads this
    {
      Tables(votes, profiles, projects, daily)
    }

    constructor(t: Tables)
      ensures State() == t
    {
      votes, profiles, projects, daily := t.votes, t.profiles, t.projects, t.daily;
    }

    method CanUpvoteProfile(target: Id, voter: Id) returns (can: bool)
      ensures can == CanUpvote(votes, Vote(voter, target, ProfileTarget))
      ensures AtMostOnce(votes) ==> (can <==> Vote(voter, target, ProfileTarget) !in votes)
    {
      var v := Vote(voter, target, ProfileTarget);
      CountPresent(votes, v);
      var matching := Count(votes, v);
      can := matching != 1;
    }

    method AddProfileUpvote(target: Id, voter: Id, today: Day, insertFails: bool) returns (ok: bool)
      modifies this
      ensures Outcome(State(), ok) == ProfileUpvoteAdded(old(State()), target, voter, today, insertFails)
    {
      var can := CanUpvoteProfile(target, voter);
      if !can {
        return false;
      }
      if insertFails {
        return false;
      }
      votes := votes + [Vote(voter, target, ProfileTarget)];
      if target in profiles {
        var p := profiles[target];
        profiles := profiles[target := p.(upvotes := Some(OrZero(p.upvotes) + 1))];
      }
      var key := (target, today);
      if key in daily {
        var d := daily[key];
        daily := daily[key := d.(upvotes := d.upvotes + 1)];
      } else {
        daily := daily[key := DayStat(0, 1)];
      }
      return true;
    }

    method RemoveProfileUpvote(target: Id, voter: Id, deleteFails: bool) returns (ok: bool)
      modifies this
      ensures Outcome(State(), ok) == ProfileUpvoteRemoved(old(State()), target, voter, deleteFails)
    {
      if deleteFails {
        return false;
      }
      votes := Without(votes, Vote(voter, target, ProfileTarget));
      if target in profiles {
        var p := profiles[target];
        if p.upvotes.Some? && p.upvotes.value > 0 {
          profiles := profiles[target := p.(upvotes := Some(p.upvotes.value - 1))];
        }
      }
      return true;
    }

    method AddProjectUpvote(projectId: Id, voter: Id, insertFails: bool) returns (ok: bool)
      modifies this
      ensures Outcome(State(), ok) == ProjectUpvoteAdded(old(State()), projectId, voter, insertFails)
    {
      var existing := Count(votes, Vote(voter, projectId, ProjectTarget));
      if existing == 1 {
        return false;
      }
      if insertFails {
        return false;
      }
      votes := votes + [Vote(voter, projectId, ProjectTarget)];
      if projectId in projects {
        var p := projects[projectId];
        projects := projects[projectId := p.(upvotes := Some(OrZero(p.upvotes) + 1))];
      }
      return true;
    }

    method IncrementProjectViews(projectId: Id, updateFails: bool) returns (ok: bool)
      modifies this
      ensures Outcome(State(), ok) == ProjectViewsIncremented(old(State()), projectId, updateFails)
    {
      if projectId !in projects {
        return false;
      }
      var p := projects[projectId];
      if updateFails {
        return false;
      }
      projects := projects[projectId := p.(views := Some(OrZero(p.views) + 1))];
      return true;
    }

    method RecordDailyStats(user: Id, kind: StatKind, today: Day) returns (ok: bool)
      modifies this
      ensures Outcome(State(), ok) == DailyStatsRecorded(old(State()), user, kind, today)
    {
      var key := (user, today);
      if key in daily {
        var existing := daily[key];
        if kind == ViewStat {
          daily := daily[key := existing.(views := existing.views + 1)];
        } else {
          daily := daily[key := existing.(upvotes := existing.upvotes + 1)];
        }
      } else {
        daily := daily[key := if kind == ViewStat then DayStat(1, 0) else DayStat(0, 1)];
      }
      return true;
    }
  }

  // What the operations promise

  /** Under the ledger invariant, the `.single()` check is exactly "no row
      yet". */
  lemma SingleIsExistence(rows: seq<Vote>, v: Vote)
    requires AtMostOnce(rows)
    ensures CanUpvote(rows, v) <==> v !in rows
  {
    CountPresent(rows, v);
  }

  /** Without the invariant it is not: with two rows already there, the check
      lets a third one in. */
  lemma SingleAdmitsThirdRow(t: Tables, target: Id, voter: Id, today: Day)
    requires t.votes == [Vote(voter, target, ProfileTarget), Vote(voter, target, ProfileTarget)]
    ensures var o := ProfileUpvoteAdded(t, target, voter, today, false);
      o.ok && Count(o.tables.votes, Vote(voter, target, ProfileTarget)) == 3
  {
    var v := Vote(voter, target, ProfileTarget);
    assert [v][..0] == [];
    assert Count([v], v) == 1;
    assert t.votes[..1] == [v];
    assert Count(t.votes, v) == 2;
    AppendCounts(t.votes, v);
  }

  /** Inserting a row the check admitted keeps the invariant. */
  lemma InsertKeepsAtMostOnce(rows: seq<Vote>, v: Vote)
    requires AtMostOnce(rows) && CanUpvote(rows, v)
    ensures AtMostOnce(rows + [v])
  {
    AppendCounts(rows, v);
  }

  lemma DeleteKeepsAtMostOnce(rows: seq<Vote>, v: Vote)
    requires AtMostOnce(rows)
    ensures AtMostOnce(Without(rows, v))
  {
    WithoutCounts(rows, v);
  }

  /** Every operation keeps the ledger invariant. */
  lemma OperationsKeepAtMostOnce(t: Tables, target: Id, voter: Id, today: Day, fails: bool, kind: StatKind)
    requires AtMostOnce(t.votes)
    ensures AtMostOnce(ProfileUpvoteAdded(t, target, voter, today, fails).tables.votes)
    ensures AtMostOnce(ProfileUpvoteRemoved(t, target, voter, fails).tables.votes)
    ensures AtMostOnce(ProfileUpvoteRemovedCorrected(t, target, voter, fails).tables.votes)
    ensures AtMostOnce(ProjectUpvoteAdded(t, target, voter, fails).tables.votes)
    ensures AtMostOnce(ProjectViewsIncremented(t, target, fails).tables.votes)
    ensures AtMostOnce(DailyStatsRecorded(t, target, kind, today).tables.votes)
  {
    var pv, jv := Vote(voter, target, ProfileTarget), Vote(voter, target, ProjectTarget);
    if CanUpvote(t.votes, pv) {
      InsertKeepsAtMostOnce(t.votes, pv);
    }
    if CanUpvote(t.votes, jv) {
      InsertKeepsAtMostOnce(t.votes, jv);
    }
    DeleteKeepsAtMostOnce(t.votes, pv);
  }

  function ProfileUpvotes(t: Tables, id: Id): nat
  {
    if id in t.profiles then OrZero(t.profiles[id].upvotes) else 0
  }

  /** Upvoting a profile twice in a row: the first call succeeds exactly when
      the voter had not voted, the second never does and changes nothing, and
      the counter rises by at most one in all. */
  lemma AddProfileUpvoteTwice(t: Tables, target: Id, voter: Id, today: Day)
    requires AtMostOnce(t.votes)
    ensures var first := ProfileUpvoteAdded(t, target, voter, today, false);
            var second := ProfileUpvoteAdded(first.tables, target, voter, today, false);
      && (first.ok <==> Vote(voter, target, ProfileTarget) !in t.votes)
      && !second.ok && second.tables == first.tables
      && ProfileUpvotes(second.tables, target)
           == ProfileUpvotes(t, target) + (if first.ok && target in t.profiles then 1 else 0)
      && Count(second.tables.votes, Vote(voter, target, ProfileTarget)) == 1
  {
    var v := Vote(voter, target, ProfileTarget);
    CountPresent(t.votes, v);
    AppendCounts(t.votes, v);
  }

  function ProjectUpvotes(t: Tables, id: Id): nat
  {
    if id in t.projects then OrZero(t.projects[id].upvotes) else 0
  }

  /** The same for projects. */
  lemma AddProjectUpvoteTwice(t: Tables, projectId: Id, voter: Id)
    requires AtMostOnce(t.votes)
    ensures var first := ProjectUpvoteAdded(t, projectId, voter, false);
            var second := ProjectUpvoteAdded(first.tables, projectId, voter, false);
      && (first.ok <==> Vote(voter, projectId, ProjectTarget) !in t.votes)
      && !second.ok && second.tables == first.tables
      && ProjectUpvotes(second.tables, projectId)
           == ProjectUpvotes(t, projectId) + (if first.ok && projectId in t.projects then 1 else 0)
      && Count(second.tables.votes, Vote(voter, projectId, ProjectTarget)) == 1
  {
    var v := Vote(voter, projectId, ProjectTarget);
    CountPresent(t.votes, v);
    AppendCounts(t.votes, v);
  }

  /** Removing deletes every matching row and no other, and the counter is
      lowered by one exactly when it was positive, so it never goes below
      zero. */
  lemma RemoveProfileUpvoteEffect(t: Tables, target: Id, voter: Id)
    ensures var after := ProfileUpvoteRemoved(t, target, voter, false);
            var v := Vote(voter, target, ProfileTarget);
      && after.ok
      && v !in after.tables.votes
      && (forall w :: w != v ==> Count(after.tables.votes, w) == Count(t.votes, w))
      && ProfileUpvotes(after.tables, target)
           == if ProfileUpvotes(t, target) > 0 then ProfileUpvotes(t, target) - 1 else 0
  {
    var v := Vote(voter, target, ProfileTarget);
    WithoutCounts(t.votes, v);
    CountPresent(ProfileUpvoteRemoved(t, target, voter, false).tables.votes, v);
  }

  /** Adding a vote and then removing it restores the ledger and the
      profile's counter. */
  lemma AddThenRemoveProfileUpvote(t: Tables, target: Id, voter: Id, today: Day)
    requires Vote(voter, target, ProfileTarget) !in t.votes
    ensures var added := ProfileUpvoteAdded(t, target, voter, today, false);
            var removed := ProfileUpvoteRemoved(added.tables, target, voter, false);
      && added.ok && removed.ok
      && removed.tables.votes == t.votes
      && removed.tables.profiles.Keys == t.profiles.Keys
      && (forall id :: ProfileUpvotes(removed.tables, id) == ProfileUpvotes(t, id))
  {
    var v := Vote(voter, target, ProfileTarget);
    CountPresent(t.votes, v);
    WithoutAbsent(t.votes, v);
    assert Without(t.votes + [v], v) == Without(t.votes, v) by {
      assert (t.votes + [v])[..|t.votes|] == t.votes;
    }
  }

  /** A profile's counter agrees with the number of votes for it. */
  predicate Tallied(t: Tables, id: Id)
  {
    id in t.profiles ==> OrZero(t.profiles[id].upvotes) == Tally(t.votes, id, ProfileTarget)
  }

  lemma AddKeepsTallied(t: Tables, target: Id, voter: Id, today: Day, insertFails: bool, id: Id)
    requires Tallied(t, id)
    ensures Tallied(ProfileUpvoteAdded(t, target, voter, today, insertFails).tables, id)
  {
    AppendCounts(t.votes, Vote(voter, target, ProfileTarget));
  }

  /** The corrected removal keeps every counter in agreement with the
      ledger. */
  lemma CorrectedRemoveKeepsTallied(t: Tables, target: Id, voter: Id, deleteFails: bool, id: Id)
    requires AtMostOnce(t.votes)
    requires Tallied(t, id)
    ensures Tallied(ProfileUpvoteRemovedCorrected(t, target, voter, deleteFails).tables, id)
  {
    var v := Vote(voter, target, ProfileTarget);
    WithoutTally(t.votes, v);
  }

  /** The removal as written does not: a voter who never voted for "ann"
      still takes one of her upvotes away. */
  lemma RemoveWithoutVoteBreaksTally()
    ensures var t := Tables([Vote("bob", "ann", ProfileTarget)],
                            map["ann" := Counters(Some(0), Some(1))], map[], map[]);
            var after := ProfileUpvoteRemoved(t, "ann", "eve", false);
      && Tallied(t, "ann") && after.ok && !Tallied(after.tables, "ann")
      && after.tables.votes == t.votes
  {
    var v := Vote("bob", "ann", ProfileTarget);
    var rows := [v];
    assert rows[..0] == [];
    WithoutAbsent(rows, Vote("eve", "ann", ProfileTarget));
  }

  /** `recordDailyStats` touches one row: the counter named by `kind` rises
      by one (a new row is (1, 0) or (0, 1)), the other counter and every
      other row and table stay as they were. */
  lemma DailyStatsRecordedEffect(t: Tables, user: Id, kind: StatKind, today: Day)
    ensures var o := DailyStatsRecorded(t, user, kind, today);
            var key := (user, today);
            var before := if key in t.daily then t.daily[key] else DayStat(0, 0);
      && o.ok && key in o.tables.daily
      && o.tables.daily[key].views == before.views + (if kind == ViewStat then 1 else 0)
      && o.tables.daily[key].upvotes == before.upvotes + (if kind == UpvoteStat then 1 else 0)
      && (forall k :: k != key ==> (k in o.tables.daily <==> k in t.daily))
      && (forall k :: k != key && k in t.daily ==> o.tables.daily[k] == t.daily[k])
      && o.tables.(daily := t.daily) == t
  {
  }

  /** The day's row after any order of events depends only on how many of
      each kind there were: recording a view and an upvote commute. */
  lemma DailyStatsCommute(t: Tables, user: Id, today: Day, k1: StatKind, k2: StatKind)
    ensures DailyStatsRecorded(DailyStatsRecorded(t, user, k1, today).tables, user, k2, today)
         == DailyStatsRecorded(DailyStatsRecorded(t, user, k2, today).tables, user, k1, today)
  {
  }

  /** An upvote's daily-stats bump is `recordDailyStats(target, 'upvote')`. */
  lemma AddProfileUpvoteRecordsDay(t: Tables, target: Id, voter: Id, today: Day)
    requires ProfileUpvoteAdded(t, target, voter, today, false).ok
    ensures ProfileUpvoteAdded(t, target, voter, today, false).tables.daily
         == DailyStatsRecorded(t, target, UpvoteStat, today).tables.daily
  {
  }

  /** `n` successful view increments. */
  function ViewsIncrementedTimes(t: Tables, projectId: Id, n: nat): Tables
  {
    if n == 0 then t else ProjectViewsIncremented(ViewsIncrementedTimes(t, projectId, n - 1), projectId, false).tables
  }

  /** `incrementProjectViews` refuses a missing project and otherwise raises
      `views` by exactly one per call, touching nothing else. */
  lemma {:induction false} ProjectViewsCount(t: Tables, projectId: Id, n: nat)
    ensures ProjectViewsIncremented(t, projectId, false).ok <==> projectId in t.projects
    ensures projectId !in t.projects ==> ViewsIncrementedTimes(t, projectId, n) == t
    ensures projectId in t.projects ==>
      var after := ViewsIncrementedTimes(t, projectId, n);
      && projectId in after.projects
      && OrZero(after.projects[projectId].views) == OrZero(t.projects[projectId].views) + n
      && after.projects[projectId].upvotes == t.projects[projectId].upvotes
      && after.(projects := t.projects) == t
      && after.projects.Keys == t.projects.Keys
      && OthersUnchanged(t.projects, after.projects, projectId)
  {
    if n > 0 {
      ProjectViewsCount(t, projectId, n - 1);
    }
  }
}
