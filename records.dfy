/** The rows of the store's tables that the modelled code reads. Timestamps
    are milliseconds since the epoch; the counters the code reads with
    `|| 0` are nullable. */
module Records {
  import opened Wrappers

  type Id = string

  const DayMs: int := 24 * 60 * 60 * 1000
  const WeekMs: int := 7 * DayMs

  /** The `target_type` of an upvote. */
  datatype TargetType = ProfileTarget | ProjectTarget

  /** A `profiles` row. */
  datatype Profile = Profile(
    userId: Id, username: string, displayName: string, avatar: string,
    views: Option<nat>, upvotes: Option<nat>, streak: Option<nat>, rank: Option<nat>,
    badges: Option<seq<string>>, email: string, createdAt: int, country: Option<string>)

  /** A `projects` row. */
  datatype Project = Project(
    id: Id, userId: Id, title: string,
    views: Option<nat>, upvotes: Option<nat>, createdAt: int)

  /** An `upvotes` row. */
  datatype UpvoteRow = UpvoteRow(voterId: Id, targetId: Id, targetType: TargetType, createdAt: int)
}
