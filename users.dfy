/** The user record the pages hand to the authentication context and display. */
module Users {
  import opened Wrappers

  /** Activity counters shown on the profile page. */
  datatype Stats = Stats(lawsRead: int, savedItems: int, testsTaken: int)

  /** A user as the pages build it: `role` and `stats` may be missing on a record
      that comes from elsewhere, `avatar` is `null` on every record built here. */
  datatype User = User(
    name: string,
    email: string,
    role: Option<string>,
    avatar: Option<string>,
    stats: Option<Stats>)
}
