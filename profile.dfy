/**
 * The profile page: the user on display (the logged-in user, or a mock user when
 * nobody is logged in), the role badge theme, the role switch and logout.
 * The authentication context's `updateUser` and `logout` are recorded calls.
 */
module Profile {
  import opened Wrappers
  import opened JsText
  import opened Users

  const PoliceBadge := "bg-blue-100 text-blue-700"
  const LegalBadge := "bg-purple-100 text-purple-700"
  const DefaultBadge := "bg-orange-100 text-orange-700"

  const LoginRoute := "/login"

  /** Shown when nobody is logged in. */
  const MockUser := User("Aditya Sharma", "aditya.sharma@example.com", Some("Citizen"), None, Some(Stats(12, 5, 3)))

  /** `getRoleTheme(role)`: the switch on `role?.toLowerCase()`. */
  function RoleTheme(role: Option<string>): (badge: string)
    ensures badge == PoliceBadge <==> role.Some? && SameIgnoringCase(role.value, "police")
    ensures badge == LegalBadge <==> role.Some? && SameIgnoringCase(role.value, "legal")
    ensures badge == DefaultBadge <==>
              role.None? || (!SameIgnoringCase(role.value, "police") && !SameIgnoringCase(role.value, "legal"))
  {
    if role.Some? then
      LowersToIffSameIgnoringCase(role.value, "police");
      LowersToIffSameIgnoringCase(role.value, "legal");
      var lowered := ToLowerCase(role.value);
      if lowered == "police" then PoliceBadge
      else if lowered == "legal" then LegalBadge
      else DefaultBadge
    else DefaultBadge
  }

  /** The "Verified" line under the role badge compares the role with exact case. */
  function VerifiedBadge(role: Option<string>): (line: Option<string>)
    ensures line == Some("Verified Bar Council ID") <==> role == Some("Legal")
    ensures line == Some("Verified Police ID") <==> role == Some("Police")
    ensures line.None? <==> role != Some("Legal") && role != Some("Police")
  {
    if role == Some("Legal") then Some("Verified Bar Council ID")
    else if role == Some("Police") then Some("Verified Police ID")
    else None
  }

  /** The two role tests disagree on casing: a role spelled "legal" gets the
      purple theme but no verified line, and "POLICE" the blue theme but none either. */
  lemma RoleCasingContrast()
    ensures RoleTheme(Some("legal")) == LegalBadge && VerifiedBadge(Some("legal")).None?
    ensures RoleTheme(Some("POLICE")) == PoliceBadge && VerifiedBadge(Some("POLICE")).None?
    ensures RoleTheme(Some("Citizen")) == DefaultBadge && RoleTheme(None) == DefaultBadge
  {
    assert SameIgnoringCase("legal", "legal");
    assert SameIgnoringCase("POLICE", "police");
    assert !SameIgnoringCase("Citizen", "police");
    assert !SameIgnoringCase("Citizen", "legal");
  }

  /** The three counters on the profile. */
  datatype StatKind = LawsRead | SavedItems | TestsTaken

  /** `activeUser.stats?.<kind> || 0`: a missing stats record shows 0. */
  function StatShown(stats: Option<Stats>, kind: StatKind): (n: int)
    ensures stats.None? ==> n == 0
    ensures stats.Some? && kind == LawsRead ==> n == stats.value.lawsRead
    ensures stats.Some? && kind == SavedItems ==> n == stats.value.savedItems
    ensures stats.Some? && kind == TestsTaken ==> n == stats.value.testsTaken
  {
    match stats
    case None => 0
    case Some(s) =>
      match kind
      case LawsRead => s.lawsRead
      case SavedItems => s.savedItems
      case TestsTaken => s.testsTaken
  }

  class ProfilePage {
    /** The logged-in user the authentication context currently provides. */
    var authUser: Option<User>
    var activeUser: User
    /** Roles passed to the context's `updateUser`, oldest first. */
    var roleUpdates: seq<string>
    /** Number of calls to the context's `logout`. */
    var logoutCalls: nat
    var navigations: seq<string>

    /** `useState(user || mockUser)`. */
    constructor(user: Option<User>)
      ensures authUser == user && activeUser == user.GetOr(MockUser)
      ensures roleUpdates == [] && logoutCalls == 0 && navigations == []
    {
      authUser := user;
      activeUser := user.GetOr(MockUser);
      roleUpdates := [];
      logoutCalls := 0;
      navigations := [];
    }

    /** The effect on a change of the context user: a present user becomes the
        active user; an absent one leaves the active user as it was. */
    method OnAuthUserChanged(user: Option<User>)
      modifies this
      ensures authUser == user
      ensures activeUser == (if user.Some? then user.value else old(activeUser))
      ensures roleUpdates == old(roleUpdates) && logoutCalls == old(logoutCalls) && navigations == old(navigations)
    {
      authUser := user;
      if user.Some? {
        activeUser := user.value;
      }
    }

    /** The badge theme of the user on display. */
    function Theme(): (badge: string)
      reads this
      ensures badge in {PoliceBadge, LegalBadge, DefaultBadge}
      ensures badge == RoleTheme(activeUser.role)
    {
      RoleTheme(activeUser.role)
    }

    /** `handleRoleSwitch`: only the role of the active user changes; the context
        is told only when a user is logged in. */
    method HandleRoleSwitch(newRole: string)
      modifies this
      ensures activeUser == old(activeUser).(role := Some(newRole))
      ensures roleUpdates == old(roleUpdates) + (if authUser.Some? then [newRole] else [])
      ensures authUser == old(authUser) && logoutCalls == old(logoutCalls) && navigations == old(navigations)
    {
      activeUser := activeUser.(role := Some(newRole));
      if authUser.Some? {
        roleUpdates := roleUpdates + [newRole];
      }
    }

    /** `handleLogout`: tells the context and goes to the login page. */
    method HandleLogout()
      modifies this
      ensures logoutCalls == old(logoutCalls) + 1 && navigations == old(navigations) + [LoginRoute]
      ensures authUser == old(authUser) && activeUser == old(activeUser) && roleUpdates == old(roleUpdates)
    {
      logoutCalls := logoutCalls + 1;
      navigations := navigations + [LoginRoute];
    }
  }
}
