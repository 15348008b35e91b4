/**
 * The cyber response portal: the visitor's role and name read from the stored
 * user record, the action-to-route table of the universal section, and the
 * choice of the role-specific tool section.
 */
module CyberPortal {
  import opened Wrappers
  import opened JsText

  /** The `role` member of the parsed record: missing (`undefined`/`null`), a
      string, or any other JSON value (on which `toLowerCase` throws). */
  datatype RoleField = Missing | Text(text: string) | NonText

  /** What the `user` entry of local storage holds. `NoEntry` covers a missing or
      empty entry; a parsed value that is not an object reads as
      `Parsed(Missing, None)`. */
  datatype StoredUser = NoEntry | Unparseable | Parsed(role: RoleField, name: Option<string>)

  /** The two fields the mount effect sets. */
  datatype Identity = Identity(role: string, userName: string)

  const Guest := Identity("guest", "")

  /** The mount effect on the initial `('guest', '')`. A throw inside the `try`
      (bad JSON, or a role that is not a string) sets the role to 'guest' and
      leaves the name as it was. */
  function Identify(stored: StoredUser): (id: Identity)
    ensures id.role != "" && ToLowerCase(id.role) == id.role
    ensures stored.NoEntry? || stored.Unparseable? ==> id == Guest
    ensures stored.Parsed? && stored.role.NonText? ==> id == Guest
    ensures stored.Parsed? && !stored.role.NonText? ==>
              && id.role == (if stored.role.Text? && stored.role.text != "" then ToLowerCase(stored.role.text) else "guest")
              && id.userName == (if stored.name.Some? && stored.name.value != "" then stored.name.value else "Guest")
  {
    match stored
    case NoEntry => Guest
    case Unparseable => Guest
    case Parsed(role, name) =>
      match role
      case NonText => Guest
      case Missing => Identity("guest", NameOrGuest(name))
      case Text(s) =>
        LowerIdempotent(s);
        Identity(if s == "" then "guest" else ToLowerCase(s), NameOrGuest(name))
  }

  /** `user?.name || 'Guest'`. */
  function NameOrGuest(name: Option<string>): string {
    if name.Some? && name.value != "" then name.value else "Guest"
  }

  /** Lower-casing twice is lower-casing once: the helper behind `Identify`'s
      lower-case role. */
  lemma LowerIdempotent(s: string)
    ensures ToLowerCase(ToLowerCase(s)) == ToLowerCase(s)
  {
  }

  /** The role-specific sections rendered under the universal one. */
  datatype RoleTools = CitizenTools | LawyerTools | PoliceTools

  /** At most one section, and only for the exact roles 'citizen', 'lawyer' and
      'police'. */
  function RoleSection(role: string): (t: Option<RoleTools>)
    ensures t == Some(CitizenTools) <==> role == "citizen"
    ensures t == Some(LawyerTools) <==> role == "lawyer"
    ensures t == Some(PoliceTools) <==> role == "police"
    ensures t.None? <==> role !in ["citizen", "lawyer", "police"]
  {
    if role == "citizen" then Some(CitizenTools)
    else if role == "lawyer" then Some(LawyerTools)
    else if role == "police" then Some(PoliceTools)
    else None
  }

  /** A stored role in any letter case of "police" unlocks the police tools. */
  lemma StoredPoliceSeesPoliceTools(s: string, name: Option<string>)
    requires SameIgnoringCase(s, "police")
    ensures RoleSection(Identify(Parsed(Text(s), name)).role) == Some(PoliceTools)
  {
    LowersToIffSameIgnoringCase(s, "police");
  }

  /** The signup page's "Legal" role lower-cases to 'legal', which has no section:
      such a user, like a guest, sees only the universal section. */
  lemma LegalRoleSeesNoTools(name: Option<string>)
    ensures RoleSection(Identify(Parsed(Text("Legal"), name)).role).None?
    ensures RoleSection(Identify(NoEntry).role).None?
  {
    assert ToLowerCase("Legal") == "legal";
  }

  const EmergencyRoute := "/cyber-portal/emergency-support"
  const RecoveryRoute := "/cyber-portal/recovery-guide"
  const AwarenessRoute := "/cyber-portal/cyber-awareness"

  /** `handleAction(endpoint)`: three endpoints navigate, every other one does
      nothing. */
  function ActionRoute(endpoint: string): (route: Option<string>)
    ensures route.Some? <==> endpoint in ["emergency-helpline", "recovery-steps", "cyber-awareness"]
    ensures endpoint == "emergency-helpline" ==> route == Some(EmergencyRoute)
    ensures endpoint == "recovery-steps" ==> route == Some(RecoveryRoute)
    ensures endpoint == "cyber-awareness" ==> route == Some(AwarenessRoute)
  {
    if endpoint == "emergency-helpline" then Some(EmergencyRoute)
    else if endpoint == "recovery-steps" then Some(RecoveryRoute)
    else if endpoint == "cyber-awareness" then Some(AwarenessRoute)
    else None
  }

  class PortalPage {
    var role: string
    var userName: string
    var navigations: seq<string>

    /** Before the mount effect: a guest with an empty name. */
    constructor()
      ensures role == "guest" && userName == "" && navigations == []
    {
      role := "guest";
      userName := "";
      navigations := [];
    }

    /** The mount effect reads the stored user once. */
    method Mount(stored: StoredUser)
      requires role == "guest" && userName == ""
      modifies this
      ensures Identity(role, userName) == Identify(stored)
      ensures navigations == old(navigations)
    {
      var id := Identify(stored);
      role := id.role;
      userName := id.userName;
    }

    /** A click in the universal section: a known endpoint navigates, any other
        changes nothing. */
    method HandleAction(endpoint: string)
      modifies this
      ensures navigations == old(navigations) + (if ActionRoute(endpoint).Some? then [ActionRoute(endpoint).value] else [])
      ensures role == old(role) && userName == old(userName)
    {
      var route := ActionRoute(endpoint);
      if route.Some? {
        navigations := navigations + [route.value];
      }
    }
  }
}
