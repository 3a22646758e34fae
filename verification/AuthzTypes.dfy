/** Domain types of internal/authz: roles, callers, organizations, and the
    reading of Grafana's per-org role strings.

    `lower` stands for strings.ToLower throughout the project. It is a
    parameter, so every result holds for whatever case mapping is used. */
module AuthzTypes {
  import opened Prelude

  datatype Role = RoleNone | RoleViewer | RoleEditor | RoleAdmin
  {
    function Level(): nat {
      match this
      case RoleNone => 0
      case RoleViewer => 1
      case RoleEditor => 2
      case RoleAdmin => 3
    }

    predicate AtLeast(other: Role) {
      other.Level() <= Level()
    }
  }

  /** Subject keys the cache; Email, when set, is the handle Grafana is asked
      about. */
  datatype Caller = Caller(subject: string, email: string)
  {
    function Identity(): string {
      if email != "" then email else subject
    }

    predicate Authenticated() {
      subject != ""
    }
  }

  datatype Tenant = Tenant(name: string, types: seq<string>)

  /** An organization whose tenants are held in some representation T: a plain
      sequence, or a slice on the heap. */
  datatype Organization<+T> = Organization(name: string, displayName: string, orgID: int, role: Role, tenants: T)

  /** One entry of Grafana's answer to "which orgs is this user in". */
  datatype Membership = Membership(orgID: int, role: string)

  predicate HasTenantType(tenants: seq<Tenant>, want: string)
  {
    exists i | 0 <= i < |tenants| :: want in tenants[i].types
  }

  function RoleFromGrafana(lower: string -> string, s: string): Role
  {
    var n := lower(TrimSpace(s));
    if n == "admin" then RoleAdmin
    else if n == "editor" then RoleEditor
    else if n == "viewer" then RoleViewer
    else RoleNone
  }

  /** The role map the load loop builds: later entries win, entries that parse
      to no role are skipped. */
  function RolesOf(lower: string -> string, ms: seq<Membership>): map<int, Role>
  {
    if ms == [] then map[]
    else
      var before := RolesOf(lower, Front(ms));
      var role := RoleFromGrafana(lower, Last(ms).role);
      if role == RoleNone then before else before[Last(ms).orgID := role]
  }

  ghost predicate RoleDecidedAt(lower: string -> string, ms: seq<Membership>, id: int, role: Role, i: int)
    requires 0 <= i < |ms|
  {
    && role != RoleNone
    && ms[i].orgID == id && RoleFromGrafana(lower, ms[i].role) == role
    && forall j | i < j < |ms| && ms[j].orgID == id :: RoleFromGrafana(lower, ms[j].role) == RoleNone
  }

  /** Grafana's answer gives `role` on org `id`: some entry says so, and no
      later entry for that org names a role. */
  ghost predicate GivesRole(lower: string -> string, ms: seq<Membership>, id: int, role: Role)
  {
    exists i | 0 <= i < |ms| :: RoleDecidedAt(lower, ms, id, role, i)
  }

  lemma LastEntryIrrelevant(lower: string -> string, ms: seq<Membership>, id: int, role: Role, i: int)
    requires 0 <= i < |ms| - 1
    requires Last(ms).orgID == id ==> RoleFromGrafana(lower, Last(ms).role) == RoleNone
    ensures RoleDecidedAt(lower, Front(ms), id, role, i) <==> RoleDecidedAt(lower, ms, id, role, i)
  {
    forall j | i < j < |ms| - 1
      ensures Front(ms)[j] == ms[j]
    {
    }
    if RoleDecidedAt(lower, Front(ms), id, role, i) {
      forall j | i < j < |ms| && ms[j].orgID == id
        ensures RoleFromGrafana(lower, ms[j].role) == RoleNone
      {
        if j < |ms| - 1 {
          assert Front(ms)[j].orgID == id;
        }
      }
    }
  }

  lemma FrontGives(lower: string -> string, ms: seq<Membership>, id: int, role: Role)
    requires ms != []
    requires Last(ms).orgID == id ==> RoleFromGrafana(lower, Last(ms).role) == RoleNone
    ensures GivesRole(lower, Front(ms), id, role) <==> GivesRole(lower, ms, id, role)
  {
    if i :| 0 <= i < |ms| && RoleDecidedAt(lower, ms, id, role, i) {
      assert i < |ms| - 1;
      LastEntryIrrelevant(lower, ms, id, role, i);
    }
    if i :| 0 <= i < |ms| - 1 && RoleDecidedAt(lower, Front(ms), id, role, i) {
      LastEntryIrrelevant(lower, ms, id, role, i);
    }
  }

  lemma LastEntryDecides(lower: string -> string, ms: seq<Membership>, id: int, role: Role)
    requires ms != [] && Last(ms).orgID == id && RoleFromGrafana(lower, Last(ms).role) != RoleNone
    ensures GivesRole(lower, ms, id, role) <==> role == RoleFromGrafana(lower, Last(ms).role)
  {
    assert RoleDecidedAt(lower, ms, id, RoleFromGrafana(lower, Last(ms).role), |ms| - 1);
  }

  /** The role map says exactly what Grafana's answer gives; in particular no
      stored role is RoleNone. */
  lemma {:induction false} RolesOfMeaning(lower: string -> string, ms: seq<Membership>, id: int, role: Role)
    ensures (id in RolesOf(lower, ms) && RolesOf(lower, ms)[id] == role) <==> GivesRole(lower, ms, id, role)
  {
    if ms != [] {
      if Last(ms).orgID == id && RoleFromGrafana(lower, Last(ms).role) != RoleNone {
        LastEntryDecides(lower, ms, id, role);
      } else {
        RolesOfMeaning(lower, Front(ms), id, role);
        FrontGives(lower, ms, id, role);
      }
    }
  }
}
