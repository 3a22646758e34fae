/** What RequireOrg comes down to for a caller whose memberships Grafana reports
    by name, stated on those names. */
module AuthorizerOutcomes {
  import opened Prelude
  import opened AuthzTypes
  import opened TtlCache
  import opened OrgDecision
  import opened OrgDecisionLaws
  import opened OrgClone
  import opened RoleCache
  import opened Authz

  // ------------------------------------------------------------ role names

  /** Grafana's name for a role, as it is compared. */
  function NameOf(lower: string -> string, m: Membership): string
  {
    lower(TrimSpace(m.role))
  }

  predicate IsRoleName(name: string)
  {
    name in {"admin", "editor", "viewer"}
  }

  /** The required roles that a member with this role meets. */
  function Meets(name: string): set<Role>
  {
    if name == "admin" then {RoleNone, RoleViewer, RoleEditor, RoleAdmin}
    else if name == "editor" then {RoleNone, RoleViewer, RoleEditor}
    else if name == "viewer" then {RoleNone, RoleViewer}
    else {}
  }

  ghost predicate LastNamedAt(lower: string -> string, ms: seq<Membership>, id: int, name: string, i: int)
    requires 0 <= i < |ms|
  {
    && ms[i].orgID == id && NameOf(lower, ms[i]) == name && IsRoleName(name)
    && forall j | i < j < |ms| && ms[j].orgID == id :: !IsRoleName(NameOf(lower, ms[j]))
  }

  /** The last entry for the org that names a role names this one. */
  ghost predicate LastNamed(lower: string -> string, ms: seq<Membership>, id: int, name: string)
  {
    exists i | 0 <= i < |ms| :: LastNamedAt(lower, ms, id, name, i)
  }

  ghost predicate NeverNamed(lower: string -> string, ms: seq<Membership>, id: int)
  {
    forall i | 0 <= i < |ms| && ms[i].orgID == id :: !IsRoleName(NameOf(lower, ms[i]))
  }

  /** A role that is at least the required one exactly for these. */
  ghost predicate IsWorth(role: Role, name: string)
  {
    forall minRole: Role :: role.AtLeast(minRole) <==> minRole in Meets(name)
  }

  lemma NamesAreRead(lower: string -> string, m: Membership)
    ensures RoleFromGrafana(lower, m.role) == RoleNone <==> !IsRoleName(NameOf(lower, m))
    ensures IsRoleName(NameOf(lower, m)) ==> IsWorth(RoleFromGrafana(lower, m.role), NameOf(lower, m))
  {
  }

  /** The stored role is worth what its name says. */
  lemma NamedRoleIsStored(lower: string -> string, ms: seq<Membership>, id: int, name: string)
    requires LastNamed(lower, ms, id, name)
    ensures id in RolesOf(lower, ms) && IsWorth(RolesOf(lower, ms)[id], name)
  {
    var i :| 0 <= i < |ms| && LastNamedAt(lower, ms, id, name, i);
    NamesAreRead(lower, ms[i]);
    forall j | i < j < |ms| && ms[j].orgID == id {
      NamesAreRead(lower, ms[j]);
    }
    assert RoleDecidedAt(lower, ms, id, RoleFromGrafana(lower, ms[i].role), i);
    RolesOfMeaning(lower, ms, id, RoleFromGrafana(lower, ms[i].role));
  }

  /** A name that is none of the three stores nothing. */
  lemma UnnamedRoleIsNotStored(lower: string -> string, ms: seq<Membership>, id: int)
    requires NeverNamed(lower, ms, id)
    ensures id !in RolesOf(lower, ms)
  {
    forall i | 0 <= i < |ms| && ms[i].orgID == id {
      NamesAreRead(lower, ms[i]);
    }
    forall role
      ensures !GivesRole(lower, ms, id, role)
    {
    }
    if id in RolesOf(lower, ms) {
      RolesOfMeaning(lower, ms, id, RolesOf(lower, ms)[id]);
    }
  }

  // ------------------------------------------------------------ the decision

  /** A caller named admin, editor or viewer on the org that ref names is
      granted it at exactly the roles which that name meets, and is otherwise
      told that the role does not suffice. */
  lemma DecisionByName<T>(lower: string -> string, ms: seq<Membership>, orgs: seq<Organization<T>>, ref: string, minRole: Role, i: int, name: string, d: Decision<T>)
    requires FoldDistinct(lower, orgs) && IsLastWithItsID(orgs, i) && lower(orgs[i].name) == lower(ref)
    requires LastNamed(lower, ms, orgs[i].orgID, name)
    requires IsDecision(lower, Accessible(RolesOf(lower, ms), orgs), orgs, ref, minRole, d)
    ensures if minRole in Meets(name) then d.Granted? && d.org == orgs[i].(role := d.org.role) && IsWorth(d.org.role, name)
            else d.InsufficientRole? && d.need == minRole && IsWorth(d.have, name)
  {
    var roles := RolesOf(lower, ms);
    NamedRoleIsStored(lower, ms, orgs[i].orgID, name);
    var o := orgs[i].(role := roles[orgs[i].orgID]);
    assert AccessibleAt(roles, orgs, o, i);
    AccessibleMeaning(roles, orgs, o);
    assert Denotes(lower, Accessible(roles, orgs), ref, o);
    DecisionIsUnique(lower, roles, orgs, ref, minRole, d, Judge(o, minRole));
  }

  /** A caller whom no entry names so is not granted that org. */
  lemma UnnamedIsNotGranted<T>(lower: string -> string, ms: seq<Membership>, orgs: seq<Organization<T>>, ref: string, minRole: Role, i: int, d: Decision<T>)
    requires IsLastWithItsID(orgs, i) && NeverNamed(lower, ms, orgs[i].orgID)
    requires IsDecision(lower, Accessible(RolesOf(lower, ms), orgs), orgs, ref, minRole, d)
    ensures d.Granted? ==> d.org.orgID != orgs[i].orgID
  {
    UnnamedRoleIsNotStored(lower, ms, orgs[i].orgID);
    if d.Granted? {
      AccessibleMeaning(RolesOf(lower, ms), orgs, d.org);
    }
  }

  /** Which error names which refusal. */
  lemma RefusalMeaning<T>(lower: string -> string, roles: map<int, Role>, orgs: seq<Organization<T>>, ref: string, minRole: Role, d: Decision<T>)
    requires IsDecision(lower, Accessible(roles, orgs), orgs, ref, minRole, d) && !d.Granted?
    ensures var all := Accessible(roles, orgs);
      match Refusal(d)
      case NoSuchOrg => !RegistryNames(lower, orgs, ref)
      case NotAuthorisedFor => RegistryNames(lower, orgs, ref) && forall o | o in all :: !Names(lower, o, lower(ref))
      case AmbiguousOrgRef(n) => n == |DisplayedBy(lower, all, lower(ref))| >= 2 && !HasName(lower, all, lower(ref))
      case InsufficientRoleFor(have, need) => need == minRole && exists o | o in all :: Denotes(lower, all, ref, o) && o.role == have
      case _ => false
  {
  }

  // ------------------------------------------------------------- the caller

  /** A caller without a subject is turned away, whatever else is known. */
  lemma SubjectIsRequired(lower: string -> string, ttls: Lifetimes, cache: Cache, email: string, g: Grafana, lookupAt: int, stampAt: int)
    ensures Resolve(lower, ttls, cache, Caller("", email), g, lookupAt, stampAt) == (Err(NoCallerIdentity), cache)
  {
  }

  /** Grafana is asked about the email where there is one, and otherwise about
      the subject; the answer is kept under the subject. */
  lemma IdentityIsAsked(lower: string -> string, ttls: Lifetimes, cache: Cache, caller: Caller, g: Grafana, lookupAt: int, stampAt: int, user: int, ms: seq<Membership>)
    requires caller.subject != "" && Get(cache, caller.subject, lookupAt).None?
    requires g.lookupUser(if caller.email == "" then caller.subject else caller.email) == Ok(Some(user)) && g.userOrgs(user) == Ok(ms)
    ensures var (roles, after) := Resolve(lower, ttls, cache, caller, g, lookupAt, stampAt);
      && roles == Ok(RolesOf(lower, ms))
      && after == Store(ttls, cache, caller.subject, RoleView(Known, RolesOf(lower, ms)), stampAt)
  {
  }

  /** RequireOrg for a caller whose roles are not cached and whom Grafana names
      so on the org meant. */
  method RequireNamed(a: Authorizer, caller: Caller, ref: string, minRole: Role, env: Env, ghost user: int, ghost ms: seq<Membership>,
      orgs: seq<HeapOrg>, ghost i: int, ghost name: string) returns (r: Result<HeapOrg, AuthzError>)
    requires caller.subject != "" && Get(a.cache, caller.subject, env.lookupAt).None?
    requires env.grafana.lookupUser(if caller.email == "" then caller.subject else caller.email) == Ok(Some(user))
    requires env.grafana.userOrgs(user) == Ok(ms) && env.registry == Some(orgs)
    requires FoldDistinct(a.lower, orgs) && IsLastWithItsID(orgs, i) && a.lower(orgs[i].name) == a.lower(ref)
    requires LastNamed(a.lower, ms, orgs[i].orgID, name) && minRole != RoleNone
    modifies a`cache
    ensures if minRole in Meets(name) then
              && r.Ok? && r.value.name == orgs[i].name && r.value.orgID == orgs[i].orgID && IsWorth(r.value.role, name)
              && View(r.value.tenants) == View(orgs[i].tenants)
            else r.Err? && r.error.InsufficientRoleFor? && r.error.need == minRole && IsWorth(r.error.have, name)
  {
    IdentityIsAsked(a.lower, a.ttls, a.cache, caller, env.grafana, env.lookupAt, env.stampAt, user, ms);
    ghost var roles, d;
    r, roles, d := a.RequireOrg(caller, ref, minRole, env);
    DecisionByName(a.lower, ms, orgs, ref, minRole, i, name, d);
  }
}
