/** The other half of freshness: what a refusal rests on. A denial is the
    decision on a recent answer of Grafana, so a role that Grafana has come to
    give is honoured once that answer has run out. */
module GatewayDenials {
  import opened Prelude
  import opened AuthzTypes
  import opened OrgDecision
  import opened OrgDecisionLaws
  import opened Gateway
  import opened GatewayInvariant
  import opened GatewayTheorems

  ghost predicate HasDenied(cfg: Config, run: seq<State>, id: nat, d: Decision<seq<Tenant>>, roles: RoleEvidence, listedAt: nat)
  {
    && IsRun(cfg, run) && id in Last(run).requests
    && Last(run).requests[id].phase == Closed(Denied(d, roles, listedAt))
  }

  /** The registry as it was listed at this instant. */
  function RegistryAt(s: State, listedAt: nat): seq<Org>
  {
    if listedAt < |s.hist| then s.hist[listedAt].registry else []
  }

  lemma DenialsAreJustified(cfg: Config, run: seq<State>, id: nat, d: Decision<seq<Tenant>>, roles: RoleEvidence, listedAt: nat)
    requires HasDenied(cfg, run, id, d, roles, listedAt)
    ensures var s := Last(run);
      var q := s.requests[id].asked;
      && Inv(cfg, s) && q.id == id && EvidenceOk(cfg, s, q, roles) && roles.view.status.Known?
      && roles.lookupAt <= listedAt < |s.hist| && DenialOk(cfg, RegistryAt(s, listedAt), q, roles, d)
  {
    RunsKeepInv(cfg, run, |run| - 1);
    assert RequestOk(cfg, Last(run), id, Last(run).requests[id]);
  }

  /** A denial is the decision on a registry listing read after the request
      arrived and on roles from a load that is the request's own or younger than
      the lifetime its answer selects. */
  lemma DenialsAreCurrent(cfg: Config, run: seq<State>, id: nat, d: Decision<seq<Tenant>>, roles: RoleEvidence, listedAt: nat)
    requires HasDenied(cfg, run, id, d, roles, listedAt)
    requires FoldDistinct(cfg.lower, RegistryAt(Last(run), listedAt))
    ensures var s := Last(run);
      var q := s.requests[id].asked;
      var registry := RegistryAt(s, listedAt);
      && q.start <= listedAt < |s.hist| && q.want.WantTool? && !d.Granted?
      && IsDecision(cfg.lower, Accessible(roles.view.roles, registry), registry, q.want.ref, q.want.minRole, d)
      && Recent(s, q, roles, cfg.roleTTLs.For(roles.view))
  {
    DenialsAreJustified(cfg, run, id, d, roles, listedAt);
    var s := Last(run);
    var q := s.requests[id].asked;
    var registry := RegistryAt(s, listedAt);
    var access :| IsAccess(access, Accessible(roles.view.roles, registry))
      && MayConclude(cfg.lower, access, registry, q.want.ref, q.want.minRole, d);
    LoopsComputeTheDecision(cfg.lower, roles.view.roles, registry, access, q.want.ref, q.want.minRole, d);
  }

  /** Entry i of a listing is the org that ref means, by its name or, where no
      other entry goes by ref at all, by its display name; and no later entry
      has taken its OrgID over. */
  ghost predicate NamedEntry(cfg: Config, registry: seq<Org>, ref: string, i: int)
  {
    && IsLastWithItsID(registry, i)
    && (|| cfg.lower(registry[i].name) == cfg.lower(ref)
        || (&& cfg.lower(registry[i].displayName) == cfg.lower(ref)
            && forall j | 0 <= j < |registry| && Names(cfg.lower, registry[j], cfg.lower(ref)) :: j == i))
  }

  /** With a role on it, that entry is what the ref denotes. */
  lemma NamedEntryIsDenoted(cfg: Config, roles: map<int, Role>, registry: seq<Org>, ref: string, i: int)
    requires NamedEntry(cfg, registry, ref, i) && registry[i].orgID in roles
    ensures Denotes(cfg.lower, Accessible(roles, registry), ref, registry[i].(role := roles[registry[i].orgID]))
  {
    var all := Accessible(roles, registry);
    var o := registry[i].(role := roles[registry[i].orgID]);
    assert AccessibleAt(roles, registry, o, i);
    AccessibleMeaning(roles, registry, o);
    if cfg.lower(o.name) != cfg.lower(ref) {
      forall p | p in all && Names(cfg.lower, p, cfg.lower(ref))
        ensures p == o
      {
        AccessibleMeaning(roles, registry, p);
        var j :| AccessibleAt(roles, registry, p, j);
        assert Names(cfg.lower, registry[j], cfg.lower(ref));
      }
    }
  }

  /** Where the load found a role on the org named, the denial says that this
      very role does not suffice. */
  lemma DeniedForTheRoleFound(cfg: Config, run: seq<State>, id: nat, d: Decision<seq<Tenant>>, roles: RoleEvidence, listedAt: nat, i: int, role: Role)
    requires HasDenied(cfg, run, id, d, roles, listedAt)
    requires FoldDistinct(cfg.lower, RegistryAt(Last(run), listedAt))
    requires Last(run).requests[id].asked.want.WantTool?
    requires NamedEntry(cfg, RegistryAt(Last(run), listedAt), Last(run).requests[id].asked.want.ref, i)
    requires GrafanaGave(cfg, Last(run), roles.load, RegistryAt(Last(run), listedAt)[i].orgID, role)
    ensures var minRole := Last(run).requests[id].asked.want.minRole;
      d == InsufficientRole(role, minRole) && !role.AtLeast(minRole)
  {
    DenialsAreJustified(cfg, run, id, d, roles, listedAt);
    DenialsAreCurrent(cfg, run, id, d, roles, listedAt);
    var s := Last(run);
    var want := s.requests[id].asked.want;
    var registry := RegistryAt(s, listedAt);
    var orgID := registry[i].orgID;
    RolesOfMeaning(cfg.lower, MembersOf(s.hist[roles.load.readAt], Account(s, roles.load)), orgID, role);
    var o := registry[i].(role := role);
    NamedEntryIsDenoted(cfg, roles.view.roles, registry, want.ref, i);
    DecisionIsUnique(cfg.lower, roles.view.roles, registry, want.ref, want.minRole, d, Judge(o, want.minRole));
  }

  /** At instant i Grafana gives at least minRole on the org to the account that
      the caller's identity had at instant j. */
  ghost predicate GivesEnough(cfg: Config, s: State, i: nat, j: nat, caller: Caller, orgID: int, minRole: Role)
    requires i < |s.hist| && j < |s.hist|
  {
    caller.Identity() in s.hist[j].users ==>
      var roles := RolesOf(cfg.lower, MembersOf(s.hist[i], s.hist[j].users[caller.Identity()]));
      orgID in roles && roles[orgID].AtLeast(minRole)
  }

  /** From instant v on, Grafana gives at least minRole on `orgID` to every
      account it has had for an identity of this subject. */
  ghost predicate GivenSince(cfg: Config, s: State, subject: string, orgID: int, minRole: Role, v: nat)
  {
    forall i: nat, j: nat, id | v <= i < |s.hist| && j < |s.hist| && id in s.requests && s.requests[id].asked.caller.subject == subject ::
      GivesEnough(cfg, s, i, j, s.requests[id].asked.caller, orgID, minRole)
  }

  lemma EnoughIsGiven(cfg: Config, s: State, load: Load, orgID: int, minRole: Role, v: nat)
    requires Ran(s, load) && GivenSince(cfg, s, load.caller.subject, orgID, minRole, v)
    requires load.start <= load.userAt <= load.readAt <= load.stampAt < |s.hist| && v <= load.readAt
    requires load.caller.Identity() in s.hist[load.userAt].users
    ensures exists role :: GrafanaGave(cfg, s, load, orgID, role) && role.AtLeast(minRole)
  {
    assert s.requests[load.owner].asked.caller == load.caller;
    assert GivesEnough(cfg, s, load.readAt, load.userAt, load.caller, orgID, minRole);
    var ms := MembersOf(s.hist[load.readAt], Account(s, load));
    RolesOfMeaning(cfg.lower, ms, orgID, RolesOf(cfg.lower, ms)[orgID]);
    assert GrafanaGave(cfg, s, load, orgID, RolesOf(cfg.lower, ms)[orgID]);
  }

  /** A new role takes effect: a request refused the org it names, though
      Grafana has given a sufficient role since instant v, rests on a membership
      read before v. It arrived before v, or it looked in the cache within the
      entry's lifetime and that load's duration after v. */
  lemma GrantTakesEffect(cfg: Config, run: seq<State>, id: nat, d: Decision<seq<Tenant>>, roles: RoleEvidence, listedAt: nat, i: int, v: nat)
    requires HasDenied(cfg, run, id, d, roles, listedAt)
    requires FoldDistinct(cfg.lower, RegistryAt(Last(run), listedAt))
    requires Last(run).requests[id].asked.want.WantTool? && v < |Last(run).hist|
    requires NamedEntry(cfg, RegistryAt(Last(run), listedAt), Last(run).requests[id].asked.want.ref, i)
    requires var q := Last(run).requests[id].asked;
      GivenSince(cfg, Last(run), q.caller.subject, RegistryAt(Last(run), listedAt)[i].orgID, q.want.minRole, v)
    ensures var s := Last(run);
      var load := roles.load;
      && load.readAt < v
      && roles.lookupAt < |s.hist| && load.stampAt < |s.hist|
      && var loadTime := s.hist[load.stampAt].now - s.hist[load.readAt].now;
      if roles.own then s.requests[id].asked.start < v
      else s.hist[roles.lookupAt].now < s.hist[v].now + cfg.roleTTLs.For(roles.view) + loadTime
  {
    DenialsAreJustified(cfg, run, id, d, roles, listedAt);
    var s := Last(run);
    var q := s.requests[id].asked;
    var orgID := RegistryAt(s, listedAt)[i].orgID;
    if v <= roles.load.readAt {
      EnoughIsGiven(cfg, s, roles.load, orgID, q.want.minRole, v);
      var role :| GrafanaGave(cfg, s, roles.load, orgID, role) && role.AtLeast(q.want.minRole);
      DeniedForTheRoleFound(cfg, run, id, d, roles, listedAt, i, role);
      assert false;
    }
  }

  /** From instant v on, Grafana knows every identity of this subject. */
  ghost predicate KnownSince(s: State, subject: string, v: nat)
  {
    forall i: nat, id | v <= i < |s.hist| && id in s.requests && s.requests[id].asked.caller.subject == subject ::
      s.requests[id].asked.caller.Identity() in s.hist[i].users
  }

  /** A caller told to be unknown, though known since instant v, rests on a user
      lookup before v. */
  lemma RegistrationTakesEffect(cfg: Config, run: seq<State>, id: nat, roles: RoleEvidence, v: nat)
    requires IsRun(cfg, run) && id in Last(run).requests && v < |Last(run).hist|
    requires Last(run).requests[id].phase == Closed(UnknownCaller(roles))
    requires KnownSince(Last(run), Last(run).requests[id].asked.caller.subject, v)
    ensures var s := Last(run);
      var load := roles.load;
      && load.userAt < v
      && roles.lookupAt < |s.hist| && load.stampAt < |s.hist|
      && var loadTime := s.hist[load.stampAt].now - s.hist[load.userAt].now;
      if roles.own then s.requests[id].asked.start < v
      else s.hist[roles.lookupAt].now < s.hist[v].now + cfg.roleTTLs.negative + loadTime
  {
    UnknownCallerIsRecent(cfg, run, id, roles);
    RunsKeepInv(cfg, run, |run| - 1);
    var s := Last(run);
    assert RequestOk(cfg, s, id, s.requests[id]);
    assert s.requests[roles.load.owner].asked.caller == roles.load.caller;
  }
}
