/** What the invariant gives for whole runs: bounded staleness of every grant,
    revocation, subject isolation, registry freshness, scoped datasource calls,
    and freedom from deadlock. */
module GatewayTheorems {
  import opened Prelude
  import opened AuthzTypes
  import opened TtlCache
  import opened OrgDecision
  import opened OrgDecisionLaws
  import DS = Datasources
  import TH = ToolHandlers
  import opened Gateway
  import opened GatewayInvariant

  /** The grant a request has been given, in any phase after its decision. */
  function GrantOf(r: Request): Option<Grant>
  {
    match r.phase
    case Using(g, _) => Some(g)
    case Closed(Performed(g, _, _)) => Some(g)
    case _ => None
  }

  ghost predicate HasGrant(cfg: Config, run: seq<State>, id: nat, g: Grant)
  {
    && IsRun(cfg, run) && id in Last(run).requests
    && GrantOf(Last(run).requests[id]) == Some(g)
  }

  lemma GrantsAreJustified(cfg: Config, run: seq<State>, id: nat, g: Grant)
    requires HasGrant(cfg, run, id, g)
    ensures var s := Last(run);
      Inv(cfg, s) && GrantOk(cfg, s, s.requests[id].asked, g) && PastGates(s.requests[id].asked) && s.requests[id].asked.id == id
  {
    RunsKeepInv(cfg, run, |run| - 1);
    assert RequestOk(cfg, Last(run), id, Last(run).requests[id]);
  }

  /** A grant has passed the gates: the caller has a subject, the tool requires
      a real role, and the role granted is at least that one. */
  lemma GrantsAreGated(cfg: Config, run: seq<State>, id: nat, g: Grant)
    requires HasGrant(cfg, run, id, g)
    ensures var q := Last(run).requests[id].asked;
      && q.caller.subject != "" && q.want.WantTool? && q.want.minRole != RoleNone
      && g.org.role.AtLeast(q.want.minRole) && Names(cfg.lower, g.org, cfg.lower(q.want.ref))
  {
    GrantsAreJustified(cfg, run, id, g);
  }

  /** The Grafana account a load read. */
  ghost function Account(s: State, load: Load): int
    requires load.userAt < |s.hist| && load.caller.Identity() in s.hist[load.userAt].users
  {
    s.hist[load.userAt].users[load.caller.Identity()]
  }

  /** At an instant inside the load, Grafana gave this role on this org to the
      account it had, a little earlier in the load, for the load's caller. */
  ghost predicate GrafanaGave(cfg: Config, s: State, load: Load, orgID: int, role: Role)
  {
    && load.start <= load.userAt <= load.readAt <= load.stampAt < |s.hist|
    && load.caller.Identity() in s.hist[load.userAt].users
    && GivesRole(cfg.lower, MembersOf(s.hist[load.readAt], Account(s, load)), orgID, role)
  }

  /** The load is this request's own, started after the request, or it was
      stamped less than one lifetime before this request looked in the cache,
      by a caller with the same subject. */
  ghost predicate Recent(s: State, q: Asked, roles: RoleEvidence, ttl: int)
  {
    var load := roles.load;
    && q.start <= roles.lookupAt < |s.hist| && load.stampAt < |s.hist|
    && load.caller.subject == q.caller.subject
    && (|| (roles.own && load.owner == q.id && load.caller == q.caller && q.start <= load.start)
        || (!roles.own && load.stampAt <= roles.lookupAt && s.hist[roles.lookupAt].now - s.hist[load.stampAt].now < ttl))
  }

  ghost predicate Registered(registry: seq<Org>, o: Org)
  {
    exists i | 0 <= i < |registry| :: o == registry[i].(role := o.role)
  }

  lemma EvidenceMeaning(cfg: Config, s: State, q: Asked, roles: RoleEvidence, registry: seq<Org>, o: Org)
    requires EvidenceOk(cfg, s, q, roles) && roles.view.status.Known? && o in Accessible(roles.view.roles, registry)
    ensures GrafanaGave(cfg, s, roles.load, o.orgID, o.role) && Recent(s, q, roles, cfg.roleTTLs.positive)
    ensures Registered(registry, o)
  {
    AccessibleMeaning(roles.view.roles, registry, o);
    var i :| AccessibleAt(roles.view.roles, registry, o, i);
    assert o.orgID in roles.view.roles && roles.view.roles[o.orgID] == o.role;
    RolesOfMeaning(cfg.lower, MembersOf(s.hist[roles.load.readAt], Account(s, roles.load)), o.orgID, o.role);
  }

  /** Bounded staleness. In every run, however requests interleave, a granted
      role is one that Grafana gave on that very org, in a load that is the
      request's own or less than one positive lifetime old. */
  lemma BoundedStaleness(cfg: Config, run: seq<State>, id: nat, g: Grant)
    requires HasGrant(cfg, run, id, g)
    ensures var s := Last(run);
      && GrafanaGave(cfg, s, g.roles.load, g.org.orgID, g.org.role)
      && Recent(s, s.requests[id].asked, g.roles, cfg.roleTTLs.positive)
  {
    GrantsAreJustified(cfg, run, id, g);
    var s := Last(run);
    EvidenceMeaning(cfg, s, s.requests[id].asked, g.roles, s.hist[g.listedAt].registry, g.org);
  }

  ghost predicate HasListed(cfg: Config, run: seq<State>, id: nat, access: Access<seq<Tenant>>, roles: RoleEvidence, listedAt: nat)
  {
    && IsRun(cfg, run) && id in Last(run).requests
    && Last(run).requests[id].phase == Closed(ListedOrgs(access, roles, listedAt))
  }

  /** The same for every org that ListOrgs returns; and each is an entry of the
      registry as it was after the request arrived. */
  lemma ListedOrgsAreCurrent(cfg: Config, run: seq<State>, id: nat, access: Access<seq<Tenant>>, roles: RoleEvidence, listedAt: nat, name: string)
    requires HasListed(cfg, run, id, access, roles, listedAt) && name in access
    ensures var s := Last(run);
      var q := s.requests[id].asked;
      && q.start <= listedAt < |s.hist|
      && access[name].name == name && Registered(s.hist[listedAt].registry, access[name])
      && GrafanaGave(cfg, s, roles.load, access[name].orgID, access[name].role)
      && Recent(s, q, roles, cfg.roleTTLs.positive)
  {
    RunsKeepInv(cfg, run, |run| - 1);
    var s := Last(run);
    assert RequestOk(cfg, s, id, s.requests[id]);
    EvidenceMeaning(cfg, s, s.requests[id].asked, roles, s.hist[listedAt].registry, access[name]);
  }

  /** A caller told that Grafana does not know them was unknown there in a load
      that is the request's own or less than one negative lifetime old. */
  lemma UnknownCallerIsRecent(cfg: Config, run: seq<State>, id: nat, roles: RoleEvidence)
    requires IsRun(cfg, run) && id in Last(run).requests
    requires Last(run).requests[id].phase == Closed(UnknownCaller(roles))
    ensures var s := Last(run);
      && Recent(s, s.requests[id].asked, roles, cfg.roleTTLs.negative)
      && roles.load.start <= roles.load.userAt <= roles.load.stampAt
      && roles.load.caller.Identity() !in s.hist[roles.load.userAt].users
  {
    RunsKeepInv(cfg, run, |run| - 1);
    assert RequestOk(cfg, Last(run), id, Last(run).requests[id]);
  }

  /** A caller listed without any role had none at Grafana in a load that is
      the request's own or less than one negative lifetime old. */
  lemma EmptyRolesAreRecent(cfg: Config, run: seq<State>, id: nat, access: Access<seq<Tenant>>, roles: RoleEvidence, listedAt: nat)
    requires HasListed(cfg, run, id, access, roles, listedAt) && roles.view.roles == map[]
    ensures var s := Last(run);
      && access == map[]
      && Recent(s, s.requests[id].asked, roles, cfg.roleTTLs.negative)
      && forall orgID, role :: !GrafanaGave(cfg, s, roles.load, orgID, role)
  {
    RunsKeepInv(cfg, run, |run| - 1);
    var s := Last(run);
    assert RequestOk(cfg, s, id, s.requests[id]);
    forall orgID, role
      ensures !GrafanaGave(cfg, s, roles.load, orgID, role)
    {
      RolesOfMeaning(cfg.lower, MembersOf(s.hist[roles.load.readAt], Account(s, roles.load)), orgID, role);
    }
    forall o
      ensures o !in Accessible(roles.view.roles, s.hist[listedAt].registry)
    {
      AccessibleMeaning(roles.view.roles, s.hist[listedAt].registry, o);
    }
  }

  /** At instant i Grafana gives no role on the org to the account that the
      caller's identity had at instant j. */
  ghost predicate GivesNothing(cfg: Config, s: State, i: nat, j: nat, caller: Caller, orgID: int)
    requires i < |s.hist| && j < |s.hist|
  {
    caller.Identity() in s.hist[j].users ==>
      orgID !in RolesOf(cfg.lower, MembersOf(s.hist[i], s.hist[j].users[caller.Identity()]))
  }

  /** From instant v on, Grafana gives no role on `orgID` to any account it has
      had for an identity of this subject. */
  ghost predicate RevokedSince(cfg: Config, s: State, subject: string, orgID: int, v: nat)
  {
    forall i: nat, j: nat, id | v <= i < |s.hist| && j < |s.hist| && id in s.requests && s.requests[id].asked.caller.subject == subject ::
      GivesNothing(cfg, s, i, j, s.requests[id].asked.caller, orgID)
  }

  /** Revocation takes effect: a request that consults the cache at least one
      positive lifetime plus one load's duration after the revocation is not
      granted the org. The duration is that of the load the grant would rest
      on, from its membership read to its stamp. A request whose own load
      starts after the revocation is not granted at all. */
  lemma RevocationTakesEffect(cfg: Config, run: seq<State>, id: nat, g: Grant, v: nat)
    requires HasGrant(cfg, run, id, g) && v < |Last(run).hist|
    requires RevokedSince(cfg, Last(run), Last(run).requests[id].asked.caller.subject, g.org.orgID, v)
    ensures var s := Last(run);
      var load := g.roles.load;
      && load.readAt < v
      && g.roles.lookupAt < |s.hist| && load.stampAt < |s.hist|
      && var loadTime := s.hist[load.stampAt].now - s.hist[load.readAt].now;
      if g.roles.own then s.requests[id].asked.start < v
      else s.hist[g.roles.lookupAt].now < s.hist[v].now + cfg.roleTTLs.positive + loadTime
  {
    BoundedStaleness(cfg, run, id, g);
    GrantsAreJustified(cfg, run, id, g);
    var s := Last(run);
    var load := g.roles.load;
    var ms := MembersOf(s.hist[load.readAt], Account(s, load));
    RolesOfMeaning(cfg.lower, ms, g.org.orgID, g.org.role);
    assert Ran(s, load);
    assert s.requests[load.owner].asked.caller == load.caller;
    assert v <= load.readAt ==> GivesNothing(cfg, s, load.readAt, load.userAt, load.caller, g.org.orgID);
  }

  /** Subject isolation: every cache entry, in every state of every run, was
      written by a load that a request with that very subject ran, and holds
      only roles of Viewer or higher. */
  lemma SubjectIsolation(cfg: Config, run: seq<State>, subject: string)
    requires IsRun(cfg, run) && subject in Last(run).roleCache
    ensures var s := Last(run);
      && subject in s.roleOrigin
      && var load := s.roleOrigin[subject];
      && load.owner in s.requests && s.requests[load.owner].asked.caller == load.caller && load.caller.subject == subject
      && s.requests[load.owner].asked.start <= load.start
      && Explains(cfg, s.hist, load, s.roleCache[subject].value)
      && forall org | org in s.roleCache[subject].value.roles :: s.roleCache[subject].value.roles[org].AtLeast(RoleViewer)
  {
    RunsKeepInv(cfg, run, |run| - 1);
    var s := Last(run);
    var view := s.roleCache[subject].value;
    var load := s.roleOrigin[subject];
    assert RoleEntryOk(cfg, s, subject, s.roleCache[subject], load);
    if view.status.Known? {
      forall org | org in view.roles
        ensures view.roles[org].AtLeast(RoleViewer)
      {
        RolesOfMeaning(cfg.lower, MembersOf(s.hist[load.readAt], Account(s, load)), org, view.roles[org]);
      }
    }
  }

  /** Registry freshness: a granted org is an entry of the registry as it was
      at an instant after the request arrived, whatever was cached. */
  lemma GrantedOrgIsRegisteredNow(cfg: Config, run: seq<State>, id: nat, g: Grant)
    requires HasGrant(cfg, run, id, g)
    ensures var s := Last(run);
      && s.requests[id].asked.start <= g.listedAt < |s.hist|
      && Registered(s.hist[g.listedAt].registry, g.org)
  {
    GrantsAreJustified(cfg, run, id, g);
    var s := Last(run);
    EvidenceMeaning(cfg, s, s.requests[id].asked, g.roles, s.hist[g.listedAt].registry, g.org);
  }

  /** No registry listing from instant v on has an entry of this name. */
  ghost predicate AbsentSince(s: State, name: string, v: nat)
  {
    forall i, k | v <= i < |s.hist| && 0 <= k < |s.hist[i].registry| :: s.hist[i].registry[k].name != name
  }

  /** Deletion is immediate: an org absent from the registry from instant v on
      is granted to no request that arrives at v or later, whatever is cached
      and whatever the lifetimes. */
  lemma DeletedOrgIsNeverGranted(cfg: Config, run: seq<State>, id: nat, name: string, v: nat)
    requires IsRun(cfg, run) && id in Last(run).requests
    requires v <= Last(run).requests[id].asked.start && AbsentSince(Last(run), name, v)
    ensures var grant := GrantOf(Last(run).requests[id]);
      grant.Some? ==> grant.value.org.name != name
  {
    var grant := GrantOf(Last(run).requests[id]);
    if grant.Some? {
      GrantedOrgIsRegisteredNow(cfg, run, id, grant.value);
    }
  }

  /** Nor does ListOrgs return it to any such request. */
  lemma DeletedOrgIsNeverListed(cfg: Config, run: seq<State>, id: nat, access: Access<seq<Tenant>>, roles: RoleEvidence, listedAt: nat, name: string, v: nat)
    requires HasListed(cfg, run, id, access, roles, listedAt)
    requires v <= Last(run).requests[id].asked.start && AbsentSince(Last(run), name, v)
    ensures name !in access
  {
    if name in access {
      ListedOrgsAreCurrent(cfg, run, id, access, roles, listedAt, name);
    }
  }

  /** An org whose OrgID is not positive is granted to nobody. */
  lemma UnprovisionedOrgIsNeverGranted(cfg: Config, run: seq<State>, id: nat, g: Grant)
    requires HasGrant(cfg, run, id, g)
    requires forall i, u, m | 0 <= i < |Last(run).hist| && u in Last(run).hist[i].members && m in Last(run).hist[i].members[u] :: m.orgID > 0
    ensures g.org.orgID > 0
  {
    BoundedStaleness(cfg, run, id, g);
    var s := Last(run);
    var load := g.roles.load;
    var ms := MembersOf(s.hist[load.readAt], Account(s, load));
    var i :| 0 <= i < |ms| && RoleDecidedAt(cfg.lower, ms, g.org.orgID, g.org.role, i);
    assert ms[i] in ms;
  }

  /** A fetch that succeeds brings back what Grafana has for the org at that
      instant, and a membership read what it has for the account. */
  lemma ReadsBringTheWorld(cfg: Config, s: State, q: Asked, tool: Tool, g: Grant, start: nat, userAt: nat, user: int, n: Phase)
    requires Sound(s) && n != Closed(Refused)
    ensures UseStep(cfg, s, tool, g, MissedSources(start), n) && g.org.orgID in s.Now().sources ==>
      n.Using? && n.u.Fetched? && n.u.dss == s.Now().sources[g.org.orgID]
    ensures RoleStep(cfg, s, q, FoundUser(start, userAt, user), n) && user in s.Now().members ==>
      n.Resolving? && n.p.Loaded? && n.p.view.roles == RolesOf(cfg.lower, s.Now().members[user])
  {
  }

  /** Both caches together: an upstream call with a server-resolved datasource
      is made for the OrgID this request was authorized for, with datasources
      of that very org as Grafana listed them at an instant inside one fetch;
      that fetch is the request's own, started after its decision, or was
      stamped less than one datasource lifetime before. */
  lemma SourceCallsAreScoped(cfg: Config, run: seq<State>, id: nat, g: Grant, effect: Effect, ev: SourceEvidence)
    requires IsRun(cfg, run) && id in Last(run).requests
    requires Last(run).requests[id].phase == Closed(Performed(g, effect, Some(ev)))
    ensures var s := Last(run);
      && HasGrant(cfg, run, id, g)
      && ev.fetch.start <= ev.fetch.readAt <= ev.fetch.stampAt < |s.hist|
      && var dss := SourcesOf(s.hist[ev.fetch.readAt], g.org.orgID);
      && g.listedAt <= ev.lookupAt < |s.hist|
      && (|| (ev.own && g.listedAt <= ev.fetch.start)
          || (!ev.own && ev.fetch.stampAt <= ev.lookupAt
              && s.hist[ev.lookupAt].now - s.hist[ev.fetch.stampAt].now < cfg.sourceTTL))
      && match s.requests[id].asked.want
         case WantTool(_, _, SourceTool(tenantType, dsType, uid)) =>
           && effect.CallSource? && effect.orgID == g.org.orgID && effect.ds in dss
           && DS.MatchesType(cfg.lower, effect.ds, dsType) && (uid != "" ==> effect.ds.uid == uid)
           && (tenantType != "" ==> HasTenantType(g.org.tenants, tenantType))
         case WantTool(_, _, FanoutTool(tenantType, uid)) =>
           && uid == "" && effect == CallSources(g.org.orgID, TH.Rulers(cfg.lower, dss))
           && (tenantType != "" ==> HasTenantType(g.org.tenants, tenantType))
         case _ => false
  {
    GrantsAreJustified(cfg, run, id, g);
    var s := Last(run);
    assert RequestOk(cfg, s, id, s.requests[id]);
    match s.requests[id].asked.want.tool
    case SourceTool(_, dsType, uid) => DS.PickIsListed(cfg.lower, ev.dss, dsType, uid);
    case _ =>
  }

  /** A call without a server-resolved datasource is still for the authorized
      OrgID. */
  lemma OrgCallsAreScoped(cfg: Config, run: seq<State>, id: nat, g: Grant, effect: Effect)
    requires IsRun(cfg, run) && id in Last(run).requests
    requires Last(run).requests[id].phase == Closed(Performed(g, effect, None))
    ensures HasGrant(cfg, run, id, g) && effect == CallOrg(g.org.orgID)
    ensures Last(run).requests[id].asked.want.WantTool? && !NeedsSources(Last(run).requests[id].asked.want.tool)
  {
    RunsKeepInv(cfg, run, |run| - 1);
    assert RequestOk(cfg, Last(run), id, Last(run).requests[id]);
  }

  lemma SomeRoleStep(cfg: Config, s: State, q: Asked, p: RolePhase) returns (n: Phase)
    requires s.hist != [] && s.roleCache.Keys <= s.roleOrigin.Keys && RolePhaseOk(cfg, s, q, p)
    ensures RoleStep(cfg, s, q, p, n)
  {
    match p
    case Started =>
      if !PastGates(q) {
        n := Closed(Refused);
      } else {
        match Get(s.roleCache, q.caller.subject, s.Now().now)
        case None => n := Resolving(MissedRoles(s.At()));
        case Some(v) =>
          n := WithRoles(RoleEvidence(s.roleOrigin[q.caller.subject], v, s.At(), false));
      }
    case Loaded(load, view) => n := Resolving(Stamped(load.(stampAt := s.At()), view));
    case Stamped(load, view) => n := WithRoles(RoleEvidence(load, view, load.start, true));
    case HasRegistry(roles, listedAt) =>
      var orgs := s.hist[listedAt].registry;
      var access := SomeAccess(Accessible(roles.view.roles, orgs));
      match q.want {
        case WantOrgs => n := Closed(ListedOrgs(access, roles, listedAt));
        case WantTool(ref, minRole, _) =>
          var d := SomeConclusion(cfg.lower, access, orgs, ref, minRole);
          n := Concluded(d, roles, listedAt);
          assert DecideStep(cfg, orgs, q, roles, listedAt, n);
      }
    case _ => n := Closed(Refused);
  }

  lemma SomeUseStep(cfg: Config, s: State, tool: Tool, g: Grant, u: UsePhase) returns (n: Phase)
    requires s.hist != [] && s.sourceCache.Keys <= s.sourceOrigin.Keys
    ensures UseStep(cfg, s, tool, g, u, n)
  {
    var orgID := g.org.orgID;
    match u
    case Authorized =>
      n := if !TenantGate(tool, g.org) then Closed(Refused)
           else if !NeedsSources(tool) then Closed(Performed(g, CallOrg(orgID), None))
           else Using(g, Peeked(if orgID in s.sourceCache then Some((s.sourceCache[orgID], s.sourceOrigin[orgID])) else None));
    case Peeked(seen) =>
      n := Using(g, if seen.Some? && s.Now().now < seen.value.0.expiresAt
                    then HasSources(SourceEvidence(seen.value.1, seen.value.0.value, s.At(), false))
                    else MissedSources(s.At()));
    case MissedSources(_) => n := Closed(Refused);
    case Fetched(fetch, dss) => n := Using(g, SourcesStamped(fetch.(stampAt := s.At()), dss));
    case SourcesStamped(fetch, dss) => n := Using(g, HasSources(SourceEvidence(fetch, dss, fetch.start, true)));
    case HasSources(sources) =>
      match EffectOf(cfg, tool, orgID, sources.dss)
      case None => n := Closed(Refused);
      case Some(effect) => n := Closed(Performed(g, effect, Some(sources)));
  }

  /** No request is ever stuck: while it is open, it has a step to take. */
  lemma OpenRequestsCanStep(cfg: Config, run: seq<State>, id: nat) returns (n: Phase)
    requires IsRun(cfg, run) && id in Last(run).requests && !Last(run).requests[id].phase.Closed?
    ensures exists s' :: RequestStep(cfg, Last(run), id, n, s')
  {
    RunsKeepInv(cfg, run, |run| - 1);
    var s := Last(run);
    var r := s.requests[id];
    assert RequestOk(cfg, s, id, r);
    match r.phase {
      case Resolving(p) => n := SomeRoleStep(cfg, s, r.asked, p);
      case Using(g, u) => n := SomeUseStep(cfg, s, r.asked.want.tool, g, u);
    }
    assert RequestStep(cfg, s, id, n, Written(cfg, s, r.asked, r.phase).Move(id, n));
  }

  /** The position of a phase on a request's way; every step moves on, so a
      request takes at most thirteen steps. */
  function Rank(phase: Phase): nat
  {
    match phase
    case Resolving(p) =>
      (match p
       case Started => 13 case MissedRoles(_) => 12 case FoundUser(_, _, _) => 11 case Loaded(_, _) => 10
       case Stamped(_, _) => 9 case HasRoles(_) => 8 case HasRegistry(_, _) => 7)
    case Using(_, u) =>
      (match u
       case Authorized => 6 case Peeked(_) => 5 case MissedSources(_) => 4 case Fetched(_, _) => 3
       case SourcesStamped(_, _) => 2 case HasSources(_) => 1)
    case Closed(_) => 0
  }

  lemma StepsMoveOn(cfg: Config, s: State, id: nat, n: Phase, s': State)
    requires RequestStep(cfg, s, id, n, s')
    ensures Rank(s'.requests[id].phase) < Rank(s.requests[id].phase)
    ensures forall k | k in s.requests && k != id :: s'.requests[k] == s.requests[k]
  {
    var r := s.requests[id];
    WritesOnlyCaches(cfg, s, r.asked, r.phase);
    if r.phase.Resolving? && r.phase.p.HasRegistry? {
      assert DecideStep(cfg, s.hist[r.phase.p.listedAt].registry, r.asked, r.phase.p.roles, r.phase.p.listedAt, n);
    }
  }
}
