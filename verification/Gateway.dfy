/** The server as a step machine. Any number of requests interleave; each runs
    RequireOrg or ListOrgs and then, for a tool, resolves its datasource, one
    atomic access to the shared caches, the clock or the outside world at a
    time. Between any two steps Grafana's users, memberships and datasources,
    the org registry and the clock may change.

    The state keeps the whole history of the outside world, so that "what
    Grafana said at that instant" is a statement about the state. It also
    records, beside each cache entry, the load or fetch that wrote it. */
module Gateway {
  import opened Prelude
  import opened AuthzTypes
  import opened TtlCache
  import opened OrgDecision
  import opened RoleCache
  import DS = Datasources
  import TH = ToolHandlers

  type Org = Organization<seq<Tenant>>

  // ------------------------------------------------------------- the state

  /** The outside world at one instant. */
  datatype World = World(
    now: int,
    users: map<string, int>,
    members: map<int, seq<Membership>>,
    registry: seq<Org>,
    sources: map<int, seq<DS.Datasource>>)

  datatype Config = Config(lower: string -> string, roleTTLs: Lifetimes, sourceTTL: int)

  datatype Tool =
    | OrgTool
    | SourceTool(tenantType: string, dsType: string, uid: string)
    | FanoutTool(tenantType: string, uid: string)

  datatype Want = WantOrgs | WantTool(ref: string, minRole: Role, tool: Tool)

  /** A completed question to Grafana about a caller's roles: who asked, and
      the instants (positions in the history) of its start, its user lookup,
      its membership read, and its expiry stamp. */
  datatype Load = Load(owner: nat, caller: Caller, start: nat, userAt: nat, readAt: nat, stampAt: nat)

  /** Likewise for a datasource listing of one org. */
  datatype Fetch = Fetch(orgID: int, start: nat, readAt: nat, stampAt: nat)

  /** Roles in a request's hand: where they came from, when the cache was
      consulted, and whether the load was this request's own. */
  datatype RoleEvidence = RoleEvidence(load: Load, view: RoleView, lookupAt: nat, own: bool)

  datatype SourceEvidence = SourceEvidence(fetch: Fetch, dss: seq<DS.Datasource>, lookupAt: nat, own: bool)

  datatype Grant = Grant(org: Org, roles: RoleEvidence, listedAt: nat)

  datatype Effect =
    | CallOrg(orgID: int)
    | CallSource(orgID: int, ds: DS.Datasource)
    | CallSources(orgID: int, dss: seq<DS.Datasource>)

  /** Where a request stands on the way to its decision. The name says what
      it has done last. */
  datatype RolePhase =
    | Started
    | MissedRoles(start: nat)
    | FoundUser(start: nat, userAt: nat, user: int)
    | Loaded(load: Load, view: RoleView)
    | Stamped(load: Load, view: RoleView)
    | HasRoles(roles: RoleEvidence)
    | HasRegistry(roles: RoleEvidence, listedAt: nat)

  /** Where a granted tool request stands on the way to its effect. */
  datatype UsePhase =
    | Authorized
    | Peeked(seen: Option<(Entry<seq<DS.Datasource>>, Fetch)>)
    | MissedSources(start: nat)
    | Fetched(fetch: Fetch, dss: seq<DS.Datasource>)
    | SourcesStamped(fetch: Fetch, dss: seq<DS.Datasource>)
    | HasSources(sources: SourceEvidence)

  /** Refused: at a gate, by a failed question, or for want of a datasource. */
  datatype Outcome =
    | Refused
    | UnknownCaller(roles: RoleEvidence)
    | Denied(decision: Decision<seq<Tenant>>, roles: RoleEvidence, listedAt: nat)
    | ListedOrgs(access: Access<seq<Tenant>>, roles: RoleEvidence, listedAt: nat)
    | Performed(grant: Grant, effect: Effect, evidence: Option<SourceEvidence>)

  datatype Phase =
    | Resolving(p: RolePhase)
    | Using(grant: Grant, u: UsePhase)
    | Closed(outcome: Outcome)

  /** Who asked what, and when the request arrived. */
  datatype Asked = Asked(id: nat, caller: Caller, want: Want, start: nat)

  datatype Request = Request(asked: Asked, phase: Phase)

  datatype State = State(
    hist: seq<World>,
    roleCache: Cache,
    roleOrigin: map<string, Load>,
    sourceCache: DS.Cache,
    sourceOrigin: map<int, Fetch>,
    requests: map<nat, Request>)
  {
    /** The current instant. */
    function At(): nat
      requires hist != []
    {
      |hist| - 1
    }

    function Now(): World
      requires hist != []
    {
      Last(hist)
    }

    function Move(id: nat, phase: Phase): State
      requires id in requests
    {
      this.(requests := requests[id := requests[id].(phase := phase)])
    }
  }

  function MembersOf(w: World, user: int): seq<Membership>
  {
    if user in w.members then w.members[user] else []
  }

  function SourcesOf(w: World, orgID: int): seq<DS.Datasource>
  {
    if orgID in w.sources then w.sources[orgID] else []
  }

  // ------------------------------------------------------------- the steps

  /** All that the steps themselves ask of a state. */
  ghost predicate Sound(s: State)
  {
    s.hist != [] && s.roleCache.Keys <= s.roleOrigin.Keys && s.sourceCache.Keys <= s.sourceOrigin.Keys
  }

  ghost predicate Holds(s: State, id: nat)
  {
    Sound(s) && id in s.requests
  }

  /** The effect of a tool whose datasource listing is in hand; None refuses. */
  function EffectOf(cfg: Config, tool: Tool, orgID: int, dss: seq<DS.Datasource>): Option<Effect>
  {
    match tool
    case OrgTool => Some(CallOrg(orgID))
    case SourceTool(_, dsType, uid) =>
      (match DS.Pick(cfg.lower, dss, dsType, uid)
       case Ok(ds) => Some(CallSource(orgID, ds))
       case Err(_) => None)
    case FanoutTool(_, _) => Some(CallSources(orgID, TH.Rulers(cfg.lower, dss)))
  }

  predicate TenantGate(tool: Tool, org: Org)
  {
    match tool
    case OrgTool => true
    case SourceTool(tt, _, _) => tt != "" ==> HasTenantType(org.tenants, tt)
    case FanoutTool(tt, _) => tt != "" ==> HasTenantType(org.tenants, tt)
  }

  predicate PastGates(q: Asked)
  {
    q.caller.Authenticated() && (q.want.WantTool? ==> q.want.minRole != RoleNone)
  }

  predicate NeedsSources(tool: Tool)
  {
    tool.SourceTool? || (tool.FanoutTool? && tool.uid == "")
  }

  /** Where a request goes with an answer about its caller. */
  function WithRoles(roles: RoleEvidence): Phase
  {
    if roles.view.status.UnknownToGrafana? then Closed(UnknownCaller(roles)) else Resolving(HasRoles(roles))
  }

  /** Where a decision takes a request. */
  function Concluded(d: Decision<seq<Tenant>>, roles: RoleEvidence, listedAt: nat): Phase
  {
    if d.Granted? then Using(Grant(d.org, roles, listedAt), Authorized) else Closed(Denied(d, roles, listedAt))
  }

  /** The decision, with maps iterated in any order. */
  ghost predicate DecideStep(cfg: Config, orgs: seq<Org>, q: Asked, roles: RoleEvidence, listedAt: nat, n: Phase)
  {
    exists access :: IsAccess(access, Accessible(roles.view.roles, orgs)) &&
      match q.want
      case WantOrgs => n == Closed(ListedOrgs(access, roles, listedAt))
      case WantTool(ref, minRole, _) =>
        exists d :: MayConclude(cfg.lower, access, orgs, ref, minRole, d) &&
          n == Concluded(d, roles, listedAt)
  }

  /** What a request that asked q and stands at p may do next, up to its
      decision. A question to Grafana or the registry may fail. */
  ghost predicate RoleStep(cfg: Config, s: State, q: Asked, p: RolePhase, n: Phase)
    requires s.hist != [] && s.roleCache.Keys <= s.roleOrigin.Keys
  {
    match p
    case Started =>
      if !PastGates(q) then n == Closed(Refused)
      else
        (match Get(s.roleCache, q.caller.subject, s.Now().now)
         case None => n == Resolving(MissedRoles(s.At()))
         case Some(v) =>
           n == WithRoles(RoleEvidence(s.roleOrigin[q.caller.subject], v, s.At(), false)))
    case MissedRoles(start) =>
      || n == Closed(Refused)
      || n == Resolving(
           if q.caller.Identity() in s.Now().users then FoundUser(start, s.At(), s.Now().users[q.caller.Identity()])
           else Loaded(Load(q.id, q.caller, start, s.At(), s.At(), s.At()), RoleView(UnknownToGrafana, map[])))
    case FoundUser(start, userAt, user) =>
      || n == Closed(Refused)
      || n == Resolving(Loaded(Load(q.id, q.caller, start, userAt, s.At(), s.At()),
                               RoleView(Known, RolesOf(cfg.lower, MembersOf(s.Now(), user)))))
    case Loaded(load, view) => n == Resolving(Stamped(load.(stampAt := s.At()), view))
    case Stamped(load, view) => n == WithRoles(RoleEvidence(load, view, load.start, true))
    case HasRoles(roles) =>
      || n == Closed(Refused)
      || n == Resolving(HasRegistry(roles, s.At()))
    case HasRegistry(roles, listedAt) => listedAt < |s.hist| && DecideStep(cfg, s.hist[listedAt].registry, q, roles, listedAt, n)
  }

  /** What a granted tool request does next. The freshness test of the
      datasource cache comes after the cache read, with a later clock. */
  ghost predicate UseStep(cfg: Config, s: State, tool: Tool, g: Grant, u: UsePhase, n: Phase)
    requires s.hist != [] && s.sourceCache.Keys <= s.sourceOrigin.Keys
  {
    var orgID := g.org.orgID;
    match u
    case Authorized =>
      n == if !TenantGate(tool, g.org) then Closed(Refused)
           else if !NeedsSources(tool) then Closed(Performed(g, CallOrg(orgID), None))
           else Using(g, Peeked(if orgID in s.sourceCache then Some((s.sourceCache[orgID], s.sourceOrigin[orgID])) else None))
    case Peeked(seen) =>
      n == Using(g,
        if seen.Some? && s.Now().now < seen.value.0.expiresAt
        then HasSources(SourceEvidence(seen.value.1, seen.value.0.value, s.At(), false))
        else MissedSources(s.At()))
    case MissedSources(start) =>
      || n == Closed(Refused)
      || n == Using(g, Fetched(Fetch(orgID, start, s.At(), s.At()), SourcesOf(s.Now(), orgID)))
    case Fetched(fetch, dss) => n == Using(g, SourcesStamped(fetch.(stampAt := s.At()), dss))
    case SourcesStamped(fetch, dss) => n == Using(g, HasSources(SourceEvidence(fetch, dss, fetch.start, true)))
    case HasSources(sources) =>
      (match EffectOf(cfg, tool, orgID, sources.dss)
       case None => n == Closed(Refused)
       case Some(effect) => n == Closed(Performed(g, effect, Some(sources))))
  }

  /** The caches after the step that a request at this phase takes: only the
      two stamped phases write. */
  function Written(cfg: Config, s: State, q: Asked, phase: Phase): State
  {
    match phase
    case Resolving(Stamped(load, view)) =>
      if load.stampAt < |s.hist| && cfg.roleTTLs.For(view) > 0 then
        s.(roleCache := Store(cfg.roleTTLs, s.roleCache, q.caller.subject, view, s.hist[load.stampAt].now),
           roleOrigin := s.roleOrigin[q.caller.subject := load])
      else s
    case Using(g, SourcesStamped(fetch, dss)) =>
      if fetch.stampAt < |s.hist| then
        s.(sourceCache := Put(s.sourceCache, g.org.orgID, dss, s.hist[fetch.stampAt].now, cfg.sourceTTL),
           sourceOrigin := s.sourceOrigin[g.org.orgID := fetch])
      else s
    case _ => s
  }

  ghost predicate StepTo(cfg: Config, s: State, r: Request, n: Phase)
    requires Sound(s)
  {
    match r.phase
    case Resolving(p) => RoleStep(cfg, s, r.asked, p, n)
    case Using(g, u) => r.asked.want.WantTool? && UseStep(cfg, s, r.asked.want.tool, g, u, n)
    case Closed(_) => false
  }

  /** One step of request id. */
  ghost predicate RequestStep(cfg: Config, s: State, id: nat, n: Phase, s': State)
  {
    && Holds(s, id)
    && StepTo(cfg, s, s.requests[id], n)
    && s' == Written(cfg, s, s.requests[id].asked, s.requests[id].phase).Move(id, n)
  }

  /** A new request arrives. */
  ghost predicate Arrive(s: State, id: nat, caller: Caller, want: Want, s': State)
  {
    && s.hist != [] && id !in s.requests
    && s' == s.(requests := s.requests[id := Request(Asked(id, caller, want, s.At()), Resolving(Started))])
  }

  /** The outside world moves on; the clock does not go back. */
  ghost predicate Change(s: State, w: World, s': State)
  {
    && s.hist != [] && s.Now().now <= w.now
    && s' == s.(hist := s.hist + [w])
  }

  ghost predicate Init(s: State)
  {
    && |s.hist| == 1
    && s.roleCache == map[] && s.roleOrigin == map[]
    && s.sourceCache == map[] && s.sourceOrigin == map[]
    && s.requests == map[]
  }

  ghost predicate Next(cfg: Config, s: State, s': State)
  {
    || (exists id, n :: RequestStep(cfg, s, id, n, s'))
    || (exists id, caller, want :: Arrive(s, id, caller, want, s'))
    || (exists w :: Change(s, w, s'))
  }

  ghost predicate StepAt(cfg: Config, path: seq<State>, i: nat)
    requires i + 1 < |path|
  {
    Next(cfg, path[i], path[i + 1])
  }

  /** States each of which is a step from the one before. */
  ghost predicate IsPath(cfg: Config, path: seq<State>)
  {
    path != [] && forall i: nat {:trigger StepAt(cfg, path, i)} | i + 1 < |path| :: StepAt(cfg, path, i)
  }

  /** A run of the server. */
  ghost predicate IsRun(cfg: Config, run: seq<State>)
  {
    IsPath(cfg, run) && Init(run[0])
  }
}
