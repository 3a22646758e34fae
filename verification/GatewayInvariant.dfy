/** The invariant of the step machine: every cache entry and everything a
    request holds is explained by what the outside world was at recorded
    instants. It holds in every state of every run. */
module GatewayInvariant {
  import opened Prelude
  import opened AuthzTypes
  import opened TtlCache
  import opened OrgDecision
  import opened OrgDecisionLaws
  import opened RoleCache
  import DS = Datasources
  import opened Gateway

  ghost predicate ClockRuns(hist: seq<World>)
  {
    forall i, j | 0 <= i <= j < |hist| :: hist[i].now <= hist[j].now
  }

  /** The view is what Grafana said at the load's instants about the load's
      caller. */
  ghost predicate Explains(cfg: Config, hist: seq<World>, load: Load, view: RoleView)
  {
    && load.start <= load.userAt <= load.readAt <= load.stampAt < |hist|
    && var who := load.caller.Identity();
       match view.status
       case UnknownToGrafana => who !in hist[load.userAt].users && view.roles == map[]
       case Known =>
         && who in hist[load.userAt].users
         && view.roles == RolesOf(cfg.lower, MembersOf(hist[load.readAt], hist[load.userAt].users[who]))
  }

  /** A request that really arrived ran the load. */
  ghost predicate Ran(s: State, load: Load)
  {
    && load.owner in s.requests
    && s.requests[load.owner].asked.caller == load.caller
    && s.requests[load.owner].asked.start <= load.start
  }

  ghost predicate RoleEntryOk(cfg: Config, s: State, subject: string, entry: Entry<RoleView>, load: Load)
  {
    && Explains(cfg, s.hist, load, entry.value) && Ran(s, load)
    && load.caller.subject == subject && load.caller.Authenticated()
    && cfg.roleTTLs.For(entry.value) > 0
    && entry.expiresAt == s.hist[load.stampAt].now + cfg.roleTTLs.For(entry.value)
  }

  ghost predicate FetchOk(hist: seq<World>, fetch: Fetch, dss: seq<DS.Datasource>)
  {
    && fetch.start <= fetch.readAt <= fetch.stampAt < |hist|
    && dss == SourcesOf(hist[fetch.readAt], fetch.orgID)
  }

  ghost predicate SourceEntryOk(cfg: Config, s: State, orgID: int, entry: Entry<seq<DS.Datasource>>, fetch: Fetch)
  {
    && FetchOk(s.hist, fetch, entry.value) && fetch.orgID == orgID
    && entry.expiresAt == s.hist[fetch.stampAt].now + cfg.sourceTTL
  }

  ghost predicate EvidenceOk(cfg: Config, s: State, q: Asked, ev: RoleEvidence)
  {
    && Explains(cfg, s.hist, ev.load, ev.view) && Ran(s, ev.load)
    && ev.load.caller.subject == q.caller.subject
    && q.start <= ev.lookupAt < |s.hist|
    && if ev.own then ev.load.start == ev.lookupAt && ev.load.owner == q.id && ev.load.caller == q.caller
       else
         && ev.load.stampAt <= ev.lookupAt
         && s.hist[ev.lookupAt].now < s.hist[ev.load.stampAt].now + cfg.roleTTLs.For(ev.view)
  }

  ghost predicate GrantOk(cfg: Config, s: State, q: Asked, g: Grant)
  {
    && EvidenceOk(cfg, s, q, g.roles) && g.roles.view.status.Known? && q.want.WantTool?
    && g.roles.lookupAt <= g.listedAt < |s.hist|
    && g.org in Accessible(g.roles.view.roles, s.hist[g.listedAt].registry)
    && g.org.role.AtLeast(q.want.minRole)
    && Names(cfg.lower, g.org, cfg.lower(q.want.ref))
  }

  ghost predicate SourcesOk(cfg: Config, s: State, g: Grant, ev: SourceEvidence)
  {
    && FetchOk(s.hist, ev.fetch, ev.dss) && ev.fetch.orgID == g.org.orgID
    && g.listedAt <= ev.lookupAt < |s.hist|
    && if ev.own then ev.fetch.start == ev.lookupAt
       else
         && ev.fetch.stampAt <= ev.lookupAt
         && s.hist[ev.lookupAt].now < s.hist[ev.fetch.stampAt].now + cfg.sourceTTL
  }

  ghost predicate OwnLoad(cfg: Config, s: State, q: Asked, load: Load, view: RoleView)
  {
    && Explains(cfg, s.hist, load, view)
    && load.owner == q.id && load.caller == q.caller && q.start <= load.start
  }

  ghost predicate RolePhaseOk(cfg: Config, s: State, q: Asked, p: RolePhase)
  {
    && (!p.Started? ==> PastGates(q))
    && match p
       case Started => true
       case MissedRoles(start) => q.start <= start < |s.hist|
       case FoundUser(start, userAt, user) =>
         && q.start <= start <= userAt < |s.hist|
         && q.caller.Identity() in s.hist[userAt].users && s.hist[userAt].users[q.caller.Identity()] == user
       case Loaded(load, view) => OwnLoad(cfg, s, q, load, view)
       case Stamped(load, view) => OwnLoad(cfg, s, q, load, view)
       case HasRoles(ev) => EvidenceOk(cfg, s, q, ev) && ev.view.status.Known?
       case HasRegistry(ev, listedAt) => EvidenceOk(cfg, s, q, ev) && ev.view.status.Known? && ev.lookupAt <= listedAt < |s.hist|
  }

  ghost predicate UsePhaseOk(cfg: Config, s: State, tool: Tool, g: Grant, u: UsePhase)
  {
    && (!u.Authorized? ==> TenantGate(tool, g.org) && NeedsSources(tool))
    && match u
       case Authorized => true
       case Peeked(seen) => seen.Some? ==> SourceEntryOk(cfg, s, g.org.orgID, seen.value.0, seen.value.1)
       case MissedSources(start) => g.listedAt <= start < |s.hist|
       case Fetched(fetch, dss) => FetchOk(s.hist, fetch, dss) && fetch.orgID == g.org.orgID && g.listedAt <= fetch.start
       case SourcesStamped(fetch, dss) => FetchOk(s.hist, fetch, dss) && fetch.orgID == g.org.orgID && g.listedAt <= fetch.start
       case HasSources(ev) => SourcesOk(cfg, s, g, ev)
  }

  ghost predicate DenialOk(cfg: Config, orgs: seq<Org>, q: Asked, ev: RoleEvidence, d: Decision<seq<Tenant>>)
  {
    && q.want.WantTool? && !d.Granted?
    && exists access :: IsAccess(access, Accessible(ev.view.roles, orgs)) && MayConclude(cfg.lower, access, orgs, q.want.ref, q.want.minRole, d)
  }

  ghost predicate OutcomeOk(cfg: Config, s: State, q: Asked, o: Outcome)
  {
    match o
    case Refused => true
    case UnknownCaller(ev) => PastGates(q) && EvidenceOk(cfg, s, q, ev) && ev.view.status.UnknownToGrafana?
    case Denied(d, ev, listedAt) =>
      && PastGates(q) && EvidenceOk(cfg, s, q, ev) && ev.view.status.Known? && ev.lookupAt <= listedAt < |s.hist|
      && DenialOk(cfg, s.hist[listedAt].registry, q, ev, d)
    case ListedOrgs(access, ev, listedAt) =>
      && PastGates(q) && EvidenceOk(cfg, s, q, ev) && ev.view.status.Known? && ev.lookupAt <= listedAt < |s.hist|
      && IsAccess(access, Accessible(ev.view.roles, s.hist[listedAt].registry))
    case Performed(g, effect, evidence) =>
      && PastGates(q) && GrantOk(cfg, s, q, g) && TenantGate(q.want.tool, g.org)
      && match evidence
         case None => effect == CallOrg(g.org.orgID) && !NeedsSources(q.want.tool)
         case Some(ev) =>
           SourcesOk(cfg, s, g, ev) && NeedsSources(q.want.tool) && EffectOf(cfg, q.want.tool, g.org.orgID, ev.dss) == Some(effect)
  }

  ghost predicate PhaseOk(cfg: Config, s: State, q: Asked, phase: Phase)
  {
    match phase
    case Resolving(p) => RolePhaseOk(cfg, s, q, p)
    case Using(g, u) => PastGates(q) && GrantOk(cfg, s, q, g) && UsePhaseOk(cfg, s, q.want.tool, g, u)
    case Closed(o) => OutcomeOk(cfg, s, q, o)
  }

  ghost predicate RequestOk(cfg: Config, s: State, id: nat, r: Request)
  {
    && r.asked.id == id && r.asked.start < |s.hist|
    && PhaseOk(cfg, s, r.asked, r.phase)
  }

  ghost predicate CachesOk(cfg: Config, s: State)
  {
    && s.roleCache.Keys <= s.roleOrigin.Keys
    && s.sourceCache.Keys <= s.sourceOrigin.Keys
    && (forall k {:trigger RoleEntryOk(cfg, s, k, s.roleCache[k], s.roleOrigin[k])} | k in s.roleCache :: RoleEntryOk(cfg, s, k, s.roleCache[k], s.roleOrigin[k]))
    && (forall k {:trigger SourceEntryOk(cfg, s, k, s.sourceCache[k], s.sourceOrigin[k])} | k in s.sourceCache :: SourceEntryOk(cfg, s, k, s.sourceCache[k], s.sourceOrigin[k]))
  }

  ghost predicate Inv(cfg: Config, s: State)
  {
    && s.hist != [] && ClockRuns(s.hist)
    && CachesOk(cfg, s)
    && forall id {:trigger RequestOk(cfg, s, id, s.requests[id])} | id in s.requests :: RequestOk(cfg, s, id, s.requests[id])
  }

  // ----------------------------------------------------- facts do not fade

  /** s' is later than s: more history, the same requests and perhaps more. */
  ghost predicate Later(s: State, s': State)
  {
    && s.hist <= s'.hist
    && forall id | id in s.requests :: id in s'.requests && s'.requests[id].asked == s.requests[id].asked
  }

  lemma ExplainsPersists(cfg: Config, s: State, s': State, load: Load, view: RoleView)
    requires Later(s, s') && Explains(cfg, s.hist, load, view)
    ensures Explains(cfg, s'.hist, load, view)
  {
    assert s'.hist[load.userAt] == s.hist[load.userAt];
    assert s'.hist[load.readAt] == s.hist[load.readAt];
  }

  lemma EvidencePersists(cfg: Config, s: State, s': State, q: Asked, ev: RoleEvidence)
    requires Later(s, s') && EvidenceOk(cfg, s, q, ev)
    ensures EvidenceOk(cfg, s', q, ev)
  {
    ExplainsPersists(cfg, s, s', ev.load, ev.view);
    assert s'.hist[ev.lookupAt] == s.hist[ev.lookupAt];
    assert s'.hist[ev.load.stampAt] == s.hist[ev.load.stampAt];
  }

  lemma GrantPersists(cfg: Config, s: State, s': State, q: Asked, g: Grant)
    requires Later(s, s') && GrantOk(cfg, s, q, g)
    ensures GrantOk(cfg, s', q, g)
  {
    EvidencePersists(cfg, s, s', q, g.roles);
    assert s'.hist[g.listedAt] == s.hist[g.listedAt];
  }

  lemma FetchPersists(s: State, s': State, fetch: Fetch, dss: seq<DS.Datasource>)
    requires Later(s, s') && FetchOk(s.hist, fetch, dss)
    ensures FetchOk(s'.hist, fetch, dss)
    ensures s'.hist[fetch.stampAt] == s.hist[fetch.stampAt]
  {
    assert s'.hist[fetch.readAt] == s.hist[fetch.readAt];
  }

  lemma SourcesPersist(cfg: Config, s: State, s': State, g: Grant, ev: SourceEvidence)
    requires Later(s, s') && SourcesOk(cfg, s, g, ev)
    ensures SourcesOk(cfg, s', g, ev)
  {
    FetchPersists(s, s', ev.fetch, ev.dss);
    assert s'.hist[ev.lookupAt] == s.hist[ev.lookupAt];
  }

  lemma RolePhasePersists(cfg: Config, s: State, s': State, q: Asked, p: RolePhase)
    requires Later(s, s') && RolePhaseOk(cfg, s, q, p)
    ensures RolePhaseOk(cfg, s', q, p)
  {
    match p
    case FoundUser(_, userAt, _) => assert s'.hist[userAt] == s.hist[userAt];
    case Loaded(load, view) => ExplainsPersists(cfg, s, s', load, view);
    case Stamped(load, view) => ExplainsPersists(cfg, s, s', load, view);
    case HasRoles(ev) => EvidencePersists(cfg, s, s', q, ev);
    case HasRegistry(ev, _) => EvidencePersists(cfg, s, s', q, ev);
    case _ =>
  }

  lemma UsePhasePersists(cfg: Config, s: State, s': State, tool: Tool, g: Grant, u: UsePhase)
    requires Later(s, s') && UsePhaseOk(cfg, s, tool, g, u)
    ensures UsePhaseOk(cfg, s', tool, g, u)
  {
    match u
    case Peeked(seen) =>
      if seen.Some? {
        FetchPersists(s, s', seen.value.1, seen.value.0.value);
      }
    case Fetched(fetch, dss) => FetchPersists(s, s', fetch, dss);
    case SourcesStamped(fetch, dss) => FetchPersists(s, s', fetch, dss);
    case HasSources(ev) => SourcesPersist(cfg, s, s', g, ev);
    case _ =>
  }

  lemma OutcomePersists(cfg: Config, s: State, s': State, q: Asked, o: Outcome)
    requires Later(s, s') && OutcomeOk(cfg, s, q, o)
    ensures OutcomeOk(cfg, s', q, o)
  {
    match o
    case Refused =>
    case UnknownCaller(ev) => EvidencePersists(cfg, s, s', q, ev);
    case Denied(_, ev, listedAt) =>
      EvidencePersists(cfg, s, s', q, ev);
      assert s'.hist[listedAt] == s.hist[listedAt];
    case ListedOrgs(_, ev, listedAt) =>
      EvidencePersists(cfg, s, s', q, ev);
      assert s'.hist[listedAt] == s.hist[listedAt];
    case Performed(g, _, evidence) =>
      GrantPersists(cfg, s, s', q, g);
      if evidence.Some? {
        SourcesPersist(cfg, s, s', g, evidence.value);
      }
  }

  lemma RequestOkPersists(cfg: Config, s: State, s': State, id: nat, r: Request)
    requires Later(s, s') && RequestOk(cfg, s, id, r)
    ensures RequestOk(cfg, s', id, r)
  {
    match r.phase
    case Resolving(p) => RolePhasePersists(cfg, s, s', r.asked, p);
    case Using(g, u) =>
      GrantPersists(cfg, s, s', r.asked, g);
      UsePhasePersists(cfg, s, s', r.asked.want.tool, g, u);
    case Closed(o) => OutcomePersists(cfg, s, s', r.asked, o);
  }

  lemma RequestsPersist(cfg: Config, s: State, s': State)
    requires Later(s, s') && s'.requests == s.requests
    requires forall id {:trigger RequestOk(cfg, s, id, s.requests[id])} | id in s.requests :: RequestOk(cfg, s, id, s.requests[id])
    ensures forall id {:trigger RequestOk(cfg, s', id, s'.requests[id])} | id in s'.requests :: RequestOk(cfg, s', id, s'.requests[id])
  {
    forall id | id in s.requests {
      RequestOkPersists(cfg, s, s', id, s.requests[id]);
    }
  }

  lemma CachesOkPersist(cfg: Config, s: State, s': State)
    requires Later(s, s') && CachesOk(cfg, s)
    requires s'.roleCache == s.roleCache && s'.roleOrigin == s.roleOrigin
    requires s'.sourceCache == s.sourceCache && s'.sourceOrigin == s.sourceOrigin
    ensures CachesOk(cfg, s')
  {
    forall k | k in s.roleCache
      ensures RoleEntryOk(cfg, s', k, s.roleCache[k], s.roleOrigin[k])
    {
      assert RoleEntryOk(cfg, s, k, s.roleCache[k], s.roleOrigin[k]);
    }
    forall k | k in s.sourceCache
      ensures SourceEntryOk(cfg, s', k, s.sourceCache[k], s.sourceOrigin[k])
    {
      assert SourceEntryOk(cfg, s, k, s.sourceCache[k], s.sourceOrigin[k]);
    }
  }

  /** A request that changes only its own phase keeps the invariant when its
      new phase is justified. */
  lemma MoveKeepsInv(cfg: Config, s: State, id: nat, phase: Phase)
    requires Inv(cfg, s) && id in s.requests
    requires RequestOk(cfg, s, id, Request(s.requests[id].asked, phase))
    ensures Inv(cfg, s.Move(id, phase))
  {
    var s' := s.Move(id, phase);
    CachesOkPersist(cfg, s, s');
    forall k | k in s'.requests
      ensures RequestOk(cfg, s', k, s'.requests[k])
    {
      RequestOkPersists(cfg, s, s', k, s'.requests[k]);
    }
  }

  // ------------------------------------------------------ every step keeps it

  /** A cache hit hands on an entry that explains itself. */
  lemma HitJustified(cfg: Config, s: State, q: Asked, n: Phase)
    requires s.hist != [] && CachesOk(cfg, s) && q.start < |s.hist|
    requires RoleStep(cfg, s, q, Started, n)
    ensures PhaseOk(cfg, s, q, n)
  {
    var subject := q.caller.subject;
    if subject in s.roleCache {
      assert RoleEntryOk(cfg, s, subject, s.roleCache[subject], s.roleOrigin[subject]);
    }
  }

  lemma LoadStepJustified(cfg: Config, s: State, q: Asked, p: RolePhase, n: Phase)
    requires s.hist != [] && s.roleCache.Keys <= s.roleOrigin.Keys
    requires q.id in s.requests && s.requests[q.id].asked == q
    requires !p.Started? && !p.HasRegistry? && RolePhaseOk(cfg, s, q, p) && RoleStep(cfg, s, q, p, n)
    ensures PhaseOk(cfg, s, q, n)
  {
  }

  lemma DecisionJustified(cfg: Config, s: State, q: Asked, p: RolePhase, n: Phase)
    requires s.hist != [] && CachesOk(cfg, s)
    requires p.HasRegistry? && RolePhaseOk(cfg, s, q, p) && RoleStep(cfg, s, q, p, n) && n != Closed(Refused)
    ensures match n
      case Using(g, u) => GrantOk(cfg, s, q, g) && u == Authorized
      case Closed(o) => OutcomeOk(cfg, s, q, o)
      case _ => false
  {
    var HasRegistry(roles, listedAt) := p;
    var orgs := s.hist[listedAt].registry;
    match q.want
    case WantOrgs =>
    case WantTool(ref, minRole, _) =>
      var access, d :| IsAccess(access, Accessible(roles.view.roles, orgs))
        && MayConclude(cfg.lower, access, orgs, ref, minRole, d)
        && n == Concluded(d, roles, listedAt);
      if d.Granted? {
        GrantIsListed(cfg.lower, access, orgs, ref, minRole, d.org);
      }
  }

  lemma UseStepJustified(cfg: Config, s: State, tool: Tool, g: Grant, u: UsePhase, u': UsePhase)
    requires s.hist != [] && CachesOk(cfg, s) && g.listedAt < |s.hist|
    requires UsePhaseOk(cfg, s, tool, g, u) && UseStep(cfg, s, tool, g, u, Using(g, u'))
    ensures UsePhaseOk(cfg, s, tool, g, u')
  {
    var orgID := g.org.orgID;
    if u.Authorized? && orgID in s.sourceCache {
      assert SourceEntryOk(cfg, s, orgID, s.sourceCache[orgID], s.sourceOrigin[orgID]);
    }
  }

  lemma EffectJustified(cfg: Config, s: State, q: Asked, g: Grant, u: UsePhase, o: Outcome)
    requires s.hist != [] && CachesOk(cfg, s) && PastGates(q) && GrantOk(cfg, s, q, g)
    requires UsePhaseOk(cfg, s, q.want.tool, g, u) && UseStep(cfg, s, q.want.tool, g, u, Closed(o))
    ensures OutcomeOk(cfg, s, q, o)
  {
  }

  /** Whatever a request does next is justified by the state it does it in. */
  lemma StepJustified(cfg: Config, s: State, id: nat, n: Phase)
    requires s.hist != [] && CachesOk(cfg, s) && id in s.requests
    requires RequestOk(cfg, s, id, s.requests[id]) && StepTo(cfg, s, s.requests[id], n)
    ensures RequestOk(cfg, s, id, Request(s.requests[id].asked, n))
  {
    var q := s.requests[id].asked;
    if n != Closed(Refused) {
      match s.requests[id].phase
      case Resolving(p) =>
        if p.Started? {
          HitJustified(cfg, s, q, n);
        } else if p.HasRegistry? {
          DecisionJustified(cfg, s, q, p, n);
        } else {
          LoadStepJustified(cfg, s, q, p, n);
        }
      case Using(g, u) =>
        if n.Using? {
          UseStepJustified(cfg, s, q.want.tool, g, u, n.u);
        } else {
          EffectJustified(cfg, s, q, g, u, n.outcome);
        }
    }
  }

  /** A role cache entry may be replaced by a justified one. */
  lemma RoleWriteKeeps(cfg: Config, s: State, subject: string, entry: Entry<RoleView>, load: Load)
    requires Inv(cfg, s) && RoleEntryOk(cfg, s, subject, entry, load)
    ensures Inv(cfg, s.(roleCache := s.roleCache[subject := entry], roleOrigin := s.roleOrigin[subject := load]))
  {
    var s' := s.(roleCache := s.roleCache[subject := entry], roleOrigin := s.roleOrigin[subject := load]);
    forall k | k in s'.roleCache
      ensures RoleEntryOk(cfg, s', k, s'.roleCache[k], s'.roleOrigin[k])
    {
      assert RoleEntryOk(cfg, s, k, s'.roleCache[k], s'.roleOrigin[k]);
    }
    forall k | k in s'.sourceCache
      ensures SourceEntryOk(cfg, s', k, s'.sourceCache[k], s'.sourceOrigin[k])
    {
      assert SourceEntryOk(cfg, s, k, s.sourceCache[k], s.sourceOrigin[k]);
    }
    RequestsPersist(cfg, s, s');
  }

  lemma SourceWriteKeeps(cfg: Config, s: State, orgID: int, entry: Entry<seq<DS.Datasource>>, fetch: Fetch)
    requires Inv(cfg, s) && SourceEntryOk(cfg, s, orgID, entry, fetch)
    ensures Inv(cfg, s.(sourceCache := s.sourceCache[orgID := entry], sourceOrigin := s.sourceOrigin[orgID := fetch]))
  {
    var s' := s.(sourceCache := s.sourceCache[orgID := entry], sourceOrigin := s.sourceOrigin[orgID := fetch]);
    forall k | k in s'.roleCache
      ensures RoleEntryOk(cfg, s', k, s'.roleCache[k], s'.roleOrigin[k])
    {
      assert RoleEntryOk(cfg, s, k, s.roleCache[k], s.roleOrigin[k]);
    }
    forall k | k in s'.sourceCache
      ensures SourceEntryOk(cfg, s', k, s'.sourceCache[k], s'.sourceOrigin[k])
    {
      assert SourceEntryOk(cfg, s, k, s'.sourceCache[k], s'.sourceOrigin[k]);
    }
    RequestsPersist(cfg, s, s');
  }

  lemma RoleWriteJustified(cfg: Config, s: State, q: Asked, load: Load, view: RoleView)
    requires q.id in s.requests && s.requests[q.id].asked == q && cfg.roleTTLs.For(view) > 0
    requires RolePhaseOk(cfg, s, q, Stamped(load, view))
    ensures RoleEntryOk(cfg, s, q.caller.subject, Entry(view, s.hist[load.stampAt].now + cfg.roleTTLs.For(view)), load)
  {
  }

  lemma SourceWriteJustified(cfg: Config, s: State, tool: Tool, g: Grant, fetch: Fetch, dss: seq<DS.Datasource>)
    requires UsePhaseOk(cfg, s, tool, g, SourcesStamped(fetch, dss))
    ensures SourceEntryOk(cfg, s, g.org.orgID, Entry(dss, s.hist[fetch.stampAt].now + cfg.sourceTTL), fetch)
  {
  }

  lemma RolesWrittenKeeps(cfg: Config, s: State, q: Asked, load: Load, view: RoleView)
    requires Inv(cfg, s) && q.id in s.requests && s.requests[q.id].asked == q
    requires RolePhaseOk(cfg, s, q, Stamped(load, view))
    ensures Inv(cfg, Written(cfg, s, q, Resolving(Stamped(load, view))))
  {
    if cfg.roleTTLs.For(view) > 0 {
      RoleWriteJustified(cfg, s, q, load, view);
      RoleWriteKeeps(cfg, s, q.caller.subject, Entry(view, s.hist[load.stampAt].now + cfg.roleTTLs.For(view)), load);
    }
  }

  lemma SourcesWrittenKeeps(cfg: Config, s: State, q: Asked, g: Grant, fetch: Fetch, dss: seq<DS.Datasource>)
    requires Inv(cfg, s) && q.want.WantTool? && UsePhaseOk(cfg, s, q.want.tool, g, SourcesStamped(fetch, dss))
    ensures Inv(cfg, Written(cfg, s, q, Using(g, SourcesStamped(fetch, dss))))
  {
    SourceWriteJustified(cfg, s, q.want.tool, g, fetch, dss);
    SourceWriteKeeps(cfg, s, g.org.orgID, Entry(dss, s.hist[fetch.stampAt].now + cfg.sourceTTL), fetch);
  }

  lemma WritesOnlyCaches(cfg: Config, s: State, q: Asked, phase: Phase)
    ensures Written(cfg, s, q, phase).hist == s.hist && Written(cfg, s, q, phase).requests == s.requests
  {
  }

  lemma WrittenKeeps(cfg: Config, s: State, id: nat)
    requires Inv(cfg, s) && id in s.requests
    ensures Inv(cfg, Written(cfg, s, s.requests[id].asked, s.requests[id].phase))
  {
    var r := s.requests[id];
    assert RequestOk(cfg, s, id, r);
    match r.phase
    case Resolving(Stamped(load, view)) => RolesWrittenKeeps(cfg, s, r.asked, load, view);
    case Using(g, SourcesStamped(fetch, dss)) => SourcesWrittenKeeps(cfg, s, r.asked, g, fetch, dss);
    case _ => assert Written(cfg, s, r.asked, r.phase) == s;
  }

  lemma RequestStepKeeps(cfg: Config, s: State, id: nat, n: Phase, s': State)
    requires Inv(cfg, s) && RequestStep(cfg, s, id, n, s')
    ensures Inv(cfg, s')
  {
    assert RequestOk(cfg, s, id, s.requests[id]);
    StepJustified(cfg, s, id, n);
    var w := Written(cfg, s, s.requests[id].asked, s.requests[id].phase);
    WrittenKeeps(cfg, s, id);
    WritesOnlyCaches(cfg, s, s.requests[id].asked, s.requests[id].phase);
    RequestOkPersists(cfg, s, w, id, Request(s.requests[id].asked, n));
    MoveKeepsInv(cfg, w, id, n);
  }

  lemma ArriveKeeps(cfg: Config, s: State, id: nat, caller: Caller, want: Want, s': State)
    requires Inv(cfg, s) && Arrive(s, id, caller, want, s')
    ensures Inv(cfg, s')
  {
    CachesOkPersist(cfg, s, s');
    forall k | k in s'.requests
      ensures RequestOk(cfg, s', k, s'.requests[k])
    {
      if k != id {
        RequestOkPersists(cfg, s, s', k, s.requests[k]);
      }
    }
  }

  lemma ChangeKeeps(cfg: Config, s: State, w: World, s': State)
    requires Inv(cfg, s) && Change(s, w, s')
    ensures Inv(cfg, s')
  {
    CachesOkPersist(cfg, s, s');
    RequestsPersist(cfg, s, s');
  }

  lemma NextKeepsInv(cfg: Config, s: State, s': State)
    requires Inv(cfg, s) && Next(cfg, s, s')
    ensures Inv(cfg, s')
  {
    if id, n :| RequestStep(cfg, s, id, n, s') {
      RequestStepKeeps(cfg, s, id, n, s');
    } else if id, caller, want :| Arrive(s, id, caller, want, s') {
      ArriveKeeps(cfg, s, id, caller, want, s');
    } else {
      var w :| Change(s, w, s');
      ChangeKeeps(cfg, s, w, s');
    }
  }

  /** The invariant holds in every state of every run. */
  lemma {:induction false} RunsKeepInv(cfg: Config, run: seq<State>, i: nat)
    requires IsRun(cfg, run) && i < |run|
    ensures Inv(cfg, run[i])
  {
    if i > 0 {
      RunsKeepInv(cfg, run, i - 1);
      assert StepAt(cfg, run, i - 1);
      NextKeepsInv(cfg, run[i - 1], run[i]);
    }
  }
}
