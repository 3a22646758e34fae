/** The step machine and the sequential method ResolveRoles agree: a request
    that runs with nobody interfering reaches the results and the caches that
    the method computes, and no others. */
module GatewayRefinement {
  import opened Prelude
  import opened AuthzTypes
  import opened TtlCache
  import opened RoleCache
  import opened Gateway
  import opened GatewayInvariant

  /** Grafana answering from one instant of the outside world. */
  function GrafanaAt(w: World): Grafana
  {
    Grafana(who => Ok(if who in w.users then Some(w.users[who]) else None), user => Ok(MembersOf(w, user)))
  }

  /** Whatever g answers is what the world is at this instant; it may fail. */
  ghost predicate MayAnswer(g: Grafana, w: World)
  {
    && (forall who :: g.lookupUser(who).Ok? ==> g.lookupUser(who) == GrafanaAt(w).lookupUser(who))
    && (forall user :: g.userOrgs(user).Ok? ==> g.userOrgs(user) == GrafanaAt(w).userOrgs(user))
  }

  ghost predicate CanStep(cfg: Config, s: State, id: nat, s': State)
  {
    exists n :: RequestStep(cfg, s, id, n, s')
  }

  /** k steps of request id, and of nothing else, lead from s to t. */
  ghost predicate Reaches(cfg: Config, s: State, id: nat, k: nat, t: State)
    decreases k
  {
    if k == 0 then s == t
    else exists m :: CanStep(cfg, s, id, m) && Reaches(cfg, m, id, k - 1, t)
  }

  ghost predicate Resolved(t: State, id: nat, roles: Result<map<int, Role>, AuthzError>, cache: Cache)
  {
    && t.roleCache == cache && id in t.requests
    && match roles
       case Err(e) =>
         && (e == CallerUnknownToGrafana || e == LookupFailed || e == UserOrgsFailed)
         && t.requests[id].phase.Closed?
         && if e == CallerUnknownToGrafana then t.requests[id].phase.outcome.UnknownCaller? else t.requests[id].phase.outcome.Refused?
       case Ok(rs) =>
         && t.requests[id].phase.Resolving? && t.requests[id].phase.p.HasRoles?
         && t.requests[id].phase.p.roles.view.roles == rs
  }

  /** From s the request, left alone, ends its role resolution with this result
      and this cache. */
  ghost predicate Resolves(cfg: Config, s: State, id: nat, roles: Result<map<int, Role>, AuthzError>, cache: Cache)
  {
    exists k: nat, t :: Reaches(cfg, s, id, k, t) && Resolved(t, id, roles, cache)
  }

  /** It is enough to resolve after the request's next step. */
  lemma ResolvesAfterStep(cfg: Config, s: State, id: nat, n: Phase, m: State, roles: Result<map<int, Role>, AuthzError>, cache: Cache)
    requires RequestStep(cfg, s, id, n, m) && Resolves(cfg, m, id, roles, cache)
    ensures Resolves(cfg, s, id, roles, cache)
  {
    var k: nat, t :| Reaches(cfg, m, id, k, t) && Resolved(t, id, roles, cache);
    assert CanStep(cfg, s, id, m);
    assert Reaches(cfg, s, id, k + 1, t);
  }

  lemma ResolvedAlready(cfg: Config, t: State, id: nat, roles: Result<map<int, Role>, AuthzError>, cache: Cache)
    requires Resolved(t, id, roles, cache)
    ensures Resolves(cfg, t, id, roles, cache)
  {
    assert Reaches(cfg, t, id, 0, t);
  }

  lemma FromStamped(cfg: Config, s: State, id: nat, load: Load, view: RoleView)
    requires Holds(s, id) && s.requests[id].phase == Resolving(Stamped(load, view)) && load.stampAt == s.At()
    ensures Resolves(cfg, s, id, RolesIn(view), Store(cfg.roleTTLs, s.roleCache, s.requests[id].asked.caller.subject, view, s.Now().now))
  {
    var r := s.requests[id];
    var n := WithRoles(RoleEvidence(load, view, load.start, true));
    var t := Written(cfg, s, r.asked, r.phase).Move(id, n);
    assert RequestStep(cfg, s, id, n, t);
    var cache := Store(cfg.roleTTLs, s.roleCache, r.asked.caller.subject, view, s.Now().now);
    ResolvedAlready(cfg, t, id, RolesIn(view), cache);
    ResolvesAfterStep(cfg, s, id, n, t, RolesIn(view), cache);
  }

  lemma FromLoaded(cfg: Config, s: State, id: nat, load: Load, view: RoleView)
    requires Holds(s, id) && s.requests[id].phase == Resolving(Loaded(load, view))
    ensures Resolves(cfg, s, id, RolesIn(view), Store(cfg.roleTTLs, s.roleCache, s.requests[id].asked.caller.subject, view, s.Now().now))
  {
    var stamped := load.(stampAt := s.At());
    var n := Resolving(Stamped(stamped, view));
    var m := s.Move(id, n);
    assert RequestStep(cfg, s, id, n, m);
    FromStamped(cfg, m, id, stamped, view);
    ResolvesAfterStep(cfg, s, id, n, m, RolesIn(view), Store(cfg.roleTTLs, s.roleCache, s.requests[id].asked.caller.subject, view, s.Now().now));
  }

  /** A request whose question to Grafana fails is refused. */
  lemma FromFailure(cfg: Config, s: State, id: nat, e: AuthzError)
    requires Holds(s, id) && s.requests[id].phase.Resolving? && (s.requests[id].phase.p.MissedRoles? || s.requests[id].phase.p.FoundUser?)
    requires e == LookupFailed || e == UserOrgsFailed
    ensures Resolves(cfg, s, id, Err(e), s.roleCache)
  {
    var n := Closed(Refused);
    var t := s.Move(id, n);
    assert RequestStep(cfg, s, id, n, t);
    ResolvedAlready(cfg, t, id, Err(e), s.roleCache);
    ResolvesAfterStep(cfg, s, id, n, t, Err(e), s.roleCache);
  }

  lemma FromFoundUser(cfg: Config, s: State, id: nat, start: nat, user: int)
    requires Holds(s, id) && s.requests[id].phase == Resolving(FoundUser(start, s.At(), user))
    ensures var view := RoleView(Known, RolesOf(cfg.lower, MembersOf(s.Now(), user)));
      Resolves(cfg, s, id, Ok(view.roles), Store(cfg.roleTTLs, s.roleCache, s.requests[id].asked.caller.subject, view, s.Now().now))
  {
    var q := s.requests[id].asked;
    var view := RoleView(Known, RolesOf(cfg.lower, MembersOf(s.Now(), user)));
    var load := Load(q.id, q.caller, start, s.At(), s.At(), s.At());
    var n := Resolving(Loaded(load, view));
    var m := s.Move(id, n);
    assert RequestStep(cfg, s, id, n, m);
    FromLoaded(cfg, m, id, load, view);
    ResolvesAfterStep(cfg, s, id, n, m, Ok(view.roles), Store(cfg.roleTTLs, s.roleCache, q.caller.subject, view, s.Now().now));
  }

  lemma FromUnknownUser(cfg: Config, s: State, id: nat, start: nat)
    requires Holds(s, id) && s.requests[id].phase == Resolving(MissedRoles(start))
    requires s.requests[id].asked.caller.Identity() !in s.Now().users
    ensures var view := RoleView(UnknownToGrafana, map[]);
      Resolves(cfg, s, id, RolesIn(view), Store(cfg.roleTTLs, s.roleCache, s.requests[id].asked.caller.subject, view, s.Now().now))
  {
    var q := s.requests[id].asked;
    var view := RoleView(UnknownToGrafana, map[]);
    var load := Load(q.id, q.caller, start, s.At(), s.At(), s.At());
    var n := Resolving(Loaded(load, view));
    var m := s.Move(id, n);
    assert RequestStep(cfg, s, id, n, m);
    FromLoaded(cfg, m, id, load, view);
    ResolvesAfterStep(cfg, s, id, n, m, RolesIn(view), Store(cfg.roleTTLs, s.roleCache, q.caller.subject, view, s.Now().now));
  }

  /** What resolveRoles computes, at this instant, from the cache of s. */
  function Specified(cfg: Config, s: State, id: nat, g: Grafana): (Result<map<int, Role>, AuthzError>, Cache)
    requires s.hist != [] && id in s.requests
  {
    Resolve(cfg.lower, cfg.roleTTLs, s.roleCache, s.requests[id].asked.caller, g, s.Now().now, s.Now().now)
  }

  lemma FromMissed(cfg: Config, s: State, id: nat, start: nat, g: Grafana)
    requires Holds(s, id) && s.requests[id].phase == Resolving(MissedRoles(start)) && MayAnswer(g, s.Now())
    requires s.requests[id].asked.caller.Authenticated()
    requires Get(s.roleCache, s.requests[id].asked.caller.subject, s.Now().now).None?
    ensures Resolves(cfg, s, id, Specified(cfg, s, id, g).0, Specified(cfg, s, id, g).1)
  {
    var caller := s.requests[id].asked.caller;
    var (roles, cache) := Specified(cfg, s, id, g);
    match g.lookupUser(caller.Identity())
    case Err(_) => FromFailure(cfg, s, id, LookupFailed);
    case Ok(None) => FromUnknownUser(cfg, s, id, start);
    case Ok(Some(user)) =>
      var n := Resolving(FoundUser(start, s.At(), user));
      var m := s.Move(id, n);
      assert RequestStep(cfg, s, id, n, m);
      if g.userOrgs(user).Ok? {
        FromFoundUser(cfg, m, id, start, user);
      } else {
        FromFailure(cfg, m, id, UserOrgsFailed);
      }
      ResolvesAfterStep(cfg, s, id, n, m, roles, cache);
  }

  /** Running alone, a request can reach whatever the method ResolveRoles
      computes: for every Grafana that answers from this instant or fails, the
      same result and the same cache. */
  lemma AloneItResolves(cfg: Config, s: State, id: nat, g: Grafana)
    requires Inv(cfg, s) && id in s.requests && s.requests[id].phase == Resolving(Started) && PastGates(s.requests[id].asked)
    requires MayAnswer(g, s.Now())
    ensures Resolves(cfg, s, id, Specified(cfg, s, id, g).0, Specified(cfg, s, id, g).1)
  {
    var q := s.requests[id].asked;
    var (roles, cache) := Specified(cfg, s, id, g);
    match Get(s.roleCache, q.caller.subject, s.Now().now)
    case Some(v) =>
      var n := WithRoles(RoleEvidence(s.roleOrigin[q.caller.subject], v, s.At(), false));
      var t := s.Move(id, n);
      assert RequestStep(cfg, s, id, n, t);
      ResolvedAlready(cfg, t, id, roles, cache);
      ResolvesAfterStep(cfg, s, id, n, t, roles, cache);
    case None =>
      var n := Resolving(MissedRoles(s.At()));
      var m := s.Move(id, n);
      assert RequestStep(cfg, s, id, n, m);
      FromMissed(cfg, m, id, s.At(), g);
      ResolvesAfterStep(cfg, s, id, n, m, roles, cache);
  }

  // ------------------------------------------- and nothing else, for the roles

  /** How a request that ran alone from s stands in t. */
  ghost predicate AloneInRoles(cfg: Config, s: State, id: nat, t: State)
    requires s.hist != [] && id in s.requests
  {
    var caller := s.requests[id].asked.caller;
    var (roles, cache) := Specified(cfg, s, id, GrafanaAt(s.Now()));
    var missed := Get(s.roleCache, caller.subject, s.Now().now).None?;
    && t.hist == s.hist && id in t.requests && t.requests[id].asked == s.requests[id].asked && PastGates(s.requests[id].asked)
    && match t.requests[id].phase
       case Resolving(Started) => t.roleCache == s.roleCache
       case Resolving(MissedRoles(_)) => missed && t.roleCache == s.roleCache
       case Resolving(FoundUser(_, _, user)) =>
         missed && t.roleCache == s.roleCache && GrafanaAt(s.Now()).lookupUser(caller.Identity()) == Ok(Some(user))
       case Resolving(Loaded(_, view)) =>
         missed && t.roleCache == s.roleCache && Answer(cfg.lower, GrafanaAt(s.Now()), caller) == Ok(view)
       case Resolving(Stamped(load, view)) =>
         missed && t.roleCache == s.roleCache && Answer(cfg.lower, GrafanaAt(s.Now()), caller) == Ok(view) && load.stampAt == s.At()
       case Resolving(HasRoles(_)) => Resolved(t, id, roles, cache)
       case Closed(UnknownCaller(_)) => Resolved(t, id, roles, cache)
       case Closed(Refused) => t.roleCache == s.roleCache || t.roleCache == cache
       case _ => t.roleCache == cache
  }

  lemma StartStepAlone(cfg: Config, s: State, id: nat, m: State, n: Phase, t: State)
    requires s.hist != [] && id in s.requests && AloneInRoles(cfg, s, id, m) && RequestStep(cfg, m, id, n, t)
    requires m.requests[id].phase == Resolving(Started)
    ensures AloneInRoles(cfg, s, id, t)
  {
  }

  lemma StoreStepAlone(cfg: Config, s: State, id: nat, m: State, n: Phase, t: State)
    requires s.hist != [] && id in s.requests && AloneInRoles(cfg, s, id, m) && RequestStep(cfg, m, id, n, t)
    requires m.requests[id].phase.Resolving? && m.requests[id].phase.p.Stamped?
    ensures AloneInRoles(cfg, s, id, t)
  {
  }

  lemma AskStepAlone(cfg: Config, s: State, id: nat, m: State, n: Phase, t: State)
    requires s.hist != [] && id in s.requests && AloneInRoles(cfg, s, id, m) && RequestStep(cfg, m, id, n, t)
    requires var phase := m.requests[id].phase;
      phase.Resolving? && (phase.p.MissedRoles? || phase.p.FoundUser? || phase.p.Loaded?)
    ensures AloneInRoles(cfg, s, id, t)
  {
  }

  lemma DecisionStepAlone(cfg: Config, s: State, id: nat, m: State, n: Phase, t: State)
    requires s.hist != [] && id in s.requests && AloneInRoles(cfg, s, id, m) && RequestStep(cfg, m, id, n, t)
    requires m.requests[id].phase.Resolving? && (m.requests[id].phase.p.HasRoles? || m.requests[id].phase.p.HasRegistry?)
    ensures AloneInRoles(cfg, s, id, t)
  {
  }

  lemma UseStepAlone(cfg: Config, s: State, id: nat, m: State, n: Phase, t: State)
    requires s.hist != [] && id in s.requests && AloneInRoles(cfg, s, id, m) && RequestStep(cfg, m, id, n, t)
    requires !m.requests[id].phase.Resolving?
    ensures AloneInRoles(cfg, s, id, t)
  {
  }

  lemma {:induction false} StaysAloneInRoles(cfg: Config, s: State, id: nat, m: State, k: nat, t: State)
    requires s.hist != [] && id in s.requests && AloneInRoles(cfg, s, id, m) && Reaches(cfg, m, id, k, t)
    ensures AloneInRoles(cfg, s, id, t)
    decreases k
  {
    if k > 0 {
      var m' :| CanStep(cfg, m, id, m') && Reaches(cfg, m', id, k - 1, t);
      var n :| RequestStep(cfg, m, id, n, m');
      var phase := m.requests[id].phase;
      if phase.Resolving? && (phase.p.HasRoles? || phase.p.HasRegistry?) {
        DecisionStepAlone(cfg, s, id, m, n, m');
      } else if phase.Resolving? {
        match phase.p
        case Started => StartStepAlone(cfg, s, id, m, n, m');
        case Stamped(_, _) => StoreStepAlone(cfg, s, id, m, n, m');
        case _ => AskStepAlone(cfg, s, id, m, n, m');
      } else {
        UseStepAlone(cfg, s, id, m, n, m');
      }
      StaysAloneInRoles(cfg, s, id, m', k - 1, t);
    }
  }

  function FailingGrafana(): Grafana
  {
    Grafana(who => Err(()), user => Err(()))
  }

  /** Running alone, a request can reach nothing else: with roles in hand, or
      told to be unknown, it stands as ResolveRoles computes for a Grafana that
      answers; and where it is refused, the cache is what ResolveRoles leaves
      for some Grafana that answers or fails. */
  lemma AloneItOnlyResolves(cfg: Config, s: State, id: nat, k: nat, t: State)
    requires s.hist != [] && id in s.requests && s.requests[id].phase == Resolving(Started) && PastGates(s.requests[id].asked)
    requires Reaches(cfg, s, id, k, t)
    ensures id in t.requests
    ensures var phase := t.requests[id].phase;
      var (roles, cache) := Specified(cfg, s, id, GrafanaAt(s.Now()));
      && ((phase.Resolving? && phase.p.HasRoles?) || (phase.Closed? && phase.outcome.UnknownCaller?) ==> Resolved(t, id, roles, cache))
      && (phase == Closed(Refused) ==> exists g :: MayAnswer(g, s.Now()) && t.roleCache == Specified(cfg, s, id, g).1)
  {
    StaysAloneInRoles(cfg, s, id, s, k, t);
    assert MayAnswer(GrafanaAt(s.Now()), s.Now());
    assert MayAnswer(FailingGrafana(), s.Now());
    assert Specified(cfg, s, id, FailingGrafana()).1 == s.roleCache;
  }
}
