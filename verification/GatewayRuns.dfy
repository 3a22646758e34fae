/** Building runs: how a run goes on, and what a continuation keeps. */
module GatewayRuns {
  import opened Prelude
  import opened AuthzTypes
  import opened TtlCache
  import opened RoleCache
  import opened Gateway
  import opened GatewayInvariant

  /** Some steps, of whatever kind, lead from s to t. */
  ghost predicate Leads(cfg: Config, s: State, t: State)
  {
    exists path :: IsPath(cfg, path) && path[0] == s && Last(path) == t
  }

  lemma LeadsNowhere(cfg: Config, s: State)
    ensures Leads(cfg, s, s)
  {
    assert IsPath(cfg, [s]);
  }

  lemma LeadsOn(cfg: Config, s: State, t: State, u: State)
    requires Leads(cfg, s, t) && Next(cfg, t, u)
    ensures Leads(cfg, s, u)
  {
    var path :| IsPath(cfg, path) && path[0] == s && Last(path) == t;
    var longer := path + [u];
    forall i: nat | i + 1 < |longer|
      ensures StepAt(cfg, longer, i)
    {
      assert i + 1 < |path| ==> StepAt(cfg, path, i);
    }
    assert longer[0] == s && Last(longer) == u;
  }

  /** A run can be continued by any steps from its last state. */
  lemma Continue(cfg: Config, run: seq<State>, t: State) returns (more: seq<State>)
    requires IsRun(cfg, run) && Leads(cfg, Last(run), t)
    ensures IsRun(cfg, more) && run <= more && Last(more) == t
  {
    var path :| IsPath(cfg, path) && path[0] == Last(run) && Last(path) == t;
    more := run + path[1..];
    forall i: nat | i + 1 < |more|
      ensures StepAt(cfg, more, i)
    {
      if i + 1 < |run| {
        assert StepAt(cfg, run, i);
      } else {
        assert StepAt(cfg, path, i - |run| + 1);
        assert more[i] == path[i - |run| + 1] && more[i + 1] == path[i - |run| + 2];
      }
    }
  }

  /** t comes after s: it has all of its history and requests, and its other
      requests arrived no earlier. */
  ghost predicate Follows(s: State, t: State)
  {
    && s.hist != [] && s.hist <= t.hist
    && (forall id | id in s.requests :: id in t.requests && t.requests[id].asked == s.requests[id].asked)
    && (forall id | id in t.requests && id !in s.requests :: |s.hist| - 1 <= t.requests[id].asked.start)
  }

  lemma RequestStepFollows(cfg: Config, r: State, s: State, t: State, id: nat, n: Phase)
    requires Follows(r, s) && RequestStep(cfg, s, id, n, t)
    ensures Follows(r, t)
  {
    WritesOnlyCaches(cfg, s, s.requests[id].asked, s.requests[id].phase);
  }

  lemma ArrivalFollows(r: State, s: State, t: State, id: nat, caller: Caller, want: Want)
    requires Follows(r, s) && Arrive(s, id, caller, want, t)
    ensures Follows(r, t)
  {
  }

  lemma ChangeFollows(r: State, s: State, t: State, w: World)
    requires Follows(r, s) && Change(s, w, t)
    ensures Follows(r, t)
  {
  }

  lemma NextFollows(cfg: Config, r: State, s: State, t: State)
    requires Follows(r, s) && Next(cfg, s, t)
    ensures Follows(r, t)
  {
    if id, n :| RequestStep(cfg, s, id, n, t) {
      RequestStepFollows(cfg, r, s, t, id, n);
    } else if id, caller, want :| Arrive(s, id, caller, want, t) {
      ArrivalFollows(r, s, t, id, caller, want);
    } else {
      var w :| Change(s, w, t);
      ChangeFollows(r, s, t, w);
    }
  }

  lemma {:induction false} PathFollows(cfg: Config, path: seq<State>, n: nat)
    requires IsPath(cfg, path) && Inv(cfg, path[0]) && n < |path|
    ensures Inv(cfg, path[n]) && Follows(path[0], path[n])
  {
    if n > 0 {
      PathFollows(cfg, path, n - 1);
      assert StepAt(cfg, path, n - 1);
      NextKeepsInv(cfg, path[n - 1], path[n]);
      NextFollows(cfg, path[0], path[n - 1], path[n]);
    }
  }

  lemma LeadsFollows(cfg: Config, s: State, t: State)
    requires Inv(cfg, s) && Leads(cfg, s, t)
    ensures Inv(cfg, t) && Follows(s, t)
  {
    var path :| IsPath(cfg, path) && path[0] == s && Last(path) == t;
    PathFollows(cfg, path, |path| - 1);
  }

  // --------------------------------------------------------- pieces of runs

  lemma Step(cfg: Config, s0: State, s: State, id: nat, n: Phase) returns (t: State)
    requires Leads(cfg, s0, s) && Holds(s, id)
    requires StepTo(cfg, s, s.requests[id], n)
    ensures t == Written(cfg, s, s.requests[id].asked, s.requests[id].phase).Move(id, n)
    ensures Leads(cfg, s0, t) && Sound(t) && t.hist == s.hist
  {
    t := Written(cfg, s, s.requests[id].asked, s.requests[id].phase).Move(id, n);
    WritesOnlyCaches(cfg, s, s.requests[id].asked, s.requests[id].phase);
    assert RequestStep(cfg, s, id, n, t);
    LeadsOn(cfg, s0, s, t);
  }

  lemma PassTo(cfg: Config, s0: State, s: State, w: World) returns (t: State)
    requires Leads(cfg, s0, s) && Sound(s) && s.Now().now <= w.now
    ensures t == s.(hist := s.hist + [w])
    ensures Leads(cfg, s0, t) && Sound(t)
  {
    t := s.(hist := s.hist + [w]);
    assert Change(s, w, t);
    LeadsOn(cfg, s0, s, t);
  }

  lemma Ask(cfg: Config, s0: State, s: State, id: nat, caller: Caller, want: Want) returns (t: State)
    requires Leads(cfg, s0, s) && Sound(s) && id !in s.requests
    ensures t == s.(requests := s.requests[id := Request(Asked(id, caller, want, s.At()), Resolving(Started))])
    ensures Leads(cfg, s0, t) && Sound(t)
  {
    t := s.(requests := s.requests[id := Request(Asked(id, caller, want, s.At()), Resolving(Started))]);
    assert Arrive(s, id, caller, want, t);
    LeadsOn(cfg, s0, s, t);
  }

  ghost predicate StandsAt(s: State, id: nat, p: RolePhase)
  {
    Holds(s, id) && s.requests[id].phase == Resolving(p)
  }

  ghost predicate Misses(s: State, id: nat)
  {
    && StandsAt(s, id, Started) && PastGates(s.requests[id].asked)
    && Get(s.roleCache, s.requests[id].asked.caller.subject, s.Now().now).None?
    && s.requests[id].asked.caller.Identity() in s.Now().users
  }

  /** What a request that reads Grafana at this instant finds. */
  ghost function ViewNow(cfg: Config, s: State, caller: Caller): RoleView
    requires s.hist != [] && caller.Identity() in s.Now().users
  {
    RoleView(Known, RolesOf(cfg.lower, MembersOf(s.Now(), s.Now().users[caller.Identity()])))
  }

  lemma MoveTwice(s: State, id: nat, a: Phase, b: Phase)
    requires id in s.requests
    ensures s.Move(id, a).Move(id, b) == s.Move(id, b)
  {
    assert s.Move(id, a).Move(id, b).requests == s.Move(id, b).requests;
  }

  lemma MissStep(cfg: Config, s: State, id: nat)
    requires Misses(s, id)
    ensures StepTo(cfg, s, s.requests[id], Resolving(MissedRoles(s.At())))
  {
  }

  lemma FindStep(cfg: Config, s: State, id: nat, start: nat)
    requires StandsAt(s, id, MissedRoles(start)) && s.requests[id].asked.caller.Identity() in s.Now().users
    ensures StepTo(cfg, s, s.requests[id], Resolving(FoundUser(start, s.At(), s.Now().users[s.requests[id].asked.caller.Identity()])))
  {
  }

  lemma ReadStep(cfg: Config, s: State, id: nat, start: nat, userAt: nat, user: int)
    requires StandsAt(s, id, FoundUser(start, userAt, user))
    ensures var q := s.requests[id].asked;
      StepTo(cfg, s, s.requests[id], Resolving(Loaded(Load(q.id, q.caller, start, userAt, s.At(), s.At()),
                                                       RoleView(Known, RolesOf(cfg.lower, MembersOf(s.Now(), user))))))
  {
  }

  lemma FindUser(cfg: Config, s0: State, s: State, id: nat) returns (t: State)
    requires Leads(cfg, s0, s) && Misses(s, id)
    ensures var user := s.Now().users[s.requests[id].asked.caller.Identity()];
      t == s.Move(id, Resolving(FoundUser(s.At(), s.At(), user)))
    ensures Leads(cfg, s0, t) && Sound(t)
  {
    var missed := Resolving(MissedRoles(s.At()));
    var found := Resolving(FoundUser(s.At(), s.At(), s.Now().users[s.requests[id].asked.caller.Identity()]));
    MissStep(cfg, s, id);
    var a := Step(cfg, s0, s, id, missed);
    FindStep(cfg, a, id, s.At());
    t := Step(cfg, s0, a, id, found);
    MoveTwice(s, id, missed, found);
  }

  /** A request whose roles are not cached reads them, all at this instant. */
  lemma Read(cfg: Config, s0: State, s: State, id: nat) returns (t: State, load: Load)
    requires Leads(cfg, s0, s) && Misses(s, id)
    ensures var q := s.requests[id].asked;
      && load == Load(q.id, q.caller, s.At(), s.At(), s.At(), s.At())
      && t == s.Move(id, Resolving(Loaded(load, ViewNow(cfg, s, q.caller))))
    ensures Leads(cfg, s0, t) && Sound(t)
  {
    var q := s.requests[id].asked;
    load := Load(q.id, q.caller, s.At(), s.At(), s.At(), s.At());
    var a := FindUser(cfg, s0, s, id);
    var loaded := Resolving(Loaded(load, ViewNow(cfg, s, q.caller)));
    ReadStep(cfg, a, id, s.At(), s.At(), s.Now().users[q.caller.Identity()]);
    t := Step(cfg, s0, a, id, loaded);
    MoveTwice(s, id, a.requests[id].phase, loaded);
  }

  /** It takes its expiry stamp. */
  lemma Stamp(cfg: Config, s0: State, s: State, id: nat, load: Load, view: RoleView) returns (t: State)
    requires Leads(cfg, s0, s) && Holds(s, id)
    requires s.requests[id].phase == Resolving(Loaded(load, view))
    ensures t == s.Move(id, Resolving(Stamped(load.(stampAt := s.At()), view)))
    ensures Leads(cfg, s0, t) && Sound(t)
  {
    t := Step(cfg, s0, s, id, Resolving(Stamped(load.(stampAt := s.At()), view)));
  }

  /** It writes the cache. */
  lemma Write(cfg: Config, s0: State, s: State, id: nat, load: Load, view: RoleView) returns (t: State)
    requires Leads(cfg, s0, s) && Holds(s, id) && load.stampAt < |s.hist|
    requires s.requests[id].phase == Resolving(Stamped(load, view)) && cfg.roleTTLs.For(view) > 0
    ensures var subject := s.requests[id].asked.caller.subject;
      && t.roleCache == s.roleCache[subject := Entry(view, s.hist[load.stampAt].now + cfg.roleTTLs.For(view))]
      && t.roleOrigin == s.roleOrigin[subject := load]
    ensures t.hist == s.hist && t.requests.Keys == s.requests.Keys
    ensures forall x | x in s.requests :: t.requests[x].asked == s.requests[x].asked
    ensures forall x | x in s.requests && x != id :: t.requests[x] == s.requests[x]
    ensures Leads(cfg, s0, t) && Sound(t)
  {
    t := Step(cfg, s0, s, id, WithRoles(RoleEvidence(load, view, load.start, true)));
  }
}
