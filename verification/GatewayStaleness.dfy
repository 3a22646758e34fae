/** How long a revoked role stays usable, exactly. The lifetime of a cache entry
    counts from its expiry stamp, so a load that is stamped after a revocation,
    but read before it, serves past the revocation by more than the lifetime. */
module GatewayStaleness {
  import opened Prelude
  import opened AuthzTypes
  import opened TtlCache
  import opened OrgDecision
  import opened OrgDecisionLaws
  import opened RoleCache
  import opened Gateway
  import opened GatewayInvariant
  import opened GatewayTheorems
  import opened GatewayRuns
  import opened GatewayScenario

  /** A request that arrived after s has, in t, a grant of the org from the
      cache entry that this load left, though the org is revoked from instant v
      on and the request looked in the cache a positive lifetime or more after v. */
  ghost predicate ServedLate(cfg: Config, s: State, t: State, load: Load, orgID: int, v: nat, id: nat, g: Grant)
  {
    && id !in s.requests && id in t.requests && GrantOf(t.requests[id]) == Some(g)
    && !g.roles.own && g.roles.load == load && g.org.orgID == orgID
    && RevokedSince(cfg, t, load.caller.subject, orgID, v)
    && v < |t.hist| && g.roles.lookupAt < |t.hist|
    && t.hist[v].now + cfg.roleTTLs.positive <= t.hist[g.roles.lookupAt].now
  }

  ghost predicate CanServeLate(cfg: Config, s: State, load: Load, orgID: int, v: nat)
  {
    exists t, id: nat, g :: Leads(cfg, s, t) && ServedLate(cfg, s, t, load, orgID, v, id, g)
  }

  /** The cache of s holds a role on the org, and s knows that it is revoked. */
  ghost predicate HoldsRevoked(cfg: Config, s: State, subject: string, orgID: int, v: nat)
  {
    && v < |s.hist|
    && subject in s.roleCache && subject in s.roleOrigin && orgID in s.roleCache[subject].value.roles
    && s.roleOrigin[subject].stampAt < |s.hist|
    && RevokedSince(cfg, s, subject, orgID, v)
  }

  /** The stamp is later than the revocation, and the entry has not expired. */
  predicate StampedLate(cfg: Config, s: State, load: Load, v: nat)
    requires v < |s.hist| && load.stampAt < |s.hist|
  {
    && s.hist[v].now < s.hist[load.stampAt].now
    && s.Now().now < s.hist[load.stampAt].now + cfg.roleTTLs.positive
  }

  // --------------------------------------------------- late service is stamped late

  lemma HitIsFresh(cfg: Config, t: State, id: nat, g: Grant)
    requires Inv(cfg, t) && id in t.requests && GrantOf(t.requests[id]) == Some(g) && !g.roles.own
    ensures t.requests[id].asked.start <= g.roles.lookupAt < |t.hist| && g.roles.load.stampAt < |t.hist|
    ensures t.hist[g.roles.lookupAt].now < t.hist[g.roles.load.stampAt].now + cfg.roleTTLs.positive
  {
    assert RequestOk(cfg, t, id, t.requests[id]);
    EvidenceMeaning(cfg, t, t.requests[id].asked, g.roles, t.hist[g.listedAt].registry, g.org);
  }

  lemma LateMeansStampedLate(cfg: Config, s: State, subject: string, orgID: int, v: nat, t: State, id: nat, g: Grant)
    requires HoldsRevoked(cfg, s, subject, orgID, v) && Follows(s, t) && Inv(cfg, t)
    requires ServedLate(cfg, s, t, s.roleOrigin[subject], orgID, v, id, g)
    ensures StampedLate(cfg, s, s.roleOrigin[subject], v)
  {
    var stampAt := s.roleOrigin[subject].stampAt;
    HitIsFresh(cfg, t, id, g);
    assert t.hist[v] == s.hist[v] && t.hist[stampAt] == s.hist[stampAt] && t.hist[|s.hist| - 1] == s.Now();
    assert t.hist[|s.hist| - 1].now <= t.hist[g.roles.lookupAt].now;
  }

  // --------------------------------------------------- stamped late can serve late

  lemma FreshId(ids: set<nat>) returns (id: nat)
    ensures id !in ids && forall x | x in ids :: x < id
    decreases |ids|
  {
    id := 0;
    if ids != {} {
      var x :| x in ids;
      var y := FreshId(ids - {x});
      assert ids == (ids - {x}) + {x};
      id := if x < y then y else x + 1;
    }
  }

  const ORG_NAME := "org"

  function OrgWith(orgID: int): Org
  {
    Organization(ORG_NAME, ORG_NAME, orgID, RoleNone, [])
  }

  /** The world of s at a later clock, with the org registered. */
  function LaterWorld(s: State, now: int, orgID: int): World
    requires s.hist != []
  {
    s.Now().(now := now, registry := [OrgWith(orgID)])
  }

  /** With these roles the sole registered org can be granted under its name. */
  ghost predicate MayGrant(cfg: Config, roles: map<int, Role>, orgID: int, o: Org)
  {
    exists access :: IsAccess(access, Accessible(roles, [OrgWith(orgID)]))
      && MayConclude(cfg.lower, access, [OrgWith(orgID)], ORG_NAME, RoleViewer, Granted(o))
  }

  lemma SoleOrgIsGranted(cfg: Config, roles: map<int, Role>, orgID: int)
    requires orgID in roles && roles[orgID] != RoleNone
    ensures MayGrant(cfg, roles, orgID, OrgWith(orgID).(role := roles[orgID]))
  {
    var orgs := [OrgWith(orgID)];
    var o := OrgWith(orgID).(role := roles[orgID]);
    assert AccessibleAt(roles, orgs, o, 0);
    AccessibleMeaning(roles, orgs, o);
    var access := SomeAccessWith(Accessible(roles, orgs), o);
    assert Denotes(cfg.lower, Accessible(roles, orgs), ORG_NAME, o);
    LoopsComputeTheDecision(cfg.lower, roles, orgs, access, ORG_NAME, RoleViewer, Granted(o));
  }

  lemma DecisionStep(cfg: Config, s: State, id: nat, roles: RoleEvidence, orgID: int, o: Org)
    requires Sound(s) && StandsAt(s, id, HasRegistry(roles, s.At())) && s.Now().registry == [OrgWith(orgID)]
    requires s.requests[id].asked.want == WantTool(ORG_NAME, RoleViewer, OrgTool)
    requires MayGrant(cfg, roles.view.roles, orgID, o)
    ensures StepTo(cfg, s, s.requests[id], Using(Grant(o, roles, s.At()), Authorized))
  {
    var d: Decision<seq<Tenant>> := Granted(o);
    assert Using(Grant(o, roles, s.At()), Authorized) == Concluded(d, roles, s.At());
    assert DecideStep(cfg, s.hist[s.At()].registry, s.requests[id].asked, roles, s.At(), Concluded(d, roles, s.At()));
  }

  /** A request that has its roles, while only this org is registered, is
      granted it in two more steps. */
  lemma Decide(cfg: Config, s0: State, s: State, id: nat, roles: RoleEvidence, orgID: int, o: Org) returns (t: State)
    requires Leads(cfg, s0, s) && Sound(s) && s.Now().registry == [OrgWith(orgID)]
    requires id in s.requests && s.requests[id].phase == Resolving(HasRoles(roles))
    requires s.requests[id].asked.want == WantTool(ORG_NAME, RoleViewer, OrgTool)
    requires MayGrant(cfg, roles.view.roles, orgID, o)
    ensures t == s.Move(id, Using(Grant(o, roles, s.At()), Authorized))
    ensures Leads(cfg, s0, t)
  {
    var listed := Resolving(HasRegistry(roles, s.At()));
    var granted := Using(Grant(o, roles, s.At()), Authorized);
    var a := Step(cfg, s0, s, id, listed);
    DecisionStep(cfg, a, id, roles, orgID, o);
    t := Step(cfg, s0, a, id, granted);
    MoveTwice(s, id, listed, granted);
  }

  lemma HitStep(cfg: Config, s: State, id: nat, view: RoleView)
    requires StandsAt(s, id, Started) && PastGates(s.requests[id].asked)
    requires Get(s.roleCache, s.requests[id].asked.caller.subject, s.Now().now) == Some(view)
    ensures StepTo(cfg, s, s.requests[id], WithRoles(RoleEvidence(s.roleOrigin[s.requests[id].asked.caller.subject], view, s.At(), false)))
  {
  }

  /** Nothing changes about a revocation when the world only registers an org
      and a caller that has asked before asks again. */
  lemma StaysRevoked(cfg: Config, s: State, t: State, w: World, id: nat, owner: nat, subject: string, orgID: int, v: nat)
    requires v < |s.hist| && RevokedSince(cfg, s, subject, orgID, v)
    requires t.hist == s.hist + [w] && w.users == s.Now().users && w.members == s.Now().members
    requires t.requests.Keys == s.requests.Keys + {id} && id !in s.requests && owner in s.requests
    requires forall x | x in s.requests :: t.requests[x].asked == s.requests[x].asked
    requires t.requests[id].asked.caller == s.requests[owner].asked.caller
    ensures RevokedSince(cfg, t, subject, orgID, v)
  {
    var n := |s.hist|;
    forall i: nat, j: nat, x | v <= i < |t.hist| && j < |t.hist| && x in t.requests && t.requests[x].asked.caller.subject == subject
      ensures GivesNothing(cfg, t, i, j, t.requests[x].asked.caller, orgID)
    {
      var i', j', x' := if i == n then n - 1 else i, if j == n then n - 1 else j, if x == id then owner else x;
      assert GivesNothing(cfg, s, i', j', s.requests[x'].asked.caller, orgID);
      assert MembersOf(t.hist[i], 0) == MembersOf(s.hist[i'], 0);
    }
  }

  /** A caller that has asked before asks for the sole registered org, at a
      clock at which the cache still has roles for the subject. */
  lemma AskAgain(cfg: Config, s: State, subject: string, orgID: int, now: int, id: nat) returns (a: State, t: State)
    requires Sound(s) && subject in s.roleCache && id !in s.requests
    requires s.Now().now <= now < s.roleCache[subject].expiresAt && s.roleCache[subject].value.status.Known?
    requires s.roleOrigin[subject].caller.subject == subject && subject != ""
    ensures var roles := RoleEvidence(s.roleOrigin[subject], s.roleCache[subject].value, |s.hist|, false);
      && a == s.(hist := s.hist + [LaterWorld(s, now, orgID)])
      && t == a.(requests := a.requests[id := Request(Asked(id, roles.load.caller, WantTool(ORG_NAME, RoleViewer, OrgTool), |s.hist|),
                                                      Resolving(HasRoles(roles)))])
    ensures Leads(cfg, s, t) && Sound(t)
  {
    var load := s.roleOrigin[subject];
    var view := s.roleCache[subject].value;
    LeadsNowhere(cfg, s);
    a := PassTo(cfg, s, s, LaterWorld(s, now, orgID));
    var b := Ask(cfg, s, a, id, load.caller, WantTool(ORG_NAME, RoleViewer, OrgTool));
    HitStep(cfg, b, id, view);
    t := Step(cfg, s, b, id, WithRoles(RoleEvidence(load, view, b.At(), false)));
  }

  /** It is granted the org, by the cached load. */
  lemma AskAndGet(cfg: Config, s: State, subject: string, orgID: int, now: int, id: nat) returns (t: State, g: Grant)
    requires Sound(s) && subject in s.roleCache && id !in s.requests
    requires s.Now().now <= now < s.roleCache[subject].expiresAt && s.roleCache[subject].value.status.Known?
    requires s.roleOrigin[subject].caller.subject == subject && subject != ""
    requires orgID in s.roleCache[subject].value.roles && s.roleCache[subject].value.roles[orgID] != RoleNone
    ensures Leads(cfg, s, t) && t.hist == s.hist + [LaterWorld(s, now, orgID)]
    ensures t.requests.Keys == s.requests.Keys + {id} && forall x | x in s.requests :: t.requests[x] == s.requests[x]
    ensures t.requests[id].asked.caller == s.roleOrigin[subject].caller && GrantOf(t.requests[id]) == Some(g)
    ensures g.org.orgID == orgID && g.roles.load == s.roleOrigin[subject] && !g.roles.own && g.roles.lookupAt == |s.hist|
  {
    var view := s.roleCache[subject].value;
    var a, c := AskAgain(cfg, s, subject, orgID, now, id);
    var roles := RoleEvidence(s.roleOrigin[subject], view, |s.hist|, false);
    SoleOrgIsGranted(cfg, view.roles, orgID);
    var o := OrgWith(orgID).(role := view.roles[orgID]);
    g := Grant(o, roles, c.At());
    t := Decide(cfg, s, c, id, roles, orgID, o);
  }

  lemma StampedLateCanServeLate(cfg: Config, s: State, subject: string, orgID: int, v: nat)
    requires Sound(s) && HoldsRevoked(cfg, s, subject, orgID, v) && s.roleCache[subject].value.roles[orgID] != RoleNone
    requires RoleEntryOk(cfg, s, subject, s.roleCache[subject], s.roleOrigin[subject])
    requires StampedLate(cfg, s, s.roleOrigin[subject], v)
    ensures CanServeLate(cfg, s, s.roleOrigin[subject], orgID, v)
  {
    var load := s.roleOrigin[subject];
    var id := FreshId(s.requests.Keys);
    var now := s.hist[load.stampAt].now + cfg.roleTTLs.positive - 1;
    var t, g := AskAndGet(cfg, s, subject, orgID, now, id);
    StaysRevoked(cfg, s, t, LaterWorld(s, now, orgID), id, load.owner, subject, orgID, v);
    assert ServedLate(cfg, s, t, load, orgID, v, id, g);
  }

  /** Of a cached role that has been revoked, the exact condition: some
      continuation of the run grants it to a new request, from the cache, a
      positive lifetime or more after the revocation, if and only if its entry
      was stamped after the revocation and is still fresh. */
  lemma ServesLateIff(cfg: Config, run: seq<State>, subject: string, orgID: int, v: nat)
    requires IsRun(cfg, run) && HoldsRevoked(cfg, Last(run), subject, orgID, v)
    ensures CanServeLate(cfg, Last(run), Last(run).roleOrigin[subject], orgID, v)
       <==> StampedLate(cfg, Last(run), Last(run).roleOrigin[subject], v)
  {
    var s := Last(run);
    var load := s.roleOrigin[subject];
    RunsKeepInv(cfg, run, |run| - 1);
    if CanServeLate(cfg, s, load, orgID, v) {
      var t, id: nat, g :| Leads(cfg, s, t) && ServedLate(cfg, s, t, load, orgID, v, id, g);
      LeadsFollows(cfg, s, t);
      LateMeansStampedLate(cfg, s, subject, orgID, v, t, id, g);
    }
    if StampedLate(cfg, s, load, v) {
      SubjectIsolation(cfg, run, subject);
      assert RoleEntryOk(cfg, s, subject, s.roleCache[subject], load);
      StampedLateCanServeLate(cfg, s, subject, orgID, v);
    }
  }

  // ------------------------------------------------------------- it happens

  /** A request reads the viewer role at clock 0, which then is revoked at once;
      its stamp is not taken before clock 100. */
  lemma ReadBeforeRevocation() returns (s: State)
    ensures Leads(SampleConfig(), StartState(), s) && Sound(s)
    ensures s.hist == [ViewerWorld(), RevokedWorld(0), RevokedWorld(100)]
    ensures s.requests == map[0 := Request(Asked(0, SampleCaller(), WantOrgs, 0),
                                           Resolving(Loaded(Load(0, SampleCaller(), 0, 0, 0, 0), ViewerView())))]
    ensures s.roleCache == map[] && s.roleOrigin == map[]
  {
    var cfg := SampleConfig();
    var s0 := StartState();
    StartIsRun();
    LeadsNowhere(cfg, s0);
    ViewerRoles();
    var s1 := Ask(cfg, s0, s0, 0, SampleCaller(), WantOrgs);
    var s2, load := Read(cfg, s0, s1, 0);
    var s3 := PassTo(cfg, s0, s2, RevokedWorld(0));
    s := PassTo(cfg, s0, s3, RevokedWorld(100));
  }

  /** A run up to an entry that was read as viewer at clock 0, revoked at clock
      0, and stamped at clock 100. */
  lemma SlowLoad() returns (run: seq<State>)
    ensures IsRun(SampleConfig(), run)
    ensures var s := Last(run);
      && HoldsRevoked(SampleConfig(), s, SUBJECT, ORG_ID, 1) && StampedLate(SampleConfig(), s, s.roleOrigin[SUBJECT], 1)
      && s.hist[1].now == 0
  {
    var cfg := SampleConfig();
    var s0 := StartState();
    var a := ReadBeforeRevocation();
    var load := Load(0, SampleCaller(), 0, 0, 0, 0);
    var b := Stamp(cfg, s0, a, 0, load, ViewerView());
    var s := Write(cfg, s0, b, 0, load.(stampAt := 2), ViewerView());
    NoRoles(0);
    NoRoles(100);
    forall i: nat, j: nat, id | 1 <= i < |s.hist| && j < |s.hist| && id in s.requests && s.requests[id].asked.caller.subject == SUBJECT
      ensures GivesNothing(cfg, s, i, j, s.requests[id].asked.caller, ORG_ID)
    {
    }
    StartIsRun();
    run := Continue(cfg, [s0], s);
  }

  /** A run in which a request is granted a role on a cache hit a whole positive
      lifetime after it was revoked. */
  lemma LateServiceHappens() returns (run: seq<State>, id: nat, g: Grant, v: nat)
    ensures HasGrant(SampleConfig(), run, id, g) && !g.roles.own && g.org.orgID == ORG_ID
    ensures var s := Last(run);
      && v < |s.hist| && g.roles.lookupAt < |s.hist|
      && RevokedSince(SampleConfig(), s, SUBJECT, ORG_ID, v) && s.requests[id].asked.caller.subject == SUBJECT
      && s.hist[v].now + SampleConfig().roleTTLs.positive <= s.hist[g.roles.lookupAt].now
  {
    var cfg := SampleConfig();
    var before := SlowLoad();
    var s := Last(before);
    v := 1;
    ServesLateIff(cfg, before, SUBJECT, ORG_ID, v);
    var t, x: nat, granted :| Leads(cfg, s, t) && ServedLate(cfg, s, t, s.roleOrigin[SUBJECT], ORG_ID, v, x, granted);
    id, g := x, granted;
    run := Continue(cfg, before, t);
    SubjectIsolation(cfg, before, SUBJECT);
    GrantsAreJustified(cfg, run, id, g);
  }
}
