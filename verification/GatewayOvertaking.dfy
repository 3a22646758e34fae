/** Loads of one subject are not serialized. An older answer can replace a newer
    one in the cache, in runs that really happen; and it cannot while the
    subject's loads do not overlap. */
module GatewayOvertaking {
  import opened Prelude
  import opened AuthzTypes
  import opened RoleCache
  import opened Gateway
  import opened GatewayInvariant
  import opened GatewayRuns
  import opened GatewayScenario

  // ----------------------------------------------------------- it can happen

  ghost predicate AboutToWrite(cfg: Config, s: State, id: nat, load: Load, view: RoleView)
  {
    && id in s.requests && s.requests[id].phase == Resolving(Stamped(load, view))
    && load.stampAt < |s.hist| && cfg.roleTTLs.For(view) > 0
  }

  /** From s the cache entry of the subject first holds one answer and later one
      that was read earlier. */
  ghost predicate Regresses(cfg: Config, s: State, subject: string, s1: State, s2: State)
  {
    && Leads(cfg, s, s1) && Leads(cfg, s1, s2)
    && subject in s1.roleCache && subject in s1.roleOrigin && subject in s2.roleCache && subject in s2.roleOrigin
    && s2.roleOrigin[subject].readAt < s1.roleOrigin[subject].readAt
  }

  /** Two loads of one subject wait to be written. When the one read first is
      written last, its older answer is what the cache ends up with. */
  lemma OlderLoadMayWin(cfg: Config, s: State, newer: nat, older: nat, late: Load, lateView: RoleView, early: Load, earlyView: RoleView)
      returns (s1: State, s2: State)
    requires Sound(s) && newer != older
    requires AboutToWrite(cfg, s, newer, late, lateView) && AboutToWrite(cfg, s, older, early, earlyView)
    requires s.requests[newer].asked.caller.subject == s.requests[older].asked.caller.subject
    requires early.readAt < late.readAt
    ensures var subject := s.requests[older].asked.caller.subject;
      && Regresses(cfg, s, subject, s1, s2)
      && s1.roleCache[subject].value == lateView && s2.roleCache[subject].value == earlyView
  {
    LeadsNowhere(cfg, s);
    s1 := Write(cfg, s, s, newer, late, lateView);
    LeadsNowhere(cfg, s1);
    s2 := Write(cfg, s1, s1, older, early, earlyView);
  }

  /** A request of the sample caller, waiting with this load. */
  function Waiting(id: nat, at: nat, view: RoleView): Request
  {
    Request(Asked(id, SampleCaller(), WantOrgs, 0), Resolving(Loaded(Load(id, SampleCaller(), at, at, at, at), view)))
  }

  function Arrived(id: nat): Request
  {
    Request(Asked(id, SampleCaller(), WantOrgs, 0), Resolving(Started))
  }

  /** Two requests of one subject arrive. */
  lemma TwoArrivals() returns (s: State)
    ensures Leads(SampleConfig(), StartState(), s) && Sound(s)
    ensures s.hist == [ViewerWorld()] && s.roleCache == map[]
    ensures s.requests == map[0 := Arrived(0), 1 := Arrived(1)]
  {
    var cfg := SampleConfig();
    StartIsRun();
    LeadsNowhere(cfg, StartState());
    var a := Ask(cfg, StartState(), StartState(), 0, SampleCaller(), WantOrgs);
    s := Ask(cfg, StartState(), a, 1, SampleCaller(), WantOrgs);
  }

  /** The first reads the viewer role. */
  lemma FirstRead() returns (s: State)
    ensures Leads(SampleConfig(), StartState(), s) && Sound(s)
    ensures s.hist == [ViewerWorld()] && s.roleCache == map[]
    ensures s.requests == map[0 := Waiting(0, 0, ViewerView()), 1 := Arrived(1)]
  {
    ViewerRoles();
    var a := TwoArrivals();
    var b, early := Read(SampleConfig(), StartState(), a, 0);
    s := b;
  }

  /** The second reads Grafana after the role is gone. */
  lemma TwoReads() returns (s: State)
    ensures Leads(SampleConfig(), StartState(), s) && Sound(s)
    ensures s.hist == [ViewerWorld(), RevokedWorld(0)]
    ensures s.requests == map[0 := Waiting(0, 0, ViewerView()), 1 := Waiting(1, 1, RoleView(Known, map[]))]
  {
    var cfg := SampleConfig();
    NoRoles(0);
    var a := FirstRead();
    var b := PassTo(cfg, StartState(), a, RevokedWorld(0));
    var c, late := Read(cfg, StartState(), b, 1);
    s := c;
  }

  /** Both take their stamps. */
  lemma TwoStamps() returns (s: State)
    ensures Leads(SampleConfig(), StartState(), s) && Sound(s)
    ensures AboutToWrite(SampleConfig(), s, 0, Load(0, SampleCaller(), 0, 0, 0, 1), ViewerView())
    ensures AboutToWrite(SampleConfig(), s, 1, Load(1, SampleCaller(), 1, 1, 1, 1), RoleView(Known, map[]))
    ensures s.requests[0].asked.caller.subject == s.requests[1].asked.caller.subject == SUBJECT
  {
    var cfg := SampleConfig();
    var a := TwoReads();
    var b := Stamp(cfg, StartState(), a, 0, Load(0, SampleCaller(), 0, 0, 0, 0), ViewerView());
    var c := Stamp(cfg, StartState(), b, 1, Load(1, SampleCaller(), 1, 1, 1, 1), RoleView(Known, map[]));
    s := c;
  }

  /** A run in which the cache forgets a revocation: it holds the answer without
      the role, and later the older answer with it. */
  lemma RevocationIsForgotten() returns (run: seq<State>, i: nat)
    ensures IsRun(SampleConfig(), run) && i < |run|
    ensures SUBJECT in run[i].roleCache && run[i].roleCache[SUBJECT].value.roles == map[]
    ensures SUBJECT in Last(run).roleCache && Last(run).roleCache[SUBJECT].value.roles == map[ORG_ID := RoleViewer]
    ensures SUBJECT in run[i].roleOrigin && SUBJECT in Last(run).roleOrigin
      && Last(run).roleOrigin[SUBJECT].readAt < run[i].roleOrigin[SUBJECT].readAt
  {
    var cfg := SampleConfig();
    var s := TwoStamps();
    var s1, s2 := OlderLoadMayWin(cfg, s, 1, 0, Load(1, SampleCaller(), 1, 1, 1, 1), RoleView(Known, map[]),
                                  Load(0, SampleCaller(), 0, 0, 0, 1), ViewerView());
    StartIsRun();
    var first := Continue(cfg, [StartState()], s);
    var second := Continue(cfg, first, s1);
    run := Continue(cfg, second, s2);
    i := |second| - 1;
    assert run[i] == s1;
  }

  // ------------------------------------------- loads that do not overlap

  predicate Loading(r: Request)
  {
    r.phase.Resolving? && (r.phase.p.MissedRoles? || r.phase.p.FoundUser? || r.phase.p.Loaded? || r.phase.p.Stamped?)
  }

  /** When the load of a loading request started. */
  function LoadStart(r: Request): nat
    requires Loading(r)
  {
    match r.phase.p
    case MissedRoles(start) => start
    case FoundUser(start, _, _) => start
    case Loaded(load, _) => load.start
    case Stamped(load, _) => load.start
  }

  ghost predicate LoadsFor(s: State, subject: string, id: nat)
  {
    id in s.requests && s.requests[id].asked.caller.subject == subject && Loading(s.requests[id])
  }

  /** At most one load of the subject, from its start to its write, is under way. */
  ghost predicate OneLoadAtATime(s: State, subject: string)
  {
    forall a, b | LoadsFor(s, subject, a) && LoadsFor(s, subject, b) :: a == b
  }

  ghost predicate Cached(s: State, subject: string)
  {
    subject in s.roleCache && subject in s.roleOrigin
  }

  /** Loads under way started after the cached answer was read. */
  ghost predicate CacheIsBehind(s: State, subject: string)
  {
    Cached(s, subject) ==> forall id | LoadsFor(s, subject, id) :: s.roleOrigin[subject].readAt <= LoadStart(s.requests[id])
  }

  /** The subject's entry is no older in t than in s. */
  ghost predicate NoOlder(s: State, t: State, subject: string)
  {
    Cached(s, subject) ==> Cached(t, subject) && s.roleOrigin[subject].readAt <= t.roleOrigin[subject].readAt
  }

  /** A load starts at the current instant and keeps its start. */
  lemma LoadStartStays(cfg: Config, s: State, r: Request, n: Phase)
    requires Sound(s)
    requires StepTo(cfg, s, r, n) && Loading(Request(r.asked, n))
    ensures LoadStart(Request(r.asked, n)) == if Loading(r) then LoadStart(r) else s.At()
  {
  }

  lemma StampedStopsLoading(cfg: Config, s: State, r: Request, n: Phase)
    requires Sound(s)
    requires StepTo(cfg, s, r, n) && r.phase.Resolving? && r.phase.p.Stamped?
    ensures !Loading(Request(r.asked, n))
  {
  }

  ghost predicate Writes(s: State, id: nat, subject: string)
  {
    id in s.requests && s.requests[id].asked.caller.subject == subject && s.requests[id].phase.Resolving? && s.requests[id].phase.p.Stamped?
  }

  /** A step that writes another subject's entry, or none, leaves this one. */
  lemma EntryStays(cfg: Config, s: State, id: nat, n: Phase, t: State, subject: string)
    requires RequestStep(cfg, s, id, n, t) && !Writes(s, id, subject)
    ensures (subject in t.roleCache) == (subject in s.roleCache) && (subject in t.roleOrigin) == (subject in s.roleOrigin)
    ensures subject in s.roleOrigin ==> t.roleOrigin[subject] == s.roleOrigin[subject]
    ensures t.hist == s.hist
  {
  }

  lemma OthersStay(cfg: Config, s: State, id: nat, n: Phase, t: State, subject: string, x: nat)
    requires RequestStep(cfg, s, id, n, t) && x != id && LoadsFor(t, subject, x)
    ensures LoadsFor(s, subject, x) && t.requests[x] == s.requests[x]
  {
    WritesOnlyCaches(cfg, s, s.requests[id].asked, s.requests[id].phase);
  }

  lemma OtherStepAdvances(cfg: Config, s: State, id: nat, n: Phase, t: State, subject: string)
    requires RequestStep(cfg, s, id, n, t) && CacheIsBehind(s, subject) && !Writes(s, id, subject)
    requires Cached(s, subject) ==> s.roleOrigin[subject].readAt < |s.hist|
    ensures NoOlder(s, t, subject) && CacheIsBehind(t, subject)
  {
    EntryStays(cfg, s, id, n, t, subject);
    WritesOnlyCaches(cfg, s, s.requests[id].asked, s.requests[id].phase);
    if Cached(t, subject) {
      forall x | LoadsFor(t, subject, x)
        ensures t.roleOrigin[subject].readAt <= LoadStart(t.requests[x])
      {
        if x == id {
          LoadStartStays(cfg, s, s.requests[id], n);
          assert Loading(s.requests[id]) ==> LoadsFor(s, subject, id);
        } else {
          OthersStay(cfg, s, id, n, t, subject, x);
        }
      }
    }
  }

  lemma WriteStepAdvances(cfg: Config, s: State, id: nat, n: Phase, t: State, subject: string)
    requires RequestStep(cfg, s, id, n, t) && OneLoadAtATime(s, subject) && CacheIsBehind(s, subject) && Writes(s, id, subject)
    requires s.requests[id].phase.p.load.start <= s.requests[id].phase.p.load.readAt
    ensures NoOlder(s, t, subject) && CacheIsBehind(t, subject)
  {
    assert LoadsFor(s, subject, id);
    StampedStopsLoading(cfg, s, s.requests[id], n);
    WritesOnlyCaches(cfg, s, s.requests[id].asked, s.requests[id].phase);
    assert !LoadsFor(t, subject, id);
    forall x
      ensures !LoadsFor(t, subject, x)
    {
      if x != id && LoadsFor(t, subject, x) {
        OthersStay(cfg, s, id, n, t, subject, x);
      }
    }
  }

  lemma RequestStepAdvances(cfg: Config, s: State, id: nat, n: Phase, t: State, subject: string)
    requires Inv(cfg, s) && RequestStep(cfg, s, id, n, t) && OneLoadAtATime(s, subject) && CacheIsBehind(s, subject)
    ensures NoOlder(s, t, subject) && CacheIsBehind(t, subject)
  {
    assert RequestOk(cfg, s, id, s.requests[id]);
    if Writes(s, id, subject) {
      WriteStepAdvances(cfg, s, id, n, t, subject);
    } else {
      if Cached(s, subject) {
        assert RoleEntryOk(cfg, s, subject, s.roleCache[subject], s.roleOrigin[subject]);
      }
      OtherStepAdvances(cfg, s, id, n, t, subject);
    }
  }

  lemma NextAdvances(cfg: Config, s: State, t: State, subject: string)
    requires Inv(cfg, s) && Next(cfg, s, t) && OneLoadAtATime(s, subject) && CacheIsBehind(s, subject)
    ensures NoOlder(s, t, subject) && CacheIsBehind(t, subject)
  {
    if id, n :| RequestStep(cfg, s, id, n, t) {
      RequestStepAdvances(cfg, s, id, n, t, subject);
    } else if id, caller, want :| Arrive(s, id, caller, want, t) {
      assert forall x | LoadsFor(t, subject, x) :: LoadsFor(s, subject, x);
    } else {
      var w :| Change(s, w, t);
      assert forall x | LoadsFor(t, subject, x) :: LoadsFor(s, subject, x);
    }
  }

  /** No state of the run has two loads of the subject under way. */
  ghost predicate LoadsAreSeparate(run: seq<State>, subject: string)
  {
    forall k {:trigger OneLoadAtATime(run[k], subject)} | 0 <= k < |run| :: OneLoadAtATime(run[k], subject)
  }

  lemma {:induction false} RunsStayAhead(cfg: Config, run: seq<State>, subject: string, i: nat)
    requires IsRun(cfg, run) && i < |run|
    requires LoadsAreSeparate(run, subject)
    ensures CacheIsBehind(run[i], subject)
  {
    if i > 0 {
      RunsStayAhead(cfg, run, subject, i - 1);
      RunsKeepInv(cfg, run, i - 1);
      assert StepAt(cfg, run, i - 1) && OneLoadAtATime(run[i - 1], subject);
      NextAdvances(cfg, run[i - 1], run[i], subject);
    }
  }

  lemma RunAdvances(cfg: Config, run: seq<State>, subject: string, k: nat)
    requires IsRun(cfg, run) && LoadsAreSeparate(run, subject) && k + 1 < |run|
    ensures NoOlder(run[k], run[k + 1], subject)
  {
    RunsKeepInv(cfg, run, k);
    RunsStayAhead(cfg, run, subject, k);
    assert StepAt(cfg, run, k);
    assert OneLoadAtATime(run[k], subject);
    NextAdvances(cfg, run[k], run[k + 1], subject);
  }

  /** In a run in which the loads of one subject do not overlap, its cache entry
      is never replaced by an answer that was read earlier. */
  lemma {:induction false} SeparateLoadsNeverRegress(cfg: Config, run: seq<State>, subject: string, i: nat, j: nat)
    requires IsRun(cfg, run) && i <= j < |run|
    requires LoadsAreSeparate(run, subject)
    ensures NoOlder(run[i], run[j], subject)
  {
    if i < j {
      SeparateLoadsNeverRegress(cfg, run, subject, i, j - 1);
      RunAdvances(cfg, run, subject, j - 1);
    }
  }
}
