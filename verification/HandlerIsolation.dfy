/** Clone separation at work: handlers that scribble over everything they were
    ever given change neither the registry listing nor any other result. */
module HandlerIsolation {
  import opened Prelude
  import opened AuthzTypes
  import opened OrgDecision
  import opened OrgClone
  import opened RoleCache
  import opened Authz

  /** All storage reachable from these slices lies in held. */
  ghost predicate Within(handed: seq<Tenants>, held: set<object>)
    reads *
  {
    forall t | t in handed :: Storage(t) <= held
  }

  method ScribbleTypes(types: array?<string>)
    modifies types
  {
    if types != null {
      for j := 0 to types.Length {
        types[j] := "scribble";
      }
    }
  }

  /** A handler overwriting every tenant and every tenant type of the slices it
      was handed. Callers know only that whatever is held may change, and that
      a handler can store no reference it does not have. */
  method HandlerWrites(handed: seq<Tenants>, ghost held: set<object>)
    requires Within(handed, held)
    modifies held
    ensures Within(handed, held)
  {
    for n := 0 to |handed|
      invariant Within(handed, held)
    {
      var t := handed[n];
      if t != null {
        for i := 0 to t.Length
          invariant Within(handed, held)
        {
          assert Storage(t) <= held && (t[i].types != null ==> t[i].types in Storage(t));
          ScribbleTypes(t[i].types);
          t[i] := HeapTenant("scribble", null);
        }
      }
    }
  }

  type OrgView = Organization<seq<Tenant>>

  ghost function ViewAll(orgs: seq<HeapOrg>): (views: seq<OrgView>)
    reads *
    ensures |views| == |orgs| && forall k | 0 <= k < |orgs| :: views[k] == ViewOrg(orgs[k])
  {
    seq(|orgs|, k requires 0 <= k < |orgs| reads * => ViewOrg(orgs[k]))
  }

  twostate lemma RegistryUntouched(orgs: seq<HeapOrg>)
    requires forall i | 0 <= i < |orgs| :: unchanged(old(Storage(orgs[i].tenants)))
    ensures ViewAll(orgs) == old(ViewAll(orgs))
    ensures forall o | o in orgs :: Storage(o.tenants) == old(Storage(o.tenants))
  {
    forall i | 0 <= i < |orgs|
      ensures ViewOrg(orgs[i]) == old(ViewOrg(orgs[i])) && Storage(orgs[i].tenants) == old(Storage(orgs[i].tenants))
    {
      UnchangedView(orgs[i]);
    }
  }

  datatype Question = Require(ref: string, minRole: Role) | List

  /** One call of RequireOrg or ListOrgs by some caller in some environment. */
  datatype Call = Call(caller: Caller, question: Question, env: Env)

  // ----------------------------------------- what a call answers, by contents

  function Resolved(lower: string -> string, ttls: Lifetimes, cache: Cache, call: Call): (Result<map<int, Role>, AuthzError>, Cache)
  {
    Resolve(lower, ttls, cache, call.caller, call.env.grafana, call.env.lookupAt, call.env.stampAt)
  }

  predicate Gated(call: Call)
  {
    call.question.Require? && call.question.minRole == RoleNone
  }

  function CacheAfterCall(lower: string -> string, ttls: Lifetimes, cache: Cache, call: Call): Cache
  {
    if Gated(call) then cache else Resolved(lower, ttls, cache, call).1
  }

  /** The orgs of an access map, each once. */
  ghost predicate Enumerates(seen: seq<OrgView>, access: Access<seq<Tenant>>)
  {
    |seen| == |access| && forall v :: v in seen <==> v in access.Values
  }

  ghost predicate Decided(lower: string -> string, roles: map<int, Role>, registry: seq<OrgView>, ref: string, minRole: Role, seen: seq<OrgView>)
  {
    exists access, d ::
      && IsAccess(access, Accessible(roles, registry)) && MayConclude(lower, access, registry, ref, minRole, d)
      && seen == if d.Granted? then [d.org] else []
  }

  ghost predicate ListedAll(roles: map<int, Role>, registry: seq<OrgView>, seen: seq<OrgView>)
  {
    exists access :: IsAccess(access, Accessible(roles, registry)) && Enumerates(seen, access)
  }

  /** What the caller may see: the org decided on, or the accessible orgs, for
      the roles that the cache and Grafana give, and a registry that reads like
      this; nothing in an error case. */
  ghost predicate Answered(lower: string -> string, ttls: Lifetimes, cache: Cache, registry: seq<OrgView>, call: Call, seen: seq<OrgView>)
  {
    if Gated(call) then seen == []
    else
      match Resolved(lower, ttls, cache, call).0
      case Err(_) => seen == []
      case Ok(roles) =>
        match call.question
        case Require(ref, minRole) => Decided(lower, roles, registry, ref, minRole, seen)
        case List => ListedAll(roles, registry, seen)
  }

  // -------------------------------------- from orgs on the heap to contents

  lemma AccessibleView(roles: map<int, Role>, orgs: seq<HeapOrg>, o: HeapOrg)
    requires o in Accessible(roles, orgs)
    ensures ViewOrg(o) in Accessible(roles, ViewAll(orgs))
  {
    AccessibleMeaning(roles, orgs, o);
    var k :| AccessibleAt(roles, orgs, o, k);
    assert AccessibleAt(roles, ViewAll(orgs), ViewOrg(o), k);
    AccessibleMeaning(roles, ViewAll(orgs), ViewOrg(o));
  }

  lemma AccessibleSource(roles: map<int, Role>, orgs: seq<HeapOrg>, v: OrgView)
    requires v in Accessible(roles, ViewAll(orgs))
    ensures exists o | o in Accessible(roles, orgs) :: ViewOrg(o) == v
  {
    AccessibleMeaning(roles, ViewAll(orgs), v);
    var k :| AccessibleAt(roles, ViewAll(orgs), v, k);
    var o := orgs[k].(role := v.role);
    assert AccessibleAt(roles, orgs, o, k);
    AccessibleMeaning(roles, orgs, o);
    assert ViewOrg(o) == v;
  }

  /** Reading an access map gives an access map of what was read. */
  lemma AccessViews(roles: map<int, Role>, orgs: seq<HeapOrg>, access: Access<Tenants>)
    requires IsAccess(access, Accessible(roles, orgs))
    ensures IsAccess(Views(access), Accessible(roles, ViewAll(orgs)))
  {
    forall n | n in Views(access)
      ensures Views(access)[n] in Accessible(roles, ViewAll(orgs))
    {
      AccessibleView(roles, orgs, access[n]);
    }
    forall v | v in Accessible(roles, ViewAll(orgs))
      ensures v.name in Views(access)
    {
      AccessibleSource(roles, orgs, v);
    }
  }

  ghost function ViewDecision(d: Decision<Tenants>): Decision<seq<Tenant>>
    reads *
  {
    match d
    case Granted(org) => Granted(ViewOrg(org))
    case InsufficientRole(have, need) => InsufficientRole(have, need)
    case AmbiguousOrg(n) => AmbiguousOrg(n)
    case NotAuthorised => NotAuthorised
    case OrgNotFound => OrgNotFound
  }

  lemma FindViews(lower: string -> string, access: Access<Tenants>, ref: string)
    ensures MayFind(lower, Views(access), ref, NoMatch) == MayFind(lower, access, ref, NoMatch)
    ensures forall n :: MayFind(lower, Views(access), ref, AmbiguousRef(n)) == MayFind(lower, access, ref, AmbiguousRef(n))
    ensures forall n | n in access && MayFind(lower, access, ref, Match(access[n])) :: MayFind(lower, Views(access), ref, Match(ViewOrg(access[n])))
  {
    var target := lower(ref);
    assert DisplayKeys(lower, Views(access), target) == DisplayKeys(lower, access, target);
    assert forall n :: NameHit(lower, Views(access), target, n) == NameHit(lower, access, target, n);
  }

  lemma ConcludeViews(lower: string -> string, access: Access<Tenants>, orgs: seq<HeapOrg>, ref: string, minRole: Role, d: Decision<Tenants>)
    requires MayConclude(lower, access, orgs, ref, minRole, d)
    ensures MayConclude(lower, Views(access), ViewAll(orgs), ref, minRole, ViewDecision(d))
  {
    FindViews(lower, access, ref);
    if MayFind(lower, access, ref, NoMatch) {
      assert forall k | 0 <= k < |orgs| :: Names(lower, ViewAll(orgs)[k], lower(ref)) == Names(lower, orgs[k], lower(ref));
    } else if !d.AmbiguousOrg? {
      var n :| n in access && MayFind(lower, access, ref, Match(access[n])) && d == Judge(access[n], minRole);
      assert Views(access)[n] == ViewOrg(access[n]);
    }
  }

  // ------------------------------------------------------ calls and handlers

  /** The orgs of a map, each once, in any order. */
  method OrgsIn(m: map<string, HeapOrg>) returns (results: seq<HeapOrg>)
    ensures |results| == |m| && forall o :: o in results <==> o in m.Values
  {
    results := [];
    var todo := m.Keys;
    while todo != {}
      invariant todo <= m.Keys && |results| == |m| - |todo|
      invariant forall o :: o in results <==> exists n :: n in m.Keys - todo && m[n] == o
    {
      var n :| n in todo;
      todo := todo - {n};
      results := results + [m[n]];
    }
  }

  lemma ListingViews(roles: map<int, Role>, orgs: seq<HeapOrg>, access: Access<Tenants>, m: map<string, HeapOrg>, results: seq<HeapOrg>)
    requires IsAccess(access, Accessible(roles, orgs)) && m.Keys == access.Keys && ReadsAs(m, Views(access))
    requires |results| == |m| && forall o :: o in results <==> o in m.Values
    ensures ListedAll(roles, ViewAll(orgs), ViewAll(results))
  {
    AccessViews(roles, orgs, access);
    var views := Views(access);
    assert |m.Keys| == |m| && |views.Keys| == |views| && views.Keys == m.Keys;
    forall v
      ensures v in ViewAll(results) <==> v in views.Values
    {
      if v in ViewAll(results) {
        var k :| 0 <= k < |results| && ViewAll(results)[k] == v;
        assert results[k] in m.Values;
      }
      if n :| n in views && views[n] == v {
        assert m[n] in results;
        var k :| 0 <= k < |results| && results[k] == m[n];
        assert ViewAll(results)[k] == v;
      }
    }
    assert Enumerates(ViewAll(results), views);
  }

  lemma DecisionViews(lower: string -> string, roles: map<int, Role>, orgs: seq<HeapOrg>, access: Access<Tenants>, ref: string, minRole: Role,
      d: Decision<Tenants>, results: seq<HeapOrg>)
    requires IsAccess(access, Accessible(roles, orgs)) && MayConclude(lower, access, orgs, ref, minRole, d)
    requires if d.Granted? then |results| == 1 && ViewOrg(results[0]) == ViewOrg(d.org) else results == []
    ensures Decided(lower, roles, ViewAll(orgs), ref, minRole, ViewAll(results))
  {
    AccessViews(roles, orgs, access);
    ConcludeViews(lower, access, orgs, ref, minRole, d);
    assert ViewAll(results) == if d.Granted? then [ViewDecision(d).org] else [];
  }

  lemma AnswersWith(lower: string -> string, ttls: Lifetimes, cache: Cache, registry: seq<OrgView>, call: Call, seen: seq<OrgView>, roles: map<int, Role>)
    requires var resolved := Resolved(lower, ttls, cache, call).0;
      if Gated(call) || resolved.Err? then seen == []
      else
        && roles == resolved.value
        && match call.question
           case Require(ref, minRole) => Decided(lower, roles, registry, ref, minRole, seen)
           case List => ListedAll(roles, registry, seen)
    ensures Answered(lower, ttls, cache, registry, call, seen)
  {
  }

  method Required(a: Authorizer, orgs: seq<HeapOrg>, call: Call) returns (results: seq<HeapOrg>, ghost got: set<object>)
    requires call.question.Require? && call.env.registry == Some(orgs)
    modifies a`cache
    ensures fresh(got) && forall o | o in results :: Storage(o.tenants) <= got
    ensures a.cache == CacheAfterCall(a.lower, a.ttls, old(a.cache), call)
    ensures Answered(a.lower, a.ttls, old(a.cache), ViewAll(orgs), call, ViewAll(results))
  {
    var Require(ref, minRole) := call.question;
    var r, roles, d := a.RequireOrg(call.caller, ref, minRole, call.env);
    results, got := [], {};
    if r.Ok? {
      results, got := [r.value], Storage(r.value.tenants);
    }
    if !Gated(call) && Resolved(a.lower, a.ttls, old(a.cache), call).0.Ok? {
      assert Decided(a.lower, roles, ViewAll(orgs), ref, minRole, ViewAll(results)) by {
        ghost var access :| IsAccess(access, Accessible(roles, orgs)) && MayConclude(a.lower, access, orgs, ref, minRole, d);
        DecisionViews(a.lower, roles, orgs, access, ref, minRole, d, results);
      }
    }
    AnswersWith(a.lower, a.ttls, old(a.cache), ViewAll(orgs), call, ViewAll(results), roles);
  }

  /** ListOrgs, as far as the listing is concerned. */
  method ListFrom(a: Authorizer, orgs: seq<HeapOrg>, call: Call)
    returns (r: Option<map<string, HeapOrg>>, ghost roles: map<int, Role>, ghost access: Access<Tenants>, ghost used: set<object>)
    requires call.question.List? && call.env.registry == Some(orgs)
    modifies a`cache
    ensures a.cache == CacheAfterCall(a.lower, a.ttls, old(a.cache), call)
    ensures var resolved := Resolved(a.lower, a.ttls, old(a.cache), call).0;
      if resolved.Err? then r == None else r.Some? && roles == resolved.value
    ensures r.Some? ==>
      && IsAccess(access, Accessible(roles, orgs)) && r.value.Keys == access.Keys
      && ReadsAs(r.value, Views(access)) && fresh(used) && Apart(r.value, used)
  {
    var listed;
    listed, roles, access, used := a.ListOrgs(call.caller, call.env);
    r := if listed.Ok? then Some(listed.value) else None;
  }

  lemma ResultsAreWithin(m: map<string, HeapOrg>, used: set<object>, results: seq<HeapOrg>)
    requires Apart(m, used) && forall o | o in results :: o in m.Values
    ensures forall o | o in results :: Storage(o.tenants) <= used
  {
  }

  method Unpack(orgs: seq<HeapOrg>, m: map<string, HeapOrg>, ghost roles: map<int, Role>, ghost access: Access<Tenants>, ghost used: set<object>)
    returns (results: seq<HeapOrg>)
    requires IsAccess(access, Accessible(roles, orgs)) && m.Keys == access.Keys && ReadsAs(m, Views(access)) && Apart(m, used)
    ensures forall o | o in results :: Storage(o.tenants) <= used
    ensures ListedAll(roles, ViewAll(orgs), ViewAll(results))
  {
    results := OrgsIn(m);
    ResultsAreWithin(m, used, results);
    ListingViews(roles, orgs, access, m, results);
  }

  method Listed(a: Authorizer, orgs: seq<HeapOrg>, call: Call) returns (results: seq<HeapOrg>, ghost got: set<object>)
    requires call.question.List? && call.env.registry == Some(orgs)
    modifies a`cache
    ensures fresh(got) && forall o | o in results :: Storage(o.tenants) <= got
    ensures a.cache == CacheAfterCall(a.lower, a.ttls, old(a.cache), call)
    ensures Answered(a.lower, a.ttls, old(a.cache), ViewAll(orgs), call, ViewAll(results))
  {
    var r, roles, access, used := ListFrom(a, orgs, call);
    results, got := [], {};
    if r.Some? {
      got := used;
      results := Unpack(orgs, r.value, roles, access, used);
    }
    AnswersWith(a.lower, a.ttls, old(a.cache), ViewAll(orgs), call, ViewAll(results), roles);
  }

  /** One call, seen by its caller. */
  method Ask(a: Authorizer, orgs: seq<HeapOrg>, call: Call) returns (results: seq<HeapOrg>, ghost got: set<object>)
    requires call.env.registry == Some(orgs)
    modifies a`cache
    ensures fresh(got) && forall o | o in results :: Storage(o.tenants) <= got
    ensures a.cache == CacheAfterCall(a.lower, a.ttls, old(a.cache), call)
    ensures Answered(a.lower, a.ttls, old(a.cache), ViewAll(orgs), call, ViewAll(results))
  {
    match call.question {
      case Require(_, _) => results, got := Required(a, orgs, call);
      case List => results, got := Listed(a, orgs, call);
    }
  }

  function TenantsOf(results: seq<HeapOrg>): (handed: seq<Tenants>)
    ensures |handed| == |results| && forall k | 0 <= k < |results| :: handed[k] == results[k].tenants
  {
    seq(|results|, k requires 0 <= k < |results| => results[k].tenants)
  }

  /** Handler writes to what is held leave orgs with other storage as they read. */
  method ScribbleBeside(handed: seq<Tenants>, ghost held: set<object>, others: seq<HeapOrg>)
    requires Within(handed, held)
    requires forall o | o in others :: Storage(o.tenants) !! held
    modifies held
    ensures Within(handed, held)
    ensures ViewAll(others) == old(ViewAll(others))
    ensures forall o | o in others :: Storage(o.tenants) == old(Storage(o.tenants))
  {
    HandlerWrites(handed, held);
    RegistryUntouched(others);
  }

  /** The call and its effect on what is read, by contents alone. */
  method AskReading(a: Authorizer, orgs: seq<HeapOrg>, call: Call, ghost registry: seq<OrgView>)
    returns (results: seq<HeapOrg>, ghost got: set<object>, ghost seen: seq<OrgView>)
    requires call.env.registry == Some(orgs) && ViewAll(orgs) == registry
    modifies a`cache
    ensures ViewAll(orgs) == registry && forall o | o in orgs :: Storage(o.tenants) == old(Storage(o.tenants))
    ensures fresh(got) && forall o | o in results :: Storage(o.tenants) <= got
    ensures a.cache == CacheAfterCall(a.lower, a.ttls, old(a.cache), call)
    ensures ViewAll(results) == seen && Answered(a.lower, a.ttls, old(a.cache), registry, call, seen)
  {
    results, got := Ask(a, orgs, call);
    RegistryUntouched(orgs);
    seen := ViewAll(results);
  }

  /** Handler writes beside both the registry and an answer in use. */
  method ScribbleAround(handed: seq<Tenants>, ghost held: set<object>, orgs: seq<HeapOrg>, results: seq<HeapOrg>)
    requires Within(handed, held)
    requires forall o | o in orgs :: Storage(o.tenants) !! held
    requires forall o | o in results :: Storage(o.tenants) !! held
    modifies held
    ensures Within(handed, held)
    ensures ViewAll(orgs) == old(ViewAll(orgs)) && ViewAll(results) == old(ViewAll(results))
    ensures forall o | o in orgs :: Storage(o.tenants) == old(Storage(o.tenants))
    ensures forall o | o in results :: Storage(o.tenants) == old(Storage(o.tenants))
  {
    HandlerWrites(handed, held);
    RegistryUntouched(orgs);
    RegistryUntouched(results);
  }

  /** One call while other handlers are at work. They first overwrite whatever
      was handed out before, the call is answered, and they overwrite it all
      again while the answer is in use. Still the answer is what the roles and
      the registry, as it read at the start, call for; it lies in storage of its
      own; and the registry reads as before. */
  method Turn(a: Authorizer, orgs: seq<HeapOrg>, call: Call, handed: seq<Tenants>, ghost held: set<object>)
    returns (results: seq<HeapOrg>, ghost got: set<object>)
    requires call.env.registry == Some(orgs) && Within(handed, held) && a !in held
    requires forall o | o in orgs :: Storage(o.tenants) !! held
    modifies a`cache, held
    ensures ViewAll(orgs) == old(ViewAll(orgs)) && forall o | o in orgs :: Storage(o.tenants) == old(Storage(o.tenants))
    ensures fresh(got) && Within(handed, held) && forall o | o in results :: Storage(o.tenants) <= got
    ensures a.cache == CacheAfterCall(a.lower, a.ttls, old(a.cache), call)
    ensures Answered(a.lower, a.ttls, old(a.cache), old(ViewAll(orgs)), call, ViewAll(results))
  {
    ghost var registry := ViewAll(orgs);
    ScribbleBeside(handed, held, orgs);
    ghost var seen;
    results, got, seen := AskReading(a, orgs, call, registry);
    ScribbleAround(handed, held, orgs, results);
  }

  // ------------------------------------------------------------- many calls

  method ReadTypes(types: array?<string>) returns (read: seq<string>)
    ensures read == TypesOf(types)
  {
    return if types == null then [] else types[..];
  }

  method ReadTenants(t: Tenants) returns (read: seq<Tenant>)
    ensures read == View(t)
  {
    read := [];
    if t != null {
      for i := 0 to t.Length
        invariant |read| == i && forall j | 0 <= j < i :: read[j] == TenantAt(t, j)
      {
        var types := ReadTypes(t[i].types);
        read := read + [Tenant(t[i].name, types)];
      }
    }
  }

  /** A handler reading what it was given. */
  method ReadAll(results: seq<HeapOrg>) returns (seen: seq<OrgView>)
    ensures seen == ViewAll(results)
  {
    seen := [];
    ghost var views := ViewAll(results);
    for i := 0 to |results|
      invariant seen == views[..i]
    {
      RegistryUntouched(results);
      var o := results[i];
      var tenants := ReadTenants(o.tenants);
      seen := seen + [Organization(o.name, o.displayName, o.orgID, o.role, tenants)];
    }
    RegistryUntouched(results);
  }

  function CacheAfterCalls(lower: string -> string, ttls: Lifetimes, cache: Cache, calls: seq<Call>): Cache
  {
    if calls == [] then cache
    else CacheAfterCall(lower, ttls, CacheAfterCalls(lower, ttls, cache, Front(calls)), Last(calls))
  }

  /** Each answer is what its call gives in the cache that the calls before it
      leave. */
  ghost predicate AllAnswered(lower: string -> string, ttls: Lifetimes, cache: Cache, registry: seq<OrgView>, calls: seq<Call>, seen: seq<seq<OrgView>>)
  {
    && |seen| == |calls|
    && forall i | 0 <= i < |calls| :: Answered(lower, ttls, CacheAfterCalls(lower, ttls, cache, calls[..i]), registry, calls[i], seen[i])
  }

  lemma OneMoreAnswered(lower: string -> string, ttls: Lifetimes, cache: Cache, registry: seq<OrgView>, calls: seq<Call>, seen: seq<seq<OrgView>>,
      call: Call, read: seq<OrgView>)
    requires AllAnswered(lower, ttls, cache, registry, calls, seen)
    requires Answered(lower, ttls, CacheAfterCalls(lower, ttls, cache, calls), registry, call, read)
    ensures AllAnswered(lower, ttls, cache, registry, calls + [call], seen + [read])
    ensures CacheAfterCalls(lower, ttls, cache, calls + [call]) == CacheAfterCall(lower, ttls, CacheAfterCalls(lower, ttls, cache, calls), call)
  {
    var longer := calls + [call];
    assert Front(longer) == calls;
    forall i | 0 <= i < |longer|
      ensures Answered(lower, ttls, CacheAfterCalls(lower, ttls, cache, longer[..i]), registry, longer[i], (seen + [read])[i])
    {
      if i < |calls| {
        assert longer[..i] == calls[..i];
      } else {
        assert longer[..i] == calls;
      }
    }
  }

  lemma KeepWithin(handed: seq<Tenants>, held: set<object>, results: seq<HeapOrg>, got: set<object>)
    requires Within(handed, held) && forall o | o in results :: Storage(o.tenants) <= got
    ensures Within(handed + TenantsOf(results), held + got)
  {
    forall t | t in handed + TenantsOf(results)
      ensures Storage(t) <= held + got
    {
      if t in TenantsOf(results) {
        var k :| 0 <= k < |results| && TenantsOf(results)[k] == t;
        assert results[k] in results;
      }
    }
  }

  /** A turn whose answer is read and then, like all before it, kept. */
  method TakeTurn(a: Authorizer, orgs: seq<HeapOrg>, call: Call, handed: seq<Tenants>, ghost held: set<object>, ghost registry: seq<OrgView>)
    returns (read: seq<OrgView>, more: seq<Tenants>, ghost holding: set<object>)
    requires call.env.registry == Some(orgs) && Within(handed, held) && a !in held && ViewAll(orgs) == registry
    requires forall o | o in orgs :: Storage(o.tenants) !! held
    modifies a`cache, held
    ensures ViewAll(orgs) == registry && forall o | o in orgs :: Storage(o.tenants) !! holding
    ensures fresh(holding - held) && Within(more, holding) && a !in holding
    ensures a.cache == CacheAfterCall(a.lower, a.ttls, old(a.cache), call)
    ensures Answered(a.lower, a.ttls, old(a.cache), registry, call, read)
  {
    var results, got := Turn(a, orgs, call, handed, held);
    read := ReadAll(results);
    more := handed + TenantsOf(results);
    holding := held + got;
    KeepWithin(handed, held, results, got);
  }

  /** Any number of calls, with handlers overwriting everything ever handed out
      around each of them. What is read of every answer is what the calls before
      it, Grafana, and the registry as it read at the start call for, as if
      nobody had written anything. */
  method Session(a: Authorizer, orgs: seq<HeapOrg>, calls: seq<Call>) returns (seen: seq<seq<OrgView>>)
    requires forall i | 0 <= i < |calls| :: calls[i].env.registry == Some(orgs)
    modifies a`cache
    ensures ViewAll(orgs) == old(ViewAll(orgs))
    ensures a.cache == CacheAfterCalls(a.lower, a.ttls, old(a.cache), calls)
    ensures AllAnswered(a.lower, a.ttls, old(a.cache), old(ViewAll(orgs)), calls, seen)
  {
    ghost var registry := ViewAll(orgs);
    ghost var start := a.cache;
    var handed: seq<Tenants> := [];
    ghost var held: set<object> := {};
    seen := [];
    for i := 0 to |calls|
      invariant fresh(held) && Within(handed, held) && a !in held
      invariant ViewAll(orgs) == registry && forall o | o in orgs :: Storage(o.tenants) !! held
      invariant a.cache == CacheAfterCalls(a.lower, a.ttls, start, calls[..i])
      invariant AllAnswered(a.lower, a.ttls, start, registry, calls[..i], seen)
    {
      var read;
      read, handed, held := TakeTurn(a, orgs, calls[i], handed, held, registry);
      OneMoreAnswered(a.lower, a.ttls, start, registry, calls[..i], seen, calls[i], read);
      assert calls[..i + 1] == calls[..i] + [calls[i]];
      seen := seen + [read];
    }
    assert calls[..|calls|] == calls;
  }
}
