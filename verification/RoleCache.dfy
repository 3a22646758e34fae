/** What one pass through the role cache does: the values cached per subject,
    their lifetimes, and Grafana's answer turned into a cached value. */
module RoleCache {
  import opened Prelude
  import opened AuthzTypes
  import opened TtlCache

  datatype CacheStatus = UnknownToGrafana | Known

  datatype RoleView = RoleView(status: CacheStatus, roles: map<int, Role>)

  type Cache = map<string, Entry<RoleView>>

  datatype AuthzError =
    | NoCallerIdentity
    | CallerUnknownToGrafana
    | InvalidMinRole
    | LookupFailed
    | UserOrgsFailed
    | ListFailed
    | InsufficientRoleFor(have: Role, need: Role)
    | AmbiguousOrgRef(count: nat)
    | NotAuthorisedFor
    | NoSuchOrg

  /** The lifetimes an authorizer is built with; zero or less disables caching
      for that kind of entry. */
  datatype Lifetimes = Lifetimes(positive: int, negative: int)
  {
    function For(v: RoleView): int {
      if v.status.UnknownToGrafana? || |v.roles| == 0 then negative else positive
    }
  }

  function Store(ttls: Lifetimes, cache: Cache, key: string, v: RoleView, now: int): Cache
  {
    if ttls.For(v) <= 0 then cache else Put(cache, key, v, now, ttls.For(v))
  }

  /** Grafana as one call sees it. */
  datatype Grafana = Grafana(
    lookupUser: string -> Result<Option<int>, ()>,
    userOrgs: int -> Result<seq<Membership>, ()>)

  /** What a load learns about a caller. */
  function Answer(lower: string -> string, g: Grafana, caller: Caller): Result<RoleView, AuthzError>
  {
    match g.lookupUser(caller.Identity())
    case Err(_) => Err(LookupFailed)
    case Ok(None) => Ok(RoleView(UnknownToGrafana, map[]))
    case Ok(Some(id)) =>
      match g.userOrgs(id)
      case Err(_) => Err(UserOrgsFailed)
      case Ok(ms) => Ok(RoleView(Known, RolesOf(lower, ms)))
  }

  function RolesIn(v: RoleView): Result<map<int, Role>, AuthzError>
  {
    if v.status.UnknownToGrafana? then Err(CallerUnknownToGrafana) else Ok(v.roles)
  }

  /** resolveRoles as a function of the cache: the roles handed on, and the
      cache left behind. */
  function Resolve(lower: string -> string, ttls: Lifetimes, cache: Cache, caller: Caller, g: Grafana, lookupAt: int, stampAt: int)
    : (r: (Result<map<int, Role>, AuthzError>, Cache))
  {
    if !caller.Authenticated() then (Err(NoCallerIdentity), cache)
    else
      match Get(cache, caller.subject, lookupAt)
      case Some(v) => (RolesIn(v), cache)
      case None =>
        match Answer(lower, g, caller)
        case Err(e) => (Err(e), cache)
        case Ok(v) => (RolesIn(v), Store(ttls, cache, caller.subject, v, stampAt))
  }

  /** Every role handed on is Viewer or higher, whenever the cache holds only
      such roles; and the cache keeps holding only such roles. */
  ghost predicate OnlyRealRoles(cache: Cache)
  {
    forall k, id | k in cache && id in cache[k].value.roles :: cache[k].value.roles[id] != RoleNone
  }

  lemma ResolveKeepsRealRoles(lower: string -> string, ttls: Lifetimes, cache: Cache, caller: Caller, g: Grafana, lookupAt: int, stampAt: int)
    requires OnlyRealRoles(cache)
    ensures var (roles, after) := Resolve(lower, ttls, cache, caller, g, lookupAt, stampAt);
      && OnlyRealRoles(after)
      && (roles.Ok? ==> forall id | id in roles.value :: roles.value[id] != RoleNone)
  {
    match g.lookupUser(caller.Identity())
    case Ok(Some(user)) =>
      if g.userOrgs(user).Ok? {
        var ms := g.userOrgs(user).value;
        forall id | id in RolesOf(lower, ms)
          ensures RolesOf(lower, ms)[id] != RoleNone
        {
          RolesOfMeaning(lower, ms, id, RolesOf(lower, ms)[id]);
        }
      }
    case _ =>
  }

  /** A call touches no cache entry but its own subject's, and what it returns
      depends on no other entry. */
  lemma ResolveIsIsolated(lower: string -> string, ttls: Lifetimes, cache: Cache, other: Cache, caller: Caller, g: Grafana, lookupAt: int, stampAt: int)
    requires (caller.subject in cache) == (caller.subject in other)
    requires caller.subject in cache ==> cache[caller.subject] == other[caller.subject]
    ensures var (roles, after) := Resolve(lower, ttls, cache, caller, g, lookupAt, stampAt);
      && roles == Resolve(lower, ttls, other, caller, g, lookupAt, stampAt).0
      && after - {caller.subject} == cache - {caller.subject}
  {
  }

  /** One sequential call as a visit to the cache. */
  datatype Call = Call(caller: Caller, grafana: Grafana, lookupAt: int, stampAt: int)

  function VisitOf(lower: string -> string, ttls: Lifetimes, c: Call): Visit<RoleView>
  {
    match Answer(lower, c.grafana, c.caller)
    case Err(_) => Visit(c.lookupAt, None, c.stampAt, ttls.positive)
    case Ok(v) => Visit(c.lookupAt, Some(v), c.stampAt, ttls.For(v))
  }

  /** The instants at which calls made one after another stored a load. */
  function LoadTimes(lower: string -> string, ttls: Lifetimes, cache: Cache, calls: seq<Call>): seq<int>
    decreases |calls|
  {
    if calls == [] then []
    else
      var c := calls[0];
      var after := Resolve(lower, ttls, cache, c.caller, c.grafana, c.lookupAt, c.stampAt).1;
      (if Get(cache, c.caller.subject, c.lookupAt).None? && Answer(lower, c.grafana, c.caller).Ok? then [c.stampAt] else [])
      + LoadTimes(lower, ttls, after, calls[1..])
  }

  function Visits(lower: string -> string, ttls: Lifetimes, calls: seq<Call>): (vs: seq<Visit<RoleView>>)
    ensures |vs| == |calls| && forall i | 0 <= i < |calls| :: vs[i] == VisitOf(lower, ttls, calls[i])
  {
    seq(|calls|, i requires 0 <= i < |calls| => VisitOf(lower, ttls, calls[i]))
  }

  lemma {:induction false} LoadsAreFetches(lower: string -> string, ttls: Lifetimes, cache: Cache, subject: string, calls: seq<Call>)
    requires subject != "" && ttls.positive > 0 && ttls.negative > 0
    requires forall i | 0 <= i < |calls| :: calls[i].caller.subject == subject
    ensures LoadTimes(lower, ttls, cache, calls) == FetchTimes(cache, subject, Visits(lower, ttls, calls))
    decreases |calls|
  {
    if calls != [] {
      var c := calls[0];
      var after := Resolve(lower, ttls, cache, c.caller, c.grafana, c.lookupAt, c.stampAt).1;
      LoadsAreFetches(lower, ttls, after, subject, calls[1..]);
      assert Visits(lower, ttls, calls)[1..] == Visits(lower, ttls, calls[1..]);
    }
  }

  function MinTTL(ttls: Lifetimes): int
  {
    if ttls.positive < ttls.negative then ttls.positive else ttls.negative
  }

  /** The calls follow one another in time. */
  ghost predicate OneAfterAnother(calls: seq<Call>)
  {
    && (forall i | 0 <= i < |calls| :: calls[i].lookupAt <= calls[i].stampAt)
    && (forall i, j | 0 <= i < j < |calls| :: calls[i].stampAt <= calls[j].lookupAt)
  }

  lemma VisitsAreSequential(lower: string -> string, ttls: Lifetimes, calls: seq<Call>)
    requires OneAfterAnother(calls) && calls != []
    ensures var visits := Visits(lower, ttls, calls);
      && Sequential(visits)
      && (forall i | 0 <= i < |visits| :: MinTTL(ttls) <= visits[i].ttl)
      && visits[0].lookupAt == calls[0].lookupAt && Last(visits).stampAt == Last(calls).stampAt
  {
    var visits := Visits(lower, ttls, calls);
    forall i | 0 <= i < |calls|
      ensures visits[i].lookupAt == calls[i].lookupAt && visits[i].stampAt == calls[i].stampAt && MinTTL(ttls) <= visits[i].ttl
    {
    }
  }

  /** n loads stored for one subject by calls that follow one another within a
      time span T satisfy (n - 1) * min(positive, negative) <= T. */
  lemma RoleLoadIsBounded(lower: string -> string, ttls: Lifetimes, cache: Cache, subject: string, calls: seq<Call>)
    requires subject != "" && ttls.positive > 0 && ttls.negative > 0 && calls != []
    requires OneAfterAnother(calls) && forall i | 0 <= i < |calls| :: calls[i].caller.subject == subject
    ensures var n := |LoadTimes(lower, ttls, cache, calls)|;
      n > 0 ==> (n - 1) * MinTTL(ttls) <= Last(calls).stampAt - calls[0].lookupAt
  {
    assert LoadTimes(lower, ttls, cache, calls) == FetchTimes(cache, subject, Visits(lower, ttls, calls)) by {
      LoadsAreFetches(lower, ttls, cache, subject, calls);
    }
    VisitsAreSequential(lower, ttls, calls);
    FetchLoadIsBounded(cache, subject, Visits(lower, ttls, calls), MinTTL(ttls));
  }
}
