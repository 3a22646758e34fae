/** The authorizer object of internal/authz: its role cache, and RequireOrg and
    ListOrgs over it. Clock readings, Grafana and the registry listing are
    parameters of each call; tenant slices live on the heap. */
module Authz {
  import opened Prelude
  import opened AuthzTypes
  import opened TtlCache
  import opened OrgDecision
  import opened OrgDecisionLaws
  import opened OrgClone
  import opened RoleCache

  /** The environment one call runs in: Grafana, the registry listing (None is
      a failed list), and the clock at the cache lookup and at the store. */
  datatype Env = Env(grafana: Grafana, registry: Option<seq<HeapOrg>>, lookupAt: int, stampAt: int)

  /** How a decision is reported: the org, or the error naming the refusal. */
  function Refusal<T>(d: Decision<T>): AuthzError
    requires !d.Granted?
  {
    match d
    case InsufficientRole(have, need) => InsufficientRoleFor(have, need)
    case AmbiguousOrg(n) => AmbiguousOrgRef(n)
    case NotAuthorised => NotAuthorisedFor
    case OrgNotFound => NoSuchOrg
  }

  class Authorizer {
    const lower: string -> string
    const ttls: Lifetimes
    var cache: Cache

    constructor (lower: string -> string, cacheTTL: int, negativeCacheTTL: int)
      ensures cache == map[] && OnlyRealRoles(cache)
      ensures this.lower == lower && ttls == Lifetimes(cacheTTL, negativeCacheTTL)
    {
      this.lower := lower;
      ttls := Lifetimes(cacheTTL, negativeCacheTTL);
      cache := map[];
    }

    method CacheLookup(key: string, now: int) returns (hit: Option<RoleView>)
      ensures hit == Get(cache, key, now)
    {
      if key !in cache || !(now < cache[key].expiresAt) {
        return None;
      }
      return Some(cache[key].value);
    }

    method CacheStore(key: string, status: CacheStatus, roles: map<int, Role>, now: int) returns (entry: Entry<RoleView>)
      modifies this`cache
      ensures cache == Store(ttls, old(cache), key, RoleView(status, roles), now)
      ensures entry == Entry(RoleView(status, roles), now + ttls.For(RoleView(status, roles)))
      ensures key in cache && key !in old(cache) ==> cache[key] == entry
    {
      var ttl := ttls.positive;
      if status == UnknownToGrafana || |roles| == 0 {
        ttl := ttls.negative;
      }
      entry := Entry(RoleView(status, roles), now + ttl);
      if ttl <= 0 {
        return;
      }
      cache := cache[key := entry];
    }

    method Load(caller: Caller, grafana: Grafana, stampAt: int) returns (r: Result<RoleView, AuthzError>)
      modifies this`cache
      ensures r == Answer(lower, grafana, caller)
      ensures cache == if r.Ok? then Store(ttls, old(cache), caller.subject, r.value, stampAt) else old(cache)
    {
      var user := grafana.lookupUser(caller.Identity());
      match user {
        case Err(_) => return Err(LookupFailed);
        case Ok(None) =>
          var entry := CacheStore(caller.subject, UnknownToGrafana, map[], stampAt);
          return Ok(entry.value);
        case Ok(Some(id)) =>
          var entries := grafana.userOrgs(id);
          if entries.Err? {
            return Err(UserOrgsFailed);
          }
          var ms := entries.value;
          var roles: map<int, Role> := map[];
          for i := 0 to |ms|
            invariant roles == RolesOf(lower, ms[..i])
            invariant cache == old(cache)
          {
            assert Front(ms[..i + 1]) == ms[..i];
            var role := RoleFromGrafana(lower, ms[i].role);
            if role == RoleNone {
              continue;
            }
            roles := roles[ms[i].orgID := role];
          }
          assert ms[..|ms|] == ms;
          var entry := CacheStore(caller.subject, Known, roles, stampAt);
          return Ok(entry.value);
      }
    }

    method ResolveRoles(caller: Caller, env: Env) returns (r: Result<map<int, Role>, AuthzError>)
      modifies this`cache
      ensures (r, cache) == Resolve(lower, ttls, old(cache), caller, env.grafana, env.lookupAt, env.stampAt)
    {
      if !caller.Authenticated() {
        return Err(NoCallerIdentity);
      }
      var hit := CacheLookup(caller.subject, env.lookupAt);
      if hit.Some? {
        if hit.value.status == UnknownToGrafana {
          return Err(CallerUnknownToGrafana);
        }
        return Ok(hit.value.roles);
      }
      var entry := Load(caller, env.grafana, env.stampAt);
      if entry.Err? {
        return Err(entry.error);
      }
      if entry.value.status == UnknownToGrafana {
        return Err(CallerUnknownToGrafana);
      }
      return Ok(entry.value.roles);
    }

    /** RequireOrg. On success the org returned is the decided one with its
        tenants copied into new storage. `access` is the access map the
        decision was drawn from; with case-distinct registry names the decision
        is the one OrgDecisionLaws defines. */
    method RequireOrg(caller: Caller, ref: string, minRole: Role, env: Env)
      returns (r: Result<HeapOrg, AuthzError>, ghost roles: map<int, Role>, ghost d: Decision<Tenants>)
      modifies this`cache
      ensures minRole == RoleNone ==> r == Err(InvalidMinRole) && cache == old(cache)
      ensures minRole != RoleNone ==>
        var (resolved, after) := Resolve(lower, ttls, old(cache), caller, env.grafana, env.lookupAt, env.stampAt);
        && cache == after
        && match (resolved, env.registry)
           case (Err(e), _) => r == Err(e)
           case (Ok(_), None) => r == Err(ListFailed)
           case (Ok(rs), Some(orgs)) =>
             && roles == rs
             && (exists access :: IsAccess(access, Accessible(rs, orgs)) && MayConclude(lower, access, orgs, ref, minRole, d))
             && (FoldDistinct(lower, orgs) ==> IsDecision(lower, Accessible(rs, orgs), orgs, ref, minRole, d))
             && if d.Granted? then
                  && r.Ok? && ViewOrg(r.value) == ViewOrg(d.org)
                  && d.org in Accessible(rs, orgs)
                  && fresh(Storage(r.value.tenants)) && Unshared(r.value.tenants)
                else r == Err(Refusal(d))
    {
      roles, d := map[], OrgNotFound;
      if minRole == RoleNone {
        r := Err(InvalidMinRole);
        return;
      }
      var resolved := ResolveRoles(caller, env);
      if resolved.Err? {
        r := Err(resolved.error);
        return;
      }
      if env.registry.None? {
        r := Err(ListFailed);
        return;
      }
      var orgs := env.registry.value;
      var decision, access := Conclude(lower, resolved.value, orgs, ref, minRole);
      roles, d := resolved.value, decision;
      if FoldDistinct(lower, orgs) {
        LoopsComputeTheDecision(lower, roles, orgs, access, ref, minRole, d);
      }
      match decision {
        case Granted(org) =>
          GrantIsListed(lower, access, orgs, ref, minRole, org);
          var copy := CloneOrganization(org);
          r := Ok(copy);
        case _ =>
          r := Err(Refusal(decision));
      }
    }

    /** ListOrgs: the accessible orgs, keyed by name, each in storage of its
        own. */
    method ListOrgs(caller: Caller, env: Env)
      returns (r: Result<map<string, HeapOrg>, AuthzError>, ghost roles: map<int, Role>, ghost access: Access<Tenants>, ghost used: set<object>)
      modifies this`cache
      ensures var (resolved, after) := Resolve(lower, ttls, old(cache), caller, env.grafana, env.lookupAt, env.stampAt);
        && cache == after
        && match (resolved, env.registry)
           case (Err(e), _) => r == Err(e)
           case (Ok(_), None) => r == Err(ListFailed)
           case (Ok(rs), Some(orgs)) =>
             && roles == rs && IsAccess(access, Accessible(rs, orgs))
             && r.Ok? && r.value.Keys == access.Keys
             && ReadsAs(r.value, Views(access))
             && fresh(used) && Apart(r.value, used)
    {
      roles, access, used := map[], map[], {};
      var resolved := ResolveRoles(caller, env);
      if resolved.Err? {
        r := Err(resolved.error);
        return;
      }
      if env.registry.None? {
        r := Err(ListFailed);
        return;
      }
      var acc := AccessibleOrgs(resolved.value, env.registry.value);
      roles, access := resolved.value, acc;
      var copies, storage := CloneOrganizations(acc);
      used := storage;
      r := Ok(copies);
    }
  }
}
