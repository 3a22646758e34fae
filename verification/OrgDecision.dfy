/** The authorization decision: joining a caller's Grafana roles with the
    registry, resolving an org reference, and judging the role. The methods
    follow the loops of internal/authz/authorizer.go, with map iteration in an
    arbitrary order; the predicates say, from the role map and the registry
    alone, which outcome is right. */
module OrgDecision {
  import opened Prelude
  import opened AuthzTypes

  type Access<T> = map<string, Organization<T>>

  datatype Found<+T> = NoMatch | Match(org: Organization<T>) | AmbiguousRef(count: nat)

  datatype Decision<+T> =
    | Granted(org: Organization<T>)
    | InsufficientRole(have: Role, need: Role)
    | AmbiguousOrg(count: nat)
    | NotAuthorised
    | OrgNotFound

  // ---------------------------------------------------------------- the join

  function ByID<T>(orgs: seq<Organization<T>>): map<int, Organization<T>>
  {
    if orgs == [] then map[]
    else ByID(Front(orgs))[Last(orgs).orgID := Last(orgs)]
  }

  ghost function Hydrate<T>(roles: map<int, Role>, byID: map<int, Organization<T>>, ids: set<int>): set<Organization<T>>
  {
    set id | id in ids && id in roles && id in byID :: byID[id].(role := roles[id])
  }

  /** The organizations the caller can act on, each with the caller's role. */
  ghost function Accessible<T>(roles: map<int, Role>, orgs: seq<Organization<T>>): set<Organization<T>>
  {
    Hydrate(roles, ByID(orgs), roles.Keys)
  }

  ghost predicate IsLastWithItsID<T>(orgs: seq<Organization<T>>, i: int)
  {
    0 <= i < |orgs| && forall j | i < j < |orgs| :: orgs[j].orgID != orgs[i].orgID
  }

  ghost predicate AccessibleAt<T>(roles: map<int, Role>, orgs: seq<Organization<T>>, o: Organization<T>, i: int)
  {
    && IsLastWithItsID(orgs, i)
    && orgs[i].orgID in roles
    && o == orgs[i].(role := roles[orgs[i].orgID])
  }

  lemma {:induction false} ByIDMeaning<T>(orgs: seq<Organization<T>>, id: int)
    ensures id in ByID(orgs) <==> exists i :: IsLastWithItsID(orgs, i) && orgs[i].orgID == id
    ensures forall i | IsLastWithItsID(orgs, i) && orgs[i].orgID == id :: id in ByID(orgs) && ByID(orgs)[id] == orgs[i]
  {
    if orgs != [] {
      var front := Front(orgs);
      ByIDMeaning(front, id);
      assert IsLastWithItsID(orgs, |orgs| - 1);
      if Last(orgs).orgID != id {
        forall i | 0 <= i < |front| && orgs[i].orgID == id
          ensures IsLastWithItsID(orgs, i) <==> IsLastWithItsID(front, i)
        {
          if IsLastWithItsID(orgs, i) {
            forall j | i < j < |front| ensures front[j].orgID != front[i].orgID {
              assert front[j] == orgs[j];
            }
          }
        }
      }
    }
  }

  /** An org is accessible exactly when it is the last registry entry with its
      OrgID and Grafana gave the caller a role under that OrgID. */
  lemma AccessibleMeaning<T>(roles: map<int, Role>, orgs: seq<Organization<T>>, o: Organization<T>)
    ensures o in Accessible(roles, orgs) <==> exists i :: AccessibleAt(roles, orgs, o, i)
  {
    forall id { ByIDMeaning(orgs, id); }
    if o in Accessible(roles, orgs) {
      var id :| id in roles && id in ByID(orgs) && o == ByID(orgs)[id].(role := roles[id]);
      var i :| IsLastWithItsID(orgs, i) && orgs[i].orgID == id;
      assert AccessibleAt(roles, orgs, o, i);
    }
    if i :| AccessibleAt(roles, orgs, o, i) {
      assert orgs[i].orgID in ByID(orgs);
    }
  }

  /** `access` is a possible outcome of filling a name-keyed map with the orgs
      of `all` in some order. */
  ghost predicate IsAccess<T>(access: Access<T>, all: set<Organization<T>>)
  {
    && (forall n | n in access :: access[n] in all && access[n].name == n)
    && (forall o | o in all :: o.name in access)
  }

  lemma NonEmptyHasMember(ids: set<int>)
    ensures ids != {} ==> exists id :: id in ids
  {
    if forall id :: id !in ids {
      assert ids == {};
    }
  }

  method AccessibleOrgs<T>(roles: map<int, Role>, orgs: seq<Organization<T>>) returns (access: Access<T>)
    ensures IsAccess(access, Accessible(roles, orgs))
  {
    access := map[];
    if |roles| == 0 {
      return;
    }
    var byOrgID: map<int, Organization<T>> := map[];
    for i := 0 to |orgs|
      invariant byOrgID == ByID(orgs[..i])
    {
      assert Front(orgs[..i + 1]) == orgs[..i];
      byOrgID := byOrgID[orgs[i].orgID := orgs[i]];
    }
    assert orgs[..|orgs|] == orgs;
    var todo := roles.Keys;
    while todo != {}
      invariant todo <= roles.Keys
      invariant IsAccess(access, Hydrate(roles, byOrgID, roles.Keys - todo))
    {
      NonEmptyHasMember(todo);
      var orgID :| orgID in todo;
      ghost var before := Hydrate(roles, byOrgID, roles.Keys - todo);
      todo := todo - {orgID};
      if orgID in byOrgID {
        var org := byOrgID[orgID].(role := roles[orgID]);
        assert Hydrate(roles, byOrgID, roles.Keys - todo) == before + {org};
        access := access[org.name := org];
      } else {
        assert Hydrate(roles, byOrgID, roles.Keys - todo) == before;
      }
    }
    assert roles.Keys - todo == roles.Keys;
  }

  // ----------------------------------------------------- resolving the ref

  ghost function DisplayKeys<T>(lower: string -> string, access: Access<T>, target: string): set<string>
  {
    set n | n in access && lower(access[n].displayName) == target
  }

  ghost predicate NameHit<T>(lower: string -> string, access: Access<T>, target: string, n: string)
  {
    n in access && lower(access[n].name) == target
  }

  /** What the two search loops may return over the entries of `access`. */
  ghost predicate MayFind<T>(lower: string -> string, access: Access<T>, ref: string, found: Found<T>)
  {
    var target := lower(ref);
    if exists n :: NameHit(lower, access, target, n) then
      found.Match? && exists n :: NameHit(lower, access, target, n) && found.org == access[n]
    else
      var keys := DisplayKeys(lower, access, target);
      match |keys|
      case 0 => found == NoMatch
      case 1 => found.Match? && exists n :: keys == {n} && found.org == access[n]
      case _ => found == AmbiguousRef(|keys|)
  }

  method FindOrganization<T>(lower: string -> string, access: Access<T>, ref: string) returns (found: Found<T>)
    ensures MayFind(lower, access, ref, found)
  {
    var target := lower(ref);
    var todo := access.Keys;
    while todo != {}
      invariant todo <= access.Keys
      invariant forall n | n in access.Keys - todo :: !NameHit(lower, access, target, n)
    {
      var n :| n in todo;
      todo := todo - {n};
      if lower(access[n].name) == target {
        assert NameHit(lower, access, target, n);
        return Match(access[n]);
      }
    }
    var matches: seq<Organization<T>> := [];
    todo := access.Keys;
    ghost var hits: set<string> := {};
    while todo != {}
      invariant todo <= access.Keys
      invariant hits == (set n | n in access.Keys - todo && lower(access[n].displayName) == target)
      invariant |matches| == |hits|
      invariant |hits| == 1 ==> exists n :: hits == {n} && matches[0] == access[n]
    {
      var n :| n in todo;
      todo := todo - {n};
      if lower(access[n].displayName) == target {
        if hits == {} {
          assert hits + {n} == {n};
        } else {
          var m :| m in hits;
          assert |hits + {n}| > 1;
        }
        hits := hits + {n};
        matches := matches + [access[n]];
      }
    }
    assert hits == DisplayKeys(lower, access, target);
    match |matches| {
      case 0 => return NoMatch;
      case 1 => return Match(matches[0]);
      case _ => return AmbiguousRef(|matches|);
    }
  }

  // --------------------------------------------------------- the conclusion

  predicate Names<T>(lower: string -> string, o: Organization<T>, target: string)
  {
    lower(o.name) == target || lower(o.displayName) == target
  }

  ghost predicate RegistryNames<T>(lower: string -> string, orgs: seq<Organization<T>>, ref: string)
  {
    exists i | 0 <= i < |orgs| :: Names(lower, orgs[i], lower(ref))
  }

  ghost function Judge<T>(org: Organization<T>, minRole: Role): Decision<T>
  {
    if org.role.AtLeast(minRole) then Granted(org) else InsufficientRole(org.role, minRole)
  }

  /** The decision drawn from one access map. */
  ghost predicate MayConclude<T>(lower: string -> string, access: Access<T>, orgs: seq<Organization<T>>, ref: string, minRole: Role, d: Decision<T>)
  {
    if MayFind(lower, access, ref, NoMatch) then
      d == if RegistryNames(lower, orgs, ref) then NotAuthorised else OrgNotFound
    else if d.AmbiguousOrg? then
      MayFind(lower, access, ref, AmbiguousRef(d.count))
    else
      exists n :: n in access && MayFind(lower, access, ref, Match(access[n])) && d == Judge(access[n], minRole)
  }

  /** The part of RequireOrg after the roles and the registry are in hand. */
  method Conclude<T>(lower: string -> string, roles: map<int, Role>, orgs: seq<Organization<T>>, ref: string, minRole: Role)
    returns (d: Decision<T>, ghost access: Access<T>)
    ensures IsAccess(access, Accessible(roles, orgs))
    ensures MayConclude(lower, access, orgs, ref, minRole, d)
  {
    var acc := AccessibleOrgs(roles, orgs);
    access := acc;
    var found := FindOrganization(lower, acc, ref);
    match found {
      case AmbiguousRef(count) =>
        return AmbiguousOrg(count), access;
      case Match(org) =>
        ghost var n :| n in access && org == access[n];
        if !org.role.AtLeast(minRole) {
          return InsufficientRole(org.role, minRole), access;
        }
        return Granted(org), access;
      case NoMatch =>
        var target := lower(ref);
        for i := 0 to |orgs|
          invariant forall j | 0 <= j < i :: !Names(lower, orgs[j], target)
        {
          if lower(orgs[i].name) == target || lower(orgs[i].displayName) == target {
            assert Names(lower, orgs[i], target);
            return NotAuthorised, access;
          }
        }
        return OrgNotFound, access;
    }
  }
}
