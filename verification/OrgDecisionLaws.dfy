/** What the authorization decision means. `IsDecision` is the reference
    definition, stated on the set of accessible orgs and the registry; the
    lemmas show that the loops of OrgDecision compute it for every map
    iteration order, that it always exists and is unique, and that ListOrgs and
    RequireOrg agree. */
module OrgDecisionLaws {
  import opened AuthzTypes
  import opened OrgDecision

  /** No two registry entries have names that differ only in case. */
  ghost predicate FoldDistinct<T>(lower: string -> string, orgs: seq<Organization<T>>)
  {
    forall i, j | 0 <= i < |orgs| && 0 <= j < |orgs| && lower(orgs[i].name) == lower(orgs[j].name) :: i == j
  }

  ghost predicate NamesDistinct<T>(all: set<Organization<T>>)
  {
    forall o, p | o in all && p in all && o.name == p.name :: o == p
  }

  ghost predicate HasName<T>(lower: string -> string, all: set<Organization<T>>, target: string)
  {
    exists o | o in all :: lower(o.name) == target
  }

  /** `ref` denotes o: by its name, or, when no accessible org has that name,
      by a display name that only o has. */
  ghost predicate Denotes<T>(lower: string -> string, all: set<Organization<T>>, ref: string, o: Organization<T>)
  {
    var target := lower(ref);
    o in all &&
    (|| lower(o.name) == target
     || (&& !HasName(lower, all, target)
         && lower(o.displayName) == target
         && forall p | p in all && lower(p.displayName) == target :: p == o))
  }

  ghost function DisplayedBy<T>(lower: string -> string, all: set<Organization<T>>, target: string): set<string>
  {
    set o | o in all && lower(o.displayName) == target :: o.name
  }

  ghost predicate IsDecision<T>(lower: string -> string, all: set<Organization<T>>, orgs: seq<Organization<T>>, ref: string, minRole: Role, d: Decision<T>)
  {
    match d
    case Granted(o) => Denotes(lower, all, ref, o) && o.role.AtLeast(minRole)
    case InsufficientRole(have, need) =>
      need == minRole && !have.AtLeast(minRole) && exists o | o in all :: Denotes(lower, all, ref, o) && o.role == have
    case AmbiguousOrg(n) =>
      !HasName(lower, all, lower(ref)) && n == |DisplayedBy(lower, all, lower(ref))| >= 2
    case NotAuthorised =>
      (forall o | o in all :: !Names(lower, o, lower(ref))) && RegistryNames(lower, orgs, ref)
    case OrgNotFound => !RegistryNames(lower, orgs, ref)
  }

  lemma NamesDetermineOrgs<T>(lower: string -> string, roles: map<int, Role>, orgs: seq<Organization<T>>, o: Organization<T>, p: Organization<T>)
    requires FoldDistinct(lower, orgs)
    requires o in Accessible(roles, orgs) && p in Accessible(roles, orgs) && lower(o.name) == lower(p.name)
    ensures o == p
  {
    AccessibleMeaning(roles, orgs, o);
    AccessibleMeaning(roles, orgs, p);
    var i :| AccessibleAt(roles, orgs, o, i);
    var j :| AccessibleAt(roles, orgs, p, j);
    assert lower(orgs[i].name) == lower(orgs[j].name);
  }

  /** With case-distinct names the access map is the set of accessible orgs,
      keyed by name. */
  lemma AccessHoldsAll<T>(lower: string -> string, roles: map<int, Role>, orgs: seq<Organization<T>>, access: Access<T>)
    requires FoldDistinct(lower, orgs) && IsAccess(access, Accessible(roles, orgs))
    ensures forall o | o in Accessible(roles, orgs) :: o.name in access && access[o.name] == o
    ensures forall target :: DisplayKeys(lower, access, target) == DisplayedBy(lower, Accessible(roles, orgs), target)
  {
    var all := Accessible(roles, orgs);
    forall o | o in all
      ensures o.name in access && access[o.name] == o
    {
      NamesDetermineOrgs(lower, roles, orgs, o, access[o.name]);
    }
    forall target
      ensures DisplayKeys(lower, access, target) == DisplayedBy(lower, all, target)
    {
      forall n | n in DisplayKeys(lower, access, target)
        ensures n in DisplayedBy(lower, all, target)
      {
        assert access[n] in all && access[n].name == n;
      }
    }
  }

  lemma AccessibleIsRegistered<T>(lower: string -> string, roles: map<int, Role>, orgs: seq<Organization<T>>, o: Organization<T>, ref: string)
    requires o in Accessible(roles, orgs) && Names(lower, o, lower(ref))
    ensures RegistryNames(lower, orgs, ref)
  {
    AccessibleMeaning(roles, orgs, o);
    var i :| AccessibleAt(roles, orgs, o, i);
    assert Names(lower, orgs[i], lower(ref));
  }

  /** A ref found in the access map denotes the org found, and an org the ref
      denotes is found. */
  lemma MatchDenotes<T>(lower: string -> string, roles: map<int, Role>, orgs: seq<Organization<T>>, access: Access<T>, ref: string, o: Organization<T>)
    requires FoldDistinct(lower, orgs) && IsAccess(access, Accessible(roles, orgs))
    ensures MayFind(lower, access, ref, Match(o)) <==> Denotes(lower, Accessible(roles, orgs), ref, o)
  {
    var all := Accessible(roles, orgs);
    var target := lower(ref);
    AccessHoldsAll(lower, roles, orgs, access);
    var keys := DisplayKeys(lower, access, target);
    if exists n :: NameHit(lower, access, target, n) {
      var n :| NameHit(lower, access, target, n);
      assert access[n] in all;
      if Denotes(lower, all, ref, o) {
        assert NameHit(lower, access, target, o.name);
      }
    } else {
      assert !HasName(lower, all, target) by {
        if o' :| o' in all && lower(o'.name) == target {
          assert NameHit(lower, access, target, o'.name);
        }
      }
      if MayFind(lower, access, ref, Match(o)) {
        var n :| keys == {n} && o == access[n];
        assert n in keys;
        forall p | p in all && lower(p.displayName) == target
          ensures p == o
        {
          assert p.name in keys;
        }
      }
      if Denotes(lower, all, ref, o) {
        forall n | n in keys
          ensures n == o.name
        {
          assert access[n] in all;
        }
        assert o.name in keys;
        assert keys == {o.name};
      }
    }
  }

  lemma NoMatchMeaning<T>(lower: string -> string, roles: map<int, Role>, orgs: seq<Organization<T>>, access: Access<T>, ref: string)
    requires FoldDistinct(lower, orgs) && IsAccess(access, Accessible(roles, orgs))
    ensures MayFind(lower, access, ref, NoMatch) <==> forall o | o in Accessible(roles, orgs) :: !Names(lower, o, lower(ref))
  {
    var all := Accessible(roles, orgs);
    var target := lower(ref);
    AccessHoldsAll(lower, roles, orgs, access);
    if MayFind(lower, access, ref, NoMatch) {
      forall o | o in all
        ensures !Names(lower, o, target)
      {
        assert !NameHit(lower, access, target, o.name);
        assert o.name !in DisplayKeys(lower, access, target);
      }
    } else if n :| NameHit(lower, access, target, n) {
      assert Names(lower, access[n], target);
    } else {
      var n :| n in DisplayKeys(lower, access, target);
      assert Names(lower, access[n], target);
    }
  }

  lemma AmbiguousMeaning<T>(lower: string -> string, roles: map<int, Role>, orgs: seq<Organization<T>>, access: Access<T>, ref: string, count: nat)
    requires FoldDistinct(lower, orgs) && IsAccess(access, Accessible(roles, orgs))
    ensures MayFind(lower, access, ref, AmbiguousRef(count)) <==>
            !HasName(lower, Accessible(roles, orgs), lower(ref)) && count == |DisplayedBy(lower, Accessible(roles, orgs), lower(ref))| >= 2
  {
    var all := Accessible(roles, orgs);
    var target := lower(ref);
    AccessHoldsAll(lower, roles, orgs, access);
    if HasName(lower, all, target) {
      var o :| o in all && lower(o.name) == target;
      assert NameHit(lower, access, target, o.name);
    } else {
      forall n
        ensures !NameHit(lower, access, target, n)
      {
        assert n in access ==> access[n] in all;
      }
    }
  }

  ghost predicate JudgesDenoted<T>(lower: string -> string, all: set<Organization<T>>, ref: string, minRole: Role, d: Decision<T>)
  {
    exists o | o in all :: Denotes(lower, all, ref, o) && d == Judge(o, minRole)
  }

  lemma MatchedMeaning<T>(lower: string -> string, roles: map<int, Role>, orgs: seq<Organization<T>>, access: Access<T>, ref: string, minRole: Role, d: Decision<T>)
    requires FoldDistinct(lower, orgs) && IsAccess(access, Accessible(roles, orgs))
    ensures (exists n :: n in access && MayFind(lower, access, ref, Match(access[n])) && d == Judge(access[n], minRole))
       <==> JudgesDenoted(lower, Accessible(roles, orgs), ref, minRole, d)
  {
    var all := Accessible(roles, orgs);
    if n :| n in access && MayFind(lower, access, ref, Match(access[n])) && d == Judge(access[n], minRole) {
      MatchDenotes(lower, roles, orgs, access, ref, access[n]);
    }
    if o :| o in all && Denotes(lower, all, ref, o) && d == Judge(o, minRole) {
      AccessHoldsAll(lower, roles, orgs, access);
      MatchDenotes(lower, roles, orgs, access, ref, o);
      assert access[o.name] == o;
    }
  }

  /** A judgement of the denoted org is a grant or names what role it lacks. */
  lemma JudgementMeaning<T>(lower: string -> string, all: set<Organization<T>>, orgs: seq<Organization<T>>, ref: string, minRole: Role, d: Decision<T>)
    requires d.Granted? || d.InsufficientRole?
    ensures JudgesDenoted(lower, all, ref, minRole, d) <==> IsDecision(lower, all, orgs, ref, minRole, d)
  {
  }

  lemma NothingNamed<T>(lower: string -> string, all: set<Organization<T>>, ref: string)
    requires forall o | o in all :: !Names(lower, o, lower(ref))
    ensures forall o | o in all :: !Denotes(lower, all, ref, o)
    ensures DisplayedBy(lower, all, lower(ref)) == {}
  {
  }

  lemma UnmatchedDecision<T>(lower: string -> string, all: set<Organization<T>>, orgs: seq<Organization<T>>, access: Access<T>, ref: string, minRole: Role, d: Decision<T>)
    requires MayFind(lower, access, ref, NoMatch) && forall o | o in all :: !Names(lower, o, lower(ref))
    ensures MayConclude(lower, access, orgs, ref, minRole, d) <==> IsDecision(lower, all, orgs, ref, minRole, d)
  {
    NothingNamed(lower, all, ref);
  }

  lemma MatchedDecision<T>(lower: string -> string, roles: map<int, Role>, orgs: seq<Organization<T>>, access: Access<T>, ref: string, minRole: Role, d: Decision<T>)
    requires FoldDistinct(lower, orgs) && IsAccess(access, Accessible(roles, orgs))
    requires !MayFind(lower, access, ref, NoMatch)
    ensures MayConclude(lower, access, orgs, ref, minRole, d) <==> IsDecision(lower, Accessible(roles, orgs), orgs, ref, minRole, d)
  {
    var all := Accessible(roles, orgs);
    NoMatchMeaning(lower, roles, orgs, access, ref);
    var o :| o in all && Names(lower, o, lower(ref));
    AccessibleIsRegistered(lower, roles, orgs, o, ref);
    if d.AmbiguousOrg? {
      AmbiguousMeaning(lower, roles, orgs, access, ref, d.count);
    } else {
      MatchedMeaning(lower, roles, orgs, access, ref, minRole, d);
      if d.Granted? || d.InsufficientRole? {
        JudgementMeaning(lower, all, orgs, ref, minRole, d);
      }
    }
  }

  /** The loops refine the declarative decision: with case-distinct registry
      names, whatever order the maps are iterated in, an outcome is possible
      exactly when it is the decision. */
  lemma LoopsComputeTheDecision<T>(lower: string -> string, roles: map<int, Role>, orgs: seq<Organization<T>>, access: Access<T>, ref: string, minRole: Role, d: Decision<T>)
    requires FoldDistinct(lower, orgs) && IsAccess(access, Accessible(roles, orgs))
    ensures MayConclude(lower, access, orgs, ref, minRole, d) <==> IsDecision(lower, Accessible(roles, orgs), orgs, ref, minRole, d)
  {
    if MayFind(lower, access, ref, NoMatch) {
      NoMatchMeaning(lower, roles, orgs, access, ref);
      UnmatchedDecision(lower, Accessible(roles, orgs), orgs, access, ref, minRole, d);
    } else {
      MatchedDecision(lower, roles, orgs, access, ref, minRole, d);
    }
  }

  lemma TwoMembers<T>(s: set<T>, a: T, b: T)
    requires a in s && b in s && a != b
    ensures |s| >= 2
  {
    var rest := s - {a};
    assert s == {a} + rest && rest == {b} + (rest - {b});
  }

  lemma SecondDisplay<T>(lower: string -> string, all: set<Organization<T>>, ref: string, o: Organization<T>)
    requires NamesDistinct(all) && o in all && lower(o.displayName) == lower(ref)
    requires !HasName(lower, all, lower(ref)) && !Denotes(lower, all, ref, o)
    ensures |DisplayedBy(lower, all, lower(ref))| >= 2
  {
    var p :| p in all && lower(p.displayName) == lower(ref) && p != o;
    TwoMembers(DisplayedBy(lower, all, lower(ref)), o.name, p.name);
  }

  lemma SomeDecisionOn<T>(lower: string -> string, all: set<Organization<T>>, orgs: seq<Organization<T>>, ref: string, minRole: Role) returns (d: Decision<T>)
    requires NamesDistinct(all)
    ensures IsDecision(lower, all, orgs, ref, minRole, d)
  {
    var target := lower(ref);
    if HasName(lower, all, target) {
      var o :| o in all && lower(o.name) == target;
      assert Denotes(lower, all, ref, o);
      d := Judge(o, minRole);
    } else if o :| o in all && lower(o.displayName) == target {
      if Denotes(lower, all, ref, o) {
        d := Judge(o, minRole);
      } else {
        SecondDisplay(lower, all, ref, o);
        d := AmbiguousOrg(|DisplayedBy(lower, all, target)|);
      }
    } else {
      d := if RegistryNames(lower, orgs, ref) then NotAuthorised else OrgNotFound;
    }
  }

  /** Some outcome is always the decision: granted, insufficient role,
      ambiguous, not authorised and not found leave no gap. */
  lemma SomeDecision<T>(lower: string -> string, roles: map<int, Role>, orgs: seq<Organization<T>>, ref: string, minRole: Role) returns (d: Decision<T>)
    requires FoldDistinct(lower, orgs)
    ensures IsDecision(lower, Accessible(roles, orgs), orgs, ref, minRole, d)
  {
    var all := Accessible(roles, orgs);
    forall o, p | o in all && p in all && o.name == p.name
      ensures o == p
    {
      NamesDetermineOrgs(lower, roles, orgs, o, p);
    }
    d := SomeDecisionOn(lower, all, orgs, ref, minRole);
  }

  /** No two outcomes are both the decision. */
  lemma DecisionIsUnique<T>(lower: string -> string, roles: map<int, Role>, orgs: seq<Organization<T>>, ref: string, minRole: Role, d: Decision<T>, e: Decision<T>)
    requires FoldDistinct(lower, orgs)
    requires IsDecision(lower, Accessible(roles, orgs), orgs, ref, minRole, d)
    requires IsDecision(lower, Accessible(roles, orgs), orgs, ref, minRole, e)
    ensures d == e
  {
    var all := Accessible(roles, orgs);
    forall o, p | Denotes(lower, all, ref, o) && Denotes(lower, all, ref, p)
      ensures o == p
    {
      if lower(o.name) == lower(p.name) {
        NamesDetermineOrgs(lower, roles, orgs, o, p);
      }
    }
    forall o | o in all && Names(lower, o, lower(ref)) { AccessibleIsRegistered(lower, roles, orgs, o, ref); }
    forall o | Denotes(lower, all, ref, o)
      ensures Names(lower, o, lower(ref)) && (!HasName(lower, all, lower(ref)) ==> DisplayedBy(lower, all, lower(ref)) == {o.name})
    {
    }
    if |DisplayedBy(lower, all, lower(ref))| >= 2 {
      var n :| n in DisplayedBy(lower, all, lower(ref));
    }
  }

  // -------------------------------------------- when iteration order matters

  lemma {:induction false} SomeAccessWith<T>(all: set<Organization<T>>, chosen: Organization<T>) returns (access: Access<T>)
    requires chosen in all
    ensures IsAccess(access, all) && access[chosen.name] == chosen
    decreases |all|
  {
    var rest := all - {chosen};
    if rest == {} {
      access := map[chosen.name := chosen];
    } else {
      var o :| o in rest;
      var smaller := SomeAccessWith(rest, o);
      access := smaller[chosen.name := chosen];
    }
  }

  /** Two different accessible orgs with one name make the access map depend
      on iteration order; otherwise it is fully determined. */
  lemma AccessOrderMatters<T>(all: set<Organization<T>>, o: Organization<T>, p: Organization<T>) returns (a: Access<T>, b: Access<T>)
    requires o in all && p in all && o.name == p.name && o != p
    ensures IsAccess(a, all) && IsAccess(b, all) && a != b
  {
    a := SomeAccessWith(all, o);
    b := SomeAccessWith(all, p);
  }

  lemma AccessOrderIrrelevant<T>(all: set<Organization<T>>, a: Access<T>, b: Access<T>)
    requires NamesDistinct(all) && IsAccess(a, all) && IsAccess(b, all)
    ensures a == b
  {
    forall n | n in a
      ensures n in b && a[n] == b[n]
    {
      assert a[n] in all && b[n] in all;
    }
    forall n | n in b
      ensures n in a
    {
      assert b[n] in all;
    }
  }

  /** The access map is independent of iteration order exactly when no two
      accessible orgs share a name. */
  lemma AccessDeterminedIff<T(!new)>(all: set<Organization<T>>)
    ensures (forall a, b | IsAccess(a, all) && IsAccess(b, all) :: a == b) <==> NamesDistinct(all)
  {
    if NamesDistinct(all) {
      forall a, b | IsAccess(a, all) && IsAccess(b, all) {
        AccessOrderIrrelevant(all, a, b);
      }
    } else {
      var o, p :| o in all && p in all && o.name == p.name && o != p;
      var a, b := AccessOrderMatters(all, o, p);
    }
  }

  lemma SomeAccess<T>(all: set<Organization<T>>) returns (access: Access<T>)
    ensures IsAccess(access, all)
  {
    if all == {} {
      access := map[];
    } else {
      var o :| o in all;
      access := SomeAccessWith(all, o);
    }
  }

  lemma SingletonOf<T>(s: set<T>, x: T)
    requires |s| == 1 && x in s
    ensures s == {x}
  {
    assert |s - {x}| == 0;
    assert s == {x} + (s - {x});
  }

  /** The loops always reach some conclusion, even where names collide. */
  lemma SomeConclusion<T>(lower: string -> string, access: Access<T>, orgs: seq<Organization<T>>, ref: string, minRole: Role) returns (d: Decision<T>)
    ensures MayConclude(lower, access, orgs, ref, minRole, d)
  {
    var target := lower(ref);
    var keys := DisplayKeys(lower, access, target);
    if exists n :: NameHit(lower, access, target, n) {
      var n :| NameHit(lower, access, target, n);
      assert MayFind(lower, access, ref, Match(access[n]));
      d := Judge(access[n], minRole);
    } else if |keys| == 0 {
      d := if RegistryNames(lower, orgs, ref) then NotAuthorised else OrgNotFound;
    } else if |keys| == 1 {
      var n :| n in keys;
      SingletonOf(keys, n);
      assert MayFind(lower, access, ref, Match(access[n]));
      d := Judge(access[n], minRole);
    } else {
      assert MayFind(lower, access, ref, AmbiguousRef(|keys|));
      d := AmbiguousOrg(|keys|);
    }
  }

  // --------------------------------------------------- ListOrgs vs RequireOrg

  /** Every org that ListOrgs returns is granted to its name at Viewer, and
      nothing else is the outcome of asking for that name. */
  lemma ListedOrgIsGranted<T>(lower: string -> string, roles: map<int, Role>, orgs: seq<Organization<T>>, o: Organization<T>, access: Access<T>, d: Decision<T>)
    requires FoldDistinct(lower, orgs)
    requires forall id | id in roles :: roles[id] != RoleNone
    requires IsAccess(access, Accessible(roles, orgs)) && o.name in access && access[o.name] == o
    ensures MayConclude(lower, access, orgs, o.name, RoleViewer, d) <==> d == Granted(o)
  {
    var all := Accessible(roles, orgs);
    assert Denotes(lower, all, o.name, o) && o.role != RoleNone;
    LoopsComputeTheDecision(lower, roles, orgs, access, o.name, RoleViewer, d);
    LoopsComputeTheDecision(lower, roles, orgs, access, o.name, RoleViewer, Granted(o));
    if MayConclude(lower, access, orgs, o.name, RoleViewer, d) {
      DecisionIsUnique(lower, roles, orgs, o.name, RoleViewer, d, Granted(o));
    }
  }

  /** Every grant is an org that ListOrgs returns. No precondition: this holds
      even where names collide. */
  lemma GrantIsListed<T>(lower: string -> string, access: Access<T>, orgs: seq<Organization<T>>, ref: string, minRole: Role, o: Organization<T>)
    requires MayConclude(lower, access, orgs, ref, minRole, Granted(o))
    ensures exists n :: n in access && access[n] == o
    ensures o.role.AtLeast(minRole) && Names(lower, o, lower(ref))
  {
    var n :| n in access && MayFind(lower, access, ref, Match(access[n])) && Granted(o) == Judge(access[n], minRole);
    var target := lower(ref);
    if exists m :: NameHit(lower, access, target, m) {
      var m :| NameHit(lower, access, target, m) && o == access[m];
    } else {
      var m :| DisplayKeys(lower, access, target) == {m} && o == access[m];
      assert m in DisplayKeys(lower, access, target);
    }
  }

  /** A caller granted an org at one role is granted it at every lower role,
      and refused with InsufficientRole at exactly the higher ones. */
  lemma GrantsAreDownwardClosed<T>(lower: string -> string, access: Access<T>, orgs: seq<Organization<T>>, ref: string, minRole: Role, o: Organization<T>, other: Role)
    requires MayConclude(lower, access, orgs, ref, minRole, Granted(o))
    ensures MayConclude(lower, access, orgs, ref, other, Judge(o, other))
    ensures minRole.AtLeast(other) ==> MayConclude(lower, access, orgs, ref, other, Granted(o))
  {
  }

  /** An org still without an OrgID (zero) is never accessible: Grafana's org
      ids are positive. */
  lemma UnprovisionedIsInaccessible<T>(roles: map<int, Role>, orgs: seq<Organization<T>>, o: Organization<T>)
    requires forall id | id in roles :: id > 0
    requires o in Accessible(roles, orgs)
    ensures o.orgID > 0
    ensures exists i | 0 <= i < |orgs| :: orgs[i].orgID == o.orgID && orgs[i].name == o.name && orgs[i].tenants == o.tenants
  {
    AccessibleMeaning(roles, orgs, o);
    var i :| AccessibleAt(roles, orgs, o, i);
  }
}
