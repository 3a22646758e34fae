/** Tenant slices on the heap, and the cloning that keeps handler writes out of
    the registry. A Go slice is an array reference, nil for the empty slice. */
module OrgClone {
  import opened AuthzTypes

  datatype HeapTenant = HeapTenant(name: string, types: array?<string>)

  type Tenants = array?<HeapTenant>

  type HeapOrg = Organization<Tenants>

  /** The arrays reachable from a tenant slice: the slice itself and each
      tenant's type slice. */
  ghost function Storage(t: Tenants): (s: set<object>)
    reads t
  {
    if t == null then {} else {t as object} + (set i | 0 <= i < t.Length && t[i].types != null :: t[i].types as object)
  }

  function TypesOf(types: array?<string>): seq<string>
    reads types
  {
    if types == null then [] else types[..]
  }

  ghost function TenantAt(t: array<HeapTenant>, i: int): Tenant
    requires 0 <= i < t.Length
    reads t, t[i].types
  {
    Tenant(t[i].name, TypesOf(t[i].types))
  }

  /** The tenants a reader of the slice sees. */
  ghost function View(t: Tenants): seq<Tenant>
    reads t, Storage(t)
  {
    if t == null then [] else seq(t.Length, i requires 0 <= i < t.Length reads t, Storage(t) => TenantAt(t, i))
  }

  ghost function ViewOrg(o: HeapOrg): Organization<seq<Tenant>>
    reads o.tenants, Storage(o.tenants)
  {
    Organization(o.name, o.displayName, o.orgID, o.role, View(o.tenants))
  }

  /** No two tenants share a type slice. */
  ghost predicate Unshared(t: Tenants)
    reads t
  {
    t != null ==> forall i, j | 0 <= i < j < t.Length && t[i].types != null :: t[i].types != t[j].types
  }

  /** slices.Clone */
  method CloneTypes(types: array?<string>) returns (out: array?<string>)
    ensures (out == null) == (types == null)
    ensures out != null ==> fresh(out) && out[..] == types[..]
  {
    if types == null {
      return null;
    }
    var copy := new string[types.Length](i requires 0 <= i < types.Length reads types => types[i]);
    assert copy[..] == types[..];
    return copy;
  }

  method CloneTenants(t: Tenants) returns (out: Tenants)
    ensures (out == null) == (t == null || t.Length == 0)
    ensures fresh(Storage(out)) && Unshared(out)
    ensures View(out) == View(t)
  {
    if t == null || t.Length == 0 {
      return null;
    }
    var copy := new HeapTenant[t.Length](_ => HeapTenant("", null));
    for i := 0 to t.Length
      invariant fresh(Storage(copy))
      invariant forall j | 0 <= j < i :: copy[j].name == t[j].name && (copy[j].types == null) == (t[j].types == null)
      invariant forall j | 0 <= j < i && copy[j].types != null :: copy[j].types[..] == t[j].types[..]
      invariant forall j | i <= j < t.Length :: copy[j].types == null
      invariant Unshared(copy)
    {
      var types := CloneTypes(t[i].types);
      ghost var before := Storage(copy);
      copy[i] := HeapTenant(t[i].name, types);
      assert Storage(copy) <= before + if types == null then {} else {types as object};
    }
    assert View(copy) == View(t);
    return copy;
  }

  /** cloneOrganization: same fields, own tenant storage. */
  method CloneOrganization(o: HeapOrg) returns (out: HeapOrg)
    ensures fresh(Storage(out.tenants)) && Unshared(out.tenants)
    ensures ViewOrg(out) == ViewOrg(o)
  {
    var tenants := CloneTenants(o.tenants);
    return o.(tenants := tenants);
  }

  twostate lemma UnchangedView(o: HeapOrg)
    requires unchanged(old(Storage(o.tenants)))
    ensures ViewOrg(o) == old(ViewOrg(o))
  {
    assert Storage(o.tenants) == old(Storage(o.tenants));
    assert View(o.tenants) == old(View(o.tenants));
  }

  /** Each org of `m` keeps its tenants in storage of its own, all of it
      inside `used`. */
  ghost predicate Apart(m: map<string, HeapOrg>, used: set<object>)
    reads *
  {
    && (forall n | n in m :: Storage(m[n].tenants) <= used && Unshared(m[n].tenants))
    && (forall n, k | n in m && k in m && n != k :: Storage(m[n].tenants) !! Storage(m[k].tenants))
  }

  /** The orgs of `m` read as `views` says. */
  ghost predicate ReadsAs(m: map<string, HeapOrg>, views: map<string, Organization<seq<Tenant>>>)
    reads *
  {
    forall n | n in m :: n in views && ViewOrg(m[n]) == views[n]
  }

  ghost function Views(m: map<string, HeapOrg>): map<string, Organization<seq<Tenant>>>
    reads *
  {
    map n | n in m :: ViewOrg(m[n])
  }

  /** One iteration of the cloning loop. */
  method CloneEntry(m: map<string, HeapOrg>, ghost used: set<object>, ghost views: map<string, Organization<seq<Tenant>>>, key: string, o: HeapOrg)
    returns (out: map<string, HeapOrg>, ghost grown: set<object>)
    requires Apart(m, used) && ReadsAs(m, views)
    requires key !in m && key in views && ViewOrg(o) == views[key]
    ensures out.Keys == m.Keys + {key} && used <= grown && fresh(grown - used)
    ensures Apart(out, grown) && ReadsAs(out, views)
  {
    var c := CloneOrganization(o);
    UnchangedView(o);
    forall n | n in m
      ensures Storage(m[n].tenants) == old(Storage(m[n].tenants)) && Unshared(m[n].tenants) && ViewOrg(m[n]) == old(ViewOrg(m[n]))
    {
      UnchangedView(m[n]);
    }
    out := m[key := c];
    grown := used + Storage(c.tenants);
  }

  /** cloneOrganizations: every entry cloned, and no two entries of the result
      share storage. */
  method CloneOrganizations(access: map<string, HeapOrg>) returns (out: map<string, HeapOrg>, ghost used: set<object>)
    ensures out.Keys == access.Keys
    ensures fresh(used) && Apart(out, used)
    ensures ReadsAs(out, Views(access))
  {
    out := map[];
    used := {};
    ghost var views := Views(access);
    var todo := access.Keys;
    while todo != {}
      invariant todo <= access.Keys && out.Keys == access.Keys - todo
      invariant fresh(used) && Apart(out, used) && ReadsAs(out, views)
    {
      var k :| k in todo;
      todo := todo - {k};
      UnchangedView(access[k]);
      out, used := CloneEntry(out, used, views, k, access[k]);
    }
    forall n | n in access
      ensures ViewOrg(access[n]) == views[n]
    {
      UnchangedView(access[n]);
    }
  }
}
