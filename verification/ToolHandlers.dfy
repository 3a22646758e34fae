/** The handlers built around upstream tools: authorize, strip the org
    argument, resolve a datasource, and call upstream; fanned out over every
    ruler-capable datasource for alert rules; and the local handlers' own
    datasource resolution. */
module ToolHandlers {
  import opened Prelude
  import opened AuthzTypes
  import opened TtlCache
  import opened Datasources
  import opened ToolBinding

  type Org = Organization<seq<Tenant>>

  /** What RequireOrg answers for an org reference and a role. */
  type Authorize = (string, Role) -> Option<Org>

  datatype ToolError =
    | MissingOrg
    | NotAuthorized
    | NoTenantOfType
    | MalformedArguments
    | ListingFailed(e: ListError)
    | PickFailed(p: PickError)

  /** What a bound handler does: refuse, or call upstream for an org with one
      argument object. */
  datatype Plan = Refuse(e: ToolError) | Upstream(orgID: int, arguments: map<string, Json>)

  function Gate(authorize: Authorize, a: Arguments, role: Role, tenantType: string, checkTenant: bool): Result<Org, ToolError>
    reads if a.Fields? then {a.ref} else {}
  {
    match StringField(a, ORG_ARG)
    case None => Err(MissingOrg)
    case Some(ref) =>
      match authorize(ref, role)
      case None => Err(NotAuthorized)
      case Some(org) =>
        if checkTenant && tenantType != "" && !HasTenantType(org.tenants, tenantType) then Err(NoTenantOfType)
        else Ok(org)
  }

  function UIDIn(args: map<string, Json>, argName: string): string
  {
    if argName in args && args[argName].JString? then args[argName].s else ""
  }

  /** The arguments of a datasource call: the caller's own UID is kept, a
      resolved one is added. */
  function WithSource(args: map<string, Json>, argName: string, ds: Datasource): map<string, Json>
  {
    if UIDIn(args, argName) != "" then args else args[argName := JString(ds.uid)]
  }

  /** A datasource call, given the stripped arguments. */
  function SourcePlan(lower: string -> string, orgID: int, args: map<string, Json>, dsType: string, argName: string, cache: Cache, env: Listing): Plan
  {
    match Listed(cache, env, orgID)
    case Err(e) => Refuse(ListingFailed(e))
    case Ok(dss) =>
      match Pick(lower, dss, dsType, UIDIn(args, argName))
      case Err(p) => Refuse(PickFailed(p))
      case Ok(ds) => Upstream(orgID, WithSource(args, argName, ds))
  }

  ghost function WrapPlan(lower: string -> string, authorize: Authorize, a: Arguments, role: Role, tenantType: string, dsType: string,
      argName: string, cache: Cache, env: Listing): Plan
    reads if a.Fields? then {a.ref} else {}
  {
    match Gate(authorize, a, role, tenantType, dsType != "")
    case Err(e) => Refuse(e)
    case Ok(org) =>
      var args := a.ref.fields - {ORG_ARG};
      if dsType == "" then Upstream(org.orgID, args)
      else SourcePlan(lower, org.orgID, args, dsType, argName, cache, env)
  }

  /** resolveDatasource as a function of the listing: the org and the id of the
      datasource, or why not. */
  ghost function ResolvePlan(lower: string -> string, authorize: Authorize, a: Arguments, role: Role, tenantType: string, dsType: string,
      cache: Cache, env: Listing): Result<(Org, int), ToolError>
    reads if a.Fields? then {a.ref} else {}
  {
    match Gate(authorize, a, role, tenantType, true)
    case Err(e) => Err(e)
    case Ok(org) =>
      match Listed(cache, env, org.orgID)
      case Err(e) => Err(ListingFailed(e))
      case Ok(dss) =>
        match Pick(lower, dss, dsType, StringOrEmpty(a, DATASOURCE_UID_ARG))
        case Err(p) => Err(PickFailed(p))
        case Ok(ds) => Ok((org, ds.id))
  }

  predicate IsRulerType(lower: string -> string, kind: string)
  {
    Contains(lower(kind), "prometheus") || Contains(lower(kind), "loki")
  }

  predicate IsRuler(lower: string -> string, ds: Datasource)
  {
    ds.manageAlerts && IsRulerType(lower, ds.kind)
  }

  function Rulers(lower: string -> string, dss: seq<Datasource>): seq<Datasource>
  {
    Filter((ds: Datasource) => IsRuler(lower, ds), dss)
  }

  lemma RulersStep(lower: string -> string, dss: seq<Datasource>, i: nat)
    requires i < |dss|
    ensures Rulers(lower, dss[..i + 1]) == Rulers(lower, dss[..i]) + if IsRuler(lower, dss[i]) then [dss[i]] else []
  {
    FilterAppend((ds: Datasource) => IsRuler(lower, ds), dss[..i], dss[i]);
    assert dss[..i + 1] == dss[..i] + [dss[i]];
  }

  /** Its alerts are managed, and its lower-cased plugin type has prometheus or
      loki in it. */
  ghost predicate HasRulerAPI(lower: string -> string, ds: Datasource)
  {
    ds.manageAlerts && (Inside("prometheus", lower(ds.kind)) || Inside("loki", lower(ds.kind)))
  }

  /** at lists, in listing order, where the datasources with a ruler API are. */
  ghost predicate RulersAt(lower: string -> string, dss: seq<Datasource>, at: seq<nat>)
  {
    && (forall k | 0 <= k < |at| :: at[k] < |dss|)
    && (forall k, l | 0 <= k < l < |at| :: at[k] < at[l])
    && (forall i: nat | i < |dss| :: i in at <==> HasRulerAPI(lower, dss[i]))
  }

  lemma RulersAreFound(lower: string -> string, ds: Datasource)
    ensures IsRuler(lower, ds) <==> HasRulerAPI(lower, ds)
  {
    ContainsMeaning(lower(ds.kind), "prometheus");
    ContainsMeaning(lower(ds.kind), "loki");
  }

  lemma {:induction false} RulersMeaning(lower: string -> string, dss: seq<Datasource>) returns (at: seq<nat>)
    ensures RulersAt(lower, dss, at) && |at| == |Rulers(lower, dss)|
    ensures forall k | 0 <= k < |at| :: Rulers(lower, dss)[k] == dss[at[k]]
  {
    if dss == [] {
      at := [];
    } else {
      var n := |dss| - 1;
      at := RulersMeaning(lower, Front(dss));
      RulersAreFound(lower, dss[n]);
      assert forall i: nat | i < n :: Front(dss)[i] == dss[i];
      if IsRuler(lower, dss[n]) {
        at := at + [n];
      }
    }
  }

  lemma NotLoki(s: string)
    requires 'l' !in s
    ensures !Inside("loki", s)
  {
    forall before, after
      ensures s != before + "loki" + after
    {
      assert (before + "loki" + after)[|before|] == 'l';
    }
  }

  lemma {:induction false} GrowsByOne(at: seq<nat>, k: nat)
    requires k < |at| && forall i, j | 0 <= i < j < |at| :: at[i] < at[j]
    ensures at[0] + k <= at[k]
  {
    if k > 0 {
      GrowsByOne(at, k - 1);
    }
  }

  /** In the listing order mimir, loki and tempo, with alerts not managed on the
      first, the second and third are the ones. */
  lemma {:induction false} RulersOfAListing(lower: string -> string, dss: seq<Datasource>, at: seq<nat>)
    requires lower("prometheus") == "prometheus" && lower("loki") == "loki" && lower("tempo") == "tempo"
    requires |dss| == 4 && dss[0].kind == "prometheus" && dss[1].kind == "prometheus" && dss[2].kind == "loki" && dss[3].kind == "tempo"
    requires !dss[0].manageAlerts && dss[1].manageAlerts && dss[2].manageAlerts && dss[3].manageAlerts
    requires RulersAt(lower, dss, at)
    ensures at == [1, 2]
  {
    assert "prometheus" == "" + "prometheus" + "" && "loki" == "" + "loki" + "";
    assert HasRulerAPI(lower, dss[1]) && HasRulerAPI(lower, dss[2]);
    ShorterIsNotAround("prometheus", "tempo");
    NotLoki("tempo");
    assert 1 in at && 2 in at && 0 !in at && 3 !in at;
    assert forall k | 0 <= k < |at| :: at[k] == 1 || at[k] == 2;
    GrowsByOne(at, |at| - 1);
  }

  datatype UpstreamResult = HardError(message: string) | ToolFailure(text: string) | Success(payload: string)

  /** One line of the merged answer. */
  datatype RulesEntry = RulesEntry(name: string, uid: string, kind: string, rules: Option<string>, error: Option<string>)

  function EntryFor(ds: Datasource, r: UpstreamResult): RulesEntry
  {
    match r
    case HardError(m) => RulesEntry(ds.name, ds.uid, ds.kind, None, Some(m))
    case ToolFailure(t) => RulesEntry(ds.name, ds.uid, ds.kind, None, Some(t))
    case Success(p) => RulesEntry(ds.name, ds.uid, ds.kind, Some(p), None)
  }

  datatype Reply = Refused(e: ToolError) | Answered(result: UpstreamResult)

  datatype FanoutReply = FanoutRefused(e: ToolError) | PassedThrough(result: UpstreamResult) | Merged(entries: seq<RulesEntry>)

  /** What the fan-out handler does: refuse, pass the caller's arguments on to
      one upstream call, or make one call per ruler. */
  datatype FanoutPlan =
    | RefuseAll(e: ToolError)
    | PassOn(orgID: int, arguments: map<string, Json>)
    | CallEach(orgID: int, arguments: map<string, Json>, listing: seq<Datasource>)

  ghost function PlanFanout(lower: string -> string, authorize: Authorize, a: Arguments, role: Role, tenantType: string, argName: string,
      cache: Cache, env: Listing): FanoutPlan
    reads if a.Fields? then {a.ref} else {}
  {
    match Gate(authorize, a, role, tenantType, true)
    case Err(e) => RefuseAll(e)
    case Ok(org) =>
      var args := a.ref.fields - {ORG_ARG};
      if UIDIn(args, argName) != "" then PassOn(org.orgID, args)
      else
        match Listed(cache, env, org.orgID)
        case Err(e) => RefuseAll(ListingFailed(e))
        case Ok(dss) => CallEach(org.orgID, args, dss)
  }

  /** A call as upstream saw it: the org in its context and the very argument
      object it was handed. */
  datatype Received = Received(orgID: int, arguments: JsonObject)

  /** The upstream tool. It answers from the org and the arguments, and it
      remembers what it was handed. */
  class UpstreamTool {
    const answer: (int, map<string, Json>) -> UpstreamResult
    ghost var received: seq<Received>

    constructor (answer: (int, map<string, Json>) -> UpstreamResult)
      ensures this.answer == answer && received == []
    {
      this.answer := answer;
      received := [];
    }

    method Call(orgID: int, arguments: JsonObject) returns (r: UpstreamResult)
      modifies this
      ensures r == answer(orgID, arguments.fields)
      ensures received == old(received) + [Received(orgID, arguments)]
    {
      received := received + [Received(orgID, arguments)];
      r := answer(orgID, arguments.fields);
    }
  }

  method CarriesTenantType(tenants: seq<Tenant>, want: string) returns (found: bool)
    ensures found <==> exists t :: t in tenants && want in t.types
    ensures found == HasTenantType(tenants, want)
  {
    for i := 0 to |tenants|
      invariant forall j | 0 <= j < i :: want !in tenants[j].types
    {
      if want in tenants[i].types {
        return true;
      }
    }
    return false;
  }

  /** What upstream received, and the merged entries, match the datasources one
      for one and in order; every argument object still holds exactly these
      arguments plus the UID, and no two calls were handed the same object. */
  ghost predicate FannedOut(entries: seq<RulesEntry>, calls: seq<Received>, rulers: seq<Datasource>,
      args: map<string, Json>, argName: string, upstream: UpstreamTool, orgID: int)
    reads set i | 0 <= i < |calls| :: calls[i].arguments
  {
    && |entries| == |calls| == |rulers|
    && (forall i | 0 <= i < |rulers| ::
          calls[i].orgID == orgID && calls[i].arguments.fields == args[argName := JString(rulers[i].uid)])
    && (forall i | 0 <= i < |rulers| :: entries[i] == EntryFor(rulers[i], upstream.answer(orgID, args[argName := JString(rulers[i].uid)])))
    && (forall i, j | 0 <= i < j < |calls| :: calls[i].arguments != calls[j].arguments)
  }

  /** An entry names its datasource and reports upstream's answer: the rules, or
      else the error. */
  predicate Reports(entry: RulesEntry, ds: Datasource, r: UpstreamResult)
  {
    && entry.name == ds.name && entry.uid == ds.uid && entry.kind == ds.kind
    && (r.Success? ==> entry.rules == Some(r.payload) && entry.error == None)
    && (r.ToolFailure? ==> entry.rules == None && entry.error == Some(r.text))
    && (r.HardError? ==> entry.rules == None && entry.error == Some(r.message))
  }

  /** One call, with its UID, for every datasource of the listing that has a
      ruler API and for no other, in listing order, each with its entry. */
  ghost predicate CallsTheRulers(lower: string -> string, entries: seq<RulesEntry>, calls: seq<Received>, dss: seq<Datasource>,
      args: map<string, Json>, argName: string, upstream: UpstreamTool, orgID: int)
    reads set i | 0 <= i < |calls| :: calls[i].arguments
  {
    exists at: seq<nat> ::
      && RulersAt(lower, dss, at) && |at| == |calls| == |entries|
      && forall k | 0 <= k < |at| ::
           && calls[k].arguments.fields == args[argName := JString(dss[at[k]].uid)]
           && Reports(entries[k], dss[at[k]], upstream.answer(orgID, args[argName := JString(dss[at[k]].uid)]))
  }

  lemma FannedOutCallsTheRulers(lower: string -> string, entries: seq<RulesEntry>, calls: seq<Received>, dss: seq<Datasource>,
      args: map<string, Json>, argName: string, upstream: UpstreamTool, orgID: int)
    requires FannedOut(entries, calls, Rulers(lower, dss), args, argName, upstream, orgID)
    ensures CallsTheRulers(lower, entries, calls, dss, args, argName, upstream, orgID)
  {
    var at := RulersMeaning(lower, dss);
    forall k | 0 <= k < |at|
      ensures calls[k].arguments.fields == args[argName := JString(dss[at[k]].uid)]
        && Reports(entries[k], dss[at[k]], upstream.answer(orgID, args[argName := JString(dss[at[k]].uid)]))
    {
      assert Rulers(lower, dss)[k] == dss[at[k]];
    }
  }

  lemma OneMoreCall(entries: seq<RulesEntry>, calls: seq<Received>, rulers: seq<Datasource>, args: map<string, Json>, argName: string,
      upstream: UpstreamTool, orgID: int, call: Received, ds: Datasource)
    requires FannedOut(entries, calls, rulers, args, argName, upstream, orgID)
    requires call.orgID == orgID && call.arguments.fields == args[argName := JString(ds.uid)]
    requires forall i | 0 <= i < |calls| :: calls[i].arguments != call.arguments
    ensures FannedOut(entries + [EntryFor(ds, upstream.answer(orgID, args[argName := JString(ds.uid)]))], calls + [call], rulers + [ds],
                      args, argName, upstream, orgID)
  {
  }

  class GfBinder {
    const lower: string -> string
    const authorize: Authorize
    const client: Client

    constructor (lower: string -> string, authorize: Authorize, client: Client)
      ensures this.lower == lower && this.authorize == authorize && this.client == client
    {
      this.lower := lower;
      this.authorize := authorize;
      this.client := client;
    }

    method RequireOrg(a: Arguments, role: Role, tenantType: string, checkTenant: bool) returns (r: Result<Org, ToolError>)
      ensures r == Gate(authorize, a, role, tenantType, checkTenant)
    {
      var ref := StringField(a, ORG_ARG);
      if ref.None? {
        return Err(MissingOrg);
      }
      var org := authorize(ref.value, role);
      if org.None? {
        return Err(NotAuthorized);
      }
      if checkTenant && tenantType != "" {
        var carries := CarriesTenantType(org.value.tenants, tenantType);
        if !carries {
          return Err(NoTenantOfType);
        }
      }
      return Ok(org.value);
    }

    /** The datasource part of a bound tool's handler, on its own copy of the
        arguments. */
    method CallOnSource(orgID: int, req: CallToolRequest, dsType: string, argName: string, upstream: UpstreamTool, env: Listing) returns (reply: Reply)
      requires dsType != "" && req.arguments.Fields?
      modifies client`dsCache, upstream, req
      ensures var args := old(req.arguments.ref.fields);
        match old(SourcePlan(lower, orgID, args, dsType, argName, client.dsCache, env))
        case Refuse(e) => reply == Refused(e) && upstream.received == old(upstream.received)
        case Upstream(id, sent) =>
          && id == orgID && reply == Answered(upstream.answer(orgID, sent))
          && upstream.received != [] && Front(upstream.received) == old(upstream.received)
          && var call := Last(upstream.received);
             && call.orgID == orgID && call.arguments.fields == sent
             && (call.arguments == old(req.arguments.ref) || fresh(call.arguments))
      ensures client.dsCache == After(old(client.dsCache), orgID, ListingVisit(env, orgID, client.ttl))
    {
      var uid := StringOrEmpty(req.arguments, argName);
      if uid != "" {
        var found := client.LookupDatasourceByUID(orgID, uid, env);
        if found == Err(UIDNotFound) {
          return Refused(PickFailed(NoSuchUID));
        }
        if found.Err? {
          return Refused(ListingFailed(found.error));
        }
        if !MatchesType(lower, found.value, dsType) {
          return Refused(PickFailed(IncompatibleType));
        }
        var result := upstream.Call(orgID, req.arguments.ref);
        return Answered(result);
      }
      var listing := client.ListDatasources(orgID, env);
      if listing.Err? {
        return Refused(ListingFailed(listing.error));
      }
      var matches := FilterDatasourcesByType(lower, listing.value, dsType);
      if |matches| == 0 {
        return Refused(PickFailed(NoneOfType));
      }
      var ok := InjectArg(req, argName, JString(matches[0].uid));
      if !ok {
        return Refused(MalformedArguments);
      }
      var result := upstream.Call(orgID, req.arguments.ref);
      return Answered(result);
    }

    /** The handler of a bound tool (dsType "" for org-only tools). What upstream
        receives is exactly the plan: nothing, or one call with the planned
        arguments in a new object. The caller's object is not modified. */
    method Wrap(a: Arguments, role: Role, tenantType: string, dsType: string, argName: string, upstream: UpstreamTool, env: Listing)
      returns (reply: Reply)
      modifies client`dsCache, upstream
      ensures match old(WrapPlan(lower, authorize, a, role, tenantType, dsType, argName, client.dsCache, env))
        case Refuse(e) => reply == Refused(e) && upstream.received == old(upstream.received)
        case Upstream(orgID, args) =>
          && reply == Answered(upstream.answer(orgID, args))
          && upstream.received != [] && Front(upstream.received) == old(upstream.received)
          && var call := Last(upstream.received);
             call.orgID == orgID && fresh(call.arguments) && call.arguments.fields == args
      ensures client.dsCache ==
        match old(Gate(authorize, a, role, tenantType, dsType != ""))
        case Err(_) => old(client.dsCache)
        case Ok(org) => if dsType == "" then old(client.dsCache) else After(old(client.dsCache), org.orgID, ListingVisit(env, org.orgID, client.ttl))
    {
      var gated := RequireOrg(a, role, tenantType, dsType != "");
      if gated.Err? {
        return Refused(gated.error);
      }
      var org := gated.value;
      var req := new CallToolRequest(a);
      var ok := StripOrgArg(req);
      if !ok {
        return Refused(MalformedArguments);
      }
      if dsType == "" {
        var result := upstream.Call(org.orgID, req.arguments.ref);
        return Answered(result);
      }
      reply := CallOnSource(org.orgID, req, dsType, argName, upstream, env);
    }

    /** resolveDatasource, the local handlers' counterpart. */
    method ResolveDatasource(a: Arguments, role: Role, tenantType: string, dsType: string, env: Listing) returns (r: Result<(Org, int), ToolError>)
      modifies client`dsCache
      ensures r == old(ResolvePlan(lower, authorize, a, role, tenantType, dsType, client.dsCache, env))
      ensures client.dsCache ==
        match old(Gate(authorize, a, role, tenantType, true))
        case Err(_) => old(client.dsCache)
        case Ok(org) => After(old(client.dsCache), org.orgID, ListingVisit(env, org.orgID, client.ttl))
    {
      var gated := RequireOrg(a, role, tenantType, true);
      if gated.Err? {
        return Err(gated.error);
      }
      var org := gated.value;
      var uid := StringOrEmpty(a, DATASOURCE_UID_ARG);
      if uid != "" {
        var found := client.LookupDatasourceByUID(org.orgID, uid, env);
        if found == Err(UIDNotFound) {
          return Err(PickFailed(NoSuchUID));
        }
        if found.Err? {
          return Err(ListingFailed(found.error));
        }
        if !MatchesType(lower, found.value, dsType) {
          return Err(PickFailed(IncompatibleType));
        }
        return Ok((org, found.value.id));
      }
      var listing := client.ListDatasources(org.orgID, env);
      if listing.Err? {
        return Err(ListingFailed(listing.error));
      }
      var matches := FilterDatasourcesByType(lower, listing.value, dsType);
      if |matches| == 0 {
        return Err(PickFailed(NoneOfType));
      }
      return Ok((org, matches[0].id));
    }

    /** One upstream call of the fan-out, with arguments of its own. */
    method CallFor(base: JsonObject, argName: string, ds: Datasource, upstream: UpstreamTool, orgID: int) returns (entry: RulesEntry)
      modifies upstream
      ensures var args := base.fields[argName := JString(ds.uid)];
        && entry == EntryFor(ds, upstream.answer(orgID, args))
        && upstream.received != [] && Front(upstream.received) == old(upstream.received)
        && var call := Last(upstream.received);
           call.orgID == orgID && fresh(call.arguments) && call.arguments.fields == args
    {
      var sub := new CallToolRequest(Fields(base));
      var ok := InjectArg(sub, argName, JString(ds.uid));
      if !ok {
        assert false;
      }
      var res := upstream.Call(orgID, sub.arguments.ref);
      entry := EntryFor(ds, res);
    }

    /** The loop over the listing: one upstream call per ruler. */
    method FanOut(base: JsonObject, argName: string, dss: seq<Datasource>, upstream: UpstreamTool, orgID: int) returns (entries: seq<RulesEntry>)
      modifies upstream
      ensures old(upstream.received) <= upstream.received
      ensures var calls := upstream.received[|old(upstream.received)|..];
        && FannedOut(entries, calls, Rulers(lower, dss), base.fields, argName, upstream, orgID)
        && CallsTheRulers(lower, entries, calls, dss, base.fields, argName, upstream, orgID)
        && forall i | 0 <= i < |calls| :: fresh(calls[i].arguments)
    {
      ghost var before := upstream.received;
      ghost var calls: seq<Received> := [];
      entries := [];
      for i := 0 to |dss|
        invariant upstream.received == before + calls
        invariant FannedOut(entries, calls, Rulers(lower, dss[..i]), base.fields, argName, upstream, orgID)
        invariant forall j | 0 <= j < |calls| :: fresh(calls[j].arguments)
      {
        RulersStep(lower, dss, i);
        if !dss[i].manageAlerts || !IsRulerType(lower, dss[i].kind) {
          continue;
        }
        var entry := CallFor(base, argName, dss[i], upstream, orgID);
        OneMoreCall(entries, calls, Rulers(lower, dss[..i]), base.fields, argName, upstream, orgID, Last(upstream.received), dss[i]);
        calls := calls + [Last(upstream.received)];
        assert upstream.received == before + calls;
        entries := entries + [entry];
      }
      assert dss[..|dss|] == dss;
      assert upstream.received[|before|..] == calls;
      FannedOutCallsTheRulers(lower, entries, calls, dss, base.fields, argName, upstream, orgID);
    }

    /** The fan-out handler. What upstream receives is exactly the plan: nothing
        on a refusal; the caller's arguments without "org" in one new object
        where the caller names a datasource; and otherwise, in listing order,
        one new object per ruler-capable datasource, all distinct, each still
        holding the caller's arguments without "org" plus that datasource's UID
        when the handler returns. */
    method WrapFanout(a: Arguments, role: Role, tenantType: string, argName: string, upstream: UpstreamTool, env: Listing)
      returns (reply: FanoutReply)
      modifies client`dsCache, upstream
      ensures old(upstream.received) <= upstream.received
      ensures var calls := upstream.received[|old(upstream.received)|..];
        && (forall i | 0 <= i < |calls| :: fresh(calls[i].arguments))
        && match old(PlanFanout(lower, authorize, a, role, tenantType, argName, client.dsCache, env))
           case RefuseAll(e) => reply == FanoutRefused(e) && calls == []
           case PassOn(orgID, args) =>
             && reply == PassedThrough(upstream.answer(orgID, args))
             && |calls| == 1 && calls[0].orgID == orgID && calls[0].arguments.fields == args
           case CallEach(orgID, args, dss) =>
             && reply.Merged? && FannedOut(reply.entries, calls, Rulers(lower, dss), args, argName, upstream, orgID)
             && CallsTheRulers(lower, reply.entries, calls, dss, args, argName, upstream, orgID)
      ensures client.dsCache ==
        match old(Gate(authorize, a, role, tenantType, true))
        case Err(_) => old(client.dsCache)
        case Ok(org) =>
          if UIDIn(old(a.ref.fields) - {ORG_ARG}, argName) != "" then old(client.dsCache)
          else After(old(client.dsCache), org.orgID, ListingVisit(env, org.orgID, client.ttl))
    {
      var gated := RequireOrg(a, role, tenantType, true);
      if gated.Err? {
        return FanoutRefused(gated.error);
      }
      var org := gated.value;
      var req := new CallToolRequest(a);
      var ok := StripOrgArg(req);
      if !ok {
        return FanoutRefused(MalformedArguments);
      }
      var uid := StringOrEmpty(req.arguments, argName);
      if uid != "" {
        var result := upstream.Call(org.orgID, req.arguments.ref);
        return PassedThrough(result);
      }
      var listing := client.ListDatasources(org.orgID, env);
      if listing.Err? {
        return FanoutRefused(ListingFailed(listing.error));
      }
      var entries := FanOut(req.arguments.ref, argName, listing.value, upstream, org.orgID);
      reply := Merged(entries);
    }
  }
}
