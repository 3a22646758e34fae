/** How the two rewrites of a bound tool fit together, and how the delegated
    and the local handlers agree. */
module ToolBindingLaws {
  import opened Prelude
  import opened AuthzTypes
  import opened Datasources
  import opened ToolBinding
  import opened ToolHandlers

  /** An argument object has every required key and only declared ones. */
  ghost predicate Conforms(keys: set<string>, required: seq<string>, declared: set<string>)
  {
    && (forall r | r in required :: r in keys)
    && keys <= declared
  }

  /** The required list withOrg advertises. */
  function AdvertisedRequired(required: seq<string>, demoteArg: string): seq<string>
  {
    [ORG_ARG] + Filter((r: string) => r != demoteArg, required)
  }

  lemma RequiredSurvives(required: seq<string>, demoteArg: string, keys: set<string>, declared: set<string>)
    requires Conforms(keys, AdvertisedRequired(required, demoteArg), declared)
    ensures ORG_ARG in keys
    ensures forall r | r in required && r != demoteArg :: r in keys
  {
    var advertised := AdvertisedRequired(required, demoteArg);
    assert advertised[0] == ORG_ARG;
    forall r | r in required && r != demoteArg
      ensures r in keys
    {
      FilterMembers((x: string) => x != demoteArg, required, r);
      assert r in advertised;
    }
  }

  /** Stripping alone (org-only tools, or a datasource argument the caller
      supplied): arguments that conform to the advertised schema conform to the
      upstream one afterwards, and are otherwise the caller's own. */
  lemma StrippedArgumentsConform(declared: set<string>, required: seq<string>, demoteArg: string, args: map<string, Json>)
    requires ORG_ARG !in declared && "" !in required
    requires forall r | r in required :: r in declared
    requires Conforms(args.Keys, AdvertisedRequired(required, demoteArg), declared + {ORG_ARG})
    requires demoteArg != "" ==> demoteArg in args
    ensures Conforms((args - {ORG_ARG}).Keys, required, declared)
    ensures forall k | k != ORG_ARG :: k in args - {ORG_ARG} <==> k in args
    ensures forall k | k in args - {ORG_ARG} :: (args - {ORG_ARG})[k] == args[k]
  {
    RequiredSurvives(required, demoteArg, args.Keys, declared + {ORG_ARG});
    forall r | r in required
      ensures r in (args - {ORG_ARG}).Keys
    {
      assert r in declared;
    }
  }

  /** Stripping and injecting: the result conforms to the upstream schema
      exactly when upstream declares the injected argument, and equals the
      caller's arguments on every other key. The advertised schema may or may
      not have demoted that argument. */
  lemma InjectedArgumentsConform(declared: set<string>, required: seq<string>, demoteArg: string, argName: string, args: map<string, Json>, ds: Datasource)
    requires ORG_ARG !in declared && "" !in required && argName != ORG_ARG
    requires forall r | r in required :: r in declared
    requires demoteArg == "" || demoteArg == argName
    requires Conforms(args.Keys, AdvertisedRequired(required, demoteArg), declared + {ORG_ARG})
    requires UIDIn(args, argName) == ""
    ensures var sent := WithSource(args - {ORG_ARG}, argName, ds);
      && (Conforms(sent.Keys, required, declared) <==> argName in declared)
      && sent[argName] == JString(ds.uid)
      && (forall k | k != ORG_ARG && k != argName :: k in sent <==> k in args)
      && (forall k | k in sent && k != argName :: k in args && sent[k] == args[k])
  {
    RequiredSurvives(required, demoteArg, args.Keys, declared + {ORG_ARG});
    var sent := WithSource(args - {ORG_ARG}, argName, ds);
    assert argName in sent;
    forall r | r in required
      ensures r in sent.Keys
    {
      assert r in declared;
    }
  }

  /** The schema that a tool definition carries, if it decodes. */
  function SchemaOf(t: ToolDef): Option<Schema>
  {
    match t
    case Structured(up) => Some(up)
    case RawSchema(decoded) => decoded
  }

  /** The planned call's arguments, where there is a call. */
  lemma PlannedArguments(lower: string -> string, authorize: Authorize, a: Arguments, role: Role, tenantType: string, dsType: string, argName: string,
      cache: Cache, env: Listing)
    requires argName != ORG_ARG
    requires WrapPlan(lower, authorize, a, role, tenantType, dsType, argName, cache, env).Upstream?
    ensures var plan := WrapPlan(lower, authorize, a, role, tenantType, dsType, argName, cache, env);
      && a.Fields?
      && if dsType == "" || UIDIn(a.ref.fields, argName) != "" then plan.arguments == a.ref.fields - {ORG_ARG}
         else exists ds :: plan.arguments == WithSource(a.ref.fields - {ORG_ARG}, argName, ds)
  {
  }

  /** Advertising and rewriting fit together. Take any tool definition whose
      schema decodes; for a datasource tool the demoted argument, if any, is the
      datasource argument. When a caller's arguments conform to the schema that
      withOrg returns, the arguments that the handler sends conform to upstream's
      schema, if and only if the tool is org-only or upstream declares the
      datasource argument. */
  method AdvertiseAndCall(t: ToolDef, demoteArg: string, lower: string -> string, authorize: Authorize, args: JsonObject, role: Role,
      tenantType: string, dsType: string, argName: string, cache: Cache, env: Listing) returns (out: Advertised)
    requires SchemaOf(t).Some? && argName != ORG_ARG
    requires var up := SchemaOf(t).value;
      && ORG_ARG !in up.properties.fields && "" !in up.required
      && forall r | r in up.required :: r in up.properties.fields
    requires demoteArg == "" || (dsType != "" && demoteArg == argName)
    ensures out.Tool?
    ensures var up := SchemaOf(t).value;
      var plan := WrapPlan(lower, authorize, Fields(args), role, tenantType, dsType, argName, cache, env);
      Conforms(args.fields.Keys, out.schema.required, out.schema.properties.fields.Keys) && plan.Upstream? ==>
        (Conforms(plan.arguments.Keys, up.required, up.properties.fields.Keys) <==> dsType == "" || argName in up.properties.fields)
  {
    var up := SchemaOf(t).value;
    out := WithOrg(t, demoteArg);
    ghost var declared := up.properties.fields.Keys;
    ghost var plan := WrapPlan(lower, authorize, Fields(args), role, tenantType, dsType, argName, cache, env);
    if Conforms(args.fields.Keys, out.schema.required, out.schema.properties.fields.Keys) && plan.Upstream? {
      PlannedArguments(lower, authorize, Fields(args), role, tenantType, dsType, argName, cache, env);
      if dsType == "" || UIDIn(args.fields, argName) != "" {
        StrippedArgumentsConform(declared, up.required, demoteArg, args.fields);
        assert argName in args.fields ==> argName in declared;
      } else {
        ghost var ds :| plan.arguments == WithSource(args.fields - {ORG_ARG}, argName, ds);
        InjectedArgumentsConform(declared, up.required, demoteArg, argName, args.fields, ds);
      }
    }
  }

  /** Whether what a fan-out plan sends conforms to upstream's schema. */
  ghost predicate FanoutConforms(plan: FanoutPlan, argName: string, required: seq<string>, declared: set<string>)
  {
    match plan
    case RefuseAll(_) => true
    case PassOn(_, sent) => Conforms(sent.Keys, required, declared)
    case CallEach(_, base, listing) =>
      forall ds | ds in listing :: Conforms(base[argName := JString(ds.uid)].Keys, required, declared) <==> argName in declared
  }

  lemma FannedArgumentsConform(declared: set<string>, required: seq<string>, argName: string, args: map<string, Json>, rulers: seq<Datasource>)
    requires ORG_ARG !in declared && "" !in required && argName != ORG_ARG
    requires forall r | r in required :: r in declared
    requires Conforms(args.Keys, AdvertisedRequired(required, ""), declared + {ORG_ARG})
    requires UIDIn(args, argName) == ""
    ensures forall ds | ds in rulers ::
      Conforms((args - {ORG_ARG})[argName := JString(ds.uid)].Keys, required, declared) <==> argName in declared
  {
    forall ds | ds in rulers {
      InjectedArgumentsConform(declared, required, "", argName, args, ds);
    }
  }

  /** The same for a fan-out tool, whose schema demotes nothing. Every call it
      makes conforms if and only if upstream declares the datasource argument;
      a call with the caller's own datasource always does. */
  method AdvertiseAndFanOut(t: ToolDef, lower: string -> string, authorize: Authorize, args: JsonObject, role: Role,
      tenantType: string, argName: string, cache: Cache, env: Listing) returns (out: Advertised)
    requires SchemaOf(t).Some? && argName != ORG_ARG
    requires var up := SchemaOf(t).value;
      && ORG_ARG !in up.properties.fields && "" !in up.required
      && forall r | r in up.required :: r in up.properties.fields
    ensures out.Tool?
    ensures var up := SchemaOf(t).value;
      Conforms(args.fields.Keys, out.schema.required, out.schema.properties.fields.Keys) ==>
        FanoutConforms(PlanFanout(lower, authorize, Fields(args), role, tenantType, argName, cache, env),
                       argName, up.required, up.properties.fields.Keys)
  {
    var up := SchemaOf(t).value;
    out := WithOrg(t, "");
    ghost var declared := up.properties.fields.Keys;
    ghost var plan := PlanFanout(lower, authorize, Fields(args), role, tenantType, argName, cache, env);
    if Conforms(args.fields.Keys, out.schema.required, out.schema.properties.fields.Keys) {
      if UIDIn(args.fields, argName) != "" {
        StrippedArgumentsConform(declared, up.required, "", args.fields);
      } else if plan.CallEach? {
        FannedArgumentsConform(declared, up.required, argName, args.fields, plan.listing);
      }
    }
  }

  /** A planned upstream call is for the org that this request was authorized
      for, carries no "org" argument, and, for a datasource tool, names a
      datasource of that org's listing that fits the tool's type. */
  lemma PlannedCallIsScoped(lower: string -> string, authorize: Authorize, a: Arguments, role: Role, tenantType: string, dsType: string, argName: string, cache: Cache, env: Listing)
    requires argName != ORG_ARG
    requires WrapPlan(lower, authorize, a, role, tenantType, dsType, argName, cache, env).Upstream?
    ensures var plan := WrapPlan(lower, authorize, a, role, tenantType, dsType, argName, cache, env);
      && StringField(a, ORG_ARG).Some?
      && var org := authorize(StringField(a, ORG_ARG).value, role);
      && org.Some? && plan.orgID == org.value.orgID
      && ORG_ARG !in plan.arguments
      && (dsType != "" ==>
            && (tenantType != "" ==> HasTenantType(org.value.tenants, tenantType))
            && var dss := Listed(cache, env, plan.orgID);
            && dss.Ok?
            && exists ds | ds in dss.value :: MatchesType(lower, ds, dsType) && UIDIn(plan.arguments, argName) == ds.uid)
  {
    if dsType != "" {
      var org := authorize(StringField(a, ORG_ARG).value, role).value;
      var dss := Listed(cache, env, org.orgID).value;
      var uid := UIDIn(a.ref.fields - {ORG_ARG}, argName);
      PickIsListed(lower, dss, dsType, uid);
      var ds := Pick(lower, dss, dsType, uid).value;
      assert ds in dss;
    }
  }

  /** Which datasource a bound tool's call runs on. Without a UID of the
      caller's it is the first listed one that fits the type; with one, the
      first that carries it, if that fits; otherwise there is no call. */
  lemma PlannedPick(lower: string -> string, authorize: Authorize, a: Arguments, role: Role, tenantType: string, dsType: string, argName: string,
      cache: Cache, env: Listing, org: Org, dss: seq<Datasource>)
    requires dsType != "" && argName != "org"
    requires Gate(authorize, a, role, tenantType, true) == Ok(org) && Listed(cache, env, org.orgID) == Ok(dss)
    ensures a.Fields?
    ensures var uid := UIDIn(a.ref.fields, argName);
      var own := a.ref.fields - {"org"};
      match WrapPlan(lower, authorize, a, role, tenantType, dsType, argName, cache, env)
      case Upstream(orgID, sent) =>
        && orgID == org.orgID
        && if uid == "" then exists i :: FirstFits(lower, dss, dsType, i) && sent == own[argName := JString(dss[i].uid)]
           else sent == own && exists i :: FirstNamed(dss, uid, i) && Fits(lower, dss[i], dsType)
      case Refuse(PickFailed(NoneOfType)) => uid == "" && forall i | 0 <= i < |dss| :: !Fits(lower, dss[i], dsType)
      case Refuse(PickFailed(NoSuchUID)) => uid != "" && forall i | 0 <= i < |dss| :: dss[i].uid != uid
      case Refuse(PickFailed(IncompatibleType)) => uid != "" && exists i :: FirstNamed(dss, uid, i) && !Fits(lower, dss[i], dsType)
      case _ => false
  {
    var uid := UIDIn(a.ref.fields, argName);
    if uid == "" {
      DefaultPickMeaning(lower, dss, dsType);
    } else {
      NamedPickMeaning(lower, dss, dsType, uid);
    }
  }

  /** The same of a local handler. */
  lemma ResolvedPick(lower: string -> string, authorize: Authorize, a: Arguments, role: Role, tenantType: string, dsType: string,
      cache: Cache, env: Listing, org: Org, dss: seq<Datasource>)
    requires Gate(authorize, a, role, tenantType, true) == Ok(org) && Listed(cache, env, org.orgID) == Ok(dss)
    ensures a.Fields?
    ensures var uid := UIDIn(a.ref.fields, "datasourceUid");
      match ResolvePlan(lower, authorize, a, role, tenantType, dsType, cache, env)
      case Ok((o, id)) =>
        && o == org
        && if uid == "" then exists i :: FirstFits(lower, dss, dsType, i) && dss[i].id == id
           else exists i :: FirstNamed(dss, uid, i) && Fits(lower, dss[i], dsType) && dss[i].id == id
      case Err(PickFailed(NoneOfType)) => uid == "" && forall i | 0 <= i < |dss| :: !Fits(lower, dss[i], dsType)
      case Err(PickFailed(NoSuchUID)) => uid != "" && forall i | 0 <= i < |dss| :: dss[i].uid != uid
      case Err(PickFailed(IncompatibleType)) => uid != "" && exists i :: FirstNamed(dss, uid, i) && !Fits(lower, dss[i], dsType)
      case _ => false
  {
    var uid := UIDIn(a.ref.fields, "datasourceUid");
    if uid == "" {
      DefaultPickMeaning(lower, dss, dsType);
    } else {
      NamedPickMeaning(lower, dss, dsType, uid);
    }
  }

  /** When a handler's gate stays shut, and why. */
  lemma GateMeaning(authorize: Authorize, a: Arguments, role: Role, tenantType: string, checkTenant: bool)
    ensures match Gate(authorize, a, role, tenantType, checkTenant)
      case Err(MissingOrg) => !(a.Fields? && "org" in a.ref.fields && a.ref.fields["org"].JString?)
      case Err(NotAuthorized) =>
        a.Fields? && "org" in a.ref.fields && a.ref.fields["org"].JString? && authorize(a.ref.fields["org"].s, role) == None
      case Err(NoTenantOfType) =>
        && a.Fields? && "org" in a.ref.fields && a.ref.fields["org"].JString? && authorize(a.ref.fields["org"].s, role).Some?
        && checkTenant && tenantType != ""
        && forall t | t in authorize(a.ref.fields["org"].s, role).value.tenants :: tenantType !in t.types
      case Ok(org) =>
        && a.Fields? && "org" in a.ref.fields && a.ref.fields["org"].JString? && authorize(a.ref.fields["org"].s, role) == Some(org)
        && (checkTenant && tenantType != "" ==> exists t :: t in org.tenants && tenantType in t.types)
      case _ => false
  {
  }

  /** The delegated and the local resolver agree: on the same request, cache
      and environment they fail together, with the same error, or use the same
      org and the same datasource. */
  lemma ResolversAgree(lower: string -> string, authorize: Authorize, a: Arguments, role: Role, tenantType: string, dsType: string, cache: Cache, env: Listing)
    requires dsType != ""
    ensures var plan := WrapPlan(lower, authorize, a, role, tenantType, dsType, DATASOURCE_UID_ARG, cache, env);
      match ResolvePlan(lower, authorize, a, role, tenantType, dsType, cache, env)
      case Err(e) => plan == Refuse(e)
      case Ok((org, id)) =>
        && plan.Upstream? && plan.orgID == org.orgID
        && exists ds | ds in Listed(cache, env, org.orgID).value :: ds.id == id && UIDIn(plan.arguments, DATASOURCE_UID_ARG) == ds.uid
  {
    match ResolvePlan(lower, authorize, a, role, tenantType, dsType, cache, env)
    case Err(_) =>
    case Ok((org, id)) =>
      var dss := Listed(cache, env, org.orgID).value;
      var uid := UIDIn(a.ref.fields - {ORG_ARG}, DATASOURCE_UID_ARG);
      assert uid == StringOrEmpty(a, DATASOURCE_UID_ARG);
      PickIsListed(lower, dss, dsType, uid);
      var ds := Pick(lower, dss, dsType, uid).value;
      assert ds in dss && ds.id == id;
  }

  /** Sending the default pick's UID explicitly leads to the same datasource, if
      and only if that UID is empty or nothing listed earlier carries it; the
      upstream arguments then are the very same. */
  lemma ExplicitDefaultIsTheDefault(lower: string -> string, dss: seq<Datasource>, dsType: string, args: map<string, Json>, argName: string, i: int)
    requires IsFirstOfType(lower, dss, dsType, i) && UIDIn(args, argName) == ""
    ensures Pick(lower, dss, dsType, "") == Ok(dss[i])
    ensures var explicit := args[argName := JString(dss[i].uid)];
      && (Pick(lower, dss, dsType, UIDIn(explicit, argName)) == Ok(dss[i])
          <==> dss[i].uid == "" || forall j | 0 <= j < i :: dss[j].uid != dss[i].uid)
      && WithSource(explicit, argName, dss[i]) == WithSource(args, argName, dss[i])
  {
    DefaultPickAgainIff(lower, dss, dsType, i);
  }
}
