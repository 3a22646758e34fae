/** The step machine's effects are what the tool handlers do: the machine speaks
    of datasources, the handlers of argument objects. */
module GatewayBinding {
  import opened Prelude
  import opened AuthzTypes
  import opened Datasources
  import opened ToolBinding
  import opened ToolHandlers
  import G = Gateway

  /** A handler's gate is the machine's: past the org argument and the
      authorizer, it opens exactly when the machine's tenant gate does. */
  lemma GatesAgree(authorize: Authorize, a: Arguments, role: Role, tenantType: string, dsType: string, uid: string)
    requires StringField(a, ORG_ARG).Some? && authorize(StringField(a, ORG_ARG).value, role).Some?
    ensures var org := authorize(StringField(a, ORG_ARG).value, role).value;
      && Gate(authorize, a, role, tenantType, true)
         == (if G.TenantGate(G.SourceTool(tenantType, dsType, uid), org) then Ok(org) else Err(NoTenantOfType))
      && G.TenantGate(G.FanoutTool(tenantType, uid), org) == G.TenantGate(G.SourceTool(tenantType, dsType, uid), org)
      && Gate(authorize, a, role, tenantType, false) == Ok(org) && G.TenantGate(G.OrgTool, org)
  {
  }

  /** A datasource tool whose gate has opened and whose listing is in hand calls
      upstream with the arguments for a datasource exactly when the machine's
      effect is a call on that datasource, and is refused exactly when the
      machine has no effect. */
  lemma WrapHasTheEffect(cfg: G.Config, authorize: Authorize, a: Arguments, role: Role, tenantType: string, dsType: string, argName: string,
      cache: Cache, env: Listing, org: Org, dss: seq<Datasource>)
    requires dsType != "" && Gate(authorize, a, role, tenantType, true) == Ok(org) && Listed(cache, env, org.orgID) == Ok(dss)
    ensures a.Fields?
    ensures var args := a.ref.fields - {ORG_ARG};
      var tool := G.SourceTool(tenantType, dsType, UIDIn(args, argName));
      match WrapPlan(cfg.lower, authorize, a, role, tenantType, dsType, argName, cache, env)
      case Refuse(e) => e.PickFailed? && G.EffectOf(cfg, tool, org.orgID, dss) == None
      case Upstream(orgID, sent) =>
        && orgID == org.orgID
        && exists ds :: G.EffectOf(cfg, tool, org.orgID, dss) == Some(G.CallSource(org.orgID, ds)) && sent == WithSource(args, argName, ds)
  {
  }

  /** An org tool's call is the machine's. */
  lemma OrgToolHasTheEffect(cfg: G.Config, authorize: Authorize, a: Arguments, role: Role, tenantType: string, argName: string,
      cache: Cache, env: Listing, org: Org, dss: seq<Datasource>)
    requires Gate(authorize, a, role, tenantType, false) == Ok(org)
    ensures a.Fields?
    ensures WrapPlan(cfg.lower, authorize, a, role, tenantType, "", argName, cache, env) == Upstream(org.orgID, a.ref.fields - {ORG_ARG})
    ensures G.EffectOf(cfg, G.OrgTool, org.orgID, dss) == Some(G.CallOrg(org.orgID))
  {
  }

  /** A fan-out tool without an override calls upstream for exactly the
      datasources of the machine's effect, in order; with one, it makes the one
      call that the machine takes without a listing. */
  lemma FanoutHasTheEffect(cfg: G.Config, authorize: Authorize, a: Arguments, role: Role, tenantType: string, argName: string,
      cache: Cache, env: Listing, org: Org, dss: seq<Datasource>)
    requires Gate(authorize, a, role, tenantType, true) == Ok(org) && Listed(cache, env, org.orgID) == Ok(dss)
    ensures a.Fields?
    ensures var args := a.ref.fields - {ORG_ARG};
      var tool := G.FanoutTool(tenantType, UIDIn(args, argName));
      match PlanFanout(cfg.lower, authorize, a, role, tenantType, argName, cache, env)
      case RefuseAll(_) => false
      case PassOn(orgID, sent) => orgID == org.orgID && sent == args && !G.NeedsSources(tool)
      case CallEach(orgID, base, listing) =>
        && orgID == org.orgID && base == args && listing == dss && G.NeedsSources(tool)
        && G.EffectOf(cfg, tool, org.orgID, dss) == Some(G.CallSources(org.orgID, Rulers(cfg.lower, dss)))
  {
  }
}
